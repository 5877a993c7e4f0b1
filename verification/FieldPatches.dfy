/** Patches to the fields that a workflow manages: validation, merging, and replaying the recorded change. */
module FieldPatches {
  import opened Common
  import opened JsonValues
  import opened Text
  import opened Values
  import D = Definitions

  type Fields = map<string, Json>

  datatype Issue = UnknownField | Refused(message: Message)

  /** Problems by field; the source lists them sorted by their distinct paths. */
  type Issues = map<string, Issue>

  // ---- what a patch means ------------------------------------------------------------------------

  function CheckEntry(fm: Formats, w: D.Workflow, k: string, v: Json): Result<Option<Json>, Issue> {
    match w.FindField(k)
    case None => Err(UnknownField)
    case Some(f) =>
      match CheckValue(fm, f.kind, f.options, None, v)
      case Bad(m) => Err(Refused(m))
      case Absent => Ok(None)
      case Good(x) => Ok(Some(x))
  }

  function IssuesOf(fm: Formats, w: D.Workflow, patch: Fields): Issues {
    map k | k in patch && CheckEntry(fm, w, k, patch[k]).Err? :: CheckEntry(fm, w, k, patch[k]).error
  }

  function Before(current: Fields, k: string): Option<Json> {
    if k in current then Some(current[k]) else None
  }

  /** A value that compares equal to the stored one does not replace it. */
  function Kept(fm: Formats, before: Option<Json>, v: Option<Json>): Option<Json> {
    if v.Some? && before.Some? && JsonEqual(fm.round, before.value, v.value) then before else v
  }

  /** The value of field k afterwards: what the patch says, and otherwise what it was. */
  function After(fm: Formats, w: D.Workflow, current: Fields, patch: Fields, k: string): Option<Json> {
    if k in patch && CheckEntry(fm, w, k, patch[k]).Ok? then
      Kept(fm, Before(current, k), CheckEntry(fm, w, k, patch[k]).value)
    else Before(current, k)
  }

  function Merged(fm: Formats, w: D.Workflow, current: Fields, patch: Fields): Fields {
    map k | k in current.Keys + patch.Keys && After(fm, w, current, patch, k).Some? ::
      After(fm, w, current, patch, k).value
  }

  /** The entries whose value differs afterwards; null stands for a removed one. */
  function Changed(fm: Formats, w: D.Workflow, current: Fields, patch: Fields): Fields {
    map k | k in patch && After(fm, w, current, patch, k) != Before(current, k)
      :: if After(fm, w, current, patch, k).Some? then After(fm, w, current, patch, k).value else Null
  }

  // ---- the loops ---------------------------------------------------------------------------------

  method ValidateWorkflowFields(fm: Formats, w: D.Workflow, fields: Fields)
    returns (out: map<string, Option<Json>>, problems: Issues)
    ensures problems == IssuesOf(fm, w, fields)
    ensures out == map k | k in fields && CheckEntry(fm, w, k, fields[k]).Ok? :: CheckEntry(fm, w, k, fields[k]).value
  {
    hide CheckEntry;
    out, problems := map[], map[];
    var todo := fields.Keys;
    while todo != {}
      invariant todo <= fields.Keys
      invariant forall k :: k in problems <==> k in fields && k !in todo && CheckEntry(fm, w, k, fields[k]).Err?
      invariant forall k :: k in problems ==> problems[k] == CheckEntry(fm, w, k, fields[k]).error
      invariant forall k :: k in out <==> k in fields && k !in todo && CheckEntry(fm, w, k, fields[k]).Ok?
      invariant forall k :: k in out ==> out[k] == CheckEntry(fm, w, k, fields[k]).value
      decreases |todo|
    {
      var k :| k in todo;
      todo := todo - {k};
      match CheckEntry(fm, w, k, fields[k])
      case Err(issue) => problems := problems[k := issue];
      case Ok(v) => out := out[k := v];
    }
  }

  /** Splits a patch into values to set and fields to unset. */
  method SplitPatch(w: D.Workflow, patch: Fields) returns (sets: Fields, unset: set<string>, problems: Issues)
    ensures sets == map k | k in patch && !patch[k].Null? :: patch[k]
    ensures unset == set k | k in patch && patch[k].Null? && w.FindField(k).Some?
    ensures problems == map k | k in patch && patch[k].Null? && w.FindField(k).None? :: UnknownField
  {
    sets, unset, problems := map[], {}, map[];
    var todo := patch.Keys;
    while todo != {}
      invariant todo <= patch.Keys
      invariant sets == map k | k in patch && k !in todo && !patch[k].Null? :: patch[k]
      invariant unset == set k | k in patch && k !in todo && patch[k].Null? && w.FindField(k).Some?
      invariant problems == map k | k in patch && k !in todo && patch[k].Null? && w.FindField(k).None? :: UnknownField
      decreases |todo|
    {
      var k :| k in todo;
      todo := todo - {k};
      if !patch[k].Null? {
        sets := sets[k := patch[k]];
      } else if w.FindField(k).None? {
        problems := problems[k := UnknownField];
      } else {
        unset := unset + {k};
      }
    }
  }

  /** The state of the two result maps once the entries outside `todo` are applied. */
  ghost predicate Applied(fm: Formats, w: D.Workflow, current: Fields, patch: Fields, todo: set<string>,
        merged: Fields, changed: Fields) {
    MergedSoFar(fm, w, current, patch, todo, merged) && ChangedSoFar(fm, w, current, patch, todo, changed)
  }

  ghost predicate MergedSoFar(fm: Formats, w: D.Workflow, current: Fields, patch: Fields, todo: set<string>,
        merged: Fields) {
    forall k :: Before(merged, k) ==
      if k in patch && k !in todo then After(fm, w, current, patch, k) else Before(current, k)
  }

  ghost predicate ChangedSoFar(fm: Formats, w: D.Workflow, current: Fields, patch: Fields, todo: set<string>,
        changed: Fields) {
    forall k :: Before(changed, k) ==
      if k in patch && k !in todo && After(fm, w, current, patch, k) != Before(current, k) then
        Some(ChangeOf(After(fm, w, current, patch, k)))
      else None
  }

  function ChangeOf(v: Option<Json>): Json {
    if v.Some? then v.value else Null
  }

  lemma SameEntries(m: Fields, m': Fields)
    requires forall k :: Before(m, k) == Before(m', k)
    ensures m == m'
  {
    forall k ensures (k in m <==> k in m') && (k in m ==> m[k] == m'[k]) {
      assert Before(m, k) == Before(m', k);
    }
  }

  lemma AllApplied(fm: Formats, w: D.Workflow, current: Fields, patch: Fields, merged: Fields, changed: Fields)
    requires Applied(fm, w, current, patch, {}, merged, changed)
    ensures merged == Merged(fm, w, current, patch) && changed == Changed(fm, w, current, patch)
  {
    hide CheckEntry, Merged, Changed, After, Before;
    forall k ensures Before(merged, k) == Before(Merged(fm, w, current, patch), k) {
      MergedAt(fm, w, current, patch, k);
    }
    SameEntries(merged, Merged(fm, w, current, patch));
    forall k ensures Before(changed, k) == Before(Changed(fm, w, current, patch), k) {
      ChangedAt(fm, w, current, patch, k);
    }
    SameEntries(changed, Changed(fm, w, current, patch));
  }

  lemma MergedAt(fm: Formats, w: D.Workflow, current: Fields, patch: Fields, k: string)
    ensures Before(Merged(fm, w, current, patch), k) == After(fm, w, current, patch, k)
    ensures k !in patch ==> After(fm, w, current, patch, k) == Before(current, k)
  {
    hide CheckEntry;
  }

  lemma ChangedAt(fm: Formats, w: D.Workflow, current: Fields, patch: Fields, k: string)
    ensures var v := After(fm, w, current, patch, k);
            Before(Changed(fm, w, current, patch), k) ==
              if k in patch && v != Before(current, k) then Some(ChangeOf(v)) else None
  {
    hide CheckEntry, After;
  }

  /** One entry of the patch, applied to both maps. */
  method ApplyEntry(fm: Formats, merged: Fields, changed: Fields, k: string, v: Option<Json>)
    returns (merged': Fields, changed': Fields)
    ensures var a := Kept(fm, Before(merged, k), v);
            merged' == (if a.Some? then merged[k := a.value] else merged - {k}) &&
            changed' == if a == Before(merged, k) then changed else changed[k := ChangeOf(a)]
  {
    merged', changed' := merged, changed;
    if v.None? {
      if k in merged {
        merged' := merged - {k};
        changed' := changed[k := Null];
      }
    } else {
      if k !in merged || !JsonEqual(fm.round, merged[k], v.value) {
        merged' := merged[k := v.value];
        changed' := changed[k := v.value];
      }
    }
  }

  lemma Untouched(fm: Formats, w: D.Workflow, current: Fields, patch: Fields, todo: set<string>, k: string,
                  merged: Fields, changed: Fields)
    requires Applied(fm, w, current, patch, todo, merged, changed) && k in todo
    ensures Before(merged, k) == Before(current, k)
  {
    hide After;
  }

  lemma EntryApplied(fm: Formats, w: D.Workflow, current: Fields, patch: Fields, todo: set<string>, k: string,
                     merged: Fields, changed: Fields, merged': Fields, changed': Fields)
    requires Applied(fm, w, current, patch, todo, merged, changed) && k in todo && k in patch
    requires var v := After(fm, w, current, patch, k);
             merged' == (if v.Some? then merged[k := v.value] else merged - {k}) &&
             changed' == if v == Before(merged, k) then changed else changed[k := ChangeOf(v)]
    ensures Applied(fm, w, current, patch, todo - {k}, merged', changed')
  {
    hide After, ChangeOf;
    forall j
      ensures Before(merged', j) ==
              if j in patch && j !in todo - {k} then After(fm, w, current, patch, j) else Before(current, j)
    {
      assert j != k ==> Before(merged', j) == Before(merged, j);
    }
    assert Before(changed, k) == None;
    assert Before(merged, k) == Before(current, k);
    forall j ensures j != k ==> Before(changed', j) == Before(changed, j) {}
  }

  /** Drops the unset fields. */
  method UnsetAll(fm: Formats, w: D.Workflow, current: Fields, patch: Fields, unset: set<string>, rest: set<string>)
    returns (merged: Fields, changed: Fields)
    requires unset + rest == patch.Keys && unset !! rest
    requires forall k :: k in unset ==> After(fm, w, current, patch, k) == None
    ensures Applied(fm, w, current, patch, rest, merged, changed)
  {
    hide Applied, After;
    merged, changed := current, map[];
    NothingApplied(fm, w, current, patch);
    var todo := unset;
    while todo != {}
      invariant todo <= unset
      invariant Applied(fm, w, current, patch, todo + rest, merged, changed)
      decreases |todo|
    {
      var k :| k in todo;
      assert (todo + rest) - {k} == (todo - {k}) + rest;
      var m, c := ApplyEntry(fm, merged, changed, k, None);
      EntryApplied(fm, w, current, patch, todo + rest, k, merged, changed, m, c);
      merged, changed, todo := m, c, todo - {k};
    }
    assert {} + rest == rest;
  }

  /** Sets the normalized values; a blank one unsets. */
  method SetAll(fm: Formats, w: D.Workflow, current: Fields, patch: Fields, clean: map<string, Option<Json>>,
        before: (Fields, Fields))
    returns (merged: Fields, changed: Fields)
    requires clean.Keys <= patch.Keys && Applied(fm, w, current, patch, clean.Keys, before.0, before.1)
    requires forall k :: k in clean ==> After(fm, w, current, patch, k) == Kept(fm, Before(current, k), clean[k])
    ensures Applied(fm, w, current, patch, {}, merged, changed)
  {
    hide Applied, After, Before, Kept;
    merged, changed := before.0, before.1;
    var todo := clean.Keys;
    while todo != {}
      invariant todo <= clean.Keys
      invariant Applied(fm, w, current, patch, todo, merged, changed)
      decreases |todo|
    {
      var k :| k in todo;
      Untouched(fm, w, current, patch, todo, k, merged, changed);
      var m, c := ApplyEntry(fm, merged, changed, k, clean[k]);
      EntryApplied(fm, w, current, patch, todo, k, merged, changed, m, c);
      merged, changed, todo := m, c, todo - {k};
    }
  }

  method MergeFields(fm: Formats, w: D.Workflow, current: Fields, patch: Fields)
    returns (r: Result<(Fields, Fields), Issues>)
    ensures r == if IssuesOf(fm, w, patch) != map[] then Err(IssuesOf(fm, w, patch))
                 else Ok((Merged(fm, w, current, patch), Changed(fm, w, current, patch)))
  {
    hide CheckEntry, Applied, After, IssuesOf, Merged, Changed;
    var sets, unset, problems := SplitPatch(w, patch);
    var clean, more := ValidateWorkflowFields(fm, w, sets);
    problems := problems + more;
    SplitIssues(fm, w, patch, sets);
    if problems != map[] {
      return Err(problems);
    }
    CleanCovers(fm, w, current, patch, sets, unset, clean);
    var merged, changed := UnsetAll(fm, w, current, patch, unset, clean.Keys);
    merged, changed := SetAll(fm, w, current, patch, clean, (merged, changed));
    AllApplied(fm, w, current, patch, merged, changed);
    return Ok((merged, changed));
  }

  lemma NothingApplied(fm: Formats, w: D.Workflow, current: Fields, patch: Fields)
    ensures Applied(fm, w, current, patch, patch.Keys, current, map[])
  {
  }

  lemma NullIsOk(fm: Formats, w: D.Workflow, k: string)
    ensures CheckEntry(fm, w, k, Null) == if w.FindField(k).None? then Err(UnknownField) else Ok(None)
  {
  }

  lemma SplitIssues(fm: Formats, w: D.Workflow, patch: Fields, sets: Fields)
    requires sets == map k | k in patch && !patch[k].Null? :: patch[k]
    ensures (map k | k in patch && patch[k].Null? && w.FindField(k).None? :: UnknownField) + IssuesOf(fm, w, sets) ==
            IssuesOf(fm, w, patch)
  {
    hide CheckEntry;
    forall k | k in patch && patch[k].Null? { NullIsOk(fm, w, k); }
  }

  /** Without problems, the two lists to apply cover the patch and hold its settled values. */
  lemma CleanCovers(fm: Formats, w: D.Workflow, current: Fields, patch: Fields, sets: Fields, unset: set<string>,
        clean: map<string, Option<Json>>)
    requires IssuesOf(fm, w, patch) == map[]
    requires sets == map k | k in patch && !patch[k].Null? :: patch[k]
    requires unset == set k | k in patch && patch[k].Null? && w.FindField(k).Some?
    requires clean == map k | k in sets && CheckEntry(fm, w, k, sets[k]).Ok? :: CheckEntry(fm, w, k, sets[k]).value
    ensures unset + clean.Keys == patch.Keys && unset !! clean.Keys
    ensures forall k :: k in clean ==> After(fm, w, current, patch, k) == Kept(fm, Before(current, k), clean[k])
    ensures forall k :: k in unset ==> After(fm, w, current, patch, k) == None
  {
    hide CheckEntry;
    forall k | k in patch ensures CheckEntry(fm, w, k, patch[k]).Ok? {
      assert k !in IssuesOf(fm, w, patch);
    }
    forall k | k in patch && patch[k].Null? { NullIsOk(fm, w, k); }
  }

  // ---- properties ----------------------------------------------------------------------------------

  /** The reading of a recorded change: set what it holds, drop what it holds as null. */
  function Replay(fields: Fields, change: Fields): Fields {
    map k | k in fields.Keys + change.Keys && !(k in change && change[k].Null?) ::
      if k in change then change[k] else fields[k]
  }

  /** Every stored value belongs to a declared field and validates to itself. */
  ghost predicate Clean(fm: Formats, w: D.Workflow, fields: Fields) {
    forall k :: k in fields ==> CheckEntry(fm, w, k, fields[k]) == Ok(Some(fields[k]))
  }

  lemma SettledIsStable(fm: Formats, w: D.Workflow, k: string, v: Json)
    requires CheckEntry(fm, w, k, v).Ok? && CheckEntry(fm, w, k, v).value.Some?
    ensures var x := CheckEntry(fm, w, k, v).value.value; CheckEntry(fm, w, k, x) == Ok(Some(x)) && !x.Null?
  {
    var f := w.FindField(k).value;
    AcceptedIsStable(fm, f.kind, f.options, None, v);
  }

  lemma MergedStaysClean(fm: Formats, w: D.Workflow, current: Fields, patch: Fields)
    requires Clean(fm, w, current)
    ensures Clean(fm, w, Merged(fm, w, current, patch))
  {
    hide CheckEntry;
    var m := Merged(fm, w, current, patch);
    forall k | k in m ensures CheckEntry(fm, w, k, m[k]) == Ok(Some(m[k])) {
      if k in patch && CheckEntry(fm, w, k, patch[k]).Ok? { SettledIsStable(fm, w, k, patch[k]); }
    }
  }

  /** Replaying the recorded change on the old map gives the new map. */
  lemma ChangeReplays(fm: Formats, w: D.Workflow, current: Fields, patch: Fields)
    requires Clean(fm, w, current)
    ensures Replay(current, Changed(fm, w, current, patch)) == Merged(fm, w, current, patch)
  {
    hide CheckEntry;
    forall k | k in patch && CheckEntry(fm, w, k, patch[k]).Ok? && CheckEntry(fm, w, k, patch[k]).value.Some? {
      SettledIsStable(fm, w, k, patch[k]);
    }
  }

  /** Nothing is recorded exactly when nothing changed, and no smaller record would do. */
  lemma ChangedIffDifferent(fm: Formats, w: D.Workflow, current: Fields, patch: Fields)
    ensures Changed(fm, w, current, patch) == map[] <==> Merged(fm, w, current, patch) == current
    ensures forall k :: k in Changed(fm, w, current, patch) <==>
            Before(Merged(fm, w, current, patch), k) != Before(current, k)
  {
    hide CheckEntry;
    var m, c := Merged(fm, w, current, patch), Changed(fm, w, current, patch);
    forall k ensures k in c <==> Before(m, k) != Before(current, k) {
      assert Before(m, k) == After(fm, w, current, patch, k);
    }
    if c == map[] {
      forall k ensures k in m <==> k in current {
        assert Before(m, k) == Before(current, k);
      }
      forall k | k in m ensures m[k] == current[k] {
        assert Before(m, k) == Before(current, k);
      }
      assert m == current;
    } else {
      var k :| k in c;
      assert Before(m, k) != Before(current, k);
    }
  }

  /** A patch that only repeats or unsets what is already so changes nothing; applying a patch twice is applying it
      once. */
  lemma PatchIsIdempotent(fm: Formats, w: D.Workflow, current: Fields, patch: Fields)
    ensures var m := Merged(fm, w, current, patch); Merged(fm, w, m, patch) == m && Changed(fm, w, m, patch) == map[]
  {
    hide CheckEntry;
    var m := Merged(fm, w, current, patch);
    forall k | k in patch ensures After(fm, w, m, patch, k) == Before(m, k) {
      assert Before(m, k) == After(fm, w, current, patch, k);
    }
    assert Changed(fm, w, m, patch) == map[];
    ChangedIffDifferent(fm, w, m, patch);
  }

  /** A patch sets what it asks for unless a different value is stored that compares equal, which takes a number that
      no double holds. */
  lemma AskedIsSet(fm: Formats, w: D.Workflow, current: Fields, patch: Fields, k: string)
    requires k in patch && CheckEntry(fm, w, k, patch[k]).Ok?
    ensures var asked, before := CheckEntry(fm, w, k, patch[k]).value, Before(current, k);
            (After(fm, w, current, patch, k) != asked <==>
               asked.Some? && before.Some? && before != asked && JsonEqual(fm.round, before.value, asked.value)) &&
            (asked.Some? && before.Some? && Exact(fm.round, before.value) && Exact(fm.round, asked.value) ==>
               After(fm, w, current, patch, k) == asked)
  {
    hide CheckEntry, JsonEqual, Exact;
    var asked := CheckEntry(fm, w, k, patch[k]).value;
    if asked.Some? && k in current { JsonEqualIsEquality(fm.round, current[k], asked.value); }
  }

  /** An entry is refused if the workflow has no field of that key, or for the reason for which its value is; null and
      whatever else counts as missing unsets the field, and any other value is set in its normal form. */
  lemma EntryMeans(fm: Formats, w: D.Workflow, k: string, v: Json)
    ensures CheckEntry(fm, w, k, v) == Err(UnknownField) <==>
            forall i :: 0 <= i < |w.fields| ==> w.fields[i].key != k
    ensures forall i :: 0 <= i < |w.fields| && w.fields[i].key == k ==>
              (exists j :: 0 <= j < i && w.fields[j].key == k) ||
              match CheckValue(fm, w.fields[i].kind, w.fields[i].options, None, v)
              case Absent => CheckEntry(fm, w, k, v) == Ok(None)
              case Bad(m) => CheckEntry(fm, w, k, v) == Err(Refused(m))
              case Good(x) => CheckEntry(fm, w, k, v) == Ok(Some(x))
  {
    hide CheckValue;
    forall i | 0 <= i < |w.fields| && w.fields[i].key == k && forall j :: 0 <= j < i ==> w.fields[j].key != k {
      FirstIsFound(w.fields, i);
    }
  }

  lemma {:induction false} FirstIsFound(fs: seq<D.WorkflowField>, i: nat)
    requires i < |fs| && forall j :: 0 <= j < i ==> fs[j].key != fs[i].key
    ensures D.FirstField(fs, fs[i].key) == Some(fs[i])
  {
    if i > 0 { FirstIsFound(fs[1..], i - 1); }
  }

  /** The map afterwards, entry by entry: what the patch does not name stays; what it unsets is gone; and what it sets
      has the new value, or still the old one if the two are equal as doubles. */
  lemma MergeMeans(fm: Formats, w: D.Workflow, current: Fields, patch: Fields, k: string)
    requires forall j :: j in patch ==> CheckEntry(fm, w, j, patch[j]).Ok?
    ensures var m := Merged(fm, w, current, patch);
            if k !in patch then (k in m <==> k in current) && (k in m ==> m[k] == current[k])
            else match CheckEntry(fm, w, k, patch[k]).value
              case None => k !in m
              case Some(v) =>
                k in m &&
                if k in current && Rounded(fm.round, current[k]) == Rounded(fm.round, v) then m[k] == current[k]
                else m[k] == v
  {
    hide CheckEntry, JsonEqual, Rounded;
    if k in patch && k in current && CheckEntry(fm, w, k, patch[k]).value.Some? {
      JsonEqualIsRoundedEquality(fm.round, current[k], CheckEntry(fm, w, k, patch[k]).value.value);
    }
  }
}
