/** Renaming a workflow field in the editor keeps the engine's decisions, unless the editor cleans up roles on the
    way. */
module FieldRenaming {
  import opened Common
  import opened DefinitionRules
  import opened Definitions
  import opened Engine
  import opened FieldPatches
  import opened JsonValues
  import opened Text
  import D = Definitions
  import R = WorkflowReducer

  /** What the editor makes of a stored workflow when a field is renamed. */
  function Edited(space: set<char>, w: Workflow, index: nat, key: string): Workflow
    requires index < |w.fields|
  {
    R.FieldRenamed(space, R.Normalized(w), index, key)
  }

  /** The engine's view of a rename: two field names exchanged. */
  ghost predicate FieldsExchanged(a: string, b: string, w: Workflow, w': Workflow) {
    |w'.fields| == |w.fields| &&
    (forall i, j :: 0 <= i < j < |w.fields| ==> w.fields[i].key != w.fields[j].key) &&
    forall i :: 0 <= i < |w.fields| ==> w'.fields[i] == w.fields[i].(key := Swap(a, b, w.fields[i].key))
  }

  /** The same transition, which requires the exchanged fields; roles are another matter. */
  ghost predicate RequiresExchanged(a: string, b: string, t: D.Transition, t': D.Transition) {
    t'.key == t.key && t'.Sources() == t.Sources() && t'.to == t.to && t'.actions == t.actions &&
    forall k :: Swap(a, b, k) in t'.guard.requireFields <==> k in t.guard.requireFields
  }

  ghost predicate Exchanged(a: string, b: string, w: Workflow, w': Workflow) {
    FieldsExchanged(a, b, w, w') && |w'.TransitionList()| == |w.TransitionList()| &&
    forall i :: 0 <= i < |w.TransitionList()| ==> RequiresExchanged(a, b, w.TransitionList()[i], w'.TransitionList()[i])
  }

  // ---- fields and patches ------------------------------------------------------------------------------

  lemma {:induction false} FirstFieldIs(fs: seq<WorkflowField>, i: nat)
    requires i < |fs| && forall a, b :: 0 <= a < b < |fs| ==> fs[a].key != fs[b].key
    ensures FirstField(fs, fs[i].key) == Some(fs[i])
  {
    if i > 0 { FirstFieldIs(fs[1..], i - 1); }
  }

  lemma FieldIsFound(a: string, b: string, w: Workflow, w': Workflow, k: string)
    requires FieldsExchanged(a, b, w, w')
    ensures var f, f' := w.FindField(k), w'.FindField(Swap(a, b, k));
            (f.Some? <==> f'.Some?) && (f.Some? ==> f'.value == f.value.(key := Swap(a, b, k)))
  {
    forall i, j | 0 <= i < j < |w'.fields| ensures w'.fields[i].key != w'.fields[j].key {
      assert w.fields[i].key != w.fields[j].key;
    }
    if i :| 0 <= i < |w.fields| && w.fields[i].key == k {
      FirstFieldIs(w.fields, i);
      FirstFieldIs(w'.fields, i);
    }
  }

  lemma EntryIsChecked(fm: Formats, a: string, b: string, w: Workflow, w': Workflow, k: string, v: Json)
    requires FieldsExchanged(a, b, w, w')
    ensures CheckEntry(fm, w', Swap(a, b, k), v) == CheckEntry(fm, w, k, v)
  {
    FieldIsFound(a, b, w, w', k);
  }

  /** A map with exchanged names, recognised by its entries. */
  lemma AreSwapped<V>(a: string, b: string, m: map<string, V>, m': map<string, V>)
    requires forall k :: Swap(a, b, k) in m' <==> k in m
    requires forall k :: k in m ==> m'[Swap(a, b, k)] == m[k]
    ensures m' == SwapKeys(a, b, m)
  {
    var s := SwapKeys(a, b, m);
    forall k ensures (k in m' <==> k in s) && (k in s ==> m'[k] == s[k]) {
      SwapKeysAt(a, b, m, Swap(a, b, k));
      assert Swap(a, b, Swap(a, b, k)) == k;
    }
  }

  lemma ValueAfter(fm: Formats, a: string, b: string, w: Workflow, w': Workflow, fields: Fields, patch: Fields,
          k: string)
    requires FieldsExchanged(a, b, w, w')
    ensures After(fm, w', SwapKeys(a, b, fields), SwapKeys(a, b, patch), Swap(a, b, k)) ==
            After(fm, w, fields, patch, k)
    ensures Before(SwapKeys(a, b, fields), Swap(a, b, k)) == Before(fields, k)
  {
    hide CheckEntry;
    SwapKeysAt(a, b, fields, k);
    SwapKeysAt(a, b, patch, k);
    if k in patch { EntryIsChecked(fm, a, b, w, w', k, patch[k]); }
  }

  lemma PatchCommutes(fm: Formats, a: string, b: string, w: Workflow, w': Workflow, fields: Fields, patch: Fields)
    requires FieldsExchanged(a, b, w, w')
    ensures var fields', patch' := SwapKeys(a, b, fields), SwapKeys(a, b, patch);
            IssuesOf(fm, w', patch') == SwapKeys(a, b, IssuesOf(fm, w, patch)) &&
            Merged(fm, w', fields', patch') == SwapKeys(a, b, Merged(fm, w, fields, patch)) &&
            Changed(fm, w', fields', patch') == SwapKeys(a, b, Changed(fm, w, fields, patch))
  {
    IssuesCommute(fm, a, b, w, w', patch);
    MergeCommutes(fm, a, b, w, w', fields, patch);
    ChangeCommutes(fm, a, b, w, w', fields, patch);
  }

  lemma IssuesCommute(fm: Formats, a: string, b: string, w: Workflow, w': Workflow, patch: Fields)
    requires FieldsExchanged(a, b, w, w')
    ensures IssuesOf(fm, w', SwapKeys(a, b, patch)) == SwapKeys(a, b, IssuesOf(fm, w, patch))
  {
    hide CheckEntry, SwapKeys, Swap, FieldsExchanged;
    var was, now := IssuesOf(fm, w, patch), IssuesOf(fm, w', SwapKeys(a, b, patch));
    forall k ensures (Swap(a, b, k) in now <==> k in was) && (k in was ==> now[Swap(a, b, k)] == was[k]) {
      SwapKeysAt(a, b, patch, k);
      if k in patch { EntryIsChecked(fm, a, b, w, w', k, patch[k]); }
    }
    AreSwapped(a, b, was, now);
  }

  lemma MergeCommutes(fm: Formats, a: string, b: string, w: Workflow, w': Workflow, fields: Fields, patch: Fields)
    requires FieldsExchanged(a, b, w, w')
    ensures Merged(fm, w', SwapKeys(a, b, fields), SwapKeys(a, b, patch)) ==
            SwapKeys(a, b, Merged(fm, w, fields, patch))
  {
    hide After, SwapKeys, Swap, FieldsExchanged;
    var was, now := Merged(fm, w, fields, patch), Merged(fm, w', SwapKeys(a, b, fields), SwapKeys(a, b, patch));
    forall k ensures (Swap(a, b, k) in now <==> k in was) && (k in was ==> now[Swap(a, b, k)] == was[k]) {
      ValueAfter(fm, a, b, w, w', fields, patch, k);
      SwapKeysAt(a, b, fields, k);
      SwapKeysAt(a, b, patch, k);
    }
    AreSwapped(a, b, was, now);
  }

  lemma ChangeCommutes(fm: Formats, a: string, b: string, w: Workflow, w': Workflow, fields: Fields, patch: Fields)
    requires FieldsExchanged(a, b, w, w')
    ensures Changed(fm, w', SwapKeys(a, b, fields), SwapKeys(a, b, patch)) ==
            SwapKeys(a, b, Changed(fm, w, fields, patch))
  {
    hide After, SwapKeys, Swap, FieldsExchanged;
    var was, now := Changed(fm, w, fields, patch), Changed(fm, w', SwapKeys(a, b, fields), SwapKeys(a, b, patch));
    forall k ensures (Swap(a, b, k) in now <==> k in was) && (k in was ==> now[Swap(a, b, k)] == was[k]) {
      ValueAfter(fm, a, b, w, w', fields, patch, k);
      SwapKeysAt(a, b, patch, k);
    }
    AreSwapped(a, b, was, now);
  }

  // ---- one decision ----------------------------------------------------------------------------------------

  lemma {:induction false} MissingKeys(fm: Formats, fields: Fields, required: seq<string>, k: string)
    ensures k in Missing(fm, fields, required) <==> k in required && IsEmpty(fm, fields, k)
  {
    hide IsEmpty;
    if required != [] {
      MissingKeys(fm, fields, required[..|required| - 1], k);
    }
  }

  lemma MissingCommutes(fm: Formats, a: string, b: string, fields: Fields, t: D.Transition, t': D.Transition, k: string)
    requires RequiresExchanged(a, b, t, t')
    ensures Swap(a, b, k) in Missing(fm, SwapKeys(a, b, fields), t'.guard.requireFields) <==>
            k in Missing(fm, fields, t.guard.requireFields)
  {
    hide Missing, SwapKeys, Swap;
    MissingKeys(fm, fields, t.guard.requireFields, k);
    MissingKeys(fm, SwapKeys(a, b, fields), t'.guard.requireFields, Swap(a, b, k));
    SwapKeysAt(a, b, fields, k);
  }

  /** The same decision with exchanged names: a list of missing fields may repeat a name in one and not the other. */
  ghost predicate SameDecision(a: string, b: string, d: Result<Move, Error>, d': Result<Move, Error>) {
    match (d, d')
    case (Ok(m), Ok(m')) =>
      m' == m.(fields := SwapKeys(a, b, m.fields), changed := SwapKeys(a, b, m.changed))
    case (Err(BadFields(issues)), Err(BadFields(issues'))) => issues' == SwapKeys(a, b, issues)
    case (Err(MissingFields(keys)), Err(MissingFields(keys'))) => forall k :: Swap(a, b, k) in keys' <==> k in keys
    case (Err(e), Err(e')) => e == e'
    case _ => false
  }

  function Renamed(a: string, b: string, input: Input): Input {
    input.(patch := SwapKeys(a, b, input.patch))
  }

  lemma {:induction false} CounterpartIsFound(a: string, b: string, ts: seq<D.Transition>, ts': seq<D.Transition>,
          key: string)
    requires |ts'| == |ts| && forall i :: 0 <= i < |ts| ==> RequiresExchanged(a, b, ts[i], ts'[i])
    ensures FirstTransition(ts, key).Some? <==> FirstTransition(ts', key).Some?
    ensures FirstTransition(ts, key).Some? ==>
              RequiresExchanged(a, b, FirstTransition(ts, key).value, FirstTransition(ts', key).value) &&
              exists i :: 0 <= i < |ts| &&
                          FirstTransition(ts, key).value == ts[i] && FirstTransition(ts', key).value == ts'[i]
  {
    hide Swap;
    if ts != [] {
      assert RequiresExchanged(a, b, ts[0], ts'[0]);
      if ts[0].key != key {
        CounterpartIsFound(a, b, ts[1..], ts'[1..], key);
        if FirstTransition(ts, key).Some? {
          var i :| 0 <= i < |ts[1..]| && FirstTransition(ts, key).value == ts[1..][i] &&
                   FirstTransition(ts', key).value == ts'[1..][i];
          assert ts[1..][i] == ts[i + 1] && ts'[1..][i] == ts'[i + 1];
        }
      }
    }
  }

  /** If the roles let the same callers through, both workflows decide alike. */
  lemma DecidesAlike(fm: Formats, a: string, b: string, w: Workflow, w': Workflow, state: string, fields: Fields,
          p: Principal, input: Input)
    requires Exchanged(a, b, w, w')
    requires w.FindTransition(input.transition).Some? && w'.FindTransition(input.transition).Some? ==>
               (HasAnyRole(p, w.FindTransition(input.transition).value.guard.roles) <==>
                HasAnyRole(p, w'.FindTransition(input.transition).value.guard.roles))
    ensures SameDecision(a, b, Decide(fm, w, state, fields, p, input),
                         Decide(fm, w', state, SwapKeys(a, b, fields), p, Renamed(a, b, input)))
  {
    hide IssuesOf, Merged, Changed, Missing, HasAnyRole, Swap, FirstTransition, SwapKeys, FieldsExchanged,
         RequiresExchanged;
    CounterpartIsFound(a, b, w.TransitionList(), w'.TransitionList(), input.transition);
    PatchCommutes(fm, a, b, w, w', fields, input.patch);
    NothingSwapped<Issue>(a, b, IssuesOf(fm, w, input.patch));
    if w.FindTransition(input.transition).Some? {
      var t, t' := w.FindTransition(input.transition).value, w'.FindTransition(input.transition).value;
      SameBasics(a, b, t, t');
      MissingAlike(fm, a, b, Merged(fm, w, fields, input.patch), t, t');
    }
  }

  lemma SameBasics(a: string, b: string, t: D.Transition, t': D.Transition)
    requires RequiresExchanged(a, b, t, t')
    ensures t'.Sources() == t.Sources() && t'.to == t.to && t'.actions == t.actions
  {
  }

  lemma NothingSwapped<V>(a: string, b: string, m: map<string, V>)
    ensures SwapKeys(a, b, m) == map[] <==> m == map[]
  {
    if m != map[] {
      var k :| k in m;
      SwapKeysAt(a, b, m, k);
    }
  }

  lemma MissingAlike(fm: Formats, a: string, b: string, fields: Fields, t: D.Transition, t': D.Transition)
    requires RequiresExchanged(a, b, t, t')
    ensures var was, now := Missing(fm, fields, t.guard.requireFields),
                           Missing(fm, SwapKeys(a, b, fields), t'.guard.requireFields);
            (was == [] <==> now == []) && forall k :: Swap(a, b, k) in now <==> k in was
  {
    hide Missing, SwapKeys, RequiresExchanged;
    var was, now := Missing(fm, fields, t.guard.requireFields),
      Missing(fm, SwapKeys(a, b, fields), t'.guard.requireFields);
    forall k ensures Swap(a, b, k) in now <==> k in was { MissingCommutes(fm, a, b, fields, t, t', k); }
    if was != [] { assert Swap(a, b, was[0]) in now; }
    if now != [] { assert Swap(a, b, Swap(a, b, now[0])) == now[0]; }
  }

  // ---- the editor's rename ----------------------------------------------------------------------------------

  lemma {:induction false} FieldCountsOnce(fs: seq<WorkflowField>, index: nat)
    requires index < |fs| && forall i, j :: 0 <= i < j < |fs| ==> fs[i].key != fs[j].key
    ensures R.CountFields(fs, fs[index].key) == 1
  {
    if index == 0 {
      assert fs[0].key !in FieldKeys(fs[1..]);
    } else {
      FieldCountsOnce(fs[1..], index - 1);
    }
  }

  lemma FieldKeysDiffer(fm: Formats, w: Workflow)
    requires ValidWorkflow(fm, w)
    ensures forall i, j :: 0 <= i < j < |w.fields| ==> w.fields[i].key != w.fields[j].key
  {
    hide IsKey, TransitionOk, StateOk, AllActionsOk;
    forall i, j | 0 <= i < j < |w.fields| ensures w.fields[i].key != w.fields[j].key {
      assert WorkflowFieldOk(fm, w.fields, j);
    }
  }

  /** What becomes of one transition. */
  function Edit(space: set<char>, t: D.Transition, was: string, key: string): D.Transition {
    var n := t.(from := Some(t.Sources()));
    if was in t.guard.requireFields then R.WithRequired(space, n, R.Replaced(t.guard.requireFields, was, key)) else n
  }

  lemma EditedIs(fm: Formats, w: Workflow, index: nat, key: string)
    requires ValidWorkflow(fm, w) && index < |w.fields|
    ensures var w', was := Edited(fm.space, w, index, key), w.fields[index].key;
            w'.fields == w.fields[index := w.fields[index].(key := key)] &&
            |w'.TransitionList()| == |w.TransitionList()| &&
            forall i :: 0 <= i < |w.TransitionList()| ==>
              w'.TransitionList()[i] == Edit(fm.space, w.TransitionList()[i], was, key)
  {
    hide ValidWorkflow, R.WithRequired, R.Normalized, R.Replaced;
    R.NormalizedKeepsMeaning(w);
    FieldKeysDiffer(fm, w);
    FieldCountsOnce(w.fields, index);
  }

  lemma RequiredAreDeclared(fm: Formats, w: Workflow, i: nat)
    requires ValidWorkflow(fm, w) && i < |w.TransitionList()|
    ensures forall k :: k in w.TransitionList()[i].guard.requireFields ==> k in FieldKeys(w.fields)
    ensures forall r :: r in w.TransitionList()[i].guard.roles ==> !Blank(fm.space, r)
    ensures w.TransitionList()[i].Sources() != []
  {
    hide IsKey, StateOk, WorkflowFieldOk, AllActionsOk;
    assert TransitionOk(fm, w, i);
    var g := w.TransitionList()[i].guard;
    forall k | k in g.requireFields ensures k in FieldKeys(w.fields) {
      var j :| 0 <= j < |g.requireFields| && g.requireFields[j] == k;
    }
    forall r | r in g.roles ensures !Blank(fm.space, r) {
      var j :| 0 <= j < |g.roles| && g.roles[j] == r;
    }
  }

  lemma EditRequiresExchanged(space: set<char>, t: D.Transition, was: string, key: string)
    requires key !in t.guard.requireFields
    ensures RequiresExchanged(was, key, t, Edit(space, t, was, key))
  {
    var req, r := t.guard.requireFields, R.Replaced(t.guard.requireFields, was, key);
    var req' := Edit(space, t, was, key).guard.requireFields;
    forall k ensures Swap(was, key, k) in r <==> k in req {
      if k in req {
        var i :| 0 <= i < |req| && req[i] == k;
        assert r[i] == Swap(was, key, k);
      }
      if Swap(was, key, k) in r {
        var i :| 0 <= i < |r| && r[i] == Swap(was, key, k);
        assert req[i] == k || req[i] == was;
      }
    }
    if was in req {
      assert R.Elements(req') == R.Elements(r);
      forall k ensures Swap(was, key, k) in req' <==> k in req {
        assert Swap(was, key, k) in R.Elements(req') <==> Swap(was, key, k) in R.Elements(r);
      }
    }
  }

  lemma EditedExchanges(fm: Formats, w: Workflow, index: nat, key: string)
    requires ValidWorkflow(fm, w) && index < |w.fields| && key !in FieldKeys(w.fields)
    ensures Exchanged(w.fields[index].key, key, w, Edited(fm.space, w, index, key))
  {
    hide ValidWorkflow, Edited, Edit, RequiresExchanged;
    var was, w' := w.fields[index].key, Edited(fm.space, w, index, key);
    EditedIs(fm, w, index, key);
    FieldKeysDiffer(fm, w);
    forall i | 0 <= i < |w.fields| ensures w'.fields[i] == w.fields[i].(key := Swap(was, key, w.fields[i].key)) {
      assert w.fields[i].key in FieldKeys(w.fields);
    }
    forall i | 0 <= i < |w.TransitionList()|
      ensures RequiresExchanged(was, key, w.TransitionList()[i], w'.TransitionList()[i])
    {
      RequiredAreDeclared(fm, w, i);
      EditRequiresExchanged(fm.space, w.TransitionList()[i], was, key);
    }
  }

  // ---- roles ---------------------------------------------------------------------------------------------------

  predicate TrimmedRoles(space: set<char>, roles: seq<string>) {
    forall i :: 0 <= i < |roles| ==> Trim(space, roles[i]) == roles[i]
  }

  /** The editor's cleaning of trimmed roles that are not blank lets the same callers through. */
  lemma SameCallers(space: set<char>, g: Guard, p: Principal)
    requires TrimmedRoles(space, g.roles) && forall r :: r in g.roles ==> !Blank(space, r)
    ensures HasAnyRole(p, R.NormalizeGuard(space, g).roles) <==> HasAnyRole(p, g.roles)
  {
    hide Trim;
    var cleaned := R.NormalizeGuard(space, g).roles;
    forall r ensures r in cleaned <==> r in g.roles {
      assert r in cleaned <==> r in R.TrimmedRoles(space, g.roles);
      if r in g.roles {
        var i :| 0 <= i < |g.roles| && g.roles[i] == r;
        assert Trim(space, g.roles[i]) == r;
      }
    }
    if HasAnyRole(p, g.roles) && g.roles != [] && ADMIN !in p.roles {
      var i :| 0 <= i < |g.roles| && g.roles[i] in p.roles;
      assert g.roles[i] in g.roles && g.roles[i] in cleaned;
      var j :| 0 <= j < |cleaned| && cleaned[j] == g.roles[i];
    }
    if HasAnyRole(p, cleaned) && cleaned != [] && ADMIN !in p.roles {
      var i :| 0 <= i < |cleaned| && cleaned[i] in p.roles;
      assert cleaned[i] in cleaned && cleaned[i] in g.roles;
      var j :| 0 <= j < |g.roles| && g.roles[j] == cleaned[i];
    }
    if cleaned == [] && g.roles != [] { assert g.roles[0] in cleaned; }
  }

  /** A caller with nothing but a role that is not trimmed is let through before the cleaning and not after it. */
  lemma LosesARole(space: set<char>, g: Guard, i: nat)
    requires i < |g.roles| && Trim(space, g.roles[i]) != g.roles[i] && Trim(space, ADMIN) == ADMIN
    requires !Blank(space, g.roles[i])
    ensures HasAnyRole(Only(g.roles[i]), g.roles) && !HasAnyRole(Only(g.roles[i]), R.NormalizeGuard(space, g).roles)
  {
    var r, cleaned := g.roles[i], R.NormalizeGuard(space, g).roles;
    assert Trim(space, r) in R.TrimmedRoles(space, g.roles);
    assert Trim(space, r) in R.Elements(cleaned);
    forall j | 0 <= j < |cleaned| ensures cleaned[j] != r {
      assert cleaned[j] in R.Elements(cleaned);
      var k :| 0 <= k < |g.roles| && Trim(space, g.roles[k]) == cleaned[j];
      TrimIsIdempotent(space, g.roles[k]);
    }
  }

  function Only(role: string): Principal {
    Principal(0, "", "", false, [role])
  }

  /** Every call is decided alike. */
  ghost predicate AlwaysAlike(fm: Formats, a: string, b: string, w: Workflow, w': Workflow) {
    forall state: string, fields: Fields, p: Principal, input: Input ::
      SameDecision(a, b, Decide(fm, w, state, fields, p, input),
                   Decide(fm, w', state, SwapKeys(a, b, fields), p, Renamed(a, b, input)))
  }

  /** Renaming a field of a valid workflow to a key that no field has keeps every decision, with the two names
      exchanged, if and only if the transitions that require the field name their roles without outer whitespace. */
  lemma RenameKeepsDecisions(fm: Formats, w: Workflow, index: nat, key: string)
    requires ValidWorkflow(fm, w) && index < |w.fields| && key !in FieldKeys(w.fields) && Trim(fm.space, ADMIN) == ADMIN
    ensures var was := w.fields[index].key;
            AlwaysAlike(fm, was, key, w, Edited(fm.space, w, index, key)) <==>
            forall i :: 0 <= i < |w.TransitionList()| && was in w.TransitionList()[i].guard.requireFields ==>
              TrimmedRoles(fm.space, w.TransitionList()[i].guard.roles)
  {
    hide ValidWorkflow, Edited, Edit, Decide, SameDecision, Exchanged, TrimmedRoles;
    var was, w', ts := w.fields[index].key, Edited(fm.space, w, index, key), w.TransitionList();
    EditedExchanges(fm, w, index, key);
    if forall i :: 0 <= i < |ts| && was in ts[i].guard.requireFields ==> TrimmedRoles(fm.space, ts[i].guard.roles) {
      forall state: string, fields: Fields, p: Principal, input: Input
        ensures SameDecision(was, key, Decide(fm, w, state, fields, p, input),
                             Decide(fm, w', state, SwapKeys(was, key, fields), p, Renamed(was, key, input)))
      {
        SameRoles(fm, w, index, key, p, input.transition);
        DecidesAlike(fm, was, key, w, w', state, fields, p, input);
      }
    } else {
      var i :| 0 <= i < |ts| && was in ts[i].guard.requireFields && !TrimmedRoles(fm.space, ts[i].guard.roles);
      LosesACaller(fm, w, index, key, i);
    }
  }

  lemma SameRoles(fm: Formats, w: Workflow, index: nat, key: string, p: Principal, transition: string)
    requires ValidWorkflow(fm, w) && index < |w.fields| && key !in FieldKeys(w.fields)
    requires forall i :: 0 <= i < |w.TransitionList()| ==>
               w.fields[index].key in w.TransitionList()[i].guard.requireFields ==>
                 TrimmedRoles(fm.space, w.TransitionList()[i].guard.roles)
    ensures var t, t' := w.FindTransition(transition), Edited(fm.space, w, index, key).FindTransition(transition);
            t.Some? && t'.Some? ==> (HasAnyRole(p, t.value.guard.roles) <==> HasAnyRole(p, t'.value.guard.roles))
  {
    hide ValidWorkflow, Edited, TrimmedRoles, HasAnyRole, RequiresExchanged, FieldsExchanged, R.NormalizeGuard,
         R.Replaced, FirstTransition;
    var was, w' := w.fields[index].key, Edited(fm.space, w, index, key);
    EditedExchanges(fm, w, index, key);
    EditedIs(fm, w, index, key);
    CounterpartIsFound(was, key, w.TransitionList(), w'.TransitionList(), transition);
    if w.FindTransition(transition).Some? {
      var i :| 0 <= i < |w.TransitionList()| && w.FindTransition(transition).value == w.TransitionList()[i] &&
               w'.FindTransition(transition).value == w'.TransitionList()[i];
      RequiredAreDeclared(fm, w, i);
      var t := w.TransitionList()[i];
      if was in t.guard.requireFields {
        SameCallers(fm.space, t.guard.(requireFields := R.Replaced(t.guard.requireFields, was, key)), p);
      }
    }
  }

  lemma LosesACaller(fm: Formats, w: Workflow, index: nat, key: string, i: nat)
    requires ValidWorkflow(fm, w) && index < |w.fields| && key !in FieldKeys(w.fields) && Trim(fm.space, ADMIN) == ADMIN
    requires i < |w.TransitionList()| && w.fields[index].key in w.TransitionList()[i].guard.requireFields
    requires !TrimmedRoles(fm.space, w.TransitionList()[i].guard.roles)
    ensures !AlwaysAlike(fm, w.fields[index].key, key, w, Edited(fm.space, w, index, key))
  {
    hide ValidWorkflow, Edited, HasAnyRole, RequiresExchanged, FieldsExchanged, R.NormalizeGuard, R.Replaced,
         FirstTransition,
         IssuesOf, Merged, Changed, Missing, SwapKeys;
    var was, w', t := w.fields[index].key, Edited(fm.space, w, index, key), w.TransitionList()[i];
    RequiredAreDeclared(fm, w, i);
    EditedIs(fm, w, index, key);
    var j :| 0 <= j < |t.guard.roles| && Trim(fm.space, t.guard.roles[j]) != t.guard.roles[j];
    assert t.guard.roles[j] in t.guard.roles;
    var g := t.guard.(requireFields := R.Replaced(t.guard.requireFields, was, key));
    LosesARole(fm.space, g, j);
    TransitionsAreFound(fm, w, index, key, i);
    var p, input, state := Only(t.guard.roles[j]), Input(t.key, map[], "", ""), t.Sources()[0];
    assert Decide(fm, w', state, SwapKeys(was, key, map[]), p, Renamed(was, key, input)) == Err(Forbidden);
    assert Decide(fm, w, state, map[], p, input) != Err(Forbidden);
    assert !SameDecision(was, key, Decide(fm, w, state, map[], p, input),
                         Decide(fm, w', state, SwapKeys(was, key, map[]), p, Renamed(was, key, input)));
  }

  lemma TransitionsAreFound(fm: Formats, w: Workflow, index: nat, key: string, i: nat)
    requires ValidWorkflow(fm, w) && index < |w.fields| && i < |w.TransitionList()|
    ensures w.FindTransition(w.TransitionList()[i].key) == Some(w.TransitionList()[i])
    ensures var w' := Edited(fm.space, w, index, key);
            i < |w'.TransitionList()| && w'.FindTransition(w.TransitionList()[i].key) == Some(w'.TransitionList()[i])
  {
    hide Edited, R.WithRequired;
    EditedIs(fm, w, index, key);
    TransitionKeysDiffer(fm, w);
    FirstTransitionIs(w.TransitionList(), i);
    var ts' := Edited(fm.space, w, index, key).TransitionList();
    forall k | 0 <= k < |ts'| ensures ts'[k].key == w.TransitionList()[k].key {
      SameKey(fm.space, w.TransitionList()[k], w.fields[index].key, key);
    }
    FirstTransitionIs(ts', i);
  }

  lemma SameKey(space: set<char>, t: D.Transition, was: string, key: string)
    ensures Edit(space, t, was, key).key == t.key
  {
  }

  lemma TransitionKeysDiffer(fm: Formats, w: Workflow)
    requires ValidWorkflow(fm, w)
    ensures var ts := w.TransitionList(); forall i, j :: 0 <= i < j < |ts| ==> ts[i].key != ts[j].key
  {
    hide IsKey, StateOk, WorkflowFieldOk, AllActionsOk, GuardOk;
    var ts := w.TransitionList();
    forall i, j | 0 <= i < j < |ts| ensures ts[i].key != ts[j].key {
      assert TransitionOk(fm, w, j);
    }
  }

  lemma {:induction false} FirstTransitionIs(ts: seq<D.Transition>, i: nat)
    requires i < |ts| && forall a, b :: 0 <= a < b < |ts| ==> ts[a].key != ts[b].key
    ensures FirstTransition(ts, ts[i].key) == Some(ts[i])
  {
    if i > 0 { FirstTransitionIs(ts[1..], i - 1); }
  }
}
