/** The form editor's reducer. Renaming a field keeps the meaning that the evaluator gives to the form;
    the other structural edits keep it valid, or do so exactly under a condition that can be read off. */
module FormReducer {
  import opened Common
  import opened JsonValues
  import opened Text
  import opened Values
  import opened DefinitionRules
  import opened Submissions
  import opened Objects
  import D = Definitions

  /** What a form says besides its fields. */
  datatype Meta = Meta(slug: string, title: string, description: string, workflow: string, settings: D.FormSettings)

  datatype Editor = Editor(meta: Meta, fields: seq<D.Field>, selected: Option<nat>, dirty: bool)

  /** In a patch, None leaves an attribute alone; an emptied optional attribute is removed, which reads as empty. */
  datatype MetaPatch = MetaPatch(
    slug: Option<string>, title: Option<string>, description: Option<string>, workflow: Option<string>)

  datatype SettingsPatch = SettingsPatch(
    isPublic: Option<bool>, submitLabel: Option<string>, confirmationMessage: Option<string>)

  /** An attribute of a patch: leave it, set it, or (for optional ones) remove it. */
  datatype FieldPatch = FieldPatch(
    caption: Option<string>, help: Option<string>, placeholder: Option<string>, required: Option<bool>,
    options: Option<seq<D.Choice>>,
    validation: Option<Option<D.Validation>>, showIf: Option<Option<D.Condition>>)

  datatype EditorAction =
    | SetMeta(meta: MetaPatch)
    | SetSettings(settings: SettingsPatch)
    | AddField(kind: D.FieldType)
    | UpdateField(index: int, patch: FieldPatch)
    | SetFieldType(index: int, kind: D.FieldType)
    | RenameField(index: int, key: string)
    | RemoveField(index: int)
    | DuplicateField(index: int)
    | MoveField(index: int, up: bool)
    | Select(selection: Option<nat>)
    | Replace(loaded: Meta, fields: seq<D.Field>)
    | MarkSaved

  const STARTER_OPTIONS := [D.Choice("option1", "Option 1"), D.Choice("option2", "Option 2")]

  function Keys(fields: seq<D.Field>): set<string> {
    set i | 0 <= i < |fields| :: fields[i].key
  }

  function CountKey(fields: seq<D.Field>, key: string): nat {
    if fields == [] then 0 else (if fields[0].key == key then 1 else 0) + CountKey(fields[1..], key)
  }

  predicate Follows(f: D.Field, key: string) {
    f.showIf.Some? && f.showIf.value.field == key
  }

  function Renamed(fields: seq<D.Field>, index: nat, key: string): seq<D.Field>
    requires index < |fields|
  {
    var oldKey := fields[index].key;
    var follow := CountKey(fields, oldKey) == 1;
    seq(|fields|, i requires 0 <= i < |fields| =>
      if i == index then fields[i].(key := key)
      else if follow && Follows(fields[i], oldKey) then
        fields[i].(showIf := Some(fields[i].showIf.value.(field := key)))
      else fields[i])
  }

  function Removed(fields: seq<D.Field>, index: nat): seq<D.Field>
    requires index < |fields|
  {
    var removedKey := fields[index].key;
    var next := Remove(fields, index);
    if CountKey(next, removedKey) == 0 then
      seq(|next|, i requires 0 <= i < |next| =>
          if Follows(next[i], removedKey) then next[i].(showIf := None) else next[i])
    else next
  }

  function Duplicated(fields: seq<D.Field>, index: nat): seq<D.Field>
    requires index < |fields|
  {
    var original := fields[index];
    var copy := original.(key := UniqueName(original.key + "_copy", Keys(fields)),
                          caption := original.caption + " (copy)");
    Insert(fields, index + 1, copy)
  }

  function FitValidation(v: Option<D.Validation>, kind: D.FieldType): Option<D.Validation> {
    if v.None? then None
    else
      var a := if TakesText(kind) then v.value else v.value.(minLength := None, maxLength := None, pattern := "");
      var b := if kind.Number? then a else a.(min := None, max := None);
      if b == D.Validation(None, None, "", None, None) then None else Some(b)
  }

  function Retyped(f: D.Field, kind: D.FieldType): D.Field {
    f.(kind := kind,
       options := if !(kind.Select? || kind.MultiSelect?) then []
                  else if f.options != [] then f.options else STARTER_OPTIONS,
       validation := FitValidation(f.validation, kind))
  }

  function Patched(f: D.Field, p: FieldPatch): D.Field {
    f.(caption := Or(p.caption, f.caption), help := Or(p.help, f.help), placeholder := Or(p.placeholder, f.placeholder),
       required := Or(p.required, f.required), options := Or(p.options, f.options),
       validation := Or(p.validation, f.validation), showIf := Or(p.showIf, f.showIf))
  }

  function NewField(kind: D.FieldType, taken: set<string>): D.Field {
    D.Field(NextNumbered("field", taken), kind, "Untitled question", "", "", false,
            if kind.Select? || kind.MultiSelect? then STARTER_OPTIONS else [], None, None)
  }

  predicate InRange(s: Editor, index: int) {
    0 <= index < |s.fields|
  }

  function Or<T>(o: Option<T>, d: T): T {
    if o.Some? then o.value else d
  }

  function Reduce(s: Editor, a: EditorAction): Editor {
    match a
    case SetMeta(p) =>
      s.(meta := s.meta.(slug := Or(p.slug, s.meta.slug), title := Or(p.title, s.meta.title),
                         description := Or(p.description, s.meta.description),
                         workflow := Or(p.workflow, s.meta.workflow)),
         dirty := true)
    case SetSettings(p) =>
      var was := s.meta.settings;
      s.(meta := s.meta.(settings := D.FormSettings(Or(p.isPublic, was.isPublic), Or(p.submitLabel, was.submitLabel),
                                                    Or(p.confirmationMessage, was.confirmationMessage))),
         dirty := true)
    case AddField(kind) => Editor(s.meta, s.fields + [NewField(kind, Keys(s.fields))], Some(|s.fields|), true)
    case UpdateField(index, patch) =>
      if !InRange(s, index) then s else s.(fields := s.fields[index := Patched(s.fields[index], patch)], dirty := true)
    case SetFieldType(index, kind) =>
      if !InRange(s, index) then s else s.(fields := s.fields[index := Retyped(s.fields[index], kind)], dirty := true)
    case RenameField(index, key) =>
      if !InRange(s, index) then s else s.(fields := Renamed(s.fields, index, key), dirty := true)
    case RemoveField(index) =>
      if !InRange(s, index) then s
      else
        var next := Removed(s.fields, index);
        var selected :=
          if s.selected.None? then None
          else if s.selected.value == index then
            (if next == [] then None else Some(if index < |next| - 1 then index else |next| - 1))
          else if s.selected.value > index then Some(s.selected.value - 1)
          else s.selected;
        Editor(s.meta, next, selected, true)
    case DuplicateField(index) =>
      if !InRange(s, index) then s else Editor(s.meta, Duplicated(s.fields, index), Some(index + 1), true)
    case MoveField(index, up) =>
      var target := if up then index - 1 else index + 1;
      if !InRange(s, index) || !InRange(s, target) then s
      else
        var selected :=
          if s.selected == Some(index) then Some(target)
          else if s.selected == Some(target) then Some(index) else s.selected;
        Editor(s.meta, MoveItem(s.fields, index, target), selected, true)
    case Select(selection) => s.(selected := selection)
    case Replace(meta, fields) =>
      Editor(meta, fields, if s.selected.Some? && s.selected.value < |fields| then s.selected else None, true)
    case MarkSaved => s.(dirty := false)
  }

  // ---- renaming -----------------------------------------------------------------------------------

  function SwapField(a: string, b: string, f: D.Field): D.Field {
    f.(key := Swap(a, b, f.key),
       showIf := if f.showIf.None? then None else Some(f.showIf.value.(field := Swap(a, b, f.showIf.value.field))))
  }

  function SwapFields(a: string, b: string, fields: seq<D.Field>): seq<D.Field> {
    seq(|fields|, i requires 0 <= i < |fields| => SwapField(a, b, fields[i]))
  }

  function SwapFindings(a: string, b: string, fs: seq<Finding>): seq<Finding> {
    seq(|fs|, i requires 0 <= i < |fs| => Finding(Swap(a, b, fs[i].key), fs[i].message))
  }

  ghost predicate Fresh(fields: seq<D.Field>, key: string) {
    forall i :: 0 <= i < |fields| ==> fields[i].key != key
  }

  lemma {:induction false} CountsOnce(fields: seq<D.Field>, index: nat)
    requires index < |fields|
    requires forall i, j :: 0 <= i < j < |fields| ==> fields[i].key != fields[j].key
    ensures CountKey(fields, fields[index].key) == 1
  {
    var key := fields[index].key;
    if index == 0 {
      CountsZero(fields[1..], key);
    } else {
      CountsOnce(fields[1..], index - 1);
    }
  }

  lemma {:induction false} CountsZero(fields: seq<D.Field>, key: string)
    ensures CountKey(fields, key) == 0 <==> Fresh(fields, key)
  {
    if fields != [] {
      CountsZero(fields[1..], key);
      assert forall i :: 1 <= i < |fields| ==> fields[i] == fields[1..][i - 1];
    }
  }

  /** In a form with distinct keys and declared controllers, the reducer's rename is the exchange of the two names. */
  lemma RenameIsSwap(fields: seq<D.Field>, index: nat, key: string)
    requires Ordered(fields) && index < |fields| && Fresh(fields, key)
    ensures Renamed(fields, index, key) == SwapFields(fields[index].key, key, fields)
  {
    CountsOnce(fields, index);
    var r, s := Renamed(fields, index, key), SwapFields(fields[index].key, key, fields);
    forall i | 0 <= i < |fields| ensures r[i] == s[i] {
      if fields[i].showIf.Some? {
        var j :| 0 <= j < i && fields[j].key == fields[i].showIf.value.field;
      }
    }
  }

  lemma SwappedFieldsAreOrdered(a: string, b: string, fields: seq<D.Field>)
    requires Ordered(fields)
    ensures Ordered(SwapFields(a, b, fields))
  {
    var s := SwapFields(a, b, fields);
    forall i | 0 <= i < |s| && s[i].showIf.Some? ensures exists j :: 0 <= j < i && s[j].key == s[i].showIf.value.field {
      var j :| 0 <= j < i && fields[j].key == fields[i].showIf.value.field;
      assert s[j].key == s[i].showIf.value.field;
    }
  }

  lemma SwapLooksUp<V>(a: string, b: string, m: map<string, V>, k: string)
    ensures Find(SwapKeys(a, b, m), Swap(a, b, k)) == Find(m, k)
    ensures Swap(a, b, Swap(a, b, k)) == k
  {
    if k in m {
      assert Swap(a, b, k) in (set j | j in m :: Swap(a, b, j));
    }
  }

  lemma SwapKeysDomain<V>(a: string, b: string, m: map<string, V>)
    ensures forall k :: k in SwapKeys(a, b, m) ==> Swap(a, b, k) in m
  {
  }

  lemma SwapKeepsOnlyKeys(a: string, b: string, fields: seq<D.Field>, keys: set<string>, swapped: set<string>)
    requires OnlyKeysOf(fields, keys)
    requires forall k :: k in swapped ==> Swap(a, b, k) in keys
    ensures OnlyKeysOf(SwapFields(a, b, fields), swapped)
  {
    forall k | k in swapped ensures exists i :: 0 <= i < |fields| && SwapFields(a, b, fields)[i].key == k {
      var i :| 0 <= i < |fields| && fields[i].key == Swap(a, b, k);
      assert SwapFields(a, b, fields)[i].key == k;
    }
  }

  lemma SwapSolvesAt(fm: Formats, data: map<string, Json>, fields: seq<D.Field>, vis: map<string, bool>,
        clean: map<string, Json>,
      a: string, b: string, i: nat)
    requires i < |fields| && Solves(fm, data, fields, vis, clean)
    ensures VisibilityEquation(fm, SwapFields(a, b, fields), SwapKeys(a, b, vis), SwapKeys(a, b, clean), i)
    ensures CleaningEquation(fm, SwapKeys(a, b, data), SwapFields(a, b, fields), SwapKeys(a, b, vis),
                             SwapKeys(a, b, clean), i)
  {
    hide Holds, CheckValue, SwapKeys, Verdict;
    VerdictIgnoresTheName(fm, fields[i], SwapField(a, b, fields[i]), Get(data, fields[i].key));
    assert VisibilityEquation(fm, fields, vis, clean, i) && CleaningEquation(fm, data, fields, vis, clean, i);
    var s, k := SwapFields(a, b, fields), fields[i].key;
    SwapLooksUp(a, b, vis, k);
    SwapLooksUp(a, b, clean, k);
    SwapLooksUp(a, b, data, k);
    assert Get(SwapKeys(a, b, data), s[i].key) == Get(data, k);
    if fields[i].showIf.Some? {
      var c, c' := fields[i].showIf.value, s[i].showIf.value;
      SwapLooksUp(a, b, vis, c.field);
      SwapLooksUp(a, b, clean, c.field);
      forall j | 0 <= j < i && s[j].key == c'.field
        ensures c'.field in SwapKeys(a, b, vis) &&
                (SwapKeys(a, b, vis)[s[i].key] <==>
                   SwapKeys(a, b, vis)[c'.field] && Holds(fm, c', s[j].kind, Find(SwapKeys(a, b, clean), c'.field)))
      {
        SwapLooksUp(a, b, vis, fields[j].key);
        assert fields[j].key == c.field;
        HoldsIgnoresTheName(fm, c, c', s[j].kind, Find(clean, c.field));
      }
    }
  }

  lemma HoldsIgnoresTheName(fm: Formats, c: D.Condition, c': D.Condition, kind: D.FieldType, val: Option<Json>)
    requires c' == c.(field := c'.field)
    ensures Holds(fm, c, kind, val) == Holds(fm, c', kind, val)
  {
  }

  lemma {:induction false} SwapComplaints(fm: Formats, data: map<string, Json>, fields: seq<D.Field>,
        vis: map<string, bool>, a: string, b: string)
    ensures Complaints(fm, SwapKeys(a, b, data), SwapFields(a, b, fields), SwapKeys(a, b, vis))
         == SwapFindings(a, b, Complaints(fm, data, fields, vis))
  {
    hide SwapKeys, Complaint;
    if fields != [] {
      var n := |fields| - 1;
      var k := fields[n].key;
      SwapComplaints(fm, data, fields[..n], vis, a, b);
      assert SwapFields(a, b, fields)[..n] == SwapFields(a, b, fields[..n]);
      SwapLooksUp(a, b, vis, k);
      SwapComplaint(fm, data, fields[n], a, b);
    }
  }

  lemma SwapComplaint(fm: Formats, data: map<string, Json>, f: D.Field, a: string, b: string)
    ensures Complaint(fm, SwapKeys(a, b, data), SwapField(a, b, f)) == SwapFindings(a, b, Complaint(fm, data, f))
  {
    hide CheckValue, SwapKeys;
    SwapLooksUp(a, b, data, f.key);
  }

  lemma VerdictIgnoresTheName(fm: Formats, f: D.Field, f': D.Field, raw: Json)
    requires f' == f.(key := f'.key, showIf := f'.showIf)
    ensures Verdict(fm, f', raw) == Verdict(fm, f, raw)
  {
    hide CheckValue;
  }

  /** Renaming a field commutes with evaluation: the renamed form on the renamed data gives the renamed
      visibility, cleaned data and problems, for all data. */
  lemma RenameCommutesWithEvaluation(fm: Formats, data: map<string, Json>, fields: seq<D.Field>, index: nat,
        key: string)
    requires Ordered(fields) && index < |fields| && Fresh(fields, key)
    ensures var was, t := fields[index].key, Pass(fm, data, fields);
            var t' := Pass(fm, SwapKeys(was, key, data), Renamed(fields, index, key));
            t'.vis == SwapKeys(was, key, t.vis) && t'.clean == SwapKeys(was, key, t.clean) &&
            t'.findings == SwapFindings(was, key, t.findings)
  {
    hide VisibilityEquation, CleaningEquation, Pass, Renamed, SwapKeys, Complaints;
    var a, b, t := fields[index].key, key, Pass(fm, data, fields);
    var s, data' := SwapFields(a, b, fields), SwapKeys(a, b, data);
    var vis', clean', t' := SwapKeys(a, b, t.vis), SwapKeys(a, b, t.clean), Pass(fm, data', s);
    RenameIsSwap(fields, index, key);
    PassSolves(fm, data, fields);
    SwappedFieldsAreOrdered(a, b, fields);
    PassSolves(fm, data', s);
    assert Solves(fm, data', s, vis', clean') by {
      SwapKeysDomain(a, b, t.vis);
      SwapKeysDomain(a, b, t.clean);
      SwapKeepsOnlyKeys(a, b, fields, t.vis.Keys, vis'.Keys);
      SwapKeepsOnlyKeys(a, b, fields, t.clean.Keys, clean'.Keys);
      forall i | 0 <= i < |s|
        ensures VisibilityEquation(fm, s, vis', clean', i) && CleaningEquation(fm, data', s, vis', clean', i)
      {
        SwapSolvesAt(fm, data, fields, t.vis, t.clean, a, b, i);
      }
    }
    SolutionIsUnique(fm, data', s, t'.vis, t'.clean, vis', clean');
    SwapComplaints(fm, data, fields, t.vis, a, b);
  }

  /** Renaming back restores the form. */
  lemma RenameBack(fields: seq<D.Field>, index: nat, key: string)
    requires Ordered(fields) && index < |fields| && Fresh(fields, key)
    ensures Renamed(Renamed(fields, index, key), index, fields[index].key) == fields
  {
    var was := fields[index].key;
    var s := SwapFields(was, key, fields);
    RenameIsSwap(fields, index, key);
    SwappedFieldsAreOrdered(was, key, fields);
    assert Fresh(s, was);
    RenameIsSwap(s, index, was);
    assert SwapFields(key, was, s) == fields;
  }

  lemma RenamedFieldOk(fm: Formats, fields: seq<D.Field>, index: nat, key: string, i: nat)
    requires FieldsOk(fm, fields) && index < |fields| && i < |fields| && Fresh(fields, key)
    ensures FieldOk(fm, Renamed(fields, index, key), i) <==> i != index || IsKey(key)
  {
    hide Renamed, OptionsOk, ValidationOk, IsKey, Blank;
    var r := Renamed(fields, index, key);
    ValidFieldsAreOrdered(fm, fields);
    RenamedKeys(fields, index, key);
    RenameIsSwap(fields, index, key);
    assert FieldOk(fm, fields, i);
    if fields[i].showIf.Some? {
      var j :| 0 <= j < i && fields[j].key == fields[i].showIf.value.field;
      assert r[j].key == r[i].showIf.value.field;
    }
  }

  /** Renaming to a well-formed fresh key keeps a form valid; a malformed or taken key makes it invalid. */
  lemma RenameValid(fm: Formats, fields: seq<D.Field>, index: nat, key: string)
    requires FieldsOk(fm, fields) && index < |fields| && key != fields[index].key
    ensures FieldsOk(fm, Renamed(fields, index, key)) <==> IsKey(key) && Fresh(fields, key)
  {
    hide Renamed, FieldOk, IsKey;
    var r := Renamed(fields, index, key);
    RenamedKeys(fields, index, key);
    if Fresh(fields, key) {
      forall i | 0 <= i < |fields| ensures FieldOk(fm, r, i) <==> i != index || IsKey(key) {
        RenamedFieldOk(fm, fields, index, key, i);
      }
      assert FieldOk(fm, r, index) <==> IsKey(key);
    } else {
      var i :| 0 <= i < |fields| && fields[i].key == key;
      var lo, hi := if i < index then i else index, if i < index then index else i;
      RepeatedKeyIsBad(fm, r, lo, hi);
    }
  }

  lemma RepeatedKeyIsBad(fm: Formats, fields: seq<D.Field>, lo: nat, hi: nat)
    requires lo < hi < |fields| && fields[lo].key == fields[hi].key
    ensures !FieldsOk(fm, fields)
  {
    hide OptionsOk, ValidationOk, IsKey, Blank, ConditionOk;
    assert !FieldOk(fm, fields, hi);
  }

  lemma RenamedKeys(fields: seq<D.Field>, index: nat, key: string)
    requires index < |fields|
    ensures var r := Renamed(fields, index, key);
            |r| == |fields| && forall i :: 0 <= i < |fields| ==> r[i].key == if i == index then key else fields[i].key
  {
  }

  // ---- the other structural edits ----------------------------------------------------------------

  /** A valid field stays valid where its key is new and its controller, if it still has one, stands before it. */
  lemma FieldOkElsewhere(fm: Formats, fields: seq<D.Field>, i: nat, r: seq<D.Field>, k: nat)
    requires i < |fields| && k < |r| && FieldOk(fm, fields, i)
    requires r[k] == fields[i] || r[k] == fields[i].(showIf := None)
    requires forall j :: 0 <= j < k ==> r[j].key != r[k].key
    requires r[k].showIf.Some? ==> exists j :: 0 <= j < k && r[j].key == r[k].showIf.value.field
    ensures FieldOk(fm, r, k)
  {
    hide OptionsOk, ValidationOk, IsKey, Blank;
  }

  function Before(index: nat, i: nat): nat {
    if i < index then i else i + 1
  }

  ghost predicate Gone(fields: seq<D.Field>, index: nat)
    requires index < |fields|
  {
    CountKey(Remove(fields, index), fields[index].key) == 0
  }

  lemma RemovedLength(fields: seq<D.Field>, index: nat)
    requires index < |fields|
    ensures |Removed(fields, index)| == |fields| - 1
  {
  }

  /** Field i of what remains is an old field, without its condition if that named a removed key. */
  lemma RemovedAt(fields: seq<D.Field>, index: nat, i: nat)
    requires index < |fields| && i < |fields| - 1
    ensures var r, f := Removed(fields, index), fields[Before(index, i)];
            |r| == |fields| - 1 && r[i].key == f.key &&
            r[i] == if Gone(fields, index) && Follows(f, fields[index].key) then f.(showIf := None) else f
    ensures Gone(fields, index) ==> fields[Before(index, i)].key != fields[index].key
  {
    var next := Remove(fields, index);
    CountsZero(next, fields[index].key);
    assert next[i] == fields[Before(index, i)];
  }

  /** A controller that is left, or another field with the key of a removed one, stands in what remains. */
  lemma ControllerRemains(fields: seq<D.Field>, index: nat, j: nat) returns (m: nat)
    requires index < |fields| && j < |fields| && (j != index || !Gone(fields, index))
    ensures m < |fields| - 1 && |Removed(fields, index)| == |fields| - 1 &&
            Removed(fields, index)[m].key == fields[j].key
    ensures j != index ==> Before(index, m) == j
  {
    var next := Remove(fields, index);
    if j != index {
      m := if j < index then j else j - 1;
    } else {
      CountsZero(next, fields[index].key);
      m :| 0 <= m < |next| && next[m].key == fields[index].key;
    }
    RemovedAt(fields, index, m);
  }

  lemma DistinctMeansGone(fields: seq<D.Field>, index: nat)
    requires Ordered(fields) && index < |fields|
    ensures Gone(fields, index)
  {
    var next := Remove(fields, index);
    CountsZero(next, fields[index].key);
    assert forall i :: 0 <= i < |next| ==> next[i] == fields[Before(index, i)];
  }

  lemma RemainingKeysDiffer(fields: seq<D.Field>, index: nat, i: nat, j: nat)
    requires Ordered(fields) && index < |fields| && j < i < |fields| - 1
    ensures |Removed(fields, index)| == |fields| - 1 && Removed(fields, index)[j].key != Removed(fields, index)[i].key
  {
    hide Removed, Gone;
    RemovedAt(fields, index, i);
    RemovedAt(fields, index, j);
    KeysDiffer(fields, Before(index, j), Before(index, i));
  }

  lemma RemoveKeepsFieldOk(fm: Formats, fields: seq<D.Field>, index: nat, i: nat)
    requires FieldsOk(fm, fields) && index < |fields| && i < |fields| - 1
    ensures |Removed(fields, index)| == |fields| - 1 && FieldOk(fm, Removed(fields, index), i)
  {
    ValidFieldsAreOrdered(fm, fields);
    DistinctMeansGone(fields, index);
    assert FieldOk(fm, fields, Before(index, i));
    hide FieldsOk, FieldOk, Removed, Ordered, Gone;
    RemovedAt(fields, index, i);
    var r, o := Removed(fields, index), Before(index, i);
    forall j | 0 <= j < i ensures r[j].key != r[i].key {
      RemainingKeysDiffer(fields, index, i, j);
    }
    ControllerStandsBefore(fields, o);
    if r[i].showIf.Some? {
      var j :| 0 <= j < o && fields[j].key == fields[o].showIf.value.field;
      var m := ControllerRemains(fields, index, j);
    }
    FieldOkElsewhere(fm, fields, o, r, i);
  }

  /** Removing a field keeps the others valid: conditions on the removed field go with it. */
  lemma RemoveKeepsFieldsOk(fm: Formats, fields: seq<D.Field>, index: nat)
    requires FieldsOk(fm, fields) && index < |fields|
    ensures FieldsOk(fm, Removed(fields, index))
  {
    hide FieldOk, Removed;
    RemovedLength(fields, index);
    forall i | 0 <= i < |fields| - 1 ensures FieldOk(fm, Removed(fields, index), i) {
      RemoveKeepsFieldOk(fm, fields, index, i);
    }
  }

  lemma BlankMeansOnlySpace(space: set<char>, s: string)
    ensures Blank(space, s) <==> AllIn(space, s)
  {
    var pre, post := TrimKeepsTheMiddle(space, s);
    if Trim(space, s) != "" {
      assert s[|pre|] == Trim(space, s)[0] && s[|pre|] in s;
    }
  }

  lemma ElsewhereUnchanged(fields: seq<D.Field>, index: nat, i: nat)
    requires index < |fields| && i <= |fields|
    ensures |Duplicated(fields, index)| == |fields| + 1
    ensures i != index + 1 ==> Duplicated(fields, index)[i] == fields[if i <= index then i else i - 1]
    ensures Duplicated(fields, index)[index + 1].key !in Keys(fields)
  {
    hide UniqueName, Keys;
  }

  lemma DuplicateKeepsOthers(fm: Formats, fields: seq<D.Field>, index: nat, i: nat)
    requires FieldsOk(fm, fields) && index < |fields| && i <= |fields| && i != index + 1
    ensures FieldOk(fm, Duplicated(fields, index), i)
  {
    hide FieldOk, Duplicated;
    ValidFieldsAreOrdered(fm, fields);
    var r, o := Duplicated(fields, index), if i <= index then i else i - 1;
    ElsewhereUnchanged(fields, index, i);
    assert fields[o].key in Keys(fields);
    forall j | 0 <= j < i ensures r[j].key != r[i].key {
      ElsewhereUnchanged(fields, index, j);
    }
    if r[i].showIf.Some? {
      var j :| 0 <= j < o && fields[j].key == fields[o].showIf.value.field;
      ElsewhereUnchanged(fields, index, if j <= index then j else j + 1);
    }
    FieldOkElsewhere(fm, fields, o, r, i);
  }

  ghost predicate KeyChars(s: string) {
    forall i :: 0 <= i < |s| ==> Lower(s[i]) || Upper(s[i]) || IsDigit(s[i]) || s[i] == '_'
  }

  lemma {:induction false} DecimalHasKeyChars(n: nat)
    ensures KeyChars(Decimal(n))
  {
    if n >= 10 { DecimalHasKeyChars(n / 10); }
  }

  /** A key stays a key when key characters are appended, as long as it is not too long. */
  lemma LongerKey(key: string, more: string)
    requires IsKey(key) && KeyChars(more)
    ensures IsKey(key + more) <==> |key + more| <= 64
  {
  }

  lemma CopyKey(key: string, taken: set<string>)
    requires IsKey(key)
    ensures IsKey(UniqueName(key + "_copy", taken)) <==> |UniqueName(key + "_copy", taken)| <= 64
  {
    hide IsKey;
    var base := key + "_copy";
    assert KeyChars("_copy");
    if base !in taken {
      LongerKey(key, "_copy");
    } else {
      var n := FirstFree(base, taken, 2, 2);
      DecimalHasKeyChars(n);
      assert UniqueName(base, taken) == key + ("_copy" + Decimal(n));
      LongerKey(key, "_copy" + Decimal(n));
    }
  }

  /** Duplicating a field keeps a form valid exactly when the name made for the copy has at most 64 characters; where
      no field has the plain name yet, when the field's own key has at most 59. */
  lemma DuplicateValid(fm: Formats, fields: seq<D.Field>, index: nat)
    requires FieldsOk(fm, fields) && index < |fields|
    ensures FieldsOk(fm, Duplicated(fields, index)) <==> |UniqueName(fields[index].key + "_copy", Keys(fields))| <= 64
    ensures fields[index].key + "_copy" !in Keys(fields) ==>
              (FieldsOk(fm, Duplicated(fields, index)) <==> |fields[index].key| <= 59)
  {
    hide FieldOk, IsKey;
    CopyValid(fm, fields, index);
    FieldHasKey(fm, fields, index);
    CopyKey(fields[index].key, Keys(fields));
    CopyIsNamed(fields, index);
    forall i | 0 <= i <= |fields| && i != index + 1 ensures FieldOk(fm, Duplicated(fields, index), i) {
      DuplicateKeepsOthers(fm, fields, index, i);
    }
  }

  lemma FieldHasKey(fm: Formats, fields: seq<D.Field>, i: nat)
    requires FieldsOk(fm, fields) && i < |fields|
    ensures IsKey(fields[i].key)
  {
    assert FieldOk(fm, fields, i);
  }

  lemma CopyIsNamed(fields: seq<D.Field>, index: nat)
    requires index < |fields|
    ensures |Duplicated(fields, index)| == |fields| + 1
    ensures Duplicated(fields, index)[index + 1].key == UniqueName(fields[index].key + "_copy", Keys(fields))
  {
    hide UniqueName, Keys;
  }

  function TextField(key: string, showIf: Option<D.Condition>): D.Field {
    D.Field(key, D.Text, "A", "", "", false, [], None, showIf)
  }

  /** A valid form with a key of 60 characters, whose copy gets 65. */
  lemma LongKeyCannotBeCopied(fm: Formats) returns (fields: seq<D.Field>)
    requires 'A' !in fm.space
    ensures |fields| == 1 && |fields[0].key| == 60 && FieldsOk(fm, fields) && !FieldsOk(fm, Duplicated(fields, 0))
  {
    hide Duplicated, UniqueName;
    var key := seq(60, i => 'a');
    fields := [TextField(key, None)];
    assert FieldOk(fm, fields, 0);
    DuplicateValid(fm, fields, 0);
    assert |key + "_copy"| == 65;
  }

  lemma CopyValid(fm: Formats, fields: seq<D.Field>, index: nat)
    requires FieldsOk(fm, fields) && index < |fields|
    ensures var r := Duplicated(fields, index);
            FieldOk(fm, r, index + 1) <==> IsKey(r[index + 1].key)
  {
    hide OptionsOk, ValidationOk, IsKey, Blank, UniqueName;
    var r := Duplicated(fields, index);
    var copy := r[index + 1];
    assert FieldOk(fm, fields, index);
    BlankMeansOnlySpace(fm.space, fields[index].caption);
    BlankMeansOnlySpace(fm.space, copy.caption);
    assert forall j :: 0 <= j <= index ==> r[j] == fields[j] && fields[j].key in Keys(fields);
    if copy.showIf.Some? {
      var j :| 0 <= j < index && fields[j].key == fields[index].showIf.value.field;
      assert r[j].key == copy.showIf.value.field;
    }
  }

  lemma MovedAt(fields: seq<D.Field>, from: nat, to: nat, i: nat)
    requires from < |fields| && to < |fields| && (to == from + 1 || from == to + 1) && i < |fields|
    ensures var r, lo := MoveItem(fields, from, to), if from < to then from else to;
            |r| == |fields| && r[i] == fields[Other(lo, i)]
  {
  }

  lemma KeysDiffer(fields: seq<D.Field>, i: nat, j: nat)
    requires Ordered(fields) && i < |fields| && j < |fields| && i != j
    ensures fields[i].key != fields[j].key
  {
  }

  lemma ControllerStandsBefore(fields: seq<D.Field>, i: nat)
    requires Ordered(fields) && i < |fields|
    ensures fields[i].showIf.Some? ==> exists j :: 0 <= j < i && fields[j].key == fields[i].showIf.value.field
  {
  }

  lemma MovedKeyIsNew(fields: seq<D.Field>, lo: nat, i: nat, j: nat)
    requires Ordered(fields) && lo + 1 < |fields| && j < i < |fields|
    ensures MoveItem(fields, lo, lo + 1)[j].key != MoveItem(fields, lo, lo + 1)[i].key
  {
    hide MoveItem;
    MovedAt(fields, lo, lo + 1, i);
    MovedAt(fields, lo, lo + 1, j);
    KeysDiffer(fields, Other(lo, j), Other(lo, i));
  }

  lemma ControllerStaysBefore(fields: seq<D.Field>, lo: nat, i: nat) returns (m: nat)
    requires Ordered(fields) && lo + 1 < |fields| && i < |fields| && !Follows(fields[lo + 1], fields[lo].key)
    requires fields[Other(lo, i)].showIf.Some?
    ensures m < i && MoveItem(fields, lo, lo + 1)[m].key == fields[Other(lo, i)].showIf.value.field
  {
    hide MoveItem;
    ControllerStandsBefore(fields, Other(lo, i));
    var j :| 0 <= j < Other(lo, i) && fields[j].key == fields[Other(lo, i)].showIf.value.field;
    m := Other(lo, j);
    MovedAt(fields, lo, lo + 1, m);
  }

  lemma MoveKeeps(fm: Formats, fields: seq<D.Field>, lo: nat, i: nat)
    requires FieldsOk(fm, fields) && lo + 1 < |fields| && i < |fields| && !Follows(fields[lo + 1], fields[lo].key)
    ensures FieldOk(fm, MoveItem(fields, lo, lo + 1), i)
  {
    ValidFieldsAreOrdered(fm, fields);
    assert FieldOk(fm, fields, Other(lo, i));
    hide FieldsOk, FieldOk, MoveItem, Ordered;
    var r := MoveItem(fields, lo, lo + 1);
    MovedAt(fields, lo, lo + 1, i);
    forall j | 0 <= j < i ensures r[j].key != r[i].key {
      MovedKeyIsNew(fields, lo, i, j);
    }
    if fields[Other(lo, i)].showIf.Some? {
      var m := ControllerStaysBefore(fields, lo, i);
    }
    FieldOkElsewhere(fm, fields, Other(lo, i), r, i);
  }

  /** Exchanging two neighbours keeps a form valid exactly when the lower one is not controlled by the upper one. */
  lemma MoveValid(fm: Formats, fields: seq<D.Field>, lo: nat)
    requires FieldsOk(fm, fields) && lo + 1 < |fields|
    ensures MoveItem(fields, lo, lo + 1) == MoveItem(fields, lo + 1, lo)
    ensures FieldsOk(fm, MoveItem(fields, lo, lo + 1)) <==> !Follows(fields[lo + 1], fields[lo].key)
  {
    ValidFieldsAreOrdered(fm, fields);
    hide FieldOk, Ordered;
    var r := MoveItem(fields, lo, lo + 1);
    assert MoveItem(fields, lo + 1, lo) == r;
    if Follows(fields[lo + 1], fields[lo].key) {
      UpperControls(fm, fields, lo);
    } else {
      forall i | 0 <= i < |r| ensures FieldOk(fm, r, i) {
        MoveKeeps(fm, fields, lo, i);
      }
    }
  }

  lemma UpperControls(fm: Formats, fields: seq<D.Field>, lo: nat)
    requires Ordered(fields) && lo + 1 < |fields| && Follows(fields[lo + 1], fields[lo].key)
    ensures !FieldOk(fm, MoveItem(fields, lo, lo + 1), lo)
  {
    hide FieldOk;
    var r := MoveItem(fields, lo, lo + 1);
    assert forall j :: 0 <= j < lo ==> r[j] == fields[j];
    assert r[lo] == fields[lo + 1];
    ControllerMustPrecede(fm, r, lo);
  }

  lemma ControllerMustPrecede(fm: Formats, fields: seq<D.Field>, i: nat)
    requires i < |fields| && fields[i].showIf.Some?
    requires forall j :: 0 <= j < i ==> fields[j].key != fields[i].showIf.value.field
    ensures !FieldOk(fm, fields, i)
  {
  }

  function Other(lo: nat, i: nat): nat {
    if i == lo then lo + 1 else if i == lo + 1 then lo else i
  }

  // ---- changing the type -----------------------------------------------------------------------------------

  lemma FittedIsOk(fm: Formats, was: D.FieldType, kind: D.FieldType, v: Option<D.Validation>)
    requires v.Some? ==> ValidationOk(fm, was, v.value)
    ensures FitValidation(v, kind).Some? ==> ValidationOk(fm, kind, FitValidation(v, kind).value)
    ensures FitValidation(v, kind) != Some(D.Validation(None, None, "", None, None))
  {
  }

  lemma StartersAreOk(fm: Formats)
    requires fm.space !! {'o', 'O', '1', '2'}
    ensures OptionsOk(fm, true, STARTER_OPTIONS)
  {
    assert STARTER_OPTIONS[0].value[6] == '1' && STARTER_OPTIONS[1].value[6] == '2';
    forall j | 0 <= j < 2 ensures OptionOk(fm, STARTER_OPTIONS, j) {}
  }

  /** Giving a field another type of the language keeps the form's fields valid: options come and go with the type,
      and limits that the type does not have are dropped. */
  lemma RetypeValid(fm: Formats, fields: seq<D.Field>, index: nat, kind: D.FieldType)
    requires FieldsOk(fm, fields) && index < |fields| && fm.space !! {'o', 'O', '1', '2'}
    ensures FieldsOk(fm, fields[index := Retyped(fields[index], kind)]) <==> !kind.UnknownType?
  {
    hide IsKey, Blank, OptionsOk, ValidationOk, FitValidation;
    var r := fields[index := Retyped(fields[index], kind)];
    StartersAreOk(fm);
    assert FieldOk(fm, fields, index);
    forall i | 0 <= i < |fields| ensures FieldOk(fm, r, i) <==> i != index || !kind.UnknownType? {
      assert FieldOk(fm, fields, i);
      FittedIsOk(fm, fields[index].kind, kind, fields[index].validation);
      RetypedOptionsOk(fm, fields[index], kind);
      if fields[i].showIf.Some? {
        var j :| 0 <= j < i && fields[j].key == fields[i].showIf.value.field;
        assert r[j].key == fields[j].key;
      }
    }
    assert FieldOk(fm, r, index) <==> !kind.UnknownType?;
  }

  lemma RetypedOptionsOk(fm: Formats, f: D.Field, kind: D.FieldType)
    requires OptionsOk(fm, f.kind.Select? || f.kind.MultiSelect?, f.options) && OptionsOk(fm, true, STARTER_OPTIONS)
    ensures OptionsOk(fm, kind.Select? || kind.MultiSelect?, Retyped(f, kind).options)
  {
    hide OptionOk, FitValidation;
  }

  // ---- runs ------------------------------------------------------------------------------------------

  ghost predicate Declared(fields: seq<D.Field>) {
    forall i :: 0 <= i < |fields| && fields[i].showIf.Some? ==> fields[i].showIf.value.field in Keys(fields)
  }

  /** Every condition names a declared field, and the selection points at a field. */
  ghost predicate Sound(s: Editor) {
    Declared(s.fields) && (s.selected.Some? ==> s.selected.value < |s.fields|)
  }

  /** What the editor's controls offer: a condition is picked among the fields of the form, a field is selected from
      the list, and a loaded form has no dangling condition itself. */
  ghost predicate Offered(s: Editor, a: EditorAction) {
    match a
    case UpdateField(_, patch) =>
      patch.showIf.Some? && patch.showIf.value.Some? ==> patch.showIf.value.value.field in Keys(s.fields)
    case Select(selection) => selection.Some? ==> selection.value < |s.fields|
    case Replace(_, fields) => Declared(fields)
    case _ => true
  }

  lemma {:induction false} RenameKeepsReferences(fields: seq<D.Field>, index: nat, key: string)
    requires index < |fields|
    requires Declared(fields)
    requires Follows(fields[index], fields[index].key) ==> CountKey(fields, fields[index].key) != 1
    ensures Declared(Renamed(fields, index, key))
  {
    var r, was := Renamed(fields, index, key), fields[index].key;
    RenamedKeys(fields, index, key);
    forall i | 0 <= i < |r| && r[i].showIf.Some? ensures r[i].showIf.value.field in Keys(r) {
      var c := fields[i].showIf.value.field;
      if c == was && CountKey(fields, was) != 1 {
        var j := OtherOccurrence(fields, index);
        assert r[j].key == was;
      } else if c == was {
        assert r[index].key == key;
      } else {
        var j :| 0 <= j < |fields| && fields[j].key == c;
        assert r[j].key == c;
      }
    }
  }

  lemma {:induction false} OtherOccurrence(fields: seq<D.Field>, index: nat) returns (j: nat)
    requires index < |fields| && CountKey(fields, fields[index].key) != 1
    ensures j < |fields| && j != index && fields[j].key == fields[index].key
  {
    var key := fields[index].key;
    if index == 0 {
      CountsZero(fields[1..], key);
      var i :| 0 <= i < |fields[1..]| && fields[1..][i].key == key;
      j := i + 1;
    } else if fields[0].key == key {
      j := 0;
    } else {
      j := OtherOccurrence(fields[1..], index - 1);
      j := j + 1;
    }
  }

  lemma RemoveKeepsReferences(fields: seq<D.Field>, index: nat)
    requires index < |fields|
    requires Declared(fields)
    ensures Declared(Removed(fields, index))
    ensures |Removed(fields, index)| == |fields| - 1
  {
    RemovedLength(fields, index);
    hide Removed, Gone;
    var r := Removed(fields, index);
    forall i | 0 <= i < |r| && r[i].showIf.Some? ensures r[i].showIf.value.field in Keys(r) {
      RemovedAt(fields, index, i);
      var j :| 0 <= j < |fields| && fields[j].key == fields[Before(index, i)].showIf.value.field;
      var m := ControllerRemains(fields, index, j);
    }
  }

  /** The one rename that leaves a condition dangling: of a field whose condition names its own, unique key. */
  ghost predicate SelfControlled(s: Editor, a: EditorAction) {
    a.RenameField? && InRange(s, a.index) && a.key != s.fields[a.index].key &&
    Follows(s.fields[a.index], s.fields[a.index].key) && CountKey(s.fields, s.fields[a.index].key) == 1
  }

  lemma RenameSound(fields: seq<D.Field>, index: nat, key: string)
    requires Declared(fields) && index < |fields|
    ensures Declared(Renamed(fields, index, key)) <==>
            !(key != fields[index].key && Follows(fields[index], fields[index].key) &&
              CountKey(fields, fields[index].key) == 1)
  {
    var r, was := Renamed(fields, index, key), fields[index].key;
    RenamedKeys(fields, index, key);
    if key == was {
      assert r == fields;
    } else if Follows(fields[index], was) && CountKey(fields, was) == 1 {
      forall i | 0 <= i < |fields| ensures r[i].key != was {
        if i != index && fields[i].key == was { TwoOccurrences(fields, index, i); }
      }
      assert r[index].showIf.value.field !in Keys(r);
    } else {
      RenameKeepsReferences(fields, index, key);
    }
  }

  lemma {:induction false} TwoOccurrences(fields: seq<D.Field>, i: nat, j: nat)
    requires i < |fields| && j < |fields| && i != j && fields[i].key == fields[j].key
    ensures CountKey(fields, fields[i].key) >= 2
  {
    var lo, hi := if i < j then i else j, if i < j then j else i;
    if lo == 0 {
      CountsZero(fields[1..], fields[0].key);
      assert fields[1..][hi - 1].key == fields[0].key;
    } else {
      TwoOccurrences(fields[1..], lo - 1, hi - 1);
    }
  }

  lemma DuplicatedAt(fields: seq<D.Field>, index: nat)
    requires index < |fields|
    ensures var r := Duplicated(fields, index);
            |r| == |fields| + 1 && r[index + 1].showIf == fields[index].showIf &&
            forall i :: 0 <= i < |r| && i != index + 1 ==> r[i] == fields[if i <= index then i else i - 1]
  {
    hide UniqueName;
  }

  lemma DuplicateSound(fields: seq<D.Field>, index: nat)
    requires Declared(fields) && index < |fields|
    ensures Declared(Duplicated(fields, index)) && |Duplicated(fields, index)| == |fields| + 1
  {
    hide Duplicated;
    var r := Duplicated(fields, index);
    DuplicatedAt(fields, index);
    forall i | 0 <= i < |fields| ensures fields[i] in r {
      assert r[if i <= index then i else i + 1] == fields[i];
    }
    KeysGrow(fields, r);
  }

  lemma AppendSound(fields: seq<D.Field>, f: D.Field)
    requires Declared(fields) && f.showIf.None?
    ensures Declared(fields + [f])
  {
    assert forall i :: 0 <= i < |fields| ==> (fields + [f])[i] == fields[i];
    KeysGrow(fields, fields + [f]);
  }

  lemma ReplaceSound(fields: seq<D.Field>, index: nat, f: D.Field)
    requires Declared(fields) && index < |fields| && f.key == fields[index].key
    requires f.showIf == fields[index].showIf || (f.showIf.Some? ==> f.showIf.value.field in Keys(fields))
    ensures Declared(fields[index := f])
  {
    var r := fields[index := f];
    forall k | k in Keys(fields) ensures k in Keys(r) {
      var i :| 0 <= i < |fields| && fields[i].key == k;
      assert r[i].key == k;
    }
  }

  lemma MoveSound(fields: seq<D.Field>, from: nat, to: nat)
    requires Declared(fields) && from < |fields| && to < |fields| && (to == from + 1 || from == to + 1)
    ensures Declared(MoveItem(fields, from, to))
  {
    hide MoveItem;
    var lo, r := if from < to then from else to, MoveItem(fields, from, to);
    forall i | 0 <= i < |fields| ensures fields[i] in r && r[i] == fields[Other(lo, i)] {
      MovedAt(fields, from, to, i);
      MovedAt(fields, from, to, Other(lo, i));
    }
    KeysGrow(fields, r);
  }

  /** A step that the controls offer keeps the editor sound, with the one exception above, which never does. */
  lemma ReduceKeepsSound(s: Editor, a: EditorAction)
    requires Sound(s) && Offered(s, a)
    ensures Sound(Reduce(s, a)) <==> !SelfControlled(s, a)
  {
    hide Declared, Renamed, Removed, Duplicated, MoveItem, NextNumbered, CountKey, Follows, Keys, FitValidation;
    match a
    case AddField(kind) =>
      AppendSound(s.fields, NewField(kind, Keys(s.fields)));
    case UpdateField(index, patch) =>
      if InRange(s, index) { ReplaceSound(s.fields, index, Patched(s.fields[index], patch)); }
    case SetFieldType(index, kind) =>
      if InRange(s, index) { ReplaceSound(s.fields, index, Retyped(s.fields[index], kind)); }
    case RenameField(index, key) =>
      if InRange(s, index) { RenameSound(s.fields, index, key); RenamedKeys(s.fields, index, key); }
    case RemoveField(index) =>
      if InRange(s, index) { RemoveKeepsReferences(s.fields, index); }
    case DuplicateField(index) =>
      if InRange(s, index) { DuplicateSound(s.fields, index); }
    case MoveField(index, up) =>
      var target := if up then index - 1 else index + 1;
      if InRange(s, index) && InRange(s, target) { MoveSound(s.fields, index, target); }
    case _ =>
  }

  lemma KeysGrow(fields: seq<D.Field>, r: seq<D.Field>)
    requires forall i :: 0 <= i < |fields| ==> fields[i] in r
    ensures Keys(fields) <= Keys(r)
  {
    forall k | k in Keys(fields) ensures k in Keys(r) {
      var i :| 0 <= i < |fields| && fields[i].key == k;
      var j :| 0 <= j < |r| && r[j] == fields[i];
    }
  }

  /** A session: each editor follows from the one before by an offered edit that is not the rename of a field that
      controls itself. */
  ghost predicate Session(es: seq<Editor>, actions: seq<EditorAction>) {
    |es| == |actions| + 1 &&
    forall i :: 0 <= i < |actions| ==>
      Offered(es[i], actions[i]) && !SelfControlled(es[i], actions[i]) && es[i + 1] == Reduce(es[i], actions[i])
  }

  /** At no time in such a session does a condition name an undeclared field, or is the selection out of range. */
  lemma {:induction false} SessionsStaySound(es: seq<Editor>, actions: seq<EditorAction>, n: nat)
    requires Session(es, actions) && Sound(es[0]) && n < |es|
    ensures Sound(es[n])
  {
    hide Sound, Reduce, Offered, SelfControlled;
    if n > 0 {
      SessionsStaySound(es, actions, n - 1);
      assert Offered(es[n - 1], actions[n - 1]);
      ReduceKeepsSound(es[n - 1], actions[n - 1]);
    }
  }

  const NO_META := Meta("", "", "", "", D.FormSettings(false, "", ""))

  /** The exception is reached from a valid form by edits that the controls offer: the second field takes the key of
      its controller, the controller goes, and the field is renamed away from itself. */
  lemma OfferedEditsCanDangle(fm: Formats) returns (s: Editor, a1: EditorAction, a2: EditorAction, a3: EditorAction)
    requires 'A' !in fm.space
    ensures FieldsOk(fm, s.fields) && Sound(s) && Offered(s, a1)
    ensures var s1 := Reduce(s, a1);
            var s2 := Reduce(s1, a2);
            Offered(s1, a2) && Offered(s2, a3) && !Sound(Reduce(s2, a3))
  {
    hide OptionsOk, ValidationOk, Blank, IsKey;
    var c := D.Condition("a", Str("x"), Null, None);
    var first, second := TextField("a", None), TextField("b", Some(c));
    s := Editor(NO_META, [first, second], None, false);
    ShortFieldsOk(fm);
    a1, a2, a3 := RenameField(1, "a"), RemoveField(0), RenameField(0, "c");
    assert first.key in Keys(s.fields) by { assert s.fields[0].key == "a"; }
    var s1 := Reduce(s, a1);
    assert s1.fields == [first, second.(key := "a")];
    var s2 := Reduce(s1, a2);
    assert Remove(s1.fields, 0) == [second.(key := "a")];
    assert CountKey([second.(key := "a")], "a") == 1;
    assert s2.fields == [second.(key := "a")];
    assert SelfControlled(s2, a3);
    ReduceKeepsSound(s2, a3);
    assert s2.fields[0].key == "a" && "a" in Keys(s2.fields);
  }

  lemma ShortFieldsOk(fm: Formats)
    requires 'A' !in fm.space
    ensures FieldsOk(fm, [TextField("a", None), TextField("b", Some(D.Condition("a", Str("x"), Null, None)))])
  {
    var fields := [TextField("a", None), TextField("b", Some(D.Condition("a", Str("x"), Null, None)))];
    assert fields[0].key == "a" && fields[1].key == "b";
    assert "a"[0] != "b"[0];
    assert FieldOk(fm, fields, 0) && FieldOk(fm, fields, 1);
  }
}
