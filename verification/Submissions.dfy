/** Visibility and cleaning of a submission: one pass over the fields, and what that pass computes. */
module Submissions {
  import opened Common
  import opened JsonValues
  import opened Text
  import opened Values
  import opened DefinitionRules
  import D = Definitions

  /** A problem of one answer; the server prints the path as `data.<key>`. */
  datatype Finding = Finding(key: string, message: Message)

  /** The tables that the pass fills. */
  datatype Tables = Tables(
    vis: map<string, bool>, clean: map<string, Json>, types: map<string, D.FieldType>, findings: seq<Finding>)

  const EMPTY_TABLES := Tables(map[], map[], map[], [])

  predicate Contains(fm: Formats, items: seq<Json>, v: Json) {
    exists i :: 0 <= i < |items| && JsonEqual(fm.round, items[i], v)
  }

  function Items(v: Json): seq<Json> {
    if v.Arr? then v.items else []
  }

  /** Does a condition hold for a controller of type `ctrl` whose cleaned value is `val` (None: no value)? */
  predicate Holds(fm: Formats, c: D.Condition, ctrl: D.FieldType, val: Option<Json>) {
    if c.equals != Null then
      val.Some? &&
      if ctrl.MultiSelect? then Contains(fm, Items(val.value), c.equals)
      else JsonEqual(fm.round, val.value, c.equals)
    else if c.notEquals != Null then
      val.None? ||
      if ctrl.MultiSelect? then !Contains(fm, Items(val.value), c.notEquals)
      else !JsonEqual(fm.round, val.value, c.notEquals)
    else if c.oneOf.Some? then
      val.Some? &&
      if ctrl.MultiSelect? then
        exists i :: 0 <= i < |Items(val.value)| && Contains(fm, c.oneOf.value, Items(val.value)[i])
      else Contains(fm, c.oneOf.value, val.value)
    else true
  }

  /** A value meets an operand if the two are equal as doubles; a list of choices if one of the choices does. */
  ghost predicate Meets(fm: Formats, ctrl: D.FieldType, val: Option<Json>, operand: Json) {
    val.Some? &&
    if ctrl.MultiSelect? then
      val.value.Arr? &&
      exists i :: 0 <= i < |val.value.items| && Rounded(fm.round, val.value.items[i]) == Rounded(fm.round, operand)
    else Rounded(fm.round, val.value) == Rounded(fm.round, operand)
  }

  /** What the three kinds of condition ask: to meet the operand, not to meet it, to meet one of several. */
  lemma ConditionMeans(fm: Formats, c: D.Condition, ctrl: D.FieldType, val: Option<Json>)
    ensures c.equals != Null ==> (Holds(fm, c, ctrl, val) <==> Meets(fm, ctrl, val, c.equals))
    ensures c.equals == Null && c.notEquals != Null ==>
              (Holds(fm, c, ctrl, val) <==> !Meets(fm, ctrl, val, c.notEquals))
    ensures c.equals == Null && c.notEquals == Null && c.oneOf.Some? ==>
              (Holds(fm, c, ctrl, val) <==>
               exists j :: 0 <= j < |c.oneOf.value| && Meets(fm, ctrl, val, c.oneOf.value[j]))
    ensures c.equals == Null && c.notEquals == Null && c.oneOf.None? ==> Holds(fm, c, ctrl, val)
  {
    hide JsonEqual, Rounded, Meets;
    MeetsIs(fm, ctrl, val, c.equals);
    MeetsIs(fm, ctrl, val, c.notEquals);
    if c.oneOf.Some? {
      forall j | 0 <= j < |c.oneOf.value|
        ensures Meets(fm, ctrl, val, c.oneOf.value[j]) <==>
                val.Some? &&
                if ctrl.MultiSelect? then Contains(fm, Items(val.value), c.oneOf.value[j])
                else JsonEqual(fm.round, c.oneOf.value[j], val.value)
      {
        MeetsIs(fm, ctrl, val, c.oneOf.value[j]);
        if val.Some? { EqualsEitherWay(fm, val.value, c.oneOf.value[j]); }
      }
      if val.Some? { OneOfSome(fm, c.oneOf.value, Items(val.value)); }
    }
  }

  lemma EqualsEitherWay(fm: Formats, a: Json, b: Json)
    ensures JsonEqual(fm.round, a, b) <==> JsonEqual(fm.round, b, a)
  {
  }

  /** Some item is one of the values exactly if one of the values is some item. */
  lemma OneOfSome(fm: Formats, values: seq<Json>, items: seq<Json>)
    ensures (exists i :: 0 <= i < |items| && Contains(fm, values, items[i])) <==>
            exists j :: 0 <= j < |values| && Contains(fm, items, values[j])
  {
    hide JsonEqual;
    forall i, j | 0 <= i < |items| && 0 <= j < |values|
      ensures JsonEqual(fm.round, items[i], values[j]) <==> JsonEqual(fm.round, values[j], items[i])
    {
      EqualsEitherWay(fm, items[i], values[j]);
    }
    if i, j :| 0 <= i < |items| && 0 <= j < |values| && JsonEqual(fm.round, values[j], items[i]) {
      assert Contains(fm, values, items[i]) && Contains(fm, items, values[j]);
    }
  }

  lemma MeetsIs(fm: Formats, ctrl: D.FieldType, val: Option<Json>, operand: Json)
    ensures Meets(fm, ctrl, val, operand) <==>
            val.Some? &&
            if ctrl.MultiSelect? then Contains(fm, Items(val.value), operand)
            else JsonEqual(fm.round, val.value, operand)
  {
    hide JsonEqual, Rounded;
    if val.Some? {
      JsonEqualIsRoundedEquality(fm.round, val.value, operand);
      forall i | 0 <= i < |Items(val.value)| {
        JsonEqualIsRoundedEquality(fm.round, Items(val.value)[i], operand);
      }
    }
  }

  function Find<V>(m: map<string, V>, key: string): Option<V> {
    if key in m then Some(m[key]) else None
  }

  predicate Shown(fm: Formats, t: Tables, fld: D.Field) {
    fld.showIf.None? ||
    var c := fld.showIf.value;
    c.field in t.vis && t.vis[c.field] && c.field in t.types && Holds(fm, c, t.types[c.field], Find(t.clean, c.field))
  }

  /** What a shown field contributes: a cleaned value, a problem, or nothing. */
  function Verdict(fm: Formats, fld: D.Field, raw: Json): Checked {
    match CheckValue(fm, fld.kind, fld.options, fld.validation, raw)
    case Bad(m) => Bad(m)
    case Absent => if fld.required then Bad(IsRequired) else Absent
    case Good(v) => if fld.kind.Checkbox? && fld.required && v == Bool(false) then Bad(MustBeChecked) else Good(v)
  }

  function Step(fm: Formats, data: map<string, Json>, t: Tables, fld: D.Field): Tables {
    var t1 := t.(types := t.types[fld.key := fld.kind],
                 vis := t.vis[fld.key := Shown(fm, t.(types := t.types[fld.key := fld.kind]), fld)]);
    if !t1.vis[fld.key] then t1
    else match Verdict(fm, fld, Get(data, fld.key))
      case Bad(m) => t1.(findings := t1.findings + [Finding(fld.key, m)])
      case Good(v) => t1.(clean := t1.clean[fld.key := v])
      case Absent => t1
  }

  function Pass(fm: Formats, data: map<string, Json>, fields: seq<D.Field>): Tables {
    if fields == [] then EMPTY_TABLES
    else Step(fm, data, Pass(fm, data, fields[..|fields| - 1]), fields[|fields| - 1])
  }

  /** One round of the evaluator's loop, on its four tables. */
  method EvaluateField(fm: Formats, data: map<string, Json>, fld: D.Field, t: Tables) returns (t': Tables)
    ensures t' == Step(fm, data, t, fld)
  {
    hide CheckValue, Holds;
    var vis, clean, types, findings := t.vis, t.clean, t.types, t.findings;
    types := types[fld.key := fld.kind];
    var shown := true;
    if fld.showIf.Some? {
      var c := fld.showIf.value;
      if c.field !in vis || !vis[c.field] {
        shown := false;
      } else {
        shown := c.field in types && Holds(fm, c, types[c.field], Find(clean, c.field));
      }
    }
    vis := vis[fld.key := shown];
    if shown {
      match CheckValue(fm, fld.kind, fld.options, fld.validation, Get(data, fld.key)) {
        case Bad(m) =>
          findings := findings + [Finding(fld.key, m)];
        case Absent =>
          if fld.required {
            findings := findings + [Finding(fld.key, IsRequired)];
          }
        case Good(v) =>
          if fld.kind.Checkbox? && fld.required && v == Bool(false) {
            findings := findings + [Finding(fld.key, MustBeChecked)];
          } else {
            clean := clean[fld.key := v];
          }
      }
    }
    return Tables(vis, clean, types, findings);
  }

  /** The server's evaluator. */
  method Evaluate(fm: Formats, f: D.Form, data: map<string, Json>)
    returns (vis: map<string, bool>, clean: map<string, Json>, findings: seq<Finding>)
    ensures var t := Pass(fm, data, f.FieldList()); vis == t.vis && clean == t.clean && findings == t.findings
  {
    hide Step;
    var t := EMPTY_TABLES;
    var fields := f.FieldList();
    for i := 0 to |fields|
      invariant t == Pass(fm, data, fields[..i])
    {
      assert fields[..i + 1][..i] == fields[..i];
      t := EvaluateField(fm, data, fields[i], t);
    }
    assert fields[..|fields|] == fields;
    return t.vis, t.clean, t.findings;
  }

  /** Cleaned data, or every problem in field order. */
  method ValidateSubmission(fm: Formats, f: D.Form, data: map<string, Json>)
    returns (r: Result<map<string, Json>, seq<Finding>>)
    ensures var t := Pass(fm, data, f.FieldList()); r == if t.findings == [] then Ok(t.clean) else Err(t.findings)
  {
    var vis, clean, findings := Evaluate(fm, f, data);
    return if findings == [] then Ok(clean) else Err(findings);
  }

  // ---- the recursive reading of visibility ------------------------------------------------------

  /** Keys are distinct and every controller is declared before the fields that it controls. */
  ghost predicate Ordered(fields: seq<D.Field>) {
    (forall i, j :: 0 <= i < j < |fields| ==> fields[i].key != fields[j].key) &&
    (forall i :: 0 <= i < |fields| && fields[i].showIf.Some? ==>
       exists j :: 0 <= j < i && fields[j].key == fields[i].showIf.value.field)
  }

  lemma ValidFieldsAreOrdered(fm: Formats, fields: seq<D.Field>)
    requires FieldsOk(fm, fields)
    ensures Ordered(fields)
  {
    forall i | 0 <= i < |fields|
      ensures forall j :: 0 <= j < i ==> fields[j].key != fields[i].key
      ensures fields[i].showIf.Some? ==> exists j :: 0 <= j < i && fields[j].key == fields[i].showIf.value.field
    {
      assert FieldOk(fm, fields, i);
    }
  }

  ghost predicate OnlyKeysOf(fields: seq<D.Field>, keys: set<string>) {
    forall k :: k in keys ==> exists i :: 0 <= i < |fields| && fields[i].key == k
  }

  /** Field i is visible iff it has no condition, or its controller is visible and the condition holds on the
      controller's cleaned value. */
  ghost predicate VisibilityEquation(fm: Formats, fields: seq<D.Field>, vis: map<string, bool>,
          clean: map<string, Json>, i: nat)
    requires i < |fields|
  {
    fields[i].key in vis &&
    (fields[i].showIf.None? ==> vis[fields[i].key]) &&
    (fields[i].showIf.Some? ==>
       var c := fields[i].showIf.value;
       forall j :: 0 <= j < i && fields[j].key == c.field ==>
         c.field in vis && (vis[fields[i].key] <==> vis[c.field] && Holds(fm, c, fields[j].kind, Find(clean, c.field))))
  }

  /** A cleaned value is there exactly for a visible field with an accepted answer, other than an unchecked box that
      must be checked; and then it is that answer's normal form. */
  ghost predicate CleaningEquation(fm: Formats, data: map<string, Json>, fields: seq<D.Field>,
      vis: map<string, bool>, clean: map<string, Json>, i: nat)
    requires i < |fields|
  {
    var f, k := fields[i], fields[i].key;
    k in vis &&
    (k in clean <==>
     vis[k] && k in data && CheckValue(fm, f.kind, f.options, f.validation, data[k]).Good? &&
     !(f.kind.Checkbox? && f.required && data[k] == Bool(false))) &&
    (k in clean ==> CheckValue(fm, f.kind, f.options, f.validation, data[k]) == Good(clean[k]))
  }

  ghost predicate Solves(fm: Formats, data: map<string, Json>, fields: seq<D.Field>, vis: map<string, bool>,
        clean: map<string, Json>) {
    OnlyKeysOf(fields, vis.Keys) && OnlyKeysOf(fields, clean.Keys) &&
    forall i :: 0 <= i < |fields| ==>
      VisibilityEquation(fm, fields, vis, clean, i) && CleaningEquation(fm, data, fields, vis, clean, i)
  }

  /** The problem of a visible field: no answer where one is required, an answer that is refused, or an unchecked box
      that must be checked. */
  function Complaint(fm: Formats, data: map<string, Json>, f: D.Field): seq<Finding> {
    if f.key !in data || CheckValue(fm, f.kind, f.options, f.validation, data[f.key]).Absent? then
      if f.required then [Finding(f.key, IsRequired)] else []
    else match CheckValue(fm, f.kind, f.options, f.validation, data[f.key])
      case Bad(m) => [Finding(f.key, m)]
      case Good(v) =>
        if f.kind.Checkbox? && f.required && v == Bool(false) then [Finding(f.key, MustBeChecked)] else []
  }

  /** The problems of the visible fields, in field order. */
  ghost function Complaints(fm: Formats, data: map<string, Json>, fields: seq<D.Field>,
        vis: map<string, bool>): seq<Finding> {
    if fields == [] then []
    else
      var fld := fields[|fields| - 1];
      Complaints(fm, data, fields[..|fields| - 1], vis) +
      if fld.key in vis && vis[fld.key] then Complaint(fm, data, fld) else []
  }

  /** The pass reads an answer as the equations do. */
  lemma VerdictReads(fm: Formats, data: map<string, Json>, f: D.Field)
    ensures var v, k := Verdict(fm, f, Get(data, f.key)), f.key;
            (v.Good? <==>
             k in data && CheckValue(fm, f.kind, f.options, f.validation, data[k]).Good? &&
             !(f.kind.Checkbox? && f.required && data[k] == Bool(false))) &&
            (v.Good? ==> CheckValue(fm, f.kind, f.options, f.validation, data[k]) == v) &&
            Complaint(fm, data, f) == if v.Bad? then [Finding(k, v.message)] else []
  {
    hide Trim, CheckString, CheckChoices;
    NullIsAbsent(fm, f);
    if f.key in data { BoxesAreKept(fm, f, data[f.key]); }
  }

  lemma BoxesAreKept(fm: Formats, f: D.Field, raw: Json)
    ensures f.kind.Checkbox? && CheckValue(fm, f.kind, f.options, f.validation, raw).Good? ==>
              CheckValue(fm, f.kind, f.options, f.validation, raw).value == raw
  {
  }

  lemma {:induction false} ComplaintsDependOnTheirKeys(fm: Formats, data: map<string, Json>, fields: seq<D.Field>,
      vis: map<string, bool>, vis': map<string, bool>)
    requires forall i :: 0 <= i < |fields| ==>
               fields[i].key in vis && fields[i].key in vis' && vis[fields[i].key] == vis'[fields[i].key]
    ensures Complaints(fm, data, fields, vis) == Complaints(fm, data, fields, vis')
  {
    if fields != [] {
      ComplaintsDependOnTheirKeys(fm, data, fields[..|fields| - 1], vis, vis');
    }
  }

  ghost predicate TypesRecorded(fields: seq<D.Field>, types: map<string, D.FieldType>) {
    OnlyKeysOf(fields, types.Keys) &&
    forall i :: 0 <= i < |fields| ==> fields[i].key in types && types[fields[i].key] == fields[i].kind
  }

  lemma OrderedFront(fields: seq<D.Field>)
    requires fields != [] && Ordered(fields)
    ensures Ordered(fields[..|fields| - 1])
  {
    var front := fields[..|fields| - 1];
    forall i | 0 <= i < |front| && front[i].showIf.Some?
      ensures exists j :: 0 <= j < i && front[j].key == front[i].showIf.value.field
    {
      var j :| 0 <= j < i && fields[j].key == fields[i].showIf.value.field;
      assert front[j].key == front[i].showIf.value.field;
    }
  }

  lemma GrowKeys(fields: seq<D.Field>, keys: set<string>, more: set<string>)
    requires fields != [] && OnlyKeysOf(fields[..|fields| - 1], keys)
    requires more <= keys + {fields[|fields| - 1].key}
    ensures OnlyKeysOf(fields, more)
  {
    forall key | key in more ensures exists i :: 0 <= i < |fields| && fields[i].key == key {
      if key in keys {
        var i :| 0 <= i < |fields| - 1 && fields[..|fields| - 1][i].key == key;
        assert fields[i].key == key;
      }
    }
  }

  /** The step for a new key leaves every other entry of the tables alone. */
  lemma StepTouchesOneKey(fm: Formats, data: map<string, Json>, s: Tables, fld: D.Field, k: string)
    requires k != fld.key
    ensures var t := Step(fm, data, s, fld);
            Find(t.vis, k) == Find(s.vis, k) && Find(t.clean, k) == Find(s.clean, k) &&
            Find(t.types, k) == Find(s.types, k)
  {
    hide CheckValue, Holds, Verdict;
  }

  lemma EarlierEquationsKept(fm: Formats, data: map<string, Json>, fields: seq<D.Field>, s: Tables, i: nat)
    requires fields != [] && Ordered(fields) && i < |fields| - 1
    requires Solves(fm, data, fields[..|fields| - 1], s.vis, s.clean)
    ensures var t := Step(fm, data, s, fields[|fields| - 1]);
            VisibilityEquation(fm, fields, t.vis, t.clean, i) && CleaningEquation(fm, data, fields, t.vis, t.clean, i)
  {
    hide CheckValue, Holds, Verdict, Step;
    var front, fld := fields[..|fields| - 1], fields[|fields| - 1];
    assert VisibilityEquation(fm, front, s.vis, s.clean, i) && CleaningEquation(fm, data, front, s.vis, s.clean, i);
    StepTouchesOneKey(fm, data, s, fld, fields[i].key);
    if fields[i].showIf.Some? {
      var j :| 0 <= j < i && fields[j].key == fields[i].showIf.value.field;
      StepTouchesOneKey(fm, data, s, fld, fields[j].key);
      assert front[j].key == fields[j].key;
    }
  }

  lemma NewKey<V>(fields: seq<D.Field>, m: map<string, V>)
    requires fields != [] && Ordered(fields) && OnlyKeysOf(fields[..|fields| - 1], m.Keys)
    ensures Find(m, fields[|fields| - 1].key) == None
  {
  }

  lemma LastEquationsHold(fm: Formats, data: map<string, Json>, fields: seq<D.Field>, s: Tables)
    requires fields != [] && Ordered(fields)
    requires Solves(fm, data, fields[..|fields| - 1], s.vis, s.clean) && TypesRecorded(fields[..|fields| - 1], s.types)
    ensures var t := Step(fm, data, s, fields[|fields| - 1]);
            VisibilityEquation(fm, fields, t.vis, t.clean, |fields| - 1) &&
            CleaningEquation(fm, data, fields, t.vis, t.clean, |fields| - 1)
  {
    hide CheckValue, Holds, Verdict, OnlyKeysOf, Complaint;
    var n := |fields| - 1;
    var front, fld := fields[..n], fields[n];
    VerdictReads(fm, data, fld);
    NewKey(fields, s.clean);
    if fld.showIf.Some? {
      var c := fld.showIf.value;
      var j :| 0 <= j < n && fields[j].key == c.field;
      assert front[j] == fields[j] && VisibilityEquation(fm, front, s.vis, s.clean, j);
      StepTouchesOneKey(fm, data, s, fld, c.field);
      assert forall j' :: 0 <= j' < n && fields[j'].key == c.field ==> j' == j;
    }
  }

  lemma StepKeys(fm: Formats, data: map<string, Json>, s: Tables, fld: D.Field)
    ensures var t := Step(fm, data, s, fld);
            t.vis.Keys <= s.vis.Keys + {fld.key} && t.clean.Keys <= s.clean.Keys + {fld.key} &&
            t.types == s.types[fld.key := fld.kind]
  {
    hide CheckValue, Holds, Verdict;
  }

  lemma StepRecords(fm: Formats, data: map<string, Json>, fields: seq<D.Field>, s: Tables)
    requires fields != [] && Ordered(fields) && TypesRecorded(fields[..|fields| - 1], s.types)
    requires OnlyKeysOf(fields[..|fields| - 1], s.vis.Keys) && OnlyKeysOf(fields[..|fields| - 1], s.clean.Keys)
    ensures var t := Step(fm, data, s, fields[|fields| - 1]);
            OnlyKeysOf(fields, t.vis.Keys) && OnlyKeysOf(fields, t.clean.Keys) && TypesRecorded(fields, t.types)
  {
    hide Step, OnlyKeysOf;
    var n := |fields| - 1;
    var front, t := fields[..n], Step(fm, data, s, fields[n]);
    StepKeys(fm, data, s, fields[n]);
    GrowKeys(fields, s.vis.Keys, t.vis.Keys);
    GrowKeys(fields, s.clean.Keys, t.clean.Keys);
    GrowKeys(fields, s.types.Keys, t.types.Keys);
    assert forall i :: 0 <= i < n ==> front[i] == fields[i];
  }

  /** One more field keeps the equations of the fields before it and satisfies its own. */
  lemma StepSolves(fm: Formats, data: map<string, Json>, fields: seq<D.Field>, s: Tables)
    requires fields != [] && Ordered(fields)
    requires Solves(fm, data, fields[..|fields| - 1], s.vis, s.clean) && TypesRecorded(fields[..|fields| - 1], s.types)
    ensures var t := Step(fm, data, s, fields[|fields| - 1]);
            Solves(fm, data, fields, t.vis, t.clean) && TypesRecorded(fields, t.types)
  {
    hide CheckValue, Holds, Verdict, VisibilityEquation, CleaningEquation, Step, OnlyKeysOf, TypesRecorded;
    StepRecords(fm, data, fields, s);
    LastEquationsHold(fm, data, fields, s);
    var t := Step(fm, data, s, fields[|fields| - 1]);
    forall i | 0 <= i < |fields|
      ensures VisibilityEquation(fm, fields, t.vis, t.clean, i) && CleaningEquation(fm, data, fields, t.vis, t.clean, i)
    {
      if i < |fields| - 1 {
        EarlierEquationsKept(fm, data, fields, s, i);
      }
    }
  }

  lemma FrontUnchanged(fm: Formats, data: map<string, Json>, fields: seq<D.Field>, s: Tables)
    requires fields != [] && Ordered(fields) && Solves(fm, data, fields[..|fields| - 1], s.vis, s.clean)
    ensures var t := Step(fm, data, s, fields[|fields| - 1]);
            forall i :: 0 <= i < |fields| - 1 ==>
              fields[i].key in s.vis && fields[i].key in t.vis && s.vis[fields[i].key] == t.vis[fields[i].key]
  {
    hide CheckValue, Holds, Verdict, Step;
    var front := fields[..|fields| - 1];
    forall i | 0 <= i < |front|
      ensures Find(s.vis, fields[i].key).Some? &&
              Find(Step(fm, data, s, fields[|front|]).vis, fields[i].key) == Find(s.vis, fields[i].key)
    {
      assert front[i] == fields[i] && VisibilityEquation(fm, front, s.vis, s.clean, i);
      StepTouchesOneKey(fm, data, s, fields[|front|], fields[i].key);
    }
  }

  lemma LastComplaint(fm: Formats, data: map<string, Json>, s: Tables, fld: D.Field)
    ensures var t := Step(fm, data, s, fld);
            fld.key in t.vis && t.findings == s.findings + if t.vis[fld.key] then Complaint(fm, data, fld) else []
  {
    hide CheckValue, Holds, Verdict, Complaint;
    VerdictReads(fm, data, fld);
  }

  lemma NothingToSolve(fm: Formats, data: map<string, Json>)
    ensures Solves(fm, data, [], EMPTY_TABLES.vis, EMPTY_TABLES.clean) && TypesRecorded([], EMPTY_TABLES.types)
  {
  }

  /** The pass solves the visibility equations, and reports exactly the problems of the visible fields. */
  lemma {:induction false} PassSolves(fm: Formats, data: map<string, Json>, fields: seq<D.Field>)
    requires Ordered(fields)
    ensures var t := Pass(fm, data, fields);
            Solves(fm, data, fields, t.vis, t.clean) && t.findings == Complaints(fm, data, fields, t.vis)
    ensures TypesRecorded(fields, Pass(fm, data, fields).types)
  {
    hide CheckValue, Holds, Verdict, Step, Solves, TypesRecorded, Ordered;
    if fields == [] {
      NothingToSolve(fm, data);
    } else {
      var front := fields[..|fields| - 1];
      var s, t := Pass(fm, data, front), Pass(fm, data, fields);
      OrderedFront(fields);
      PassSolves(fm, data, front);
      StepSolves(fm, data, fields, s);
      FrontUnchanged(fm, data, fields, s);
      ComplaintsDependOnTheirKeys(fm, data, front, s.vis, t.vis);
      LastComplaint(fm, data, s, fields[|front|]);
    }
  }

  lemma SameEntries<V>(m: map<string, V>, m': map<string, V>)
    requires forall k :: k in m || k in m' ==> Find(m, k) == Find(m', k)
    ensures m == m'
  {
    assert forall k :: k in m || k in m' ==> (k in m <==> k in m') && Find(m, k) == Find(m', k);
    assert m.Keys == m'.Keys;
  }

  /** The equations have one solution only. */
  lemma SolutionIsUnique(fm: Formats, data: map<string, Json>, fields: seq<D.Field>,
      vis: map<string, bool>, clean: map<string, Json>, vis': map<string, bool>, clean': map<string, Json>)
    requires Ordered(fields)
    requires Solves(fm, data, fields, vis, clean) && Solves(fm, data, fields, vis', clean')
    ensures vis == vis' && clean == clean'
  {
    forall i | 0 <= i < |fields|
      ensures Find(vis, fields[i].key) == Find(vis', fields[i].key) &&
              Find(clean, fields[i].key) == Find(clean', fields[i].key)
    {
      AgreeAt(fm, data, fields, vis, clean, vis', clean', i);
    }
    assert forall k :: k in vis || k in vis' || k in clean || k in clean' ==>
             exists i :: 0 <= i < |fields| && fields[i].key == k;
    SameEntries(vis, vis');
    SameEntries(clean, clean');
  }

  lemma {:induction false} AgreeAt(fm: Formats, data: map<string, Json>, fields: seq<D.Field>,
      vis: map<string, bool>, clean: map<string, Json>, vis': map<string, bool>, clean': map<string, Json>, i: nat)
    requires Ordered(fields) && i < |fields|
    requires Solves(fm, data, fields, vis, clean) && Solves(fm, data, fields, vis', clean')
    ensures Find(vis, fields[i].key) == Find(vis', fields[i].key) &&
            Find(clean, fields[i].key) == Find(clean', fields[i].key)
    decreases i
  {
    assert VisibilityEquation(fm, fields, vis, clean, i) && VisibilityEquation(fm, fields, vis', clean', i);
    assert CleaningEquation(fm, data, fields, vis, clean, i) && CleaningEquation(fm, data, fields, vis', clean', i);
    if fields[i].showIf.Some? {
      var j :| 0 <= j < i && fields[j].key == fields[i].showIf.value.field;
      AgreeAt(fm, data, fields, vis, clean, vis', clean', j);
    }
  }

  /** What was typed into a hidden field reaches no output: data that agrees on the visible fields gives the same
      visibility, cleaned data and problems. */
  lemma HiddenAnswersDoNotMatter(fm: Formats, fields: seq<D.Field>, data: map<string, Json>, data': map<string, Json>)
    requires Ordered(fields)
    requires forall k :: k in Pass(fm, data, fields).vis && Pass(fm, data, fields).vis[k] ==>
               Get(data, k) == Get(data', k)
    ensures Pass(fm, data', fields) == Pass(fm, data, fields)
  {
    hide CheckValue, Holds, Verdict, Step, Complaint;
    var t, t' := Pass(fm, data, fields), Pass(fm, data', fields);
    PassSolves(fm, data, fields);
    PassSolves(fm, data', fields);
    forall i | 0 <= i < |fields|
      ensures VisibilityEquation(fm, fields, t.vis, t.clean, i) &&
              CleaningEquation(fm, data', fields, t.vis, t.clean, i)
    {
      assert VisibilityEquation(fm, fields, t.vis, t.clean, i) && CleaningEquation(fm, data, fields, t.vis, t.clean, i);
      VerdictReads(fm, data, fields[i]);
      VerdictReads(fm, data', fields[i]);
    }
    SolutionIsUnique(fm, data', fields, t.vis, t.clean, t'.vis, t'.clean);
    SameComplaints(fm, fields, data, data', t.vis);
    assert t.types == t'.types;
  }

  lemma {:induction false} SameComplaints(fm: Formats, fields: seq<D.Field>, data: map<string, Json>,
        data': map<string, Json>, vis: map<string, bool>)
    requires forall k :: k in vis && vis[k] ==> Get(data, k) == Get(data', k)
    ensures Complaints(fm, data, fields, vis) == Complaints(fm, data', fields, vis)
  {
    hide CheckValue, Verdict, Complaint;
    if fields != [] {
      VerdictReads(fm, data, fields[|fields| - 1]);
      VerdictReads(fm, data', fields[|fields| - 1]);
      SameComplaints(fm, fields[..|fields| - 1], data, data', vis);
    }
  }

  lemma CleanedSolvesAt(fm: Formats, fields: seq<D.Field>, data: map<string, Json>, vis: map<string, bool>,
        clean: map<string, Json>, i: nat)
    requires i < |fields| && CleaningEquation(fm, data, fields, vis, clean, i)
    ensures CleaningEquation(fm, clean, fields, vis, clean, i)
  {
    hide CheckValue;
    var f := fields[i];
    if f.key in clean {
      AcceptedIsStable(fm, f.kind, f.options, f.validation, data[f.key]);
      BoxesAreKept(fm, f, data[f.key]);
    }
  }

  lemma NullIsAbsent(fm: Formats, fld: D.Field)
    ensures CheckValue(fm, fld.kind, fld.options, fld.validation, Null) == Absent
  {
  }

  /** Evaluating the cleaned data again gives the same visibility and the same cleaned data, even when the first
      evaluation had problems. */
  lemma CleanedDataIsAFixedPoint(fm: Formats, fields: seq<D.Field>, data: map<string, Json>)
    requires Ordered(fields)
    ensures var t := Pass(fm, data, fields);
            Pass(fm, t.clean, fields).vis == t.vis && Pass(fm, t.clean, fields).clean == t.clean
  {
    hide CheckValue, Holds, Verdict, VisibilityEquation, CleaningEquation, Pass;
    var t := Pass(fm, data, fields);
    var t' := Pass(fm, t.clean, fields);
    PassSolves(fm, data, fields);
    PassSolves(fm, t.clean, fields);
    forall i | 0 <= i < |fields|
      ensures VisibilityEquation(fm, fields, t.vis, t.clean, i) &&
              CleaningEquation(fm, t.clean, fields, t.vis, t.clean, i)
    {
      CleanedSolvesAt(fm, fields, data, t.vis, t.clean, i);
    }
    SolutionIsUnique(fm, t.clean, fields, t.vis, t.clean, t'.vis, t'.clean);
  }

  /** What the evaluator says of one answer, in terms of what was sent. A hidden field has neither a value nor a
      problem. A visible one has a value exactly if there is an accepted answer, other than an unchecked box that must
      be checked; it is reported as required exactly if it is and the answer is missing or empty; and otherwise with
      the reason for which the answer is refused. */
  lemma AnswerIsRead(fm: Formats, data: map<string, Json>, fields: seq<D.Field>, i: nat)
    requires Ordered(fields) && i < |fields|
    ensures fields[i].key in Pass(fm, data, fields).vis
    ensures var t, f, k := Pass(fm, data, fields), fields[i], fields[i].key;
            (k in t.clean <==>
             t.vis[k] && k in data && CheckValue(fm, f.kind, f.options, f.validation, data[k]).Good? &&
             !(f.kind.Checkbox? && f.required && data[k] == Bool(false))) &&
            (k in t.clean ==> CheckValue(fm, f.kind, f.options, f.validation, data[k]) == Good(t.clean[k]))
    ensures var t, f, k := Pass(fm, data, fields), fields[i], fields[i].key;
            forall m :: Finding(k, m) in t.findings <==>
              t.vis[k] &&
              ((m == IsRequired && f.required &&
                (k !in data || CheckValue(fm, f.kind, f.options, f.validation, data[k]).Absent?)) ||
               (k in data && CheckValue(fm, f.kind, f.options, f.validation, data[k]) == Bad(m)) ||
               (m == MustBeChecked && f.kind.Checkbox? && f.required && k in data && data[k] == Bool(false)))
  {
    hide CheckValue, Holds, VisibilityEquation, Complaint, Pass, OnlyKeysOf;
    var t, f := Pass(fm, data, fields), fields[i];
    PassSolves(fm, data, fields);
    assert CleaningEquation(fm, data, fields, t.vis, t.clean, i);
    forall m
      ensures Finding(f.key, m) in t.findings <==> t.vis[f.key] && Finding(f.key, m) in Complaint(fm, data, f)
    {
      FoundAmong(fm, data, fields, t.vis, i, m);
      ComplaintHere(fm, data, f, m);
    }
    forall m { ComplaintHere(fm, data, f, m); }
  }

  lemma ComplaintHere(fm: Formats, data: map<string, Json>, f: D.Field, m: Message)
    ensures Finding(f.key, m) in Complaint(fm, data, f) <==>
            ((m == IsRequired && f.required &&
              (f.key !in data || CheckValue(fm, f.kind, f.options, f.validation, data[f.key]).Absent?)) ||
             (f.key in data && CheckValue(fm, f.kind, f.options, f.validation, data[f.key]) == Bad(m)) ||
             (m == MustBeChecked && f.kind.Checkbox? && f.required && f.key in data && data[f.key] == Bool(false)))
    ensures forall g :: g in Complaint(fm, data, f) ==> g.key == f.key
  {
    hide CheckValue;
    if f.key in data {
      BoxesAreKept(fm, f, data[f.key]);
      UncheckedIsGood(fm, f);
    }
  }

  lemma UncheckedIsGood(fm: Formats, f: D.Field)
    ensures f.kind.Checkbox? ==> CheckValue(fm, f.kind, f.options, f.validation, Bool(false)) == Good(Bool(false))
  {
  }

  /** Under distinct keys the problems of a field are its own. */
  lemma {:induction false} FoundAmong(fm: Formats, data: map<string, Json>, fields: seq<D.Field>,
        vis: map<string, bool>, i: nat, m: Message)
    requires i < |fields| && forall a, b :: 0 <= a < b < |fields| ==> fields[a].key != fields[b].key
    ensures Finding(fields[i].key, m) in Complaints(fm, data, fields, vis) <==>
            fields[i].key in vis && vis[fields[i].key] && Finding(fields[i].key, m) in Complaint(fm, data, fields[i])
  {
    hide Complaint;
    var n := |fields| - 1;
    var front, last := fields[..n], fields[n];
    ComplaintHere(fm, data, last, m);
    if i < n {
      assert fields[i].key != last.key && front[i] == fields[i];
      FoundAmong(fm, data, front, vis, i, m);
      assert Finding(fields[i].key, m) !in Complaint(fm, data, last);
    } else {
      NotAmong(fm, data, front, vis, last.key, m);
    }
  }

  lemma {:induction false} NotAmong(fm: Formats, data: map<string, Json>, fields: seq<D.Field>, vis: map<string, bool>,
        k: string, m: Message)
    requires forall i :: 0 <= i < |fields| ==> fields[i].key != k
    ensures Finding(k, m) !in Complaints(fm, data, fields, vis)
  {
    hide Complaint;
    if fields != [] {
      var n := |fields| - 1;
      NotAmong(fm, data, fields[..n], vis, k, m);
      ComplaintHere(fm, data, fields[n], m);
    }
  }

  lemma {:induction false} NoComplaintAgain(fm: Formats, data: map<string, Json>, fields: seq<D.Field>,
        vis: map<string, bool>, clean: map<string, Json>)
    requires Complaints(fm, data, fields, vis) == []
    requires forall i :: 0 <= i < |fields| ==> CleaningEquation(fm, data, fields, vis, clean, i)
    ensures Complaints(fm, clean, fields, vis) == []
  {
    hide Complaint, CleaningEquation;
    if fields != [] {
      var n := |fields| - 1;
      assert CleaningEquation(fm, data, fields, vis, clean, n);
      forall i | 0 <= i < n ensures CleaningEquation(fm, data, fields[..n], vis, clean, i) {
        assert CleaningEquation(fm, data, fields, vis, clean, i);
        SameEquation(fm, data, fields, vis, clean, i, n);
      }
      NoComplaintAgain(fm, data, fields[..n], vis, clean);
      LastIsQuiet(fm, data, fields, vis, clean, n);
    }
  }

  lemma SameEquation(fm: Formats, data: map<string, Json>, fields: seq<D.Field>, vis: map<string, bool>,
        clean: map<string, Json>, i: nat, n: nat)
    requires i < n <= |fields| && CleaningEquation(fm, data, fields, vis, clean, i)
    ensures CleaningEquation(fm, data, fields[..n], vis, clean, i)
  {
    hide CheckValue;
  }

  lemma LastIsQuiet(fm: Formats, data: map<string, Json>, fields: seq<D.Field>, vis: map<string, bool>,
        clean: map<string, Json>, i: nat)
    requires i < |fields| && CleaningEquation(fm, data, fields, vis, clean, i)
    requires fields[i].key in vis && vis[fields[i].key] ==> Complaint(fm, data, fields[i]) == []
    ensures fields[i].key in vis && vis[fields[i].key] ==> Complaint(fm, clean, fields[i]) == []
  {
    hide CheckValue;
    var f := fields[i];
    if f.key in data { BoxesAreKept(fm, f, data[f.key]); }
    if f.key in clean {
      AcceptedIsStable(fm, f.kind, f.options, f.validation, data[f.key]);
    }
  }

  /** Accepted answers, as they are stored, are accepted again: with the same visibility, without a problem, and as
      they are. They hold no key that the form does not have, and none of a hidden field. */
  lemma AcceptedAgain(fm: Formats, fields: seq<D.Field>, data: map<string, Json>)
    requires Ordered(fields) && Pass(fm, data, fields).findings == []
    ensures var t := Pass(fm, data, fields);
            Pass(fm, t.clean, fields) == t &&
            forall k :: k in t.clean ==>
              k in t.vis && t.vis[k] && k in data && exists i :: 0 <= i < |fields| && fields[i].key == k
  {
    hide CheckValue, Holds, VisibilityEquation, Pass, Complaint;
    var t := Pass(fm, data, fields);
    var t' := Pass(fm, t.clean, fields);
    CleanedDataIsAFixedPoint(fm, fields, data);
    PassSolves(fm, data, fields);
    PassSolves(fm, t.clean, fields);
    NoComplaintAgain(fm, data, fields, t.vis, t.clean);
    assert t'.types == t.types;
    forall k | k in t.clean
      ensures k in t.vis && t.vis[k] && k in data && exists i :: 0 <= i < |fields| && fields[i].key == k
    {
      var i :| 0 <= i < |fields| && fields[i].key == k;
      assert CleaningEquation(fm, data, fields, t.vis, t.clean, i);
    }
  }
}
