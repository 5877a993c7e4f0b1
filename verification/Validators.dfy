/** The validators that walk a definition and collect its problems. Their tables of names seen so far are specified by
    the first well-formed use of a name. */
module Validators {
  import opened Common
  import opened DefinitionRules
  import opened Definitions
  import opened JsonValues
  import opened Problems
  import opened Text
  import J = DefinitionJson

  const KEY_RULE := "must match ^[a-zA-Z][a-zA-Z0-9_]{0,63}$"
  const SLUG_RULE := "must match ^[a-z0-9][a-z0-9-]{0,62}$"

  function Quote(s: string): string {
    "\"" + s + "\""
  }

  // ---- names --------------------------------------------------------------------------------------------

  /** Where a well-formed name is used first among the first n. */
  function FirstUse(names: seq<string>, n: nat, k: string): (r: Option<nat>)
    requires n <= |names|
    ensures r.Some? ==>
              IsKey(k) && r.value < n && names[r.value] == k && forall j :: 0 <= j < r.value ==> names[j] != k
    ensures r.None? ==> !IsKey(k) || forall j :: 0 <= j < n ==> names[j] != k
  {
    if n == 0 || !IsKey(k) then None
    else
      var r := FirstUse(names, n - 1, k);
      if r.None? && names[n - 1] == k then Some(n - 1) else r
  }

  function FieldNames(fs: seq<Field>): seq<string> {
    seq(|fs|, i requires 0 <= i < |fs| => fs[i].key)
  }

  function StateNames(ss: seq<State>): seq<string> {
    seq(|ss|, i requires 0 <= i < |ss| => ss[i].key)
  }

  function ColumnNames(fs: seq<WorkflowField>): seq<string> {
    seq(|fs|, i requires 0 <= i < |fs| => fs[i].key)
  }

  function TransitionNames(ts: seq<Transition>): seq<string> {
    seq(|ts|, i requires 0 <= i < |ts| => ts[i].key)
  }

  /** A set of the names seen. */
  ghost predicate SeenIn(names: seq<string>, n: nat, seen: set<string>)
    requires n <= |names|
  {
    forall k :: k in seen <==> FirstUse(names, n, k).Some?
  }

  lemma SeesOneMore(names: seq<string>, n: nat, seen: set<string>)
    requires n < |names| && SeenIn(names, n, seen)
    ensures SeenIn(names, n + 1, if IsKey(names[n]) && names[n] !in seen then seen + {names[n]} else seen)
  {
    hide IsKey;
  }

  /** A table of the names seen and where each was used first. */
  ghost predicate TableOf(names: seq<string>, n: nat, seen: map<string, nat>)
    requires n <= |names|
  {
    forall k :: FirstUse(names, n, k) == if k in seen then Some(seen[k]) else None
  }

  lemma TableGrows(names: seq<string>, n: nat, seen: map<string, nat>)
    requires n < |names| && TableOf(names, n, seen)
    ensures TableOf(names, n + 1, if IsKey(names[n]) && names[n] !in seen then seen[names[n] := n] else seen)
  {
    hide IsKey;
  }

  lemma NothingSeen(names: seq<string>)
    ensures SeenIn(names, 0, {}) && TableOf(names, 0, map[])
  {
  }

  /** A key must be well formed and new. */
  function KeyProblems(p: string, key: string, used: bool, message: string): (ps: seq<Problem>)
    ensures ps == [] <==> IsKey(key) && !used
  {
    if !IsKey(key) then [Problem(p + ".key", KEY_RULE)] else When(used, p + ".key", message)
  }

  // ---- options ------------------------------------------------------------------------------------------

  function OptionProblems(fm: Formats, p: string, o: Choice, used: bool): (ps: seq<Problem>)
    ensures ps == [] <==>
            o.value != "" && Trim(fm.space, o.value) == o.value && !used && !Blank(fm.space, o.caption)
  {
    (if o.value == "" then [Problem(p + ".value", "is required")]
     else if Trim(fm.space, o.value) != o.value then [Problem(p + ".value", "must not start or end with whitespace")]
     else When(used, p + ".value", "duplicate option value " + Quote(o.value))) +
    When(Blank(fm.space, o.caption), p + ".label", "is required")
  }

  function OptionAt(fm: Formats, path: string, opts: seq<Choice>): nat -> seq<Problem> {
    (j: nat) =>
      if j >= |opts| then []
      else OptionProblems(fm, At(path + ".options", j), opts[j],
                          exists i :: 0 <= i < j && opts[i].value == opts[j].value)
  }

  function OptionsProblems(fm: Formats, path: string, allowed: bool, notAllowed: string, opts: seq<Choice>)
    : (ps: seq<Problem>)
    ensures ps == [] <==> OptionsOk(fm, allowed, opts)
  {
    hide Trim, OptionProblems;
    if !allowed then When(opts != [], path + ".options", notAllowed)
    else if opts == [] then [Problem(path + ".options", "at least one option is required")]
    else
      assert forall j :: 0 <= j < |opts| ==> (OptionAt(fm, path, opts)(j) == [] <==> OptionOk(fm, opts, j));
      Collect(OptionAt(fm, path, opts), |opts|)
  }

  lemma OptionLooksUp(fm: Formats, path: string, opts: seq<Choice>, j: nat, seen: set<string>)
    requires j < |opts| && seen == set i | 0 <= i < j :: opts[i].value
    ensures OptionAt(fm, path, opts)(j) ==
            OptionProblems(fm, At(path + ".options", j), opts[j], opts[j].value in seen)
  {
    hide OptionProblems, At;
  }

  /** The problems are those that each option has given the ones before it; there are none exactly for fitting
      options. */
  method ValidateOptions(fm: Formats, path: string, allowed: bool, notAllowed: string, opts: seq<Choice>)
    returns (ps: seq<Problem>)
    ensures ps == OptionsProblems(fm, path, allowed, notAllowed, opts)
    ensures ps == [] <==> OptionsOk(fm, allowed, opts)
  {
    hide OptionProblems, OptionsOk, Blank, Trim, Collect, At, OptionAt;
    if !allowed {
      return When(opts != [], path + ".options", notAllowed);
    }
    if opts == [] {
      return [Problem(path + ".options", "at least one option is required")];
    }
    ps := [];
    var seen: set<string> := {};
    for j := 0 to |opts|
      invariant seen == set i | 0 <= i < j :: opts[i].value
      invariant ps == Collect(OptionAt(fm, path, opts), j)
    {
      OptionLooksUp(fm, path, opts, j, seen);
      OneMore(OptionAt(fm, path, opts), j);
      ps := ps + OptionProblems(fm, At(path + ".options", j), opts[j], opts[j].value in seen);
      seen := seen + {opts[j].value};
    }
  }

  // ---- forms --------------------------------------------------------------------------------------------

  const TEXT_ONLY := "is only allowed on text, textarea, email and url fields"

  function ValidationProblems(fm: Formats, p: string, t: FieldType, v: Validation): (ps: seq<Problem>)
    ensures ps == [] <==> ValidationOk(fm, t, v)
  {
    When(!TakesText(t) && v.minLength.Some?, p + ".minLength", "minLength " + TEXT_ONLY) +
    When(!TakesText(t) && v.maxLength.Some?, p + ".maxLength", "maxLength " + TEXT_ONLY) +
    When(!TakesText(t) && v.pattern != "", p + ".pattern", "pattern " + TEXT_ONLY) +
    When(!t.Number? && v.min.Some?, p + ".min", "min is only allowed on number fields") +
    When(!t.Number? && v.max.Some?, p + ".max", "max is only allowed on number fields") +
    When(v.minLength.Some? && v.minLength.value < 0, p + ".minLength", "must be 0 or greater") +
    When(v.maxLength.Some? && v.maxLength.value < 0, p + ".maxLength", "must be 0 or greater") +
    When(v.minLength.Some? && v.maxLength.Some? && v.minLength.value > v.maxLength.value,
         p + ".maxLength", "must be greater than or equal to minLength") +
    When(v.min.Some? && v.max.Some? && v.min.value > v.max.value, p + ".max", "must be greater than or equal to min") +
    PatternProblems(fm, p + ".pattern", v.pattern)
  }

  function PatternProblems(fm: Formats, p: string, pattern: string): (ps: seq<Problem>)
    ensures ps == [] <==> pattern != "" ==> fm.compileError(pattern).None?
  {
    if pattern == "" || fm.compileError(pattern).None? then []
    else [Problem(p, "is not a valid regular expression: " + fm.compileError(pattern).value)]
  }

  function ConditionProblems(p: string, c: Condition, earlier: bool): (ps: seq<Problem>)
    ensures ps == [] <==> earlier && Operands(c) == 1 && c.oneOf != Some([])
  {
    When(!earlier, p + ".field",
         "must reference a field declared before this one (got " + Quote(c.field) + ")") +
    if Operands(c) != 1 then [Problem(p, "exactly one of equals, notEquals or in is required")]
    else When(c.oneOf == Some([]), p + ".in", "must not be empty")
  }

  function BasicProblems(fm: Formats, p: string, f: Field, first: Option<nat>): (ps: seq<Problem>)
    ensures ps == [] <==> IsKey(f.key) && first.None? && !f.kind.UnknownType? && !Blank(fm.space, f.caption)
  {
    hide IsKey, Blank;
    KeyProblems(p, f.key, first.Some?, DuplicateField(f.key, first)) +
    When(f.kind.UnknownType?, p + ".type", "unknown field type " + Quote(J.TypeName(f.kind))) +
    When(Blank(fm.space, f.caption), p + ".label", "is required")
  }

  function DetailProblems(fm: Formats, p: string, f: Field, earlier: bool): (ps: seq<Problem>)
    ensures ps == [] <==>
            (f.validation.Some? ==> ValidationOk(fm, f.kind, f.validation.value)) &&
            (f.showIf.Some? ==> earlier && Operands(f.showIf.value) == 1 && f.showIf.value.oneOf != Some([]))
  {
    hide ValidationProblems, ValidationOk, ConditionProblems, Operands;
    (if f.validation.Some? then ValidationProblems(fm, p + ".validation", f.kind, f.validation.value) else []) +
    if f.showIf.Some? then ConditionProblems(p + ".showIf", f.showIf.value, earlier) else []
  }

  /** What is wrong with a field, given where its key is used before it and whether the field of its condition is
      declared before it. */
  function FieldProblems(fm: Formats, p: string, f: Field, first: Option<nat>, earlier: bool): (ps: seq<Problem>)
    ensures ps == [] <==>
            IsKey(f.key) && first.None? && !f.kind.UnknownType? && !Blank(fm.space, f.caption) &&
            OptionsOk(fm, f.kind.Select? || f.kind.MultiSelect?, f.options) &&
            (f.validation.Some? ==> ValidationOk(fm, f.kind, f.validation.value)) &&
            (f.showIf.Some? ==> earlier && Operands(f.showIf.value) == 1 && f.showIf.value.oneOf != Some([]))
  {
    hide OptionsProblems, OptionsOk, ValidationOk, IsKey, Blank, BasicProblems, DetailProblems, Operands;
    BasicProblems(fm, p, f, first) +
    OptionsProblems(fm, p, f.kind.Select? || f.kind.MultiSelect?, OPTIONS_ON_SELECTS, f.options) +
    DetailProblems(fm, p, f, earlier)
  }

  const OPTIONS_ON_SELECTS := "options are only allowed on select and multiselect fields"

  function DuplicateField(key: string, first: Option<nat>): string {
    if first.None? then "" else "duplicate key " + Quote(key) + " (also used by " + At("fields", first.value) + ")"
  }

  function FieldAt(fm: Formats, fs: seq<Field>): nat -> seq<Problem> {
    (i: nat) =>
      if i >= |fs| then []
      else
        FieldProblems(fm, At("fields", i), fs[i], FirstUse(FieldNames(fs), i, fs[i].key),
                      fs[i].showIf.Some? && FirstUse(FieldNames(fs), i, fs[i].showIf.value.field).Some?)
  }

  function FormProblems(fm: Formats, f: Form): seq<Problem> {
    When(!IsSlug(f.slug), "slug", SLUG_RULE) + When(Blank(fm.space, f.title), "title", "is required") +
    When(f.workflow != "" && !IsSlug(f.workflow), "workflow", "must be a valid workflow slug") +
    When(f.FieldList() == [], "fields", "at least one field is required") +
    Collect(FieldAt(fm, f.FieldList()), |f.FieldList()|)
  }

  lemma FieldDecides(fm: Formats, fs: seq<Field>, i: nat)
    requires i < |fs| && forall j :: 0 <= j < i ==> IsKey(fs[j].key)
    ensures FieldAt(fm, fs)(i) == [] <==> FieldOk(fm, fs, i)
  {
    hide IsKey, Blank, OptionsOk, ValidationOk, FieldProblems, FirstUse;
    assert forall j :: 0 <= j < i ==> FieldNames(fs)[j] == fs[j].key;
  }

  lemma FormDecides(fm: Formats, f: Form)
    ensures FormProblems(fm, f) == [] <==> ValidForm(fm, f)
  {
    hide FieldOk, FieldAt, IsKey, Blank, IsSlug, Collect;
    var fs := f.FieldList();
    if Collect(FieldAt(fm, fs), |fs|) == [] {
      forall i | 0 <= i < |fs| ensures IsKey(fs[i].key) { FieldHasKey(fm, fs, i); }
      forall i | 0 <= i < |fs| ensures FieldOk(fm, fs, i) { FieldDecides(fm, fs, i); }
    }
    if FieldsOk(fm, fs) {
      forall i | 0 <= i < |fs| ensures IsKey(fs[i].key) { FieldHasKey(fm, fs, i); }
      forall i | 0 <= i < |fs| ensures FieldAt(fm, fs)(i) == [] { FieldDecides(fm, fs, i); }
    }
  }

  lemma FieldHasKey(fm: Formats, fs: seq<Field>, i: nat)
    requires i < |fs| && (FieldAt(fm, fs)(i) == [] || FieldOk(fm, fs, i))
    ensures IsKey(fs[i].key)
  {
    hide IsKey, Blank, OptionsOk, ValidationOk, FieldProblems, FirstUse;
  }

  method ValidateField(fm: Formats, p: string, f: Field, first: Option<nat>, earlier: bool) returns (ps: seq<Problem>)
    ensures ps == FieldProblems(fm, p, f, first, earlier)
  {
    hide OptionsProblems, OptionsOk, ValidationOk, IsKey, Blank, BasicProblems, DetailProblems, Operands;
    ps := BasicProblems(fm, p, f, first);
    var ops := ValidateOptions(fm, p, f.kind.Select? || f.kind.MultiSelect?, OPTIONS_ON_SELECTS, f.options);
    ps := ps + ops + DetailProblems(fm, p, f, earlier);
  }

  /** What the loop looks up is what counts: the table before the field and, for its condition, after it. */
  lemma FieldLooksUp(fm: Formats, fs: seq<Field>, i: nat, before: map<string, nat>, seen: map<string, nat>)
    requires i < |fs| && TableOf(FieldNames(fs), i, before)
    requires seen == if IsKey(fs[i].key) && fs[i].key !in before then before[fs[i].key := i] else before
    ensures var f := fs[i];
            var first := if f.key in before then Some(before[f.key]) else None;
            var earlier := f.showIf.Some? && f.showIf.value.field in seen && seen[f.showIf.value.field] < i;
            FieldAt(fm, fs)(i) == FieldProblems(fm, At("fields", i), f, first, earlier)
  {
    hide FieldProblems, IsKey, Blank, FirstUse, At;
    assert FirstUse(FieldNames(fs), i, fs[i].key).Some? <==> fs[i].key in before;
    if fs[i].showIf.Some? {
      var k := fs[i].showIf.value.field;
      assert FirstUse(FieldNames(fs), i, k) == if k in before then Some(before[k]) else None;
    }
  }

  method ValidateFields(fm: Formats, fs: seq<Field>) returns (ps: seq<Problem>)
    ensures ps == Collect(FieldAt(fm, fs), |fs|)
  {
    hide FieldProblems, IsKey, FirstUse, Collect, At, DuplicateField, TableOf, FieldAt;
    ps := [];
    var seen: map<string, nat> := map[];
    NothingSeen(FieldNames(fs));
    for i := 0 to |fs|
      invariant TableOf(FieldNames(fs), i, seen)
      invariant ps == Collect(FieldAt(fm, fs), i)
    {
      var fld := fs[i];
      ghost var before := seen;
      TableGrows(FieldNames(fs), i, seen);
      var first := if fld.key in seen then Some(seen[fld.key]) else None;
      if IsKey(fld.key) && first.None? {
        seen := seen[fld.key := i];
      }
      var earlier := fld.showIf.Some? && fld.showIf.value.field in seen && seen[fld.showIf.value.field] < i;
      var mine := ValidateField(fm, At("fields", i), fld, first, earlier);
      FieldLooksUp(fm, fs, i, before, seen);
      OneMore(FieldAt(fm, fs), i);
      ps := ps + mine;
    }
  }

  /** The problems are those that each field has given the ones before it; there are none exactly for valid forms. */
  method ValidateForm(fm: Formats, f: Form) returns (ps: seq<Problem>)
    ensures ps == FormProblems(fm, f)
    ensures ps == [] <==> ValidForm(fm, f)
  {
    hide IsSlug, Blank, ValidForm, Collect, FieldAt;
    ps := When(!IsSlug(f.slug), "slug", SLUG_RULE) + When(Blank(fm.space, f.title), "title", "is required") +
          When(f.workflow != "" && !IsSlug(f.workflow), "workflow", "must be a valid workflow slug") +
          When(f.FieldList() == [], "fields", "at least one field is required");
    var rest := ValidateFields(fm, f.FieldList());
    ps := ps + rest;
    FormDecides(fm, f);
  }

  // ---- workflows ----------------------------------------------------------------------------------------

  function ActionProblems(fm: Formats, p: string, a: Action): (ps: seq<Problem>)
    ensures ps == [] <==> ActionOk(fm, a)
  {
    var no := "not allowed on " + J.ActionName(a.kind) + " actions";
    match a.kind
    case Webhook =>
      (if a.url == "" then [Problem(p + ".url", "is required")]
       else When(!fm.isHttpUrl(a.url), p + ".url", "must be an absolute http(s) URL")) +
      When(a.to != "", p + ".to", no) + When(a.subject != "", p + ".subject", no) +
      When(a.body != "", p + ".body", no) + When(a.user != "", p + ".user", no) + When(a.role != "", p + ".role", no)
    case SendEmail =>
      When(Blank(fm.space, a.to), p + ".to", "is required") +
      When(Blank(fm.space, a.subject), p + ".subject", "is required") +
      When(a.url != "", p + ".url", no) + When(a.user != "", p + ".user", no) + When(a.role != "", p + ".role", no)
    case Assign =>
      When((a.user == "") == (a.role == ""), p, "exactly one of user or role is required") +
      When(a.user != "" && !fm.isEmail(a.user), p + ".user", "must be an email address") +
      When(a.url != "", p + ".url", no) + When(a.to != "", p + ".to", no) +
      When(a.subject != "", p + ".subject", no) + When(a.body != "", p + ".body", no)
    case UnknownAction(name) => [Problem(p + ".type", "unknown action type " + Quote(name))]
  }

  function ActionAt(fm: Formats, p: string, actions: seq<Action>): nat -> seq<Problem> {
    (j: nat) => if j >= |actions| then [] else ActionProblems(fm, At(p, j), actions[j])
  }

  function ActionsProblems(fm: Formats, p: string, actions: seq<Action>): (ps: seq<Problem>)
    ensures ps == [] <==> AllActionsOk(fm, actions)
  {
    hide ActionProblems, ActionOk;
    assert forall j :: 0 <= j < |actions| ==> (ActionAt(fm, p, actions)(j) == [] <==> ActionOk(fm, actions[j]));
    Collect(ActionAt(fm, p, actions), |actions|)
  }

  method ValidateActions(fm: Formats, p: string, actions: seq<Action>) returns (ps: seq<Problem>)
    ensures ps == ActionsProblems(fm, p, actions)
  {
    hide ActionProblems, ActionOk;
    ps := [];
    for j := 0 to |actions|
      invariant ps == Collect(ActionAt(fm, p, actions), j)
    {
      ps := ps + ActionProblems(fm, At(p, j), actions[j]);
    }
  }

  function StateProblems(fm: Formats, p: string, s: State, used: bool): (ps: seq<Problem>)
    ensures ps == [] <==>
            IsKey(s.key) && !used && !Blank(fm.space, s.caption) && (s.color != "" ==> s.color in STATE_COLORS)
  {
    KeyProblems(p, s.key, used, "duplicate state key " + Quote(s.key)) +
    When(Blank(fm.space, s.caption), p + ".label", "is required") +
    When(s.color != "" && s.color !in STATE_COLORS, p + ".color",
         "must be one of gray, blue, green, yellow, red, purple")
  }

  function StateAt(fm: Formats, ss: seq<State>): nat -> seq<Problem> {
    (i: nat) =>
      if i >= |ss| then []
      else StateProblems(fm, At("states", i), ss[i], FirstUse(StateNames(ss), i, ss[i].key).Some?)
  }

  /** The state that a name stands for. */
  function StateOf(ss: seq<State>, n: nat, k: string): (s: Option<State>)
    requires n <= |ss|
    ensures s.Some? ==> s.value in ss && s.value.key == k
  {
    match FirstUse(StateNames(ss), n, k)
    case None => None
    case Some(j) => Some(ss[j])
  }

  ghost predicate StatesIn(ss: seq<State>, n: nat, states: map<string, State>)
    requires n <= |ss|
  {
    (forall k :: k in states <==> StateOf(ss, n, k).Some?) &&
    forall k :: k in states ==> StateOf(ss, n, k) == Some(states[k])
  }

  lemma StatesGrow(ss: seq<State>, n: nat, states: map<string, State>)
    requires n < |ss| && StatesIn(ss, n, states)
    ensures var s := ss[n];
            StatesIn(ss, n + 1, if IsKey(s.key) && s.key !in states then states[s.key := s] else states)
  {
    hide IsKey;
    forall k ensures FirstUse(StateNames(ss), n + 1, k).Some? <==>
      FirstUse(StateNames(ss), n, k).Some? || (IsKey(k) && ss[n].key == k)
    {
    }
  }

  lemma StateIsNew(ss: seq<State>, n: nat, states: map<string, State>)
    requires n < |ss| && StatesIn(ss, n, states)
    ensures FirstUse(StateNames(ss), n, ss[n].key).Some? <==> ss[n].key in states
  {
    hide FirstUse;
    assert StateOf(ss, n, ss[n].key).Some? <==> ss[n].key in states;
  }

  lemma StateDecides(fm: Formats, ss: seq<State>, i: nat)
    requires i < |ss|
    ensures StateAt(fm, ss)(i) == [] <==> StateOk(fm, ss, i)
  {
    hide IsKey, Blank, StateProblems, FirstUse;
    assert forall j :: 0 <= j < i ==> StateNames(ss)[j] == ss[j].key;
  }

  method ValidateStates(fm: Formats, ss: seq<State>) returns (ps: seq<Problem>, states: map<string, State>)
    ensures ps == Collect(StateAt(fm, ss), |ss|) && StatesIn(ss, |ss|, states)
  {
    hide IsKey, Blank, StateProblems, StatesIn, Collect, FirstUse, At;
    ps, states := [], map[];
    NoStatesIn(ss);
    for i := 0 to |ss|
      invariant StatesIn(ss, i, states)
      invariant ps == Collect(StateAt(fm, ss), i)
    {
      var s := ss[i];
      var isDuplicate := s.key in states;
      StateIsNew(ss, i, states);
      StatesGrow(ss, i, states);
      OneMore(StateAt(fm, ss), i);
      ps := ps + StateProblems(fm, At("states", i), s, isDuplicate);
      if IsKey(s.key) && !isDuplicate {
        states := states[s.key := s];
      }
    }
  }

  lemma NoStatesIn(ss: seq<State>)
    ensures StatesIn(ss, 0, map[])
  {
  }

  const FIELD_TYPE_RULE := "is not allowed for workflow fields (use text, textarea, number, select, checkbox or date)"

  function ColumnProblems(fm: Formats, p: string, f: WorkflowField, used: bool): (ps: seq<Problem>)
    ensures ps == [] <==>
            IsKey(f.key) && !used && WorkflowFieldType(f.kind) && !Blank(fm.space, f.caption) &&
            OptionsOk(fm, f.kind.Select?, f.options)
  {
    hide OptionsProblems, OptionsOk, IsKey, Blank, KeyProblems;
    KeyProblems(p, f.key, used, "duplicate workflow field key " + Quote(f.key)) +
    When(!WorkflowFieldType(f.kind), p + ".type", "type " + Quote(J.TypeName(f.kind)) + " " + FIELD_TYPE_RULE) +
    When(Blank(fm.space, f.caption), p + ".label", "is required") +
    OptionsProblems(fm, p, f.kind.Select?, "options are only allowed on select fields", f.options)
  }

  function ColumnAt(fm: Formats, fs: seq<WorkflowField>): nat -> seq<Problem> {
    (i: nat) =>
      if i >= |fs| then []
      else ColumnProblems(fm, At("fields", i), fs[i], FirstUse(ColumnNames(fs), i, fs[i].key).Some?)
  }

  lemma ColumnDecides(fm: Formats, fs: seq<WorkflowField>, i: nat)
    requires i < |fs|
    ensures ColumnAt(fm, fs)(i) == [] <==> WorkflowFieldOk(fm, fs, i)
  {
    hide IsKey, Blank, ColumnProblems, FirstUse, OptionsOk;
    assert forall j :: 0 <= j < i ==> ColumnNames(fs)[j] == fs[j].key;
  }

  method ValidateColumn(fm: Formats, p: string, f: WorkflowField, used: bool) returns (ps: seq<Problem>)
    ensures ps == ColumnProblems(fm, p, f, used)
  {
    hide OptionsProblems, OptionsOk, IsKey, Blank, KeyProblems;
    ps := KeyProblems(p, f.key, used, "duplicate workflow field key " + Quote(f.key)) +
          When(!WorkflowFieldType(f.kind), p + ".type", "type " + Quote(J.TypeName(f.kind)) + " " + FIELD_TYPE_RULE) +
          When(Blank(fm.space, f.caption), p + ".label", "is required");
    var ops := ValidateOptions(fm, p, f.kind.Select?, "options are only allowed on select fields", f.options);
    ps := ps + ops;
  }

  lemma ColumnLooksUp(fm: Formats, fs: seq<WorkflowField>, i: nat, keys: set<string>)
    requires i < |fs| && SeenIn(ColumnNames(fs), i, keys)
    ensures ColumnAt(fm, fs)(i) == ColumnProblems(fm, At("fields", i), fs[i], fs[i].key in keys)
  {
    hide ColumnProblems, At, FirstUse;
  }

  method ValidateColumns(fm: Formats, fs: seq<WorkflowField>) returns (ps: seq<Problem>, keys: set<string>)
    ensures ps == Collect(ColumnAt(fm, fs), |fs|) && SeenIn(ColumnNames(fs), |fs|, keys)
  {
    hide IsKey, ColumnProblems, SeenIn, Collect, At, FirstUse, ColumnAt;
    ps, keys := [], {};
    NothingSeen(ColumnNames(fs));
    for i := 0 to |fs|
      invariant SeenIn(ColumnNames(fs), i, keys)
      invariant ps == Collect(ColumnAt(fm, fs), i)
    {
      var isDuplicate := fs[i].key in keys;
      var mine := ValidateColumn(fm, At("fields", i), fs[i], isDuplicate);
      ColumnLooksUp(fm, fs, i, keys);
      SeesOneMore(ColumnNames(fs), i, keys);
      OneMore(ColumnAt(fm, fs), i);
      ps := ps + mine;
      if IsKey(fs[i].key) && !isDuplicate {
        keys := keys + {fs[i].key};
      }
    }
  }

  function SourceProblems(p: string, key: string, s: Option<State>): (ps: seq<Problem>)
    ensures ps == [] <==> s.Some? && !s.value.terminal
  {
    if s.None? then [Problem(p, "unknown state " + Quote(key))]
    else When(s.value.terminal, p, "cannot transition out of terminal state " + Quote(key))
  }

  function SourceAt(p: string, sources: seq<string>, ss: seq<State>): nat -> seq<Problem> {
    (j: nat) =>
      if j >= |sources| then [] else SourceProblems(At(p, j), sources[j], StateOf(ss, |ss|, sources[j]))
  }

  function RoleAt(fm: Formats, p: string, roles: seq<string>): nat -> seq<Problem> {
    (j: nat) => if j >= |roles| then [] else When(Blank(fm.space, roles[j]), At(p, j), "must not be empty")
  }

  function RequiredAt(p: string, required: seq<string>, fs: seq<WorkflowField>): nat -> seq<Problem> {
    (j: nat) =>
      if j >= |required| then []
      else When(FirstUse(ColumnNames(fs), |fs|, required[j]).None?, At(p, j),
                "unknown workflow field " + Quote(required[j]))
  }

  function TransitionProblems(fm: Formats, p: string, w: Workflow, t: Transition, used: bool): seq<Problem> {
    KeyProblems(p, t.key, used, "duplicate transition key " + Quote(t.key)) +
    When(Blank(fm.space, t.caption), p + ".label", "is required") +
    When(t.Sources() == [], p + ".from", "at least one source state is required") +
    Collect(SourceAt(p + ".from", t.Sources(), w.StateList()), |t.Sources()|) +
    When(StateOf(w.StateList(), |w.StateList()|, t.to).None?, p + ".to", "unknown state " + Quote(t.to)) +
    Collect(RoleAt(fm, p + ".guard.roles", t.guard.roles), |t.guard.roles|) +
    Collect(RequiredAt(p + ".guard.requireFields", t.guard.requireFields, w.fields), |t.guard.requireFields|) +
    ActionsProblems(fm, p + ".actions", t.actions)
  }

  function TransitionAt(fm: Formats, w: Workflow): nat -> seq<Problem> {
    (i: nat) =>
      var ts := w.TransitionList();
      if i >= |ts| then []
      else TransitionProblems(fm, At("transitions", i), w, ts[i], FirstUse(TransitionNames(ts), i, ts[i].key).Some?)
  }

  function WorkflowProblems(fm: Formats, w: Workflow): seq<Problem> {
    When(!IsSlug(w.slug), "slug", SLUG_RULE) + When(Blank(fm.space, w.title), "title", "is required") +
    When(w.StateList() == [], "states", "at least one state is required") +
    Collect(StateAt(fm, w.StateList()), |w.StateList()|) +
    When(StateOf(w.StateList(), |w.StateList()|, w.initial).None?, "initial", "unknown state " + Quote(w.initial)) +
    Collect(ColumnAt(fm, w.fields), |w.fields|) + ActionsProblems(fm, "onSubmit", w.onSubmit) +
    Collect(TransitionAt(fm, w), |w.TransitionList()|)
  }

  /** With well-formed keys the tables hold what is declared. */
  ghost predicate KeysFormed(w: Workflow) {
    (forall i :: 0 <= i < |w.StateList()| ==> IsKey(w.StateList()[i].key)) &&
    (forall i, j :: 0 <= i < j < |w.StateList()| ==> w.StateList()[i].key != w.StateList()[j].key) &&
    forall i :: 0 <= i < |w.fields| ==> IsKey(w.fields[i].key)
  }

  lemma DeclaredState(w: Workflow, k: string)
    requires KeysFormed(w)
    ensures var s := StateOf(w.StateList(), |w.StateList()|, k);
            (s.Some? <==> k in StateKeys(w.StateList())) &&
            (s.Some? && !s.value.terminal <==> k in OpenStateKeys(w.StateList()))
  {
    hide IsKey, FirstUse;
    var ss := w.StateList();
    assert forall j :: 0 <= j < |ss| ==> StateNames(ss)[j] == ss[j].key;
  }

  lemma DeclaredField(w: Workflow, k: string)
    requires KeysFormed(w)
    ensures FirstUse(ColumnNames(w.fields), |w.fields|, k).Some? <==> k in FieldKeys(w.fields)
  {
    hide IsKey, FirstUse;
    assert forall j :: 0 <= j < |w.fields| ==> ColumnNames(w.fields)[j] == w.fields[j].key;
  }

  lemma TransitionDecides(fm: Formats, w: Workflow, i: nat)
    requires i < |w.TransitionList()| && KeysFormed(w)
    ensures TransitionAt(fm, w)(i) == [] <==> TransitionOk(fm, w, i)
  {
    hide IsKey, Blank, FirstUse, KeysFormed, StateOf, AllActionsOk, ActionsProblems, OpenStateKeys, StateKeys,
         FieldKeys, Collect;
    var ts := w.TransitionList();
    var t, p := ts[i], At("transitions", i);
    assert forall j :: 0 <= j < i ==> TransitionNames(ts)[j] == ts[j].key;
    SourcesDecide(p + ".from", w, t.Sources());
    DeclaredState(w, t.to);
    GuardDecides(fm, p, w, t.guard);
  }

  lemma SourcesDecide(p: string, w: Workflow, sources: seq<string>)
    requires KeysFormed(w)
    ensures Collect(SourceAt(p, sources, w.StateList()), |sources|) == [] <==>
            forall j :: 0 <= j < |sources| ==> sources[j] in OpenStateKeys(w.StateList())
  {
    hide KeysFormed, StateOf, OpenStateKeys, Collect;
    var of := SourceAt(p, sources, w.StateList());
    forall j | 0 <= j < |sources| ensures of(j) == [] <==> sources[j] in OpenStateKeys(w.StateList()) {
      DeclaredState(w, sources[j]);
    }
  }

  lemma GuardDecides(fm: Formats, p: string, w: Workflow, g: Guard)
    requires KeysFormed(w)
    ensures Collect(RoleAt(fm, p + ".guard.roles", g.roles), |g.roles|) == [] &&
            Collect(RequiredAt(p + ".guard.requireFields", g.requireFields, w.fields), |g.requireFields|) == [] <==>
            GuardOk(fm, FieldKeys(w.fields), g)
  {
    hide KeysFormed, FirstUse, FieldKeys, Collect, Blank;
    var roles := RoleAt(fm, p + ".guard.roles", g.roles);
    var required := RequiredAt(p + ".guard.requireFields", g.requireFields, w.fields);
    assert forall j :: 0 <= j < |g.roles| ==> (roles(j) == [] <==> !Blank(fm.space, g.roles[j]));
    forall j | 0 <= j < |g.requireFields|
      ensures required(j) == [] <==> g.requireFields[j] in FieldKeys(w.fields)
    {
      DeclaredField(w, g.requireFields[j]);
    }
  }

  lemma WorkflowDecides(fm: Formats, w: Workflow)
    ensures WorkflowProblems(fm, w) == [] <==> ValidWorkflow(fm, w)
  {
    hide StateOk, StateAt, WorkflowFieldOk, ColumnAt, TransitionOk, TransitionAt, IsKey, IsSlug, Blank, Collect,
         StateOf, AllActionsOk, ActionsProblems, KeysFormed, StateKeys;
    var ss := w.StateList();
    forall i | 0 <= i < |ss| ensures StateAt(fm, ss)(i) == [] <==> StateOk(fm, ss, i) { StateDecides(fm, ss, i); }
    forall i | 0 <= i < |w.fields| ensures ColumnAt(fm, w.fields)(i) == [] <==> WorkflowFieldOk(fm, w.fields, i) {
      ColumnDecides(fm, w.fields, i);
    }
    if (forall i :: 0 <= i < |ss| ==> StateOk(fm, ss, i)) &&
       forall i :: 0 <= i < |w.fields| ==> WorkflowFieldOk(fm, w.fields, i) {
      AreFormed(fm, w);
      DeclaredState(w, w.initial);
      forall i | 0 <= i < |w.TransitionList()| ensures TransitionAt(fm, w)(i) == [] <==> TransitionOk(fm, w, i) {
        TransitionDecides(fm, w, i);
      }
    }
  }

  lemma AreFormed(fm: Formats, w: Workflow)
    requires forall i :: 0 <= i < |w.StateList()| ==> StateOk(fm, w.StateList(), i)
    requires forall i :: 0 <= i < |w.fields| ==> WorkflowFieldOk(fm, w.fields, i)
    ensures KeysFormed(w)
  {
    hide IsKey, Blank, OptionsOk;
    var ss := w.StateList();
    forall i | 0 <= i < |ss| ensures IsKey(ss[i].key) { assert StateOk(fm, ss, i); }
    forall i, j | 0 <= i < j < |ss| ensures ss[i].key != ss[j].key { assert StateOk(fm, ss, j); }
    forall i | 0 <= i < |w.fields| ensures IsKey(w.fields[i].key) { assert WorkflowFieldOk(fm, w.fields, i); }
  }

  method ValidateSources(p: string, sources: seq<string>, ss: seq<State>, states: map<string, State>)
    returns (ps: seq<Problem>)
    requires StatesIn(ss, |ss|, states)
    ensures ps == Collect(SourceAt(p, sources, ss), |sources|)
  {
    hide StateOf, Collect, At, SourceProblems;
    ps := [];
    for j := 0 to |sources|
      invariant ps == Collect(SourceAt(p, sources, ss), j)
    {
      OneMore(SourceAt(p, sources, ss), j);
      var s := if sources[j] in states then Some(states[sources[j]]) else None;
      ps := ps + SourceProblems(At(p, j), sources[j], s);
    }
  }

  method ValidateRoles(fm: Formats, p: string, roles: seq<string>) returns (ps: seq<Problem>)
    ensures ps == Collect(RoleAt(fm, p, roles), |roles|)
  {
    hide Blank, Collect, At;
    ps := [];
    for j := 0 to |roles|
      invariant ps == Collect(RoleAt(fm, p, roles), j)
    {
      OneMore(RoleAt(fm, p, roles), j);
      ps := ps + When(Blank(fm.space, roles[j]), At(p, j), "must not be empty");
    }
  }

  method ValidateRequired(p: string, required: seq<string>, fs: seq<WorkflowField>, fields: set<string>)
    returns (ps: seq<Problem>)
    requires SeenIn(ColumnNames(fs), |fs|, fields)
    ensures ps == Collect(RequiredAt(p, required, fs), |required|)
  {
    hide FirstUse, Collect, At;
    ps := [];
    for j := 0 to |required|
      invariant ps == Collect(RequiredAt(p, required, fs), j)
    {
      OneMore(RequiredAt(p, required, fs), j);
      ps := ps + When(required[j] !in fields, At(p, j), "unknown workflow field " + Quote(required[j]));
    }
  }

  method ValidateTransition(fm: Formats, w: Workflow, p: string, t: Transition, used: bool,
        states: map<string, State>, fields: set<string>)
    returns (ps: seq<Problem>)
    requires StatesIn(w.StateList(), |w.StateList()|, states) && SeenIn(ColumnNames(w.fields), |w.fields|, fields)
    ensures ps == TransitionProblems(fm, p, w, t, used)
  {
    hide Blank, FirstUse, StateOf, Collect, KeyProblems, ActionsProblems, SourceAt, RoleAt, RequiredAt;
    ps := KeyProblems(p, t.key, used, "duplicate transition key " + Quote(t.key)) +
          When(Blank(fm.space, t.caption), p + ".label", "is required") +
          When(t.Sources() == [], p + ".from", "at least one source state is required");
    var srcs := ValidateSources(p + ".from", t.Sources(), w.StateList(), states);
    ps := ps + srcs + When(t.to !in states, p + ".to", "unknown state " + Quote(t.to));
    var rps := ValidateRoles(fm, p + ".guard.roles", t.guard.roles);
    var qps := ValidateRequired(p + ".guard.requireFields", t.guard.requireFields, w.fields, fields);
    var aps := ValidateActions(fm, p + ".actions", t.actions);
    ps := ps + rps + qps + aps;
  }

  lemma TransitionLooksUp(fm: Formats, w: Workflow, i: nat, seen: set<string>)
    requires i < |w.TransitionList()| && SeenIn(TransitionNames(w.TransitionList()), i, seen)
    ensures var t := w.TransitionList()[i];
            TransitionAt(fm, w)(i) == TransitionProblems(fm, At("transitions", i), w, t, t.key in seen)
  {
    hide TransitionProblems, At, FirstUse;
  }

  method ValidateTransitions(fm: Formats, w: Workflow, states: map<string, State>, fields: set<string>)
    returns (ps: seq<Problem>)
    requires StatesIn(w.StateList(), |w.StateList()|, states) && SeenIn(ColumnNames(w.fields), |w.fields|, fields)
    ensures ps == Collect(TransitionAt(fm, w), |w.TransitionList()|)
  {
    hide IsKey, TransitionProblems, StatesIn, SeenIn, Collect, At, FirstUse;
    var ts := w.TransitionList();
    ps := [];
    var seen: set<string> := {};
    NothingSeen(TransitionNames(ts));
    for i := 0 to |ts|
      invariant SeenIn(TransitionNames(ts), i, seen)
      invariant ps == Collect(TransitionAt(fm, w), i)
    {
      var isDuplicate := ts[i].key in seen;
      var mine := ValidateTransition(fm, w, At("transitions", i), ts[i], isDuplicate, states, fields);
      TransitionLooksUp(fm, w, i, seen);
      SeesOneMore(TransitionNames(ts), i, seen);
      OneMore(TransitionAt(fm, w), i);
      if IsKey(ts[i].key) && !isDuplicate {
        seen := seen + {ts[i].key};
      }
      ps := ps + mine;
    }
  }

  /** The problems are those that each part has given the parts before it; there are none exactly for valid
      workflows. */
  method ValidateWorkflow(fm: Formats, w: Workflow) returns (ps: seq<Problem>)
    ensures ps == WorkflowProblems(fm, w)
    ensures ps == [] <==> ValidWorkflow(fm, w)
  {
    hide IsSlug, Blank, ValidWorkflow, Collect, StateOf, ActionsProblems, StateAt, ColumnAt, TransitionAt;
    ps := When(!IsSlug(w.slug), "slug", SLUG_RULE) + When(Blank(fm.space, w.title), "title", "is required") +
          When(w.StateList() == [], "states", "at least one state is required");
    var sps, states := ValidateStates(fm, w.StateList());
    ps := ps + sps + When(w.initial !in states, "initial", "unknown state " + Quote(w.initial));
    var fps, fields := ValidateColumns(fm, w.fields);
    var aps := ValidateActions(fm, "onSubmit", w.onSubmit);
    var tps := ValidateTransitions(fm, w, states, fields);
    ps := ps + fps + aps + tps;
    WorkflowDecides(fm, w);
  }
}
