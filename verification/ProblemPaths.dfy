/** Which problems the validators report, where, and in which words. */
module ProblemPaths {
  import opened Common
  import opened DefinitionRules
  import opened Definitions
  import opened JsonValues
  import opened Problems
  import opened Text
  import opened Validators
  import J = DefinitionJson

  lemma {:induction false} InCollect(of: nat -> seq<Problem>, n: nat, p: Problem)
    ensures p in Collect(of, n) <==> exists i :: 0 <= i < n && p in of(i)
  {
    if n > 0 { InCollect(of, n - 1, p); }
  }

  /** A name is used before place i for the first time at place j. */
  ghost predicate FirstAt(names: seq<string>, i: nat, k: string, j: nat)
    requires i <= |names|
  {
    j < i && names[j] == k && forall l :: 0 <= l < j ==> names[l] != k
  }

  ghost predicate Used(names: seq<string>, i: nat, k: string)
    requires i <= |names|
  {
    IsKey(k) && exists j :: 0 <= j < i && names[j] == k
  }

  lemma UsedIs(names: seq<string>, i: nat, k: string)
    requires i <= |names|
    ensures FirstUse(names, i, k).Some? <==> Used(names, i, k)
    ensures FirstUse(names, i, k).Some? ==> FirstAt(names, i, k, FirstUse(names, i, k).value)
  {
  }

  /** A place in a list: the list's name and the index in brackets. */
  function Place(list: string, i: nat): string {
    list + "[" + Decimal(i) + "]"
  }

  // ---- options ------------------------------------------------------------------------------------------

  ghost predicate OptionProblem(fm: Formats, at: string, opts: seq<Choice>, j: nat, p: Problem)
    requires j < |opts|
  {
    var o, used := opts[j], exists i :: 0 <= i < j && opts[i].value == opts[j].value;
    (o.value == "" && p == Problem(at + ".value", "is required")) ||
    (o.value != "" && Trim(fm.space, o.value) != o.value &&
     p == Problem(at + ".value", "must not start or end with whitespace")) ||
    (o.value != "" && Trim(fm.space, o.value) == o.value && used &&
     p == Problem(at + ".value", "duplicate option value \"" + o.value + "\"")) ||
    (Trim(fm.space, o.caption) == "" && p == Problem(at + ".label", "is required"))
  }

  ghost predicate OptionsProblem(fm: Formats, at: string, allowed: bool, notAllowed: string, opts: seq<Choice>,
        p: Problem) {
    if !allowed then opts != [] && p == Problem(at + ".options", notAllowed)
    else
      (opts == [] && p == Problem(at + ".options", "at least one option is required")) ||
      exists j :: 0 <= j < |opts| && OptionProblem(fm, Place(at + ".options", j), opts, j, p)
  }

  /** Exactly these problems are reported of a list of options. */
  lemma OptionsReported(fm: Formats, at: string, allowed: bool, notAllowed: string, opts: seq<Choice>, p: Problem)
    ensures p in OptionsProblems(fm, at, allowed, notAllowed, opts) <==>
            OptionsProblem(fm, at, allowed, notAllowed, opts, p)
  {
    hide Trim, OptionProblem, Decimal;
    InCollect(OptionAt(fm, at, opts), |opts|, p);
    forall j | 0 <= j < |opts|
      ensures p in OptionAt(fm, at, opts)(j) <==> OptionProblem(fm, Place(at + ".options", j), opts, j, p)
    {
      OptionReported(fm, at, opts, j, p);
    }
  }

  lemma OptionReported(fm: Formats, at: string, opts: seq<Choice>, j: nat, p: Problem)
    requires j < |opts|
    ensures p in OptionAt(fm, at, opts)(j) <==> OptionProblem(fm, Place(at + ".options", j), opts, j, p)
  {
    hide Trim, Decimal;
    assert "duplicate option value " + Quote(opts[j].value) == "duplicate option value \"" + opts[j].value + "\"";
  }

  // ---- forms --------------------------------------------------------------------------------------------

  ghost predicate KeyProblem(at: string, key: string, used: bool, message: string, p: Problem) {
    (!IsKey(key) && p == Problem(at + ".key", "must match ^[a-zA-Z][a-zA-Z0-9_]{0,63}$")) ||
    (used && p == Problem(at + ".key", message))
  }

  lemma KeyReported(at: string, key: string, used: bool, message: string, p: Problem)
    requires used ==> IsKey(key)
    ensures p in KeyProblems(at, key, used, message) <==> KeyProblem(at, key, used, message, p)
  {
    hide IsKey;
  }

  ghost predicate LimitProblem(fm: Formats, at: string, t: FieldType, v: Validation, p: Problem) {
    var text := t.Text? || t.TextArea? || t.Email? || t.Url?;
    var only := "is only allowed on text, textarea, email and url fields";
    (!text && v.minLength.Some? && p == Problem(at + ".minLength", "minLength " + only)) ||
    (!text && v.maxLength.Some? && p == Problem(at + ".maxLength", "maxLength " + only)) ||
    (!text && v.pattern != "" && p == Problem(at + ".pattern", "pattern " + only)) ||
    (!t.Number? && v.min.Some? && p == Problem(at + ".min", "min is only allowed on number fields")) ||
    (!t.Number? && v.max.Some? && p == Problem(at + ".max", "max is only allowed on number fields")) ||
    (v.minLength.Some? && v.minLength.value < 0 && p == Problem(at + ".minLength", "must be 0 or greater")) ||
    (v.maxLength.Some? && v.maxLength.value < 0 && p == Problem(at + ".maxLength", "must be 0 or greater")) ||
    (v.minLength.Some? && v.maxLength.Some? && v.minLength.value > v.maxLength.value &&
     p == Problem(at + ".maxLength", "must be greater than or equal to minLength")) ||
    (v.min.Some? && v.max.Some? && v.min.value > v.max.value &&
     p == Problem(at + ".max", "must be greater than or equal to min")) ||
    (v.pattern != "" && fm.compileError(v.pattern).Some? &&
     p == Problem(at + ".pattern", "is not a valid regular expression: " + fm.compileError(v.pattern).value))
  }

  lemma LimitsReported(fm: Formats, at: string, t: FieldType, v: Validation, p: Problem)
    ensures p in ValidationProblems(fm, at, t, v) <==> LimitProblem(fm, at, t, v, p)
  {
  }

  ghost predicate ConditionProblem(at: string, c: Condition, earlier: bool, p: Problem) {
    (!earlier &&
     p == Problem(at + ".field", "must reference a field declared before this one (got \"" + c.field + "\")")) ||
    (Operands(c) != 1 && p == Problem(at, "exactly one of equals, notEquals or in is required")) ||
    (Operands(c) == 1 && c.oneOf == Some([]) && p == Problem(at + ".in", "must not be empty"))
  }

  lemma ConditionReported(at: string, c: Condition, earlier: bool, p: Problem)
    ensures p in ConditionProblems(at, c, earlier) <==> ConditionProblem(at, c, earlier, p)
  {
    hide Operands;
    assert "must reference a field declared before this one (got " + Quote(c.field) + ")" ==
           "must reference a field declared before this one (got \"" + c.field + "\")";
  }

  ghost predicate FieldProblem(fm: Formats, fs: seq<Field>, i: nat, p: Problem)
    requires i < |fs|
  {
    var f, at, names := fs[i], Place("fields", i), FieldNames(fs);
    (!IsKey(f.key) && p == Problem(at + ".key", "must match ^[a-zA-Z][a-zA-Z0-9_]{0,63}$")) ||
    (IsKey(f.key) &&
     exists j :: FirstAt(names, i, f.key, j) &&
       p == Problem(at + ".key", "duplicate key \"" + f.key + "\" (also used by " + Place("fields", j) + ")")) ||
    (f.kind.UnknownType? && p == Problem(at + ".type", "unknown field type \"" + f.kind.name + "\"")) ||
    (Trim(fm.space, f.caption) == "" && p == Problem(at + ".label", "is required")) ||
    OptionsProblem(fm, at, f.kind.Select? || f.kind.MultiSelect?,
                   "options are only allowed on select and multiselect fields", f.options, p) ||
    (f.validation.Some? && LimitProblem(fm, at + ".validation", f.kind, f.validation.value, p)) ||
    (f.showIf.Some? && ConditionProblem(at + ".showIf", f.showIf.value, Used(names, i, f.showIf.value.field), p))
  }

  lemma FieldReported(fm: Formats, fs: seq<Field>, i: nat, p: Problem)
    requires i < |fs|
    ensures p in FieldAt(fm, fs)(i) <==> FieldProblem(fm, fs, i, p)
  {
    hide Trim, Decimal, OptionsProblems, OptionsProblem, ValidationProblems, LimitProblem, ConditionProblems,
         ConditionProblem, IsKey, FirstUse, Used, FirstAt, KeyProblems, J.TypeName;
    var f, at, names := fs[i], Place("fields", i), FieldNames(fs);
    assert at == At("fields", i);
    UsedIs(names, i, f.key);
    OptionsReported(fm, at, f.kind.Select? || f.kind.MultiSelect?, OPTIONS_ON_SELECTS, f.options, p);
    if f.validation.Some? { LimitsReported(fm, at + ".validation", f.kind, f.validation.value, p); }
    if f.showIf.Some? {
      UsedIs(names, i, f.showIf.value.field);
      ConditionReported(at + ".showIf", f.showIf.value, Used(names, i, f.showIf.value.field), p);
    }
    BasicsReported(fm, fs, i, p);
  }

  lemma BasicsReported(fm: Formats, fs: seq<Field>, i: nat, p: Problem)
    requires i < |fs|
    ensures var f, at, names := fs[i], Place("fields", i), FieldNames(fs);
            p in BasicProblems(fm, at, f, FirstUse(names, i, f.key)) <==>
            (!IsKey(f.key) && p == Problem(at + ".key", "must match ^[a-zA-Z][a-zA-Z0-9_]{0,63}$")) ||
            (IsKey(f.key) &&
             exists j :: FirstAt(names, i, f.key, j) &&
               p == Problem(at + ".key",
                            "duplicate key \"" + f.key + "\" (also used by " + Place("fields", j) + ")")) ||
            (f.kind.UnknownType? &&
             p == Problem(at + ".type", "unknown field type \"" + f.kind.name + "\"")) ||
            (Trim(fm.space, f.caption) == "" && p == Problem(at + ".label", "is required"))
  {
    hide Trim, Decimal, IsKey, FirstUse, Used, FirstAt, Place, Quote, DuplicateField, J.TypeName, KeyProblems;
    var f, at, names := fs[i], Place("fields", i), FieldNames(fs);
    FirstUseReported(names, at, i, f.key, p);
    if f.kind.UnknownType? { UnknownReads(f.kind); }
  }

  lemma UnknownReads(kind: FieldType)
    requires kind.UnknownType?
    ensures "unknown field type " + Quote(J.TypeName(kind)) == "unknown field type \"" + kind.name + "\""
  {
    assert "unknown field type " + "\"" == "unknown field type \"";
  }

  lemma FirstUseReported(names: seq<string>, at: string, i: nat, key: string, p: Problem)
    requires i <= |names|
    ensures var first := FirstUse(names, i, key);
            p in KeyProblems(at, key, first.Some?, DuplicateField(key, first)) <==>
            (!IsKey(key) && p == Problem(at + ".key", "must match ^[a-zA-Z][a-zA-Z0-9_]{0,63}$")) ||
            (IsKey(key) &&
             exists j :: FirstAt(names, i, key, j) &&
               p == Problem(at + ".key",
                            "duplicate key \"" + key + "\" (also used by " + Place("fields", j) + ")"))
  {
    hide IsKey, FirstUse, Place, Quote, DuplicateField, Used;
    var first := FirstUse(names, i, key);
    UsedIs(names, i, key);
    if first.Some? { DuplicateReads(key, first.value); }
    forall j, l | FirstAt(names, i, key, j) && FirstAt(names, i, key, l) ensures j == l {}
    if j :| FirstAt(names, i, key, j) && IsKey(key) { UsedHere(names, i, key, j); }
  }

  lemma UsedHere(names: seq<string>, i: nat, k: string, j: nat)
    requires i <= |names| && FirstAt(names, i, k, j) && IsKey(k)
    ensures Used(names, i, k)
  {
  }

  lemma DuplicateReads(key: string, j: nat)
    ensures DuplicateField(key, Some(j)) ==
            "duplicate key \"" + key + "\" (also used by " + Place("fields", j) + ")"
  {
    hide Decimal;
    assert "duplicate key " + Quote(key) + " (also used by " == "duplicate key \"" + key + "\" (also used by ";
  }

  /** The validator of forms reports exactly these problems. */
  lemma FormReported(fm: Formats, f: Form, p: Problem)
    ensures p in FormProblems(fm, f) <==>
            (!IsSlug(f.slug) && p == Problem("slug", "must match ^[a-z0-9][a-z0-9-]{0,62}$")) ||
            (Trim(fm.space, f.title) == "" && p == Problem("title", "is required")) ||
            (f.workflow != "" && !IsSlug(f.workflow) && p == Problem("workflow", "must be a valid workflow slug")) ||
            (f.FieldList() == [] && p == Problem("fields", "at least one field is required")) ||
            exists i :: 0 <= i < |f.FieldList()| && FieldProblem(fm, f.FieldList(), i, p)
  {
    hide IsSlug, Trim, FieldAt, FieldProblem, Collect;
    var fs := f.FieldList();
    InCollect(FieldAt(fm, fs), |fs|, p);
    forall i | 0 <= i < |fs| ensures p in FieldAt(fm, fs)(i) <==> FieldProblem(fm, fs, i, p) {
      FieldReported(fm, fs, i, p);
    }
  }

  // ---- workflows ----------------------------------------------------------------------------------------

  ghost predicate ActionProblem(fm: Formats, at: string, a: Action, p: Problem) {
    match a.kind
    case Webhook =>
      (a.url == "" && p == Problem(at + ".url", "is required")) ||
      (a.url != "" && !fm.isHttpUrl(a.url) && p == Problem(at + ".url", "must be an absolute http(s) URL")) ||
      (a.to != "" && p == Problem(at + ".to", "not allowed on webhook actions")) ||
      (a.subject != "" && p == Problem(at + ".subject", "not allowed on webhook actions")) ||
      (a.body != "" && p == Problem(at + ".body", "not allowed on webhook actions")) ||
      (a.user != "" && p == Problem(at + ".user", "not allowed on webhook actions")) ||
      (a.role != "" && p == Problem(at + ".role", "not allowed on webhook actions"))
    case SendEmail =>
      (Trim(fm.space, a.to) == "" && p == Problem(at + ".to", "is required")) ||
      (Trim(fm.space, a.subject) == "" && p == Problem(at + ".subject", "is required")) ||
      (a.url != "" && p == Problem(at + ".url", "not allowed on email actions")) ||
      (a.user != "" && p == Problem(at + ".user", "not allowed on email actions")) ||
      (a.role != "" && p == Problem(at + ".role", "not allowed on email actions"))
    case Assign =>
      ((a.user == "" <==> a.role == "") && p == Problem(at, "exactly one of user or role is required")) ||
      (a.user != "" && !fm.isEmail(a.user) && p == Problem(at + ".user", "must be an email address")) ||
      (a.url != "" && p == Problem(at + ".url", "not allowed on assign actions")) ||
      (a.to != "" && p == Problem(at + ".to", "not allowed on assign actions")) ||
      (a.subject != "" && p == Problem(at + ".subject", "not allowed on assign actions")) ||
      (a.body != "" && p == Problem(at + ".body", "not allowed on assign actions"))
    case UnknownAction(name) => p == Problem(at + ".type", "unknown action type \"" + name + "\"")
  }

  lemma ActionReported(fm: Formats, at: string, a: Action, p: Problem)
    ensures p in ActionProblems(fm, at, a) <==> ActionProblem(fm, at, a, p)
  {
    hide ActionProblems, ActionProblem;
    match a.kind
    case Webhook => WebhookReported(fm, at, a, p);
    case SendEmail => EmailReported(fm, at, a, p);
    case Assign => AssignReported(fm, at, a, p);
    case UnknownAction(_) => UnknownReported(fm, at, a, p);
  }

  lemma WebhookReported(fm: Formats, at: string, a: Action, p: Problem)
    requires a.kind.Webhook?
    ensures p in ActionProblems(fm, at, a) <==> ActionProblem(fm, at, a, p)
  {
    hide Trim, J.ActionName;
    NotAllowedReads();
  }

  lemma EmailReported(fm: Formats, at: string, a: Action, p: Problem)
    requires a.kind.SendEmail?
    ensures p in ActionProblems(fm, at, a) <==> ActionProblem(fm, at, a, p)
  {
    hide Trim, J.ActionName;
    NotAllowedReads();
  }

  lemma AssignReported(fm: Formats, at: string, a: Action, p: Problem)
    requires a.kind.Assign?
    ensures p in ActionProblems(fm, at, a) <==> ActionProblem(fm, at, a, p)
  {
    hide Trim, J.ActionName;
    NotAllowedReads();
  }

  lemma UnknownReported(fm: Formats, at: string, a: Action, p: Problem)
    requires a.kind.UnknownAction?
    ensures p in ActionProblems(fm, at, a) <==> ActionProblem(fm, at, a, p)
  {
    hide Trim, J.ActionName;
    assert "unknown action type " + Quote(a.kind.name) == "unknown action type \"" + a.kind.name + "\"";
  }

  lemma NotAllowedReads()
    ensures "not allowed on " + J.ActionName(Webhook) + " actions" == "not allowed on webhook actions"
    ensures "not allowed on " + J.ActionName(SendEmail) + " actions" == "not allowed on email actions"
    ensures "not allowed on " + J.ActionName(Assign) + " actions" == "not allowed on assign actions"
  {
  }

  ghost predicate ActionsProblem(fm: Formats, list: string, actions: seq<Action>, p: Problem) {
    exists j :: 0 <= j < |actions| && ActionProblem(fm, Place(list, j), actions[j], p)
  }

  lemma ActionsReported(fm: Formats, list: string, actions: seq<Action>, p: Problem)
    ensures p in ActionsProblems(fm, list, actions) <==> ActionsProblem(fm, list, actions, p)
  {
    hide ActionProblems, ActionProblem, Decimal;
    InCollect(ActionAt(fm, list, actions), |actions|, p);
    forall j | 0 <= j < |actions|
      ensures p in ActionAt(fm, list, actions)(j) <==> ActionProblem(fm, Place(list, j), actions[j], p)
    {
      ActionReported(fm, Place(list, j), actions[j], p);
    }
  }

  ghost predicate StateProblem(fm: Formats, ss: seq<State>, i: nat, p: Problem)
    requires i < |ss|
  {
    var s, at := ss[i], Place("states", i);
    KeyProblem(at, s.key, Used(StateNames(ss), i, s.key), "duplicate state key \"" + s.key + "\"", p) ||
    (Trim(fm.space, s.caption) == "" && p == Problem(at + ".label", "is required")) ||
    (s.color != "" && s.color !in {"gray", "blue", "green", "yellow", "red", "purple"} &&
     p == Problem(at + ".color", "must be one of gray, blue, green, yellow, red, purple"))
  }

  lemma StateReported(fm: Formats, ss: seq<State>, i: nat, p: Problem)
    requires i < |ss|
    ensures p in StateAt(fm, ss)(i) <==> StateProblem(fm, ss, i, p)
  {
    hide Trim, Decimal, IsKey, FirstUse, KeyProblems, KeyProblem, Used, FirstAt;
    var s, at := ss[i], Place("states", i);
    UsedIs(StateNames(ss), i, s.key);
    UsedIsKey(StateNames(ss), i, s.key);
    KeyReported(at, s.key, Used(StateNames(ss), i, s.key), "duplicate state key \"" + s.key + "\"", p);
    assert "duplicate state key " + Quote(s.key) == "duplicate state key \"" + s.key + "\"";
  }

  lemma UsedIsKey(names: seq<string>, i: nat, k: string)
    requires i <= |names|
    ensures Used(names, i, k) ==> IsKey(k)
  {
  }

  ghost predicate ColumnProblem(fm: Formats, fs: seq<WorkflowField>, i: nat, p: Problem)
    requires i < |fs|
  {
    var f, at := fs[i], Place("fields", i);
    KeyProblem(at, f.key, Used(ColumnNames(fs), i, f.key), "duplicate workflow field key \"" + f.key + "\"", p) ||
    (!(f.kind.Text? || f.kind.TextArea? || f.kind.Number? || f.kind.Select? || f.kind.Checkbox? || f.kind.Date?) &&
     p == Problem(at + ".type", "type \"" + J.TypeName(f.kind) + "\" " + TYPE_RULE)) ||
    (Trim(fm.space, f.caption) == "" && p == Problem(at + ".label", "is required")) ||
    OptionsProblem(fm, at, f.kind.Select?, "options are only allowed on select fields", f.options, p)
  }

  lemma ColumnReported(fm: Formats, fs: seq<WorkflowField>, i: nat, p: Problem)
    requires i < |fs|
    ensures p in ColumnAt(fm, fs)(i) <==> ColumnProblem(fm, fs, i, p)
  {
    hide Trim, Decimal, IsKey, FirstUse, KeyProblems, KeyProblem, Used, FirstAt, OptionsProblems, OptionsProblem,
         J.TypeName;
    var f, at := fs[i], Place("fields", i);
    UsedIs(ColumnNames(fs), i, f.key);
    UsedIsKey(ColumnNames(fs), i, f.key);
    KeyReported(at, f.key, Used(ColumnNames(fs), i, f.key), "duplicate workflow field key \"" + f.key + "\"", p);
    OptionsReported(fm, at, f.kind.Select?, "options are only allowed on select fields", f.options, p);
    assert "duplicate workflow field key " + Quote(f.key) == "duplicate workflow field key \"" + f.key + "\"";
    TypeRuleReads(J.TypeName(f.kind));
  }

  const TYPE_RULE := "is not allowed for workflow fields (use text, textarea, number, select, checkbox or date)"

  lemma TypeRuleReads(name: string)
    ensures "type " + Quote(name) + " " + FIELD_TYPE_RULE == "type \"" + name + "\" " + TYPE_RULE
  {
    assert "type " + Quote(name) + " " == "type \"" + name + "\" ";
  }

  /** A state of the workflow that a name stands for. */
  ghost predicate Stands(ss: seq<State>, k: string, s: State) {
    IsKey(k) && exists j :: 0 <= j < |ss| && FirstAt(StateNames(ss), |ss|, k, j) && ss[j] == s
  }

  lemma StandsIs(ss: seq<State>, k: string)
    ensures StateOf(ss, |ss|, k).Some? <==> Used(StateNames(ss), |ss|, k)
    ensures StateOf(ss, |ss|, k).Some? ==> Stands(ss, k, StateOf(ss, |ss|, k).value)
    ensures forall s :: Stands(ss, k, s) ==> StateOf(ss, |ss|, k) == Some(s)
  {
    hide IsKey;
    UsedIs(StateNames(ss), |ss|, k);
  }

  ghost predicate SourceProblem(ss: seq<State>, at: string, k: string, p: Problem) {
    (!Used(StateNames(ss), |ss|, k) && p == Problem(at, "unknown state \"" + k + "\"")) ||
    exists s :: Stands(ss, k, s) && s.terminal &&
      p == Problem(at, "cannot transition out of terminal state \"" + k + "\"")
  }

  lemma SourceReported(ss: seq<State>, at: string, k: string, p: Problem)
    ensures p in SourceProblems(at, k, StateOf(ss, |ss|, k)) <==> SourceProblem(ss, at, k, p)
  {
    hide StateOf, Used, Stands;
    StandsIs(ss, k);
    assert "unknown state " + Quote(k) == "unknown state \"" + k + "\"";
    assert "cannot transition out of terminal state " + Quote(k) ==
           "cannot transition out of terminal state \"" + k + "\"";
  }

  ghost predicate TransitionProblem(fm: Formats, w: Workflow, i: nat, p: Problem)
    requires i < |w.TransitionList()|
  {
    var ts, ss, at := w.TransitionList(), w.StateList(), Place("transitions", i);
    var t := ts[i];
    KeyProblem(at, t.key, Used(TransitionNames(ts), i, t.key), "duplicate transition key \"" + t.key + "\"", p) ||
    (Trim(fm.space, t.caption) == "" && p == Problem(at + ".label", "is required")) ||
    (t.Sources() == [] && p == Problem(at + ".from", "at least one source state is required")) ||
    (exists j :: 0 <= j < |t.Sources()| && SourceProblem(ss, Place(at + ".from", j), t.Sources()[j], p)) ||
    (!Used(StateNames(ss), |ss|, t.to) && p == Problem(at + ".to", "unknown state \"" + t.to + "\"")) ||
    (exists j :: 0 <= j < |t.guard.roles| && Trim(fm.space, t.guard.roles[j]) == "" &&
       p == Problem(Place(at + ".guard.roles", j), "must not be empty")) ||
    (exists j :: 0 <= j < |t.guard.requireFields| &&
       !Used(ColumnNames(w.fields), |w.fields|, t.guard.requireFields[j]) &&
       p == Problem(Place(at + ".guard.requireFields", j),
                    "unknown workflow field \"" + t.guard.requireFields[j] + "\"")) ||
    ActionsProblem(fm, at + ".actions", t.actions, p)
  }

  lemma TransitionReported(fm: Formats, w: Workflow, i: nat, p: Problem)
    requires i < |w.TransitionList()|
    ensures p in TransitionAt(fm, w)(i) <==> TransitionProblem(fm, w, i, p)
  {
    hide Trim, Decimal, IsKey, FirstUse, KeyProblems, KeyProblem, Used, FirstAt, ActionsProblems, ActionsProblem,
         SourceProblems, SourceProblem, StateOf, Collect, Stands, SourceAt, RoleAt, RequiredAt;
    var ts, ss, at := w.TransitionList(), w.StateList(), Place("transitions", i);
    var t := ts[i];
    UsedIs(TransitionNames(ts), i, t.key);
    UsedIsKey(TransitionNames(ts), i, t.key);
    KeyReported(at, t.key, Used(TransitionNames(ts), i, t.key), "duplicate transition key \"" + t.key + "\"", p);
    assert "duplicate transition key " + Quote(t.key) == "duplicate transition key \"" + t.key + "\"";
    SourcesReported(ss, at + ".from", t.Sources(), p);
    StandsIs(ss, t.to);
    assert "unknown state " + Quote(t.to) == "unknown state \"" + t.to + "\"";
    RolesReported(fm, at + ".guard.roles", t.guard.roles, p);
    RequiredReported(at + ".guard.requireFields", t.guard.requireFields, w.fields, p);
    ActionsReported(fm, at + ".actions", t.actions, p);
  }

  lemma SourcesReported(ss: seq<State>, at: string, sources: seq<string>, p: Problem)
    ensures p in Collect(SourceAt(at, sources, ss), |sources|) <==>
            exists j :: 0 <= j < |sources| && SourceProblem(ss, Place(at, j), sources[j], p)
  {
    hide SourceProblems, SourceProblem, StateOf, Decimal;
    InCollect(SourceAt(at, sources, ss), |sources|, p);
    forall j | 0 <= j < |sources|
      ensures p in SourceAt(at, sources, ss)(j) <==> SourceProblem(ss, Place(at, j), sources[j], p)
    {
      SourceReported(ss, Place(at, j), sources[j], p);
    }
  }

  lemma RolesReported(fm: Formats, at: string, roles: seq<string>, p: Problem)
    ensures p in Collect(RoleAt(fm, at, roles), |roles|) <==>
            exists j :: 0 <= j < |roles| && Trim(fm.space, roles[j]) == "" &&
              p == Problem(Place(at, j), "must not be empty")
  {
    hide Trim, Decimal;
    InCollect(RoleAt(fm, at, roles), |roles|, p);
    forall j | 0 <= j < |roles|
      ensures p in RoleAt(fm, at, roles)(j) <==>
              Trim(fm.space, roles[j]) == "" && p == Problem(Place(at, j), "must not be empty")
    {
    }
  }

  lemma RequiredReported(at: string, required: seq<string>, fs: seq<WorkflowField>, p: Problem)
    ensures p in Collect(RequiredAt(at, required, fs), |required|) <==>
            exists j :: 0 <= j < |required| && !Used(ColumnNames(fs), |fs|, required[j]) &&
              p == Problem(Place(at, j), "unknown workflow field \"" + required[j] + "\"")
  {
    hide RequiredAt, Used, Collect, Decimal;
    InCollect(RequiredAt(at, required, fs), |required|, p);
    forall j | 0 <= j < |required|
      ensures p in RequiredAt(at, required, fs)(j) <==>
              !Used(ColumnNames(fs), |fs|, required[j]) &&
              p == Problem(Place(at, j), "unknown workflow field \"" + required[j] + "\"")
    {
      OneRequiredReported(at, required, fs, j, p);
    }
  }

  lemma OneRequiredReported(at: string, required: seq<string>, fs: seq<WorkflowField>, j: nat, p: Problem)
    requires j < |required|
    ensures p in RequiredAt(at, required, fs)(j) <==>
            !Used(ColumnNames(fs), |fs|, required[j]) &&
            p == Problem(Place(at, j), "unknown workflow field \"" + required[j] + "\"")
  {
    hide Decimal, FirstUse, Used, FirstAt;
    UsedIs(ColumnNames(fs), |fs|, required[j]);
    assert "unknown workflow field " + Quote(required[j]) == "unknown workflow field \"" + required[j] + "\"";
  }

  /** The validator of workflows reports exactly these problems. */
  lemma WorkflowReported(fm: Formats, w: Workflow, p: Problem)
    ensures p in WorkflowProblems(fm, w) <==>
            (!IsSlug(w.slug) && p == Problem("slug", "must match ^[a-z0-9][a-z0-9-]{0,62}$")) ||
            (Trim(fm.space, w.title) == "" && p == Problem("title", "is required")) ||
            (w.StateList() == [] && p == Problem("states", "at least one state is required")) ||
            (exists i :: 0 <= i < |w.StateList()| && StateProblem(fm, w.StateList(), i, p)) ||
            (!Used(StateNames(w.StateList()), |w.StateList()|, w.initial) &&
             p == Problem("initial", "unknown state \"" + w.initial + "\"")) ||
            (exists i :: 0 <= i < |w.fields| && ColumnProblem(fm, w.fields, i, p)) ||
            ActionsProblem(fm, "onSubmit", w.onSubmit, p) ||
            exists i :: 0 <= i < |w.TransitionList()| && TransitionProblem(fm, w, i, p)
  {
    hide IsSlug, Trim, StateAt, StateProblem, ColumnAt, ColumnProblem, TransitionAt, TransitionProblem, ActionsProblems,
         ActionsProblem, StateOf, Stands, Used, Collect;
    var ss, fs, ts := w.StateList(), w.fields, w.TransitionList();
    InCollect(StateAt(fm, ss), |ss|, p);
    InCollect(ColumnAt(fm, fs), |fs|, p);
    InCollect(TransitionAt(fm, w), |ts|, p);
    ActionsReported(fm, "onSubmit", w.onSubmit, p);
    StandsIs(ss, w.initial);
    assert "unknown state " + Quote(w.initial) == "unknown state \"" + w.initial + "\"";
    forall i | 0 <= i < |ss| { StateReported(fm, ss, i, p); }
    forall i | 0 <= i < |fs| { ColumnReported(fm, fs, i, p); }
    forall i | 0 <= i < |ts| { TransitionReported(fm, w, i, p); }
  }
}
