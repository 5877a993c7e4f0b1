/** What a valid form or workflow is, stated outright. */
module DefinitionRules {
  import opened Common
  import opened JsonValues
  import opened Text
  import opened Definitions

  // ---- options -------------------------------------------------------------------------------

  predicate OptionsOk(fm: Formats, allowed: bool, opts: seq<Choice>) {
    if !allowed then opts == []
    else
      opts != [] &&
      forall j :: 0 <= j < |opts| ==> OptionOk(fm, opts, j)
  }

  predicate OptionOk(fm: Formats, opts: seq<Choice>, j: nat)
    requires j < |opts|
  {
    opts[j].value != "" && Trim(fm.space, opts[j].value) == opts[j].value &&
    (forall i :: 0 <= i < j ==> opts[i].value != opts[j].value) &&
    !Blank(fm.space, opts[j].caption)
  }

  // ---- forms ---------------------------------------------------------------------------------

  predicate TakesText(t: FieldType) { t.Text? || t.TextArea? || t.Email? || t.Url? }

  predicate ValidationOk(fm: Formats, t: FieldType, v: Validation) {
    (!TakesText(t) ==> v.minLength.None? && v.maxLength.None? && v.pattern == "") &&
    (!t.Number? ==> v.min.None? && v.max.None?) &&
    (v.minLength.Some? ==> 0 <= v.minLength.value) &&
    (v.maxLength.Some? ==> 0 <= v.maxLength.value) &&
    (v.minLength.Some? && v.maxLength.Some? ==> v.minLength.value <= v.maxLength.value) &&
    (v.min.Some? && v.max.Some? ==> v.min.value <= v.max.value) &&
    (v.pattern != "" ==> fm.compileError(v.pattern).None?)
  }

  function Operands(c: Condition): nat {
    (if c.equals != Null then 1 else 0) + (if c.notEquals != Null then 1 else 0) + (if c.oneOf.Some? then 1 else 0)
  }

  predicate ConditionOk(fields: seq<Field>, i: nat, c: Condition)
    requires i <= |fields|
  {
    (exists j :: 0 <= j < i && fields[j].key == c.field) &&
    Operands(c) == 1 && (c.oneOf.Some? ==> c.oneOf.value != [])
  }

  /** Everything that field i must satisfy, given the fields before it. */
  predicate FieldOk(fm: Formats, fields: seq<Field>, i: nat)
    requires i < |fields|
  {
    var f := fields[i];
    IsKey(f.key) && (forall j :: 0 <= j < i ==> fields[j].key != f.key) &&
    !f.kind.UnknownType? && !Blank(fm.space, f.caption) &&
    OptionsOk(fm, f.kind.Select? || f.kind.MultiSelect?, f.options) &&
    (f.validation.Some? ==> ValidationOk(fm, f.kind, f.validation.value)) &&
    (f.showIf.Some? ==> ConditionOk(fields, i, f.showIf.value))
  }

  predicate FieldsOk(fm: Formats, fields: seq<Field>) {
    forall i :: 0 <= i < |fields| ==> FieldOk(fm, fields, i)
  }

  predicate ValidForm(fm: Formats, f: Form) {
    IsSlug(f.slug) && !Blank(fm.space, f.title) && (f.workflow != "" ==> IsSlug(f.workflow)) &&
    f.FieldList() != [] && FieldsOk(fm, f.FieldList())
  }

  // ---- workflows -----------------------------------------------------------------------------

  predicate ActionOk(fm: Formats, a: Action) {
    match a.kind
    case Webhook =>
      a.url != "" && fm.isHttpUrl(a.url) && a.to == "" && a.subject == "" && a.body == "" && a.user == "" &&
      a.role == ""
    case SendEmail =>
      !Blank(fm.space, a.to) && !Blank(fm.space, a.subject) && a.url == "" && a.user == "" && a.role == ""
    case Assign =>
      (a.user == "" <==> a.role != "") && (a.user != "" ==> fm.isEmail(a.user)) &&
      a.url == "" && a.to == "" && a.subject == "" && a.body == ""
    case UnknownAction(_) => false
  }

  predicate WorkflowFieldType(t: FieldType) {
    t.Text? || t.TextArea? || t.Number? || t.Select? || t.Checkbox? || t.Date?
  }

  const STATE_COLORS: set<string> := {"gray", "blue", "green", "yellow", "red", "purple"}

  predicate StateOk(fm: Formats, ss: seq<State>, i: nat)
    requires i < |ss|
  {
    IsKey(ss[i].key) && (forall j :: 0 <= j < i ==> ss[j].key != ss[i].key) &&
    !Blank(fm.space, ss[i].caption) && (ss[i].color != "" ==> ss[i].color in STATE_COLORS)
  }

  predicate WorkflowFieldOk(fm: Formats, fs: seq<WorkflowField>, i: nat)
    requires i < |fs|
  {
    IsKey(fs[i].key) && (forall j :: 0 <= j < i ==> fs[j].key != fs[i].key) &&
    WorkflowFieldType(fs[i].kind) && !Blank(fm.space, fs[i].caption) && OptionsOk(fm, fs[i].kind.Select?, fs[i].options)
  }

  function StateKeys(ss: seq<State>): set<string> {
    set i | 0 <= i < |ss| :: ss[i].key
  }

  function OpenStateKeys(ss: seq<State>): set<string> {
    set i | 0 <= i < |ss| && !ss[i].terminal :: ss[i].key
  }

  function FieldKeys(fs: seq<WorkflowField>): set<string> {
    set i | 0 <= i < |fs| :: fs[i].key
  }

  predicate AllActionsOk(fm: Formats, actions: seq<Action>) {
    forall i :: 0 <= i < |actions| ==> ActionOk(fm, actions[i])
  }

  predicate GuardOk(fm: Formats, fields: set<string>, g: Guard) {
    (forall i :: 0 <= i < |g.roles| ==> !Blank(fm.space, g.roles[i])) &&
    (forall i :: 0 <= i < |g.requireFields| ==> g.requireFields[i] in fields)
  }

  predicate TransitionOk(fm: Formats, w: Workflow, i: nat)
    requires i < |w.TransitionList()|
  {
    var ts := w.TransitionList();
    var t := ts[i];
    IsKey(t.key) && (forall j :: 0 <= j < i ==> ts[j].key != t.key) && !Blank(fm.space, t.caption) &&
    t.Sources() != [] &&
    (forall j :: 0 <= j < |t.Sources()| ==> t.Sources()[j] in OpenStateKeys(w.StateList())) &&
    t.to in StateKeys(w.StateList()) &&
    GuardOk(fm, FieldKeys(w.fields), t.guard) && AllActionsOk(fm, t.actions)
  }

  predicate ValidWorkflow(fm: Formats, w: Workflow) {
    IsSlug(w.slug) && !Blank(fm.space, w.title) && w.StateList() != [] &&
    (forall i :: 0 <= i < |w.StateList()| ==> StateOk(fm, w.StateList(), i)) &&
    w.initial in StateKeys(w.StateList()) &&
    (forall i :: 0 <= i < |w.fields| ==> WorkflowFieldOk(fm, w.fields, i)) &&
    AllActionsOk(fm, w.onSubmit) &&
    (forall i :: 0 <= i < |w.TransitionList()| ==> TransitionOk(fm, w, i))
  }
}
