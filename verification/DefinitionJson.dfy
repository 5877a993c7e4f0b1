/** Definitions as JSON documents: writing with the omit-empty rules, reading, and what a round trip preserves. */
module DefinitionJson {
  import opened Common
  import opened JsonValues
  import opened Definitions
  import opened DefinitionRules
  import T = Text

  // ---- documents ------------------------------------------------------------------------------------------

  /** When a member is written: always, if it is set, or if it is not empty. */
  datatype Rule = Always | IfSet | IfNotEmpty

  datatype Member = Member(key: string, value: Json, rule: Rule)

  predicate Empty(v: Json) {
    v.Null? || v == Bool(false) || v == Str("") || v == Arr([]) || v == Obj(map[])
  }

  predicate Written(m: Member) {
    m.rule.Always? || (m.rule.IfSet? && !m.value.Null?) || (m.rule.IfNotEmpty? && !Empty(m.value))
  }

  /** The object that is built member by member. */
  function Build(ms: seq<Member>): map<string, Json> {
    if ms == [] then map[]
    else
      var d, m := Build(ms[..|ms| - 1]), ms[|ms| - 1];
      if Written(m) then d[m.key := m.value] else d
  }

  /** A missing member reads as null. */
  function Get(d: map<string, Json>, key: string): Json {
    if key in d then d[key] else Null
  }

  predicate DistinctKeys(ms: seq<Member>) {
    forall i, j :: 0 <= i < j < |ms| ==> ms[i].key != ms[j].key
  }

  lemma {:induction false} BuildKeys(ms: seq<Member>)
    ensures forall k :: k in Build(ms) ==> exists i :: 0 <= i < |ms| && ms[i].key == k
  {
    if ms != [] {
      var front := ms[..|ms| - 1];
      BuildKeys(front);
      forall k | k in Build(ms) ensures exists i :: 0 <= i < |ms| && ms[i].key == k {
        if k != ms[|ms| - 1].key {
          assert k in Build(front);
          var i :| 0 <= i < |front| && front[i].key == k;
          assert ms[i].key == k;
        }
      }
    }
  }

  lemma {:induction false} BuildReads(ms: seq<Member>, i: nat)
    requires DistinctKeys(ms) && i < |ms|
    ensures Get(Build(ms), ms[i].key) == if Written(ms[i]) then ms[i].value else Null
    ensures ms[i].key in Build(ms) <==> Written(ms[i])
  {
    var front := ms[..|ms| - 1];
    if i < |front| {
      BuildReads(front, i);
    } else {
      BuildKeys(front);
    }
  }

  function AsStr(v: Json): string {
    if v.Str? then v.s else ""
  }

  function AsItems(v: Json): seq<Json> {
    if v.Arr? then v.items else []
  }

  function AsMembers(v: Json): map<string, Json> {
    if v.Obj? then v.members else map[]
  }

  function AsInt(v: Json): Option<int> {
    if v.Num? && v.n.Floor as real == v.n then Some(v.n.Floor) else None
  }

  function AsReal(v: Json): Option<real> {
    if v.Num? then Some(v.n) else None
  }

  function OfInt(n: Option<int>): Json {
    if n.Some? then Num(n.value as real) else Null
  }

  function OfReal(n: Option<real>): Json {
    if n.Some? then Num(n.value) else Null
  }

  /** The objects among the items; definitions ignore anything else. */
  function Objects(items: seq<Json>): (r: seq<map<string, Json>>)
    ensures |r| <= |items|
  {
    if items == [] then [] else (if items[0].Obj? then [items[0].members] else []) + Objects(items[1..])
  }

  function Strings(items: seq<Json>): seq<string> {
    if items == [] then [] else (if items[0].Str? then [items[0].s] else []) + Strings(items[1..])
  }

  function OfStrings(ss: seq<string>): Json {
    Arr(seq(|ss|, i requires 0 <= i < |ss| => Str(ss[i])))
  }

  function OfObjects(ds: seq<map<string, Json>>): Json {
    Arr(seq(|ds|, i requires 0 <= i < |ds| => Obj(ds[i])))
  }

  lemma {:induction false} ObjectsRead(ds: seq<map<string, Json>>)
    ensures Objects(AsItems(OfObjects(ds))) == ds
  {
    var items := AsItems(OfObjects(ds));
    if ds != [] {
      ObjectsRead(ds[1..]);
      assert items[1..] == AsItems(OfObjects(ds[1..]));
      assert ds == [ds[0]] + ds[1..];
    }
  }

  lemma {:induction false} StringsRead(ss: seq<string>)
    ensures Strings(AsItems(OfStrings(ss))) == ss
  {
    var items := AsItems(OfStrings(ss));
    if ss != [] {
      StringsRead(ss[1..]);
      assert items[1..] == AsItems(OfStrings(ss[1..]));
      assert ss == [ss[0]] + ss[1..];
    }
  }

  // ---- field and action types --------------------------------------------------------------------------

  function TypeName(t: FieldType): string {
    match t
    case Text => "text" case TextArea => "textarea" case Email => "email" case Number => "number"
    case Select => "select" case MultiSelect => "multiselect" case Checkbox => "checkbox" case Date => "date"
    case Url => "url" case UnknownType(name) => name
  }

  function TypeOf(name: string): (t: FieldType) {
    if name == "text" then Text else if name == "textarea" then TextArea else if name == "email" then Email
    else if name == "number" then Number else if name == "select" then Select
    else if name == "multiselect" then MultiSelect else if name == "checkbox" then Checkbox
    else if name == "date" then Date else if name == "url" then Url else UnknownType(name)
  }

  function ActionName(t: ActionType): string {
    match t
    case Webhook => "webhook" case SendEmail => "email" case Assign => "assign" case UnknownAction(name) => name
  }

  function ActionOf(name: string): ActionType {
    if name == "webhook" then Webhook else if name == "email" then SendEmail else if name == "assign" then Assign
    else UnknownAction(name)
  }

  lemma TypesRead(t: FieldType, a: ActionType)
    ensures TypeOf(TypeName(t)) == t && ActionOf(ActionName(a)) == a
  {
  }

  // ---- the records -----------------------------------------------------------------------------------------

  function ChoiceMembers(o: Choice): seq<Member> {
    [Member("value", Str(o.value), Always), Member("label", Str(o.caption), Always)]
  }

  function ReadChoice(d: map<string, Json>): Choice {
    Choice(AsStr(Get(d, "value")), AsStr(Get(d, "label")))
  }

  function ValidationMembers(v: Validation): seq<Member> {
    [Member("minLength", OfInt(v.minLength), IfSet), Member("maxLength", OfInt(v.maxLength), IfSet),
     Member("pattern", Str(v.pattern), IfNotEmpty), Member("min", OfReal(v.min), IfSet),
     Member("max", OfReal(v.max), IfSet)]
  }

  function ReadValidation(d: map<string, Json>): Validation {
    Validation(AsInt(Get(d, "minLength")), AsInt(Get(d, "maxLength")), AsStr(Get(d, "pattern")), AsReal(Get(d, "min")),
               AsReal(Get(d, "max")))
  }

  function ConditionMembers(c: Condition): seq<Member> {
    [Member("field", Str(c.field), Always), Member("equals", c.equals, IfSet), Member("notEquals", c.notEquals, IfSet),
     Member("in", Arr(if c.oneOf.Some? then c.oneOf.value else []), IfNotEmpty)]
  }

  function ReadCondition(d: map<string, Json>): Condition {
    Condition(AsStr(Get(d, "field")), Get(d, "equals"), Get(d, "notEquals"),
              if Get(d, "in").Arr? then Some(Get(d, "in").items) else None)
  }

  function OfChoices(os: seq<Choice>): Json {
    OfObjects(seq(|os|, i requires 0 <= i < |os| => Build(ChoiceMembers(os[i]))))
  }

  function ReadChoices(v: Json): seq<Choice> {
    var ds := Objects(AsItems(v));
    seq(|ds|, i requires 0 <= i < |ds| => ReadChoice(ds[i]))
  }

  function FieldMembers(f: Field): seq<Member> {
    [Member("key", Str(f.key), Always), Member("type", Str(TypeName(f.kind)), Always),
     Member("label", Str(f.caption), Always),
     Member("help", Str(f.help), IfNotEmpty), Member("placeholder", Str(f.placeholder), IfNotEmpty),
     Member("required", Bool(f.required), IfNotEmpty), Member("options", OfChoices(f.options), IfNotEmpty),
     Member("validation",
            if f.validation.Some? then Obj(Build(ValidationMembers(f.validation.value))) else Null, IfSet),
     Member("showIf", if f.showIf.Some? then Obj(Build(ConditionMembers(f.showIf.value))) else Null, IfSet)]
  }

  function ReadField(d: map<string, Json>): Field {
    Field(AsStr(Get(d, "key")), TypeOf(AsStr(Get(d, "type"))), AsStr(Get(d, "label")), AsStr(Get(d, "help")),
          AsStr(Get(d, "placeholder")), Get(d, "required") == Bool(true), ReadChoices(Get(d, "options")),
          if Get(d, "validation").Obj? then Some(ReadValidation(Get(d, "validation").members)) else None,
          if Get(d, "showIf").Obj? then Some(ReadCondition(Get(d, "showIf").members)) else None)
  }

  function SettingsMembers(s: FormSettings): seq<Member> {
    [Member("public", Bool(s.isPublic), Always), Member("submitLabel", Str(s.submitLabel), IfNotEmpty),
     Member("confirmationMessage", Str(s.confirmationMessage), IfNotEmpty)]
  }

  function ReadSettings(d: map<string, Json>): FormSettings {
    FormSettings(Get(d, "public") == Bool(true), AsStr(Get(d, "submitLabel")), AsStr(Get(d, "confirmationMessage")))
  }

  function FormMembers(f: Form): seq<Member> {
    [Member("slug", Str(f.slug), Always), Member("title", Str(f.title), Always),
     Member("description", Str(f.description), IfNotEmpty), Member("workflow", Str(f.workflow), IfNotEmpty),
     Member("settings", Obj(Build(SettingsMembers(f.settings))), Always),
     Member("fields", if f.fields.None? then Null else OfFields(f.fields.value), Always)]
  }

  function OfFields(fs: seq<Field>): Json {
    OfObjects(seq(|fs|, i requires 0 <= i < |fs| => Build(FieldMembers(fs[i]))))
  }

  function ReadFields(v: Json): seq<Field> {
    var ds := Objects(AsItems(v));
    seq(|ds|, i requires 0 <= i < |ds| => ReadField(ds[i]))
  }

  function FormToDict(f: Form): Json {
    Obj(Build(FormMembers(f)))
  }

  function FormFromDict(v: Json): Form {
    var d := AsMembers(v);
    Form(AsStr(Get(d, "slug")), AsStr(Get(d, "title")), AsStr(Get(d, "description")), AsStr(Get(d, "workflow")),
         if Get(d, "settings").Obj? then ReadSettings(Get(d, "settings").members) else FormSettings(false, "", ""),
         if Get(d, "fields").Arr? then Some(ReadFields(Get(d, "fields"))) else None)
  }

  // ---- what a round trip changes ------------------------------------------------------------------------------

  /** An empty list of alternatives is not written, so it is read back as none. */
  function SettleCondition(c: Condition): Condition {
    if c.oneOf == Some([]) then c.(oneOf := None) else c
  }

  function SettleField(f: Field): Field {
    f.(showIf := if f.showIf.Some? then Some(SettleCondition(f.showIf.value)) else None)
  }

  function SettleFields(fs: seq<Field>): seq<Field> {
    seq(|fs|, i requires 0 <= i < |fs| => SettleField(fs[i]))
  }

  function SettleForm(f: Form): Form {
    if f.fields.None? then f else f.(fields := Some(SettleFields(f.fields.value)))
  }

  lemma ChoiceReads(o: Choice)
    ensures ReadChoice(Build(ChoiceMembers(o))) == o
  {
    hide Build;
    var ms := ChoiceMembers(o);
    BuildReads(ms, 0);
    BuildReads(ms, 1);
  }

  lemma ChoicesRead(os: seq<Choice>)
    ensures ReadChoices(OfChoices(os)) == os
    ensures Empty(OfChoices(os)) <==> os == []
  {
    hide ReadChoice, ChoiceMembers, Build;
    ObjectsRead(seq(|os|, i requires 0 <= i < |os| => Build(ChoiceMembers(os[i]))));
    forall i | 0 <= i < |os| { ChoiceReads(os[i]); }
  }

  lemma ValidationReads(v: Validation)
    ensures ReadValidation(Build(ValidationMembers(v))) == v
  {
    hide Build;
    var ms := ValidationMembers(v);
    assert DistinctKeys(ms);
    forall i | 0 <= i < 5 { BuildReads(ms, i); }
    assert ms[0].key == "minLength" && ms[1].key == "maxLength" && ms[2].key == "pattern" && ms[3].key == "min" &&
           ms[4].key == "max";
  }

  lemma ConditionReads(c: Condition)
    ensures ReadCondition(Build(ConditionMembers(c))) == SettleCondition(c)
  {
    hide Build;
    var ms := ConditionMembers(c);
    assert DistinctKeys(ms);
    forall i | 0 <= i < 4 { BuildReads(ms, i); }
    assert ms[0].key == "field" && ms[1].key == "equals" && ms[2].key == "notEquals" && ms[3].key == "in";
  }

  lemma SettingsRead(s: FormSettings)
    ensures ReadSettings(Build(SettingsMembers(s))) == s
  {
    hide Build;
    var ms := SettingsMembers(s);
    assert DistinctKeys(ms);
    forall i | 0 <= i < 3 { BuildReads(ms, i); }
    assert ms[0].key == "public" && ms[1].key == "submitLabel" && ms[2].key == "confirmationMessage";
  }

  lemma FieldKeysDiffer(f: Field)
    ensures DistinctKeys(FieldMembers(f))
    ensures var ms := FieldMembers(f);
            ms[0].key == "key" && ms[1].key == "type" && ms[2].key == "label" && ms[3].key == "help" &&
            ms[4].key == "placeholder" &&
            ms[5].key == "required" && ms[6].key == "options" && ms[7].key == "validation" && ms[8].key == "showIf"
  {
    hide Build, OfChoices, ValidationMembers, ConditionMembers, TypeName;
  }

  lemma FieldReads(f: Field)
    ensures ReadField(Build(FieldMembers(f))) == SettleField(f)
  {
    hide Build, OfChoices, ReadChoices, ValidationMembers, ReadValidation, ConditionMembers, ReadCondition, TypeName,
         TypeOf, DistinctKeys;
    var ms := FieldMembers(f);
    FieldKeysDiffer(f);
    forall i | 0 <= i < 9 { BuildReads(ms, i); }
    TypesRead(f.kind, Webhook);
    ChoicesRead(f.options);
    NoChoices();
    if f.validation.Some? { ValidationReads(f.validation.value); }
    if f.showIf.Some? { ConditionReads(f.showIf.value); }
  }

  lemma NoChoices()
    ensures ReadChoices(Null) == []
  {
  }

  lemma FieldsRead(fs: seq<Field>)
    ensures ReadFields(OfFields(fs)) == SettleFields(fs) && OfFields(fs).Arr?
  {
    hide ReadField, FieldMembers, Build, SettleField;
    ObjectsRead(seq(|fs|, i requires 0 <= i < |fs| => Build(FieldMembers(fs[i]))));
    forall i | 0 <= i < |fs| { FieldReads(fs[i]); }
  }

  lemma FormKeysDiffer(f: Form)
    ensures DistinctKeys(FormMembers(f))
    ensures var ms := FormMembers(f);
            ms[0].key == "slug" && ms[1].key == "title" && ms[2].key == "description" && ms[3].key == "workflow" &&
            ms[4].key == "settings" && ms[5].key == "fields"
  {
    hide Build, OfFields, SettingsMembers;
  }

  /** Reading what was written gives the form back, but for empty lists of alternatives. */
  lemma FormReads(f: Form)
    ensures FormFromDict(FormToDict(f)) == SettleForm(f)
  {
    hide Build, OfFields, ReadFields, SettingsMembers, ReadSettings, SettleFields, DistinctKeys;
    var ms := FormMembers(f);
    FormKeysDiffer(f);
    forall i | 0 <= i < 6 { BuildReads(ms, i); }
    SettingsRead(f.settings);
    if f.fields.Some? { FieldsRead(f.fields.value); }
  }

  lemma SettledFieldWritesTheSame(f: Field)
    ensures FieldMembers(SettleField(f)) == FieldMembers(f)
  {
    hide Build, OfChoices, ValidationMembers, TypeName;
    if f.showIf.Some? {
      assert ConditionMembers(SettleCondition(f.showIf.value)) == ConditionMembers(f.showIf.value);
    }
  }

  /** Writing, reading and writing again gives the same document. */
  lemma FormDocIsStable(f: Form)
    ensures FormToDict(FormFromDict(FormToDict(f))) == FormToDict(f)
  {
    hide Build, FieldMembers, SettleField, SettingsMembers, FormFromDict;
    FormReads(f);
    if f.fields.Some? {
      forall i | 0 <= i < |f.fields.value| { SettledFieldWritesTheSame(f.fields.value[i]); }
      assert OfFields(SettleFields(f.fields.value)) == OfFields(f.fields.value);
    }
  }

  /** No condition has an empty list of alternatives. */
  predicate Faithful(f: Form) {
    forall i :: 0 <= i < |f.FieldList()| ==> FaithfulField(f.FieldList()[i])
  }

  predicate FaithfulField(f: Field) {
    f.showIf.Some? ==> f.showIf.value.oneOf != Some([])
  }

  lemma SettledIffFaithful(f: Field)
    ensures SettleField(f) == f <==> FaithfulField(f)
  {
  }

  /** A form survives the round trip exactly when it is faithful, as every valid form is. */
  lemma FormReadsBack(fm: T.Formats, f: Form)
    ensures FormFromDict(FormToDict(f)) == f <==> Faithful(f)
    ensures ValidForm(fm, f) ==> Faithful(f)
  {
    hide FormFromDict, FormToDict, FaithfulField, SettleField, FieldOk;
    FormReads(f);
    var fs := f.FieldList();
    forall i | 0 <= i < |fs| { SettledIffFaithful(fs[i]); }
    assert SettleForm(f) == f <==> SettleFields(fs) == fs by { NoFields(f); }
    if SettleFields(fs) == fs {
      forall i | 0 <= i < |fs| ensures FaithfulField(fs[i]) {
        assert SettleFields(fs)[i] == SettleField(fs[i]);
      }
    }
    if ValidForm(fm, f) {
      forall i | 0 <= i < |fs| ensures FaithfulField(fs[i]) {
        ValidFieldIsFaithful(fm, fs, i);
      }
    }
  }

  lemma NoFields(f: Form)
    ensures f.fields.None? ==> SettleFields(f.FieldList()) == f.FieldList()
  {
  }

  lemma ValidFieldIsFaithful(fm: T.Formats, fs: seq<Field>, i: nat)
    requires FieldsOk(fm, fs) && i < |fs|
    ensures FaithfulField(fs[i])
  {
    hide T.IsKey, OptionsOk, ValidationOk, TypeOf;
    assert FieldOk(fm, fs, i);
  }

  // ---- workflows -------------------------------------------------------------------------------------------

  function StateMembers(s: State): seq<Member> {
    [Member("key", Str(s.key), Always), Member("label", Str(s.caption), Always),
     Member("color", Str(s.color), IfNotEmpty),
     Member("terminal", Bool(s.terminal), IfNotEmpty)]
  }

  function ReadState(d: map<string, Json>): State {
    State(AsStr(Get(d, "key")), AsStr(Get(d, "label")), AsStr(Get(d, "color")), Get(d, "terminal") == Bool(true))
  }

  function WorkflowFieldMembers(f: WorkflowField): seq<Member> {
    [Member("key", Str(f.key), Always), Member("type", Str(TypeName(f.kind)), Always),
     Member("label", Str(f.caption), Always),
     Member("options", OfChoices(f.options), IfNotEmpty)]
  }

  function ReadWorkflowField(d: map<string, Json>): WorkflowField {
    WorkflowField(AsStr(Get(d, "key")), TypeOf(AsStr(Get(d, "type"))), AsStr(Get(d, "label")),
                  ReadChoices(Get(d, "options")))
  }

  function GuardMembers(g: Guard): seq<Member> {
    [Member("roles", OfStrings(g.roles), IfNotEmpty), Member("requireFields", OfStrings(g.requireFields), IfNotEmpty)]
  }

  function ReadGuard(d: map<string, Json>): Guard {
    Guard(Strings(AsItems(Get(d, "roles"))), Strings(AsItems(Get(d, "requireFields"))))
  }

  function ActionMembers(a: Action): seq<Member> {
    [Member("type", Str(ActionName(a.kind)), Always), Member("url", Str(a.url), IfNotEmpty),
     Member("to", Str(a.to), IfNotEmpty),
     Member("subject", Str(a.subject), IfNotEmpty), Member("body", Str(a.body), IfNotEmpty),
     Member("user", Str(a.user), IfNotEmpty),
     Member("role", Str(a.role), IfNotEmpty)]
  }

  function ReadAction(d: map<string, Json>): Action {
    Action(ActionOf(AsStr(Get(d, "type"))), AsStr(Get(d, "url")), AsStr(Get(d, "to")), AsStr(Get(d, "subject")),
           AsStr(Get(d, "body")), AsStr(Get(d, "user")), AsStr(Get(d, "role")))
  }

  function OfActions(xs: seq<Action>): Json {
    OfObjects(seq(|xs|, i requires 0 <= i < |xs| => Build(ActionMembers(xs[i]))))
  }

  function ReadActions(v: Json): seq<Action> {
    var ds := Objects(AsItems(v));
    seq(|ds|, i requires 0 <= i < |ds| => ReadAction(ds[i]))
  }

  function TransitionMembers(t: Transition): seq<Member> {
    [Member("key", Str(t.key), Always), Member("label", Str(t.caption), Always),
     Member("from", if t.from.None? then Null else OfStrings(t.from.value), Always), Member("to", Str(t.to), Always),
     Member("guard", Obj(Build(GuardMembers(t.guard))), Always), Member("actions", OfActions(t.actions), IfNotEmpty)]
  }

  function ReadTransition(d: map<string, Json>): Transition {
    Transition(AsStr(Get(d, "key")), AsStr(Get(d, "label")),
               if Get(d, "from").Arr? then Some(Strings(Get(d, "from").items)) else None, AsStr(Get(d, "to")),
               if Get(d, "guard").Obj? then ReadGuard(Get(d, "guard").members) else Guard([], []),
               ReadActions(Get(d, "actions")))
  }

  function OfStates(xs: seq<State>): Json {
    OfObjects(seq(|xs|, i requires 0 <= i < |xs| => Build(StateMembers(xs[i]))))
  }

  function ReadStates(v: Json): seq<State> {
    var ds := Objects(AsItems(v));
    seq(|ds|, i requires 0 <= i < |ds| => ReadState(ds[i]))
  }

  function OfWorkflowFields(xs: seq<WorkflowField>): Json {
    OfObjects(seq(|xs|, i requires 0 <= i < |xs| => Build(WorkflowFieldMembers(xs[i]))))
  }

  function ReadWorkflowFields(v: Json): seq<WorkflowField> {
    var ds := Objects(AsItems(v));
    seq(|ds|, i requires 0 <= i < |ds| => ReadWorkflowField(ds[i]))
  }

  function OfTransitions(xs: seq<Transition>): Json {
    OfObjects(seq(|xs|, i requires 0 <= i < |xs| => Build(TransitionMembers(xs[i]))))
  }

  function ReadTransitions(v: Json): seq<Transition> {
    var ds := Objects(AsItems(v));
    seq(|ds|, i requires 0 <= i < |ds| => ReadTransition(ds[i]))
  }

  function WorkflowMembers(w: Workflow): seq<Member> {
    [Member("slug", Str(w.slug), Always), Member("title", Str(w.title), Always),
     Member("initial", Str(w.initial), Always),
     Member("states", if w.states.None? then Null else OfStates(w.states.value), Always),
     Member("fields", OfWorkflowFields(w.fields), IfNotEmpty), Member("onSubmit", OfActions(w.onSubmit), IfNotEmpty),
     Member("transitions", if w.transitions.None? then Null else OfTransitions(w.transitions.value), Always)]
  }

  function WorkflowToDict(w: Workflow): Json {
    Obj(Build(WorkflowMembers(w)))
  }

  function WorkflowFromDict(v: Json): Workflow {
    var d := AsMembers(v);
    Workflow(AsStr(Get(d, "slug")), AsStr(Get(d, "title")), AsStr(Get(d, "initial")),
             if Get(d, "states").Arr? then Some(ReadStates(Get(d, "states"))) else None,
             ReadWorkflowFields(Get(d, "fields")), ReadActions(Get(d, "onSubmit")),
             if Get(d, "transitions").Arr? then Some(ReadTransitions(Get(d, "transitions"))) else None)
  }

  lemma StateReads(s: State)
    ensures ReadState(Build(StateMembers(s))) == s
  {
    hide Build;
    var ms := StateMembers(s);
    assert DistinctKeys(ms);
    forall i | 0 <= i < 4 { BuildReads(ms, i); }
    assert ms[0].key == "key" && ms[1].key == "label" && ms[2].key == "color" && ms[3].key == "terminal";
  }

  lemma WorkflowFieldReads(f: WorkflowField)
    ensures ReadWorkflowField(Build(WorkflowFieldMembers(f))) == f
  {
    hide Build, OfChoices, ReadChoices, TypeName, TypeOf;
    TypesRead(f.kind, Webhook);
    var ms := WorkflowFieldMembers(f);
    assert DistinctKeys(ms);
    forall i | 0 <= i < 4 { BuildReads(ms, i); }
    assert ms[0].key == "key" && ms[1].key == "type" && ms[2].key == "label" && ms[3].key == "options";
    ChoicesRead(f.options);
    NoChoices();
  }

  lemma EmptyStrings(ss: seq<string>)
    ensures Empty(OfStrings(ss)) <==> ss == []
    ensures Strings(AsItems(Null)) == []
  {
  }

  lemma GuardReads(g: Guard)
    ensures ReadGuard(Build(GuardMembers(g))) == g
  {
    hide Build, OfStrings, Strings, AsItems;
    var ms := GuardMembers(g);
    assert DistinctKeys(ms);
    BuildReads(ms, 0);
    BuildReads(ms, 1);
    StringsRead(g.roles);
    StringsRead(g.requireFields);
    EmptyStrings(g.roles);
    EmptyStrings(g.requireFields);
  }

  lemma ActionKeysDiffer(a: Action)
    ensures DistinctKeys(ActionMembers(a))
    ensures var ms := ActionMembers(a);
            ms[0].key == "type" && ms[1].key == "url" && ms[2].key == "to" && ms[3].key == "subject" &&
            ms[4].key == "body" &&
            ms[5].key == "user" && ms[6].key == "role"
  {
    hide ActionName;
  }

  lemma ActionReads(a: Action)
    ensures ReadAction(Build(ActionMembers(a))) == a
  {
    hide Build, ActionName, ActionOf, DistinctKeys;
    TypesRead(Text, a.kind);
    var ms := ActionMembers(a);
    ActionKeysDiffer(a);
    forall i | 0 <= i < 7 { BuildReads(ms, i); }
  }

  lemma ActionsRead(xs: seq<Action>)
    ensures ReadActions(OfActions(xs)) == xs
    ensures Empty(OfActions(xs)) <==> xs == []
    ensures ReadActions(Null) == []
  {
    hide ReadAction, ActionMembers, Build, ActionName, ActionOf;
    ObjectsRead(seq(|xs|, i requires 0 <= i < |xs| => Build(ActionMembers(xs[i]))));
    forall i | 0 <= i < |xs| { ActionReads(xs[i]); }
  }

  lemma TransitionKeysDiffer(t: Transition)
    ensures DistinctKeys(TransitionMembers(t))
    ensures var ms := TransitionMembers(t);
            ms[0].key == "key" && ms[1].key == "label" && ms[2].key == "from" && ms[3].key == "to" &&
            ms[4].key == "guard" && ms[5].key == "actions"
  {
    hide Build, GuardMembers, OfActions, OfStrings;
  }

  lemma TransitionReads(t: Transition)
    ensures ReadTransition(Build(TransitionMembers(t))) == t
  {
    hide Build, GuardMembers, OfActions, ReadGuard, ReadActions, DistinctKeys, Strings;
    var ms := TransitionMembers(t);
    TransitionKeysDiffer(t);
    forall i | 0 <= i < 6 { BuildReads(ms, i); }
    GuardReads(t.guard);
    ActionsRead(t.actions);
    if t.from.Some? { StringsRead(t.from.value); }
  }

  lemma StatesRead(xs: seq<State>)
    ensures ReadStates(OfStates(xs)) == xs && OfStates(xs).Arr?
  {
    hide ReadState, StateMembers, Build;
    ObjectsRead(seq(|xs|, i requires 0 <= i < |xs| => Build(StateMembers(xs[i]))));
    forall i | 0 <= i < |xs| { StateReads(xs[i]); }
  }

  lemma WorkflowFieldsRead(xs: seq<WorkflowField>)
    ensures ReadWorkflowFields(OfWorkflowFields(xs)) == xs
    ensures Empty(OfWorkflowFields(xs)) <==> xs == []
    ensures ReadWorkflowFields(Null) == []
  {
    hide ReadWorkflowField, WorkflowFieldMembers, Build, TypeOf, TypeName;
    ObjectsRead(seq(|xs|, i requires 0 <= i < |xs| => Build(WorkflowFieldMembers(xs[i]))));
    forall i | 0 <= i < |xs| { WorkflowFieldReads(xs[i]); }
  }

  lemma TransitionsRead(xs: seq<Transition>)
    ensures ReadTransitions(OfTransitions(xs)) == xs && OfTransitions(xs).Arr?
  {
    hide ReadTransition, TransitionMembers, Build;
    ObjectsRead(seq(|xs|, i requires 0 <= i < |xs| => Build(TransitionMembers(xs[i]))));
    forall i | 0 <= i < |xs| { TransitionReads(xs[i]); }
  }

  lemma WorkflowKeysDiffer(w: Workflow)
    ensures DistinctKeys(WorkflowMembers(w))
    ensures var ms := WorkflowMembers(w);
            ms[0].key == "slug" && ms[1].key == "title" && ms[2].key == "initial" && ms[3].key == "states" &&
            ms[4].key == "fields" &&
            ms[5].key == "onSubmit" && ms[6].key == "transitions"
  {
    hide OfStates, OfWorkflowFields, OfActions, OfTransitions;
  }

  /** Every workflow survives the round trip. */
  lemma WorkflowReadsBack(w: Workflow)
    ensures WorkflowFromDict(WorkflowToDict(w)) == w
  {
    hide Build, OfStates, OfWorkflowFields, OfActions, OfTransitions, ReadStates, ReadWorkflowFields, ReadActions,
         ReadTransitions, DistinctKeys;
    var ms := WorkflowMembers(w);
    WorkflowKeysDiffer(w);
    forall i | 0 <= i < 7 { BuildReads(ms, i); }
    if w.states.Some? { StatesRead(w.states.value); }
    if w.transitions.Some? { TransitionsRead(w.transitions.value); }
    WorkflowFieldsRead(w.fields);
    ActionsRead(w.onSubmit);
  }
}
