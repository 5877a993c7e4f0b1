/** Form and workflow definitions. The constructors' parameters follow the dataclasses field by field. */
module Definitions {
  import opened Common
  import opened JsonValues

  datatype AnyFieldType =
    | Text | TextArea | Email | Number | Select | MultiSelect | Checkbox | Date | Url
    | UnknownType(name: string)

  predicate IsFieldTypeName(name: string) {
    name == "text" || name == "textarea" || name == "email" || name == "number" || name == "select" ||
    name == "multiselect" || name == "checkbox" || name == "date" || name == "url"
  }

  /** A field type by its name; a known name is never an unknown type. */
  type FieldType = t: AnyFieldType | !t.UnknownType? || !IsFieldTypeName(t.name) witness Text

  datatype Choice = Choice(value: string, caption: string)

  datatype Validation = Validation(
    minLength: Option<int>, maxLength: Option<int>, pattern: string, min: Option<real>, max: Option<real>)

  /** Null means that the operand is not set. */
  datatype Condition = Condition(field: string, equals: Json, notEquals: Json, oneOf: Option<seq<Json>>)

  datatype Field = Field(
    key: string, kind: FieldType, caption: string, help: string, placeholder: string, required: bool,
    options: seq<Choice>, validation: Option<Validation>, showIf: Option<Condition>)

  datatype FormSettings = FormSettings(isPublic: bool, submitLabel: string, confirmationMessage: string)

  datatype Form = Form(
    slug: string, title: string, description: string, workflow: string, settings: FormSettings,
    fields: Option<seq<Field>>)
  {
    function FieldList(): seq<Field> {
      if fields.Some? then fields.value else []
    }
  }

  datatype State = State(key: string, caption: string, color: string, terminal: bool)

  datatype WorkflowField = WorkflowField(key: string, kind: FieldType, caption: string, options: seq<Choice>)

  datatype Guard = Guard(roles: seq<string>, requireFields: seq<string>)

  datatype AnyActionType = Webhook | SendEmail | Assign | UnknownAction(name: string)

  predicate IsActionTypeName(name: string) {
    name == "webhook" || name == "email" || name == "assign"
  }

  type ActionType = t: AnyActionType | !t.UnknownAction? || !IsActionTypeName(t.name) witness Webhook

  datatype Action = Action(
    kind: ActionType, url: string, to: string, subject: string, body: string, user: string, role: string)

  datatype Transition = Transition(
    key: string, caption: string, from: Option<seq<string>>, to: string, guard: Guard, actions: seq<Action>)
  {
    function Sources(): seq<string> {
      if from.Some? then from.value else []
    }
  }

  datatype Workflow = Workflow(
    slug: string, title: string, initial: string, states: Option<seq<State>>, fields: seq<WorkflowField>,
    onSubmit: seq<Action>, transitions: Option<seq<Transition>>)
  {
    function StateList(): seq<State> {
      if states.Some? then states.value else []
    }

    function TransitionList(): seq<Transition> {
      if transitions.Some? then transitions.value else []
    }

    function FindTransition(key: string): Option<Transition> {
      FirstTransition(TransitionList(), key)
    }

    function FindState(key: string): Option<State> {
      FirstState(StateList(), key)
    }

    function FindField(key: string): Option<WorkflowField> {
      FirstField(fields, key)
    }
  }

  function FirstTransition(ts: seq<Transition>, key: string): (r: Option<Transition>)
    ensures r.Some? <==> exists i :: 0 <= i < |ts| && ts[i].key == key
    ensures r.Some? ==> r.value in ts && r.value.key == key
  {
    if ts == [] then None else if ts[0].key == key then Some(ts[0]) else FirstTransition(ts[1..], key)
  }

  function FirstState(ss: seq<State>, key: string): (r: Option<State>)
    ensures r.Some? <==> exists i :: 0 <= i < |ss| && ss[i].key == key
    ensures r.Some? ==> r.value in ss && r.value.key == key
  {
    if ss == [] then None else if ss[0].key == key then Some(ss[0]) else FirstState(ss[1..], key)
  }

  function FirstField(fs: seq<WorkflowField>, key: string): (r: Option<WorkflowField>)
    ensures r.Some? <==> exists i :: 0 <= i < |fs| && fs[i].key == key
    ensures r.Some? ==> r.value in fs && r.value.key == key
  {
    if fs == [] then None else if fs[0].key == key then Some(fs[0]) else FirstField(fs[1..], key)
  }
}
