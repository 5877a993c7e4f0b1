/** Which members the document of a definition has: some are always written, the others if there is something to
    write. */
module DocumentMembers {
  import opened Common
  import opened DefinitionJson
  import opened Definitions
  import opened JsonValues

  lemma ChoiceDocument(o: Choice)
    ensures var d := Build(ChoiceMembers(o));
            d.Keys <= {"value", "label"} && "value" in d && "label" in d
  {
    hide Build;
    var ms := ChoiceMembers(o);
    assert ms[0].key == "value" && ms[1].key == "label";
    BuildKeys(ms);
    forall i | 0 <= i < |ms| { BuildReads(ms, i); }
  }

  lemma ValidationDocument(v: Validation)
    ensures var d := Build(ValidationMembers(v));
            d.Keys <= {"minLength", "maxLength", "pattern", "min", "max"} &&
            ("minLength" in d <==> v.minLength.Some?) && ("maxLength" in d <==> v.maxLength.Some?) &&
            ("pattern" in d <==> v.pattern != "") && ("min" in d <==> v.min.Some?) && ("max" in d <==> v.max.Some?)
  {
    hide Build;
    var ms := ValidationMembers(v);
    assert ms[0].key == "minLength" && ms[1].key == "maxLength" && ms[2].key == "pattern" && ms[3].key == "min" &&
           ms[4].key == "max";
    BuildKeys(ms);
    forall i | 0 <= i < |ms| { BuildReads(ms, i); }
  }

  lemma ConditionDocument(c: Condition)
    ensures var d := Build(ConditionMembers(c));
            d.Keys <= {"field", "equals", "notEquals", "in"} && "field" in d &&
            ("equals" in d <==> c.equals != Null) && ("notEquals" in d <==> c.notEquals != Null) &&
            ("in" in d <==> c.oneOf.Some? && c.oneOf.value != [])
  {
    hide Build;
    var ms := ConditionMembers(c);
    assert ms[0].key == "field" && ms[1].key == "equals" && ms[2].key == "notEquals" && ms[3].key == "in";
    BuildKeys(ms);
    forall i | 0 <= i < |ms| { BuildReads(ms, i); }
  }

  lemma FieldDocument(f: Field)
    ensures var d := Build(FieldMembers(f));
            d.Keys <= {"key", "type", "label", "help", "placeholder", "required", "options", "validation", "showIf"} &&
            "key" in d && "type" in d && "label" in d && ("help" in d <==> f.help != "") &&
            ("placeholder" in d <==> f.placeholder != "") && ("required" in d <==> f.required) &&
            ("options" in d <==> f.options != []) && ("validation" in d <==> f.validation.Some?) &&
            ("showIf" in d <==> f.showIf.Some?)
  {
    hide Build, OfChoices, TypeName, DistinctKeys, ValidationMembers, ConditionMembers, Written;
    var ms := FieldMembers(f);
    FieldKeysDiffer(f);
    FieldMembersWritten(f);
    BuildKeys(ms);
    forall i | 0 <= i < |ms| { BuildReads(ms, i); }
  }

  lemma FieldMembersWritten(f: Field)
    ensures var ms := FieldMembers(f);
            |ms| == 9 && Written(ms[0]) && Written(ms[1]) && Written(ms[2]) && (Written(ms[3]) <==> f.help != "") &&
            (Written(ms[4]) <==> f.placeholder != "") && (Written(ms[5]) <==> f.required) &&
            (Written(ms[6]) <==> f.options != []) && (Written(ms[7]) <==> f.validation.Some?) &&
            (Written(ms[8]) <==> f.showIf.Some?)
  {
    hide Build, OfChoices, TypeName, ValidationMembers, ConditionMembers;
    ChoicesRead(f.options);
  }

  lemma SettingsDocument(s: FormSettings)
    ensures var d := Build(SettingsMembers(s));
            d.Keys <= {"public", "submitLabel", "confirmationMessage"} && "public" in d &&
            ("submitLabel" in d <==> s.submitLabel != "") &&
            ("confirmationMessage" in d <==> s.confirmationMessage != "")
  {
    hide Build;
    var ms := SettingsMembers(s);
    assert ms[0].key == "public" && ms[1].key == "submitLabel" && ms[2].key == "confirmationMessage";
    BuildKeys(ms);
    forall i | 0 <= i < |ms| { BuildReads(ms, i); }
  }

  lemma FormDocument(f: Form)
    ensures var d := Build(FormMembers(f));
            d.Keys <= {"slug", "title", "description", "workflow", "settings", "fields"} && "slug" in d &&
            "title" in d && "settings" in d && "fields" in d && ("description" in d <==> f.description != "") &&
            ("workflow" in d <==> f.workflow != "")
  {
    hide Build, OfFields, DistinctKeys, SettingsMembers;
    var ms := FormMembers(f);
    FormKeysDiffer(f);
    assert ms[0].key == "slug" && ms[1].key == "title" && ms[2].key == "description" && ms[3].key == "workflow" &&
           ms[4].key == "settings" && ms[5].key == "fields";
    BuildKeys(ms);
    forall i | 0 <= i < |ms| { BuildReads(ms, i); }
  }

  lemma StateDocument(s: State)
    ensures var d := Build(StateMembers(s));
            d.Keys <= {"key", "label", "color", "terminal"} && "key" in d && "label" in d &&
            ("color" in d <==> s.color != "") && ("terminal" in d <==> s.terminal)
  {
    hide Build;
    var ms := StateMembers(s);
    assert ms[0].key == "key" && ms[1].key == "label" && ms[2].key == "color" && ms[3].key == "terminal";
    BuildKeys(ms);
    forall i | 0 <= i < |ms| { BuildReads(ms, i); }
  }

  lemma ColumnDocument(f: WorkflowField)
    ensures var d := Build(WorkflowFieldMembers(f));
            d.Keys <= {"key", "type", "label", "options"} && "key" in d && "type" in d && "label" in d &&
            ("options" in d <==> f.options != [])
  {
    hide Build, OfChoices, TypeName;
    var ms := WorkflowFieldMembers(f);
    ChoicesRead(f.options);
    assert ms[0].key == "key" && ms[1].key == "type" && ms[2].key == "label" && ms[3].key == "options";
    BuildKeys(ms);
    forall i | 0 <= i < |ms| { BuildReads(ms, i); }
  }

  lemma GuardDocument(g: Guard)
    ensures var d := Build(GuardMembers(g));
            d.Keys <= {"roles", "requireFields"} && ("roles" in d <==> g.roles != []) &&
            ("requireFields" in d <==> g.requireFields != [])
  {
    hide Build, OfStrings;
    var ms := GuardMembers(g);
    EmptyStrings(g.roles);
    EmptyStrings(g.requireFields);
    assert ms[0].key == "roles" && ms[1].key == "requireFields";
    BuildKeys(ms);
    forall i | 0 <= i < |ms| { BuildReads(ms, i); }
  }

  lemma ActionDocument(a: Action)
    ensures var d := Build(ActionMembers(a));
            d.Keys <= {"type", "url", "to", "subject", "body", "user", "role"} && "type" in d &&
            ("url" in d <==> a.url != "") && ("to" in d <==> a.to != "") && ("subject" in d <==> a.subject != "") &&
            ("body" in d <==> a.body != "") && ("user" in d <==> a.user != "") && ("role" in d <==> a.role != "")
  {
    hide Build, ActionName, DistinctKeys;
    var ms := ActionMembers(a);
    ActionKeysDiffer(a);
    assert ms[0].key == "type" && ms[1].key == "url" && ms[2].key == "to" && ms[3].key == "subject" &&
           ms[4].key == "body" && ms[5].key == "user" && ms[6].key == "role";
    BuildKeys(ms);
    forall i | 0 <= i < |ms| { BuildReads(ms, i); }
  }

  lemma TransitionDocument(t: Transition)
    ensures var d := Build(TransitionMembers(t));
            d.Keys <= {"key", "label", "from", "to", "guard", "actions"} && "key" in d && "label" in d &&
            "from" in d && "to" in d && "guard" in d && ("actions" in d <==> t.actions != [])
  {
    hide Build, OfActions, OfStrings, GuardMembers, DistinctKeys;
    var ms := TransitionMembers(t);
    TransitionKeysDiffer(t);
    ActionsRead(t.actions);
    assert ms[0].key == "key" && ms[1].key == "label" && ms[2].key == "from" && ms[3].key == "to" &&
           ms[4].key == "guard" && ms[5].key == "actions";
    BuildKeys(ms);
    forall i | 0 <= i < |ms| { BuildReads(ms, i); }
  }

  lemma WorkflowDocument(w: Workflow)
    ensures var d := Build(WorkflowMembers(w));
            d.Keys <= {"slug", "title", "initial", "states", "fields", "onSubmit", "transitions"} && "slug" in d &&
            "title" in d && "initial" in d && "states" in d && "transitions" in d &&
            ("fields" in d <==> w.fields != []) && ("onSubmit" in d <==> w.onSubmit != [])
  {
    hide Build, OfStates, OfWorkflowFields, OfActions, OfTransitions, DistinctKeys;
    var ms := WorkflowMembers(w);
    WorkflowKeysDiffer(w);
    WorkflowFieldsRead(w.fields);
    ActionsRead(w.onSubmit);
    assert ms[0].key == "slug" && ms[1].key == "title" && ms[2].key == "initial" && ms[3].key == "states" &&
           ms[4].key == "fields" && ms[5].key == "onSubmit" && ms[6].key == "transitions";
    BuildKeys(ms);
    forall i | 0 <= i < |ms| { BuildReads(ms, i); }
  }
}
