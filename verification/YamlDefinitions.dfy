/** What is pulled is what can be pushed: when a definition's canonical YAML is parsed to the same definition. */
module YamlDefinitions {
  import opened Common
  import opened DefinitionJson
  import opened DefinitionRules
  import opened Definitions
  import opened JsonValues
  import opened Ordering
  import opened YamlEmitter
  import opened YamlReader
  import opened YamlRoundTrips
  import opened YamlScalars
  import T = Text

  function FormIn(ld: Loader, text: string): Option<Form> {
    var doc := Parse(ld, text);
    if doc.Some? then Some(FormFromDict(doc.value)) else None
  }

  function WorkflowIn(ld: Loader, text: string): Option<Workflow> {
    var doc := Parse(ld, text);
    if doc.Some? then Some(WorkflowFromDict(doc.value)) else None
  }

  /** The keys of the definition language. */
  const DEFINITION_KEYS: set<string> := {
    "slug", "key", "value", "type", "title", "label", "description", "workflow", "initial", "settings", "public",
    "submitLabel", "confirmationMessage", "required", "placeholder", "help", "options", "validation", "minLength",
    "maxLength", "pattern", "min", "max", "showIf", "field", "equals", "notEquals", "in", "from", "to", "guard",
    "roles", "requireFields", "actions", "url", "subject", "body", "user", "role", "color", "terminal", "states",
    "fields", "onSubmit", "transitions"}

  /** Writer and reader as they are, as far as this matters here: the keys of the definition language are read as
      what they are written for. */
  ghost predicate Usual(sp: Spelling, ld: Loader) {
    GoodSpelling(sp) && GoodLoader(ld) && forall k :: k in DEFINITION_KEYS ==> SeenKey(sp, ld, k) == Some(k)
  }

  // ---- a record that is read as it was has been seen as it was -----------------------------------------------

  predicate WellKeyed(ms: seq<Member>) {
    DistinctKeys(ms) && forall i :: 0 <= i < |ms| ==> ms[i].key in DEFINITION_KEYS
  }

  /** What is seen of a member. */
  ghost predicate MemberSeen(sp: Spelling, ld: Loader, m: Member, d: map<string, Json>) {
    if Written(m) then m.key in d && Seen(sp, ld, m.value) == Some(d[m.key]) else m.key !in d
  }

  ghost predicate MemberSame(m: Member, d: map<string, Json>) {
    Written(m) ==> m.key in d && d[m.key] == m.value
  }

  lemma ObjectSeen(sp: Spelling, ld: Loader, d: map<string, Json>, x: Json)
    requires Usual(sp, ld) && (forall k :: k in d ==> k in DEFINITION_KEYS) && Seen(sp, ld, Obj(d)) == Some(x)
    ensures x.Obj? && x.members.Keys == d.Keys && forall k :: k in d ==> Seen(sp, ld, d[k]) == Some(x.members[k])
  {
    hide SeenKey, SeenEntries, Sorted, GoodSpelling, GoodLoader, WrittenPlain;
    var v := Obj(d);
    if !IsLeaf(v) {
      SortedKeys(v);
      OwnKeysAreSeen(sp, ld, v, Sorted(KEY_ORDER, d.Keys));
    }
  }

  lemma RecordSeen(sp: Spelling, ld: Loader, ms: seq<Member>, x: Json)
    requires Usual(sp, ld) && WellKeyed(ms) && Seen(sp, ld, Obj(Build(ms))) == Some(x)
    ensures x.Obj? && x.members.Keys == Build(ms).Keys
    ensures forall i :: 0 <= i < |ms| ==> MemberSeen(sp, ld, ms[i], x.members)
  {
    hide Seen, Usual, Build;
    KnownKeys(ms);
    ObjectSeen(sp, ld, Build(ms), x);
    forall i | 0 <= i < |ms| ensures MemberSeen(sp, ld, ms[i], x.members) {
      BuildReads(ms, i);
    }
  }

  lemma KnownKeys(ms: seq<Member>)
    requires WellKeyed(ms)
    ensures forall k :: k in Build(ms) ==> k in DEFINITION_KEYS
  {
    hide Build;
    BuildKeys(ms);
  }

  lemma RecordSame(ms: seq<Member>, d: map<string, Json>)
    requires DistinctKeys(ms) && d.Keys == Build(ms).Keys && forall i :: 0 <= i < |ms| ==> MemberSame(ms[i], d)
    ensures d == Build(ms)
  {
    hide Build;
    BuildKeys(ms);
    forall k | k in Build(ms) ensures d[k] == Build(ms)[k] {
      var i :| 0 <= i < |ms| && ms[i].key == k;
      BuildReads(ms, i);
      assert MemberSame(ms[i], d);
    }
  }

  lemma StringMember(sp: Spelling, ld: Loader, m: Member, s: string, d: map<string, Json>)
    requires Usual(sp, ld) && MemberSeen(sp, ld, m, d) && m.value == Str(s) && AsStr(Get(d, m.key)) == s
    ensures MemberSame(m, d)
  {
    hide SeenKey, SeenEntries, SeenItems, GoodLoader, Analyze;
  }

  lemma BoolMember(sp: Spelling, ld: Loader, m: Member, b: bool, d: map<string, Json>)
    requires Usual(sp, ld) && MemberSeen(sp, ld, m, d) && m.value == Bool(b)
    ensures MemberSame(m, d)
  {
    hide SeenKey, SeenEntries, SeenItems, GoodSpelling, Analyze;
    WordsArePlain();
  }

  lemma NullMember(sp: Spelling, ld: Loader, m: Member, d: map<string, Json>)
    requires Usual(sp, ld) && MemberSeen(sp, ld, m, d) && m.value.Null?
    ensures MemberSame(m, d)
  {
    hide SeenKey, SeenEntries, SeenItems, GoodSpelling, Analyze;
    WordsArePlain();
  }

  lemma RealMember(sp: Spelling, ld: Loader, m: Member, n: Option<real>, d: map<string, Json>)
    requires Usual(sp, ld) && MemberSeen(sp, ld, m, d) && m.value == OfReal(n) && AsReal(Get(d, m.key)) == n
    ensures MemberSame(m, d)
  {
    hide Seen;
    if n.None? { NullMember(sp, ld, m, d); }
  }

  lemma IntMember(sp: Spelling, ld: Loader, m: Member, n: Option<int>, d: map<string, Json>)
    requires Usual(sp, ld) && MemberSeen(sp, ld, m, d) && m.value == OfInt(n) && AsInt(Get(d, m.key)) == n
    ensures MemberSame(m, d)
  {
    hide Seen;
    if n.None? { NullMember(sp, ld, m, d); }
  }

  function Builds(mss: seq<seq<Member>>): seq<map<string, Json>> {
    seq(|mss|, i requires 0 <= i < |mss| => Build(mss[i]))
  }

  /** A list of records is seen as a list of objects, record by record. */
  lemma RecordsSeen(sp: Spelling, ld: Loader, mss: seq<seq<Member>>, x: Json)
    requires Usual(sp, ld) && (forall i :: 0 <= i < |mss| ==> WellKeyed(mss[i]))
    requires Seen(sp, ld, OfObjects(Builds(mss))) == Some(x)
    ensures x.Arr? && |x.items| == |mss| && |Objects(x.items)| == |mss|
    ensures forall i :: 0 <= i < |mss| ==>
              Seen(sp, ld, Obj(Build(mss[i]))) == Some(x.items[i]) && x.items[i] == Obj(Objects(x.items)[i])
  {
    hide Usual, Build, WellKeyed, Objects;
    var v := OfObjects(Builds(mss));
    ItemsAreSeen(sp, ld, v, 0);
    ListSeenAs(sp, ld, v, x);
    forall i | 0 <= i < |mss| ensures x.items[i].Obj? && Seen(sp, ld, Obj(Build(mss[i]))) == Some(x.items[i]) {
      assert v.items[i] == Obj(Build(mss[i]));
      RecordSeen(sp, ld, mss[i], x.items[i]);
    }
    AllObjects(x.items);
  }

  lemma ListSeenAs(sp: Spelling, ld: Loader, v: Json, x: Json)
    requires v.Arr? && Seen(sp, ld, v) == Some(x)
    ensures x.Arr? && |x.items| == |v.items| &&
            forall i :: 0 <= i < |v.items| ==> Seen(sp, ld, v.items[i]) == Some(x.items[i])
  {
    hide SeenItems;
    ItemsAreSeen(sp, ld, v, 0);
  }

  lemma {:induction false} AllObjects(items: seq<Json>)
    requires forall i :: 0 <= i < |items| ==> items[i].Obj?
    ensures |Objects(items)| == |items| && forall i :: 0 <= i < |items| ==> items[i] == Obj(Objects(items)[i])
  {
    if items != [] {
      AllObjects(items[1..]);
      assert forall i :: 0 < i < |items| ==> items[i] == items[1..][i - 1];
    }
  }

  lemma {:induction false} AllStrings(items: seq<Json>, ss: seq<string>)
    requires Strings(items) == ss && |ss| == |items|
    ensures Arr(items) == OfStrings(ss)
  {
    if items != [] {
      FewerStrings(items[1..]);
      AllStrings(items[1..], ss[1..]);
      assert items == [items[0]] + items[1..];
      assert OfStrings(ss).items == [Str(ss[0])] + OfStrings(ss[1..]).items;
    }
  }

  lemma {:induction false} FewerStrings(items: seq<Json>)
    ensures |Strings(items)| <= |items|
  {
    if items != [] { FewerStrings(items[1..]); }
  }

  lemma StringsMember(sp: Spelling, ld: Loader, m: Member, ss: seq<string>, d: map<string, Json>)
    requires MemberSeen(sp, ld, m, d) && m.value == OfStrings(ss) && Strings(AsItems(Get(d, m.key))) == ss
    ensures MemberSame(m, d)
  {
    hide Strings, OfStrings, SeenItems;
    if Written(m) {
      StringsAsList(ss);
      ListSeenAs(sp, ld, m.value, d[m.key]);
      AllStrings(d[m.key].items, ss);
    }
  }

  lemma StringsAsList(ss: seq<string>)
    ensures OfStrings(ss).Arr? && |OfStrings(ss).items| == |ss|
  {
  }

  lemma RecordsSame(mss: seq<seq<Member>>, x: Json)
    requires x.Arr? && |x.items| == |mss| && forall i :: 0 <= i < |mss| ==> x.items[i] == Obj(Build(mss[i]))
    ensures x == OfObjects(Builds(mss))
  {
    hide Build;
    assert x.items == OfObjects(Builds(mss)).items;
  }

  lemma Keyed(ms: seq<Member>)
    requires WellKeyed(ms)
    ensures DistinctKeys(ms)
  {
  }

  lemma ChoiceKeyed(o: Choice)
    ensures WellKeyed(ChoiceMembers(o))
  {
  }

  lemma ChoiceSame(sp: Spelling, ld: Loader, o: Choice, x: Json)
    requires Usual(sp, ld) && Seen(sp, ld, Obj(Build(ChoiceMembers(o)))) == Some(x) && x.Obj?
    requires ReadChoice(x.members) == o
    ensures x == Obj(Build(ChoiceMembers(o)))
  {
    hide Build, Seen, Usual, WellKeyed, MemberSeen, MemberSame;
    var ms, d := ChoiceMembers(o), x.members;
    ChoiceKeyed(o);
    RecordSeen(sp, ld, ms, x);
    StringMember(sp, ld, ms[0], o.value, d);
    StringMember(sp, ld, ms[1], o.caption, d);
    Keyed(ms);
    RecordSame(ms, d);
  }

  lemma ChoicesSame(sp: Spelling, ld: Loader, xs: seq<Choice>, x: Json)
    requires Usual(sp, ld) && Seen(sp, ld, OfChoices(xs)) == Some(x)
    ensures x.Arr? && (ReadChoices(x) == xs ==> x == OfChoices(xs))
  {
    hide Build, Seen, Usual, WellKeyed, ChoiceMembers, ReadChoice, Objects;
    var mss := seq(|xs|, i requires 0 <= i < |xs| => ChoiceMembers(xs[i]));
    assert OfChoices(xs) == OfObjects(Builds(mss)) by {
      assert OfChoices(xs).items == OfObjects(Builds(mss)).items;
    }
    forall i | 0 <= i < |xs| ensures WellKeyed(mss[i]) { ChoiceKeyed(xs[i]); }
    RecordsSeen(sp, ld, mss, x);
    if ReadChoices(x) == xs {
      forall i | 0 <= i < |xs| ensures x.items[i] == Obj(Build(mss[i])) {
        assert ReadChoices(x)[i] == ReadChoice(Objects(x.items)[i]);
        ChoiceSame(sp, ld, xs[i], x.items[i]);
      }
      RecordsSame(mss, x);
    }
  }

  lemma ValidationKeyed(v: Validation)
    ensures WellKeyed(ValidationMembers(v))
  {
  }

  lemma ValidationSame(sp: Spelling, ld: Loader, v: Validation, x: Json)
    requires Usual(sp, ld) && Seen(sp, ld, Obj(Build(ValidationMembers(v)))) == Some(x) && x.Obj?
    requires ReadValidation(x.members) == v
    ensures x == Obj(Build(ValidationMembers(v)))
  {
    hide Build, Seen, Usual, WellKeyed, MemberSeen, MemberSame;
    var ms, d := ValidationMembers(v), x.members;
    ValidationKeyed(v);
    RecordSeen(sp, ld, ms, x);
    IntMember(sp, ld, ms[0], v.minLength, d);
    IntMember(sp, ld, ms[1], v.maxLength, d);
    StringMember(sp, ld, ms[2], v.pattern, d);
    RealMember(sp, ld, ms[3], v.min, d);
    RealMember(sp, ld, ms[4], v.max, d);
    Keyed(ms);
    RecordSame(ms, d);
  }

  lemma ConditionKeyed(c: Condition)
    ensures WellKeyed(ConditionMembers(c))
  {
  }

  lemma ConditionSame(sp: Spelling, ld: Loader, c: Condition, x: Json)
    requires Usual(sp, ld) && Seen(sp, ld, Obj(Build(ConditionMembers(c)))) == Some(x) && x.Obj?
    requires ReadCondition(x.members) == c
    ensures x == Obj(Build(ConditionMembers(c)))
  {
    hide Build, Seen, Usual, WellKeyed, MemberSeen, MemberSame;
    var ms, d := ConditionMembers(c), x.members;
    ConditionKeyed(c);
    RecordSeen(sp, ld, ms, x);
    StringMember(sp, ld, ms[0], c.field, d);
    RawMember(sp, ld, ms[1], d);
    RawMember(sp, ld, ms[2], d);
    AlternativesMember(sp, ld, c, ms[3], d);
    Keyed(ms);
    RecordSame(ms, d);
  }

  lemma RawMember(sp: Spelling, ld: Loader, m: Member, d: map<string, Json>)
    requires MemberSeen(sp, ld, m, d) && m.rule.IfSet? && Get(d, m.key) == m.value
    ensures MemberSame(m, d)
  {
    hide Seen;
  }

  lemma AlternativesMember(sp: Spelling, ld: Loader, c: Condition, m: Member, d: map<string, Json>)
    requires MemberSeen(sp, ld, m, d) && m == Member("in", Arr(if c.oneOf.Some? then c.oneOf.value else []), IfNotEmpty)
    requires (if Get(d, "in").Arr? then Some(Get(d, "in").items) else None) == c.oneOf
    ensures MemberSame(m, d)
  {
    hide Seen;
  }

  lemma TypesAreNamed(name: string, t: FieldType, a: ActionType)
    ensures TypeOf(name) == t ==> name == TypeName(t)
    ensures ActionOf(name) == a ==> name == ActionName(a)
  {
  }

  lemma FieldKeyed(f: Field)
    ensures WellKeyed(FieldMembers(f))
  {
    hide Build, OfChoices, ValidationMembers, ConditionMembers, TypeName;
    FieldKeysDiffer(f);
  }

  lemma FieldSame(sp: Spelling, ld: Loader, f: Field, x: Json)
    requires Usual(sp, ld) && Seen(sp, ld, Obj(Build(FieldMembers(f)))) == Some(x) && x.Obj?
    requires ReadField(x.members) == f
    ensures x == Obj(Build(FieldMembers(f)))
  {
    hide Build, Seen, Usual, WellKeyed, MemberSeen, MemberSame, OfChoices, ReadChoices, ValidationMembers,
         ReadValidation, ConditionMembers, ReadCondition, TypeName, TypeOf, DistinctKeys;
    var ms, d := FieldMembers(f), x.members;
    FieldKeyed(f);
    RecordSeen(sp, ld, ms, x);
    TypesAreNamed(AsStr(Get(d, "type")), f.kind, Webhook);
    StringMember(sp, ld, ms[0], f.key, d);
    StringMember(sp, ld, ms[1], TypeName(f.kind), d);
    StringMember(sp, ld, ms[2], f.caption, d);
    StringMember(sp, ld, ms[3], f.help, d);
    StringMember(sp, ld, ms[4], f.placeholder, d);
    BoolMember(sp, ld, ms[5], f.required, d);
    ChoicesMember(sp, ld, ms[6], f.options, d);
    ValidationMember(sp, ld, ms[7], f.validation, d);
    ConditionMember(sp, ld, ms[8], f.showIf, d);
    Keyed(ms);
    RecordSame(ms, d);
  }

  lemma ChoicesMember(sp: Spelling, ld: Loader, m: Member, os: seq<Choice>, d: map<string, Json>)
    requires Usual(sp, ld) && MemberSeen(sp, ld, m, d) && m.value == OfChoices(os) && ReadChoices(Get(d, m.key)) == os
    ensures MemberSame(m, d)
  {
    hide Seen, Usual, OfChoices, ReadChoices;
    if Written(m) { ChoicesSame(sp, ld, os, d[m.key]); }
  }

  lemma ValidationMember(sp: Spelling, ld: Loader, m: Member, v: Option<Validation>, d: map<string, Json>)
    requires Usual(sp, ld) && MemberSeen(sp, ld, m, d) && m.rule.IfSet?
    requires m.value == if v.Some? then Obj(Build(ValidationMembers(v.value))) else Null
    requires v == if Get(d, m.key).Obj? then Some(ReadValidation(Get(d, m.key).members)) else None
    ensures MemberSame(m, d)
  {
    hide Seen, Usual, Build, ValidationMembers, ReadValidation;
    if v.Some? { ValidationSame(sp, ld, v.value, d[m.key]); }
  }

  lemma ConditionMember(sp: Spelling, ld: Loader, m: Member, c: Option<Condition>, d: map<string, Json>)
    requires Usual(sp, ld) && MemberSeen(sp, ld, m, d) && m.rule.IfSet?
    requires m.value == if c.Some? then Obj(Build(ConditionMembers(c.value))) else Null
    requires c == if Get(d, m.key).Obj? then Some(ReadCondition(Get(d, m.key).members)) else None
    ensures MemberSame(m, d)
  {
    hide Seen, Usual, Build, ConditionMembers, ReadCondition;
    if c.Some? { ConditionSame(sp, ld, c.value, d[m.key]); }
  }

  lemma FieldsSame(sp: Spelling, ld: Loader, xs: seq<Field>, x: Json)
    requires Usual(sp, ld) && Seen(sp, ld, OfFields(xs)) == Some(x)
    ensures x.Arr? && (ReadFields(x) == xs ==> x == OfFields(xs))
  {
    hide Build, Seen, Usual, WellKeyed, FieldMembers, ReadField, Objects;
    var mss := seq(|xs|, i requires 0 <= i < |xs| => FieldMembers(xs[i]));
    assert OfFields(xs) == OfObjects(Builds(mss)) by {
      assert OfFields(xs).items == OfObjects(Builds(mss)).items;
    }
    forall i | 0 <= i < |xs| ensures WellKeyed(mss[i]) { FieldKeyed(xs[i]); }
    RecordsSeen(sp, ld, mss, x);
    if ReadFields(x) == xs {
      forall i | 0 <= i < |xs| ensures x.items[i] == Obj(Build(mss[i])) {
        assert ReadFields(x)[i] == ReadField(Objects(x.items)[i]);
        FieldSame(sp, ld, xs[i], x.items[i]);
      }
      RecordsSame(mss, x);
    }
  }

  lemma SettingsKeyed(s: FormSettings)
    ensures WellKeyed(SettingsMembers(s))
  {
  }

  lemma SettingsSame(sp: Spelling, ld: Loader, s: FormSettings, x: Json)
    requires Usual(sp, ld) && Seen(sp, ld, Obj(Build(SettingsMembers(s)))) == Some(x) && x.Obj?
    requires ReadSettings(x.members) == s
    ensures x == Obj(Build(SettingsMembers(s)))
  {
    hide Build, Seen, Usual, WellKeyed, MemberSeen, MemberSame;
    var ms, d := SettingsMembers(s), x.members;
    SettingsKeyed(s);
    RecordSeen(sp, ld, ms, x);
    BoolMember(sp, ld, ms[0], s.isPublic, d);
    StringMember(sp, ld, ms[1], s.submitLabel, d);
    StringMember(sp, ld, ms[2], s.confirmationMessage, d);
    Keyed(ms);
    RecordSame(ms, d);
  }

  lemma FormSame(sp: Spelling, ld: Loader, f: Form, x: Json)
    requires Usual(sp, ld) && Seen(sp, ld, FormToDict(f)) == Some(x) && FormFromDict(x) == f
    ensures x == FormToDict(f)
  {
    hide Build, Seen, Usual, WellKeyed, MemberSeen, MemberSame, OfFields, ReadFields, SettingsMembers, ReadSettings,
         DistinctKeys;
    var ms := FormMembers(f);
    FormKeyed(f);
    RecordSeen(sp, ld, ms, x);
    var d := x.members;
    StringMember(sp, ld, ms[0], f.slug, d);
    StringMember(sp, ld, ms[1], f.title, d);
    StringMember(sp, ld, ms[2], f.description, d);
    StringMember(sp, ld, ms[3], f.workflow, d);
    SettingsMember(sp, ld, ms[4], f.settings, d);
    FieldsMember(sp, ld, ms[5], f.fields, d);
    Keyed(ms);
    RecordSame(ms, d);
  }

  lemma FormKeyed(f: Form)
    ensures WellKeyed(FormMembers(f))
  {
    hide Build, OfFields, SettingsMembers;
    FormKeysDiffer(f);
  }

  lemma SettingsMember(sp: Spelling, ld: Loader, m: Member, s: FormSettings, d: map<string, Json>)
    requires Usual(sp, ld) && MemberSeen(sp, ld, m, d) && m.rule.Always? && m.value == Obj(Build(SettingsMembers(s)))
    requires Get(d, m.key).Obj? ==> ReadSettings(Get(d, m.key).members) == s
    ensures MemberSame(m, d)
  {
    hide Seen, Usual, Build, SettingsMembers, ReadSettings, WellKeyed;
    SettingsKeyed(s);
    RecordSeen(sp, ld, SettingsMembers(s), d[m.key]);
    SettingsSame(sp, ld, s, d[m.key]);
  }

  lemma FieldsMember(sp: Spelling, ld: Loader, m: Member, fs: Option<seq<Field>>, d: map<string, Json>)
    requires Usual(sp, ld) && MemberSeen(sp, ld, m, d) && m.rule.Always?
    requires m.value == if fs.None? then Null else OfFields(fs.value)
    requires fs == if Get(d, m.key).Arr? then Some(ReadFields(Get(d, m.key))) else None
    ensures MemberSame(m, d)
  {
    hide Seen, Usual, OfFields, ReadFields;
    if fs.None? { NullMember(sp, ld, m, d); } else { FieldsSame(sp, ld, fs.value, d[m.key]); }
  }

  // ---- workflows ------------------------------------------------------------------------------------------------

  lemma StateKeyed(s: State)
    ensures WellKeyed(StateMembers(s))
  {
  }

  lemma StateSame(sp: Spelling, ld: Loader, s: State, x: Json)
    requires Usual(sp, ld) && Seen(sp, ld, Obj(Build(StateMembers(s)))) == Some(x) && x.Obj?
    requires ReadState(x.members) == s
    ensures x == Obj(Build(StateMembers(s)))
  {
    hide Build, Seen, Usual, WellKeyed, MemberSeen, MemberSame;
    var ms, d := StateMembers(s), x.members;
    StateKeyed(s);
    RecordSeen(sp, ld, ms, x);
    StringMember(sp, ld, ms[0], s.key, d);
    StringMember(sp, ld, ms[1], s.caption, d);
    StringMember(sp, ld, ms[2], s.color, d);
    BoolMember(sp, ld, ms[3], s.terminal, d);
    Keyed(ms);
    RecordSame(ms, d);
  }

  lemma StatesSame(sp: Spelling, ld: Loader, xs: seq<State>, x: Json)
    requires Usual(sp, ld) && Seen(sp, ld, OfStates(xs)) == Some(x)
    ensures x.Arr? && (ReadStates(x) == xs ==> x == OfStates(xs))
  {
    hide Build, Seen, Usual, WellKeyed, StateMembers, ReadState, Objects;
    var mss := seq(|xs|, i requires 0 <= i < |xs| => StateMembers(xs[i]));
    assert OfStates(xs) == OfObjects(Builds(mss)) by {
      assert OfStates(xs).items == OfObjects(Builds(mss)).items;
    }
    forall i | 0 <= i < |xs| ensures WellKeyed(mss[i]) { StateKeyed(xs[i]); }
    RecordsSeen(sp, ld, mss, x);
    if ReadStates(x) == xs {
      forall i | 0 <= i < |xs| ensures x.items[i] == Obj(Build(mss[i])) {
        assert ReadStates(x)[i] == ReadState(Objects(x.items)[i]);
        StateSame(sp, ld, xs[i], x.items[i]);
      }
      RecordsSame(mss, x);
    }
  }

  lemma WorkflowFieldKeyed(f: WorkflowField)
    ensures WellKeyed(WorkflowFieldMembers(f))
  {
  }

  lemma WorkflowFieldSame(sp: Spelling, ld: Loader, f: WorkflowField, x: Json)
    requires Usual(sp, ld) && Seen(sp, ld, Obj(Build(WorkflowFieldMembers(f)))) == Some(x) && x.Obj?
    requires ReadWorkflowField(x.members) == f
    ensures x == Obj(Build(WorkflowFieldMembers(f)))
  {
    hide Build, Seen, Usual, WellKeyed, MemberSeen, MemberSame, OfChoices,
         ReadChoices, TypeName, TypeOf;
    var ms, d := WorkflowFieldMembers(f), x.members;
    WorkflowFieldKeyed(f);
    RecordSeen(sp, ld, ms, x);
    TypesAreNamed(AsStr(Get(d, "type")), f.kind, Webhook);
    StringMember(sp, ld, ms[0], f.key, d);
    StringMember(sp, ld, ms[1], TypeName(f.kind), d);
    StringMember(sp, ld, ms[2], f.caption, d);
    ChoicesMember(sp, ld, ms[3], f.options, d);
    Keyed(ms);
    RecordSame(ms, d);
  }

  lemma WorkflowFieldsSame(sp: Spelling, ld: Loader, xs: seq<WorkflowField>, x: Json)
    requires Usual(sp, ld) && Seen(sp, ld, OfWorkflowFields(xs)) == Some(x)
    ensures x.Arr? && (ReadWorkflowFields(x) == xs ==> x == OfWorkflowFields(xs))
  {
    hide Build, Seen, Usual, WellKeyed, WorkflowFieldMembers, ReadWorkflowField, Objects;
    var mss := seq(|xs|, i requires 0 <= i < |xs| => WorkflowFieldMembers(xs[i]));
    assert OfWorkflowFields(xs) == OfObjects(Builds(mss)) by {
      assert OfWorkflowFields(xs).items == OfObjects(Builds(mss)).items;
    }
    forall i | 0 <= i < |xs| ensures WellKeyed(mss[i]) { WorkflowFieldKeyed(xs[i]); }
    RecordsSeen(sp, ld, mss, x);
    if ReadWorkflowFields(x) == xs {
      forall i | 0 <= i < |xs| ensures x.items[i] == Obj(Build(mss[i])) {
        assert ReadWorkflowFields(x)[i] == ReadWorkflowField(Objects(x.items)[i]);
        WorkflowFieldSame(sp, ld, xs[i], x.items[i]);
      }
      RecordsSame(mss, x);
    }
  }

  lemma GuardKeyed(g: Guard)
    ensures WellKeyed(GuardMembers(g))
  {
  }

  lemma GuardSame(sp: Spelling, ld: Loader, g: Guard, x: Json)
    requires Usual(sp, ld) && Seen(sp, ld, Obj(Build(GuardMembers(g)))) == Some(x) && x.Obj?
    requires ReadGuard(x.members) == g
    ensures x == Obj(Build(GuardMembers(g)))
  {
    hide Build, Seen, Usual, WellKeyed, MemberSeen, MemberSame,
         OfStrings, Strings, AsItems;
    var ms, d := GuardMembers(g), x.members;
    GuardKeyed(g);
    RecordSeen(sp, ld, ms, x);
    StringsMember(sp, ld, ms[0], g.roles, d);
    StringsMember(sp, ld, ms[1], g.requireFields, d);
    Keyed(ms);
    RecordSame(ms, d);
  }

  lemma ActionKeyed(a: Action)
    ensures WellKeyed(ActionMembers(a))
  {
    hide ActionName;
    ActionKeysDiffer(a);
  }

  lemma ActionSame(sp: Spelling, ld: Loader, a: Action, x: Json)
    requires Usual(sp, ld) && Seen(sp, ld, Obj(Build(ActionMembers(a)))) == Some(x) && x.Obj?
    requires ReadAction(x.members) == a
    ensures x == Obj(Build(ActionMembers(a)))
  {
    hide Build, Seen, Usual, WellKeyed, MemberSeen, MemberSame,
         ActionName, ActionOf, DistinctKeys;
    var ms, d := ActionMembers(a), x.members;
    ActionKeyed(a);
    RecordSeen(sp, ld, ms, x);
    TypesAreNamed(AsStr(Get(d, "type")), Text, a.kind);
    StringMember(sp, ld, ms[0], ActionName(a.kind), d);
    StringMember(sp, ld, ms[1], a.url, d);
    StringMember(sp, ld, ms[2], a.to, d);
    StringMember(sp, ld, ms[3], a.subject, d);
    StringMember(sp, ld, ms[4], a.body, d);
    StringMember(sp, ld, ms[5], a.user, d);
    StringMember(sp, ld, ms[6], a.role, d);
    Keyed(ms);
    RecordSame(ms, d);
  }

  lemma ActionsSame(sp: Spelling, ld: Loader, xs: seq<Action>, x: Json)
    requires Usual(sp, ld) && Seen(sp, ld, OfActions(xs)) == Some(x)
    ensures x.Arr? && (ReadActions(x) == xs ==> x == OfActions(xs))
  {
    hide Build, Seen, Usual, WellKeyed, ActionMembers, ReadAction, Objects;
    var mss := seq(|xs|, i requires 0 <= i < |xs| => ActionMembers(xs[i]));
    assert OfActions(xs) == OfObjects(Builds(mss)) by {
      assert OfActions(xs).items == OfObjects(Builds(mss)).items;
    }
    forall i | 0 <= i < |xs| ensures WellKeyed(mss[i]) { ActionKeyed(xs[i]); }
    RecordsSeen(sp, ld, mss, x);
    if ReadActions(x) == xs {
      forall i | 0 <= i < |xs| ensures x.items[i] == Obj(Build(mss[i])) {
        assert ReadActions(x)[i] == ReadAction(Objects(x.items)[i]);
        ActionSame(sp, ld, xs[i], x.items[i]);
      }
      RecordsSame(mss, x);
    }
  }

  lemma TransitionKeyed(t: Transition)
    ensures WellKeyed(TransitionMembers(t))
  {
    hide Build, GuardMembers, OfActions, OfStrings;
    TransitionKeysDiffer(t);
  }

  lemma TransitionSame(sp: Spelling, ld: Loader, t: Transition, x: Json)
    requires Usual(sp, ld) && Seen(sp, ld, Obj(Build(TransitionMembers(t)))) == Some(x) && x.Obj?
    requires ReadTransition(x.members) == t
    ensures x == Obj(Build(TransitionMembers(t)))
  {
    hide Build, Seen, Usual, WellKeyed, MemberSeen, MemberSame,
         OfStrings, Strings, GuardMembers, ReadGuard, OfActions, ReadActions, DistinctKeys;
    var ms, d := TransitionMembers(t), x.members;
    TransitionKeyed(t);
    RecordSeen(sp, ld, ms, x);
    StringMember(sp, ld, ms[0], t.key, d);
    StringMember(sp, ld, ms[1], t.caption, d);
    SourcesMember(sp, ld, ms[2], t.from, d);
    StringMember(sp, ld, ms[3], t.to, d);
    GuardMember(sp, ld, ms[4], t.guard, d);
    ActionsMember(sp, ld, ms[5], t.actions, d);
    Keyed(ms);
    RecordSame(ms, d);
  }

  lemma SourcesMember(sp: Spelling, ld: Loader, m: Member, from: Option<seq<string>>, d: map<string, Json>)
    requires Usual(sp, ld) && MemberSeen(sp, ld, m, d) && m.rule.Always?
    requires m.value == if from.None? then Null else OfStrings(from.value)
    requires from == if Get(d, m.key).Arr? then Some(Strings(Get(d, m.key).items)) else None
    ensures MemberSame(m, d)
  {
    hide Seen, Usual, OfStrings, Strings;
    if from.None? { NullMember(sp, ld, m, d); } else { StringsMember(sp, ld, m, from.value, d); }
  }

  lemma GuardMember(sp: Spelling, ld: Loader, m: Member, g: Guard, d: map<string, Json>)
    requires Usual(sp, ld) && MemberSeen(sp, ld, m, d) && m.rule.Always? && m.value == Obj(Build(GuardMembers(g)))
    requires Get(d, m.key).Obj? ==> ReadGuard(Get(d, m.key).members) == g
    ensures MemberSame(m, d)
  {
    hide Seen, Usual, Build, GuardMembers, ReadGuard, WellKeyed;
    GuardKeyed(g);
    RecordSeen(sp, ld, GuardMembers(g), d[m.key]);
    GuardSame(sp, ld, g, d[m.key]);
  }

  lemma ActionsMember(sp: Spelling, ld: Loader, m: Member, xs: seq<Action>, d: map<string, Json>)
    requires Usual(sp, ld) && MemberSeen(sp, ld, m, d) && m.value == OfActions(xs) && ReadActions(Get(d, m.key)) == xs
    ensures MemberSame(m, d)
  {
    hide Seen, Usual, OfActions, ReadActions;
    if Written(m) { ActionsSame(sp, ld, xs, d[m.key]); }
  }

  lemma TransitionsSame(sp: Spelling, ld: Loader, xs: seq<Transition>, x: Json)
    requires Usual(sp, ld) && Seen(sp, ld, OfTransitions(xs)) == Some(x)
    ensures x.Arr? && (ReadTransitions(x) == xs ==> x == OfTransitions(xs))
  {
    hide Build, Seen, Usual, WellKeyed, TransitionMembers, ReadTransition, Objects;
    var mss := seq(|xs|, i requires 0 <= i < |xs| => TransitionMembers(xs[i]));
    assert OfTransitions(xs) == OfObjects(Builds(mss)) by {
      assert OfTransitions(xs).items == OfObjects(Builds(mss)).items;
    }
    forall i | 0 <= i < |xs| ensures WellKeyed(mss[i]) { TransitionKeyed(xs[i]); }
    RecordsSeen(sp, ld, mss, x);
    if ReadTransitions(x) == xs {
      forall i | 0 <= i < |xs| ensures x.items[i] == Obj(Build(mss[i])) {
        assert ReadTransitions(x)[i] == ReadTransition(Objects(x.items)[i]);
        TransitionSame(sp, ld, xs[i], x.items[i]);
      }
      RecordsSame(mss, x);
    }
  }

  lemma WorkflowKeyed(w: Workflow)
    ensures WellKeyed(WorkflowMembers(w))
  {
    hide OfStates, OfWorkflowFields, OfActions, OfTransitions;
    WorkflowKeysDiffer(w);
  }

  lemma WorkflowSame(sp: Spelling, ld: Loader, w: Workflow, x: Json)
    requires Usual(sp, ld) && Seen(sp, ld, WorkflowToDict(w)) == Some(x) && WorkflowFromDict(x) == w
    ensures x == WorkflowToDict(w)
  {
    hide Build, Seen, Usual, WellKeyed, MemberSeen, MemberSame, OfStates, OfWorkflowFields, OfActions, OfTransitions,
         ReadStates, ReadWorkflowFields, ReadActions, ReadTransitions, DistinctKeys;
    var ms := WorkflowMembers(w);
    WorkflowKeyed(w);
    RecordSeen(sp, ld, ms, x);
    var d := x.members;
    StringMember(sp, ld, ms[0], w.slug, d);
    StringMember(sp, ld, ms[1], w.title, d);
    StringMember(sp, ld, ms[2], w.initial, d);
    StatesMember(sp, ld, ms[3], w.states, d);
    WorkflowFieldsMember(sp, ld, ms[4], w.fields, d);
    ActionsMember(sp, ld, ms[5], w.onSubmit, d);
    TransitionsMember(sp, ld, ms[6], w.transitions, d);
    Keyed(ms);
    RecordSame(ms, d);
  }

  lemma StatesMember(sp: Spelling, ld: Loader, m: Member, xs: Option<seq<State>>, d: map<string, Json>)
    requires Usual(sp, ld) && MemberSeen(sp, ld, m, d) && m.rule.Always?
    requires m.value == if xs.None? then Null else OfStates(xs.value)
    requires xs == if Get(d, m.key).Arr? then Some(ReadStates(Get(d, m.key))) else None
    ensures MemberSame(m, d)
  {
    hide Seen, Usual, OfStates, ReadStates;
    if xs.None? { NullMember(sp, ld, m, d); } else { StatesSame(sp, ld, xs.value, d[m.key]); }
  }

  lemma TransitionsMember(sp: Spelling, ld: Loader, m: Member, xs: Option<seq<Transition>>, d: map<string, Json>)
    requires Usual(sp, ld) && MemberSeen(sp, ld, m, d) && m.rule.Always?
    requires m.value == if xs.None? then Null else OfTransitions(xs.value)
    requires xs == if Get(d, m.key).Arr? then Some(ReadTransitions(Get(d, m.key))) else None
    ensures MemberSame(m, d)
  {
    hide Seen, Usual, OfTransitions, ReadTransitions;
    if xs.None? { NullMember(sp, ld, m, d); } else { TransitionsSame(sp, ld, xs.value, d[m.key]); }
  }

  lemma WorkflowFieldsMember(sp: Spelling, ld: Loader, m: Member, xs: seq<WorkflowField>, d: map<string, Json>)
    requires Usual(sp, ld) && MemberSeen(sp, ld, m, d) && m.value == OfWorkflowFields(xs)
    requires ReadWorkflowFields(Get(d, m.key)) == xs
    ensures MemberSame(m, d)
  {
    hide Seen, Usual, OfWorkflowFields, ReadWorkflowFields;
    if Written(m) { WorkflowFieldsSame(sp, ld, xs, d[m.key]); }
  }

  // ---- round trips ------------------------------------------------------------------------------------------------

  /** A form survives exactly if "<<" does not occur in it, all its plain scalars resolve to what was written, and no
      condition has an empty list of values, which no valid form has. */
  lemma FormSurvives(fm: T.Formats, sp: Spelling, ld: Loader, f: Form)
    requires Usual(sp, ld) && SingleLine(FormToDict(f))
    ensures FormIn(ld, Document(sp, FormToDict(f))) == Some(f) <==>
            NoMerge(FormToDict(f)) && PlainsResolve(sp, ld, FormToDict(f)) && Faithful(f)
    ensures ValidForm(fm, f) ==> Faithful(f)
  {
    hide FormToDict, FormFromDict, Parse, Document, NoMerge, PlainsResolve, Faithful, SettleForm, ValidForm, Seen;
    DocumentReads(sp, ld, FormToDict(f));
    SeenIff(sp, ld, FormToDict(f));
    FormReadsBack(fm, f);
    if FormIn(ld, Document(sp, FormToDict(f))) == Some(f) {
      FormSame(sp, ld, f, Seen(sp, ld, FormToDict(f)).value);
    }
  }

  /** A workflow survives exactly if "<<" does not occur in it and all its plain scalars resolve. */
  lemma WorkflowSurvives(sp: Spelling, ld: Loader, w: Workflow)
    requires Usual(sp, ld) && SingleLine(WorkflowToDict(w))
    ensures WorkflowIn(ld, Document(sp, WorkflowToDict(w))) == Some(w) <==>
            NoMerge(WorkflowToDict(w)) && PlainsResolve(sp, ld, WorkflowToDict(w))
  {
    hide WorkflowToDict, WorkflowFromDict, Parse, Document, NoMerge, PlainsResolve, Seen;
    DocumentReads(sp, ld, WorkflowToDict(w));
    SeenIff(sp, ld, WorkflowToDict(w));
    WorkflowReadsBack(w);
    if WorkflowIn(ld, Document(sp, WorkflowToDict(w))) == Some(w) {
      WorkflowSame(sp, ld, w, Seen(sp, ld, WorkflowToDict(w)).value);
    }
  }

  /** Writing, reading and writing again then gives the same text, for every form, faithful or not. */
  lemma WritingIsIdempotent(sp: Spelling, ld: Loader, f: Form)
    requires Usual(sp, ld) && SingleLine(FormToDict(f))
    requires NoMerge(FormToDict(f)) && PlainsResolve(sp, ld, FormToDict(f))
    ensures var text := Document(sp, FormToDict(f));
            FormIn(ld, text).Some? && Document(sp, FormToDict(FormIn(ld, text).value)) == text
  {
    hide FormToDict, FormFromDict, Parse, Document, NoMerge, PlainsResolve, SettleForm, Seen;
    DocumentReads(sp, ld, FormToDict(f));
    SeenIff(sp, ld, FormToDict(f));
    FormReads(f);
    FormDocIsStable(f);
  }

  // ---- two forms that do not survive -------------------------------------------------------------------------------

  function OneField(caption: string, min: Option<real>): Form {
    Form("f", "F", "", "", FormSettings(false, "", ""),
         Some([Field("k", if min.Some? then Number else AnyFieldType.Text, caption, "", "", false, [],
                     if min.Some? then Some(Validation(None, None, "", min, None)) else None, None)]))
  }

  lemma OneFieldIsValid(fm: T.Formats, caption: string, min: Option<real>)
    requires 'F' !in fm.space && |caption| == 1 && caption[0] !in fm.space
    ensures ValidForm(fm, OneField(caption, min))
  {
    var f := OneField(caption, min);
    assert f.FieldList()[0].key == "k";
    assert FieldOk(fm, f.FieldList(), 0);
  }

  predicate IsWord(s: string) {
    (forall i :: 0 <= i < |s| ==> !IsBreak(s[i])) && s != "<<"
  }

  lemma WordsAreFine(s: string)
    requires IsWord(s)
    ensures SingleLine(Str(s)) && NoMerge(Str(s))
  {
  }

  lemma BuildIsFine(ms: seq<Member>)
    requires DistinctKeys(ms)
    requires forall i :: 0 <= i < |ms| && Written(ms[i]) ==>
               IsWord(ms[i].key) && SingleLine(ms[i].value) && NoMerge(ms[i].value)
    ensures SingleLine(Obj(Build(ms))) && NoMerge(Obj(Build(ms)))
  {
    hide Build;
    BuildKeys(ms);
    forall k | k in Build(ms) ensures !HasBreak(k) && k != "<<" && SingleLine(Build(ms)[k]) && NoMerge(Build(ms)[k]) {
      var i :| 0 <= i < |ms| && ms[i].key == k;
      BuildReads(ms, i);
      assert IsWord(k);
    }
  }

  lemma TheKeysAreWords()
    ensures IsWord("slug") && IsWord("title") && IsWord("settings") && IsWord("public") && IsWord("fields")
    ensures IsWord("key") && IsWord("type") && IsWord("label") && IsWord("validation") && IsWord("min")
    ensures IsWord("f") && IsWord("F") && IsWord("k") && IsWord("text") && IsWord("number") && IsWord("=")
  {
  }

  lemma OneFieldIsFine(caption: string, min: Option<real>)
    requires IsWord(caption)
    ensures SingleLine(FormToDict(OneField(caption, min))) && NoMerge(FormToDict(OneField(caption, min)))
  {
    hide Build, DistinctKeys, IsWord, FormToDict, SingleLine, NoMerge, FieldMembers, ValidationMembers;
    var f := OneField(caption, min);
    var fld := f.FieldList()[0];
    if min.Some? { LimitIsFine(fld.validation.value); }
    FieldKeysDiffer(fld);
    TheFieldIsFine(caption, min, fld);
    TheFormIsFine(f, fld);
  }

  lemma LimitIsFine(v: Validation)
    requires v.minLength.None? && v.maxLength.None? && v.pattern == "" && v.max.None?
    ensures SingleLine(Obj(Build(ValidationMembers(v)))) && NoMerge(Obj(Build(ValidationMembers(v))))
  {
    hide Build, IsWord;
    TheKeysAreWords();
    ValidationKeyed(v);
    BuildIsFine(ValidationMembers(v));
  }

  lemma SettingsAreFine(s: FormSettings)
    requires s == FormSettings(false, "", "")
    ensures SingleLine(Obj(Build(SettingsMembers(s)))) && NoMerge(Obj(Build(SettingsMembers(s))))
  {
    hide Build, IsWord;
    TheKeysAreWords();
    SettingsKeyed(s);
    BuildIsFine(SettingsMembers(s));
  }

  lemma TheFormIsFine(f: Form, fld: Field)
    requires f == Form("f", "F", "", "", FormSettings(false, "", ""), Some([fld]))
    requires SingleLine(Obj(Build(FieldMembers(fld)))) && NoMerge(Obj(Build(FieldMembers(fld))))
    ensures SingleLine(FormToDict(f)) && NoMerge(FormToDict(f))
  {
    hide Build, DistinctKeys, IsWord, HasBreak, FieldMembers, SettingsMembers, OfFields;
    TheKeysAreWords();
    FormKeysDiffer(f);
    WordsAreFine("f");
    WordsAreFine("F");
    SettingsAreFine(f.settings);
    OneFieldList(fld);
    BuildIsFine(FormMembers(f));
  }

  lemma OneFieldList(fld: Field)
    requires SingleLine(Obj(Build(FieldMembers(fld)))) && NoMerge(Obj(Build(FieldMembers(fld))))
    ensures SingleLine(OfFields([fld])) && NoMerge(OfFields([fld]))
  {
    hide Build, FieldMembers;
    assert OfFields([fld]) == Arr([Obj(Build(FieldMembers(fld)))]);
  }

  lemma TheFieldIsFine(caption: string, min: Option<real>, fld: Field)
    requires IsWord(caption) && fld == OneField(caption, min).FieldList()[0] && DistinctKeys(FieldMembers(fld))
    requires min.Some? ==> SingleLine(Obj(Build(ValidationMembers(fld.validation.value)))) &&
                           NoMerge(Obj(Build(ValidationMembers(fld.validation.value))))
    ensures SingleLine(Obj(Build(FieldMembers(fld)))) && NoMerge(Obj(Build(FieldMembers(fld))))
  {
    hide Build, DistinctKeys, IsWord, HasBreak, ValidationMembers;
    TheKeysAreWords();
    FieldKeysDiffer(fld);
    WordsAreFine(caption);
    WordsAreFine("k");
    WordsAreFine("text");
    WordsAreFine("number");
    assert OfChoices([]) == Arr([]);
    BuildIsFine(FieldMembers(fld));
  }

  /** Where the label and the limit stand in the tree. */
  lemma OneFieldHolds(sp: Spelling, ld: Loader, caption: string, min: Option<real>)
    requires PlainsResolve(sp, ld, FormToDict(OneField(caption, min)))
    ensures StringResolves(sp, ld, caption) && (min.Some? ==> NumberResolves(sp, ld, min.value))
  {
    hide Build, StringResolves, NumberResolves, KeyResolves, DistinctKeys;
    var f := OneField(caption, min);
    var fld := f.FieldList()[0];
    FormKeysDiffer(f);
    BuildReads(FormMembers(f), 5);
    Inner(sp, ld, Build(FormMembers(f)), "fields");
    assert OfFields(f.fields.value).items[0] == Obj(Build(FieldMembers(fld)));
    FieldKeysDiffer(fld);
    BuildReads(FieldMembers(fld), 2);
    BuildReads(FieldMembers(fld), 7);
    Inner(sp, ld, Build(FieldMembers(fld)), "label");
    if min.Some? {
      LimitHolds(sp, ld, fld);
    }
  }

  lemma LimitHolds(sp: Spelling, ld: Loader, fld: Field)
    requires PlainsResolve(sp, ld, Obj(Build(FieldMembers(fld)))) && fld.validation.Some? &&
             fld.validation.value.min.Some?
    ensures NumberResolves(sp, ld, fld.validation.value.min.value)
  {
    hide Build, StringResolves, NumberResolves, KeyResolves, DistinctKeys;
    var v := fld.validation.value;
    FieldKeysDiffer(fld);
    BuildReads(FieldMembers(fld), 7);
    Inner(sp, ld, Build(FieldMembers(fld)), "validation");
    ValidationKeyed(v);
    Keyed(ValidationMembers(v));
    BuildReads(ValidationMembers(v), 3);
    Inner(sp, ld, Build(ValidationMembers(v)), "min");
  }

  lemma Inner(sp: Spelling, ld: Loader, d: map<string, Json>, k: string)
    requires PlainsResolve(sp, ld, Obj(d)) && k in d
    ensures PlainsResolve(sp, ld, d[k])
  {
  }

  lemma EqualsSignIsPlain(sp: Spelling)
    requires sp.canUsePlain("=")
    ensures WrittenPlain(sp, Str("="), false)
  {
    assert !Marker("=") by { assert "---"[0] == '-' && "..."[0] == '.'; }
    assert !Indicator("=", 0) && !Special("=", 0) && !IsBreak('=');
  }

  /** A field labelled "=": the writer leaves it plain, and the loader has no value for a plain "=". */
  lemma EqualsSignIsLost(fm: T.Formats, sp: Spelling, ld: Loader)
    requires Usual(sp, ld) && sp.canUsePlain("=") && ld.resolve("=") == None && 'F' !in fm.space && '=' !in fm.space
    ensures var f := OneField("=", None);
            ValidForm(fm, f) && NoMerge(FormToDict(f)) && FormIn(ld, Document(sp, FormToDict(f))) != Some(f)
  {
    hide FormToDict, FormIn, Document, NoMerge, PlainsResolve, Usual, OneField, SingleLine, WrittenPlain;
    TheKeysAreWords();
    OneFieldIsFine("=", None);
    OneFieldIsValid(fm, "=", None);
    EqualsSignIsPlain(sp);
    FormSurvives(fm, sp, ld, OneField("=", None));
    if PlainsResolve(sp, ld, FormToDict(OneField("=", None))) {
      OneFieldHolds(sp, ld, "=", None);
    }
  }

  const SMALL := 0.00001

  /** A limit of 0.00001: it is spelled with an exponent, which the loader takes for a string. */
  lemma SmallLimitIsLost(fm: T.Formats, sp: Spelling, ld: Loader)
    requires Usual(sp, ld) && sp.number(SMALL) == "1e-05" && ld.resolve("1e-05") == Some(Str("1e-05")) &&
             'F' !in fm.space
    ensures var f := OneField("F", Some(SMALL));
            ValidForm(fm, f) && NoMerge(FormToDict(f)) && FormIn(ld, Document(sp, FormToDict(f))) != Some(f)
  {
    hide FormToDict, FormIn, Document, NoMerge, PlainsResolve, Usual, OneField, SingleLine, WrittenPlain;
    TheKeysAreWords();
    OneFieldIsFine("F", Some(SMALL));
    OneFieldIsValid(fm, "F", Some(SMALL));
    FormSurvives(fm, sp, ld, OneField("F", Some(SMALL)));
    if PlainsResolve(sp, ld, FormToDict(OneField("F", Some(SMALL)))) {
      OneFieldHolds(sp, ld, "F", Some(SMALL));
    }
  }
}
