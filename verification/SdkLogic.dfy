/** The browser's evaluator of forms, a second implementation, and its agreement with the server's. */
module SdkLogic {
  import opened Common
  import opened JsonValues
  import opened Text
  import opened Values
  import opened Submissions
  import D = Definitions

  datatype SdkMessage =
    | EnterText | EnterNumber | ChooseYesOrNo | ChooseListed | ChooseOnce | EnterEmail | EnterUrl | EnterDate
    | UseFormat
    | UseAtLeast(n: int) | UseAtMost(n: int) | AtLeast(r: real) | AtMost(r: real) | Required | TickBox

  datatype SdkChecked = NotProvided | Invalid(message: SdkMessage) | Provided(value: Json)

  datatype SdkProblem = SdkProblem(key: string, message: SdkMessage)

  function Distinct(items: seq<Json>): set<Json> {
    set i | 0 <= i < |items| :: items[i]
  }

  function SdkCheckText(fm: Formats, f: D.Field, value: string): SdkChecked {
    var v := f.validation;
    if f.kind.Email? && !fm.isEmail(value) then Invalid(EnterEmail)
    else if f.kind.Url? && !fm.isHttpUrl(value) then Invalid(EnterUrl)
    else if f.kind.Date? && !fm.isDate(value) then Invalid(EnterDate)
    else if f.kind.Select? && !HasOption(f.options, value) then Invalid(ChooseListed)
    else if v.Some? && v.value.minLength.Some? && |value| < v.value.minLength.value then
      Invalid(UseAtLeast(v.value.minLength.value))
    else if v.Some? && v.value.maxLength.Some? && |value| > v.value.maxLength.value then
      Invalid(UseAtMost(v.value.maxLength.value))
    else if v.Some? && v.value.pattern != "" && !fm.matches(v.value.pattern, value) then Invalid(UseFormat)
    else Provided(Str(value))
  }

  /** Types other than number, checkbox and multiselect, known or not, are checked as text. */
  function SdkCheckValue(fm: Formats, f: D.Field, raw: Json): SdkChecked {
    var v := f.validation;
    if raw.Null? then NotProvided
    else match f.kind
      case Number =>
        if !raw.Num? then Invalid(EnterNumber)
        else if v.Some? && v.value.min.Some? && raw.n < v.value.min.value then Invalid(AtLeast(v.value.min.value))
        else if v.Some? && v.value.max.Some? && raw.n > v.value.max.value then Invalid(AtMost(v.value.max.value))
        else Provided(raw)
      case Checkbox => if raw.Bool? then Provided(raw) else Invalid(ChooseYesOrNo)
      case MultiSelect =>
        if !raw.Arr? || !AllStrings(raw.items) then Invalid(ChooseListed)
        else if raw.items == [] then NotProvided
        else if exists i :: 0 <= i < |raw.items| && !KnownChoice(f.options, raw.items[i]) then Invalid(ChooseListed)
        else if |Distinct(raw.items)| != |raw.items| then Invalid(ChooseOnce)
        else Provided(raw)
      case _ =>
        if !raw.Str? then Invalid(EnterText)
        else if Trim(fm.space, raw.s) == "" then NotProvided
        else SdkCheckText(fm, f, Trim(fm.space, raw.s))
  }

  // ---- one answer ---------------------------------------------------------------------------------

  /** The browser's wording of a server message. */
  function Wording(m: Message): SdkMessage {
    match m
    case MustBeString => EnterText
    case BadEmail => EnterEmail
    case BadUrl => EnterUrl
    case BadDate => EnterDate
    case NotAnOption => ChooseListed
    case TooShort(n) => UseAtLeast(n)
    case TooLong(n) => UseAtMost(n)
    case BadFormat => UseFormat
    case MustBeNumber => EnterNumber
    case TooSmall(r) => AtLeast(r)
    case TooLarge(r) => AtMost(r)
    case MustBeBoolean => ChooseYesOrNo
    case MustBeOptionList => ChooseListed
    case UnknownChoice => ChooseListed
    case DuplicateChoice => ChooseOnce
    case UnsupportedType => EnterText
    case IsRequired => Required
    case MustBeChecked => TickBox
  }

  /** A known option is repeated before the first unknown one. */
  ghost predicate RepeatsBeforeUnknown(options: seq<D.Choice>, raw: Json) {
    raw.Arr? && AllStrings(raw.items) &&
    exists i :: 0 <= i < |raw.items| && raw.items[i] in raw.items[..i] &&
      (forall j :: 0 <= j <= i ==> KnownChoice(options, raw.items[j])) &&
      exists j :: i < j < |raw.items| && !KnownChoice(options, raw.items[j])
  }

  lemma {:induction false} DistinctCounts(items: seq<Json>)
    ensures |Distinct(items)| <= |items|
    ensures |Distinct(items)| == |items| <==> NoDuplicates(items)
  {
    if items != [] {
      var n := |items| - 1;
      var front := items[..n];
      DistinctCounts(front);
      assert Distinct(items) == Distinct(front) + {items[n]};
      if items[n] in Distinct(front) {
        assert Distinct(items) == Distinct(front);
        var i :| 0 <= i < n && items[i] == items[n];
        assert !NoDuplicates(items);
      } else {
        assert |Distinct(items)| == |Distinct(front)| + 1;
        assert NoDuplicates(front) <==> NoDuplicates(items) by {
          if NoDuplicates(front) {
            forall a, b | 0 <= a < b < |items| ensures items[a] != items[b] {
              if b < n { assert front[a] != front[b]; } else { assert front[a] in Distinct(front); }
            }
          }
        }
      }
    }
  }

  lemma {:induction false} FirstOffence(options: seq<D.Choice>, items: seq<Json>, i: nat)
    requires i <= |items| && AllStrings(items)
    requires forall j :: 0 <= j < i ==> KnownChoice(options, items[j]) && items[j] !in items[..j]
    ensures var r := CheckChoices(options, items, i);
            (r == Bad(DuplicateChoice) && (exists j :: 0 <= j < |items| && !KnownChoice(options, items[j])))
            <==> RepeatsBeforeUnknown(options, Arr(items))
    ensures var r := CheckChoices(options, items, i);
            r.Bad? ==> r == Bad(DuplicateChoice) ||
                       (r == Bad(UnknownChoice) && exists j :: 0 <= j < |items| && !KnownChoice(options, items[j]))
    decreases |items| - i
  {
    if i == |items| {
    } else if !KnownChoice(options, items[i]) {
    } else if items[i] in items[..i] {
    } else {
      FirstOffence(options, items, i + 1);
    }
  }

  lemma ListChecksAgree(fm: Formats, f: D.Field, raw: Json)
    requires f.kind.MultiSelect?
    ensures match CheckValue(fm, f.kind, f.options, f.validation, raw)
            case Absent => SdkCheckValue(fm, f, raw) == NotProvided
            case Good(v) => SdkCheckValue(fm, f, raw) == Provided(v)
            case Bad(m) =>
              SdkCheckValue(fm, f, raw).Invalid? &&
              (SdkCheckValue(fm, f, raw).message != Wording(m) <==> RepeatsBeforeUnknown(f.options, raw))
  {
    hide CheckChoices, KnownChoice, Distinct, RepeatsBeforeUnknown, AllStrings, NoDuplicates;
    if raw.Arr? && AllStrings(raw.items) {
      ChoicesAccepted(f.options, raw.items, 0);
      FirstOffence(f.options, raw.items, 0);
      DistinctCounts(raw.items);
      NoRepeatInNothing(f.options, raw);
    } else {
      OnlyListsRepeat(f.options, raw);
    }
  }

  lemma OnlyListsRepeat(options: seq<D.Choice>, raw: Json)
    ensures RepeatsBeforeUnknown(options, raw) ==> raw.Arr? && AllStrings(raw.items)
  {
  }

  lemma NoRepeatInNothing(options: seq<D.Choice>, raw: Json)
    requires raw.Arr?
    ensures Arr(raw.items) == raw && (raw.items == [] ==> !RepeatsBeforeUnknown(options, raw))
  {
  }

  lemma SingleChecksAgree(fm: Formats, f: D.Field, raw: Json)
    requires !f.kind.UnknownType? && !f.kind.MultiSelect?
    ensures match CheckValue(fm, f.kind, f.options, f.validation, raw)
            case Absent => SdkCheckValue(fm, f, raw) == NotProvided
            case Good(v) => SdkCheckValue(fm, f, raw) == Provided(v)
            case Bad(m) => SdkCheckValue(fm, f, raw).Invalid? && SdkCheckValue(fm, f, raw).message == Wording(m)
  {
    hide CheckChoices, Trim;
  }

  /** For every field type of the definition language both implementations accept the same answers with
      the same value, and reject the same answers with the same message but for one family: the server
      reports the first offending choice, the browser reports unknown choices before repeated ones. */
  lemma ChecksAgree(fm: Formats, f: D.Field, raw: Json)
    requires !f.kind.UnknownType?
    ensures match CheckValue(fm, f.kind, f.options, f.validation, raw)
            case Absent => SdkCheckValue(fm, f, raw) == NotProvided
            case Good(v) => SdkCheckValue(fm, f, raw) == Provided(v)
            case Bad(m) =>
              SdkCheckValue(fm, f, raw).Invalid? &&
              (SdkCheckValue(fm, f, raw).message != Wording(m) <==>
               f.kind.MultiSelect? && RepeatsBeforeUnknown(f.options, raw))
  {
    hide CheckValue, SdkCheckValue, RepeatsBeforeUnknown, Wording;
    if f.kind.MultiSelect? {
      ListChecksAgree(fm, f, raw);
    } else {
      SingleChecksAgree(fm, f, raw);
    }
  }

  /** The messages do part: choosing a twice and then an unknown option is "duplicates" to the server
      and "not listed" to the browser. */
  lemma MessagesCanDiffer(fm: Formats) returns (f: D.Field, raw: Json)
    ensures f.kind == D.MultiSelect
    ensures CheckValue(fm, f.kind, f.options, f.validation, raw) == Bad(DuplicateChoice)
    ensures SdkCheckValue(fm, f, raw) == Invalid(ChooseListed)
  {
    f := D.Field("k", D.MultiSelect, "K", "", "", false, [D.Choice("a", "A")], None, None);
    raw := Arr([Str("a"), Str("a"), Str("z")]);
    assert f.options[0].value == "a" && raw.items[1] in raw.items[..1] by { assert raw.items[..1] == [Str("a")]; }
    assert !KnownChoice(f.options, raw.items[2]) by { assert "z"[0] != "a"[0]; }
    assert CheckChoices(f.options, raw.items, 1) == Bad(DuplicateChoice);
    assert CheckChoices(f.options, raw.items, 0) == Bad(DuplicateChoice) by { assert raw.items[..0] == []; }
  }

  /** For a type outside the definition language the implementations do not even agree on acceptance. */
  lemma UnknownTypesDisagree(fm: Formats, f: D.Field, raw: Json)
    requires f.kind.UnknownType? && raw.Str? && Trim(fm.space, raw.s) != "" && f.validation.None?
    ensures CheckValue(fm, f.kind, f.options, f.validation, raw) == Bad(UnsupportedType)
    ensures SdkCheckValue(fm, f, raw) == Provided(Str(Trim(fm.space, raw.s)))
  {
  }

  // ---- conditions -----------------------------------------------------------------------------------

  predicate Matches(multi: bool, val: Option<Json>, target: Json) {
    val.Some? &&
    if multi then exists i :: 0 <= i < |Items(val.value)| && SdkEqual(Items(val.value)[i], Some(target))
    else SdkEqual(val.value, Some(target))
  }

  predicate SdkHolds(c: D.Condition, controller: D.Field, val: Option<Json>) {
    var multi := controller.kind.MultiSelect? && val.Some? && val.value.Arr?;
    if c.equals != Null then Matches(multi, val, c.equals)
    else if c.notEquals != Null then !Matches(multi, val, c.notEquals)
    else if c.oneOf.Some? then exists t :: 0 <= t < |c.oneOf.value| && Matches(multi, val, c.oneOf.value[t])
    else true
  }

  // ---- what JavaScript reads ------------------------------------------------------------------------

  function LimitAsRead(fm: Formats, n: Option<real>): Option<real> {
    if n.Some? then Some(fm.round(n.value)) else None
  }

  function LengthAsRead(fm: Formats, n: Option<int>): Option<int> {
    if n.Some? then Some(fm.round(n.value as real).Floor) else None
  }

  function ValidationAsRead(fm: Formats, v: Option<D.Validation>): Option<D.Validation> {
    if v.None? then None
    else
      Some(D.Validation(LengthAsRead(fm, v.value.minLength), LengthAsRead(fm, v.value.maxLength), v.value.pattern,
                        LimitAsRead(fm, v.value.min), LimitAsRead(fm, v.value.max)))
  }

  function ListAsRead(fm: Formats, items: seq<Json>): (r: seq<Json>)
    ensures |r| == |items| && forall i :: 0 <= i < |r| ==> r[i] == Rounded(fm.round, items[i])
  {
    seq(|items|, i requires 0 <= i < |items| => Rounded(fm.round, items[i]))
  }

  function ConditionAsRead(fm: Formats, c: D.Condition): D.Condition {
    D.Condition(c.field, Rounded(fm.round, c.equals), Rounded(fm.round, c.notEquals),
                if c.oneOf.Some? then Some(ListAsRead(fm, c.oneOf.value)) else None)
  }

  /** A field of the definition with every number in it rounded to a double. */
  function FieldAsRead(fm: Formats, f: D.Field): D.Field {
    f.(validation := ValidationAsRead(fm, f.validation),
       showIf := if f.showIf.Some? then Some(ConditionAsRead(fm, f.showIf.value)) else None)
  }

  function FieldsAsRead(fm: Formats, fields: seq<D.Field>): (r: seq<D.Field>)
    ensures |r| == |fields| && forall i :: 0 <= i < |r| ==> r[i] == FieldAsRead(fm, fields[i])
  {
    seq(|fields|, i requires 0 <= i < |fields| => FieldAsRead(fm, fields[i]))
  }

  function ValuesAsRead(fm: Formats, values: map<string, Json>): map<string, Json> {
    map k | k in values :: Rounded(fm.round, values[k])
  }

  function ValueAsRead(fm: Formats, v: Option<Json>): Option<Json> {
    if v.Some? then Some(Rounded(fm.round, v.value)) else None
  }

  lemma MatchesAgree(fm: Formats, multi: bool, val: Option<Json>, target: Json)
    requires multi && val.Some? ==> val.value.Arr?
    ensures Matches(multi, ValueAsRead(fm, val), Rounded(fm.round, target)) <==>
            val.Some? &&
            if multi then Contains(fm, Items(val.value), target) else JsonEqual(fm.round, val.value, target)
  {
    hide JsonEqual, SdkEqual;
    if val.Some? {
      var read := Rounded(fm.round, val.value);
      SdkEqualIsEquality(read, Some(Rounded(fm.round, target)));
      JsonEqualIsRoundedEquality(fm.round, val.value, target);
      if multi {
        forall i | 0 <= i < |Items(val.value)|
          ensures SdkEqual(Items(read)[i], Some(Rounded(fm.round, target))) <==>
                  JsonEqual(fm.round, Items(val.value)[i], target)
        {
          SdkEqualIsEquality(Items(read)[i], Some(Rounded(fm.round, target)));
          JsonEqualIsRoundedEquality(fm.round, Items(val.value)[i], target);
        }
      }
    }
  }

  lemma RoundedNull(fm: Formats, v: Json)
    ensures Rounded(fm.round, v) == Null <==> v == Null
    ensures v.Arr? ==> Rounded(fm.round, v).Arr?
  {
  }

  /** The two readings of a condition agree for all values, although the SDK sees rounded numbers and `in` on a
      multiselect quantifies in the opposite order. */
  lemma ConditionsAgree(fm: Formats, c: D.Condition, controller: D.Field, val: Option<Json>)
    requires controller.kind.MultiSelect? && val.Some? ==> val.value.Arr?
    ensures Holds(fm, c, controller.kind, val) <==>
            SdkHolds(ConditionAsRead(fm, c), controller, ValueAsRead(fm, val))
  {
    hide Normalize, SdkEqual, Matches, Rounded;
    var multi := controller.kind.MultiSelect? && val.Some? && val.value.Arr?;
    RoundedNull(fm, c.equals);
    RoundedNull(fm, c.notEquals);
    if val.Some? { RoundedNull(fm, val.value); }
    MatchesAgree(fm, multi, val, c.equals);
    MatchesAgree(fm, multi, val, c.notEquals);
    if c.oneOf.Some? {
      forall t | 0 <= t < |c.oneOf.value| { MatchesAgree(fm, multi, val, c.oneOf.value[t]); }
    }
  }

  // ---- the pass ---------------------------------------------------------------------------------------

  datatype SdkTables = SdkTables(
    shown: map<string, bool>, clean: map<string, Json>, seen: map<string, D.Field>, problems: seq<SdkProblem>)

  const EMPTY_SDK_TABLES := SdkTables(map[], map[], map[], [])

  predicate SdkShown(t: SdkTables, fld: D.Field) {
    fld.showIf.None? ||
    var c := fld.showIf.value;
    c.field in t.seen &&
    var controller := t.seen[c.field];
    controller.key in t.shown && t.shown[controller.key] && SdkHolds(c, controller, Find(t.clean, controller.key))
  }

  function SdkVerdict(fm: Formats, fld: D.Field, raw: Json): SdkChecked {
    match SdkCheckValue(fm, fld, raw)
    case Invalid(m) => Invalid(m)
    case NotProvided => if fld.required then Invalid(Required) else NotProvided
    case Provided(v) => if fld.kind.Checkbox? && fld.required && v != Bool(true) then Invalid(TickBox) else Provided(v)
  }

  function SdkStep(fm: Formats, data: map<string, Json>, t: SdkTables, fld: D.Field): SdkTables {
    var vis := SdkShown(t, fld);
    var t1 := t.(shown := t.shown[fld.key := vis], seen := t.seen[fld.key := fld]);
    if !vis then t1
    else match SdkVerdict(fm, fld, Get(data, fld.key))
      case Invalid(m) => t1.(problems := t1.problems + [SdkProblem(fld.key, m)])
      case Provided(v) => t1.(clean := t1.clean[fld.key := v])
      case NotProvided => t1
  }

  function SdkPass(fm: Formats, data: map<string, Json>, fields: seq<D.Field>): SdkTables {
    if fields == [] then EMPTY_SDK_TABLES
    else SdkStep(fm, data, SdkPass(fm, data, fields[..|fields| - 1]), fields[|fields| - 1])
  }

  /** The browser's evaluator. */
  method SdkEvaluate(fm: Formats, fields: seq<D.Field>, data: map<string, Json>)
    returns (shown: map<string, bool>, clean: map<string, Json>, problems: seq<SdkProblem>)
    ensures var t := SdkPass(fm, data, fields); shown == t.shown && clean == t.clean && problems == t.problems
  {
    hide SdkCheckValue, SdkHolds;
    shown, clean, problems := map[], map[], [];
    var seen: map<string, D.Field> := map[];
    for i := 0 to |fields|
      invariant SdkTables(shown, clean, seen, problems) == SdkPass(fm, data, fields[..i])
    {
      var fld := fields[i];
      ghost var t := SdkTables(shown, clean, seen, problems);
      assert SdkPass(fm, data, fields[..i + 1]) == SdkStep(fm, data, t, fld) by {
        assert fields[..i + 1][..i] == fields[..i];
      }
      var vis := true;
      if fld.showIf.Some? {
        var c := fld.showIf.value;
        if c.field in seen {
          var controller := seen[c.field];
          vis := controller.key in shown && shown[controller.key] &&
                 SdkHolds(c, controller, Find(clean, controller.key));
        } else {
          vis := false;
        }
      }
      shown := shown[fld.key := vis];
      seen := seen[fld.key := fld];
      if vis {
        match SdkCheckValue(fm, fld, Get(data, fld.key)) {
          case Invalid(m) =>
            problems := problems + [SdkProblem(fld.key, m)];
          case NotProvided =>
            if fld.required {
              problems := problems + [SdkProblem(fld.key, Required)];
            }
          case Provided(v) =>
            if fld.kind.Checkbox? && fld.required && v != Bool(true) {
              problems := problems + [SdkProblem(fld.key, TickBox)];
            } else {
              clean := clean[fld.key := v];
            }
        }
      }
      assert SdkTables(shown, clean, seen, problems) == SdkStep(fm, data, t, fld);
    }
    assert fields[..|fields|] == fields;
  }

  // ---- rounded limits ----------------------------------------------------------------------------------

  predicate InRange(v: Option<D.Validation>, n: real) {
    v.Some? ==> (v.value.min.Some? ==> n >= v.value.min.value) && (v.value.max.Some? ==> n <= v.value.max.value)
  }

  predicate InLength(v: Option<D.Validation>, n: int) {
    v.Some? ==>
      (v.value.minLength.Some? ==> n >= v.value.minLength.value) &&
      (v.value.maxLength.Some? ==> n <= v.value.maxLength.value)
  }

  /** What is asked of a text besides its length. */
  predicate WellFormed(fm: Formats, f: D.Field, s: string) {
    (f.kind.Email? ==> fm.isEmail(s)) && (f.kind.Url? ==> fm.isHttpUrl(s)) && (f.kind.Date? ==> fm.isDate(s)) &&
    (f.kind.Select? ==> HasOption(f.options, s)) &&
    (f.validation.Some? && f.validation.value.pattern != "" ==> fm.matches(f.validation.value.pattern, s))
  }

  /** The answer is within the limits exactly if the rounded answer is within the rounded limits. */
  predicate LimitsAgree(fm: Formats, f: D.Field, raw: Json) {
    var v := f.validation;
    match f.kind
    case Number =>
      raw.Num? ==>
        (InRange(v, raw.n) <==>
         (v.Some? && v.value.min.Some? ==> fm.round(raw.n) >= fm.round(v.value.min.value)) &&
         (v.Some? && v.value.max.Some? ==> fm.round(raw.n) <= fm.round(v.value.max.value)))
    case Checkbox => true
    case MultiSelect => true
    case _ =>
      raw.Str? && WellFormed(fm, f, Trim(fm.space, raw.s)) && !Blank(fm.space, raw.s) ==>
        var n := |Trim(fm.space, raw.s)|;
        (InLength(v, n) <==>
         (v.Some? && v.value.minLength.Some? ==> n >= fm.round(v.value.minLength.value as real).Floor) &&
         (v.Some? && v.value.maxLength.Some? ==> n <= fm.round(v.value.maxLength.value as real).Floor))
  }

  /** So it is where doubles hold the numbers of the answer and of the limits. */
  lemma ExactLimitsAgree(fm: Formats, f: D.Field, raw: Json)
    requires Exact(fm.round, raw) && ValidationAsRead(fm, f.validation) == f.validation
    ensures LimitsAgree(fm, f, raw)
  {
    hide Trim;
  }

  /** One server check on what was sent, another on what the SDK has read. */
  lemma CheckRounds(fm: Formats, f: D.Field, raw: Json)
    requires !f.kind.UnknownType?
    ensures var here := CheckValue(fm, f.kind, f.options, f.validation, raw);
            var there := CheckValue(fm, f.kind, f.options, FieldAsRead(fm, f).validation, Rounded(fm.round, raw));
            (here.Absent? <==> there.Absent?) && (LimitsAgree(fm, f, raw) <==> (here.Good? <==> there.Good?)) &&
            (here.Good? && there.Good? ==> there.value == Rounded(fm.round, here.value))
  {
    hide Trim, HasOption, CheckChoices;
    if f.kind.MultiSelect? {
      ListsAreNotRounded(fm, f, raw);
    }
  }

  lemma ListsAreNotRounded(fm: Formats, f: D.Field, raw: Json)
    ensures raw.Arr? <==> Rounded(fm.round, raw).Arr?
    ensures raw.Arr? && AllStrings(raw.items) ==> Rounded(fm.round, raw) == raw
    ensures raw.Arr? && AllStrings(Rounded(fm.round, raw).items) ==> AllStrings(raw.items)
    ensures raw.Arr? && AllStrings(raw.items) && CheckChoices(f.options, raw.items, 0).Good? ==>
              CheckChoices(f.options, raw.items, 0).value == raw
  {
    if raw.Arr? {
      var r := Rounded(fm.round, raw).items;
      forall i | 0 <= i < |r| ensures r[i].Str? <==> raw.items[i].Str? {
        assert r[i] == Rounded(fm.round, raw.items[i]);
      }
      if AllStrings(raw.items) {
        forall i | 0 <= i < |r| ensures r[i] == raw.items[i] {
          assert r[i] == Rounded(fm.round, raw.items[i]) && raw.items[i].Str?;
        }
        assert r == raw.items;
      }
      ChoicesAccepted(f.options, raw.items, 0);
    }
  }

  // ---- agreement ----------------------------------------------------------------------------------------

  /** The tables of the two implementations say the same; cleaned multiselect values are lists. */
  ghost predicate Agree(fm: Formats, t: Tables, s: SdkTables) {
    t.vis == s.shown && s.clean == ValuesAsRead(fm, t.clean) && SameControllers(t, s) &&
    SameKeys(t.findings, s.problems)
  }

  ghost predicate SameControllers(t: Tables, s: SdkTables) {
    t.types.Keys == s.seen.Keys && t.vis.Keys == t.types.Keys && t.clean.Keys <= t.types.Keys &&
    (forall k :: k in s.seen ==> s.seen[k].key == k && s.seen[k].kind == t.types[k]) &&
    forall k :: k in t.clean && t.types[k].MultiSelect? ==> t.clean[k].Arr?
  }

  ghost predicate SameKeys(findings: seq<Finding>, problems: seq<SdkProblem>) {
    |findings| == |problems| && forall i :: 0 <= i < |findings| ==> findings[i].key == problems[i].key
  }

  ghost predicate Found(findings: seq<Finding>, k: string) {
    exists i :: 0 <= i < |findings| && findings[i].key == k
  }

  ghost predicate SdkFound(problems: seq<SdkProblem>, k: string) {
    exists i :: 0 <= i < |problems| && problems[i].key == k
  }

  /** One of the two has a problem with an answer that the other accepts. */
  ghost predicate Parted(t: Tables, s: SdkTables) {
    exists k :: k in t.types && Found(t.findings, k) != SdkFound(s.problems, k)
  }

  lemma PartedIsSeen(t: Tables, s: SdkTables)
    requires Parted(t, s)
    ensures !SameKeys(t.findings, s.problems)
  {
  }

  lemma ShownAgree(fm: Formats, t: Tables, s: SdkTables, fld: D.Field)
    requires Agree(fm, t, s) && fld.key !in t.types
    ensures Shown(fm, t.(types := t.types[fld.key := fld.kind]), fld) <==> SdkShown(s, FieldAsRead(fm, fld))
  {
    hide Holds, SdkHolds, Rounded, ConditionAsRead;
    if fld.showIf.Some? {
      var c := fld.showIf.value;
      ConditionField(fm, c);
      if c.field in s.seen {
        ConditionsAgree(fm, c, s.seen[c.field], Find(t.clean, c.field));
        assert Find(s.clean, c.field) == ValueAsRead(fm, Find(t.clean, c.field));
      }
    }
  }

  lemma ConditionField(fm: Formats, c: D.Condition)
    ensures ConditionAsRead(fm, c).field == c.field
  {
  }

  lemma VerdictsAgree(fm: Formats, fld: D.Field, raw: Json)
    requires !fld.kind.UnknownType?
    ensures var here := Verdict(fm, fld, raw);
            var there := SdkVerdict(fm, FieldAsRead(fm, fld), Rounded(fm.round, raw));
            if LimitsAgree(fm, fld, raw) then
              match here
              case Absent => there == NotProvided
              case Bad(_) => there.Invalid?
              case Good(v) => there == Provided(Rounded(fm.round, v)) && (fld.kind.MultiSelect? ==> v.Arr?)
            else here.Bad? != there.Invalid?
  {
    hide CheckValue, SdkCheckValue, Wording, RepeatsBeforeUnknown, LimitsAgree;
    CheckRounds(fm, fld, raw);
    ChecksAgree(fm, FieldAsRead(fm, fld), Rounded(fm.round, raw));
    if CheckValue(fm, fld.kind, fld.options, fld.validation, raw).Good? {
      AcceptedIsStable(fm, fld.kind, fld.options, fld.validation, raw);
    }
    BoxesHaveNoLimits(fm, fld, raw);
  }

  lemma BoxesHaveNoLimits(fm: Formats, fld: D.Field, raw: Json)
    ensures fld.kind.Checkbox? ==> LimitsAgree(fm, fld, raw)
    ensures fld.kind.Checkbox? && CheckValue(fm, fld.kind, fld.options, fld.validation, raw).Good? ==>
              CheckValue(fm, fld.kind, fld.options, fld.validation, raw).value.Bool?
    ensures forall b :: Rounded(fm.round, Bool(b)) == Bool(b)
  {
  }

  lemma AnswerAsRead(fm: Formats, data: map<string, Json>, k: string)
    ensures Get(ValuesAsRead(fm, data), k) == Rounded(fm.round, Get(data, k))
  {
  }

  lemma StepsAgree(fm: Formats, data: map<string, Json>, t: Tables, s: SdkTables, fld: D.Field)
    requires Agree(fm, t, s) && fld.key !in t.types && !fld.kind.UnknownType?
    requires Step(fm, data, t, fld).vis[fld.key] ==> LimitsAgree(fm, fld, Get(data, fld.key))
    ensures Agree(fm, Step(fm, data, t, fld), SdkStep(fm, ValuesAsRead(fm, data), s, FieldAsRead(fm, fld)))
  {
    hide Shown, SdkShown, Verdict, SdkVerdict, Get, SameControllers, LimitsAgree, Rounded, ConditionAsRead;
    ShownAgree(fm, t, s, fld);
    VerdictsAgree(fm, fld, Get(data, fld.key));
    AnswerAsRead(fm, data, fld.key);
    ControllersAgree(fm, data, t, s, fld);
  }

  /** At a visible field whose limits part, the two part. */
  lemma StepParts(fm: Formats, data: map<string, Json>, t: Tables, s: SdkTables, fld: D.Field)
    requires Agree(fm, t, s) && fld.key !in t.types && !fld.kind.UnknownType?
    requires forall i :: 0 <= i < |t.findings| ==> t.findings[i].key != fld.key
    requires Step(fm, data, t, fld).vis[fld.key] && !LimitsAgree(fm, fld, Get(data, fld.key))
    ensures Parted(Step(fm, data, t, fld), SdkStep(fm, ValuesAsRead(fm, data), s, FieldAsRead(fm, fld)))
  {
    hide Shown, SdkShown, Verdict, SdkVerdict, Get, SameControllers, LimitsAgree, Rounded, ConditionAsRead;
    ShownAgree(fm, t, s, fld);
    VerdictsAgree(fm, fld, Get(data, fld.key));
    AnswerAsRead(fm, data, fld.key);
    var t', s' := Step(fm, data, t, fld), SdkStep(fm, ValuesAsRead(fm, data), s, FieldAsRead(fm, fld));
    assert !Found(t.findings, fld.key) && !SdkFound(s.problems, fld.key);
    if Verdict(fm, fld, Get(data, fld.key)).Bad? {
      assert t'.findings[|t.findings|].key == fld.key;
    } else {
      assert s'.problems[|s.problems|].key == fld.key;
    }
    assert fld.key in t'.types;
  }

  /** What a step records: the field's type, its visibility, and its value if it has a good one. */
  lemma StepShape(fm: Formats, data: map<string, Json>, t: Tables, fld: D.Field)
    ensures var t', v := Step(fm, data, t, fld), Verdict(fm, fld, Get(data, fld.key));
            t'.types == t.types[fld.key := fld.kind] && t'.vis.Keys == t.vis.Keys + {fld.key} &&
            (forall k :: k in t.vis && k != fld.key ==> t'.vis[k] == t.vis[k]) &&
            (t'.clean == t.clean || (v.Good? && t'.clean == t.clean[fld.key := v.value])) &&
            (t'.findings == t.findings || exists f: Finding :: t'.findings == t.findings + [f] && f.key == fld.key)
  {
    hide Shown, Verdict, Get;
  }

  lemma SdkStepShape(fm: Formats, data: map<string, Json>, s: SdkTables, fld: D.Field)
    ensures var s' := SdkStep(fm, data, s, fld);
            s'.seen == s.seen[fld.key := fld] &&
            (s'.problems == s.problems || exists p: SdkProblem :: s'.problems == s.problems + [p] && p.key == fld.key)
  {
    hide SdkShown, SdkVerdict, Get;
  }

  lemma ControllersAgree(fm: Formats, data: map<string, Json>, t: Tables, s: SdkTables, fld: D.Field)
    requires Agree(fm, t, s) && fld.key !in t.types && !fld.kind.UnknownType?
    ensures SameControllers(Step(fm, data, t, fld), SdkStep(fm, ValuesAsRead(fm, data), s, FieldAsRead(fm, fld)))
  {
    hide Step, SdkStep, Verdict, SdkVerdict, Get, SameKeys, SameControllers, ValuesAsRead, Rounded, ConditionAsRead,
         ValidationAsRead;
    StepShape(fm, data, t, fld);
    SdkStepShape(fm, ValuesAsRead(fm, data), s, FieldAsRead(fm, fld));
    GoodListsAreLists(fm, fld, Get(data, fld.key));
    ControllerAdded(t, s, fld, Step(fm, data, t, fld), SdkStep(fm, ValuesAsRead(fm, data), s, FieldAsRead(fm, fld)),
                    FieldAsRead(fm, fld), Verdict(fm, fld, Get(data, fld.key)));
  }

  lemma ControllerAdded(t: Tables, s: SdkTables, fld: D.Field, t': Tables, s': SdkTables, seen: D.Field, v: Checked)
    requires SameControllers(t, s) && fld.key !in t.types && seen.key == fld.key && seen.kind == fld.kind
    requires t'.types == t.types[fld.key := fld.kind] && t'.vis.Keys == t.vis.Keys + {fld.key}
    requires t'.clean == t.clean || (v.Good? && t'.clean == t.clean[fld.key := v.value])
    requires v.Good? && fld.kind.MultiSelect? ==> v.value.Arr?
    requires s'.seen == s.seen[fld.key := seen]
    ensures SameControllers(t', s')
  {
  }

  lemma GoodListsAreLists(fm: Formats, fld: D.Field, raw: Json)
    ensures Verdict(fm, fld, raw).Good? && fld.kind.MultiSelect? ==> Verdict(fm, fld, raw).value.Arr?
  {
    hide CheckValue;
    if CheckValue(fm, fld.kind, fld.options, fld.validation, raw).Good? {
      AcceptedIsStable(fm, fld.kind, fld.options, fld.validation, raw);
    }
  }

  /** Later fields do not take back a difference. */
  lemma PartedStays(fm: Formats, data: map<string, Json>, t: Tables, s: SdkTables, fld: D.Field)
    requires Parted(t, s) && fld.key !in t.types
    ensures Parted(Step(fm, data, t, fld), SdkStep(fm, ValuesAsRead(fm, data), s, FieldAsRead(fm, fld)))
  {
    hide Step, SdkStep, Verdict;
    var t', s' := Step(fm, data, t, fld), SdkStep(fm, ValuesAsRead(fm, data), s, FieldAsRead(fm, fld));
    var k :| k in t.types && Found(t.findings, k) != SdkFound(s.problems, k);
    StepShape(fm, data, t, fld);
    SdkStepShape(fm, ValuesAsRead(fm, data), s, FieldAsRead(fm, fld));
    FoundStays(t.findings, t'.findings, k, fld.key);
    SdkFoundStays(s.problems, s'.problems, k, fld.key);
  }

  lemma FoundStays(before: seq<Finding>, after: seq<Finding>, k: string, other: string)
    requires k != other
    requires after == before || exists f: Finding :: after == before + [f] && f.key == other
    ensures Found(after, k) <==> Found(before, k)
  {
    forall i | 0 <= i < |before| ensures after[i] == before[i] {}
  }

  lemma SdkFoundStays(before: seq<SdkProblem>, after: seq<SdkProblem>, k: string, other: string)
    requires k != other
    requires after == before || exists p: SdkProblem :: after == before + [p] && p.key == other
    ensures SdkFound(after, k) <==> SdkFound(before, k)
  {
    forall i | 0 <= i < |before| ensures after[i] == before[i] {}
  }

  /** At every visible field among the first n the limits agree. */
  ghost predicate AllLimitsAgree(fm: Formats, data: map<string, Json>, fields: seq<D.Field>, vis: map<string, bool>,
          n: nat)
    requires n <= |fields|
  {
    forall i :: 0 <= i < n && fields[i].key in vis && vis[fields[i].key] ==>
                  LimitsAgree(fm, fields[i], Get(data, fields[i].key))
  }

  ghost predicate KnownFields(fields: seq<D.Field>) {
    (forall i, j :: 0 <= i < j < |fields| ==> fields[i].key != fields[j].key) &&
    forall i :: 0 <= i < |fields| ==> !fields[i].kind.UnknownType?
  }

  /** The pass knows exactly the keys of the fields that it has passed. */
  ghost predicate Passed(fields: seq<D.Field>, t: Tables) {
    t.types.Keys == t.vis.Keys && (forall k :: k in t.types ==> exists i :: 0 <= i < |fields| && fields[i].key == k) &&
    (forall i :: 0 <= i < |fields| ==> fields[i].key in t.types) &&
    forall i :: 0 <= i < |t.findings| ==> t.findings[i].key in t.types
  }

  lemma {:induction false} PassKeys(fm: Formats, data: map<string, Json>, fields: seq<D.Field>)
    ensures Passed(fields, Pass(fm, data, fields))
  {
    hide Step, Verdict, Passed;
    if fields == [] {
      NothingPassed();
    } else {
      var front, last := fields[..|fields| - 1], fields[|fields| - 1];
      PassKeys(fm, data, front);
      OneMorePassed(fm, data, front, Pass(fm, data, front), last);
      assert fields == front + [last];
    }
  }

  lemma NothingPassed()
    ensures Passed([], EMPTY_TABLES)
  {
  }

  lemma OneMorePassed(fm: Formats, data: map<string, Json>, fields: seq<D.Field>, t: Tables, fld: D.Field)
    requires Passed(fields, t)
    ensures Passed(fields + [fld], Step(fm, data, t, fld))
  {
    hide Step, Verdict;
    StepShape(fm, data, t, fld);
    var all := fields + [fld];
    assert all[|fields|] == fld && forall i :: 0 <= i < |fields| ==> all[i] == fields[i];
  }

  lemma {:induction false} PassesAgree(fm: Formats, data: map<string, Json>, fields: seq<D.Field>)
    requires KnownFields(fields)
    ensures var t, s := Pass(fm, data, fields), SdkPass(fm, ValuesAsRead(fm, data), FieldsAsRead(fm, fields));
            if AllLimitsAgree(fm, data, fields, t.vis, |fields|) then Agree(fm, t, s) else Parted(t, s)
  {
    hide Step, SdkStep, Agree, Parted, LimitsAgree, FieldAsRead, Passed, KnownFields, ValuesAsRead, AllLimitsAgree;
    if fields == [] {
      NothingAgrees(fm);
      NothingIsLimited(fm, data, Pass(fm, data, fields).vis);
    } else {
      var front, fld := fields[..|fields| - 1], fields[|fields| - 1];
      FrontIsKnown(fields);
      PassesAgree(fm, data, front);
      PassKeys(fm, data, front);
      assert FieldsAsRead(fm, fields)[..|front|] == FieldsAsRead(fm, front);
      PassSteps(fm, data, Pass(fm, data, front), SdkPass(fm, ValuesAsRead(fm, data), FieldsAsRead(fm, front)), fields);
    }
  }

  lemma NothingIsLimited(fm: Formats, data: map<string, Json>, vis: map<string, bool>)
    ensures AllLimitsAgree(fm, data, [], vis, 0)
  {
  }

  lemma FrontIsKnown(fields: seq<D.Field>)
    requires KnownFields(fields) && fields != []
    ensures KnownFields(fields[..|fields| - 1])
  {
  }

  lemma PassSteps(fm: Formats, data: map<string, Json>, t: Tables, s: SdkTables, fields: seq<D.Field>)
    requires KnownFields(fields) && fields != [] && Passed(fields[..|fields| - 1], t)
    requires var n := |fields| - 1;
             if AllLimitsAgree(fm, data, fields[..n], t.vis, n) then Agree(fm, t, s) else Parted(t, s)
    ensures var fld := fields[|fields| - 1];
            var t', s' := Step(fm, data, t, fld), SdkStep(fm, ValuesAsRead(fm, data), s, FieldAsRead(fm, fld));
            if AllLimitsAgree(fm, data, fields, t'.vis, |fields|) then Agree(fm, t', s') else Parted(t', s')
  {
    hide Step, SdkStep, Agree, Parted, LimitsAgree, FieldAsRead, Verdict, Pass, AllLimitsAgree, ValuesAsRead, Get;
    var n := |fields| - 1;
    var fld := fields[n];
    var t' := Step(fm, data, t, fld);
    StepShape(fm, data, t, fld);
    NewKey(fields, t);
    FrontLimits(fm, data, fields, t.vis, t'.vis);
    if !AllLimitsAgree(fm, data, fields, t'.vis, n) {
      PartedStays(fm, data, t, s, fld);
    } else if t'.vis[fld.key] && !LimitsAgree(fm, fld, Get(data, fld.key)) {
      StepParts(fm, data, t, s, fld);
    } else {
      StepsAgree(fm, data, t, s, fld);
    }
  }

  lemma NewKey(fields: seq<D.Field>, t: Tables)
    requires KnownFields(fields) && fields != [] && Passed(fields[..|fields| - 1], t)
    ensures !fields[|fields| - 1].kind.UnknownType? && fields[|fields| - 1].key !in t.types
    ensures forall i :: 0 <= i < |t.findings| ==> t.findings[i].key != fields[|fields| - 1].key
  {
  }

  lemma FrontLimits(fm: Formats, data: map<string, Json>, fields: seq<D.Field>, vis: map<string, bool>,
          vis': map<string, bool>)
    requires fields != [] && KnownFields(fields)
    requires var k := fields[|fields| - 1].key;
             vis'.Keys == vis.Keys + {k} && forall j :: j in vis && j != k ==> vis'[j] == vis[j]
    ensures var n := |fields| - 1;
            (AllLimitsAgree(fm, data, fields[..n], vis, n) <==> AllLimitsAgree(fm, data, fields, vis', n)) &&
            (AllLimitsAgree(fm, data, fields, vis', |fields|) <==>
             AllLimitsAgree(fm, data, fields, vis', n) &&
             (vis'[fields[n].key] ==> LimitsAgree(fm, fields[n], Get(data, fields[n].key))))
  {
    hide LimitsAgree, Get;
    var n := |fields| - 1;
    forall i | 0 <= i < n ensures fields[..n][i] == fields[i] && fields[i].key != fields[n].key {}
  }

  lemma NothingAgrees(fm: Formats)
    ensures Agree(fm, EMPTY_TABLES, EMPTY_SDK_TABLES)
  {
  }

  /** On every form whose keys are distinct and whose field types are known, so on every valid form, the SDK, which
      reads every number as the nearest double, shows the same fields, cleans to the same data as it reads them, and
      has problems with the same answers, if and only if at every visible field the rounding of answer and limits does
      not carry the answer across a limit. */
  lemma EvaluatorsAgree(fm: Formats, data: map<string, Json>, fields: seq<D.Field>)
    requires KnownFields(fields)
    ensures var t, s := Pass(fm, data, fields), SdkPass(fm, ValuesAsRead(fm, data), FieldsAsRead(fm, fields));
            (t.vis == s.shown && s.clean == ValuesAsRead(fm, t.clean) && SameKeys(t.findings, s.problems)) <==>
            forall i :: 0 <= i < |fields| && fields[i].key in t.vis && t.vis[fields[i].key] ==>
              LimitsAgree(fm, fields[i], Get(data, fields[i].key))
  {
    hide LimitsAgree, SameControllers, Parted, SameKeys;
    PassesAgree(fm, data, fields);
    var t, s := Pass(fm, data, fields), SdkPass(fm, ValuesAsRead(fm, data), FieldsAsRead(fm, fields));
    if Parted(t, s) { PartedIsSeen(t, s); }
  }

  // ---- what the SDK says of one answer ------------------------------------------------------------------

  /** In terms of what was sent: a hidden field has neither a value nor a problem. A visible one has a value exactly if
      there is an accepted answer, other than an unticked box that must be ticked; and it has a problem exactly if it is
      required without an answer, or the answer is refused. */
  ghost predicate AnswerRead(fm: Formats, data: map<string, Json>, t: SdkTables, f: D.Field) {
    var k := f.key;
    k in t.shown &&
    (k in t.clean <==>
     t.shown[k] && k in data && SdkCheckValue(fm, f, data[k]).Provided? &&
     !(f.kind.Checkbox? && f.required && data[k] != Bool(true))) &&
    (k in t.clean ==> SdkCheckValue(fm, f, data[k]) == Provided(t.clean[k])) &&
    forall m :: SdkProblem(k, m) in t.problems <==>
      t.shown[k] &&
      ((m == Required && f.required && (k !in data || SdkCheckValue(fm, f, data[k]).NotProvided?)) ||
       (k in data && SdkCheckValue(fm, f, data[k]) == Invalid(m)) ||
       (m == TickBox && f.kind.Checkbox? && f.required && k in data && SdkCheckValue(fm, f, data[k]).Provided? &&
        data[k] != Bool(true)))
  }

  lemma {:induction false} SdkAnswerIsRead(fm: Formats, data: map<string, Json>, fields: seq<D.Field>, i: nat)
    requires i < |fields| && forall a, b :: 0 <= a < b < |fields| ==> fields[a].key != fields[b].key
    ensures AnswerRead(fm, data, SdkPass(fm, data, fields), fields[i])
  {
    hide SdkStep, AnswerRead;
    var n := |fields| - 1;
    var front, last := fields[..n], fields[n];
    var t := SdkPass(fm, data, front);
    if i < n {
      SdkAnswerIsRead(fm, data, front, i);
      OthersStayRead(fm, data, t, last, fields[i]);
    } else {
      SdkPassKeys(fm, data, front, last.key);
      LastIsRead(fm, data, t, last);
    }
  }

  lemma {:induction false} SdkPassKeys(fm: Formats, data: map<string, Json>, fields: seq<D.Field>, k: string)
    requires forall i :: 0 <= i < |fields| ==> fields[i].key != k
    ensures var t := SdkPass(fm, data, fields); k !in t.clean && forall m :: SdkProblem(k, m) !in t.problems
  {
    hide SdkShown, SdkVerdict, Get;
    if fields != [] { SdkPassKeys(fm, data, fields[..|fields| - 1], k); }
  }

  lemma OthersStayRead(fm: Formats, data: map<string, Json>, t: SdkTables, last: D.Field, f: D.Field)
    requires AnswerRead(fm, data, t, f) && f.key != last.key
    ensures AnswerRead(fm, data, SdkStep(fm, data, t, last), f)
  {
    hide SdkShown, SdkVerdict, Get, SdkCheckValue;
  }

  lemma LastIsRead(fm: Formats, data: map<string, Json>, t: SdkTables, f: D.Field)
    requires f.key !in t.clean && forall m :: SdkProblem(f.key, m) !in t.problems
    ensures AnswerRead(fm, data, SdkStep(fm, data, t, f), f)
  {
    hide SdkShown, SdkCheckValue;
    NothingIsNotProvided(fm, f);
    if f.key in data { TickedIsKept(fm, f, data[f.key]); }
  }

  lemma NothingIsNotProvided(fm: Formats, f: D.Field)
    ensures SdkCheckValue(fm, f, Null) == NotProvided
  {
  }

  lemma TickedIsKept(fm: Formats, f: D.Field, raw: Json)
    ensures f.kind.Checkbox? && SdkCheckValue(fm, f, raw).Provided? ==> SdkCheckValue(fm, f, raw).value == raw
  {
  }

  // ---- where numbers part -----------------------------------------------------------------------------------

  function NumberField(limit: real): D.Field {
    D.Field("k", D.Number, "K", "", "", false, [], Some(D.Validation(None, None, "", None, Some(limit))), None)
  }

  /** The server compares 2^53 + 1 with a limit of 2^53 digit by digit and refuses it, while the SDK has read the
      number as 2^53 and accepts it. */
  lemma InexactNumbersCanPass(fm: Formats)
    requires fm.round == RoundAbove53
    ensures var f, raw := NumberField(TWO_TO_53), Num(TWO_TO_53 + 1.0);
            CheckValue(fm, f.kind, f.options, f.validation, raw) == Bad(TooLarge(TWO_TO_53)) &&
            SdkCheckValue(fm, FieldAsRead(fm, f), Rounded(fm.round, raw)) == Provided(Num(TWO_TO_53)) &&
            !LimitsAgree(fm, f, raw)
  {
    NeighboursAreTakenForEqual();
    assert TWO_TO_53.Floor == 9007199254740992;
  }

  /** A double, 2^53 + 4, passes a limit of 2^53 + 3, which the SDK has read as 2^53 + 4. */
  lemma InexactLimitsCanPass(fm: Formats)
    requires fm.round == RoundAbove53
    ensures var f, raw := NumberField(TWO_TO_53 + 3.0), Num(TWO_TO_53 + 4.0);
            Exact(fm.round, raw) &&
            CheckValue(fm, f.kind, f.options, f.validation, raw) == Bad(TooLarge(TWO_TO_53 + 3.0)) &&
            SdkCheckValue(fm, FieldAsRead(fm, f), Rounded(fm.round, raw)) == Provided(raw) &&
            !LimitsAgree(fm, f, raw)
  {
    assert (TWO_TO_53 + 3.0).Floor == 9007199254740995 && (TWO_TO_53 + 4.0).Floor == 9007199254740996;
  }
}
