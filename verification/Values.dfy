/** Validation and normalization of one answer. */
module Values {
  import opened Common
  import opened JsonValues
  import opened Text
  import D = Definitions

  datatype Message =
    | MustBeString | BadEmail | BadUrl | BadDate | NotAnOption | TooShort(n: int) | TooLong(n: int) | BadFormat
    | MustBeNumber | TooSmall(r: real) | TooLarge(r: real) | MustBeBoolean
    | MustBeOptionList | UnknownChoice | DuplicateChoice | UnsupportedType
    | IsRequired | MustBeChecked

  /** Not provided, present but invalid, or present with its normal form. */
  datatype Checked = Absent | Bad(message: Message) | Good(value: Json)

  /** A missing answer reads as null. */
  function Get(data: map<string, Json>, key: string): Json {
    if key in data then data[key] else Null
  }

  predicate HasOption(options: seq<D.Choice>, v: string) {
    exists i :: 0 <= i < |options| && options[i].value == v
  }

  predicate IsStringType(t: D.FieldType) {
    t.Text? || t.TextArea? || t.Email? || t.Url? || t.Date? || t.Select?
  }

  function CheckString(fm: Formats, t: D.FieldType, options: seq<D.Choice>, v: Option<D.Validation>,
        s: string): Option<Message> {
    if t.Email? && !fm.isEmail(s) then Some(BadEmail)
    else if t.Url? && !fm.isHttpUrl(s) then Some(BadUrl)
    else if t.Date? && !fm.isDate(s) then Some(BadDate)
    else if t.Select? && !HasOption(options, s) then Some(NotAnOption)
    else if v.None? then None
    else if v.value.minLength.Some? && |s| < v.value.minLength.value then Some(TooShort(v.value.minLength.value))
    else if v.value.maxLength.Some? && |s| > v.value.maxLength.value then Some(TooLong(v.value.maxLength.value))
    else if v.value.pattern != "" && !fm.matches(v.value.pattern, s) then Some(BadFormat)
    else None
  }

  predicate AllStrings(items: seq<Json>) {
    forall i :: 0 <= i < |items| ==> items[i].Str?
  }

  predicate KnownChoice(options: seq<D.Choice>, v: Json) {
    v.Str? && HasOption(options, v.s)
  }

  /** The verdict on a list of choices, decided by its first offending item. */
  function CheckChoices(options: seq<D.Choice>, items: seq<Json>, i: nat): Checked
    requires i <= |items|
    decreases |items| - i
  {
    if i == |items| then Good(Arr(items))
    else if !KnownChoice(options, items[i]) then Bad(UnknownChoice)
    else if items[i] in items[..i] then Bad(DuplicateChoice)
    else CheckChoices(options, items, i + 1)
  }

  /** The loop over a multiselect answer, with its set of choices seen so far. */
  method ScanChoices(options: seq<D.Choice>, items: seq<Json>) returns (r: Checked)
    requires AllStrings(items)
    ensures r == CheckChoices(options, items, 0)
  {
    var seen: set<Json> := {};
    var out: seq<Json> := [];
    for i := 0 to |items|
      invariant forall v :: v in seen <==> v in items[..i]
      invariant out == items[..i]
      invariant CheckChoices(options, items, 0) == CheckChoices(options, items, i)
    {
      if !KnownChoice(options, items[i]) {
        return Bad(UnknownChoice);
      }
      if items[i] in seen {
        return Bad(DuplicateChoice);
      }
      seen := seen + {items[i]};
      out := out + [items[i]];
    }
    assert items[..|items|] == items;
    return Good(Arr(out));
  }

  /** A list of choices is accepted, unchanged, exactly when it holds distinct known options. */
  lemma {:induction false} ChoicesAccepted(options: seq<D.Choice>, items: seq<Json>, i: nat)
    requires i <= |items|
    requires forall j :: 0 <= j < i ==> KnownChoice(options, items[j]) && items[j] !in items[..j]
    ensures CheckChoices(options, items, i).Bad? || CheckChoices(options, items, i) == Good(Arr(items))
    ensures CheckChoices(options, items, i).Good? <==>
            (forall j :: 0 <= j < |items| ==> KnownChoice(options, items[j])) && NoDuplicates(items)
    decreases |items| - i
  {
    if i < |items| && KnownChoice(options, items[i]) && items[i] !in items[..i] {
      ChoicesAccepted(options, items, i + 1);
    } else if i < |items| && items[i] in items[..i] {
      var j :| 0 <= j < i && items[j] == items[i];
      assert !NoDuplicates(items);
    } else if i == |items| {
      forall a, b | 0 <= a < b < |items| ensures items[a] != items[b] {
        assert items[b] !in items[..b] && items[a] == items[..b][a];
      }
    }
  }

  function CheckValue(fm: Formats, t: D.FieldType, options: seq<D.Choice>, v: Option<D.Validation>,
        raw: Json): Checked {
    if raw.Null? then Absent
    else if IsStringType(t) then
      if !raw.Str? then Bad(MustBeString)
      else
        var s := Trim(fm.space, raw.s);
        if s == "" then Absent
        else match CheckString(fm, t, options, v, s)
          case Some(m) => Bad(m)
          case None => Good(Str(s))
    else match t
      case Number =>
        if ToNumber(raw).None? then Bad(MustBeNumber)
        else
          var n := ToNumber(raw).value;
          if v.Some? && v.value.min.Some? && n < v.value.min.value then Bad(TooSmall(v.value.min.value))
          else if v.Some? && v.value.max.Some? && n > v.value.max.value then Bad(TooLarge(v.value.max.value))
          else Good(Num(n))
      case Checkbox => if raw.Bool? then Good(raw) else Bad(MustBeBoolean)
      case MultiSelect =>
        if !raw.Arr? || !AllStrings(raw.items) then Bad(MustBeOptionList)
        else if raw.items == [] then Absent
        else CheckChoices(options, raw.items, 0)
      case _ => Bad(UnsupportedType)
  }

  /** A stored value is a fixed point: checking an accepted answer again accepts it unchanged. */
  lemma AcceptedIsStable(fm: Formats, t: D.FieldType, options: seq<D.Choice>, v: Option<D.Validation>, raw: Json)
    requires CheckValue(fm, t, options, v, raw).Good?
    ensures CheckValue(fm, t, options, v, CheckValue(fm, t, options, v, raw).value) ==
            CheckValue(fm, t, options, v, raw)
    ensures t.MultiSelect? ==> CheckValue(fm, t, options, v, raw).value.Arr?
    ensures !CheckValue(fm, t, options, v, raw).value.Null?
  {
    if IsStringType(t) {
      TrimIsIdempotent(fm.space, raw.s);
    } else if t.MultiSelect? {
      ChoicesAccepted(options, raw.items, 0);
    }
  }

  /** Which answers of a text field, or a choice, count as missing and which are accepted: what is left after trimming
      decides, and is the value. */
  lemma TextAnswers(fm: Formats, t: D.FieldType, options: seq<D.Choice>, v: Option<D.Validation>, raw: Json)
    requires t.Text? || t.TextArea? || t.Email? || t.Url? || t.Date? || t.Select?
    ensures var r := CheckValue(fm, t, options, v, raw);
            (r.Absent? <==> raw.Null? || (raw.Str? && Trim(fm.space, raw.s) == "")) &&
            (r.Good? <==>
             raw.Str? && Trim(fm.space, raw.s) != "" &&
             var s := Trim(fm.space, raw.s);
             (t.Email? ==> fm.isEmail(s)) && (t.Url? ==> fm.isHttpUrl(s)) && (t.Date? ==> fm.isDate(s)) &&
             (t.Select? ==> exists i :: 0 <= i < |options| && options[i].value == s) &&
             (v.Some? && v.value.minLength.Some? ==> |s| >= v.value.minLength.value) &&
             (v.Some? && v.value.maxLength.Some? ==> |s| <= v.value.maxLength.value) &&
             (v.Some? && v.value.pattern != "" ==> fm.matches(v.value.pattern, s))) &&
            (r.Good? ==> r.value == Str(Trim(fm.space, raw.s)))
  {
    hide Trim, CheckChoices;
  }

  /** A number is accepted within its limits, a box with either answer, and as they are. */
  lemma NumbersAndBoxes(fm: Formats, t: D.FieldType, options: seq<D.Choice>, v: Option<D.Validation>, raw: Json)
    requires t.Number? || t.Checkbox?
    ensures var r := CheckValue(fm, t, options, v, raw);
            (r.Absent? <==> raw.Null?) && (r.Good? ==> r.value == raw) &&
            (t.Number? ==>
               (r.Good? <==>
                raw.Num? && (v.Some? && v.value.min.Some? ==> raw.n >= v.value.min.value) &&
                (v.Some? && v.value.max.Some? ==> raw.n <= v.value.max.value))) &&
            (t.Checkbox? ==> (r.Good? <==> raw.Bool?))
  {
    hide Trim, CheckChoices, CheckString;
  }

  /** A string that is the value of an option. */
  ghost predicate Offered(options: seq<D.Choice>, v: Json) {
    v.Str? && exists i :: 0 <= i < |options| && options[i].value == v.s
  }

  /** A list of choices counts as missing if it is empty, and is accepted, as it is, if it holds different options of
      the field and nothing else. */
  lemma ListAnswers(fm: Formats, t: D.FieldType, options: seq<D.Choice>, v: Option<D.Validation>, raw: Json)
    requires t.MultiSelect?
    ensures var r := CheckValue(fm, t, options, v, raw);
            (r.Absent? <==> raw.Null? || raw == Arr([])) && (r.Good? ==> r.value == raw) &&
            (r.Good? <==>
             raw.Arr? && raw.items != [] && NoDuplicates(raw.items) &&
             forall j :: 0 <= j < |raw.items| ==> Offered(options, raw.items[j]))
  {
    hide CheckValue, Trim, CheckChoices, CheckString, NoDuplicates, KnownChoice, AllStrings, Offered;
    if raw.Arr? {
      ChoicesAccepted(options, raw.items, 0);
      ChoicesAreKnown(options, raw.items);
      ListChecked(fm, t, options, v, raw);
      assert raw == Arr(raw.items);
    } else {
      OnlyLists(fm, t, options, v, raw);
    }
  }

  lemma ChoicesAreKnown(options: seq<D.Choice>, items: seq<Json>)
    ensures (forall j :: 0 <= j < |items| ==> KnownChoice(options, items[j])) <==>
            forall j :: 0 <= j < |items| ==> Offered(options, items[j])
    ensures (forall j :: 0 <= j < |items| ==> KnownChoice(options, items[j])) ==> AllStrings(items)
  {
    hide KnownChoice, Offered;
    forall j | 0 <= j < |items| { ChoiceIsKnown(options, items[j]); }
  }

  lemma ChoiceIsKnown(options: seq<D.Choice>, v: Json)
    ensures KnownChoice(options, v) <==> Offered(options, v)
    ensures KnownChoice(options, v) ==> v.Str?
  {
  }

  lemma OnlyLists(fm: Formats, t: D.FieldType, options: seq<D.Choice>, v: Option<D.Validation>, raw: Json)
    requires t.MultiSelect? && !raw.Arr?
    ensures CheckValue(fm, t, options, v, raw) == if raw.Null? then Absent else Bad(MustBeOptionList)
  {
  }

  lemma ListChecked(fm: Formats, t: D.FieldType, options: seq<D.Choice>, v: Option<D.Validation>, raw: Json)
    requires t.MultiSelect? && raw.Arr?
    ensures var r := CheckValue(fm, t, options, v, raw);
            if raw.items == [] then r == Absent
            else if AllStrings(raw.items) then r == CheckChoices(options, raw.items, 0) else r.Bad?
  {
    hide Trim, CheckChoices;
  }
}
