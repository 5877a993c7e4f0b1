/** YAML scalars: the analysis of a string, the choice of its style, and its quoted forms, which read back. */
module YamlScalars {
  import opened Common
  import Q = QEncoding

  predicate IsBreak(c: char) {
    c == '\r' || c == '\n' || c == '\U{85}' || c == '\U{2028}' || c == '\U{2029}'
  }

  predicate Printable(c: char) {
    var o := c as int;
    o == 0x0A || 0x20 <= o <= 0x7E || 0xA0 <= o <= 0xD7FF || (0xE000 <= o <= 0xFFFD && o != 0xFEFF)
  }

  // ---- analysis ----------------------------------------------------------------------------------------

  datatype Analysis = Analysis(multiline: bool, blockPlain: bool, singleOk: bool, blockOk: bool)

  predicate Space(c: char) { c == ' ' || c == '\t' }

  predicate FollowedBySpace(s: string, i: nat)
    requires i < |s|
  {
    i + 1 >= |s| || Space(s[i + 1])
  }

  predicate PrecededBySpace(s: string, i: nat)
    requires i < |s|
  {
    i == 0 || Space(s[i - 1]) || IsBreak(s[i - 1])
  }

  /** A character that means something to YAML where it stands. */
  predicate Indicator(s: string, i: nat)
    requires i < |s|
  {
    if i == 0 then s[0] in "#,[]{}&*!|>'\"%@`" || (s[0] in "?:-" && FollowedBySpace(s, 0))
    else (s[i] == ':' && FollowedBySpace(s, i)) || (s[i] == '#' && PrecededBySpace(s, i))
  }

  predicate Special(s: string, i: nat)
    requires i < |s|
  {
    s[i] != '\t' && !Printable(s[i])
  }

  predicate SpaceThenBreak(s: string, i: nat)
    requires i < |s|
  {
    IsBreak(s[i]) && i > 0 && s[i - 1] == ' '
  }

  predicate BreakThenSpace(s: string, i: nat)
    requires i < |s|
  {
    s[i] == ' ' && i > 0 && IsBreak(s[i - 1])
  }

  predicate Marker(s: string) {
    "---" <= s || "..." <= s
  }

  predicate HasIndicator(s: string) {
    Marker(s) || exists i :: 0 <= i < |s| && Indicator(s, i)
  }

  ghost predicate HasSpecial(s: string) { exists i :: 0 <= i < |s| && Special(s, i) }
  ghost predicate HasTab(s: string) { '\t' in s }
  ghost predicate HasBreak(s: string) { exists i :: 0 <= i < |s| && IsBreak(s[i]) }
  ghost predicate HasSpaceThenBreak(s: string) { exists i :: 0 <= i < |s| && SpaceThenBreak(s, i) }
  ghost predicate HasBreakThenSpace(s: string) { exists i :: 0 <= i < |s| && BreakThenSpace(s, i) }

  /** Which forms can hold the string, said without the scan. */
  ghost function Analyze(s: string): Analysis {
    if s == "" then Analysis(false, true, true, false)
    else
      var first, last := s[0], s[|s| - 1];
      var spoiled := HasSpaceThenBreak(s) || HasTab(s) || HasSpecial(s) || HasBreakThenSpace(s);
      Analysis(HasBreak(s),
               !spoiled && !HasBreak(s) && !HasIndicator(s) && first != ' ' && last != ' ',
               !spoiled,
               last != ' ' && !HasSpaceThenBreak(s) && !HasSpecial(s))
  }

  /** The flags that the scan has raised in the first n characters. */
  datatype Flags = Flags(indicator: bool, breaks: bool, special: bool, tabs: bool, breakSpace: bool, spaceBreak: bool)

  ghost predicate Scanned(s: string, n: nat, f: Flags)
    requires n <= |s|
  {
    (f.indicator <==> Marker(s) || exists i :: 0 <= i < n && Indicator(s, i)) &&
    (f.breaks <==> exists i :: 0 <= i < n && IsBreak(s[i])) &&
    (f.special <==> exists i :: 0 <= i < n && Special(s, i)) &&
    (f.tabs <==> exists i :: 0 <= i < n && s[i] == '\t') &&
    (f.breakSpace <==> exists i :: 0 <= i < n && BreakThenSpace(s, i)) &&
    (f.spaceBreak <==> exists i :: 0 <= i < n && SpaceThenBreak(s, i))
  }

  function Raise(s: string, i: nat, f: Flags): Flags
    requires i < |s|
  {
    Flags(f.indicator || Indicator(s, i), f.breaks || IsBreak(s[i]), f.special || Special(s, i), f.tabs || s[i] == '\t',
          f.breakSpace || BreakThenSpace(s, i), f.spaceBreak || SpaceThenBreak(s, i))
  }

  lemma RaiseScans(s: string, i: nat, f: Flags)
    requires i < |s| && Scanned(s, i, f)
    ensures Scanned(s, i + 1, Raise(s, i, f))
  {
    hide Indicator, Special, BreakThenSpace, SpaceThenBreak, Marker;
  }

  lemma ScannedAll(s: string, f: Flags)
    requires Scanned(s, |s|, f)
    ensures f ==
            Flags(HasIndicator(s), HasBreak(s), HasSpecial(s), HasTab(s), HasBreakThenSpace(s), HasSpaceThenBreak(s))
  {
    hide Indicator, Special, BreakThenSpace, SpaceThenBreak, Marker;
  }

  /** What the scan raises, in terms of what it keeps of the last character. */
  lemma RaiseIs(s: string, i: nat, f: Flags, prevSpace: bool, prevBreak: bool, indicator: bool)
    requires i < |s| && (prevSpace <==> i > 0 && s[i - 1] == ' ') && (prevBreak <==> i > 0 && IsBreak(s[i - 1]))
    requires indicator <==> Indicator(s, i)
    ensures Raise(s, i, f) ==
            Flags(f.indicator || indicator, f.breaks || IsBreak(s[i]),
                  f.special || (s[i] != '\t' && !Printable(s[i])), f.tabs || s[i] == '\t',
                  f.breakSpace || (s[i] == ' ' && prevBreak), f.spaceBreak || (IsBreak(s[i]) && prevSpace))
  {
    hide Indicator, Printable;
  }

  lemma Verdict(s: string, f: Flags, leadSpace: bool, trailSpace: bool)
    requires s != "" && Scanned(s, |s|, f) && (leadSpace <==> s[0] == ' ') && (trailSpace <==> s[|s| - 1] == ' ')
    ensures Analyze(s) ==
            Analysis(f.breaks,
                     !(leadSpace || trailSpace || f.breakSpace || f.spaceBreak || f.tabs || f.special || f.breaks ||
                       f.indicator),
                     !(f.breakSpace || f.spaceBreak || f.tabs || f.special),
                     !(trailSpace || f.spaceBreak || f.special))
  {
    hide HasIndicator, HasBreak, HasSpecial, HasTab, HasBreakThenSpace, HasSpaceThenBreak, Scanned;
    ScannedAll(s, f);
  }

  lemma BreaksAreSeen(s: string, f: Flags, i: nat)
    requires i < |s| && Scanned(s, |s|, f) && IsBreak(s[i])
    ensures f.breaks
  {
  }

  method Conclude(f: Flags, lead: bool, trailSpace: bool, trailBreak: bool) returns (a: Analysis)
    ensures a ==
            Analysis(f.breaks,
                     !(lead || trailSpace || trailBreak || f.breakSpace || f.spaceBreak || f.tabs || f.special ||
                       f.breaks || f.indicator),
                     !(f.breakSpace || f.spaceBreak || f.tabs || f.special),
                     !(trailSpace || f.spaceBreak || f.special))
  {
    var blockPlain, singleOk, blockOk := true, true, true;
    if lead || trailSpace || trailBreak {
      blockPlain := false;
    }
    if trailSpace {
      blockOk := false;
    }
    if f.breakSpace {
      blockPlain, singleOk := false, false;
    }
    if f.spaceBreak || f.tabs || f.special {
      blockPlain, singleOk := false, false;
    }
    if f.spaceBreak || f.special {
      blockOk := false;
    }
    if f.breaks || f.indicator {
      blockPlain := false;
    }
    return Analysis(f.breaks, blockPlain, singleOk, blockOk);
  }

  /** The scan keeps what the last character was instead of looking back. */
  method AnalyzeScalar(s: string) returns (a: Analysis)
    ensures a == Analyze(s)
  {
    hide Printable, IsBreak, Space, Scanned, Indicator, Special, SpaceThenBreak, BreakThenSpace, Marker, Raise, Analyze;
    if s == "" {
      NothingToAnalyze();
      return Analysis(false, true, true, false);
    }
    var f := Flags(Marker(s), false, false, false, false, false);
    var leadSpace, leadBreak, trailSpace, trailBreak := false, false, false, false;
    var prevSpace, prevBreak, precededBySpace := false, false, true;
    NothingScanned(s);
    SpaceIsNoBreak();
    for i := 0 to |s|
      invariant Scanned(s, i, f)
      invariant prevSpace <==> i > 0 && s[i - 1] == ' '
      invariant prevBreak <==> i > 0 && IsBreak(s[i - 1])
      invariant precededBySpace <==> i == 0 || Space(s[i - 1]) || IsBreak(s[i - 1])
      invariant leadSpace <==> i > 0 && s[0] == ' '
      invariant leadBreak <==> i > 0 && IsBreak(s[0])
      invariant trailSpace <==> i == |s| && s[|s| - 1] == ' '
      invariant trailBreak <==> i == |s| && IsBreak(s[|s| - 1])
    {
      var c := s[i];
      var next := f;
      ghost var was := (prevSpace, prevBreak);
      var indicator := IndicatorHere(s, i, precededBySpace);
      if indicator {
        next := next.(indicator := true);
      }
      if c == '\t' {
        next := next.(tabs := true);
      } else if !Printable(c) {
        next := next.(special := true);
      }
      if c == ' ' {
        leadSpace := leadSpace || i == 0;
        trailSpace := trailSpace || i == |s| - 1;
        next := next.(breakSpace := next.breakSpace || prevBreak);
        prevSpace, prevBreak := true, false;
      } else if IsBreak(c) {
        leadBreak := leadBreak || i == 0;
        trailBreak := trailBreak || i == |s| - 1;
        next := next.(breaks := true, spaceBreak := next.spaceBreak || prevSpace);
        prevSpace, prevBreak := false, true;
      } else {
        prevSpace, prevBreak := false, false;
      }
      precededBySpace := Space(c) || IsBreak(c);
      RaiseIs(s, i, f, was.0, was.1, indicator);
      RaiseScans(s, i, f);
      f := next;
    }
    Verdict(s, f, leadSpace, trailSpace);
    if leadBreak { BreaksAreSeen(s, f, 0); }
    if trailBreak { BreaksAreSeen(s, f, |s| - 1); }
    a := Conclude(f, leadSpace || leadBreak, trailSpace, trailBreak);
  }

  predicate IndicatorHere(s: string, i: nat, precededBySpace: bool)
    requires i < |s| && (precededBySpace <==> PrecededBySpace(s, i))
    ensures IndicatorHere(s, i, precededBySpace) <==> Indicator(s, i)
  {
    if i == 0 then s[0] in "#,[]{}&*!|>'\"%@`" || (s[0] in "?:-" && FollowedBySpace(s, 0))
    else (s[i] == ':' && FollowedBySpace(s, i)) || (s[i] == '#' && precededBySpace)
  }

  lemma SpaceIsNoBreak()
    ensures !IsBreak(' ')
  {
  }

  lemma NothingToAnalyze()
    ensures Analyze("") == Analysis(false, true, true, false)
  {
  }

  lemma NothingScanned(s: string)
    ensures Scanned(s, 0, Flags(Marker(s), false, false, false, false, false))
  {
  }

  // ---- styles --------------------------------------------------------------------------------------------

  datatype Style = Plain | Single | Double | Literal

  ghost function SelectStyle(s: string, requested: Style, simpleKey: bool): Style {
    var a := Analyze(s);
    var s1 := if simpleKey && a.multiline then Double else requested;
    var s2 := if s1.Plain? && (!a.blockPlain || (s == "" && simpleKey)) then Single else s1;
    var s3 := if s2.Single? && !a.singleOk then Double else s2;
    if s3.Literal? && (!a.blockOk || simpleKey) then Double else s3
  }

  method ChooseStyle(s: string, requested: Style, simpleKey: bool) returns (style: Style)
    ensures style == SelectStyle(s, requested, simpleKey)
  {
    hide Analyze;
    var a := AnalyzeScalar(s);
    style := requested;
    if simpleKey && a.multiline {
      style := Double;
    }
    if style.Plain? && (!a.blockPlain || (s == "" && simpleKey)) {
      style := Single;
    }
    if style.Single? && !a.singleOk {
      style := Double;
    }
    if style.Literal? && (!a.blockOk || simpleKey) {
      style := Double;
    }
  }

  // ---- double quotes -----------------------------------------------------------------------------------------

  function HexText(n: nat, width: nat): (r: string)
    ensures |r| == width
  {
    if width == 0 then "" else HexText(n / 16, width - 1) + [Q.Hex(n % 16)]
  }

  function HexNumber(s: string): Option<nat> {
    if s == "" then Some(0)
    else match (HexNumber(s[..|s| - 1]), Q.HexValue(s[|s| - 1]))
      case (Some(n), Some(d)) => Some(n * 16 + d)
      case _ => None
  }

  function Named(c: char): Option<char> {
    match c as int
    case 0x00 => Some('0') case 0x07 => Some('a') case 0x08 => Some('b') case 0x09 => Some('t') case 0x0A => Some('n')
    case 0x0B => Some('v') case 0x0C => Some('f') case 0x0D => Some('r') case 0x1B => Some('e') case 0x22 => Some('"')
    case 0x5C => Some('\\') case 0x85 => Some('N') case 0xA0 => Some('_') case 0x2028 => Some('L')
    case 0x2029 => Some('P')
    case _ => None
  }

  function Escape(c: char): string {
    var o := c as int;
    if Named(c).Some? then [Named(c).value]
    else if o <= 0xFF then "x" + HexText(o, 2)
    else if o <= 0xFFFF then "u" + HexText(o, 4)
    else "U" + HexText(o, 8)
  }

  predicate MustEscape(bom: bool, c: char) {
    !Printable(c) || bom || IsBreak(c) || c == '"' || c == '\\'
  }

  function Quoted(bom: bool, c: char): string {
    if MustEscape(bom, c) then "\\" + Escape(c) else [c]
  }

  function Body(bom: bool, s: string): string {
    if s == "" then "" else Quoted(bom, s[0]) + Body(bom, s[1..])
  }

  predicate HasBom(s: string) {
    s != "" && s[0] == '\U{FEFF}'
  }

  function DoubleQuoted(s: string): string {
    "\"" + Body(HasBom(s), s) + "\""
  }

  /** The body of the double-quoted form, character by character. */
  method DoubleQuotedBody(s: string) returns (out: string)
    ensures out == Body(HasBom(s), s)
  {
    hide Quoted;
    var bom := HasBom(s);
    out := "";
    for i := 0 to |s|
      invariant out + Body(bom, s[i..]) == Body(bom, s)
    {
      assert s[i..][0] == s[i] && s[i..][1..] == s[i + 1..];
      assert out + (Quoted(bom, s[i]) + Body(bom, s[i + 1..])) == (out + Quoted(bom, s[i])) + Body(bom, s[i + 1..]);
      out := out + Quoted(bom, s[i]);
    }
  }

  /** Escape sequences of section 5.7 of YAML 1.2.2, without the numeric ones. */
  function Unnamed(c: char): Option<char> {
    match c
    case '0' => Some('\0') case 'a' => Some('\U{7}') case 'b' => Some('\U{8}') case 't' => Some('\t')
    case '\t' => Some('\t') case 'n' => Some('\n') case 'v' => Some('\U{B}') case 'f' => Some('\U{C}')
    case 'r' => Some('\r') case 'e' => Some('\U{1B}')
    case ' ' => Some(' ') case '"' => Some('"') case '/' => Some('/') case '\\' => Some('\\') case 'N' => Some('\U{85}')
    case '_' => Some('\U{A0}') case 'L' => Some('\U{2028}') case 'P' => Some('\U{2029}')
    case _ => None
  }

  function Width(c: char): nat {
    if c == 'x' then 2 else if c == 'u' then 4 else if c == 'U' then 8 else 0
  }

  predicate IsScalarValue(n: nat) {
    n < 0xD800 || 0xE000 <= n <= 0x10FFFF
  }

  function Prepend(c: char, rest: Option<string>): Option<string> {
    if rest.Some? then Some([c] + rest.value) else None
  }

  /** Reads the text between double quotes on one line; None is not a double-quoted scalar. */
  function Decode(t: string): Option<string>
    decreases |t|
  {
    if t == "" then Some("")
    else if t[0] == '"' || (t[0] < ' ' && t[0] != '\t') then None
    else if t[0] != '\\' then Prepend(t[0], Decode(t[1..]))
    else if |t| < 2 then None
    else
      var w := Width(t[1]);
      if w == 0 then
        if Unnamed(t[1]).None? then None else Prepend(Unnamed(t[1]).value, Decode(t[2..]))
      else if |t| < 2 + w || HexNumber(t[2..2 + w]).None? || !IsScalarValue(HexNumber(t[2..2 + w]).value) then None
      else Prepend(HexNumber(t[2..2 + w]).value as char, Decode(t[2 + w..]))
  }

  function Pow16(w: nat): nat {
    if w == 0 then 1 else 16 * Pow16(w - 1)
  }

  lemma {:induction false} HexTextReads(n: nat, width: nat)
    requires n < Pow16(width)
    ensures HexNumber(HexText(n, width)) == Some(n)
  {
    hide Q.Hex, Q.HexValue, Pow16;
    OneBelow();
    if width > 0 {
      Narrower(n, width);
      HexTextReads(n / 16, width - 1);
      Q.HexRoundTrip(n % 16);
      var t := HexText(n, width);
      assert t[..|t| - 1] == HexText(n / 16, width - 1);
    }
  }

  lemma OneBelow()
    ensures Pow16(0) == 1
  {
  }

  lemma Narrower(n: nat, width: nat)
    requires width > 0 && n < Pow16(width)
    ensures n / 16 < Pow16(width - 1)
  {
  }

  lemma PowersOf16()
    ensures Pow16(2) == 0x100 && Pow16(4) == 0x1_0000 && Pow16(8) == 0x1_0000_0000
  {
    assert Pow16(3) == 0x1000 && Pow16(5) == 0x10_0000 && Pow16(6) == 0x100_0000 && Pow16(7) == 0x1000_0000;
  }

  lemma NamesRead(c: char)
    requires Named(c).Some?
    ensures Width(Named(c).value) == 0 && Unnamed(Named(c).value) == Some(c)
  {
  }

  lemma EscapeReads(c: char, rest: string)
    ensures Decode("\\" + Escape(c) + rest) == Prepend(c, Decode(rest))
  {
    hide Named, Unnamed, HexText, HexNumber, Prepend;
    var t := "\\" + Escape(c) + rest;
    if Named(c).Some? {
      NamesRead(c);
      assert t[2..] == rest;
    } else {
      var w := if c as int <= 0xFF then 2 else if c as int <= 0xFFFF then 4 else 8;
      PowersOf16();
      HexTextReads(c as int, w);
      assert t[2..2 + w] == HexText(c as int, w) && t[2 + w..] == rest;
      assert Width(t[1]) == w;
      assert IsScalarValue(c as int);
    }
  }

  lemma QuotedReads(bom: bool, c: char, rest: string)
    ensures Decode(Quoted(bom, c) + rest) == Prepend(c, Decode(rest))
  {
    hide Escape, Unnamed, HexNumber, Prepend;
    if MustEscape(bom, c) {
      EscapeReads(c, rest);
    } else {
      assert (Quoted(bom, c) + rest)[1..] == rest;
    }
  }

  lemma {:induction false} BodyReads(bom: bool, s: string)
    ensures Decode(Body(bom, s)) == Some(s)
  {
    hide Quoted;
    if s != "" {
      BodyReads(bom, s[1..]);
      QuotedReads(bom, s[0], Body(bom, s[1..]));
      assert s == [s[0]] + s[1..];
    }
  }

  /** Every string in double quotes reads back, and its quoted form stays on one line. */
  lemma DoubleQuotedRoundTrip(s: string)
    ensures var q := DoubleQuoted(s);
            |q| >= 2 && q[0] == '"' && q[|q| - 1] == '"' && Decode(q[1..|q| - 1]) == Some(s)
    ensures !HasBreak(DoubleQuoted(s))
  {
    hide Decode;
    var q := DoubleQuoted(s);
    assert q[1..|q| - 1] == Body(HasBom(s), s);
    BodyReads(HasBom(s), s);
    BodyHasNoBreak(HasBom(s), s);
  }

  lemma {:induction false} BodyHasNoBreak(bom: bool, s: string)
    ensures forall i :: 0 <= i < |Body(bom, s)| ==> !IsBreak(Body(bom, s)[i])
  {
    hide Quoted;
    if s != "" {
      BodyHasNoBreak(bom, s[1..]);
      QuotedHasNoBreak(bom, s[0]);
    }
  }

  lemma QuotedHasNoBreak(bom: bool, c: char)
    ensures forall i :: 0 <= i < |Quoted(bom, c)| ==> !IsBreak(Quoted(bom, c)[i])
  {
    hide HexText;
    if MustEscape(bom, c) && Named(c).None? {
      HexHasNoBreak(c as int, if c as int <= 0xFF then 2 else if c as int <= 0xFFFF then 4 else 8);
    }
  }

  lemma {:induction false} HexHasNoBreak(n: nat, width: nat)
    ensures forall i :: 0 <= i < width ==> !IsBreak(HexText(n, width)[i])
  {
    if width > 0 {
      HexHasNoBreak(n / 16, width - 1);
    }
  }

  // ---- single quotes -----------------------------------------------------------------------------------------

  function SingleBody(s: string): string {
    if s == "" then "" else (if s[0] == '\'' then "''" else [s[0]]) + SingleBody(s[1..])
  }

  /** Reads the text between single quotes on one line: a quote is written twice. */
  function DecodeSingle(t: string): Option<string>
    decreases |t|
  {
    if t == "" then Some("")
    else if t[0] != '\'' then Prepend(t[0], DecodeSingle(t[1..]))
    else if |t| < 2 || t[1] != '\'' then None
    else Prepend('\'', DecodeSingle(t[2..]))
  }

  lemma SingleCharReads(c: char, rest: string)
    ensures DecodeSingle((if c == '\'' then "''" else [c]) + rest) == Prepend(c, DecodeSingle(rest))
  {
    hide Prepend;
    if c == '\'' {
      assert ("''" + rest)[2..] == rest;
    } else {
      assert ([c] + rest)[1..] == rest;
    }
  }

  lemma {:induction false} SingleQuotedRoundTrip(s: string)
    ensures DecodeSingle(SingleBody(s)) == Some(s)
  {
    if s != "" {
      hide DecodeSingle;
      SingleQuotedRoundTrip(s[1..]);
      SingleCharReads(s[0], SingleBody(s[1..]));
      assert s == [s[0]] + s[1..];
    }
  }
}
