/** Which style a string is written in, and what its quoted characters look like, said without the analysis. */
module YamlStyles {
  import opened Common
  import opened YamlScalars

  /** A character that can stand for itself on a line. */
  predicate Ordinary(c: char) {
    var o := c as int;
    0x20 <= o <= 0x7E || (0xA0 <= o <= 0xD7FF && o != 0x2028 && o != 0x2029) || (0xE000 <= o <= 0xFFFD && o != 0xFEFF)
  }

  /** A character that is no indicator where it stands. */
  ghost predicate PlainHere(s: string, i: nat)
    requires i < |s|
  {
    if i == 0 then s[0] !in "#,[]{}&*!|>'\"%@`" && (s[0] in "?:-" ==> |s| > 1 && s[1] != ' ')
    else (s[i] == ':' ==> i + 1 < |s| && s[i + 1] != ' ') && (s[i] == '#' ==> s[i - 1] != ' ')
  }

  /** A string that YAML reads as one plain scalar on a line: no indicator where it would mean something, and no space
      at an end. */
  ghost predicate ReadsPlain(s: string) {
    s != "" && (forall i :: 0 <= i < |s| ==> Ordinary(s[i])) &&
    s[0] != ' ' && s[|s| - 1] != ' ' && !("---" <= s) && !("..." <= s) &&
    forall i :: 0 <= i < |s| ==> PlainHere(s, i)
  }

  lemma OrdinaryIs(c: char)
    ensures Ordinary(c) <==> c != '\t' && Printable(c) && !IsBreak(c)
  {
  }

  lemma SpaceInOrdinary(c: char)
    requires Ordinary(c)
    ensures Space(c) <==> c == ' '
    ensures !IsBreak(c)
  {
  }

  lemma IndicatorIs(s: string, i: nat)
    requires i < |s| && forall j :: 0 <= j < |s| ==> Ordinary(s[j])
    ensures Indicator(s, i) <==> !PlainHere(s, i)
  {
    hide Ordinary, Space, IsBreak;
    forall j | 0 <= j < |s| ensures (Space(s[j]) <==> s[j] == ' ') && !IsBreak(s[j]) { SpaceInOrdinary(s[j]); }
  }

  lemma NoIndicator(s: string)
    requires s != "" && forall i :: 0 <= i < |s| ==> Ordinary(s[i])
    ensures !HasIndicator(s) <==> !("---" <= s) && !("..." <= s) && forall i :: 0 <= i < |s| ==> PlainHere(s, i)
  {
    hide Ordinary, Indicator, PlainHere;
    forall i | 0 <= i < |s| ensures Indicator(s, i) <==> !PlainHere(s, i) { IndicatorIs(s, i); }
  }

  /** A string is written plain, where that is asked for, exactly if it reads as one plain scalar. */
  lemma PlainExactlyWhen(s: string, simpleKey: bool)
    ensures SelectStyle(s, Plain, simpleKey).Plain? <==> if s == "" then !simpleKey else ReadsPlain(s)
  {
    hide Ordinary, HasIndicator, Printable, IsBreak;
    if s != "" {
      forall i | 0 <= i < |s| ensures Ordinary(s[i]) <==> s[i] != '\t' && Printable(s[i]) && !IsBreak(s[i]) {
        OrdinaryIs(s[i]);
      }
      PlainNeedsOrdinary(s);
      if forall i :: 0 <= i < |s| ==> Ordinary(s[i]) { NoIndicator(s); }
    }
  }

  lemma PlainNeedsOrdinary(s: string)
    requires s != ""
    ensures Analyze(s).blockPlain <==>
            (forall i :: 0 <= i < |s| ==> s[i] != '\t' && Printable(s[i]) && !IsBreak(s[i])) &&
            !HasIndicator(s) && s[0] != ' ' && s[|s| - 1] != ' '
  {
    hide HasIndicator, Printable, IsBreak;
    if Analyze(s).blockPlain {
      forall i | 0 <= i < |s| ensures s[i] != '\t' && Printable(s[i]) && !IsBreak(s[i]) {
        assert !Special(s, i);
      }
    }
  }

  /** What single quotes cannot hold: a character that must be escaped, a tab, or a space next to a line break. */
  ghost predicate NeedsEscapes(s: string) {
    (exists i :: 0 <= i < |s| && s[i] != '\n' && s[i] != '\U{2028}' && s[i] != '\U{2029}' && !Ordinary(s[i])) ||
    exists i :: 0 < i < |s| && ((s[i - 1] == ' ' && IsBreak(s[i])) || (IsBreak(s[i - 1]) && s[i] == ' '))
  }

  /** A string for which plain is asked is put into double quotes exactly if single quotes cannot hold it, or if it is
      a key of several lines. */
  lemma DoubleExactlyWhen(s: string, simpleKey: bool)
    ensures SelectStyle(s, Plain, simpleKey).Double? <==> NeedsEscapes(s) || (simpleKey && HasBreak(s))
  {
    hide Ordinary, HasIndicator, Printable, IsBreak;
    if s != "" {
      SingleOkIs(s);
      PlainNeedsOrdinary(s);
      forall i | 0 <= i < |s|
        ensures (s[i] == '\n' || s[i] == '\U{2028}' || s[i] == '\U{2029}' || Ordinary(s[i])) <==>
                s[i] != '\t' && Printable(s[i])
      {
        EscapedIs(s[i]);
      }
      if NeedsEscapes(s) { assert !Analyze(s).blockPlain; }
    }
  }

  lemma EscapedIs(c: char)
    ensures (c == '\n' || c == '\U{2028}' || c == '\U{2029}' || Ordinary(c)) <==> c != '\t' && Printable(c)
  {
  }

  lemma SingleOkIs(s: string)
    requires s != ""
    ensures Analyze(s).singleOk <==>
            (forall i :: 0 <= i < |s| ==> s[i] != '\t' && Printable(s[i])) &&
            forall i :: 0 < i < |s| ==> !(s[i - 1] == ' ' && IsBreak(s[i])) && !(IsBreak(s[i - 1]) && s[i] == ' ')
    ensures Analyze(s).multiline <==> HasBreak(s)
  {
    hide HasIndicator, Printable, IsBreak;
    if Analyze(s).singleOk {
      forall i | 0 <= i < |s|
        ensures s[i] != '\t' && Printable(s[i])
        ensures i > 0 ==> !(s[i - 1] == ' ' && IsBreak(s[i])) && !(IsBreak(s[i - 1]) && s[i] == ' ')
      {
        assert !Special(s, i) && !SpaceThenBreak(s, i) && !BreakThenSpace(s, i);
      }
    }
  }

  // ---- double quotes ---------------------------------------------------------------------------------------

  /** The characters that have a letter of their own, and their letters. */
  const LETTERED := "\0\U{7}\U{8}\t\n\U{B}\U{C}\r\U{1B}\"\\\U{85}\U{A0}\U{2028}\U{2029}"
  const LETTERS := "0abtnvfre\"\\N_LP"

  /** Between double quotes an ordinary character other than the quote and the backslash stands for itself, unless the
      string begins with a byte order mark; any other is a backslash with its letter or its hexadecimal number. */
  lemma CharactersAreQuoted(bom: bool, c: char)
    ensures var q := Quoted(bom, c);
            if !bom && Ordinary(c) && c != '"' && c != '\\' then q == [c]
            else if c in LETTERED then exists k :: 0 <= k < |LETTERED| && LETTERED[k] == c && q == ['\\', LETTERS[k]]
            else
              var w := if c as int <= 0xFF then 2 else if c as int <= 0xFFFF then 4 else 8;
              |q| == 2 + w && q[0] == '\\' && q[1] == (if w == 2 then 'x' else if w == 4 then 'u' else 'U') &&
              HexNumber(q[2..]) == Some(c as int)
  {
    hide HexText, HexNumber;
    NamedIs(c);
    if c !in LETTERED {
      var w := if c as int <= 0xFF then 2 else if c as int <= 0xFFFF then 4 else 8;
      PowersOf16();
      HexTextReads(c as int, w);
      assert Escape(c)[1..] == HexText(c as int, w) && Quoted(true, c)[2..] == Escape(c)[1..];
    }
  }

  lemma NamedIs(c: char)
    ensures Named(c).Some? <==> c in LETTERED
    ensures Named(c).Some? ==> exists k :: 0 <= k < |LETTERED| && LETTERED[k] == c && LETTERS[k] == Named(c).value
  {
    if Named(c).Some? {
      var k := LetterAt(c);
    }
  }

  lemma LetterAt(c: char) returns (k: nat)
    requires Named(c).Some?
    ensures k < |LETTERED| && LETTERED[k] == c && LETTERS[k] == Named(c).value
  {
    k := match c as int
      case 0x00 => 0 case 0x07 => 1 case 0x08 => 2 case 0x09 => 3 case 0x0A => 4 case 0x0B => 5 case 0x0C => 6
      case 0x0D => 7 case 0x1B => 8 case 0x22 => 9 case 0x5C => 10 case 0x85 => 11 case 0xA0 => 12 case 0x2028 => 13
      case _ => 14;
  }

  /** Ordinary text without quotes and backslashes is kept between its quotes. */
  lemma OrdinaryTextIsKept(s: string)
    requires forall i :: 0 <= i < |s| ==> Ordinary(s[i]) && s[i] != '"' && s[i] != '\\'
    ensures DoubleQuoted(s) == "\"" + s + "\""
  {
    BodyIsKept(s);
  }

  lemma {:induction false} BodyIsKept(s: string)
    requires forall i :: 0 <= i < |s| ==> Ordinary(s[i]) && s[i] != '"' && s[i] != '\\'
    ensures Body(false, s) == s
  {
    hide Ordinary, Quoted;
    if s != "" {
      CharactersAreQuoted(false, s[0]);
      BodyIsKept(s[1..]);
    }
  }
}
