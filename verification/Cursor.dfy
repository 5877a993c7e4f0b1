/** The opaque page cursor: a time and an id as text, in unpadded base64url, and back. */
module Cursor {
  import opened Common

  datatype Time = Time(year: nat, month: nat, day: nat, hour: nat, minute: nat, second: nat, micro: nat)

  datatype Position = Position(at: Time, id: nat)

  function DaysIn(year: nat, month: nat): nat {
    if month == 2 then (if year % 4 == 0 && (year % 100 != 0 || year % 400 == 0) then 29 else 28)
    else if month in {4, 6, 9, 11} then 30 else 31
  }

  /** A civil time. */
  predicate ValidTime(t: Time) {
    1 <= t.year <= 9999 && 1 <= t.month <= 12 && 1 <= t.day <= DaysIn(t.year, t.month) &&
    t.hour < 24 && t.minute < 60 && t.second < 60 && t.micro < 1000000
  }

  const UUID_BOUND: nat := 0x1_0000_0000_0000_0000_0000_0000_0000_0000

  predicate ValidPosition(p: Position) {
    ValidTime(p.at) && p.id < UUID_BOUND
  }

  /** The reader expects a year of four digits, and the writer does not fill years up. */
  predicate HasLongYear(p: Position) {
    p.at.year >= 1000
  }

  // ---- numerals of fixed width ------------------------------------------------------------------

  const DIGITS := "0123456789abcdef"

  function Power(base: nat, n: nat): nat {
    if n == 0 then 1 else base * Power(base, n - 1)
  }

  function DigitValue(base: nat, c: char): Option<nat> {
    if '0' <= c <= '9' && c as int - '0' as int < base then Some(c as int - '0' as int)
    else if 'a' <= c <= 'f' && c as int - 'a' as int + 10 < base then Some(c as int - 'a' as int + 10)
    else None
  }

  function Fixed(base: nat, n: nat, width: nat): (r: string)
    requires 2 <= base <= 16
    ensures |r| == width
  {
    if width == 0 then "" else Fixed(base, n / base, width - 1) + [DIGITS[n % base]]
  }

  function Parse(base: nat, s: string): Option<nat> {
    if s == "" then Some(0)
    else match (Parse(base, s[..|s| - 1]), DigitValue(base, s[|s| - 1]))
      case (Some(n), Some(d)) => Some(n * base + d)
      case _ => None
  }

  lemma DigitRoundTrip(base: nat, d: nat)
    requires 2 <= base <= 16 && d < base
    ensures DigitValue(base, DIGITS[d]) == Some(d) && DIGITS[d] in DIGITS[..base]
  {
    assert DIGITS[d] == DIGITS[..base][d];
  }

  lemma Quotient(base: nat, n: nat, p: nat)
    requires base >= 2 && n < base * p
    ensures n == n / base * base + n % base && n / base < p
  {
    assert n / base * base < p * base;
  }

  lemma Shrinks(base: nat, n: nat, width: nat)
    requires base >= 2 && width > 0 && n < Power(base, width)
    ensures n == n / base * base + n % base && n / base < Power(base, width - 1)
  {
    Quotient(base, n, Power(base, width - 1));
  }

  lemma {:induction false} FixedRoundTrip(base: nat, n: nat, width: nat)
    requires 2 <= base <= 16 && n < Power(base, width)
    ensures Parse(base, Fixed(base, n, width)) == Some(n)
    ensures forall i :: 0 <= i < width ==> Fixed(base, n, width)[i] in DIGITS[..base]
  {
    hide DigitValue, Parse, Power;
    if width > 0 {
      Shrinks(base, n, width);
      FixedRoundTrip(base, n / base, width - 1);
      ParseAppends(base, Fixed(base, n / base, width - 1), n / base, n % base);
    } else {
      NoDigits(base);
    }
  }

  lemma NoDigits(base: nat)
    ensures Parse(base, "") == Some(0) && Power(base, 0) == 1
  {
  }

  lemma ParseAppends(base: nat, s: string, n: nat, d: nat)
    requires 2 <= base <= 16 && d < base && Parse(base, s) == Some(n)
    ensures Parse(base, s + [DIGITS[d]]) == Some(n * base + d) && DIGITS[d] in DIGITS[..base]
  {
    hide DigitValue;
    DigitRoundTrip(base, d);
    assert (s + [DIGITS[d]])[..|s|] == s;
  }

  // ---- the time -----------------------------------------------------------------------------------

  function StripRight(s: string, c: char): string {
    if s != "" && s[|s| - 1] == c then StripRight(s[..|s| - 1], c) else s
  }

  function Repeat(c: char, n: nat): string {
    if n == 0 then "" else [c] + Repeat(c, n - 1)
  }

  /** The year without leading zeros, as strftime writes it. */
  function Year(y: nat): string {
    Fixed(10, y, if y >= 1000 then 4 else if y >= 100 then 3 else if y >= 10 then 2 else 1)
  }

  /** Up to the second: YYYY-MM-DDTHH:MM:SS */
  function Seconds(t: Time): string {
    Year(t.year) + "-" + Fixed(10, t.month, 2) + "-" + Fixed(10, t.day, 2) + "T" +
    Fixed(10, t.hour, 2) + ":" + Fixed(10, t.minute, 2) + ":" + Fixed(10, t.second, 2)
  }

  /** The microseconds follow without trailing zeros, and only if there are any. */
  function Rfc3339(t: Time): string {
    Seconds(t) + (if t.micro != 0 then StripRight("." + Fixed(10, t.micro, 6), '0') else "") + "Z"
  }

  function IndexOf(s: string, c: char): (i: nat)
    ensures i <= |s| && c !in s[..i] && (i < |s| ==> s[i] == c)
  {
    if s == "" || s[0] == c then 0
    else
      var i := IndexOf(s[1..], c);
      assert s[..i + 1] == [s[0]] + s[1..][..i];
      i + 1
  }

  function OnlyDigits(s: string): string {
    if s == "" then "" else (if '0' <= s[0] <= '9' then [s[0]] else "") + OnlyDigits(s[1..])
  }

  /** Fractional digits are cut or filled up to six. */
  function SixDigits(ts: string): string {
    var dot := IndexOf(ts, '.');
    if dot == |ts| then ts
    else
      var frac := ts[dot + 1..];
      var digits := OnlyDigits(frac);
      if |digits| > |frac| then ts
      else
        var six := if |digits| >= 6 then digits[..6] else digits + Repeat('0', 6 - |digits|);
        ts[..dot] + "." + six + frac[|digits|..]
  }

  /** The ISO form with a zone "Z" (zero offset), with or without six fractional digits. */
  function FromIso(ts: string): Option<Time> {
    if |ts| != 20 && |ts| != 27 then None
    else if ts[4] != '-' || ts[7] != '-' || ts[10] != 'T' || ts[13] != ':' || ts[16] != ':' || ts[|ts| - 1] != 'Z' then
      None
    else if |ts| == 27 && ts[19] != '.' then None
    else match (Parse(10, ts[..4]), Parse(10, ts[5..7]), Parse(10, ts[8..10]), Parse(10, ts[11..13]),
                Parse(10, ts[14..16]), Parse(10, ts[17..19]),
                if |ts| == 27 then Parse(10, ts[20..26]) else Some(0))
      case (Some(y), Some(mo), Some(d), Some(h), Some(mi), Some(s), Some(us)) =>
        var t := Time(y, mo, d, h, mi, s, us);
        if ValidTime(t) then Some(t) else None
      case _ => None
  }

  // ---- the id -----------------------------------------------------------------------------------------

  function UuidText(id: nat): string {
    var h := Fixed(16, id, 32);
    h[..8] + "-" + h[8..12] + "-" + h[12..16] + "-" + h[16..20] + "-" + h[20..]
  }

  function Without(s: string, c: char): string {
    if s == "" then "" else (if s[0] == c then "" else [s[0]]) + Without(s[1..], c)
  }

  function ParseUuid(s: string): Option<nat> {
    var h := Without(s, '-');
    if |h| != 32 then None else Parse(16, h)
  }

  // ---- base64url (RFC 4648, section 5) ----------------------------------------------------------------

  type Byte = b: int | 0 <= b < 256

  function Sextet(c: char): Option<nat> {
    if 'A' <= c <= 'Z' then Some(c as int - 'A' as int)
    else if 'a' <= c <= 'z' then Some(c as int - 'a' as int + 26)
    else if '0' <= c <= '9' then Some(c as int - '0' as int + 52)
    else if c == '-' then Some(62)
    else if c == '_' then Some(63)
    else None
  }

  function Symbol(n: nat): char
    requires n < 64
  {
    if n < 26 then ('A' as int + n) as char
    else if n < 52 then ('a' as int + n - 26) as char
    else if n < 62 then ('0' as int + n - 52) as char
    else if n == 62 then '-' else '_'
  }

  lemma SymbolRoundTrip(n: nat)
    requires n < 64
    ensures Sextet(Symbol(n)) == Some(n) && Symbol(n) != '='
  {
  }

  function Base64(bs: seq<Byte>): string {
    if bs == [] then ""
    else if |bs| == 1 then [Symbol(bs[0] / 4), Symbol(bs[0] % 4 * 16), '=', '=']
    else if |bs| == 2 then [Symbol(bs[0] / 4), Symbol(bs[0] % 4 * 16 + bs[1] / 16), Symbol(bs[1] % 16 * 4), '=']
    else [Symbol(bs[0] / 4), Symbol(bs[0] % 4 * 16 + bs[1] / 16), Symbol(bs[1] % 16 * 4 + bs[2] / 64),
          Symbol(bs[2] % 64)] + Base64(bs[3..])
  }

  function Base64Decode(s: string): Option<seq<Byte>> {
    if s == "" then Some([])
    else if |s| < 4 || Sextet(s[0]).None? || Sextet(s[1]).None? then None
    else
      var a, b := Sextet(s[0]).value, Sextet(s[1]).value;
      if s[2..] == "==" then Some([(a * 4 + b / 16) % 256])
      else if Sextet(s[2]).None? then None
      else
        var c := Sextet(s[2]).value;
        if s[3..] == "=" then Some([(a * 4 + b / 16) % 256, b % 16 * 16 + c / 4])
        else if Sextet(s[3]).None? then None
        else match Base64Decode(s[4..])
          case None => None
          case Some(rest) => Some([(a * 4 + b / 16) % 256, b % 16 * 16 + c / 4, c % 4 * 64 + Sextet(s[3]).value] + rest)
  }

  lemma SextetsOf(x: Byte, y: Byte)
    ensures (x / 4 * 4 + (x % 4 * 16 + y / 16) / 16) % 256 == x
    ensures (x % 4 * 16 + y / 16) % 16 == y / 16
    ensures y / 16 * 16 + y % 16 == y && y % 16 * 4 / 4 == y % 16
    ensures x % 4 * 16 + y / 16 < 64
  {
  }

  lemma LowSextets(y: Byte, z: Byte)
    ensures (y % 16 * 4 + z / 64) / 4 == y % 16 && (y % 16 * 4 + z / 64) % 4 == z / 64
    ensures z / 64 * 64 + z % 64 == z && y % 16 * 4 + z / 64 < 64
  {
  }

  lemma OneByte(x: Byte)
    ensures Base64Decode(Base64([x])) == Some([x])
  {
    hide Symbol, Sextet;
    SextetsOf(x, 0);
    SymbolRoundTrip(x / 4);
    SymbolRoundTrip(x % 4 * 16);
    assert Base64([x])[2..] == "==";
  }

  lemma TwoBytes(x: Byte, y: Byte)
    ensures Base64Decode(Base64([x, y])) == Some([x, y])
  {
    hide Symbol, Sextet;
    SextetsOf(x, y);
    SymbolRoundTrip(x / 4);
    SymbolRoundTrip(x % 4 * 16 + y / 16);
    SymbolRoundTrip(y % 16 * 4);
    var t := Base64([x, y]);
    assert t[3..] == "=" && t[2..][0] == t[2];
  }

  lemma DecodeGroup(a: nat, b: nat, c: nat, d: nat, rest: string)
    requires a < 64 && b < 64 && c < 64 && d < 64 && Base64Decode(rest).Some?
    ensures Base64Decode([Symbol(a), Symbol(b), Symbol(c), Symbol(d)] + rest)
         == Some([(a * 4 + b / 16) % 256, b % 16 * 16 + c / 4, c % 4 * 64 + d] + Base64Decode(rest).value)
  {
    hide Symbol, Sextet;
    SymbolRoundTrip(a);
    SymbolRoundTrip(b);
    SymbolRoundTrip(c);
    SymbolRoundTrip(d);
    var t := [Symbol(a), Symbol(b), Symbol(c), Symbol(d)] + rest;
    assert t[4..] == rest && t[2..][0] == t[2] && t[3..][0] == t[3];
  }

  lemma ThreeBytes(x: Byte, y: Byte, z: Byte, rest: string)
    requires Base64Decode(rest).Some?
    ensures x % 4 * 16 + y / 16 < 64 && y % 16 * 4 + z / 64 < 64
    ensures Base64Decode([Symbol(x / 4), Symbol(x % 4 * 16 + y / 16), Symbol(y % 16 * 4 + z / 64), Symbol(z % 64)] +
                         rest)
         == Some([x, y, z] + Base64Decode(rest).value)
  {
    hide Symbol, Base64Decode;
    SextetsOf(x, y);
    LowSextets(y, z);
    DecodeGroup(x / 4, x % 4 * 16 + y / 16, y % 16 * 4 + z / 64, z % 64, rest);
  }

  lemma {:induction false} Base64RoundTrip(bs: seq<Byte>)
    ensures Base64Decode(Base64(bs)) == Some(bs)
    decreases |bs|
  {
    hide Symbol, Sextet;
    if |bs| == 1 {
      assert bs == [bs[0]];
      OneByte(bs[0]);
    } else if |bs| == 2 {
      assert bs == [bs[0], bs[1]];
      TwoBytes(bs[0], bs[1]);
    } else if |bs| > 2 {
      Base64RoundTrip(bs[3..]);
      ThreeBytes(bs[0], bs[1], bs[2], Base64(bs[3..]));
      assert [bs[0], bs[1], bs[2]] + bs[3..] == bs;
    }
  }

  /** Filling up what was stripped off a whole number of groups. */
  ghost predicate Refills(t: string) {
    var s := StripRight(t, '=');
    |t| % 4 == 0 && s + Repeat('=', (4 - |s| % 4) % 4) == t
  }

  lemma RefillsTail(head: string, n: nat)
    requires head != "" && head[|head| - 1] != '=' && n <= 2 && |head| + n == 4
    ensures Refills(head + Repeat('=', n))
  {
    hide StripRight, Repeat;
    StripsRun(head, '=', n);
    RepeatTwice();
    if n == 0 {
    } else if n == 1 {
      assert |head| == 3;
    } else {
      assert |head| == 2;
    }
  }

  lemma RefillsGroup(group: string, t: string)
    requires |group| == 4 && group[3] != '=' && Refills(t)
    ensures Refills(group + t)
  {
    hide StripRight, Repeat;
    StripRightAppend(group, t);
    var s := StripRight(t, '=');
    var fill := Repeat('=', (4 - |s| % 4) % 4);
    assert |group + s| % 4 == |s| % 4;
    assert (group + s) + fill == group + (s + fill);
  }

  /** The padding is what the length calls for. */
  lemma {:induction false} PaddingIsRecovered(bs: seq<Byte>)
    ensures Refills(Base64(bs))
    decreases |bs|
  {
    hide Symbol, Sextet, StripRight, Refills;
    RepeatTwice();
    var t := Base64(bs);
    if bs == [] {
      NothingToRefill();
    } else if |bs| == 1 {
      SymbolRoundTrip(bs[0] % 4 * 16);
      RefillsTail(t[..2], 2);
      assert t == t[..2] + Repeat('=', 2);
    } else if |bs| == 2 {
      SymbolRoundTrip(bs[1] % 16 * 4);
      RefillsTail(t[..3], 1);
      assert t == t[..3] + Repeat('=', 1);
    } else {
      SymbolRoundTrip(bs[2] % 64);
      PaddingIsRecovered(bs[3..]);
      RefillsGroup(t[..4], Base64(bs[3..]));
      assert t == t[..4] + Base64(bs[3..]);
    }
  }

  lemma NothingToRefill()
    ensures Refills("")
  {
  }

  lemma RepeatTwice()
    ensures Repeat('=', 0) == "" && Repeat('=', 1) == "=" && Repeat('=', 2) == "=="
  {
    assert Repeat('=', 1) == ['='] + Repeat('=', 0);
  }

  lemma {:induction false} RepeatEnds(c: char, n: nat)
    requires n > 0
    ensures |Repeat(c, n)| == n && Repeat(c, n) == Repeat(c, n - 1) + [c]
  {
    if n > 1 { RepeatEnds(c, n - 1); }
  }

  /** A run of the stripped character goes, the rest stays. */
  lemma {:induction false} StripsRun(s: string, c: char, n: nat)
    requires s == "" || s[|s| - 1] != c
    ensures StripRight(s + Repeat(c, n), c) == s
  {
    if n == 0 {
      assert s + Repeat(c, n) == s;
    } else {
      RepeatEnds(c, n);
      assert (s + Repeat(c, n))[..|s + Repeat(c, n)| - 1] == s + Repeat(c, n - 1);
      StripsRun(s, c, n - 1);
    }
  }

  lemma {:induction false} StripRightAppend(s: string, t: string)
    requires s != "" && s[|s| - 1] != '='
    ensures StripRight(s + t, '=') == s + StripRight(t, '=')
  {
    if t == "" {
      assert s + t == s && s + "" == s;
    } else if t[|t| - 1] == '=' {
      assert (s + t)[..|s + t| - 1] == s + t[..|t| - 1];
      StripRightAppend(s, t[..|t| - 1]);
    }
  }

  // ---- the cursor -----------------------------------------------------------------------------------------

  predicate IsAscii(s: string) {
    forall i :: 0 <= i < |s| ==> s[i] as int < 128
  }

  function Ascii(s: string): seq<Byte>
    requires IsAscii(s)
  {
    seq(|s|, i requires 0 <= i < |s| => s[i] as int)
  }

  function FromAscii(bs: seq<Byte>): Option<string> {
    if forall i :: 0 <= i < |bs| ==> bs[i] < 128 then Some(seq(|bs|, i requires 0 <= i < |bs| => bs[i] as char))
    else None
  }

  function CursorText(p: Position): string {
    Rfc3339(p.at) + "|" + UuidText(p.id)
  }

  function EncodeCursor(p: Position): string
    requires IsAscii(CursorText(p))
  {
    StripRight(Base64(Ascii(CursorText(p))), '=')
  }

  /** None is the invalid-cursor error. */
  function DecodeCursor(c: string): Option<Position> {
    match Base64Decode(c + Repeat('=', (4 - |c| % 4) % 4))
    case None => None
    case Some(bs) =>
      match FromAscii(bs)
      case None => None
      case Some(raw) =>
        var bar := IndexOf(raw, '|');
        if bar == |raw| then None
        else match (FromIso(SixDigits(raw[..bar])), ParseUuid(raw[bar + 1..]))
          case (Some(t), Some(id)) => Some(Position(t, id))
          case _ => None
  }

  lemma PowersOfTen()
    ensures Power(10, 1) == 10 && Power(10, 2) == 100 && Power(10, 3) == 1000 && Power(10, 4) == 10000
    ensures Power(10, 6) == 1000000
  {
    assert Power(10, 3) == 1000;
    assert Power(10, 5) == 100000;
  }

  lemma PowerOfSixteen()
    ensures Power(16, 32) == UUID_BOUND
  {
    assert Power(16, 4) == 0x1_0000;
    assert Power(16, 8) == 0x1_0000_0000;
    assert Power(16, 12) == 0x1_0000_0000_0000;
    assert Power(16, 16) == 0x1_0000_0000_0000_0000;
    assert Power(16, 20) == 0x1_0000_0000_0000_0000_0000;
    assert Power(16, 24) == 0x1_0000_0000_0000_0000_0000_0000;
    assert Power(16, 28) == 0x1_0000_0000_0000_0000_0000_0000_0000;
  }

  /** Characters of a numeral. */
  ghost predicate AllDigits(s: string) {
    forall i :: 0 <= i < |s| ==> '0' <= s[i] <= '9'
  }

  lemma DecimalField(n: nat, width: nat)
    requires n < Power(10, width)
    ensures AllDigits(Fixed(10, n, width)) && Parse(10, Fixed(10, n, width)) == Some(n)
  {
    FixedRoundTrip(10, n, width);
    var s := Fixed(10, n, width);
    forall i | 0 <= i < |s| ensures '0' <= s[i] <= '9' {
      var j :| 0 <= j < 10 && DIGITS[..10][j] == s[i];
    }
  }

  function Joined(y: string, mo: string, d: string, h: string, mi: string, sec: string): string {
    y + "-" + mo + "-" + d + "T" + h + ":" + mi + ":" + sec
  }

  lemma CharactersStand(y: string, mo: string, d: string, h: string, mi: string, sec: string)
    requires |y| == 4 && |mo| == 2 && |d| == 2 && |h| == 2 && |mi| == 2 && |sec| == 2
    ensures var s := Joined(y, mo, d, h, mi, sec);
            |s| == 19 && s[0] == y[0] && s[1] == y[1] && s[2] == y[2] && s[3] == y[3] && s[4] == '-' &&
            s[5] == mo[0] && s[6] == mo[1] && s[7] == '-' && s[8] == d[0] && s[9] == d[1] && s[10] == 'T' &&
            s[11] == h[0] && s[12] == h[1] && s[13] == ':' && s[14] == mi[0] && s[15] == mi[1] && s[16] == ':' &&
            s[17] == sec[0] && s[18] == sec[1]
  {
  }

  lemma PartsStand(y: string, mo: string, d: string, h: string, mi: string, sec: string)
    requires |y| == 4 && |mo| == 2 && |d| == 2 && |h| == 2 && |mi| == 2 && |sec| == 2
    ensures var s := Joined(y, mo, d, h, mi, sec);
            |s| == 19 && s[4] == '-' && s[7] == '-' && s[10] == 'T' && s[13] == ':' && s[16] == ':' &&
            s[..4] == y && s[5..7] == mo && s[8..10] == d && s[11..13] == h && s[14..16] == mi && s[17..19] == sec
  {
    hide Joined;
    CharactersStand(y, mo, d, h, mi, sec);
    var s := Joined(y, mo, d, h, mi, sec);
    assert s[..4] == y && s[5..7] == mo && s[8..10] == d && s[11..13] == h && s[14..16] == mi && s[17..19] == sec;
  }

  /** Numerals and separators are neither dots nor bars. */
  ghost predicate Harmless(s: string) {
    '.' !in s && '|' !in s && IsAscii(s)
  }

  lemma HarmlessTogether(a: string, b: string)
    requires Harmless(a) && Harmless(b)
    ensures Harmless(a + b)
  {
  }

  lemma JoinedIsHarmless(y: string, mo: string, d: string, h: string, mi: string, sec: string)
    requires AllDigits(y) && AllDigits(mo) && AllDigits(d) && AllDigits(h) && AllDigits(mi) && AllDigits(sec)
    ensures Harmless(Joined(y, mo, d, h, mi, sec))
  {
    HarmlessTogether(y, "-");
    HarmlessTogether(y + "-", mo);
    HarmlessTogether(y + "-" + mo, "-");
    HarmlessTogether(y + "-" + mo + "-", d);
    HarmlessTogether(y + "-" + mo + "-" + d, "T");
    HarmlessTogether(y + "-" + mo + "-" + d + "T", h);
    HarmlessTogether(y + "-" + mo + "-" + d + "T" + h, ":");
    HarmlessTogether(y + "-" + mo + "-" + d + "T" + h + ":", mi);
    HarmlessTogether(y + "-" + mo + "-" + d + "T" + h + ":" + mi, ":");
    HarmlessTogether(y + "-" + mo + "-" + d + "T" + h + ":" + mi + ":", sec);
  }

  lemma FieldsParse(t: Time)
    requires ValidTime(t)
    ensures Parse(10, Year(t.year)) == Some(t.year) && AllDigits(Year(t.year))
    ensures |Year(t.year)| <= 4 && (|Year(t.year)| == 4 <==> t.year >= 1000) && Year(t.year) != ""
    ensures forall n :: n in [t.month, t.day, t.hour, t.minute, t.second] ==>
              |Fixed(10, n, 2)| == 2 && Parse(10, Fixed(10, n, 2)) == Some(n) && AllDigits(Fixed(10, n, 2))
  {
    hide Parse, Fixed, Power, AllDigits;
    PowersOfTen();
    DecimalField(t.year, |Year(t.year)|);
    forall n | n in [t.month, t.day, t.hour, t.minute, t.second]
      ensures Parse(10, Fixed(10, n, 2)) == Some(n) && AllDigits(Fixed(10, n, 2))
    {
      DecimalField(n, 2);
    }
  }

  lemma SecondsAre(t: Time)
    ensures Seconds(t) == Joined(Year(t.year), Fixed(10, t.month, 2), Fixed(10, t.day, 2), Fixed(10, t.hour, 2),
                                 Fixed(10, t.minute, 2), Fixed(10, t.second, 2))
  {
    hide Fixed, Year;
  }

  lemma SecondsParse(t: Time)
    requires ValidTime(t) && t.year >= 1000
    ensures var s := Seconds(t);
            |s| == 19 && s[4] == '-' && s[7] == '-' && s[10] == 'T' && s[13] == ':' && s[16] == ':' &&
            Parse(10, s[..4]) == Some(t.year) && Parse(10, s[5..7]) == Some(t.month) &&
            Parse(10, s[8..10]) == Some(t.day) &&
            Parse(10, s[11..13]) == Some(t.hour) && Parse(10, s[14..16]) == Some(t.minute) &&
            Parse(10, s[17..19]) == Some(t.second)
    ensures Harmless(Seconds(t))
  {
    hide Parse, Fixed, Year, Joined, Harmless, AllDigits, Seconds;
    FieldsParse(t);
    SecondsAre(t);
    var mo, d, h := Fixed(10, t.month, 2), Fixed(10, t.day, 2), Fixed(10, t.hour, 2);
    var mi, sec := Fixed(10, t.minute, 2), Fixed(10, t.second, 2);
    PartsStand(Year(t.year), mo, d, h, mi, sec);
    JoinedIsHarmless(Year(t.year), mo, d, h, mi, sec);
  }

  lemma ShortYears(t: Time)
    requires ValidTime(t) && t.year < 1000
    ensures 16 <= |Seconds(t)| <= 18 && Harmless(Seconds(t))
  {
    hide Parse, Fixed, Year, Harmless, AllDigits, Seconds;
    FieldsParse(t);
    SecondsAre(t);
    JoinedIsHarmless(Year(t.year), Fixed(10, t.month, 2), Fixed(10, t.day, 2), Fixed(10, t.hour, 2),
                     Fixed(10, t.minute, 2), Fixed(10, t.second, 2));
  }

  lemma {:induction false} OnlyDigitsKeeps(s: string, tail: string)
    requires AllDigits(s) && (forall i :: 0 <= i < |tail| ==> !('0' <= tail[i] <= '9'))
    ensures OnlyDigits(s + tail) == s
    decreases |s| + |tail|
  {
    if s != "" {
      assert (s + tail)[1..] == s[1..] + tail;
      OnlyDigitsKeeps(s[1..], tail);
    } else if tail != "" {
      assert ("" + tail)[1..] == "" + tail[1..];
      OnlyDigitsKeeps("", tail[1..]);
    }
  }

  /** What is stripped can be filled up again. */
  lemma {:induction false} TrailingZeros(s: string) returns (n: nat)
    requires s != "" && s[0] != '0'
    ensures n < |s| && StripRight(s, '0') == s[..|s| - n] && s == StripRight(s, '0') + Repeat('0', n)
  {
    if s[|s| - 1] == '0' {
      n := TrailingZeros(s[..|s| - 1]);
      RepeatEnds('0', n + 1);
      n := n + 1;
    } else {
      n := 0;
      assert s + Repeat('0', 0) == s;
    }
  }

  lemma {:induction false} SecondPartFound(head: string, rest: string, c: char)
    requires c !in head
    ensures IndexOf(head + [c] + rest, c) == |head|
  {
    var s := head + [c] + rest;
    if head == "" {
      assert s[0] == c;
    } else {
      assert s[0] == head[0] && s[1..] == head[1..] + [c] + rest;
      SecondPartFound(head[1..], rest, c);
    }
  }

  /** The six digits are those that were kept and the zeros that were stripped. */
  lemma KeptDigits(six: string) returns (digits: string)
    requires |six| == 6 && AllDigits(six)
    ensures |digits| <= 6 && AllDigits(digits) && StripRight("." + six, '0') == "." + digits
    ensures digits + Repeat('0', 6 - |digits|) == six
  {
    hide StripRight, Repeat;
    var n := TrailingZeros("." + six);
    digits := six[..6 - n];
    var zeros := Repeat('0', n);
    assert ("." + six)[..7 - n] == "." + digits;
    assert ("." + six)[1..] == six;
    assert (("." + digits) + zeros)[1..] == digits + zeros;
  }

  lemma SixDigitsOf(head: string, digits: string)
    requires '.' !in head && |digits| <= 6 && AllDigits(digits)
    ensures SixDigits(head + ("." + digits) + "Z") == head + "." + (digits + Repeat('0', 6 - |digits|)) + "Z"
  {
    hide OnlyDigits, IndexOf, Repeat, AllDigits, SixDigits;
    var ts := head + ("." + digits) + "Z";
    FractionStands(head, digits + "Z");
    assert ts == head + "." + (digits + "Z");
    DigitsOfFraction(digits);
    FilledUp(digits);
    FillsUp(ts, head, digits);
  }

  lemma FractionStands(head: string, frac: string)
    requires '.' !in head
    ensures var ts := head + "." + frac;
            IndexOf(ts, '.') == |head| && ts[..|head|] == head && ts[|head| + 1..] == frac
  {
    hide IndexOf;
    SecondPartFound(head, frac, '.');
  }

  lemma FillsUp(ts: string, head: string, digits: string)
    requires |digits| <= 6 && OnlyDigits(digits + "Z") == digits && |ts| > |head| == IndexOf(ts, '.')
    requires ts[..|head|] == head && ts[|head| + 1..] == digits + "Z"
    requires (if |digits| >= 6 then digits[..6] else digits + Repeat('0', 6 - |digits|)) ==
             digits + Repeat('0', 6 - |digits|)
    ensures SixDigits(ts) == head + "." + (digits + Repeat('0', 6 - |digits|)) + "Z"
  {
    hide OnlyDigits, IndexOf, Repeat;
    assert (digits + "Z")[|digits|..] == "Z";
  }

  lemma DigitsOfFraction(digits: string)
    requires AllDigits(digits)
    ensures OnlyDigits(digits + "Z") == digits
  {
    OnlyDigitsKeeps(digits, "Z");
  }

  lemma FilledUp(digits: string)
    requires |digits| <= 6
    ensures (if |digits| >= 6 then digits[..6] else digits + Repeat('0', 6 - |digits|)) ==
            digits + Repeat('0', 6 - |digits|)
  {
    hide Repeat;
    NoRepeat();
  }

  lemma NoRepeat()
    ensures Repeat('0', 0) == ""
  {
  }

  lemma FractionRestored(head: string, micro: nat)
    requires '.' !in head && 0 < micro < 1000000
    ensures SixDigits(head + StripRight("." + Fixed(10, micro, 6), '0') + "Z") == head + "." + Fixed(10, micro, 6) + "Z"
    ensures var s := StripRight("." + Fixed(10, micro, 6), '0'); '|' !in s && IsAscii(s)
  {
    hide Parse, Power, Fixed, SixDigits, StripRight;
    PowersOfTen();
    DecimalField(micro, 6);
    var digits := KeptDigits(Fixed(10, micro, 6));
    SixDigitsOf(head, digits);
  }

  /** Trimming the zeros of the fraction loses nothing. */
  lemma TimeRoundTrip(t: Time)
    requires ValidTime(t) && t.year >= 1000
    ensures FromIso(SixDigits(Rfc3339(t))) == Some(t)
    ensures '|' !in Rfc3339(t) && IsAscii(Rfc3339(t))
  {
    hide Parse, Power, Fixed, SixDigits, Seconds, StripRight;
    var s := Seconds(t);
    SecondsParse(t);
    if t.micro == 0 {
      var ts := s + "" + "Z";
      assert s + "" == s;
      NoFraction(s + "Z");
      FieldsOf(s, s + "Z");
    } else {
      FractionRestored(s, t.micro);
      PowersOfTen();
      DecimalField(t.micro, 6);
      var ts := s + "." + Fixed(10, t.micro, 6) + "Z";
      FieldsOf(s, ts);
      assert ts[20..26] == Fixed(10, t.micro, 6);
    }
  }

  /** A shorter year leaves the text too short. */
  lemma ShortTimeIsRefused(t: Time)
    requires ValidTime(t) && t.year < 1000
    ensures FromIso(SixDigits(Rfc3339(t))) == None
    ensures '|' !in Rfc3339(t) && IsAscii(Rfc3339(t))
  {
    hide Parse, Power, Fixed, SixDigits, Seconds, StripRight;
    var s := Seconds(t);
    ShortYears(t);
    if t.micro == 0 {
      assert s + "" == s;
      NoFraction(s + "Z");
    } else {
      FractionRestored(s, t.micro);
    }
  }

  lemma NoFraction(ts: string)
    requires '.' !in ts
    ensures SixDigits(ts) == ts
  {
  }

  lemma FieldsOf(s: string, ts: string)
    requires |s| == 19 && |ts| >= 19 && ts[..19] == s
    ensures ts[..4] == s[..4] && ts[5..7] == s[5..7] && ts[8..10] == s[8..10]
    ensures ts[11..13] == s[11..13] && ts[14..16] == s[14..16] && ts[17..19] == s[17..19]
    ensures forall i :: 0 <= i < 19 ==> ts[i] == s[i]
  {
    forall i | 0 <= i < 19 ensures ts[i] == s[i] { assert ts[i] == ts[..19][i]; }
  }

  lemma {:induction false} WithoutAppends(s: string, t: string, c: char)
    ensures Without(s + t, c) == Without(s, c) + Without(t, c)
    ensures c !in s ==> Without(s, c) == s
  {
    if s == "" {
      assert s + t == t;
    } else {
      assert (s + t)[1..] == s[1..] + t && (s + t)[0] == s[0];
      WithoutAppends(s[1..], t, c);
      var first := if s[0] == c then "" else [s[0]];
      assert first + (Without(s[1..], c) + Without(t, c)) == (first + Without(s[1..], c)) + Without(t, c);
      if c !in s {
        assert [s[0]] + s[1..] == s;
      }
    }
  }

  lemma UuidRoundTrip(id: nat)
    requires id < UUID_BOUND
    ensures ParseUuid(UuidText(id)) == Some(id) && IsAscii(UuidText(id))
  {
    hide Parse, Power, Fixed, Without;
    var h := Fixed(16, id, 32);
    PowerOfSixteen();
    FixedRoundTrip(16, id, 32);
    forall i | 0 <= i < 32 ensures h[i] != '-' && h[i] as int < 128 {
      var j :| 0 <= j < 16 && DIGITS[..16][j] == h[i];
    }
    var a, b, c, d, e := h[..8], h[8..12], h[12..16], h[16..20], h[20..];
    Grouped(a, b, c, d, e);
    assert a + b + c + d + e == h;
  }

  lemma OneMoreGroup(text: string, joined: string, group: string)
    requires Without(text, '-') == joined && '-' !in group
    ensures Without(text + "-" + group, '-') == joined + group
  {
    WithoutAppends(text + "-", group, '-');
    WithoutAppends(text, "-", '-');
    WithoutAppends(group, "", '-');
    assert Without("-", '-') == "" && joined + "" == joined;
  }

  /** Taking the dashes out of five groups joins them. */
  lemma Grouped(a: string, b: string, c: string, d: string, e: string)
    requires '-' !in a && '-' !in b && '-' !in c && '-' !in d && '-' !in e
    ensures Without(a + "-" + b + "-" + c + "-" + d + "-" + e, '-') == a + b + c + d + e
  {
    hide Without;
    WithoutAppends(a, "", '-');
    OneMoreGroup(a, a, b);
    OneMoreGroup(a + "-" + b, a + b, c);
    OneMoreGroup(a + "-" + b + "-" + c, a + b + c, d);
    OneMoreGroup(a + "-" + b + "-" + c + "-" + d, a + b + c + d, e);
  }

  lemma CursorTextIsAscii(p: Position)
    requires ValidPosition(p)
    ensures IsAscii(CursorText(p))
  {
    hide Rfc3339, UuidText;
    if HasLongYear(p) { TimeRoundTrip(p.at); } else { ShortTimeIsRefused(p.at); }
    UuidRoundTrip(p.id);
  }

  /** Decoding a cursor gives back the position that it was made from if and only if its year has four digits;
      otherwise the cursor counts as invalid. */
  lemma CursorRoundTrip(p: Position)
    requires ValidPosition(p)
    ensures IsAscii(CursorText(p)) && DecodeCursor(EncodeCursor(p)) == if HasLongYear(p) then Some(p) else None
  {
    hide Rfc3339, UuidText, Base64, Base64Decode, StripRight, FromIso, SixDigits, ParseUuid;
    CursorTextIsAscii(p);
    var raw := CursorText(p);
    var bs := Ascii(raw);
    PaddingIsRecovered(bs);
    Base64RoundTrip(bs);
    assert FromAscii(bs).value == raw;
    if HasLongYear(p) { TimeRoundTrip(p.at); } else { ShortTimeIsRefused(p.at); }
    UuidRoundTrip(p.id);
    SecondPartFound(Rfc3339(p.at), UuidText(p.id), '|');
    assert raw == Rfc3339(p.at) + ['|'] + UuidText(p.id);
    assert raw[..|Rfc3339(p.at)|] == Rfc3339(p.at) && raw[|Rfc3339(p.at)| + 1..] == UuidText(p.id);
  }
}
