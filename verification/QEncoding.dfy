/** Q-encoding of mail header text (RFC 2047): the encoder, a reader for what it writes, and the proofs
    that the reader gets the text back, that words are short and whole, and that no split needs fewer words. */
module QEncoding {
  import opened Common

  type Byte = b: int | 0 <= b < 256

  const PREFIX := "=?utf-8?q?"
  const SUFFIX := "?="
  const MAX_WORD := 75

  // ---- UTF-8 -----------------------------------------------------------------------------------------

  function Utf8(c: char): (r: seq<Byte>)
    ensures 1 <= |r| <= 4
  {
    var n := c as int;
    if n < 0x80 then [n]
    else if n < 0x800 then [0xC0 + n / 64, 0x80 + n % 64]
    else if n < 0x10000 then [0xE0 + n / 4096, 0x80 + n / 64 % 64, 0x80 + n % 64]
    else [0xF0 + n / 262144, 0x80 + n / 4096 % 64, 0x80 + n / 64 % 64, 0x80 + n % 64]
  }

  predicate IsScalar(n: int) {
    0 <= n < 0xD800 || 0xE000 <= n < 0x110000
  }

  /** The number of bytes that a leading byte announces. */
  function Announced(b: Byte): nat {
    if b < 0x80 then 1 else if b < 0xE0 then 2 else if b < 0xF0 then 3 else 4
  }

  function CodePoint(bs: seq<Byte>): int
    requires bs != [] && |bs| == Announced(bs[0])
  {
    var at := (i: int) requires 0 <= i < |bs| => bs[i] as int;
    if |bs| == 1 then at(0)
    else if |bs| == 2 then (at(0) - 0xC0) * 64 + (at(1) - 0x80)
    else if |bs| == 3 then (at(0) - 0xE0) * 4096 + (at(1) - 0x80) * 64 + (at(2) - 0x80)
    else (at(0) - 0xF0) * 262144 + (at(1) - 0x80) * 4096 + (at(2) - 0x80) * 64 + (at(3) - 0x80)
  }

  function Utf8Decode(bs: seq<Byte>): Option<string> {
    if bs == [] then Some("")
    else if |bs| < Announced(bs[0]) then None
    else
      var n := CodePoint(bs[..Announced(bs[0])]);
      if !IsScalar(n) then None
      else match Utf8Decode(bs[Announced(bs[0])..])
        case None => None
        case Some(rest) => Some([n as char] + rest)
  }

  lemma SixBits(n: nat)
    ensures n == n / 64 * 64 + n % 64
    ensures n / 64 / 64 == n / 4096 && n / 4096 / 64 == n / 262144
  {
  }

  /** Each character has its shortest form, as section 3 of RFC 3629 asks. */
  lemma Utf8Fits(c: char)
    ensures Announced(Utf8(c)[0]) == |Utf8(c)| && CodePoint(Utf8(c)) == c as int
    ensures |Utf8(c)| == if c < '\U{80}' then 1 else if c < '\U{800}' then 2 else if c < '\U{10000}' then 3 else 4
    ensures forall i :: 0 < i < |Utf8(c)| ==> 0x80 <= Utf8(c)[i] < 0xC0
  {
    var n := c as int;
    SixBits(n);
    SixBits(n / 64);
    SixBits(n / 4096);
  }

  function Utf8All(s: string): seq<Byte> {
    if s == "" then [] else Utf8(s[0]) + Utf8All(s[1..])
  }

  lemma {:induction false} Utf8RoundTrip(s: string)
    ensures Utf8Decode(Utf8All(s)) == Some(s)
  {
    if s != "" {
      var bs, head := Utf8All(s), Utf8(s[0]);
      Utf8Fits(s[0]);
      assert bs[..|head|] == head && bs[|head|..] == Utf8All(s[1..]);
      Utf8RoundTrip(s[1..]);
      assert s == [s[0]] + s[1..];
    }
  }

  // ---- the Q text of bytes ------------------------------------------------------------------------------

  function Hex(d: nat): char
    requires d < 16
  {
    "0123456789ABCDEF"[d]
  }

  function HexValue(c: char): Option<nat> {
    if '0' <= c <= '9' then Some(c as int - '0' as int)
    else if 'A' <= c <= 'F' then Some(c as int - 'A' as int + 10)
    else None
  }

  lemma HexRoundTrip(d: nat)
    requires d < 16
    ensures HexValue(Hex(d)) == Some(d)
    ensures Hex(d) != ' '
  {
  }

  function QByte(b: Byte): string {
    if b == 0x20 then "_"
    else if 0x21 <= b <= 0x7E && b != '=' as int && b != '?' as int && b != '_' as int then [b as char]
    else ['=', Hex(b / 16), Hex(b % 16)]
  }

  function QBytes(bs: seq<Byte>): string {
    if bs == [] then "" else QByte(bs[0]) + QBytes(bs[1..])
  }

  /** The encoded text of one character. */
  function QChar(c: char): string {
    QBytes(Utf8(c))
  }

  function QText(s: string): string {
    if s == "" then "" else QChar(s[0]) + QText(s[1..])
  }

  predicate NeedsEncoding(s: string) {
    exists i :: 0 <= i < |s| && !(' ' <= s[i] <= '~' || s[i] == '\t')
  }

  // ---- the encoder ----------------------------------------------------------------------------------------

  function Word(text: string): string {
    PREFIX + text + SUFFIX
  }

  function Join(words: seq<string>): string {
    if words == [] then "" else if |words| == 1 then words[0] else words[0] + " " + Join(words[1..])
  }

  predicate Overflows(cur: string, enc: string) {
    |PREFIX| + |cur| + |enc| + |SUFFIX| > MAX_WORD
  }

  /** The words for the rest of the text when `cur` has been gathered for the current word. */
  function Words(cur: string, rest: string): seq<string>
    decreases |rest|
  {
    if rest == "" then [Word(cur)]
    else if Overflows(cur, QChar(rest[0])) then [Word(cur)] + Words(QChar(rest[0]), rest[1..])
    else Words(cur + QChar(rest[0]), rest[1..])
  }

  function Encoded(s: string): string {
    if !NeedsEncoding(s) then s else Join(Words("", s))
  }

  method QEncode(s: string) returns (r: string)
    ensures r == Encoded(s)
  {
    hide NeedsEncoding, Join, QChar, Overflows, Word;
    if !NeedsEncoding(s) {
      return s;
    }
    var words: seq<string> := [];
    var cur := "";
    for i := 0 to |s|
      invariant Words("", s) == words + Words(cur, s[i..])
    {
      var enc := EncodeChar(s[i]);
      assert s[i..][1..] == s[i + 1..];
      if Overflows(cur, enc) {
        words := words + [Word(cur)];
        cur := "";
      }
      assert "" + enc == enc;
      cur := cur + enc;
    }
    words := words + [Word(cur)];
    return Join(words);
  }

  method EncodeChar(c: char) returns (enc: string)
    ensures enc == QChar(c)
  {
    hide Utf8, QByte;
    enc := "";
    var bytes := Utf8(c);
    for j := 0 to |bytes|
      invariant enc + QBytes(bytes[j..]) == QBytes(bytes)
    {
      assert bytes[j..][1..] == bytes[j + 1..];
      enc := enc + QByte(bytes[j]);
    }
  }

  // ---- what the words are -----------------------------------------------------------------------------------

  function Concat(parts: seq<string>): string {
    if parts == [] then "" else parts[0] + Concat(parts[1..])
  }

  /** The pieces of the text that the words hold: `held` is what the current word has so far. */
  ghost function Pieces(held: string, rest: string): seq<string>
    decreases |rest|
  {
    if rest == "" then [held]
    else if Overflows(QText(held), QChar(rest[0])) then [held] + Pieces([rest[0]], rest[1..])
    else Pieces(held + [rest[0]], rest[1..])
  }

  lemma {:induction false} QTextAppends(s: string, c: char)
    ensures QText(s + [c]) == QText(s) + QChar(c)
  {
    if s != "" {
      assert (s + [c])[1..] == s[1..] + [c];
      QTextAppends(s[1..], c);
    } else {
      assert [c][1..] == "";
    }
  }

  /** A piece fits if its encoded word is short enough. */
  ghost predicate Fits(piece: string) {
    |Word(QText(piece))| <= MAX_WORD
  }

  lemma QCharIsShort(c: char)
    ensures 1 <= |QChar(c)| <= 12
  {
    var bs := Utf8(c);
    assert QBytes(bs) == QByte(bs[0]) + QBytes(bs[1..]);
    if |bs| > 1 {
      assert QBytes(bs[1..]) == QByte(bs[1]) + QBytes(bs[1..][1..]);
      if |bs| > 2 {
        assert QBytes(bs[2..]) == QByte(bs[2]) + QBytes(bs[2..][1..]);
      }
    }
  }

  lemma {:induction false} PiecesDescribeWords(held: string, rest: string)
    requires Fits(held)
    ensures |Pieces(held, rest)| == |Words(QText(held), rest)|
    ensures forall i :: 0 <= i < |Pieces(held, rest)| ==>
              Fits(Pieces(held, rest)[i]) && Words(QText(held), rest)[i] == Word(QText(Pieces(held, rest)[i]))
    ensures Concat(Pieces(held, rest)) == held + rest
    decreases |rest|
  {
    hide QChar, Utf8, QBytes;
    if rest == "" {
      assert [held][1..] == [] && held + rest == held;
    } else {
      var c := rest[0];
      QCharIsShort(c);
      QTextAppends(held, c);
      QTextAppends("", c);
      assert "" + [c] == [c] && "" + QChar(c) == QChar(c);
      if Overflows(QText(held), QChar(c)) {
        PiecesDescribeWords([c], rest[1..]);
        assert ([held] + Pieces([c], rest[1..]))[1..] == Pieces([c], rest[1..]);
        assert held + ([c] + rest[1..]) == held + rest;
      } else {
        PiecesDescribeWords(held + [c], rest[1..]);
        assert (held + [c]) + rest[1..] == held + rest;
      }
    }
  }

  // ---- reading the words back ---------------------------------------------------------------------------------

  /** RFC 2047, section 4.2. */
  function QDecode(text: string): Option<seq<Byte>> {
    if text == "" then Some([])
    else if text[0] == '=' then
      if |text| < 3 || HexValue(text[1]).None? || HexValue(text[2]).None? then None
      else match QDecode(text[3..])
        case None => None
        case Some(bs) => Some([16 * HexValue(text[1]).value + HexValue(text[2]).value] + bs)
    else if text[0] as int >= 0x80 then None
    else match QDecode(text[1..])
      case None => None
      case Some(bs) => Some([if text[0] == '_' then 0x20 else text[0] as int] + bs)
  }

  function DecodeWord(word: string): Option<string> {
    if |word| < |PREFIX| + |SUFFIX| || word[..|PREFIX|] != PREFIX || word[|word| - |SUFFIX|..] != SUFFIX then None
    else match QDecode(word[|PREFIX|..|word| - |SUFFIX|])
      case None => None
      case Some(bs) => Utf8Decode(bs)
  }

  function UpToSpace(text: string): nat
    ensures UpToSpace(text) <= |text|
  {
    if text == "" || text[0] == ' ' then 0 else 1 + UpToSpace(text[1..])
  }

  /** RFC 2047, section 6.2: the white space between adjacent encoded words is not part of the text. */
  function Decode(text: string): Option<string> {
    var n := UpToSpace(text);
    match DecodeWord(text[..n])
    case None => None
    case Some(s) =>
      if n == |text| then Some(s)
      else match Decode(text[n + 1..])
        case None => None
        case Some(t) => Some(s + t)
  }

  lemma OneByteRoundTrip(b: Byte, tail: string)
    requires QDecode(tail).Some?
    ensures QDecode(QByte(b) + tail) == Some([b] + QDecode(tail).value)
    ensures ' ' !in QByte(b)
  {
    var text := QByte(b) + tail;
    if |QByte(b)| == 3 {
      HexRoundTrip(b / 16);
      HexRoundTrip(b % 16);
      assert text[3..] == tail;
    } else {
      assert text[1..] == tail;
    }
  }

  lemma {:induction false} QBytesRoundTrip(bs: seq<Byte>, more: string)
    requires QDecode(more).Some?
    ensures QDecode(QBytes(bs) + more) == Some(bs + QDecode(more).value)
    ensures ' ' !in QBytes(bs)
  {
    hide QByte, QDecode;
    if bs == [] {
      assert QBytes(bs) + more == more && bs + QDecode(more).value == QDecode(more).value;
    } else {
      var tail := QBytes(bs[1..]) + more;
      QBytesRoundTrip(bs[1..], more);
      OneByteRoundTrip(bs[0], tail);
      assert QBytes(bs) + more == QByte(bs[0]) + tail;
      assert [bs[0]] + (bs[1..] + QDecode(more).value) == bs + QDecode(more).value;
    }
  }

  lemma NothingDecodes()
    ensures QDecode("") == Some([])
  {
  }

  lemma {:induction false} QTextRoundTrip(s: string)
    ensures QDecode(QText(s)) == Some(Utf8All(s))
    ensures ' ' !in QText(s)
  {
    hide QBytes, QDecode, Utf8;
    NothingDecodes();
    if s != "" {
      QTextRoundTrip(s[1..]);
      QBytesRoundTrip(Utf8(s[0]), QText(s[1..]));
    }
  }

  /** Every word, read on its own, gives a whole piece of the text: no character is cut in two. */
  lemma WordRoundTrip(piece: string)
    ensures DecodeWord(Word(QText(piece))) == Some(piece)
    ensures ' ' !in Word(QText(piece))
  {
    var w := Word(QText(piece));
    assert w[..|PREFIX|] == PREFIX && w[|w| - |SUFFIX|..] == SUFFIX && w[|PREFIX|..|w| - |SUFFIX|] == QText(piece);
    QTextRoundTrip(piece);
    Utf8RoundTrip(piece);
  }

  lemma {:induction false} UpToSpaceFinds(word: string, more: string)
    requires ' ' !in word && (more != "" ==> more[0] == ' ')
    ensures UpToSpace(word + more) == |word|
  {
    if word != "" {
      assert (word + more)[1..] == word[1..] + more;
      UpToSpaceFinds(word[1..], more);
    } else {
      assert word + more == more;
    }
  }

  lemma {:induction false} JoinedRoundTrip(pieces: seq<string>, words: seq<string>)
    requires pieces != [] && |words| == |pieces|
    requires forall i :: 0 <= i < |pieces| ==> words[i] == Word(QText(pieces[i]))
    ensures Decode(Join(words)) == Some(Concat(pieces))
    decreases |pieces|
  {
    hide Word, QText, DecodeWord;
    WordRoundTrip(pieces[0]);
    var text, w := Join(words), words[0];
    if |words| == 1 {
      UpToSpaceFinds(w, "");
      assert w + "" == w && text[..|w|] == w;
      assert pieces[0] + "" == pieces[0];
    } else {
      JoinedRoundTrip(pieces[1..], words[1..]);
      var more := " " + Join(words[1..]);
      assert text == w + more;
      UpToSpaceFinds(w, more);
      assert text[..|w|] == w && text[|w| + 1..] == Join(words[1..]);
    }
  }

  /** How a character is spelled: a printable ASCII character other than "=", "?" and "_" stands for itself, a space is
      "_", and every other character is three characters for each byte of its UTF-8 form, "=" and two upper-case
      hexadecimal digits. */
  lemma CharactersAreSpelled(c: char)
    ensures c == ' ' ==> QChar(c) == "_"
    ensures '!' <= c <= '~' && c != '=' && c != '?' && c != '_' ==> QChar(c) == [c]
    ensures c != ' ' && !('!' <= c <= '~' && c != '=' && c != '?' && c != '_') ==>
              |QChar(c)| == 3 * |Utf8(c)| &&
              forall i :: 0 <= i < |Utf8(c)| ==>
                QChar(c)[3 * i] == '=' && HexValue(QChar(c)[3 * i + 1]) == Some(Utf8(c)[i] / 16) &&
                HexValue(QChar(c)[3 * i + 2]) == Some(Utf8(c)[i] % 16)
  {
    hide QByte;
    var bs := Utf8(c);
    if c as int >= 0x80 || c == '=' || c == '?' || c == '_' || c < ' ' || c as int == 0x7F {
      forall i | 0 <= i < |bs| ensures EscapedByte(bs[i]) { ByteIsEscaped(bs[i]); }
      EscapedBytes(bs);
    } else {
      PlainByte(c as int);
      assert bs[1..] == [];
    }
  }

  ghost predicate EscapedByte(b: Byte) {
    |QByte(b)| == 3 && QByte(b)[0] == '=' && HexValue(QByte(b)[1]) == Some(b / 16) &&
    HexValue(QByte(b)[2]) == Some(b % 16)
  }

  lemma ByteIsEscaped(b: Byte)
    requires b >= 0x7F || b < 0x20 || b == 0x3D || b == 0x3F || b == 0x5F
    ensures EscapedByte(b)
  {
    HexRoundTrip(b / 16);
    HexRoundTrip(b % 16);
  }

  lemma PlainByte(b: Byte)
    requires 0x20 <= b <= 0x7E && b != 0x3D && b != 0x3F && b != 0x5F
    ensures QByte(b) == if b == 0x20 then "_" else [b as char]
  {
  }

  lemma {:induction false} EscapedBytes(bs: seq<Byte>)
    requires forall i :: 0 <= i < |bs| ==> EscapedByte(bs[i])
    ensures |QBytes(bs)| == 3 * |bs|
    ensures forall i :: 0 <= i < |bs| ==>
              QBytes(bs)[3 * i] == '=' && HexValue(QBytes(bs)[3 * i + 1]) == Some(bs[i] / 16) &&
              HexValue(QBytes(bs)[3 * i + 2]) == Some(bs[i] % 16)
  {
    hide QByte, HexValue;
    if bs != [] {
      var rest := QBytes(bs[1..]);
      EscapedBytes(bs[1..]);
      forall i | 0 <= i < |bs|
        ensures QBytes(bs)[3 * i] == '=' && HexValue(QBytes(bs)[3 * i + 1]) == Some(bs[i] / 16) &&
                HexValue(QBytes(bs)[3 * i + 2]) == Some(bs[i] % 16)
      {
        if i == 0 {
          assert EscapedByte(bs[0]);
        } else {
          assert bs[i] == bs[1..][i - 1];
          assert rest[3 * (i - 1)] == QBytes(bs)[3 * i];
          assert rest[3 * (i - 1) + 1] == QBytes(bs)[3 * i + 1] && rest[3 * (i - 1) + 2] == QBytes(bs)[3 * i + 2];
        }
      }
    }
  }

  /** Text of printable ASCII characters and tabs is left as it is. */
  lemma PlainTextIsKept(s: string)
    requires forall i :: 0 <= i < |s| ==> ' ' <= s[i] <= '~' || s[i] == '\t'
    ensures Encoded(s) == s
  {
  }

  /** A reader recovers any other text exactly. */
  lemma RoundTrip(s: string)
    requires exists i :: 0 <= i < |s| && !(' ' <= s[i] <= '~' || s[i] == '\t')
    ensures Encoded(s) == Join(Words("", s)) && Decode(Encoded(s)) == Some(s)
  {
    hide Words, Pieces, Join, Decode, Word, QText, Fits;
    NothingIsHeld();
    PiecesDescribeWords("", s);
    assert "" + s == s;
    JoinedRoundTrip(Pieces("", s), Words("", s));
  }

  lemma FitsIs()
    ensures forall piece :: Fits(piece) ==> |Word(QText(piece))| <= MAX_WORD
  {
  }

  lemma NothingIsHeld()
    ensures QText("") == "" && Fits("")
  {
  }

  /** Words are at most 75 characters long and each holds whole characters of the text, in order. */
  lemma WordsAreShortAndWhole(s: string)
    ensures var ws, ps := Words("", s), Pieces("", s);
            |ws| == |ps| && Concat(ps) == s &&
            forall i :: 0 <= i < |ws| ==> |ws[i]| <= MAX_WORD && DecodeWord(ws[i]) == Some(ps[i])
  {
    hide Words, Pieces, Word, QText, DecodeWord, Fits;
    NothingIsHeld();
    PiecesDescribeWords("", s);
    assert "" + s == s;
    FitsIs();
    forall i | 0 <= i < |Pieces("", s)| { WordRoundTrip(Pieces("", s)[i]); }
  }

  // ---- fewest words -------------------------------------------------------------------------------------------

  /** The number of words when the current one has `used` characters of text. */
  function Needed(used: nat, rest: string): nat
    decreases |rest|
  {
    if rest == "" then 1
    else if used + |QChar(rest[0])| > 63 then 1 + Needed(|QChar(rest[0])|, rest[1..])
    else Needed(used + |QChar(rest[0])|, rest[1..])
  }

  lemma {:induction false} NeededIsCount(cur: string, rest: string)
    ensures |Words(cur, rest)| == Needed(|cur|, rest)
    decreases |rest|
  {
    if rest != "" {
      NeededIsCount(QChar(rest[0]), rest[1..]);
      NeededIsCount(cur + QChar(rest[0]), rest[1..]);
    }
  }

  /** A fuller current word never helps, and costs at most one word. */
  lemma {:induction false} FullerIsNoBetter(less: nat, more: nat, rest: string)
    requires less <= more <= 63
    ensures Needed(less, rest) <= Needed(more, rest) <= Needed(less, rest) + 1
    decreases |rest|
  {
    if rest != "" {
      var e := |QChar(rest[0])|;
      QCharIsShort(rest[0]);
      if more + e <= 63 {
        FullerIsNoBetter(less + e, more + e, rest[1..]);
      } else if less + e <= 63 {
        FullerIsNoBetter(e, less + e, rest[1..]);
      }
    }
  }

  /** A piece that fits into the current word goes into it. */
  lemma {:induction false} WholePieceFits(used: nat, piece: string, rest: string)
    requires used + |QText(piece)| <= 63
    ensures Needed(used, piece + rest) == Needed(used + |QText(piece)|, rest)
    decreases |piece|
  {
    hide QChar;
    if piece == "" {
      assert piece + rest == rest;
    } else {
      assert (piece + rest)[1..] == piece[1..] + rest;
      WholePieceFits(used + |QChar(piece[0])|, piece[1..], rest);
    }
  }

  lemma {:induction false} NoSplitIsShorter(split: seq<string>)
    requires split != [] && forall i :: 0 <= i < |split| ==> Fits(split[i])
    ensures Needed(0, Concat(split)) <= |split|
    decreases |split|
  {
    assert Fits(split[0]);
    var rest := Concat(split[1..]);
    WholePieceFits(0, split[0], rest);
    if |split| > 1 {
      NoSplitIsShorter(split[1..]);
      FullerIsNoBetter(0, |QText(split[0])|, rest);
    }
  }

  /** No way to cut the text into pieces whose words fit uses fewer words. */
  lemma FewestWords(s: string, split: seq<string>)
    requires split != [] && Concat(split) == s && forall i :: 0 <= i < |split| ==> Fits(split[i])
    ensures |Words("", s)| <= |split|
  {
    NoSplitIsShorter(split);
    NeededIsCount("", s);
  }
}
