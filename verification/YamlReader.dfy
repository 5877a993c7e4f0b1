/** A reader for the block style of YAML 1.2.2 (section 8.2) with single-line scalars, and what it makes of the
    documents that the emitter writes. It knows no flow collections but the empty ones, no tags and no comments. */
module YamlReader {
  import opened Common
  import opened JsonValues
  import opened Ordering
  import opened YamlEmitter
  import opened YamlScalars

  // ---- lines ---------------------------------------------------------------------------------------

  /** A line without its indentation. */
  datatype Line = Line(col: nat, text: string)

  function Split(t: string): (r: seq<string>)
    ensures r != []
  {
    if t == "" then [""]
    else
      var rest := Split(t[1..]);
      if t[0] == '\n' then [""] + rest else [[t[0]] + rest[0]] + rest[1..]
  }

  function Leading(t: string): (n: nat)
    ensures n <= |t|
  {
    if t != "" && t[0] == ' ' then 1 + Leading(t[1..]) else 0
  }

  function Cut(t: string): Line {
    Line(Leading(t), t[Leading(t)..])
  }

  function Cuts(ss: seq<string>): seq<Line> {
    seq(|ss|, i requires 0 <= i < |ss| => Cut(ss[i]))
  }

  // ---- scalars and keys ------------------------------------------------------------------------------

  /** How many characters stand before the closing double quote. */
  function EndOfDouble(t: string): nat
    decreases |t|
  {
    if t == "" || t[0] == '"' then 0
    else if t[0] == '\\' && |t| >= 2 then 2 + EndOfDouble(t[2..])
    else 1 + EndOfDouble(t[1..])
  }

  /** The same for single quotes, which are doubled inside. */
  function EndOfSingle(t: string): nat
    decreases |t|
  {
    if t == "" then 0
    else if t[0] != '\'' then 1 + EndOfSingle(t[1..])
    else if |t| >= 2 && t[1] == '\'' then 2 + EndOfSingle(t[2..])
    else 0
  }

  predicate EndsKey(t: string, i: nat)
    requires i < |t|
  {
    t[i] == ':' && FollowedBySpace(t, i)
  }

  function EndOfPlain(t: string, i: nat): nat
    requires i <= |t|
    decreases |t| - i
  {
    if i == |t| || EndsKey(t, i) then i else EndOfPlain(t, i + 1)
  }

  /** Where the colon of a key stands, if the line begins with a key. */
  function KeyEnd(t: string): (r: Option<nat>)
    ensures r.Some? ==> r.value < |t| && EndsKey(t, r.value)
  {
    if t == "" then None
    else
      var i := if t[0] == '"' then 2 + EndOfDouble(t[1..])
               else if t[0] == '\'' then 2 + EndOfSingle(t[1..])
               else EndOfPlain(t, 0);
      if i < |t| && EndsKey(t, i) then Some(i) else None
  }

  predicate IsDash(t: string) {
    t != "" && t[0] == '-' && FollowedBySpace(t, 0)
  }

  /** What this project does not look into: the value of a plain scalar, and the key that it is taken for, if any. */
  datatype Loader = Loader(resolve: string -> Option<Json>, plainKey: string -> Option<string>)

  predicate IsQuoted(t: string) {
    t != "" && (t[0] == '"' || t[0] == '\'')
  }

  function ReadQuoted(t: string): Option<string>
    requires IsQuoted(t)
  {
    if |t| < 2 || t[|t| - 1] != t[0] then None
    else if t[0] == '"' then Decode(t[1..|t| - 1]) else DecodeSingle(t[1..|t| - 1])
  }

  /** A scalar or an empty collection. */
  function ReadLeaf(ld: Loader, t: string): Option<Json> {
    if t == "" then None
    else if t == "{}" then Some(Obj(map[]))
    else if t == "[]" then Some(Arr([]))
    else if IsQuoted(t) then if ReadQuoted(t).Some? then Some(Str(ReadQuoted(t).value)) else None
    else if HasIndicator(t) then None
    else ld.resolve(t)
  }

  /** The same in the place of a key. */
  function ReadKey(ld: Loader, t: string): Option<string> {
    if t == "" then None
    else if t == "{}" || t == "[]" then Some(t)
    else if IsQuoted(t) then ReadQuoted(t)
    else if HasIndicator(t) then None
    else ld.plainKey(t)
  }

  // ---- blocks ------------------------------------------------------------------------------------------

  /** The node that begins on the first line, and the lines after it. */
  function ReadBlock(ld: Loader, lines: seq<Line>): (r: Option<(Json, seq<Line>)>)
    requires lines != []
    ensures r.Some? ==> |r.value.1| < |lines|
    decreases |lines|, |lines[0].text|, 3
  {
    var col, t := lines[0].col, lines[0].text;
    if IsDash(t) then
      match ReadItems(ld, lines, col)
      case None => None
      case Some((items, rest)) => Some((Arr(items), rest))
    else if KeyEnd(t).Some? then
      match ReadEntries(ld, lines, col)
      case None => None
      case Some((members, rest)) => Some((Obj(members), rest))
    else
      match ReadLeaf(ld, t)
      case None => None
      case Some(v) => Some((v, lines[1..]))
  }

  predicate StartsItem(lines: seq<Line>, col: nat) {
    lines != [] && lines[0].col == col && IsDash(lines[0].text)
  }

  predicate StartsEntry(lines: seq<Line>, col: nat) {
    lines != [] && lines[0].col == col && !IsDash(lines[0].text) && KeyEnd(lines[0].text).Some?
  }

  function ReadItems(ld: Loader, lines: seq<Line>, col: nat): (r: Option<(seq<Json>, seq<Line>)>)
    ensures r.Some? ==> |r.value.1| <= |lines|
    ensures r.Some? && StartsItem(lines, col) ==> |r.value.1| < |lines|
    decreases |lines|, if lines == [] then 0 else |lines[0].text|, 2
  {
    if !StartsItem(lines, col) then Some(([], lines))
    else
      match ReadItem(ld, lines, col)
      case None => None
      case Some((v, rest)) =>
        match ReadItems(ld, rest, col)
        case None => None
        case Some((items, after)) => Some(([v] + items, after))
  }

  /** What follows a dash is a block of its own that is indented to where it begins. */
  function ReadItem(ld: Loader, lines: seq<Line>, col: nat): (r: Option<(Json, seq<Line>)>)
    requires StartsItem(lines, col)
    ensures r.Some? ==> |r.value.1| < |lines|
    decreases |lines|, |lines[0].text|, 1
  {
    var c := Cut(lines[0].text[1..]);
    if c.text == "" then ReadNested(ld, lines, col, false)
    else ReadBlock(ld, [Line(col + 1 + c.col, c.text)] + lines[1..])
  }

  /** A node on the lines below the first one, or nothing. A list may stand right below the key that it belongs to. */
  function ReadNested(ld: Loader, lines: seq<Line>, col: nat, afterKey: bool)
    : (r: Option<(Json, seq<Line>)>)
    requires lines != []
    ensures r.Some? ==> |r.value.1| < |lines|
    decreases |lines|, |lines[0].text|, 0
  {
    if |lines| > 1 && (lines[1].col > col || (afterKey && StartsItem(lines[1..], col))) then
      ReadBlock(ld, lines[1..])
    else Some((Null, lines[1..]))
  }

  function ReadEntries(ld: Loader, lines: seq<Line>, col: nat): (r: Option<(map<string, Json>, seq<Line>)>)
    ensures r.Some? ==> |r.value.1| <= |lines|
    ensures r.Some? && StartsEntry(lines, col) ==> |r.value.1| < |lines|
    decreases |lines|, if lines == [] then 0 else |lines[0].text|, 2
  {
    if !StartsEntry(lines, col) then Some((map[], lines))
    else
      var t := lines[0].text;
      var i := KeyEnd(t).value;
      match (ReadKey(ld, t[..i]), ReadValue(ld, lines, col, Cut(t[i + 1..]).text))
      case (Some(k), Some((v, rest))) =>
        (match ReadEntries(ld, rest, col)
         case None => None
         case Some((members, after)) => if k in members then None else Some((members[k := v], after)))
      case _ => None
  }

  /** The value that stands after a key, on its line or below it. */
  function ReadValue(ld: Loader, lines: seq<Line>, col: nat, t: string): (r: Option<(Json, seq<Line>)>)
    requires lines != []
    ensures r.Some? ==> |r.value.1| < |lines|
    decreases |lines|, |lines[0].text|, 1
  {
    if t == "" then ReadNested(ld, lines, col, true)
    else if IsDash(t) || KeyEnd(t).Some? || ReadLeaf(ld, t).None? then None
    else Some((ReadLeaf(ld, t).value, lines[1..]))
  }

  /** One document, which ends with a line break. */
  function Parse(ld: Loader, text: string): Option<Json> {
    var ss := Split(text);
    if |ss| < 2 || ss[|ss| - 1] != "" then None
    else
      match ReadBlock(ld, Cuts(ss[..|ss| - 1]))
      case Some((v, rest)) => if rest == [] then Some(v) else None
      case None => None
  }

  // ---- what the reader sees ----------------------------------------------------------------------------------

  ghost predicate WrittenPlain(sp: Spelling, v: Json, simpleKey: bool)
    requires !v.Arr? && !v.Obj?
  {
    var (text, requested) := Words(sp, v); SelectStyle(text, requested, simpleKey).Plain?
  }

  /** A plain scalar is seen as what it resolves to, a quoted one as its text; a merge is not seen as a value. */
  ghost function SeenLeaf(sp: Spelling, ld: Loader, v: Json): Option<Json>
    requires IsLeaf(v)
  {
    if v.Arr? || v.Obj? then Some(v)
    else if v == Str("<<") then None
    else if WrittenPlain(sp, v, false) then ld.resolve(Words(sp, v).0)
    else Some(Str(Words(sp, v).0))
  }

  ghost function SeenKey(sp: Spelling, ld: Loader, k: string): Option<string> {
    if k == "<<" then None else if WrittenPlain(sp, Str(k), true) then ld.plainKey(k) else Some(k)
  }

  /** The tree that the reader gets from the document of a tree, if it gets one. */
  ghost function Seen(sp: Spelling, ld: Loader, v: Json): Option<Json>
    decreases v, 2, 0
  {
    if IsLeaf(v) then SeenLeaf(sp, ld, v)
    else if v.Obj? then
      match SeenEntries(sp, ld, v, Sorted(KEY_ORDER, v.members.Keys))
      case None => None
      case Some(members) => Some(Obj(members))
    else
      match SeenItems(sp, ld, v, 0)
      case None => None
      case Some(items) => Some(Arr(items))
  }

  ghost function SeenItems(sp: Spelling, ld: Loader, v: Json, from: nat): Option<seq<Json>>
    requires v.Arr? && from <= |v.items|
    decreases v, 1, |v.items| - from
  {
    if from == |v.items| then Some([])
    else
      match (Seen(sp, ld, v.items[from]), SeenItems(sp, ld, v, from + 1))
      case (Some(x), Some(xs)) => Some([x] + xs)
      case _ => None
  }

  /** Keys that are seen as equal are refused. */
  ghost function SeenEntries(sp: Spelling, ld: Loader, v: Json, keys: seq<string>): Option<map<string, Json>>
    requires v.Obj? && forall k :: k in keys ==> k in v.members
    decreases v, 1, |keys|
  {
    if keys == [] then Some(map[])
    else
      match (SeenKey(sp, ld, keys[0]), Seen(sp, ld, v.members[keys[0]]), SeenEntries(sp, ld, v, keys[1..]))
      case (Some(k), Some(x), Some(members)) => if k in members then None else Some(members[k := x])
      case _ => None
  }

  // ---- quoted scalars end where their closing quote is -------------------------------------------------------

  lemma {:induction false} HexHasNoQuote(n: nat, width: nat)
    ensures forall i :: 0 <= i < width ==> HexText(n, width)[i] != '"' && HexText(n, width)[i] != '\\'
  {
    if width > 0 {
      HexHasNoQuote(n / 16, width - 1);
    }
  }

  lemma {:induction false} PassesOver(p: string, rest: string)
    requires forall i :: 0 <= i < |p| ==> p[i] != '"' && p[i] != '\\'
    ensures EndOfDouble(p + rest) == |p| + EndOfDouble(rest)
  {
    if p == "" {
      assert p + rest == rest;
    } else {
      assert (p + rest)[1..] == p[1..] + rest;
      PassesOver(p[1..], rest);
    }
  }

  lemma QuotedEnds(bom: bool, c: char, rest: string)
    ensures EndOfDouble(Quoted(bom, c) + rest) == |Quoted(bom, c)| + EndOfDouble(rest)
  {
    hide HexText, EndOfDouble;
    var q := Quoted(bom, c);
    if !MustEscape(bom, c) {
      PassesOver(q, rest);
    } else {
      var e := Escape(c);
      assert q + rest == "\\" + (e + rest);
      BackslashPasses(e + rest);
      assert (e + rest)[1..] == e[1..] + rest;
      if Named(c).None? {
        HexHasNoQuote(c as int, |e| - 1);
      }
      PassesOver(e[1..], rest);
    }
  }

  lemma BackslashPasses(t: string)
    requires t != ""
    ensures EndOfDouble("\\" + t) == 2 + EndOfDouble(t[1..])
  {
    assert ("\\" + t)[2..] == t[1..];
  }

  lemma {:induction false} BodyEnds(bom: bool, s: string, tail: string)
    ensures EndOfDouble(Body(bom, s) + ("\"" + tail)) == |Body(bom, s)|
  {
    hide Quoted;
    if s == "" {
      assert Body(bom, s) + ("\"" + tail) == "\"" + tail;
    } else {
      BodyEnds(bom, s[1..], tail);
      QuotedEnds(bom, s[0], Body(bom, s[1..]) + ("\"" + tail));
      assert Body(bom, s) + ("\"" + tail) == Quoted(bom, s[0]) + (Body(bom, s[1..]) + ("\"" + tail));
    }
  }

  lemma SingleCharEnds(c: char, rest: string)
    ensures var p := if c == '\'' then "''" else [c]; EndOfSingle(p + rest) == |p| + EndOfSingle(rest)
  {
    if c == '\'' {
      assert ("''" + rest)[2..] == rest;
    } else {
      assert ([c] + rest)[1..] == rest;
    }
  }

  lemma ClosingQuoteEnds(tail: string)
    requires tail == "" || tail[0] != '\''
    ensures EndOfSingle("'" + tail) == 0
  {
  }

  lemma {:induction false} SingleEnds(s: string, tail: string)
    requires tail == "" || tail[0] != '\''
    ensures EndOfSingle(SingleBody(s) + ("'" + tail)) == |SingleBody(s)|
  {
    hide EndOfSingle;
    if s == "" {
      ClosingQuoteEnds(tail);
      assert SingleBody(s) + ("'" + tail) == "'" + tail;
    } else {
      var p, more := if s[0] == '\'' then "''" else [s[0]], SingleBody(s[1..]) + ("'" + tail);
      SingleEnds(s[1..], tail);
      SingleCharEnds(s[0], more);
      assert SingleBody(s) + ("'" + tail) == p + more;
    }
  }

  // ---- a scalar on a line of its own, and before the colon of a key --------------------------------------------

  /** The text is taken for neither an item nor a key. */
  predicate StandsAlone(t: string) {
    t != "" && t[0] != ' ' && '\n' !in t && !IsDash(t) && KeyEnd(t).None?
  }

  /** With a colon and a value after it the text is taken for a key. */
  predicate StandsAsKey(t: string, after: string) {
    !IsDash(t + ":" + after) && KeyEnd(t + ":" + after) == Some(|t|)
  }

  lemma {:induction false} EndOfPlainIs(t: string, i: nat, n: nat)
    requires i <= n <= |t| && (n < |t| ==> EndsKey(t, n)) && forall j :: i <= j < n ==> !EndsKey(t, j)
    ensures EndOfPlain(t, i) == n
    decreases n - i
  {
    if i < n {
      EndOfPlainIs(t, i + 1, n);
    }
  }

  /** Unquoted text without the colon of a key. */
  lemma UnquotedStands(t: string, after: string)
    requires t != "" && t[0] != ' ' && t[0] != '"' && t[0] != '\'' && '\n' !in t && !IsDash(t)
    requires forall j :: 0 <= j < |t| ==> !EndsKey(t, j)
    requires after == "" || after[0] == ' '
    ensures StandsAlone(t) && StandsAsKey(t, after)
  {
    var u := t + ":" + after;
    EndOfPlainIs(t, 0, |t|);
    forall j | 0 <= j < |t| ensures !EndsKey(u, j) {
      assert !EndsKey(t, j);
      assert u[j] == t[j];
      if j + 1 < |t| { assert u[j + 1] == t[j + 1]; }
    }
    assert u[|t|] == ':' && (after != "" ==> u[|t| + 1] == after[0]);
    EndOfPlainIs(u, 0, |t|);
  }

  lemma PlainStands(ld: Loader, t: string, after: string)
    requires t != "" && Analyze(t).blockPlain && (after == "" || after[0] == ' ')
    ensures StandsAlone(t) && StandsAsKey(t, after) && ReadLeaf(ld, t) == ld.resolve(t) &&
            ReadKey(ld, t) == ld.plainKey(t)
  {
    hide StandsAlone, StandsAsKey, Decode, DecodeSingle;
    assert !HasIndicator(t) && !HasBreak(t) && t[0] != ' ';
    assert !Indicator(t, 0);
    forall j | 0 <= j < |t| ensures !EndsKey(t, j) {
      assert !Indicator(t, j);
    }
    UnquotedStands(t, after);
  }

  lemma DoubleStands(ld: Loader, s: string, after: string)
    requires after == "" || after[0] == ' '
    ensures var t := DoubleQuoted(s);
            StandsAlone(t) && StandsAsKey(t, after) && ReadLeaf(ld, t) == Some(Str(s)) && ReadKey(ld, t) == Some(s)
  {
    hide Decode, Body, EndOfDouble, EndOfSingle, EndOfPlain;
    DoubleQuotedRoundTrip(s);
    var t, body := DoubleQuoted(s), Body(HasBom(s), s);
    BodyEnds(HasBom(s), s, "");
    BodyEnds(HasBom(s), s, ":" + after);
    assert t[1..] == body + ("\"" + "");
    assert (t + ":" + after)[1..] == body + ("\"" + (":" + after));
    assert (t + ":" + after)[|t|] == ':' && (after != "" ==> (t + ":" + after)[|t| + 1] == after[0]);
  }

  lemma {:induction false} SingleHasNoBreak(s: string)
    requires !HasBreak(s)
    ensures '\n' !in SingleBody(s)
  {
    if s != "" {
      assert !IsBreak(s[0]);
      forall i | 0 <= i < |s[1..]| ensures !IsBreak(s[1..][i]) {
        assert s[1..][i] == s[i + 1];
      }
      SingleHasNoBreak(s[1..]);
    }
  }

  lemma SingleStands(ld: Loader, s: string, after: string)
    requires !HasBreak(s) && (after == "" || after[0] == ' ')
    ensures var t := "'" + SingleBody(s) + "'";
            StandsAlone(t) && StandsAsKey(t, after) && ReadLeaf(ld, t) == Some(Str(s)) && ReadKey(ld, t) == Some(s)
  {
    hide DecodeSingle, SingleBody, EndOfDouble, EndOfSingle, EndOfPlain, HasBreak;
    var body := SingleBody(s);
    var t := "'" + body + "'";
    SingleQuotedRoundTrip(s);
    SingleHasNoBreak(s);
    SingleEnds(s, "");
    SingleEnds(s, ":" + after);
    assert t[1..|t| - 1] == body && t[1..] == body + ("'" + "");
    assert (t + ":" + after)[1..] == body + ("'" + (":" + after));
    assert (t + ":" + after)[|t|] == ':' && (after != "" ==> (t + ":" + after)[|t| + 1] == after[0]);
  }

  lemma WordsArePlain()
    ensures Analyze("null").blockPlain && Analyze("true").blockPlain && Analyze("false").blockPlain
  {
    hide Analyze;
    LettersArePlain("null");
    LettersArePlain("true");
    LettersArePlain("false");
  }

  lemma LetterIsPlain(c: char)
    requires 'a' <= c <= 'z'
    ensures Printable(c) && !IsBreak(c) && c !in "#,[]{}&*!|>'\"%@`?:-"
  {
  }

  lemma LettersArePlain(s: string)
    requires s != "" && forall i :: 0 <= i < |s| ==> 'a' <= s[i] <= 'z'
    ensures Analyze(s).blockPlain
  {
    assert !Marker(s) by {
      assert "---"[0] == '-' && "..."[0] == '.' && s[0] != '-' && s[0] != '.';
    }
    forall i | 0 <= i < |s| ensures !Indicator(s, i) && !Special(s, i) && !IsBreak(s[i]) && s[i] != '\t' {
      LetterIsPlain(s[i]);
    }
  }

  lemma BracketsStand(ld: Loader, after: string)
    requires after == "" || after[0] == ' '
    ensures StandsAlone("{}") && ReadLeaf(ld, "{}") == Some(Obj(map[]))
    ensures StandsAlone("[]") && ReadLeaf(ld, "[]") == Some(Arr([]))
    ensures StandsAlone("!!merge <<") && StandsAsKey("!!merge <<", after)
    ensures ReadLeaf(ld, "!!merge <<") == None && ReadKey(ld, "!!merge <<") == None
  {
    hide StandsAlone, StandsAsKey;
    UnquotedStands("{}", "");
    UnquotedStands("[]", "");
    var t := "!!merge <<";
    UnquotedStands(t, after);
    assert Indicator(t, 0);
  }

  /** What a leaf reads as, and that it can stand wherever the emitter puts it. */
  lemma LeafReads(sp: Spelling, ld: Loader, v: Json)
    requires GoodSpelling(sp) && IsLeaf(v) && SingleLine(v)
    ensures StandsAlone(Leaf(sp, v, false)) && ReadLeaf(ld, Leaf(sp, v, false)) == SeenLeaf(sp, ld, v)
  {
    hide StandsAlone, StandsAsKey, ReadLeaf, ReadKey, Analyze, HasBreak, DoubleQuoted, SingleBody;
    BracketsStand(ld, "");
    if !v.Arr? && !v.Obj? && v != Str("<<") {
      var (text, requested) := Words(sp, v);
      WordsArePlain();
      match SelectStyle(text, requested, false)
      case Plain => PlainStands(ld, text, "");
      case Single => SingleStands(ld, text, "");
      case Double => DoubleStands(ld, text, "");
      case Literal => WordsAreWritable(sp, v, false);
    }
  }

  /** The same for a key and what follows its colon. */
  lemma KeyReads(sp: Spelling, ld: Loader, k: string, after: string)
    requires GoodSpelling(sp) && !HasBreak(k) && (after == "" || after[0] == ' ')
    ensures var t := Leaf(sp, Str(k), true);
            StandsAlone(t) && StandsAsKey(t, after) && ReadKey(ld, t) == SeenKey(sp, ld, k)
  {
    hide StandsAlone, StandsAsKey, ReadLeaf, ReadKey, Analyze, HasBreak, DoubleQuoted, SingleBody;
    BracketsStand(ld, after);
    if k != "<<" {
      var (text, requested) := Words(sp, Str(k));
      match SelectStyle(text, requested, true)
      case Plain => PlainStands(ld, text, after);
      case Single => SingleStands(ld, text, after);
      case Double => DoubleStands(ld, text, after);
      case Literal => WordsAreWritable(sp, Str(k), true);
    }
  }

  // ---- the lines of a document -----------------------------------------------------------------------------------

  lemma SplitStep(c: char, t: string)
    ensures Split([c] + t) == if c == '\n' then [""] + Split(t) else [[c] + Split(t)[0]] + Split(t)[1..]
  {
    assert ([c] + t)[1..] == t;
  }

  lemma {:induction false} SplitBreak(a: string, b: string)
    ensures Split(a + "\n" + b) == Split(a) + Split(b)
  {
    hide Split;
    if a == "" {
      SplitStep('\n', b);
      assert a + "\n" + b == ['\n'] + b;
      EmptyIsOneLine();
    } else {
      SplitBreak(a[1..], b);
      assert a[1..] + ("\n" + b) == a[1..] + "\n" + b;
      SplitTogether(a[0], a[1..], "\n" + b, Split(b));
      assert a + "\n" + b == [a[0]] + (a[1..] + ("\n" + b)) && a == [a[0]] + a[1..];
    }
  }

  lemma SplitTogether(c: char, a: string, b: string, lines: seq<string>)
    requires Split(a + b) == Split(a) + lines
    ensures Split([c] + (a + b)) == Split([c] + a) + lines
  {
    hide Split;
    SplitStep(c, a);
    SplitStep(c, a + b);
    assert (Split(a) + lines)[1..] == Split(a)[1..] + lines;
  }

  lemma EmptyIsOneLine()
    ensures Split("") == [""]
  {
  }

  lemma {:induction false} SplitPrefix(p: string, t: string)
    requires '\n' !in p
    ensures Split(p + t) == [p + Split(t)[0]] + Split(t)[1..]
  {
    hide Split;
    if p == "" {
      assert p + t == t && p + Split(t)[0] == Split(t)[0];
    } else {
      SplitPrefix(p[1..], t);
      SplitStep(p[0], p[1..] + t);
      assert p + t == [p[0]] + (p[1..] + t);
      assert p + Split(t)[0] == [p[0]] + (p[1..] + Split(t)[0]);
    }
  }

  lemma OneLine(t: string)
    requires '\n' !in t
    ensures Split(t) == [t]
  {
    SplitPrefix(t, "");
    assert t + "" == t;
  }

  lemma {:induction false} LeadingSpaces(n: nat, t: string)
    ensures Leading(Spaces(n) + t) == n + Leading(t)
  {
    if n == 0 {
      assert Spaces(0) + t == t;
    } else {
      LeadingSpaces(n - 1, t);
      assert (Spaces(n) + t)[1..] == Spaces(n - 1) + t;
    }
  }

  lemma CutIndented(n: nat, t: string)
    ensures Cut(Spaces(n) + t) == Line(n + Leading(t), t[Leading(t)..])
  {
    LeadingSpaces(n, t);
  }

  function LinesOf(t: string): seq<Line> {
    Cuts(Split(t))
  }

  lemma LinesBreak(a: string, b: string)
    ensures LinesOf(a + "\n" + b) == LinesOf(a) + LinesOf(b)
  {
    SplitBreak(a, b);
  }

  lemma LinesBelow(m: nat, a: string, b: string)
    ensures LinesOf(Spaces(m) + (a + (NewLine(m + 2) + b))) == LinesOf(Spaces(m) + a) + LinesOf(Spaces(m + 2) + b)
  {
    hide LinesOf, Spaces;
    LinesBreak(Spaces(m) + a, Spaces(m + 2) + b);
    assert Spaces(m) + (a + (NewLine(m + 2) + b)) == (Spaces(m) + a) + "\n" + (Spaces(m + 2) + b);
  }

  lemma LinesJoin(m: nat, a: string, b: string)
    ensures LinesOf(Spaces(m) + (a + NewLine(m) + b)) == LinesOf(Spaces(m) + a) + LinesOf(Spaces(m) + b)
  {
    hide LinesOf, Spaces;
    LinesBreak(Spaces(m) + a, Spaces(m) + b);
    assert Spaces(m) + (a + NewLine(m) + b) == (Spaces(m) + a) + "\n" + (Spaces(m) + b);
  }

  /** A text without line breaks is one line. */
  lemma IndentedLine(n: nat, t: string)
    requires '\n' !in t && t != "" && t[0] != ' '
    ensures LinesOf(Spaces(n) + t) == [Line(n, t)]
  {
    OneLine(Spaces(n) + t);
    CutIndented(n, t);
  }

  /** A dash in place of two columns of indentation. */
  lemma DashLines(n: nat, t: string, first: string, more: seq<Line>)
    requires LinesOf(Spaces(n + 2) + t) == [Line(n + 2, first)] + more
    ensures LinesOf(Spaces(n) + ("- " + t)) == [Line(n, "- " + first)] + more
  {
    hide Split, Leading, LinesOf, Cuts, Cut, Spaces;
    var s := Split(t)[0];
    SpacesHaveNoBreak(n);
    SpacesHaveNoBreak(n + 2);
    PrefixedLines(Spaces(n + 2), t);
    PrefixedLines(Spaces(n) + "- ", t);
    assert Spaces(n) + ("- " + t) == (Spaces(n) + "- ") + t;
    assert LinesOf(Spaces(n + 2) + t)[0] == Line(n + 2, first) && LinesOf(Spaces(n + 2) + t)[1..] == more;
    DashInPlace(n, s, first);
  }

  lemma SpacesHaveNoBreak(n: nat)
    ensures '\n' !in Spaces(n)
  {
  }

  lemma DashInPlace(n: nat, s: string, first: string)
    requires Cut(Spaces(n + 2) + s) == Line(n + 2, first)
    ensures Cut((Spaces(n) + "- ") + s) == Line(n, "- " + first)
  {
    hide Split, Leading, Cut, Spaces;
    CutIndented(n + 2, s);
    CutIndented(n, "- " + s);
    DashLeads(s);
    assert s == s[0..] == first;
    assert Spaces(n) + ("- " + s) == (Spaces(n) + "- ") + s;
  }

  lemma DashLeads(s: string)
    ensures Leading("- " + s) == 0 && ("- " + s)[0..] == "- " + s
  {
  }

  lemma PrefixedLines(p: string, t: string)
    requires '\n' !in p
    ensures LinesOf(p + t) == [Cut(p + Split(t)[0])] + Cuts(Split(t)[1..])
  {
    hide Split, Cut;
    SplitPrefix(p, t);
  }

  ghost function BlockLines(sp: Spelling, v: Json, m: nat): (r: seq<Line>)
    requires !IsLeaf(v)
    ensures r != [] && r[0].col == m
    decreases v, 2, 0
  {
    if v.Obj? then
      SortedKeys(v);
      EntryLines(sp, v, Sorted(KEY_ORDER, v.members.Keys), m)
    else ItemLines(sp, v, 0, |v.items|, m)
  }

  lemma SortedKeys(v: Json)
    requires v.Obj?
    ensures var keys := Sorted(KEY_ORDER, v.members.Keys);
            (v.members != map[] ==> keys != []) && NoDuplicates(keys) && forall k :: k in keys <==> k in v.members
  {
    hide Precedes;
    SortedAscends(KEY_ORDER, v.members.Keys);
    if v.members != map[] {
      var k :| k in v.members;
    }
  }

  ghost function EntryLines(sp: Spelling, v: Json, keys: seq<string>, m: nat): (r: seq<Line>)
    requires v.Obj? && forall k :: k in keys ==> k in v.members
    ensures keys != [] ==> r != [] && r[0].col == m
    decreases v, 1, |keys|
  {
    if keys == [] then [] else OneEntry(sp, keys[0], v.members[keys[0]], m) + EntryLines(sp, v, keys[1..], m)
  }

  ghost function OneEntry(sp: Spelling, k: string, value: Json, m: nat): (r: seq<Line>)
    ensures r != [] && r[0].col == m
    decreases value, 3, 0
  {
    var key := Leaf(sp, Str(k), true) + ":";
    if IsLeaf(value) then [Line(m, key + (" " + Leaf(sp, value, false)))]
    else [Line(m, key)] + BlockLines(sp, value, m + 2)
  }

  ghost function ItemLines(sp: Spelling, v: Json, from: nat, to: nat, m: nat): (r: seq<Line>)
    requires v.Arr? && from <= to <= |v.items|
    ensures from < to ==> r != [] && r[0].col == m
    decreases v, 1, to - from
  {
    if from == to then [] else OneItem(sp, v.items[from], m) + ItemLines(sp, v, from + 1, to, m)
  }

  ghost function OneItem(sp: Spelling, v: Json, m: nat): (r: seq<Line>)
    ensures r != [] && r[0].col == m
    decreases v, 3, 0
  {
    if IsLeaf(v) then [Line(m, "- " + Leaf(sp, v, false))]
    else
      var lines := BlockLines(sp, v, m + 2);
      [Line(m, "- " + lines[0].text)] + lines[1..]
  }

  lemma {:induction false} EntryAppended(sp: Spelling, v: Json, keys: seq<string>, k: string, m: nat)
    requires v.Obj? && (forall j :: j in keys ==> j in v.members) && k in v.members
    ensures EntryLines(sp, v, keys + [k], m) == EntryLines(sp, v, keys, m) + OneEntry(sp, k, v.members[k], m)
    decreases |keys|
  {
    hide OneEntry;
    if keys != [] {
      EntryAppended(sp, v, keys[1..], k, m);
      assert (keys + [k])[1..] == keys[1..] + [k];
    } else {
      assert [k][1..] == [] && keys + [k] == [k];
    }
  }

  lemma {:induction false} ItemAppended(sp: Spelling, v: Json, from: nat, to: nat, m: nat)
    requires v.Arr? && from <= to < |v.items|
    ensures ItemLines(sp, v, from, to + 1, m) == ItemLines(sp, v, from, to, m) + OneItem(sp, v.items[to], m)
    decreases |v.items| - from
  {
    hide OneItem;
    if from < to {
      ItemAppended(sp, v, from + 1, to, m);
    }
  }

  /** The layout, indented, is those lines. */
  lemma {:induction false} BlockHasLines(sp: Spelling, ld: Loader, v: Json, m: nat)
    requires GoodSpelling(sp) && SingleLine(v) && !IsLeaf(v)
    ensures LinesOf(Spaces(m) + Block(sp, v, m)) == BlockLines(sp, v, m)
    decreases v, 2, 0
  {
    hide Entries, Items, EntryLines, ItemLines, LinesOf, GoodSpelling, SingleLine;
    if v.Obj? {
      SortedKeys(v);
      EntriesHaveLines(sp, ld, v, Sorted(KEY_ORDER, v.members.Keys), m);
    } else {
      ItemsHaveLines(sp, ld, v, |v.items|, m);
    }
  }

  lemma {:induction false} EntriesHaveLines(sp: Spelling, ld: Loader, v: Json, keys: seq<string>, m: nat)
    requires GoodSpelling(sp) && SingleLine(v)
    requires v.Obj? && keys != [] && forall k :: k in keys ==> k in v.members
    ensures LinesOf(Spaces(m) + Entries(sp, v, keys, m)) == EntryLines(sp, v, keys, m)
    decreases v, 1, |keys|
  {
    hide Leaf, Value, LinesOf, OneEntry, EntryLines, GoodSpelling, NewLine, Spaces, HasBreak;
    var front, k := keys[..|keys| - 1], keys[|keys| - 1];
    var entry := Leaf(sp, Str(k), true) + ":" + Value(sp, v.members[k], m);
    assert k in v.members;
    EntryHasLines(sp, ld, k, v.members[k], m);
    EntryAppended(sp, v, front, k, m);
    assert keys == front + [k];
    if front == [] {
      assert Entries(sp, v, front, m) == "";
      assert Entries(sp, v, keys, m) == entry;
      NoEntries(sp, v, m);
    } else {
      EntriesHaveLines(sp, ld, v, front, m);
      LinesJoin(m, Entries(sp, v, front, m), entry);
    }
  }

  lemma NoEntries(sp: Spelling, v: Json, m: nat)
    requires v.Obj?
    ensures EntryLines(sp, v, [], m) == []
  {
  }

  lemma {:induction false} EntryHasLines(sp: Spelling, ld: Loader, k: string, value: Json, m: nat)
    requires GoodSpelling(sp) && SingleLine(value) && !HasBreak(k)
    ensures LinesOf(Spaces(m) + (Leaf(sp, Str(k), true) + ":" + Value(sp, value, m))) == OneEntry(sp, k, value, m)
    decreases value, 3, 0
  {
    hide Leaf, Block, BlockLines, LinesOf, GoodSpelling, HasBreak, IsDash, KeyEnd;
    KeyReads(sp, ld, k, "");
    var key := Leaf(sp, Str(k), true) + ":";
    if IsLeaf(value) {
      LeafReads(sp, ld, value);
      IndentedLine(m, key + (" " + Leaf(sp, value, false)));
    } else {
      BlockHasLines(sp, ld, value, m + 2);
      IndentedLine(m, key);
      LinesBelow(m, key, Block(sp, value, m + 2));
    }
  }

  lemma {:induction false} ItemsHaveLines(sp: Spelling, ld: Loader, v: Json, n: nat, m: nat)
    requires GoodSpelling(sp) && SingleLine(v) && v.Arr? && 0 < n <= |v.items|
    ensures LinesOf(Spaces(m) + Items(sp, v, n, m)) == ItemLines(sp, v, 0, n, m)
    decreases v, 1, n
  {
    hide Item, LinesOf, OneItem, ItemLines, GoodSpelling, NewLine, Spaces, HasBreak;
    var item := "-" + Item(sp, v.items[n - 1], m);
    ItemHasLines(sp, ld, v.items[n - 1], m);
    ItemAppended(sp, v, 0, n - 1, m);
    if n == 1 {
      assert Items(sp, v, 0, m) == "";
      assert Items(sp, v, n, m) == item;
      NoItems(sp, v, m);
    } else {
      ItemsHaveLines(sp, ld, v, n - 1, m);
      LinesJoin(m, Items(sp, v, n - 1, m), item);
    }
  }

  lemma NoItems(sp: Spelling, v: Json, m: nat)
    requires v.Arr?
    ensures ItemLines(sp, v, 0, 0, m) == []
  {
  }

  lemma {:induction false} ItemHasLines(sp: Spelling, ld: Loader, v: Json, m: nat)
    requires GoodSpelling(sp) && SingleLine(v)
    ensures LinesOf(Spaces(m) + ("-" + Item(sp, v, m))) == OneItem(sp, v, m)
    decreases v, 3, 0
  {
    hide Leaf, Block, BlockLines, LinesOf, GoodSpelling, SingleLine, IsDash, KeyEnd;
    if IsLeaf(v) {
      LeafReads(sp, ld, v);
      IndentedLine(m, "- " + Leaf(sp, v, false));
      assert "-" + Item(sp, v, m) == "- " + Leaf(sp, v, false);
    } else {
      BlockHasLines(sp, ld, v, m + 2);
      var lines := BlockLines(sp, v, m + 2);
      assert lines == [Line(m + 2, lines[0].text)] + lines[1..];
      DashLines(m, Block(sp, v, m + 2), lines[0].text, lines[1..]);
      assert "-" + Item(sp, v, m) == "- " + Block(sp, v, m + 2);
    }
  }

  // ---- reading the lines back --------------------------------------------------------------------------------------

  /** Lines that do not belong to a block at column m. */
  predicate Below(rest: seq<Line>, m: nat) {
    rest == [] || rest[0].col < m
  }

  ghost predicate Fine(sp: Spelling, v: Json) {
    GoodSpelling(sp) && SingleLine(v)
  }

  lemma FineInside(sp: Spelling, v: Json)
    requires Fine(sp, v)
    ensures v.Arr? ==> forall i :: 0 <= i < |v.items| ==> Fine(sp, v.items[i])
    ensures v.Obj? ==> forall k :: k in v.members ==> !HasBreak(k) && Fine(sp, v.members[k])
  {
    hide HasBreak;
  }

  /** The first line of an entry, taken apart. */
  lemma EntryLineReads(sp: Spelling, ld: Loader, k: string, after: string)
    requires GoodSpelling(sp) && !HasBreak(k)
    requires after == "" || (|after| > 1 && after[0] == ' ' && after[1] != ' ')
    ensures var t := Leaf(sp, Str(k), true) + ":" + after;
            t[0] != ' ' && !IsDash(t) && KeyEnd(t).Some? &&
            ReadKey(ld, t[..KeyEnd(t).value]) == SeenKey(sp, ld, k) &&
            Cut(t[KeyEnd(t).value + 1..]).text == if after == "" then "" else after[1..]
  {
    hide HasBreak, Leaf, ReadKey, SeenKey, IsDash, KeyEnd;
    KeyReads(sp, ld, k, after);
    var key := Leaf(sp, Str(k), true);
    var t := key + ":" + after;
    assert t[..|key|] == key && t[|key| + 1..] == after;
    if after != "" {
      assert Leading(after[1..]) == 0;
      assert Leading(after) == 1;
    }
  }

  lemma {:induction false} EntryReads(sp: Spelling, ld: Loader, k: string, value: Json, m: nat,
          more: seq<Line>)
    requires Fine(sp, value) && !HasBreak(k) && Below(more, m + 1)
    ensures var lines := OneEntry(sp, k, value, m) + more;
            StartsEntry(lines, m) &&
            var t := lines[0].text;
            ReadKey(ld, t[..KeyEnd(t).value]) == SeenKey(sp, ld, k) &&
            ReadValue(ld, lines, m, Cut(t[KeyEnd(t).value + 1..]).text) ==
              SeenThen(sp, ld, value, more)
    decreases value, 3, 0
  {
    hide HasBreak, Leaf, ReadLeaf, KeyEnd, IsDash, Fine, Cut, ReadBlock, BlockLines, GoodSpelling, SingleLine,
         Seen;
    var lines := OneEntry(sp, k, value, m) + more;
    if IsLeaf(value) {
      LeafStands(sp, ld, value);
      var leaf := Leaf(sp, value, false);
      EntryLineReads(sp, ld, k, " " + leaf);
      assert Leaf(sp, Str(k), true) + ":" + (" " + leaf) == lines[0].text;
      assert lines[1..] == more;
    } else {
      SpellingToo(sp, value);
      EntryLineReads(sp, ld, k, "");
      assert Leaf(sp, Str(k), true) + ":" + "" == lines[0].text;
      BlockReads(sp, ld, value, m + 2, more);
      assert lines[1..] == BlockLines(sp, value, m + 2) + more;
    }
  }

  lemma SpellingToo(sp: Spelling, v: Json)
    requires Fine(sp, v)
    ensures GoodSpelling(sp)
  {
  }

  lemma LeafStands(sp: Spelling, ld: Loader, v: Json)
    requires Fine(sp, v) && IsLeaf(v)
    ensures GoodSpelling(sp) && StandsAlone(Leaf(sp, v, false))
    ensures ReadLeaf(ld, Leaf(sp, v, false)) == Seen(sp, ld, v)
  {
    hide Leaf, ReadLeaf, StandsAlone, StandsAsKey;
    LeafReads(sp, ld, v);
  }

  ghost function SeenThen(sp: Spelling, ld: Loader, v: Json, rest: seq<Line>): Option<(Json, seq<Line>)> {
    if Seen(sp, ld, v).Some? then Some((Seen(sp, ld, v).value, rest)) else None
  }

  lemma {:induction false} EntriesRead(sp: Spelling, ld: Loader, v: Json, keys: seq<string>, m: nat,
          rest: seq<Line>)
    requires Fine(sp, v) && v.Obj? && (forall k :: k in keys ==> k in v.members) && Below(rest, m)
    ensures ReadEntries(ld, EntryLines(sp, v, keys, m) + rest, m) ==
            if SeenEntries(sp, ld, v, keys).Some? then Some((SeenEntries(sp, ld, v, keys).value, rest)) else None
    decreases v, 1, |keys|
  {
    hide HasBreak, Leaf, ReadLeaf, KeyEnd, Fine, Cut, ReadValue, OneEntry, Seen, SeenKey;
    if keys == [] {
      assert EntryLines(sp, v, keys, m) + rest == rest;
    } else {
      var k, more := keys[0], EntryLines(sp, v, keys[1..], m) + rest;
      FineInside(sp, v);
      EntryReads(sp, ld, k, v.members[k], m, more);
      assert EntryLines(sp, v, keys, m) + rest == OneEntry(sp, k, v.members[k], m) + more;
      EntriesRead(sp, ld, v, keys[1..], m, rest);
    }
  }

  lemma {:induction false} ItemReads(sp: Spelling, ld: Loader, v: Json, m: nat, more: seq<Line>)
    requires Fine(sp, v) && Below(more, m + 1)
    ensures var lines := OneItem(sp, v, m) + more;
            StartsItem(lines, m) && ReadItem(ld, lines, m) == SeenThen(sp, ld, v, more)
    decreases v, 3, 0
  {
    hide Leaf, ReadLeaf, KeyEnd, Fine, ReadBlock, BlockLines, Seen, Leading;
    var lines := OneItem(sp, v, m) + more;
    if IsLeaf(v) {
      var leaf := Leaf(sp, v, false);
      LeafStands(sp, ld, v);
      DashIsCut(leaf);
      assert lines[1..] == more && lines[0].text == "- " + leaf;
      LeafLineReads(ld, Line(m + 2, leaf), more);
      assert [Line(m + 1 + 1, leaf)] + lines[1..] == [Line(m + 2, leaf)] + more;
    } else {
      var block := BlockLines(sp, v, m + 2);
      FirstTextOf(sp, ld, v, m + 2);
      DashIsCut(block[0].text);
      BlockReads(sp, ld, v, m + 2, more);
      assert lines[0].text == "- " + block[0].text;
      assert [Line(m + 1 + 1, block[0].text)] + lines[1..] == block + more;
    }
  }

  lemma DashIsCut(t: string)
    requires t != "" && t[0] != ' '
    ensures Cut(("- " + t)[1..]) == Line(1, t)
  {
    assert ("- " + t)[1..] == " " + t && (" " + t)[1..] == t;
    assert Leading(t) == 0;
  }

  lemma LeafLineReads(ld: Loader, line: Line, more: seq<Line>)
    requires StandsAlone(line.text)
    ensures ReadBlock(ld, [line] + more) ==
            if ReadLeaf(ld, line.text).None? then None else Some((ReadLeaf(ld, line.text).value, more))
  {
    hide ReadLeaf, KeyEnd, IsDash;
    assert ([line] + more)[1..] == more;
  }

  /** The first line of a block begins with a dash or with a key. */
  lemma FirstTextOf(sp: Spelling, ld: Loader, v: Json, m: nat)
    requires Fine(sp, v) && !IsLeaf(v)
    ensures var t := BlockLines(sp, v, m)[0].text;
            t != "" && t[0] != ' ' && (v.Arr? ==> IsDash(t)) && (v.Obj? ==> !IsDash(t) && KeyEnd(t).Some?)
  {
    hide Leaf, KeyEnd, Fine, Sorted, HasBreak;
    FineInside(sp, v);
    SpellingToo(sp, v);
    if v.Obj? {
      SortedKeys(v);
      FirstEntryText(sp, ld, v, Sorted(KEY_ORDER, v.members.Keys), m);
    } else {
      OneItemText(sp, v.items[0], m);
    }
  }

  lemma OneItemText(sp: Spelling, v: Json, m: nat)
    ensures var t := OneItem(sp, v, m)[0].text; t != "" && t[0] == '-' && IsDash(t)
  {
    hide Leaf, BlockLines;
    var t := OneItem(sp, v, m)[0].text;
    assert t[0] == '-' && t[1] == ' ';
  }

  lemma FirstEntryText(sp: Spelling, ld: Loader, v: Json, keys: seq<string>, m: nat)
    requires Fine(sp, v) && v.Obj? && keys != [] && forall k :: k in keys ==> k in v.members
    ensures var t := EntryLines(sp, v, keys, m)[0].text; t != "" && t[0] != ' ' && !IsDash(t) && KeyEnd(t).Some?
  {
    hide Leaf, KeyEnd, IsDash, Fine, HasBreak, ReadLeaf, ReadValue, OneEntry, Seen;
    FineInside(sp, v);
    SpellingToo(sp, v);
    OneEntryText(sp, ld, keys[0], v.members[keys[0]], m);
  }

  lemma OneEntryText(sp: Spelling, ld: Loader, k: string, value: Json, m: nat)
    requires Fine(sp, value) && !HasBreak(k)
    ensures var t := OneEntry(sp, k, value, m)[0].text; t != "" && t[0] != ' ' && !IsDash(t) && KeyEnd(t).Some?
  {
    hide Leaf, KeyEnd, IsDash, Fine, HasBreak, ReadLeaf, Cut, Seen;
    SpellingToo(sp, value);
    if IsLeaf(value) {
      LeafStands(sp, ld, value);
      EntryLineReads(sp, ld, k, " " + Leaf(sp, value, false));
    } else {
      EntryLineReads(sp, ld, k, "");
      assert Leaf(sp, Str(k), true) + ":" + "" == Leaf(sp, Str(k), true) + ":";
    }
  }

  lemma {:induction false} ItemsRead(sp: Spelling, ld: Loader, v: Json, from: nat, m: nat, rest: seq<Line>)
    requires Fine(sp, v) && v.Arr? && from <= |v.items| && Below(rest, m)
    ensures ReadItems(ld, ItemLines(sp, v, from, |v.items|, m) + rest, m) ==
            if SeenItems(sp, ld, v, from).Some? then Some((SeenItems(sp, ld, v, from).value, rest)) else None
    decreases v, 1, |v.items| - from
  {
    hide ReadItem, OneItem, Fine, Seen, IsDash;
    var lines := ItemLines(sp, v, from, |v.items|, m) + rest;
    if from == |v.items| {
      assert lines == rest;
    } else {
      var more := ItemLines(sp, v, from + 1, |v.items|, m) + rest;
      FineInside(sp, v);
      ItemReads(sp, ld, v.items[from], m, more);
      assert lines == OneItem(sp, v.items[from], m) + more;
      ItemsRead(sp, ld, v, from + 1, m, rest);
    }
  }

  /** The lines of a block are read as its value, up to the lines that are not its own. */
  lemma {:induction false} BlockReads(sp: Spelling, ld: Loader, v: Json, m: nat, rest: seq<Line>)
    requires Fine(sp, v) && !IsLeaf(v) && Below(rest, m)
    ensures ReadBlock(ld, BlockLines(sp, v, m) + rest) == SeenThen(sp, ld, v, rest)
    decreases v, 2, 0
  {
    hide ReadEntries, ReadItems, EntryLines, ItemLines, Fine, Sorted, KeyEnd, IsDash;
    FirstTextOf(sp, ld, v, m);
    var lines := BlockLines(sp, v, m) + rest;
    assert lines[0] == BlockLines(sp, v, m)[0];
    if v.Obj? {
      var keys := Sorted(KEY_ORDER, v.members.Keys);
      SortedKeys(v);
      EntriesRead(sp, ld, v, keys, m, rest);
    } else {
      ItemsRead(sp, ld, v, 0, m, rest);
    }
  }

  /** The reader gets from a document what it sees of its leaves and keys: the layout loses nothing. */
  lemma DocumentReads(sp: Spelling, ld: Loader, v: Json)
    requires GoodSpelling(sp) && SingleLine(v)
    ensures Parse(ld, Document(sp, v)) == Seen(sp, ld, v)
  {
    hide Leaf, Block, BlockLines, ReadBlock, ReadLeaf, Split, Leading, IsDash, KeyEnd, GoodSpelling,
         SingleLine, Seen;
    var text := if IsLeaf(v) then Leaf(sp, v, false) else Block(sp, v, 0);
    SplitBreak(text, "");
    EmptyIsOneLine();
    assert text + "\n" + "" == Document(sp, v);
    assert Split(Document(sp, v))[..|Split(text)|] == Split(text);
    assert Spaces(0) + text == text;
    if IsLeaf(v) {
      LeafReads(sp, ld, v);
      LeafStands(sp, ld, v);
      IndentedLine(0, text);
      LeafLineReads(ld, Line(0, text), []);
      assert [Line(0, text)] + [] == LinesOf(text);
    } else {
      BlockHasLines(sp, ld, v, 0);
      BlockReads(sp, ld, v, 0, []);
      assert BlockLines(sp, v, 0) + [] == LinesOf(text);
    }
  }
}
