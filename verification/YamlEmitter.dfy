/** The stateful YAML emitter writes what a plain recursive layout describes. */
module YamlEmitter {
  import opened Common
  import opened JsonValues
  import opened Ordering
  import opened YamlScalars

  /** What this project does not look into: which strings YAML would not read as strings, and how numbers are
      written. */
  datatype Spelling = Spelling(canUsePlain: string -> bool, number: real -> string)

  const KEY_ORDER: seq<string> := [
    "slug", "key", "value", "type", "title", "label", "description", "workflow", "initial",
    "settings", "public", "submitLabel", "confirmationMessage", "required", "placeholder", "help",
    "options", "validation", "minLength", "maxLength", "pattern", "min", "max",
    "showIf", "field", "equals", "notEquals", "in",
    "from", "to", "guard", "roles", "requireFields", "actions",
    "url", "subject", "body", "user", "role", "color", "terminal",
    "states", "fields", "onSubmit", "transitions"]

  const MAX_KEY := 128

  ghost predicate GoodSpelling(sp: Spelling) {
    !sp.canUsePlain("") && forall n :: sp.number(n) != "" && !HasBreak(sp.number(n))
  }

  /** No string of the tree holds a line break. */
  ghost predicate SingleLine(v: Json) {
    match v
    case Str(s) => !HasBreak(s)
    case Arr(items) => forall i :: 0 <= i < |items| ==> SingleLine(items[i])
    case Obj(members) => forall k :: k in members ==> !HasBreak(k) && SingleLine(members[k])
    case _ => true
  }

  /** Every key is short enough for a simple key. */
  ghost predicate KeysFit(v: Json) {
    match v
    case Arr(items) => forall i :: 0 <= i < |items| ==> KeysFit(items[i])
    case Obj(members) => forall k :: k in members ==> KeyFits(k) && KeysFit(members[k])
    case _ => true
  }

  predicate KeyFits(k: string) { |k| <= MAX_KEY }

  // ---- the layout, without any state ---------------------------------------------------------------------

  predicate IsLeaf(v: Json) {
    !(v.Arr? && v.items != []) && !(v.Obj? && v.members != map[])
  }

  function Words(sp: Spelling, v: Json): (string, Style)
    requires !v.Arr? && !v.Obj?
  {
    match v
    case Null => ("null", Plain)
    case Bool(b) => (if b then "true" else "false", Plain)
    case Num(n) => (sp.number(n), Plain)
    case Str(s) => (s, if sp.canUsePlain(s) then Plain else Double)
  }

  ghost function Styled(text: string, style: Style): string {
    match style
    case Plain => text
    case Single => "'" + SingleBody(text) + "'"
    case Double => DoubleQuoted(text)
    case Literal => text
  }

  /** A scalar or an empty collection, on its line. The merge key is tagged. */
  ghost function Leaf(sp: Spelling, v: Json, simpleKey: bool): string
    requires IsLeaf(v)
  {
    if v.Arr? then "[]" else if v.Obj? then "{}"
    else if v == Str("<<") then "!!merge <<"
    else var (text, requested) := Words(sp, v); Styled(text, SelectStyle(text, requested, simpleKey))
  }

  function Spaces(n: nat): (r: string)
    ensures |r| == n
  {
    seq(n, i requires 0 <= i < n => ' ')
  }

  function NewLine(indent: nat): string {
    "\n" + Spaces(indent)
  }

  /** What follows a key's colon in a mapping at the given indentation. */
  ghost function Value(sp: Spelling, v: Json, indent: nat): string
    decreases v, 2, 0
  {
    if IsLeaf(v) then " " + Leaf(sp, v, false) else NewLine(indent + 2) + Block(sp, v, indent + 2)
  }

  /** What follows the dash of a list at the given indentation. */
  ghost function Item(sp: Spelling, v: Json, indent: nat): string
    decreases v, 2, 0
  {
    " " + if IsLeaf(v) then Leaf(sp, v, false) else Block(sp, v, indent + 2)
  }

  /** A nonempty mapping or list whose first line starts at the given indentation. */
  ghost function Block(sp: Spelling, v: Json, indent: nat): string
    requires !IsLeaf(v)
    decreases v, 1, 0
  {
    if v.Obj? then Entries(sp, v, Sorted(KEY_ORDER, v.members.Keys), indent) else Items(sp, v, |v.items|, indent)
  }

  ghost function Entries(sp: Spelling, v: Json, keys: seq<string>, indent: nat): string
    requires v.Obj? && forall k :: k in keys ==> k in v.members
    decreases v, 0, |keys|
  {
    if keys == [] then ""
    else
      var front, k := keys[..|keys| - 1], keys[|keys| - 1];
      Entries(sp, v, front, indent) + (if front == [] then "" else NewLine(indent)) +
      (Leaf(sp, Str(k), true) + ":" + Value(sp, v.members[k], indent))
  }

  ghost function Items(sp: Spelling, v: Json, n: nat, indent: nat): string
    requires v.Arr? && n <= |v.items|
    decreases v, 0, n
  {
    if n == 0 then ""
    else
      Items(sp, v, n - 1, indent) + (if n == 1 then "" else NewLine(indent)) + ("-" + Item(sp, v.items[n - 1], indent))
  }

  /** The whole document. */
  ghost function Document(sp: Spelling, v: Json): string {
    (if IsLeaf(v) then Leaf(sp, v, false) else Block(sp, v, 0)) + "\n"
  }

  // ---- the emitter --------------------------------------------------------------------------------------------

  /** Where a node stands. */
  datatype Place = Root | InValue | InItem | InKey

  /** The text of a node, which depends on where it stands. `indent` is that of the enclosing block, -1 at the root. */
  ghost function Text(sp: Spelling, v: Json, place: Place, indent: int): string
    requires -1 <= indent && (place.Root? <==> indent == -1) && (place.InKey? ==> IsLeaf(v))
  {
    match place
    case Root => if IsLeaf(v) then Leaf(sp, v, false) else Block(sp, v, 0)
    case InValue => Value(sp, v, indent)
    case InItem => Item(sp, v, indent)
    case InKey => Leaf(sp, v, true)
  }

  function NextIndent(indent: int, flow: bool, inItem: bool): int
    requires -1 <= indent
  {
    if indent < 0 then (if flow then 2 else 0) else if inItem then indent + 2 else 2 * ((indent + 2) / 2)
  }

  /** All indentations are even, so each level adds two, in a mapping as in a list. */
  lemma LevelsAddTwo(indent: int, inItem: bool)
    requires indent == -1 || (0 <= indent && indent % 2 == 0)
    ensures NextIndent(indent, false, inItem) == if indent == -1 then 0 else indent + 2
    ensures NextIndent(indent, false, inItem) % 2 == 0
  {
  }

  class Emitter {
    var out: string
    var column: nat
    var whitespace: bool
    var indention: bool
    var indent: int
    var indents: seq<int>

    constructor ()
      ensures out == "" && column == 0 && whitespace && indention && indent == -1 && indents == []
    {
      out, column, whitespace, indention := "", 0, true, true;
      indent, indents := -1, [];
    }

    method Put(s: string)
      modifies `out, `column
      ensures out == old(out) + s && column == old(column) + |s|
    {
      out := out + s;
      column := column + |s|;
    }

    method PutBreak()
      modifies `out, `column, `indention
      ensures out == old(out) + "\n" && column == 0 && indention
    {
      out := out + "\n";
      column := 0;
      indention := true;
    }

    /** Moves to the indentation, on a new line unless this one holds nothing but indentation so far. */
    method WriteIndent()
      modifies `out, `column, `indention, `whitespace
      ensures var n := if indent < 0 then 0 else indent;
              var fits := old(indention) && (old(column) < n || (old(column) == n && old(whitespace)));
              out == (if fits then old(out) + Spaces(n - old(column)) else old(out) + NewLine(n)) &&
              column == n && indention && whitespace
    {
      var n := if indent < 0 then 0 else indent;
      if !indention || column > n || (column == n && !whitespace) {
        PutBreak();
      }
      if column < n {
        Put(Spaces(n - column));
      }
      whitespace := true;
    }

    method Indicator(s: string, needSpace: bool, isSpace: bool, isIndention: bool)
      modifies `out, `column, `indention, `whitespace
      ensures out == old(out) + (if needSpace && !old(whitespace) then " " else "") + s
      ensures column == old(column) + (if needSpace && !old(whitespace) then 1 else 0) + |s|
      ensures whitespace == isSpace && indention == (old(indention) && isIndention)
    {
      if needSpace && !whitespace {
        Put(" ");
      }
      Put(s);
      whitespace := isSpace;
      indention := indention && isIndention;
    }

    method IncreaseIndent(flow: bool, inItem: bool)
      requires -1 <= indent
      modifies `indent, `indents
      ensures indents == old(indents) + [old(indent)]
      ensures indent == NextIndent(old(indent), flow, inItem)
    {
      indents := indents + [indent];
      if indent < 0 {
        indent := if flow then 2 else 0;
      } else if inItem {
        indent := indent + 2;
      } else {
        indent := 2 * ((indent + 2) / 2);
      }
    }

    method PopIndent()
      requires indents != []
      modifies `indent, `indents
      ensures indent == old(indents)[|old(indents)| - 1] && indents == old(indents)[..|old(indents)| - 1]
    {
      indent := indents[|indents| - 1];
      indents := indents[..|indents| - 1];
    }

    method WritePlain(text: string)
      requires text != ""
      modifies `out, `column, `indention, `whitespace
      ensures out == old(out) + (if old(whitespace) then "" else " ") + text && !whitespace && !indention
    {
      if text != "" && !whitespace {
        Put(" ");
      }
      Put(text);
      if text != "" {
        whitespace := false;
      }
      indention := false;
    }

    method WriteSingle(text: string)
      modifies `out, `column, `indention, `whitespace
      ensures out == old(out) + (if old(whitespace) then "" else " ") + ("'" + SingleBody(text) + "'")
      ensures !whitespace && !indention
    {
      hide SingleBody;
      Indicator("'", true, false, false);
      SingleQuotedBody(text);
      Indicator("'", false, false, false);
      whitespace, indention := false, false;
    }

    method WriteDouble(text: string)
      modifies `out, `column, `indention, `whitespace
      ensures out == old(out) + (if old(whitespace) then "" else " ") + DoubleQuoted(text) && !whitespace && !indention
    {
      hide Body;
      Indicator("\"", true, false, false);
      var body := DoubleQuotedBody(text);
      Put(body);
      Indicator("\"", false, false, false);
      whitespace, indention := false, false;
    }

    /** Writes the text in its style, and leaves neither whitespace nor indentation behind it. */
    method WriteStyled(text: string, style: Style)
      requires !style.Literal? && (style.Plain? ==> text != "")
      modifies `out, `column, `indention, `whitespace
      ensures out == old(out) + (if old(whitespace) then "" else " ") + Styled(text, style) && !whitespace && !indention
    {
      hide DoubleQuoted, SingleBody;
      match style
      case Plain => WritePlain(text);
      case Single => WriteSingle(text);
      case Double => WriteDouble(text);
    }

    method SingleQuotedBody(s: string)
      modifies `out, `column, `indention
      ensures out == old(out) + SingleBody(s)
    {
      for i := 0 to |s|
        invariant out + SingleBody(s[i..]) == old(out) + SingleBody(s)
      {
        var piece := if s[i] == '\'' then "''" else [s[i]];
        assert s[i..][0] == s[i] && s[i..][1..] == s[i + 1..];
        assert out + (piece + SingleBody(s[i + 1..])) == (out + piece) + SingleBody(s[i + 1..]);
        Put(piece);
        if s[i] != ' ' {
          indention := false;
        }
      }
    }

    /** ok is false where the source raises: a key too long for a simple key. */
    method Scalar(sp: Spelling, v: Json, inItem: bool, simpleKey: bool) returns (ok: bool)
      requires GoodSpelling(sp) && SingleLine(v) && !v.Arr? && !v.Obj? && (simpleKey ==> v.Str?) && -1 <= indent
      modifies this
      ensures ok <==> (simpleKey ==> KeyFits(v.s))
      ensures ok ==> out == old(out) + (if old(whitespace) then "" else " ") + Leaf(sp, v, simpleKey)
      ensures ok ==> !whitespace && !indention
      ensures ok ==> indent == old(indent) && indents == old(indents)
    {
      hide Analyze, HasBreak, Styled;
      if v == Str("<<") {
        IncreaseIndent(true, inItem);
        Indicator("!!merge", true, false, false);
        Put(" <<");
        whitespace, indention := false, false;
        PopIndent();
        assert "!!merge" + " <<" == "!!merge <<";
        return true;
      }
      var (text, requested) := Words(sp, v);
      var style := ChooseStyle(text, requested, simpleKey);
      if simpleKey && |text| > MAX_KEY {
        return false;
      }
      WordsAreWritable(sp, v, simpleKey);
      IncreaseIndent(true, inItem);
      WriteStyled(text, style);
      PopIndent();
      return true;
    }

    ghost predicate Ready(v: Json, place: Place)
      reads this
    {
      ReadyAt(v, place, column, whitespace, indention, indent)
    }

    /** A pair of brackets. */
    method Empty(opening: string, closing: string)
      modifies `out, `column, `indention, `whitespace
      ensures out == old(out) + (if old(whitespace) then "" else " ") + (opening + closing) && !whitespace && !indention
    {
      Indicator(opening, true, true, false);
      Indicator(closing, false, false, false);
      assert out == old(out) + (if old(whitespace) then "" else " ") + (opening + closing);
    }

    /** A scalar or an empty collection. */
    method WriteLeaf(sp: Spelling, v: Json, inItem: bool, simpleKey: bool) returns (ok: bool)
      requires GoodSpelling(sp) && SingleLine(v) && IsLeaf(v) && (simpleKey ==> v.Str?) && -1 <= indent
      modifies this
      ensures ok <==> (simpleKey ==> KeyFits(v.s))
      ensures ok ==> out == old(out) + (if old(whitespace) then "" else " ") + Leaf(sp, v, simpleKey)
      ensures ok ==> !whitespace && !indention
      ensures ok ==> indent == old(indent) && indents == old(indents)
    {
      hide SingleLine, GoodSpelling, SelectStyle, Styled, Words, KeyFits;
      ok := true;
      if v.Obj? {
        Empty("{", "}");
      } else if v.Arr? {
        Empty("[", "]");
      } else {
        ok := Scalar(sp, v, inItem, simpleKey);
      }
    }

    method Node(sp: Spelling, v: Json, inItem: bool, simpleKey: bool, ghost place: Place) returns (ok: bool)
      requires GoodSpelling(sp) && SingleLine(v) && (inItem <==> place.InItem?) && (simpleKey <==> place.InKey?) &&
               Ready(v, place)
      modifies this
      ensures ok <==> KeysFit(v) && (simpleKey ==> KeyFits(v.s))
      ensures ok ==> out == old(out) + Text(sp, v, place, old(indent)) && !whitespace && !indention
      ensures ok ==> indent == old(indent) && indents == old(indents)
      decreases !simpleKey, v, 3
    {
      hide Block, SingleLine, Leaf, GoodSpelling, KeysFit, KeyFits, Text;
      if IsLeaf(v) {
        LeafText(sp, v, place, indent);
        ok := WriteLeaf(sp, v, inItem, simpleKey);
      } else if v.Obj? {
        ok := Mapping(sp, v, inItem, place);
      } else {
        ok := Sequence(sp, v, inItem, place);
      }
    }

    /** One key with its value, from the indentation on. */
    method Entry(sp: Spelling, v: Json, k: string) returns (ok: bool)
      requires GoodSpelling(sp) && v.Obj? && k in v.members && SingleLine(v)
      requires whitespace && 0 <= indent && indent % 2 == 0
      modifies this
      ensures ok <==> KeyFits(k) && KeysFit(v.members[k])
      ensures ok ==> out == old(out) + Leaf(sp, Str(k), true) + ":" + Value(sp, v.members[k], old(indent))
      ensures ok ==> !whitespace && !indention
      ensures ok ==> indent == old(indent) && indents == old(indents)
      decreases true, v, 0
    {
      hide Leaf, Value, HasBreak, KeyFits;
      ok := Node(sp, Str(k), false, true, InKey);
      if ok {
        Indicator(":", false, false, false);
        ok := Node(sp, v.members[k], false, false, InValue);
      }
    }

    /** The entries of a mapping, once the indentation has been increased to m. */
    method WriteEntries(sp: Spelling, v: Json, keys: seq<string>, ghost place: Place, ghost outer: int, ghost m: nat)
      returns (ok: bool)
      requires GoodSpelling(sp) && v.Obj? && SingleLine(v) && keys != [] &&
               (forall i :: 0 <= i < |keys| ==> keys[i] in v.members)
      requires !place.InKey? && -1 <= outer && ReadyAt(v, place, column, whitespace, indention, outer)
      requires indent == m == (if place.Root? then 0 else outer + 2) && m % 2 == 0
      modifies this
      ensures ok <==> forall i :: 0 <= i < |keys| ==> KeyFits(keys[i]) && KeysFit(v.members[keys[i]])
      ensures ok ==> out == old(out) + Opening(place, outer) + Entries(sp, v, keys, m) && !whitespace && !indention
      ensures ok ==> indent == m && indents == old(indents)
      decreases true, v, 1
    {
      hide ReadyAt, Leaf, Value, NewLine, Spaces, KeyFits, KeysFit, Entries, SingleLine, Opening, GoodSpelling;
      ghost var before := old(out) + Opening(place, outer);
      for i := 0 to |keys|
        invariant indent == m && indents == old(indents)
        invariant if i == 0 then
                    out == old(out) && column == old(column) && whitespace == old(whitespace) &&
                    indention == old(indention)
                  else out == before + Entries(sp, v, keys[..i], m) && !whitespace && !indention
        invariant forall j :: 0 <= j < i ==> KeyFits(keys[j]) && KeysFit(v.members[keys[j]])
      {
        if i == 0 { FirstLine(v, place, column, whitespace, indention, outer, m); }
        WriteIndent();
        ghost var line := out;
        assert line == if i == 0 then before else before + Entries(sp, v, keys[..i], m) + NewLine(m);
        var fits := Entry(sp, v, keys[i]);
        if !fits {
          return false;
        }
        EntryAdded(sp, v, keys, i, m, before, line);
      }
      assert keys[..|keys|] == keys;
      ok := true;
    }

    method Mapping(sp: Spelling, v: Json, inItem: bool, ghost place: Place) returns (ok: bool)
      requires GoodSpelling(sp) && v.Obj? && v.members != map[] && SingleLine(v)
      requires (inItem <==> place.InItem?) && !place.InKey? && Ready(v, place)
      modifies this
      ensures ok <==> KeysFit(v)
      ensures ok ==> out == old(out) + Text(sp, v, place, old(indent)) && !whitespace && !indention
      ensures ok ==> indent == old(indent) && indents == old(indents)
      decreases true, v, 2
    {
      hide NextIndent, KeysFit, Entries, Block, Text, SingleLine, Opening, GoodSpelling, Sorted;
      LevelsAddTwo(indent, inItem);
      IncreaseIndent(false, inItem);
      BlockText(sp, v, place, old(indent), indent);
      var keys := SortKeys(KEY_ORDER, v.members.Keys);
      ok := WriteEntries(sp, v, keys, place, old(indent), indent);
      KeysFitIff(v, keys);
      if ok {
        PopIndent();
        assert out == old(out) +
               (Opening(place, old(indent)) + Entries(sp, v, keys, if place.Root? then 0 else old(indent) + 2));
      }
    }

    /** One item, from the indentation on. */
    method SequenceItem(sp: Spelling, v: Json, i: nat) returns (ok: bool)
      requires GoodSpelling(sp) && v.Arr? && i < |v.items| && SingleLine(v)
      requires whitespace && indention && 0 <= indent && indent % 2 == 0 && column == indent
      modifies this
      ensures ok <==> KeysFit(v.items[i])
      ensures ok ==> out == old(out) + "-" + Item(sp, v.items[i], old(indent)) && !whitespace && !indention
      ensures ok ==> indent == old(indent) && indents == old(indents)
      decreases true, v, 0
    {
      hide Item, HasBreak;
      Indicator("-", true, false, true);
      ok := Node(sp, v.items[i], true, false, InItem);
    }

    method Sequence(sp: Spelling, v: Json, inItem: bool, ghost place: Place) returns (ok: bool)
      requires GoodSpelling(sp) && v.Arr? && v.items != [] && SingleLine(v)
      requires (inItem <==> place.InItem?) && !place.InKey? && Ready(v, place)
      modifies this
      ensures ok <==> KeysFit(v)
      ensures ok ==> out == old(out) + Text(sp, v, place, old(indent)) && !whitespace && !indention
      ensures ok ==> indent == old(indent) && indents == old(indents)
      decreases true, v, 1
    {
      hide NextIndent, Item, NewLine, Spaces, Items, Block, Text, SingleLine, Opening, GoodSpelling;
      ghost var before := old(out) + Opening(place, indent);
      LevelsAddTwo(indent, inItem);
      IncreaseIndent(false, inItem);
      ghost var m: nat := indent;
      BlockText(sp, v, place, old(indent), m);
      for i := 0 to |v.items|
        invariant indent == m && indents == old(indents) + [old(indent)]
        invariant if i == 0 then
                    out == old(out) && column == old(column) && whitespace == old(whitespace) &&
                    indention == old(indention)
                  else out == before + Items(sp, v, i, m) && !whitespace && !indention
        invariant forall j :: 0 <= j < i ==> KeysFit(v.items[j])
      {
        if i == 0 { FirstLine(v, place, column, whitespace, indention, old(indent), m); }
        WriteIndent();
        ghost var line := out;
        assert line == if i == 0 then before else before + Items(sp, v, i, m) + NewLine(m);
        var fits := SequenceItem(sp, v, i);
        if !fits {
          return false;
        }
        ItemAdded(sp, v, i, m, before, line);
      }
      PopIndent();
      ok := true;
    }
  }

  /** Outside a block a leaf is preceded by a space, except after indentation. */
  lemma LeafText(sp: Spelling, v: Json, place: Place, indent: int)
    requires IsLeaf(v) && -1 <= indent && (place.Root? <==> indent == -1)
    ensures Text(sp, v, place, indent) == (if place.Root? || place.InKey? then "" else " ") + Leaf(sp, v, place.InKey?)
    ensures KeysFit(v)
  {
    hide Leaf;
    assert "" + Leaf(sp, v, place.InKey?) == Leaf(sp, v, place.InKey?);
  }

  lemma KeysFitIff(v: Json, keys: seq<string>)
    requires v.Obj? && forall k :: k in keys <==> k in v.members
    ensures KeysFit(v) <==> forall i :: 0 <= i < |keys| ==> KeyFits(keys[i]) && KeysFit(v.members[keys[i]])
  {
    hide KeyFits;
    if forall i :: 0 <= i < |keys| ==> KeyFits(keys[i]) && KeysFit(v.members[keys[i]]) {
      forall k | k in v.members ensures KeyFits(k) && KeysFit(v.members[k]) {
        var j :| 0 <= j < |keys| && keys[j] == k;
      }
    }
  }

  /** The state in which a node is written, by its place. */
  predicate ReadyAt(v: Json, place: Place, column: nat, whitespace: bool, indention: bool, indent: int) {
    match place
    case Root => column == 0 && whitespace && indention && indent == -1
    case InValue => !whitespace && !indention && 0 <= indent && indent % 2 == 0
    case InItem => !whitespace && indention && 0 <= indent && indent % 2 == 0 && column == indent + 1
    case InKey => whitespace && 0 <= indent && v.Str?
  }

  /** What the first line of a block needs in front of it. */
  function Opening(place: Place, indent: int): string
    requires -1 <= indent
  {
    match place
    case Root => ""
    case InValue => NewLine(indent + 2)
    case InItem => " "
    case InKey => ""
  }

  lemma WordsAreWritable(sp: Spelling, v: Json, simpleKey: bool)
    requires GoodSpelling(sp) && SingleLine(v) && !v.Arr? && !v.Obj?
    ensures var (text, requested) := Words(sp, v); var style := SelectStyle(text, requested, simpleKey);
            !style.Literal? && (style.Plain? ==> text != "")
  {
    hide Analyze, HasBreak;
  }

  /** Moving to the indentation for the first time writes exactly the opening. */
  lemma FirstLine(v: Json, place: Place, column: nat, whitespace: bool, indention: bool, indent: int, m: nat)
    requires ReadyAt(v, place, column, whitespace, indention, indent) && !place.InKey?
    requires m == if place.Root? then 0 else indent + 2
    ensures var fits := indention && (column < m || (column == m && whitespace));
            if fits then column <= m && Spaces(m - column) == Opening(place, indent)
            else NewLine(m) == Opening(place, indent)
  {
  }

  /** The text of a block is its opening and its entries or items. */
  lemma BlockText(sp: Spelling, v: Json, place: Place, indent: int, m: nat)
    requires !IsLeaf(v) && !place.InKey? && -1 <= indent && (place.Root? <==> indent == -1)
    requires m == if place.Root? then 0 else indent + 2
    ensures Text(sp, v, place, indent) ==
            Opening(place, indent) +
            if v.Obj? then Entries(sp, v, Sorted(KEY_ORDER, v.members.Keys), m) else Items(sp, v, |v.items|, m)
  {
    hide Entries, Items, NewLine;
    var block := Block(sp, v, m);
    assert "" + block == block;
  }

  lemma EntryAdded(sp: Spelling, v: Json, keys: seq<string>, i: nat, m: nat, before: string, line: string)
    requires v.Obj? && i < |keys| && forall k :: k in keys ==> k in v.members
    requires line == if i == 0 then before else before + Entries(sp, v, keys[..i], m) + NewLine(m)
    ensures line + Leaf(sp, Str(keys[i]), true) + ":" + Value(sp, v.members[keys[i]], m) ==
            before + Entries(sp, v, keys[..i + 1], m)
  {
    hide Leaf, Value, NewLine;
    var front := keys[..i];
    assert keys[..i + 1][..i] == front;
    var entry := Leaf(sp, Str(keys[i]), true) + ":" + Value(sp, v.members[keys[i]], m);
    assert line + Leaf(sp, Str(keys[i]), true) + ":" + Value(sp, v.members[keys[i]], m) == line + entry;
  }

  lemma ItemAdded(sp: Spelling, v: Json, i: nat, m: nat, before: string, line: string)
    requires v.Arr? && i < |v.items|
    requires line == if i == 0 then before else before + Items(sp, v, i, m) + NewLine(m)
    ensures line + "-" + Item(sp, v.items[i], m) == before + Items(sp, v, i + 1, m)
  {
    hide Item, NewLine;
    assert line + "-" + Item(sp, v.items[i], m) == line + ("-" + Item(sp, v.items[i], m));
  }

  lemma NoSpaces()
    ensures NewLine(0) == "\n"
  {
  }

  /** The whole document, or a failure if a key is too long. The indentation stack ends as it began. */
  method CanonicalYaml(sp: Spelling, tree: Json) returns (r: Option<string>)
    requires GoodSpelling(sp) && SingleLine(tree)
    ensures r == if KeysFit(tree) then Some(Document(sp, tree)) else None
  {
    hide Block, Leaf, KeysFit, SingleLine;
    var e := new Emitter();
    var ok := e.Node(sp, tree, false, false, Root);
    if !ok {
      return None;
    }
    assert e.indents == [] && e.indent == -1;
    e.WriteIndent();
    NoSpaces();
    assert "" + Text(sp, tree, Root, -1) == Text(sp, tree, Root, -1);
    return Some(e.out);
  }
}
