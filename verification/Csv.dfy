/** The CSV export's quoting and a reader after RFC 4180 (with line feeds as line ends). */
module Csv {
  import opened Common

  // ---- the writer --------------------------------------------------------------------------------

  predicate IsSpecial(c: char) {
    c == ',' || c == '\"' || c == '\r' || c == '\n'
  }

  const LEADING := [' ', '\t', '\n', '\U{0B}', '\U{0C}', '\r', '\U{85}', '\U{A0}']

  predicate NeedsQuotes(s: string) {
    s == "\\." || (exists i :: 0 <= i < |s| && IsSpecial(s[i])) || (s != "" && s[0] in LEADING)
  }

  /** Every double quote doubled. */
  function Doubled(s: string): string {
    if s == "" then "" else (if s[0] == '\"' then "\"\"" else [s[0]]) + Doubled(s[1..])
  }

  function CsvField(s: string): string {
    if NeedsQuotes(s) then "\"" + Doubled(s) + "\"" else s
  }

  function Fields(record: seq<string>): string
    requires record != []
  {
    CsvField(record[0]) + if |record| == 1 then "" else "," + Fields(record[1..])
  }

  function CsvLine(record: seq<string>): string
    requires record != []
  {
    Fields(record) + "\n"
  }

  function Lines(records: seq<seq<string>>): string
    requires forall i :: 0 <= i < |records| ==> records[i] != []
  {
    if records == [] then "" else CsvLine(records[0]) + Lines(records[1..])
  }

  // ---- the reader -----------------------------------------------------------------------------------

  /** An unquoted field: characters other than quotes, up to a comma or a line feed. */
  function ReadPlain(text: string): Option<(string, string)> {
    if text == "" then None
    else if text[0] == ',' || text[0] == '\n' then Some(("", text))
    else if text[0] == '\"' then None
    else match ReadPlain(text[1..])
      case None => None
      case Some((s, rest)) => Some(([text[0]] + s, rest))
  }

  /** The rest of a quoted field after its opening quote: anything, with quotes doubled, up to a single quote. */
  function ReadQuoted(text: string): Option<(string, string)> {
    if text == "" then None
    else if text[0] != '\"' then
      match ReadQuoted(text[1..])
      case None => None
      case Some((s, rest)) => Some(([text[0]] + s, rest))
    else if |text| >= 2 && text[1] == '\"' then
      match ReadQuoted(text[2..])
      case None => None
      case Some((s, rest)) => Some((['\"'] + s, rest))
    else Some(("", text[1..]))
  }

  function ReadField(text: string): Option<(string, string)> {
    if text != "" && text[0] == '\"' then ReadQuoted(text[1..]) else ReadPlain(text)
  }

  /** One record and the text after its line feed. */
  function ReadRecord(text: string): Option<(seq<string>, string)>
    decreases |text|
  {
    match ReadField(text)
    case None => None
    case Some((s, rest)) =>
      if rest == "" || |rest| > |text| then None
      else if rest[0] == '\n' then Some(([s], rest[1..]))
      else if rest[0] != ',' || |rest| - 1 >= |text| then None
      else match ReadRecord(rest[1..])
        case None => None
        case Some((more, after)) => Some(([s] + more, after))
  }

  function Read(text: string): Option<seq<seq<string>>>
    decreases |text|
  {
    if text == "" then Some([])
    else match ReadRecord(text)
      case None => None
      case Some((record, rest)) =>
        if |rest| >= |text| then None
        else match Read(rest)
          case None => None
          case Some(more) => Some([record] + more)
  }

  // ---- what the reader gets back ----------------------------------------------------------------------

  /** The text after a field starts with the separator. */
  ghost predicate Separated(after: string) {
    after != "" && (after[0] == ',' || after[0] == '\n')
  }

  lemma {:induction false} QuotedRoundTrip(s: string, after: string)
    requires Separated(after)
    ensures ReadQuoted(Doubled(s) + "\"" + after) == Some((s, after))
  {
    var text := Doubled(s) + "\"" + after;
    if s == "" {
      assert text == "\"" + after && text[1..] == after;
    } else {
      QuotedRoundTrip(s[1..], after);
      var tail := Doubled(s[1..]) + "\"" + after;
      if s[0] == '\"' {
        assert text == "\"\"" + tail && text[2..] == tail;
      } else {
        assert text == [s[0]] + tail && text[1..] == tail;
      }
      assert [s[0]] + s[1..] == s;
    }
  }

  lemma {:induction false} PlainRoundTrip(s: string, after: string)
    requires Separated(after) && forall i :: 0 <= i < |s| ==> !IsSpecial(s[i])
    ensures ReadPlain(s + after) == Some((s, after))
  {
    if s == "" {
      assert s + after == after;
    } else {
      PlainRoundTrip(s[1..], after);
      assert (s + after)[1..] == s[1..] + after && [s[0]] + s[1..] == s;
    }
  }

  lemma FieldRoundTrip(s: string, after: string)
    requires Separated(after)
    ensures ReadField(CsvField(s) + after) == Some((s, after))
  {
    hide ReadQuoted, ReadPlain, Doubled;
    if NeedsQuotes(s) {
      QuotedRoundTrip(s, after);
      assert (CsvField(s) + after)[1..] == Doubled(s) + "\"" + after;
    } else {
      PlainRoundTrip(s, after);
      assert s != "" ==> !IsSpecial(s[0]);
    }
  }

  lemma {:induction false} RecordRoundTrip(record: seq<string>, after: string)
    requires record != []
    ensures ReadRecord(CsvLine(record) + after) == Some((record, after))
    decreases |record|
  {
    hide ReadField, CsvField;
    var text := CsvLine(record) + after;
    if |record| == 1 {
      FieldRoundTrip(record[0], "\n" + after);
      assert text == CsvField(record[0]) + ("\n" + after) && ("\n" + after)[1..] == after;
      assert [record[0]] == record;
    } else {
      RecordRoundTrip(record[1..], after);
      var tail := "," + (CsvLine(record[1..]) + after);
      FieldRoundTrip(record[0], tail);
      assert text == CsvField(record[0]) + tail && tail[1..] == CsvLine(record[1..]) + after;
      assert [record[0]] + record[1..] == record;
    }
  }

  /** A field is left as it is exactly if it is not the end mark of a database dump, holds no comma, quote or line end,
      and begins with no whitespace; any other is put into quotes. */
  lemma LeftAsItIs(s: string)
    ensures CsvField(s) == s <==>
            s != "\\." && (forall i :: 0 <= i < |s| ==> s[i] != ',' && s[i] != '\"' && s[i] != '\r' && s[i] != '\n') &&
            (s == "" || s[0] !in " \t\U{0B}\U{0C}\U{85}\U{A0}")
    ensures CsvField(s) != s ==> |CsvField(s)| >= |s| + 2 && CsvField(s)[0] == '\"' == CsvField(s)[|CsvField(s)| - 1]
  {
    DoubledIsNoShorter(s);
  }

  lemma {:induction false} DoubledIsNoShorter(s: string)
    ensures |Doubled(s)| >= |s|
  {
    if s != "" { DoubledIsNoShorter(s[1..]); }
  }

  /** A reader recovers exactly the records of any export, whatever characters their fields hold. */
  lemma {:induction false} RoundTrip(records: seq<seq<string>>)
    requires forall i :: 0 <= i < |records| ==> records[i] != []
    ensures Read(Lines(records)) == Some(records)
    decreases |records|
  {
    hide ReadRecord, CsvLine;
    if records != [] {
      RecordRoundTrip(records[0], Lines(records[1..]));
      LineIsNonEmpty(records[0]);
      RoundTrip(records[1..]);
      assert [records[0]] + records[1..] == records;
    }
  }

  lemma LineIsNonEmpty(record: seq<string>)
    requires record != []
    ensures |CsvLine(record)| >= 1
  {
  }
}
