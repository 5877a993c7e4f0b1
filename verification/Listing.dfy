/** Listing submissions page by page: following the cursors visits every matching row once, newest first. */
module Listing {
  import opened Common
  import opened Cursor

  datatype Row = Row(id: nat, createdAt: Time, form: string, state: string, assignee: Option<nat>)

  datatype Filter = Filter(form: string, state: string, assignee: Option<nat>, unassigned: bool)

  datatype ListError = InvalidCursor

  /** The instant as one number; on valid times the order is chronological. */
  function Stamp(t: Time): int {
    (((((t.year * 100 + t.month) * 100 + t.day) * 100 + t.hour) * 100 + t.minute) * 100 + t.second) * 1000000 + t.micro
  }

  /** Row comparison of (created_at, id). */
  predicate Below(a: Position, b: Position) {
    Stamp(a.at) < Stamp(b.at) || (Stamp(a.at) == Stamp(b.at) && a.id < b.id)
  }

  function PositionOf(r: Row): Position {
    Position(r.createdAt, r.id)
  }

  predicate Matches(f: Filter, r: Row) {
    (f.form == "" || r.form == f.form) && (f.state == "" || r.state == f.state) &&
    (f.assignee.None? || r.assignee == f.assignee) && (!f.unassigned || r.assignee.None?)
  }

  predicate Selected(f: Filter, after: Option<Position>, r: Row) {
    Matches(f, r) && (after.None? || Below(PositionOf(r), after.value))
  }

  function Where(f: Filter, after: Option<Position>, rows: seq<Row>): seq<Row> {
    if rows == [] then []
    else (if Selected(f, after, rows[0]) then [rows[0]] else []) + Where(f, after, rows[1..])
  }

  function InsertDesc(r: Row, sorted: seq<Row>): seq<Row> {
    if sorted == [] || Below(PositionOf(sorted[0]), PositionOf(r)) then [r] + sorted
    else [sorted[0]] + InsertDesc(r, sorted[1..])
  }

  /** ORDER BY created_at DESC, id DESC */
  function OrderDesc(rows: seq<Row>): seq<Row> {
    if rows == [] then [] else InsertDesc(rows[0], OrderDesc(rows[1..]))
  }

  function Query(table: seq<Row>, f: Filter, after: Option<Position>): seq<Row> {
    OrderDesc(Where(f, after, table))
  }

  function Clamp(limit: int): (n: nat)
    ensures 0 < n <= 200
  {
    if limit <= 0 then 50 else if limit < 200 then limit else 200
  }

  /** Stored rows: ids are unique, times are times of this age. */
  ghost predicate ValidTable(table: seq<Row>) {
    (forall i, j :: 0 <= i < j < |table| ==> table[i].id != table[j].id) &&
    forall i :: 0 <= i < |table| ==> ValidPosition(PositionOf(table[i])) && HasLongYear(PositionOf(table[i]))
  }

  ghost predicate Descending(rows: seq<Row>) {
    forall i, j :: 0 <= i < j < |rows| ==> Below(PositionOf(rows[j]), PositionOf(rows[i]))
  }

  ghost function Elements(rows: seq<Row>): set<Row> {
    set i | 0 <= i < |rows| :: rows[i]
  }

  /** The newest rows after the cursor, and the cursor of the next page ("" on the last). */
  method ListSubmissions(table: seq<Row>, f: Filter, cursor: string, limit: int)
    returns (r: Result<(seq<Row>, string), ListError>)
    requires ValidTable(table)
    ensures cursor != "" && DecodeCursor(cursor).None? <==> r == Err(InvalidCursor)
    ensures r.Ok? ==> r.value == Page(table, f, cursor, limit)
  {
    var n := Clamp(limit);
    var after: Option<Position> := None;
    if cursor != "" {
      after := DecodeCursor(cursor);
      if after.None? {
        return Err(InvalidCursor);
      }
    }
    var items := Query(table, f, after);
    QueryElements(table, f, after);
    var next := "";
    if |items| > n {
      items := items[..n];
      assert items[n - 1] in Elements(Query(table, f, after));
      CursorRoundTrip(PositionOf(items[n - 1]));
      next := EncodeCursor(PositionOf(items[n - 1]));
    }
    return Ok((items, next));
  }

  ghost function After(cursor: string): Option<Position> {
    if cursor == "" then None else DecodeCursor(cursor)
  }

  ghost function Page(table: seq<Row>, f: Filter, cursor: string, limit: int): (seq<Row>, string)
    requires ValidTable(table)
  {
    var items, n := Query(table, f, After(cursor)), Clamp(limit);
    QueryElements(table, f, After(cursor));
    if |items| <= n then (items, "")
    else
      assert items[n - 1] in Elements(items);
      CursorRoundTrip(PositionOf(items[n - 1]));
      (items[..n], EncodeCursor(PositionOf(items[n - 1])))
  }

  // ---- sorting -----------------------------------------------------------------------------------

  lemma {:induction false} WhereElements(f: Filter, after: Option<Position>, rows: seq<Row>)
    ensures forall r :: r in Elements(Where(f, after, rows)) <==> r in Elements(rows) && Selected(f, after, r)
  {
    if rows != [] {
      WhereElements(f, after, rows[1..]);
      ElementsCons(rows);
      var w := Where(f, after, rows);
      if Selected(f, after, rows[0]) {
        ElementsCons(w);
        assert w[1..] == Where(f, after, rows[1..]);
      } else {
        assert w == Where(f, after, rows[1..]);
      }
    }
  }

  lemma ElementsCons(rows: seq<Row>)
    requires rows != []
    ensures Elements(rows) == {rows[0]} + Elements(rows[1..])
  {
    forall r | r in Elements(rows) ensures r in {rows[0]} + Elements(rows[1..]) {
      var i :| 0 <= i < |rows| && rows[i] == r;
      if i > 0 { assert rows[1..][i - 1] == r; }
    }
  }

  lemma {:induction false} InsertElements(r: Row, sorted: seq<Row>)
    ensures Elements(InsertDesc(r, sorted)) == {r} + Elements(sorted)
  {
    var t := InsertDesc(r, sorted);
    ElementsCons(t);
    if sorted == [] || Below(PositionOf(sorted[0]), PositionOf(r)) {
      assert t[1..] == sorted;
    } else {
      InsertElements(r, sorted[1..]);
      assert t[1..] == InsertDesc(r, sorted[1..]);
      ElementsCons(sorted);
    }
  }

  lemma {:induction false} OrderElements(rows: seq<Row>)
    ensures Elements(OrderDesc(rows)) == Elements(rows)
  {
    if rows != [] {
      OrderElements(rows[1..]);
      InsertElements(rows[0], OrderDesc(rows[1..]));
      ElementsCons(rows);
    }
  }

  lemma QueryElements(table: seq<Row>, f: Filter, after: Option<Position>)
    requires ValidTable(table)
    ensures forall r :: r in Elements(Query(table, f, after)) <==> r in Elements(table) && Selected(f, after, r)
    ensures forall r :: r in Elements(Query(table, f, after)) ==>
              ValidPosition(PositionOf(r)) && HasLongYear(PositionOf(r))
  {
    OrderElements(Where(f, after, table));
    WhereElements(f, after, table);
  }

  lemma {:induction false} InsertDescends(r: Row, sorted: seq<Row>)
    requires Descending(sorted) && forall i :: 0 <= i < |sorted| ==> sorted[i].id != r.id
    ensures Descending(InsertDesc(r, sorted))
  {
    if sorted != [] && !Below(PositionOf(sorted[0]), PositionOf(r)) {
      InsertDescends(r, sorted[1..]);
      InsertElements(r, sorted[1..]);
      var t := InsertDesc(r, sorted[1..]);
      forall j | 0 <= j < |t| ensures Below(PositionOf(t[j]), PositionOf(sorted[0])) {
        assert t[j] in Elements(t);
        if t[j] != r {
          var i :| 0 <= i < |sorted[1..]| && sorted[1..][i] == t[j];
          assert sorted[i + 1] == t[j];
        }
      }
      DescendingCons(sorted[0], t);
    } else if sorted != [] {
      forall j | 0 <= j < |sorted| ensures Below(PositionOf(sorted[j]), PositionOf(r)) {}
      DescendingCons(r, sorted);
    }
  }

  lemma DescendingCons(r: Row, rows: seq<Row>)
    requires Descending(rows) && forall j :: 0 <= j < |rows| ==> Below(PositionOf(rows[j]), PositionOf(r))
    ensures Descending([r] + rows)
  {
    var t := [r] + rows;
    forall i, j | 0 <= i < j < |t| ensures Below(PositionOf(t[j]), PositionOf(t[i])) {
      assert t[j] == rows[j - 1] && (i > 0 ==> t[i] == rows[i - 1]);
    }
  }

  ghost predicate UniqueIds(rows: seq<Row>) {
    forall i, j :: 0 <= i < j < |rows| ==> rows[i].id != rows[j].id
  }

  lemma {:induction false} WhereKeepsUnique(f: Filter, after: Option<Position>, rows: seq<Row>)
    requires UniqueIds(rows)
    ensures UniqueIds(Where(f, after, rows))
  {
    if rows != [] {
      WhereKeepsUnique(f, after, rows[1..]);
      WhereElements(f, after, rows[1..]);
      var w := Where(f, after, rows[1..]);
      forall j | 0 <= j < |w| ensures w[j].id != rows[0].id {
        assert w[j] in Elements(w);
        var i :| 0 <= i < |rows[1..]| && rows[1..][i] == w[j];
        assert rows[i + 1] == w[j];
      }
    }
  }

  lemma {:induction false} OrderDescends(rows: seq<Row>)
    requires UniqueIds(rows)
    ensures Descending(OrderDesc(rows))
  {
    if rows != [] {
      OrderDescends(rows[1..]);
      OrderElements(rows[1..]);
      var t := OrderDesc(rows[1..]);
      forall j | 0 <= j < |t| ensures t[j].id != rows[0].id {
        assert t[j] in Elements(t);
        var i :| 0 <= i < |rows[1..]| && rows[1..][i] == t[j];
        assert rows[i + 1] == t[j];
      }
      InsertDescends(rows[0], t);
    }
  }

  lemma QueryDescends(table: seq<Row>, f: Filter, after: Option<Position>)
    requires ValidTable(table)
    ensures Descending(Query(table, f, after))
  {
    WhereKeepsUnique(f, after, table);
    OrderDescends(Where(f, after, table));
  }

  /** A set of rows has one descending order. */
  lemma {:induction false} DescendingIsUnique(a: seq<Row>, b: seq<Row>)
    requires Descending(a) && Descending(b) && Elements(a) == Elements(b)
    ensures a == b
  {
    if a != [] && b != [] {
      ElementsCons(a);
      ElementsCons(b);
      var i :| 0 <= i < |b| && b[i] == a[0];
      var j :| 0 <= j < |a| && a[j] == b[0];
      assert i == 0;
      TailElements(a);
      TailElements(b);
      assert Descending(a[1..]) && Descending(b[1..]);
      DescendingIsUnique(a[1..], b[1..]);
      assert a == [a[0]] + a[1..] && b == [b[0]] + b[1..];
    } else {
      NoElements(a);
      NoElements(b);
    }
  }

  lemma NoElements(rows: seq<Row>)
    ensures rows == [] <==> Elements(rows) == {}
  {
    if rows != [] {
      assert rows[0] in Elements(rows);
    }
  }

  lemma TailElements(rows: seq<Row>)
    requires rows != [] && Descending(rows)
    ensures Elements(rows[1..]) == Elements(rows) - {rows[0]}
  {
    ElementsCons(rows);
    forall i | 0 <= i < |rows[1..]| ensures rows[1..][i] != rows[0] {
      assert rows[1..][i] == rows[i + 1];
    }
  }

  // ---- following the cursors ----------------------------------------------------------------------------

  /** The rows after the last row of a page are the rest of the sorted list. */
  lemma RestAfter(table: seq<Row>, f: Filter, after: Option<Position>, n: nat)
    requires ValidTable(table) && 0 < n <= |Query(table, f, after)|
    ensures Query(table, f, Some(PositionOf(Query(table, f, after)[n - 1]))) == Query(table, f, after)[n..]
  {
    hide Query;
    var all := Query(table, f, after);
    var last := PositionOf(all[n - 1]);
    var rest := Query(table, f, Some(last));
    QueryDescends(table, f, after);
    QueryDescends(table, f, Some(last));
    QueryElements(table, f, after);
    QueryElements(table, f, Some(last));
    assert all[n - 1] in Elements(all);
    forall r | r in Elements(all[n..]) ensures r in Elements(rest) {
      var i :| 0 <= i < |all[n..]| && all[n..][i] == r;
      assert all[n + i] == r && r in Elements(all);
    }
    forall r | r in Elements(rest) ensures r in Elements(all[n..]) {
      assert r in Elements(all);
      var i :| 0 <= i < |all| && all[i] == r;
      assert i >= n;
      assert all[n..][i - n] == r;
    }
    assert Descending(all[n..]);
    DescendingIsUnique(rest, all[n..]);
  }

  /** All pages from a cursor on. */
  ghost function Follow(table: seq<Row>, f: Filter, cursor: string, limit: int): (pages: seq<seq<Row>>)
    requires ValidTable(table)
    decreases |Query(table, f, After(cursor))|
  {
    var (items, next) := Page(table, f, cursor, limit);
    if next == "" then [items]
    else
      NextPageIsShorter(table, f, cursor, limit);
      [items] + Follow(table, f, next, limit)
  }

  lemma NextPageIsShorter(table: seq<Row>, f: Filter, cursor: string, limit: int)
    requires ValidTable(table)
    ensures var all, n, page := Query(table, f, After(cursor)), Clamp(limit), Page(table, f, cursor, limit);
            (page.1 == "" <==> |all| <= n) && page.0 == (if |all| <= n then all else all[..n]) &&
            (page.1 != "" ==> Query(table, f, After(page.1)) == all[n..])
  {
    hide Query, EncodeCursor, DecodeCursor;
    var all, n := Query(table, f, After(cursor)), Clamp(limit);
    QueryElements(table, f, After(cursor));
    if |all| > n {
      assert all[n - 1] in Elements(all);
      CursorRoundTrip(PositionOf(all[n - 1]));
      CursorIsNotEmpty(PositionOf(all[n - 1]));
      RestAfter(table, f, After(cursor), n);
    }
  }

  lemma CursorIsNotEmpty(p: Position)
    requires ValidPosition(p) && HasLongYear(p)
    ensures IsAscii(CursorText(p)) && EncodeCursor(p) != ""
  {
    hide EncodeCursor;
    CursorRoundTrip(p);
    EmptyCursorIsInvalid();
  }

  lemma EmptyCursorIsInvalid()
    ensures DecodeCursor("") == None
  {
    hide FromIso, SixDigits, ParseUuid, Repeat, Base64Decode, FromAscii, IndexOf;
    NoPadding();
    NothingDecodes();
  }

  lemma NothingDecodes()
    ensures Base64Decode("") == Some([]) && FromAscii([]) == Some("") && IndexOf("", '|') == 0
  {
    assert FromAscii([]).value == "";
  }

  lemma NoPadding()
    ensures "" + Repeat('=', (4 - |""| % 4) % 4) == ""
  {
  }

  function Flatten(pages: seq<seq<Row>>): seq<Row> {
    if pages == [] then [] else pages[0] + Flatten(pages[1..])
  }

  /** As many pages as the rows fill, and at least one. */
  function PagesFor(total: nat, n: nat): nat
    requires n > 0
  {
    if total == 0 then 1 else (total + n - 1) / n
  }

  lemma {:induction false} FollowVisitsTheRest(table: seq<Row>, f: Filter, cursor: string, limit: int)
    requires ValidTable(table)
    ensures Flatten(Follow(table, f, cursor, limit)) == Query(table, f, After(cursor))
    ensures |Follow(table, f, cursor, limit)| == PagesFor(|Query(table, f, After(cursor))|, Clamp(limit))
    decreases |Query(table, f, After(cursor))|
  {
    hide Query, Page, PagesFor, Clamp, ValidTable, After;
    NextPageIsShorter(table, f, cursor, limit);
    var all, n, page := Query(table, f, After(cursor)), Clamp(limit), Page(table, f, cursor, limit);
    if page.1 == "" {
      assert [page.0][1..] == [] && page.0 + [] == page.0;
      OnePage(|all|, n);
    } else {
      FollowVisitsTheRest(table, f, page.1, limit);
      var more := Follow(table, f, page.1, limit);
      assert ([page.0] + more)[1..] == more;
      assert all == all[..n] + all[n..];
      MorePages(|all|, n);
    }
  }

  lemma OnePage(total: nat, n: nat)
    requires total <= n && n > 0
    ensures PagesFor(total, n) == 1
  {
    if total > 0 {
      DivAddsOne(total - 1, n);
      Multiple((total - 1) / n, n);
      assert total - 1 == (total - 1) / n * n + (total - 1) % n;
    }
  }

  lemma MorePages(total: nat, n: nat)
    requires 0 < n < total
    ensures PagesFor(total, n) == 1 + PagesFor(total - n, n)
  {
    assert total - 1 + n == total + n - 1 && total - n + n - 1 == total - 1;
    DivAddsOne(total - 1, n);
  }

  lemma DivAddsOne(a: nat, n: nat)
    requires n > 0
    ensures (a + n) / n == 1 + a / n
  {
    var d := (a + n) / n - a / n - 1;
    assert (a + n) == (a + n) / n * n + (a + n) % n && a == a / n * n + a % n;
    assert d * n == a % n - (a + n) % n;
    Multiple(d, n);
  }

  lemma Multiple(d: int, n: int)
    requires n > 0
    ensures d >= 1 ==> d * n >= n
    ensures d <= -1 ==> d * n <= 0 - n
  {
  }

  /** Following the cursors over an unchanged table returns every matching row exactly once, newest first,
      in as many pages as the number of rows needs (and one, empty, if there are none). */
  lemma PagesCoverTheTable(table: seq<Row>, f: Filter, limit: int)
    requires ValidTable(table)
    ensures var rows, n, pages := Flatten(Follow(table, f, "", limit)), Clamp(limit), Follow(table, f, "", limit);
            Descending(rows) && (forall r :: r in Elements(rows) <==> r in Elements(table) && Matches(f, r)) &&
            |pages| == PagesFor(|rows|, n)
  {
    hide Query, Page, PagesFor, Follow, Clamp;
    FollowVisitsTheRest(table, f, "", limit);
    QueryDescends(table, f, None);
    QueryElements(table, f, None);
  }

  /** The one time comes before the other. */
  ghost predicate Sooner(a: Time, b: Time) {
    a.year < b.year ||
    (a.year == b.year &&
     (a.month < b.month ||
      (a.month == b.month &&
       (a.day < b.day ||
        (a.day == b.day &&
         (a.hour < b.hour ||
          (a.hour == b.hour &&
           (a.minute < b.minute ||
            (a.minute == b.minute && (a.second < b.second || (a.second == b.second && a.micro < b.micro)))))))))))
  }

  lemma StampIsChronological(a: Time, b: Time)
    requires ValidTime(a) && ValidTime(b)
    ensures Stamp(a) < Stamp(b) <==> Sooner(a, b)
    ensures Stamp(a) == Stamp(b) <==> a == b
  {
    hide Day, Second, Stamp, ValidTime;
    StampParts(a);
    StampParts(b);
    DaysInOrder(a, b);
    SecondsInOrder(a, b);
  }

  function Day(t: Time): int {
    (t.year * 100 + t.month) * 100 + t.day
  }

  function Second(t: Time): int {
    (t.hour * 100 + t.minute) * 100 + t.second
  }

  lemma StampParts(t: Time)
    requires ValidTime(t)
    ensures Stamp(t) == (Day(t) * 1000000 + Second(t)) * 1000000 + t.micro
    ensures 0 <= Second(t) < 1000000 && t.micro < 1000000
  {
    hide DaysIn;
  }

  lemma DaysInOrder(a: Time, b: Time)
    requires ValidTime(a) && ValidTime(b)
    ensures Day(a) < Day(b) <==>
            a.year < b.year || (a.year == b.year && (a.month < b.month || (a.month == b.month && a.day < b.day)))
    ensures Day(a) == Day(b) <==> a.year == b.year && a.month == b.month && a.day == b.day
  {
    MonthsAreShort(a);
    MonthsAreShort(b);
    hide ValidTime;
  }

  lemma MonthsAreShort(t: Time)
    requires ValidTime(t)
    ensures 1 <= t.month <= 12 && 1 <= t.day <= 31
  {
  }

  lemma SecondsInOrder(a: Time, b: Time)
    requires ValidTime(a) && ValidTime(b)
    ensures Second(a) < Second(b) <==>
            a.hour < b.hour ||
            (a.hour == b.hour && (a.minute < b.minute || (a.minute == b.minute && a.second < b.second)))
    ensures Second(a) == Second(b) <==> a.hour == b.hour && a.minute == b.minute && a.second == b.second
  {
    hide DaysIn;
  }

  /** A page holds as many rows as are asked for, but no more than 200, and 50 if no number is asked for. */
  lemma PageSizes(table: seq<Row>, f: Filter, cursor: string, limit: int)
    requires ValidTable(table)
    ensures var n, all := |Page(table, f, cursor, limit).0|, |Query(table, f, After(cursor))|;
            var most := if 1 <= limit <= 200 then limit else if limit > 200 then 200 else 50;
            n == if all < most then all else most
  {
    hide Query;
  }

  /** So all pages together list every submission of the form, the state and the assignee asked for, those that were
      created last first, and by id where the times are the same. */
  lemma PagesListTheMatches(table: seq<Row>, f: Filter, limit: int)
    requires ValidTable(table)
    ensures var rows := Flatten(Follow(table, f, "", limit));
            (forall r :: r in rows <==>
               r in table && (f.form == "" || r.form == f.form) && (f.state == "" || r.state == f.state) &&
               (f.assignee.Some? ==> r.assignee == f.assignee) && (f.unassigned ==> r.assignee == None)) &&
            forall i, j :: 0 <= i < j < |rows| ==>
              Sooner(rows[j].createdAt, rows[i].createdAt) ||
              (rows[j].createdAt == rows[i].createdAt && rows[j].id < rows[i].id)
  {
    hide Query, Page, PagesFor, Follow, Clamp, Stamp, Sooner;
    PagesCoverTheTable(table, f, limit);
    var rows := Flatten(Follow(table, f, "", limit));
    forall r ensures (r in rows <==> r in Elements(rows)) && (r in table <==> r in Elements(table)) {}
    forall i, j | 0 <= i < j < |rows|
      ensures Sooner(rows[j].createdAt, rows[i].createdAt) ||
              (rows[j].createdAt == rows[i].createdAt && rows[j].id < rows[i].id)
    {
      assert rows[i] in Elements(rows) && rows[j] in Elements(rows);
      StampIsChronological(rows[j].createdAt, rows[i].createdAt);
    }
  }
}
