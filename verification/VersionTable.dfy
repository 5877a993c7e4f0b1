/** A table of versions that knows the current one of every slug, written only by upserting. */
module VersionTable {
  import opened Common
  import opened JsonValues

  datatype Tag = Tag(source: string, actor: string)

  /** A version's id is its index in the table. Rows of workflows have no pin. The document stands for its hash. */
  datatype Row = Row(slug: string, version: nat, doc: Json, pin: Option<nat>, tag: Tag)

  datatype Table = Table(rows: seq<Row>, current: map<string, nat>)
  {
    function Current(slug: string): Option<Row> {
      if slug in current && current[slug] < |rows| then Some(rows[current[slug]]) else None
    }
  }

  const EMPTY := Table([], map[])

  datatype Kind = WorkflowKind | FormKind

  datatype Item = Item(kind: Kind, slug: string, version: nat, changed: bool, created: bool)

  predicate Same(t: Table, slug: string, doc: Json, pin: Option<nat>) {
    t.Current(slug).Some? && t.Current(slug).value.doc == doc && t.Current(slug).value.pin == pin
  }

  function NextVersion(t: Table, slug: string): nat {
    (if t.Current(slug).Some? then t.Current(slug).value.version else 0) + 1
  }

  function Insert(t: Table, slug: string, doc: Json, pin: Option<nat>, tag: Tag): Table {
    Table(t.rows + [Row(slug, NextVersion(t, slug), doc, pin, tag)], t.current[slug := |t.rows|])
  }

  /** An unchanged document and pin add nothing; anything else becomes the next version. */
  function Upsert(t: Table, kind: Kind, slug: string, doc: Json, pin: Option<nat>, tag: Tag): (Table, Item, nat) {
    if Same(t, slug, doc, pin) then (t, Item(kind, slug, t.Current(slug).value.version, false, false), t.current[slug])
    else (Insert(t, slug, doc, pin, tag), Item(kind, slug, NextVersion(t, slug), true, slug !in t.current), |t.rows|)
  }

  /** The versions of one slug, oldest first. */
  function History(rows: seq<Row>, slug: string): seq<Row> {
    if rows == [] then []
    else
      var h := History(rows[..|rows| - 1], slug);
      if rows[|rows| - 1].slug == slug then h + [rows[|rows| - 1]] else h
  }

  /** Numbered from 1 on, and each one different from the one before. */
  ghost predicate HistoryOk(h: seq<Row>) {
    (forall k :: 0 <= k < |h| ==> h[k].version == k + 1) &&
    (forall k :: 0 < k < |h| ==> h[k].doc != h[k - 1].doc || h[k].pin != h[k - 1].pin)
  }

  /** The current version of a slug is its last one. */
  ghost predicate SlugOk(t: Table, slug: string) {
    var h := History(t.rows, slug);
    HistoryOk(h) &&
    if slug in t.current then h != [] && t.Current(slug) == Some(h[|h| - 1]) && h[|h| - 1].slug == slug else h == []
  }

  ghost predicate TableOk(t: Table) {
    (forall slug :: SlugOk(t, slug)) && forall slug :: slug in t.current ==> t.current[slug] < |t.rows|
  }

  lemma HistoryGrows(rows: seq<Row>, row: Row, slug: string)
    ensures History(rows + [row], slug) == if row.slug == slug then History(rows, slug) + [row] else History(rows, slug)
  {
    var more := rows + [row];
    assert more[..|more| - 1] == rows && more[|more| - 1] == row;
  }

  lemma InsertSlugOk(t: Table, slug: string, doc: Json, pin: Option<nat>, tag: Tag, other: string)
    requires TableOk(t) && !Same(t, slug, doc, pin)
    ensures SlugOk(Insert(t, slug, doc, pin, tag), other)
  {
    hide History;
    var t' := Insert(t, slug, doc, pin, tag);
    var row := t'.rows[|t.rows|];
    assert SlugOk(t, other);
    HistoryGrows(t.rows, row, other);
  }

  lemma UpsertKeepsTable(t: Table, kind: Kind, slug: string, doc: Json, pin: Option<nat>, tag: Tag)
    requires TableOk(t)
    ensures TableOk(Upsert(t, kind, slug, doc, pin, tag).0)
  {
    hide SlugOk, Insert, Same;
    if !Same(t, slug, doc, pin) {
      forall other { InsertSlugOk(t, slug, doc, pin, tag, other); }
      InsertInRange(t, slug, doc, pin, tag);
    }
  }

  lemma InsertInRange(t: Table, slug: string, doc: Json, pin: Option<nat>, tag: Tag)
    requires TableOk(t)
    ensures var t' := Insert(t, slug, doc, pin, tag); forall s :: s in t'.current ==> t'.current[s] < |t'.rows|
  {
  }

  /** What an upsert makes current: only its slug moves on, to a row with the document and pin. */
  lemma UpsertPoints(t: Table, kind: Kind, slug: string, doc: Json, pin: Option<nat>, tag: Tag)
    requires TableOk(t)
    ensures var (t', item, id) := Upsert(t, kind, slug, doc, pin, tag);
            t.rows <= t'.rows && t'.current.Keys == t.current.Keys + {slug} && t'.current[slug] == id &&
            t'.Current(slug).Some? && t'.Current(slug).value.doc == doc && t'.Current(slug).value.pin == pin &&
            t'.Current(slug).value.version == item.version && t'.Current(slug).value.slug == slug &&
            (item.changed <==> t' != t) && (item.created <==> slug !in t.current)
    ensures forall other :: other != slug && other in t.current ==>
              Upsert(t, kind, slug, doc, pin, tag).0.current[other] == t.current[other] &&
              Upsert(t, kind, slug, doc, pin, tag).0.Current(other) == t.Current(other)
  {
    hide History, HistoryOk;
    assert SlugOk(t, slug);
    if !Same(t, slug, doc, pin) {
      assert |Insert(t, slug, doc, pin, tag).rows| == |t.rows| + 1;
    }
  }

  /** The versions of a slug are numbered 1 to n, and version n is the current one. */
  lemma VersionsAreNumbered(t: Table, slug: string)
    requires TableOk(t) && slug in t.current
    ensures var h := History(t.rows, slug);
            |h| > 0 && t.Current(slug) == Some(h[|h| - 1]) && h[|h| - 1].version == |h| &&
            forall k :: 0 <= k < |h| ==> h[k].version == k + 1 && h[k].slug == slug
  {
    hide History;
    assert SlugOk(t, slug);
    HistoryIsOfSlug(t.rows, slug);
  }

  lemma {:induction false} HistoryIsOfSlug(rows: seq<Row>, slug: string)
    ensures forall k :: 0 <= k < |History(rows, slug)| ==> History(rows, slug)[k].slug == slug
    ensures forall k :: 0 <= k < |History(rows, slug)| ==> History(rows, slug)[k] in rows
  {
    if rows != [] {
      HistoryIsOfSlug(rows[..|rows| - 1], slug);
    }
  }
}
