/** What a call of apply leaves and reports, in full, without its phases. */
module Reports {
  import opened Common
  import opened Definitions
  import opened DefinitionRules
  import opened DefinitionJson
  import opened JsonValues
  import opened Ordering
  import opened Store
  import opened VersionTable
  import T = Text

  /** From one table to a later one only `moved` slugs have moved; each new row is current and carries the tag. */
  ghost predicate Grown(t0: Table, t: Table, moved: set<string>, tag: Tag) {
    t0.rows <= t.rows &&
    (forall s :: s !in moved ==>
      (s in t.current <==> s in t0.current) && (s in t.current ==> t.current[s] == t0.current[s])) &&
    forall k :: |t0.rows| <= k < |t.rows| ==>
      t.rows[k].tag == tag && t.rows[k].slug in moved && t.rows[k].slug in t.current && t.current[t.rows[k].slug] == k
  }

  /** The line of the report on one definition is true: it is current with this document and pin, and a new version
      has been written exactly if it was not so before. */
  ghost predicate Line(t0: Table, t: Table, kind: Kind, slug: string, doc: Json, pin: Option<nat>, item: Item) {
    item.kind == kind && item.slug == slug && slug in t.current && t.current[slug] < |t.rows| &&
    var row := t.rows[t.current[slug]];
    row.slug == slug && row.doc == doc && row.pin == pin && row.version == item.version &&
    (item.created <==> slug !in t0.current) && (item.changed <==> t.current[slug] >= |t0.rows|) &&
    if slug in t0.current && t0.current[slug] < |t0.rows| then
      var was := t0.rows[t0.current[slug]];
      (item.changed <==> was.doc != doc || was.pin != pin) &&
      item.version == was.version + (if item.changed then 1 else 0) &&
      (!item.changed ==> t.current[slug] == t0.current[slug])
    else
      item.changed && item.version == 1
  }

  lemma GrownStep(t0: Table, t: Table, moved: set<string>, tag: Tag, kind: Kind, slug: string, doc: Json,
        pin: Option<nat>)
    requires TableOk(t0) && TableOk(t) && Grown(t0, t, moved, tag) && slug !in moved
    ensures var (t', item, _) := Upsert(t, kind, slug, doc, pin, tag);
            Grown(t0, t', moved + {slug}, tag) && Line(t0, t', kind, slug, doc, pin, item) &&
            (!item.changed ==> t' == t)
  {
    hide History, HistoryOk;
    UpsertPoints(t, kind, slug, doc, pin, tag);
    assert SlugOk(t, slug);
    assert SlugOk(t0, slug);
  }

  /** A line stays true while its slug stays. */
  lemma LineStays(t0: Table, t: Table, t': Table, kind: Kind, slug: string, doc: Json, pin: Option<nat>, item: Item)
    requires Line(t0, t, kind, slug, doc, pin, item) && t.rows <= t'.rows
    requires slug in t'.current && t'.current[slug] == t.current[slug]
    ensures Line(t0, t', kind, slug, doc, pin, item)
  {
    assert t'.rows[t.current[slug]] == t.rows[t.current[slug]];
  }

  // ---- the dependent forms ---------------------------------------------------------------------------------

  /** The i-th selected slug is the k-th one of the list, in order. */
  lemma {:induction false} NamingKeepsOrder(t: Table, slugs: seq<string>, workflow: string, i: nat, j: nat)
      returns (a: nat, b: nat)
    requires i < j < |Naming(t, slugs, workflow)|
    ensures a < b < |slugs|
    ensures Naming(t, slugs, workflow)[i] == Definition(t, slugs[a])
    ensures Naming(t, slugs, workflow)[j] == Definition(t, slugs[b])
    decreases |slugs|
  {
    hide Definition;
    var n := |slugs| - 1;
    var front := Naming(t, slugs[..n], workflow);
    if j < |front| {
      a, b := NamingKeepsOrder(t, slugs[..n], workflow, i, j);
    } else {
      a := NamingIndex(t, slugs[..n], workflow, i);
      b := n;
    }
  }

  lemma {:induction false} NamingIndex(t: Table, slugs: seq<string>, workflow: string, i: nat) returns (a: nat)
    requires i < |Naming(t, slugs, workflow)|
    ensures a < |slugs| && Naming(t, slugs, workflow)[i] == Definition(t, slugs[a])
    decreases |slugs|
  {
    hide Definition;
    var n := |slugs| - 1;
    if i < |Naming(t, slugs[..n], workflow)| {
      a := NamingIndex(t, slugs[..n], workflow, i);
    } else {
      a := n;
    }
  }

  /** The dependent forms come sorted by slug, each one once. */
  lemma DependentsAscend(fm: T.Formats, t: Tables, workflow: string)
    requires RowsOk(fm, t)
    ensures var deps := Dependents(t.forms, workflow);
            forall i, j :: 0 <= i < j < |deps| ==> deps[i].slug != deps[j].slug && Leq(deps[i].slug, deps[j].slug)
  {
    hide RowsOk, Definition, Naming, Leq, ValidForm, Precedes, Sorted, FormToDict;
    var slugs, deps := Sorted([], t.forms.current.Keys), Dependents(t.forms, workflow);
    SortedAscends([], t.forms.current.Keys);
    forall i, j | 0 <= i < j < |deps|
      ensures deps[i].slug != deps[j].slug && Leq(deps[i].slug, deps[j].slug)
    {
      var a, b := NamingKeepsOrder(t.forms, slugs, workflow, i, j);
      assert slugs[a] in slugs && slugs[b] in slugs;
      CurrentDefinition(fm, t, slugs[a]);
      CurrentDefinition(fm, t, slugs[b]);
      PrecedesIsLeq(slugs[a], slugs[b]);
    }
  }

  lemma PrecedesIsLeq(a: string, b: string)
    requires Precedes([], a, b)
    ensures Leq(a, b)
  {
    hide Leq;
  }

  // ---- the definitions of the bundle -----------------------------------------------------------------------

  ghost predicate WorkflowLine(t0: Tables, t: Tables, w: Workflow, item: Item) {
    Line(t0.workflows, t.workflows, WorkflowKind, w.slug, WorkflowToDict(w), None, item)
  }

  /** The pin is the current version of the workflow that the form names. */
  ghost predicate FormLine(t0: Tables, t: Tables, f: Form, item: Item) {
    (f.workflow == "" || f.workflow in t.workflows.current) &&
    Line(t0.forms, t.forms, FormKind, f.slug, FormToDict(f),
         if f.workflow == "" then None else Some(t.workflows.current[f.workflow]), item)
  }

  /** The workflows of the bundle that have got a new version. */
  ghost predicate Moved(ws: seq<Workflow>, items: seq<Item>, slug: string)
    requires |ws| <= |items|
  {
    exists i :: 0 <= i < |ws| && ws[i].slug == slug && items[i].changed
  }

  lemma {:induction false} WorkflowLines(fm: T.Formats, t0: Tables, ws: seq<Workflow>, tag: Tag)
    requires RowsOk(fm, t0) && forall i :: 0 <= i < |ws| ==> WorkflowOkAt(fm, ws, i)
    ensures var p := ApplyWorkflows(Progress(t0, [], map[]), ws, tag);
            |p.items| == |ws| && Grown(t0.workflows, p.t.workflows, WorkflowSlugs(ws), tag) &&
            (forall i :: 0 <= i < |ws| ==> WorkflowLine(t0, p.t, ws[i], p.items[i])) &&
            forall s :: s in p.added <==> Moved(ws, p.items, s)
    decreases |ws|
  {
    hide RowsOk, TableOk, ValidWorkflow, WorkflowToDict, Upsert, Grown, Line, OnlyAdded, WorkflowStored, Moved;
    if ws == [] {
      assert forall s :: !Moved(ws, [], s) by { NoneMoved(); }
      NothingGrown(t0.workflows, tag);
      assert WorkflowSlugs(ws) == {};
    } else {
      var front, w := ws[..|ws| - 1], ws[|ws| - 1];
      forall i | 0 <= i < |front| ensures WorkflowOkAt(fm, front, i) { assert WorkflowOkAt(fm, ws, i); }
      WorkflowLines(fm, t0, front, tag);
      WorkflowsPhase(fm, t0, front, tag);
      var p := ApplyWorkflows(Progress(t0, [], map[]), front, tag);
      RowsOkTables(fm, t0);
      RowsOkTables(fm, p.t);
      assert w.slug !in WorkflowSlugs(front) by { assert WorkflowOkAt(fm, ws, |front|); }
      GrownStep(t0.workflows, p.t.workflows, WorkflowSlugs(front), tag, WorkflowKind, w.slug, WorkflowToDict(w), None);
      UpsertPoints(p.t.workflows, WorkflowKind, w.slug, WorkflowToDict(w), None, tag);
      LastWorkflowSlug(ws);
      var p' := ApplyWorkflow(p, w, tag);
      forall i | 0 <= i < |ws| ensures WorkflowLine(t0, p'.t, ws[i], p'.items[i]) {
        if i < |front| {
          assert WorkflowLine(t0, p.t, front[i], p.items[i]);
          assert front[i].slug in WorkflowSlugs(front);
          WorkflowLineStays(t0, p.t, p'.t, ws[i], p.items[i], w.slug);
        }
      }
      MovedGrows(ws, p.items, p'.items[|front|]);
    }
  }

  lemma NoneMoved()
    ensures forall s :: !Moved([], [], s)
  {
  }

  lemma WorkflowLineStays(t0: Tables, t: Tables, t': Tables, w: Workflow, item: Item, slug: string)
    requires WorkflowLine(t0, t, w, item) && t.workflows.rows <= t'.workflows.rows && w.slug != slug
    requires forall s :: s != slug && s in t.workflows.current ==>
               s in t'.workflows.current && t'.workflows.current[s] == t.workflows.current[s]
    ensures WorkflowLine(t0, t', w, item)
  {
    hide WorkflowToDict, Line;
    LineHolds(t0.workflows, t.workflows, WorkflowKind, w.slug, WorkflowToDict(w), None, item);
    LineStays(t0.workflows, t.workflows, t'.workflows, WorkflowKind, w.slug, WorkflowToDict(w), None, item);
  }

  lemma LineHolds(t0: Table, t: Table, kind: Kind, slug: string, doc: Json, pin: Option<nat>, item: Item)
    requires Line(t0, t, kind, slug, doc, pin, item)
    ensures slug in t.current
  {
  }

  lemma MovedGrows(ws: seq<Workflow>, items: seq<Item>, item: Item)
    requires ws != [] && |items| == |ws| - 1
    ensures forall s :: Moved(ws, items + [item], s) <==>
              Moved(ws[..|ws| - 1], items, s) || (item.changed && ws[|ws| - 1].slug == s)
  {
    var front, all := ws[..|ws| - 1], items + [item];
    forall s ensures Moved(ws, all, s) <==> Moved(front, items, s) || (item.changed && ws[|ws| - 1].slug == s) {
      if Moved(front, items, s) {
        var i :| 0 <= i < |front| && front[i].slug == s && items[i].changed;
        assert ws[i].slug == s && all[i].changed;
      }
      if item.changed && ws[|ws| - 1].slug == s { assert all[|ws| - 1].changed; }
      if Moved(ws, all, s) {
        var i :| 0 <= i < |ws| && ws[i].slug == s && all[i].changed;
        if i < |front| { assert front[i].slug == s && items[i].changed; }
      }
    }
  }

  lemma NothingGrown(t: Table, tag: Tag)
    ensures Grown(t, t, {}, tag)
  {
  }

  lemma {:induction false} FormLines(fm: T.Formats, t0: Tables, p: Progress, fs: seq<Form>, tag: Tag,
        pending: set<string>)
    requires RowsOk(fm, p.t) && PinsOk(p.t, {}, pending) && forall i :: 0 <= i < |fs| ==> FormOkAt(fm, fs, i)
    requires forall i :: 0 <= i < |fs| ==> FormNameOk(p.t.workflows, fs[i])
    requires p.t.forms == t0.forms
    ensures var p' := ApplyForms(p, fs, tag);
            |p'.items| == |p.items| + |fs| && p.items <= p'.items &&
            Grown(t0.forms, p'.t.forms, FormSlugs(fs), tag) &&
            forall i :: 0 <= i < |fs| ==> FormLine(t0, p'.t, fs[i], p'.items[|p.items| + i])
    decreases |fs|
  {
    hide RowsOk, PinsOk, TableOk, ValidForm, FormToDict, Upsert, Grown, FormLine, FormStored, ApplyForm;
    if fs == [] {
      NothingGrown(t0.forms, tag);
      assert FormSlugs(fs) == {};
    } else {
      var front, f := fs[..|fs| - 1], fs[|fs| - 1];
      forall i | 0 <= i < |front| ensures FormOkAt(fm, front, i) && FormNameOk(p.t.workflows, front[i]) {
        assert FormOkAt(fm, fs, i) && front[i] == fs[i];
      }
      FormLines(fm, t0, p, front, tag, pending);
      FormsPhase(fm, p, front, tag, pending);
      var p1 := ApplyForms(p, front, tag);
      RowsOkTables(fm, p.t);
      RowsOkTables(fm, p1.t);
      assert f.slug !in FormSlugs(front) by { assert FormOkAt(fm, fs, |front|); }
      FormLineStep(t0, p1, f, tag, FormSlugs(front));
      LastSlug(fs);
      var p' := ApplyForm(p1, f, tag);
      assert FormNameOk(p.t.workflows, fs[|front|]);
      forall i | 0 <= i < |fs| ensures FormLine(t0, p'.t, fs[i], p'.items[|p.items| + i]) {
        if i < |front| {
          assert FormLine(t0, p1.t, front[i], p1.items[|p.items| + i]) && front[i].slug in FormSlugs(front);
          FormLineStays(t0, p1.t, p'.t, fs[i], p1.items[|p.items| + i], f.slug);
        }
      }
    }
  }

  lemma FormLineStep(t0: Tables, p: Progress, f: Form, tag: Tag, moved: set<string>)
    requires TableOk(t0.forms) && TableOk(p.t.forms) && Grown(t0.forms, p.t.forms, moved, tag) && f.slug !in moved
    requires FormNameOk(p.t.workflows, f)
    ensures var p' := ApplyForm(p, f, tag);
            |p'.items| == |p.items| + 1 && p.items <= p'.items && p'.t.workflows == p.t.workflows &&
            p.t.forms.rows <= p'.t.forms.rows &&
            Grown(t0.forms, p'.t.forms, moved + {f.slug}, tag) && FormLine(t0, p'.t, f, p'.items[|p.items|]) &&
            forall s :: s != f.slug && s in p.t.forms.current ==>
              s in p'.t.forms.current && p'.t.forms.current[s] == p.t.forms.current[s]
  {
    hide TableOk, FormToDict, Upsert, Grown, Line;
    var pin := PinFor(p.t.workflows, f.workflow);
    GrownStep(t0.forms, p.t.forms, moved, tag, FormKind, f.slug, FormToDict(f), pin);
    UpsertPoints(p.t.forms, FormKind, f.slug, FormToDict(f), pin, tag);
  }

  lemma FormLineStays(t0: Tables, t: Tables, t': Tables, f: Form, item: Item, slug: string)
    requires FormLine(t0, t, f, item) && t'.workflows == t.workflows && t.forms.rows <= t'.forms.rows
    requires f.slug != slug
    requires forall s :: s != slug && s in t.forms.current ==>
               s in t'.forms.current && t'.forms.current[s] == t.forms.current[s]
    ensures FormLine(t0, t', f, item)
  {
    hide FormToDict, Line;
    var pin := if f.workflow == "" then None else Some(t.workflows.current[f.workflow]);
    LineHolds(t0.forms, t.forms, FormKind, f.slug, FormToDict(f), pin, item);
    LineStays(t0.forms, t.forms, t'.forms, FormKind, f.slug, FormToDict(f), pin, item);
  }

  // ---- the forms outside the bundle ------------------------------------------------------------------------

  ghost function Slugs(items: seq<Item>): set<string> {
    set k | 0 <= k < |items| :: items[k].slug
  }

  /** The line of the report on a form that is not in the bundle: its document has stayed, and it is now pinned to the
      current version of its workflow, which is one of `added`. */
  ghost predicate RepinLine(t0: Tables, t: Tables, bundle: set<string>, added: set<string>, item: Item) {
    var slug, was, now := item.slug, t0.forms.current, t.forms.current;
    item.kind.FormKind? && item.changed && !item.created && slug !in bundle &&
    slug in was && was[slug] < |t0.forms.rows| && slug in now && now[slug] < |t.forms.rows| &&
    var row, next := t0.forms.rows[was[slug]], t.forms.rows[now[slug]];
    var name := FormFromDict(row.doc).workflow;
    next.slug == slug && next.doc == row.doc && next.version == item.version && item.version == row.version + 1 &&
    name in added && name in t.workflows.current && next.pin == Some(t.workflows.current[name])
  }

  /** Behind the bundle's own lines the report has one line for each form that has been pinned anew. */
  ghost predicate Repinned(t0: Tables, p: Progress, base: nat, bundle: set<string>, tag: Tag) {
    base <= |p.items| &&
    Grown(t0.forms, p.t.forms, bundle + Slugs(p.items[base..]), tag) &&
    (forall k :: base <= k < |p.items| ==> RepinLine(t0, p.t, bundle, p.added.Keys, p.items[k])) &&
    forall j, k :: base <= j < k < |p.items| ==> p.items[j].slug != p.items[k].slug
  }

  /** The versions in `added` are new and current. */
  ghost predicate Minted(t0: Tables, p: Progress) {
    forall s :: s in p.added ==>
      s in p.t.workflows.current && p.t.workflows.current[s] == p.added[s] && p.added[s] >= |t0.workflows.rows|
  }

  /** Of the forms only this one may have moved. */
  ghost predicate OthersStay(t: Tables, t': Tables, slugs: set<string>) {
    t'.workflows == t.workflows && t.forms.rows <= t'.forms.rows &&
    forall s :: s !in slugs && s in t.forms.current ==>
      s in t'.forms.current && t'.forms.current[s] == t.forms.current[s]
  }

  lemma OldPin(fm: T.Formats, t0: Tables, slug: string)
    requires StoreOk(fm, t0) && slug in t0.forms.current
    ensures t0.forms.current[slug] < |t0.forms.rows|
    ensures var pin := t0.forms.rows[t0.forms.current[slug]].pin;
            pin.Some? ==> pin.value < |t0.workflows.rows|
  {
    hide SlugOk, FormRowOk, WorkflowRowOk, Definition;
    assert PinOk(t0, slug);
  }

  /** A form outside the bundle that has not been pinned anew is where it was, with its definition. */
  lemma StillThere(fm: T.Formats, t0: Tables, p: Progress, base: nat, bundle: set<string>, tag: Tag, slug: string)
    requires RowsOk(fm, t0) && RowsOk(fm, p.t) && Repinned(t0, p, base, bundle, tag) && slug !in bundle
    ensures slug in p.t.forms.current <==> slug in t0.forms.current
    ensures slug in t0.forms.current ==> Definition(p.t.forms, slug) == Definition(t0.forms, slug)
  {
    hide FormRowOk, WorkflowRowOk, FormFromDict, SlugOk;
    var lines := p.items[base..];
    if slug in Slugs(lines) {
      var k :| 0 <= k < |lines| && lines[k].slug == slug;
      assert RepinLine(t0, p.t, bundle, p.added.Keys, p.items[base + k]);
    } else if slug in t0.forms.current {
      assert p.t.forms.rows[t0.forms.current[slug]] == t0.forms.rows[t0.forms.current[slug]];
    }
  }

  lemma RepinOnce(fm: T.Formats, t0: Tables, p: Progress, f: Form, name: string, base: nat, bundle: set<string>,
        tag: Tag)
    requires StoreOk(fm, t0) && RowsOk(fm, p.t) && Repinned(t0, p, base, bundle, tag) && Minted(t0, p)
    requires NamedBy(p.t, f, name) && name in p.added && f.slug !in bundle + Slugs(p.items[base..])
    ensures var (t', item, _) := Upsert(p.t.forms, FormKind, f.slug, FormToDict(f), Some(p.added[name]), tag);
            Grown(t0.forms, t', bundle + Slugs(p.items[base..]) + {f.slug}, tag) &&
            item.slug == f.slug && RepinLine(t0, p.t.(forms := t'), bundle, p.added.Keys, item)
  {
    hide StoreOk, RowsOk, Grown, FormToDict, FormFromDict, Upsert, TableOk;
    var moved := bundle + Slugs(p.items[base..]);
    assert RowsOk(fm, t0) by { StoreRows(fm, t0); }
    RowsOkTables(fm, t0);
    RowsOkTables(fm, p.t);
    CurrentDefinition(fm, p.t, f.slug);
    StillThere(fm, t0, p, base, bundle, tag, f.slug);
    CurrentDefinition(fm, t0, f.slug);
    OldPin(fm, t0, f.slug);
    GrownStep(t0.forms, p.t.forms, moved, tag, FormKind, f.slug, FormToDict(f), Some(p.added[name]));
  }

  lemma StoreRows(fm: T.Formats, t: Tables)
    requires StoreOk(fm, t)
    ensures RowsOk(fm, t)
  {
  }

  lemma RepinTwice(fm: T.Formats, t0: Tables, p: Progress, f: Form, name: string, base: nat, bundle: set<string>,
        tag: Tag)
    requires RowsOk(fm, p.t) && Repinned(t0, p, base, bundle, tag) && Minted(t0, p)
    requires NamedBy(p.t, f, name) && name in p.added && f.slug !in bundle && f.slug in Slugs(p.items[base..])
    ensures Repin(p, f, p.added[name], bundle, tag) == p
  {
    hide RowsOk, Grown, FormToDict, FormFromDict;
    var lines := p.items[base..];
    var k :| 0 <= k < |lines| && lines[k].slug == f.slug;
    assert RepinLine(t0, p.t, bundle, p.added.Keys, p.items[base + k]);
    CurrentDefinition(fm, p.t, f.slug);
    assert Same(p.t.forms, f.slug, FormToDict(f), Some(p.added[name]));
    assert p.items + [] == p.items;
  }

  lemma RepinLineStays(t0: Tables, t: Tables, t': Tables, bundle: set<string>, added: set<string>, item: Item,
        slugs: set<string>)
    requires RepinLine(t0, t, bundle, added, item) && OthersStay(t, t', slugs) && item.slug !in slugs
    ensures RepinLine(t0, t', bundle, added, item)
  {
    hide FormFromDict;
    assert t'.forms.rows[t.forms.current[item.slug]] == t.forms.rows[t.forms.current[item.slug]];
  }

  lemma OneMoreLine(items: seq<Item>, item: Item, base: nat)
    requires base <= |items|
    ensures Slugs((items + [item])[base..]) == Slugs(items[base..]) + {item.slug}
  {
    var lines, more := items[base..], (items + [item])[base..];
    assert more == lines + [item];
    forall s | s in Slugs(lines) ensures s in Slugs(more) {
      var k :| 0 <= k < |lines| && lines[k].slug == s;
      assert more[k].slug == s;
    }
    assert more[|lines|].slug in Slugs(more);
    forall s | s in Slugs(more) ensures s in Slugs(lines) + {item.slug} {
      var k :| 0 <= k < |more| && more[k].slug == s;
      if k < |lines| { assert lines[k].slug == s; }
    }
  }

  lemma RepinLineStep(fm: T.Formats, t0: Tables, p: Progress, f: Form, name: string, base: nat, bundle: set<string>,
        tag: Tag)
    requires StoreOk(fm, t0) && RowsOk(fm, p.t) && Repinned(t0, p, base, bundle, tag) && Minted(t0, p)
    requires NamedBy(p.t, f, name) && name in p.added
    ensures var p' := Repin(p, f, p.added[name], bundle, tag);
            Repinned(t0, p', base, bundle, tag) && p.items <= p'.items && OthersStay(p.t, p'.t, {f.slug} - bundle) &&
            f.slug in bundle + Slugs(p'.items[base..]) && Slugs(p.items[base..]) <= Slugs(p'.items[base..])
  {
    hide StoreOk, RowsOk, Grown, FormToDict, FormFromDict, Upsert, RepinLine;
    var p' := Repin(p, f, p.added[name], bundle, tag);
    if f.slug !in bundle {
      if f.slug in Slugs(p.items[base..]) {
        RepinTwice(fm, t0, p, f, name, base, bundle, tag);
      } else {
        RepinOnce(fm, t0, p, f, name, base, bundle, tag);
        var (t', item, _) := Upsert(p.t.forms, FormKind, f.slug, FormToDict(f), Some(p.added[name]), tag);
        ItemChanged(t0, p.t.(forms := t'), bundle, p.added.Keys, item);
        RowsOkTables(fm, p.t);
        UpsertPoints(p.t.forms, FormKind, f.slug, FormToDict(f), Some(p.added[name]), tag);
        OneMoreLine(p.items, item, base);
        assert p'.items == p.items + [item];
        assert bundle + Slugs(p'.items[base..]) == bundle + Slugs(p.items[base..]) + {f.slug};
        forall k | base <= k < |p.items|
          ensures p.items[k].slug != f.slug && RepinLine(t0, p'.t, bundle, p.added.Keys, p.items[k])
        {
          assert p.items[k] == p.items[base..][k - base];
          RepinLineStays(t0, p.t, p'.t, bundle, p.added.Keys, p.items[k], {f.slug});
        }
      }
    }
  }

  lemma ItemChanged(t0: Tables, t: Tables, bundle: set<string>, added: set<string>, item: Item)
    requires RepinLine(t0, t, bundle, added, item)
    ensures item.changed
  {
    hide FormFromDict;
  }

  lemma {:induction false} RepinAllLines(fm: T.Formats, t0: Tables, p: Progress, fs: seq<Form>, name: string,
        base: nat, bundle: set<string>, tag: Tag, pending: set<string>)
    requires StoreOk(fm, t0) && RowsOk(fm, p.t) && Repinned(t0, p, base, bundle, tag) && Minted(t0, p)
    requires PinsOk(p.t, bundle, pending) && name != "" && name in p.added
    requires forall i :: 0 <= i < |fs| ==> NamedBy(p.t, fs[i], name)
    ensures var p' := RepinAll(p, fs, p.added[name], bundle, tag);
            Repinned(t0, p', base, bundle, tag) && p.items <= p'.items && p'.added == p.added &&
            OthersStay(p.t, p'.t, FormSlugs(fs) - bundle) &&
            FormSlugs(fs) <= bundle + Slugs(p'.items[base..]) && Slugs(p.items[base..]) <= Slugs(p'.items[base..])
    decreases |fs|
  {
    hide StoreOk, RowsOk, PinsOk, Repinned, Repin, Definition;
    if fs != [] {
      var front, f := fs[..|fs| - 1], fs[|fs| - 1];
      RepinAllLines(fm, t0, p, front, name, base, bundle, tag, pending);
      RepinAllPhase(fm, p, front, name, bundle, tag, pending);
      var p1 := RepinAll(p, front, p.added[name], bundle, tag);
      LinesBehind(t0, p1, base, bundle, tag);
      RepinLineStep(fm, t0, p1, f, name, base, bundle, tag);
      LinesBehind(t0, Repin(p1, f, p.added[name], bundle, tag), base, bundle, tag);
      RepinKeepsAdded(p1, f, p.added[name], bundle, tag);
      LastSlug(fs);
    }
  }

  lemma LinesBehind(t0: Tables, p: Progress, base: nat, bundle: set<string>, tag: Tag)
    requires Repinned(t0, p, base, bundle, tag)
    ensures base <= |p.items|
  {
  }

  lemma RepinKeepsAdded(p: Progress, f: Form, id: nat, bundle: set<string>, tag: Tag)
    ensures Repin(p, f, id, bundle, tag).added == p.added
  {
  }

  /** The forms outside the bundle that name a workflow of the bundle with a new version all have a line. */
  ghost predicate Covered(t0: Tables, p: Progress, ws: seq<Workflow>, base: nat, bundle: set<string>)
    requires base <= |p.items|
  {
    forall s :: s in t0.forms.current && s !in bundle ==>
      Definition(t0.forms, s).workflow in WorkflowSlugs(ws) && Definition(t0.forms, s).workflow in p.added ==>
        s in Slugs(p.items[base..])
  }

  lemma {:induction false} RepinLines(fm: T.Formats, t0: Tables, p: Progress, ws: seq<Workflow>, base: nat,
        bundle: set<string>, tag: Tag)
    requires StoreOk(fm, t0) && RowsOk(fm, p.t) && Repinned(t0, p, base, bundle, tag) && Minted(t0, p)
    requires PinsOk(p.t, bundle, p.added.Keys) && forall i :: 0 <= i < |ws| ==> ws[i].slug != ""
    ensures var p' := RepinWorkflows(p, ws, bundle, tag);
            Repinned(t0, p', base, bundle, tag) && p.items <= p'.items && OthersIn(p.t, p'.t, bundle) &&
            Covered(t0, p', ws, base, bundle)
    decreases |ws|
  {
    hide StoreOk, RowsOk, PinsOk, Repinned, RepinWorkflow, Definition, Slugs;
    LinesBehind(t0, p, base, bundle, tag);
    if ws == [] {
      assert WorkflowSlugs(ws) == {};
    } else {
      var front, w := ws[..|ws| - 1], ws[|ws| - 1];
      RepinLines(fm, t0, p, front, base, bundle, tag);
      RepinPhase(fm, p, front, bundle, tag);
      var p1 := RepinWorkflows(p, front, bundle, tag);
      RepinWorkflowLines(fm, t0, p1, w, base, bundle, tag, p.added.Keys - WorkflowSlugs(front));
      LastWorkflowSlug(ws);
    }
  }

  /** The bundle's own forms stay. */
  ghost predicate OthersIn(t: Tables, t': Tables, bundle: set<string>) {
    t'.workflows == t.workflows && t.forms.rows <= t'.forms.rows &&
    forall s :: s in bundle && s in t.forms.current ==>
      s in t'.forms.current && t'.forms.current[s] == t.forms.current[s]
  }

  lemma RepinWorkflowLines(fm: T.Formats, t0: Tables, p: Progress, w: Workflow, base: nat, bundle: set<string>,
        tag: Tag, pending: set<string>)
    requires StoreOk(fm, t0) && RowsOk(fm, p.t) && Repinned(t0, p, base, bundle, tag) && Minted(t0, p)
    requires PinsOk(p.t, bundle, pending) && w.slug != ""
    ensures var p' := RepinWorkflow(p, w, bundle, tag);
            Repinned(t0, p', base, bundle, tag) && p.items <= p'.items && p'.added == p.added &&
            OthersIn(p.t, p'.t, bundle) && base <= |p.items| && Slugs(p.items[base..]) <= Slugs(p'.items[base..]) &&
            forall s :: s in t0.forms.current && s !in bundle ==>
              Definition(t0.forms, s).workflow == w.slug && w.slug in p.added ==> s in Slugs(p'.items[base..])
  {
    hide StoreOk, RowsOk, PinsOk, Repinned, RepinAll, Definition, Dependents, Slugs;
    LinesBehind(t0, p, base, bundle, tag);
    if w.slug in p.added {
      var deps := Dependents(p.t.forms, w.slug);
      DependentsAre(fm, p.t, w.slug);
      RepinAllLines(fm, t0, p, deps, w.slug, base, bundle, tag, pending);
      StoreRows(fm, t0);
      forall s | s in t0.forms.current && s !in bundle && Definition(t0.forms, s).workflow == w.slug
        ensures s in FormSlugs(deps)
      {
        StillThere(fm, t0, p, base, bundle, tag, s);
      }
    }
  }

  // ---- the whole call --------------------------------------------------------------------------------------

  lemma AddedIsMinted(t0: Tables, p: Progress, ws: seq<Workflow>)
    requires OnlyAdded(t0.workflows, p.t.workflows, p.added) && |ws| <= |p.items|
    requires forall i :: 0 <= i < |ws| ==> WorkflowLine(t0, p.t, ws[i], p.items[i])
    requires forall s :: s in p.added ==> Moved(ws, p.items, s)
    ensures Minted(t0, p)
  {
    hide WorkflowToDict;
    forall s | s in p.added ensures p.added[s] >= |t0.workflows.rows| {
      var i :| 0 <= i < |ws| && ws[i].slug == s && p.items[i].changed;
      assert WorkflowLine(t0, p.t, ws[i], p.items[i]);
    }
  }

  lemma MovedInPrefix(ws: seq<Workflow>, items: seq<Item>, more: seq<Item>, slug: string)
    requires |ws| <= |items| && items <= more
    ensures Moved(ws, items, slug) <==> Moved(ws, more, slug)
  {
    if Moved(ws, items, slug) {
      var i :| 0 <= i < |ws| && ws[i].slug == slug && items[i].changed;
      assert more[i].changed;
    }
    if Moved(ws, more, slug) {
      var i :| 0 <= i < |ws| && ws[i].slug == slug && more[i].changed;
      assert items[i].changed;
    }
  }

  /** The lines of the bundle, for what the first two phases have made of the tables. */
  ghost predicate BundleLines(t0: Tables, p: Progress, inp: Input) {
    |p.items| >= |inp.workflows| + |inp.forms| &&
    (forall i :: 0 <= i < |inp.workflows| ==> WorkflowLine(t0, p.t, inp.workflows[i], p.items[i])) &&
    (forall i :: 0 <= i < |inp.forms| ==> FormLine(t0, p.t, inp.forms[i], p.items[|inp.workflows| + i])) &&
    forall s :: s in p.added <==> Moved(inp.workflows, p.items, s)
  }

  lemma BundlePhases(fm: T.Formats, t: Tables, inp: Input)
    requires StoreOk(fm, t) && InputOk(fm, t, inp)
    ensures var tag, ws, fs := TagOf(inp), inp.workflows, inp.forms;
            var p := ApplyForms(ApplyWorkflows(Progress(t, [], map[]), ws, tag), fs, tag);
            RowsOk(fm, p.t) && PinsOk(p.t, FormSlugs(fs), p.added.Keys) && Minted(t, p) && BundleLines(t, p, inp) &&
            |p.items| == |ws| + |fs| && Grown(t.workflows, p.t.workflows, WorkflowSlugs(ws), tag) &&
            Grown(t.forms, p.t.forms, FormSlugs(fs), tag)
  {
    hide RowsOk, PinsOk, WorkflowOkAt, FormOkAt, ApplyWorkflows, ApplyForms, Grown, WorkflowLine, FormLine, OnlyAdded,
         WorkflowStored, FormStored, FormNameOk, Moved, Minted, WorkflowSlugs, FormSlugs;
    var tag, ws, fs := TagOf(inp), inp.workflows, inp.forms;
    var p1 := ApplyWorkflows(Progress(t, [], map[]), ws, tag);
    WorkflowsPhase(fm, t, ws, tag);
    WorkflowLines(fm, t, ws, tag);
    PendingAfterWorkflows(t, p1.t, p1.added);
    NamesResolve(fm, t, inp);
    var p2 := ApplyForms(p1, fs, tag);
    FormsPhase(fm, p1, fs, tag, p1.added.Keys);
    FormLines(fm, t, p1, fs, tag, p1.added.Keys);
    forall s ensures s in p2.added <==> Moved(ws, p2.items, s) { MovedInPrefix(ws, p1.items, p2.items, s); }
    forall i | 0 <= i < |ws| ensures WorkflowLine(t, p2.t, ws[i], p2.items[i]) {
      assert WorkflowLine(t, p1.t, ws[i], p1.items[i]);
      SameWorkflows(t, p1.t, p2.t, ws[i], p1.items[i]);
    }
    AddedIsMinted(t, p2, ws);
  }

  lemma SameWorkflows(t0: Tables, t: Tables, t': Tables, w: Workflow, item: Item)
    requires WorkflowLine(t0, t, w, item) && t'.workflows == t.workflows
    ensures WorkflowLine(t0, t', w, item)
  {
    hide Line, WorkflowToDict;
  }

  lemma LinesStay(t0: Tables, p: Progress, p': Progress, inp: Input)
    requires BundleLines(t0, p, inp) && p.items <= p'.items && p'.added == p.added
    requires OthersIn(p.t, p'.t, FormSlugs(inp.forms))
    ensures BundleLines(t0, p', inp)
  {
    hide WorkflowLine, FormLine, Moved;
    var ws, fs := inp.workflows, inp.forms;
    forall s ensures s in p'.added <==> Moved(ws, p'.items, s) { MovedInPrefix(ws, p.items, p'.items, s); }
    forall i | 0 <= i < |ws| ensures WorkflowLine(t0, p'.t, ws[i], p'.items[i]) {
      assert WorkflowLine(t0, p.t, ws[i], p.items[i]);
      SameWorkflows(t0, p.t, p'.t, ws[i], p.items[i]);
    }
    forall i | 0 <= i < |fs| ensures FormLine(t0, p'.t, fs[i], p'.items[|ws| + i]) {
      assert FormLine(t0, p.t, fs[i], p.items[|ws| + i]) && fs[i].slug in FormSlugs(fs);
      BundleFormStays(t0, p.t, p'.t, fs[i], p.items[|ws| + i]);
    }
  }

  lemma BundleFormStays(t0: Tables, t: Tables, t': Tables, f: Form, item: Item)
    requires FormLine(t0, t, f, item) && OthersIn(t, t', {f.slug})
    ensures FormLine(t0, t', f, item)
  {
    hide FormToDict, Line;
    var pin := if f.workflow == "" then None else Some(t.workflows.current[f.workflow]);
    LineHolds(t0.forms, t.forms, FormKind, f.slug, FormToDict(f), pin, item);
    LineStays(t0.forms, t.forms, t'.forms, FormKind, f.slug, FormToDict(f), pin, item);
  }

  lemma NothingRepinned(t0: Tables, p: Progress, bundle: set<string>, tag: Tag)
    requires Grown(t0.forms, p.t.forms, bundle, tag)
    ensures Repinned(t0, p, |p.items|, bundle, tag)
  {
    hide Grown;
    assert Slugs(p.items[|p.items|..]) == {};
    assert bundle + {} == bundle;
  }

  /** The tables and the report of an accepted call, said from the tables before it: the bundle's workflows, its forms,
      and one line for each form outside it that names a workflow with a new version; all else stays, and every new
      row is current and carries the call's tag. */
  lemma ApplyIs(fm: T.Formats, t: Tables, inp: Input)
    requires StoreOk(fm, t) && InputOk(fm, t, inp)
    ensures var p, ws, fs := Applied(t, inp), inp.workflows, inp.forms;
            var base, bundle := |ws| + |fs|, FormSlugs(fs);
            var tag := Tag(if inp.tag.source == "" then "api" else inp.tag.source, inp.tag.actor);
            BundleLines(t, p, inp) && Repinned(t, p, base, bundle, tag) &&
            (forall s :: s in t.forms.current && s !in bundle && Moved(ws, p.items, Definition(t.forms, s).workflow) ==>
              s in Slugs(p.items[base..])) &&
            Grown(t.workflows, p.t.workflows, WorkflowSlugs(ws), tag)
  {
    hide RowsOk, PinsOk, WorkflowOkAt, FormOkAt, ApplyWorkflows, ApplyForms, RepinWorkflows, Grown, WorkflowLine,
         FormLine, RepinLine, Definition, Slugs, Minted, Repinned;
    var tag, ws, fs, bundle := TagOf(inp), inp.workflows, inp.forms, FormSlugs(inp.forms);
    BundlePhases(fm, t, inp);
    var p := ApplyForms(ApplyWorkflows(Progress(t, [], map[]), ws, tag), fs, tag);
    forall i | 0 <= i < |ws| ensures ws[i].slug != "" {
      assert WorkflowOkAt(fm, ws, i);
      SlugIsNotEmpty(fm, ws, i);
    }
    NothingRepinned(t, p, bundle, tag);
    RepinLines(fm, t, p, ws, |p.items|, bundle, tag);
    MintedIsCurrent(t, p);
    RepinPhase(fm, p, ws, bundle, tag);
    var p' := RepinWorkflows(p, ws, bundle, tag);
    LinesStay(t, p, p', inp);
    forall s | Moved(ws, p'.items, s) ensures s in WorkflowSlugs(ws) {}
  }

  lemma MintedIsCurrent(t0: Tables, p: Progress)
    requires Minted(t0, p)
    ensures forall s :: s in p.added ==> s in p.t.workflows.current && p.t.workflows.current[s] == p.added[s]
  {
  }
}
