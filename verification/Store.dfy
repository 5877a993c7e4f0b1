/** The definition store: applying a bundle upserts workflows, then forms, then pins the dependent forms anew. */
module Store {
  import opened Common
  import opened JsonValues
  import opened Definitions
  import opened DefinitionRules
  import opened Problems
  import opened DefinitionJson
  import opened VersionTable
  import opened Ordering
  import T = Text

  datatype Tables = Tables(workflows: Table, forms: Table)

  datatype Input = Input(forms: seq<Form>, workflows: seq<Workflow>, tag: Tag)

  datatype Error = Invalid(problems: seq<Problem>) | NotFound

  /** The state of a run of apply: the tables, the report, and the ids of the workflow versions that it has added. */
  datatype Progress = Progress(t: Tables, items: seq<Item>, added: map<string, nat>)

  // ---- what a call does, as a function of the tables ------------------------------------------------------

  function WorkflowSlugs(ws: seq<Workflow>): set<string> {
    set i | 0 <= i < |ws| :: ws[i].slug
  }

  function FormSlugs(fs: seq<Form>): set<string> {
    set i | 0 <= i < |fs| :: fs[i].slug
  }

  ghost predicate WorkflowOkAt(fm: T.Formats, ws: seq<Workflow>, i: nat)
    requires i < |ws|
  {
    ValidWorkflow(fm, ws[i]) && forall j :: 0 <= j < i ==> ws[j].slug != ws[i].slug
  }

  ghost predicate FormOkAt(fm: T.Formats, fs: seq<Form>, i: nat)
    requires i < |fs|
  {
    ValidForm(fm, fs[i]) && forall j :: 0 <= j < i ==> fs[j].slug != fs[i].slug
  }

  ghost predicate DefinitionsOk(fm: T.Formats, inp: Input) {
    (forall i :: 0 <= i < |inp.workflows| ==> WorkflowOkAt(fm, inp.workflows, i)) &&
    (forall i :: 0 <= i < |inp.forms| ==> FormOkAt(fm, inp.forms, i))
  }

  /** Every named workflow exists or comes with the bundle. */
  ghost predicate NamesOk(t: Tables, inp: Input) {
    forall i :: 0 <= i < |inp.forms| && inp.forms[i].workflow != "" ==>
      inp.forms[i].workflow in t.workflows.current || inp.forms[i].workflow in WorkflowSlugs(inp.workflows)
  }

  ghost predicate InputOk(fm: T.Formats, t: Tables, inp: Input) {
    DefinitionsOk(fm, inp) && NamesOk(t, inp)
  }

  function PinFor(t: Table, workflow: string): Option<nat> {
    if workflow == "" || workflow !in t.current then None else Some(t.current[workflow])
  }

  function ApplyWorkflow(p: Progress, w: Workflow, tag: Tag): Progress {
    var (t, item, id) := Upsert(p.t.workflows, WorkflowKind, w.slug, WorkflowToDict(w), None, tag);
    Progress(p.t.(workflows := t), p.items + [item], if item.changed then p.added[w.slug := id] else p.added)
  }

  function ApplyWorkflows(p: Progress, ws: seq<Workflow>, tag: Tag): Progress
    decreases |ws|
  {
    if ws == [] then p else ApplyWorkflow(ApplyWorkflows(p, ws[..|ws| - 1], tag), ws[|ws| - 1], tag)
  }

  function ApplyForm(p: Progress, f: Form, tag: Tag): Progress {
    var (t, item, _) := Upsert(p.t.forms, FormKind, f.slug, FormToDict(f), PinFor(p.t.workflows, f.workflow), tag);
    p.(t := p.t.(forms := t), items := p.items + [item])
  }

  function ApplyForms(p: Progress, fs: seq<Form>, tag: Tag): Progress
    decreases |fs|
  {
    if fs == [] then p else ApplyForm(ApplyForms(p, fs[..|fs| - 1], tag), fs[|fs| - 1], tag)
  }

  function Definition(t: Table, slug: string): Form {
    FormFromDict(if t.Current(slug).Some? then t.Current(slug).value.doc else Null)
  }

  function Naming(t: Table, slugs: seq<string>, workflow: string): seq<Form> {
    if slugs == [] then []
    else
      var f := Definition(t, slugs[|slugs| - 1]);
      Naming(t, slugs[..|slugs| - 1], workflow) + if f.workflow == workflow then [f] else []
  }

  /** The current forms that name a workflow, sorted by slug. */
  ghost function Dependents(t: Table, workflow: string): seq<Form> {
    Naming(t, Sorted([], t.current.Keys), workflow)
  }

  function Repin(p: Progress, f: Form, id: nat, bundle: set<string>, tag: Tag): Progress {
    if f.slug in bundle then p
    else
      var (t, item, _) := Upsert(p.t.forms, FormKind, f.slug, FormToDict(f), Some(id), tag);
      p.(t := p.t.(forms := t), items := p.items + if item.changed then [item] else [])
  }

  function RepinAll(p: Progress, fs: seq<Form>, id: nat, bundle: set<string>, tag: Tag): Progress
    decreases |fs|
  {
    if fs == [] then p else Repin(RepinAll(p, fs[..|fs| - 1], id, bundle, tag), fs[|fs| - 1], id, bundle, tag)
  }

  ghost function RepinWorkflow(p: Progress, w: Workflow, bundle: set<string>, tag: Tag): Progress {
    if w.slug !in p.added then p
    else RepinAll(p, Dependents(p.t.forms, w.slug), p.added[w.slug], bundle, tag)
  }

  ghost function RepinWorkflows(p: Progress, ws: seq<Workflow>, bundle: set<string>, tag: Tag): Progress
    decreases |ws|
  {
    if ws == [] then p
    else RepinWorkflow(RepinWorkflows(p, ws[..|ws| - 1], bundle, tag), ws[|ws| - 1], bundle, tag)
  }

  /** Without a source, the call came through the API. */
  function TagOf(inp: Input): Tag {
    if inp.tag.source == "" then inp.tag.(source := "api") else inp.tag
  }

  ghost function Applied(t: Tables, inp: Input): Progress {
    var p1 := ApplyWorkflows(Progress(t, [], map[]), inp.workflows, TagOf(inp));
    var p2 := ApplyForms(p1, inp.forms, TagOf(inp));
    RepinWorkflows(p2, inp.workflows, FormSlugs(inp.forms), TagOf(inp))
  }

  function FormsAt(t: Table, slugs: seq<string>): (fs: seq<Form>)
    ensures |fs| == |slugs|
  {
    if slugs == [] then [] else FormsAt(t, slugs[..|slugs| - 1]) + [Definition(t, slugs[|slugs| - 1])]
  }

  function WorkflowsAt(t: Table, slugs: seq<string>): (ws: seq<Workflow>)
    ensures |ws| == |slugs|
  {
    if slugs == [] then [] else WorkflowsAt(t, slugs[..|slugs| - 1]) + [WorkflowDefinition(t, slugs[|slugs| - 1])]
  }

  ghost function CurrentForms(t: Table): seq<Form> {
    FormsAt(t, Sorted([], t.current.Keys))
  }

  ghost function CurrentWorkflows(t: Table): seq<Workflow> {
    WorkflowsAt(t, Sorted([], t.current.Keys))
  }

  /** The current definitions, sorted by slug. */
  ghost function Export(t: Tables, tag: Tag): Input {
    Input(CurrentForms(t.forms), CurrentWorkflows(t.workflows), tag)
  }

  function WorkflowDefinition(t: Table, slug: string): Workflow {
    WorkflowFromDict(if t.Current(slug).Some? then t.Current(slug).value.doc else Null)
  }

  // ---- what the store keeps ---------------------------------------------------------------------------------

  /** A stored document is what writing its definition gives, and the definition is valid. */
  ghost predicate FormRowOk(fm: T.Formats, row: Row) {
    var f := FormFromDict(row.doc);
    FormToDict(f) == row.doc && f.slug == row.slug && ValidForm(fm, f)
  }

  ghost predicate WorkflowRowOk(fm: T.Formats, row: Row) {
    var w := WorkflowFromDict(row.doc);
    WorkflowToDict(w) == row.doc && w.slug == row.slug && ValidWorkflow(fm, w) && row.pin == None
  }

  ghost predicate RowsOk(fm: T.Formats, t: Tables) {
    TableOk(t.workflows) && TableOk(t.forms) &&
    (forall i :: 0 <= i < |t.workflows.rows| ==> WorkflowRowOk(fm, t.workflows.rows[i])) &&
    (forall i :: 0 <= i < |t.forms.rows| ==> FormRowOk(fm, t.forms.rows[i]))
  }

  /** The form names no workflow or an existing one, and is pinned to that one's current version. */
  ghost predicate PinOk(t: Tables, slug: string) {
    slug in t.forms.current && t.forms.Current(slug).Some? &&
    t.forms.Current(slug).value.pin == PinFor(t.workflows, Definition(t.forms, slug).workflow)
  }

  ghost predicate NameOk(t: Tables, slug: string) {
    var name := Definition(t.forms, slug).workflow; name == "" || name in t.workflows.current
  }

  /** Every form is pinned, but for those outside `done` that name a workflow of `pending`. */
  ghost predicate PinsOk(t: Tables, done: set<string>, pending: set<string>) {
    forall slug :: slug in t.forms.current ==>
      NameOk(t, slug) && (PinOk(t, slug) || (slug !in done && Definition(t.forms, slug).workflow in pending))
  }

  ghost predicate StoreOk(fm: T.Formats, t: Tables) {
    RowsOk(fm, t) && PinsOk(t, {}, {})
  }

  // ---- one upsert of each kind ------------------------------------------------------------------------------

  lemma RowsAfter(t: Table, kind: Kind, slug: string, doc: Json, pin: Option<nat>, tag: Tag)
    ensures var t' := Upsert(t, kind, slug, doc, pin, tag).0;
            t'.rows == t.rows || t'.rows == t.rows + [Row(slug, NextVersion(t, slug), doc, pin, tag)]
  {
  }

  lemma UpsertWorkflowKeeps(fm: T.Formats, t: Tables, w: Workflow, tag: Tag)
    requires RowsOk(fm, t) && ValidWorkflow(fm, w)
    ensures RowsOk(fm, t.(workflows := Upsert(t.workflows, WorkflowKind, w.slug, WorkflowToDict(w), None, tag).0))
  {
    hide TableOk, Upsert, WorkflowToDict, WorkflowFromDict, ValidWorkflow, FormRowOk;
    UpsertKeepsTable(t.workflows, WorkflowKind, w.slug, WorkflowToDict(w), None, tag);
    RowsAfter(t.workflows, WorkflowKind, w.slug, WorkflowToDict(w), None, tag);
    WorkflowReadsBack(w);
  }

  lemma UpsertFormKeeps(fm: T.Formats, t: Tables, f: Form, pin: Option<nat>, tag: Tag)
    requires RowsOk(fm, t) && ValidForm(fm, f)
    ensures RowsOk(fm, t.(forms := Upsert(t.forms, FormKind, f.slug, FormToDict(f), pin, tag).0))
  {
    hide TableOk, Upsert, FormToDict, FormFromDict, ValidForm, WorkflowRowOk, Faithful;
    UpsertKeepsTable(t.forms, FormKind, f.slug, FormToDict(f), pin, tag);
    RowsAfter(t.forms, FormKind, f.slug, FormToDict(f), pin, tag);
    FormReadsBack(fm, f);
  }

  /** The current definition of a slug is valid, carries the slug, and writes as the stored document. */
  lemma CurrentDefinition(fm: T.Formats, t: Tables, slug: string)
    requires RowsOk(fm, t) && slug in t.forms.current
    ensures t.forms.Current(slug).Some?
    ensures var f := Definition(t.forms, slug);
            ValidForm(fm, f) && f.slug == slug && FormToDict(f) == t.forms.Current(slug).value.doc
  {
    hide History, HistoryOk, FormToDict, FormFromDict, ValidForm, WorkflowRowOk;
    assert SlugOk(t.forms, slug);
    assert FormRowOk(fm, t.forms.rows[t.forms.current[slug]]);
  }

  lemma CurrentWorkflow(fm: T.Formats, t: Tables, slug: string)
    requires RowsOk(fm, t) && slug in t.workflows.current
    ensures t.workflows.Current(slug).Some? && t.workflows.Current(slug).value.pin == None
    ensures var w := WorkflowDefinition(t.workflows, slug);
            ValidWorkflow(fm, w) && w.slug == slug && WorkflowToDict(w) == t.workflows.Current(slug).value.doc
  {
    hide History, HistoryOk, WorkflowToDict, WorkflowFromDict, ValidWorkflow, FormRowOk;
    assert SlugOk(t.workflows, slug);
    assert WorkflowRowOk(fm, t.workflows.rows[t.workflows.current[slug]]);
  }

  // ---- the workflows --------------------------------------------------------------------------------------------

  /** Only the slugs in `added` point to something else than before. */
  ghost predicate OnlyAdded(t0: Table, t: Table, added: map<string, nat>) {
    (forall s :: s in added ==> s in t.current && t.current[s] == added[s]) &&
    (forall s :: s in t0.current ==> s in t.current && (s !in added ==> t.current[s] == t0.current[s]))
  }

  ghost predicate WorkflowStored(t: Table, w: Workflow) {
    w.slug in t.current && t.Current(w.slug).Some? && t.Current(w.slug).value.doc == WorkflowToDict(w)
  }

  lemma NoneAdded(t: Table)
    ensures OnlyAdded(t, t, map[])
  {
  }

  lemma OnlyAddedStep(t0: Table, p: Progress, w: Workflow, tag: Tag)
    requires TableOk(p.t.workflows) && OnlyAdded(t0, p.t.workflows, p.added)
    ensures OnlyAdded(t0, ApplyWorkflow(p, w, tag).t.workflows, ApplyWorkflow(p, w, tag).added)
    ensures ApplyWorkflow(p, w, tag).added.Keys <= p.added.Keys + {w.slug}
  {
    hide TableOk, WorkflowToDict, Upsert;
    UpsertPoints(p.t.workflows, WorkflowKind, w.slug, WorkflowToDict(w), None, tag);
  }

  lemma {:induction false} WorkflowsPhase(fm: T.Formats, t0: Tables, ws: seq<Workflow>, tag: Tag)
    requires RowsOk(fm, t0) && forall i :: 0 <= i < |ws| ==> WorkflowOkAt(fm, ws, i)
    ensures var p := ApplyWorkflows(Progress(t0, [], map[]), ws, tag);
            RowsOk(fm, p.t) && p.t.forms == t0.forms && t0.workflows.rows <= p.t.workflows.rows &&
            OnlyAdded(t0.workflows, p.t.workflows, p.added) && p.added.Keys <= WorkflowSlugs(ws) &&
            forall i :: 0 <= i < |ws| ==> WorkflowStored(p.t.workflows, ws[i])
    decreases |ws|
  {
    hide RowsOk, ValidWorkflow, WorkflowToDict, Upsert, OnlyAdded, WorkflowSlugs;
    if ws == [] {
      NoneAdded(t0.workflows);
    } else {
      var front, w := ws[..|ws| - 1], ws[|ws| - 1];
      forall i | 0 <= i < |front| ensures WorkflowOkAt(fm, front, i) {
        assert WorkflowOkAt(fm, ws, i);
      }
      assert WorkflowOkAt(fm, ws, |front|);
      WorkflowsPhase(fm, t0, front, tag);
      var p := ApplyWorkflows(Progress(t0, [], map[]), front, tag);
      RowsOkTables(fm, p.t);
      UpsertWorkflowKeeps(fm, p.t, w, tag);
      UpsertPoints(p.t.workflows, WorkflowKind, w.slug, WorkflowToDict(w), None, tag);
      var p' := ApplyWorkflow(p, w, tag);
      OnlyAddedStep(t0.workflows, p, w, tag);
      forall i | 0 <= i < |ws| ensures WorkflowStored(p'.t.workflows, ws[i]) {
        if i < |front| {
          assert WorkflowStored(p.t.workflows, front[i]);
          assert ws[i].slug != w.slug;
        }
      }
      LastWorkflowSlug(ws);
    }
  }

  lemma RowsOkTables(fm: T.Formats, t: Tables)
    requires RowsOk(fm, t)
    ensures TableOk(t.workflows) && TableOk(t.forms)
  {
  }

  /** New workflow versions leave the pins of the other forms right. */
  lemma PendingAfterWorkflows(t0: Tables, t: Tables, added: map<string, nat>)
    requires PinsOk(t0, {}, {}) && t.forms == t0.forms && OnlyAdded(t0.workflows, t.workflows, added)
    ensures PinsOk(t, {}, added.Keys)
  {
    hide Definition;
    forall slug | slug in t.forms.current
      ensures NameOk(t, slug) && (PinOk(t, slug) || Definition(t.forms, slug).workflow in added.Keys)
    {
      assert NameOk(t0, slug) && PinOk(t0, slug);
    }
  }

  // ---- the forms ----------------------------------------------------------------------------------------------------

  ghost predicate FormStored(t: Tables, f: Form) {
    f.slug in t.forms.current && t.forms.Current(f.slug).Some? && t.forms.Current(f.slug).value.doc == FormToDict(f) &&
    t.forms.Current(f.slug).value.pin == PinFor(t.workflows, f.workflow)
  }

  ghost predicate FormNameOk(t: Table, f: Form) {
    f.workflow == "" || f.workflow in t.current
  }

  /** Upserting a form with its right pin pins it, and leaves the others. */
  lemma UpsertPins(fm: T.Formats, t: Tables, f: Form, tag: Tag, done: set<string>, pending: set<string>)
    requires RowsOk(fm, t) && ValidForm(fm, f) && FormNameOk(t.workflows, f) && PinsOk(t, done, pending)
    ensures var pin := PinFor(t.workflows, f.workflow);
            var t' := t.(forms := Upsert(t.forms, FormKind, f.slug, FormToDict(f), pin, tag).0);
            PinsOk(t', done + {f.slug}, pending) && FormStored(t', f) && t.forms.rows <= t'.forms.rows &&
            forall other :: other != f.slug && other in t.forms.current ==>
              other in t'.forms.current && t'.forms.Current(other) == t.forms.Current(other)
  {
    hide RowsOk, ValidForm, FormToDict, FormFromDict, Upsert, PinFor, Faithful;
    var pin := PinFor(t.workflows, f.workflow);
    RowsOkTables(fm, t);
    UpsertPoints(t.forms, FormKind, f.slug, FormToDict(f), pin, tag);
    FormReadsBack(fm, f);
    var t' := t.(forms := Upsert(t.forms, FormKind, f.slug, FormToDict(f), pin, tag).0);
    forall slug | slug in t'.forms.current
      ensures NameOk(t', slug) &&
              (PinOk(t', slug) || (slug !in done + {f.slug} && Definition(t'.forms, slug).workflow in pending))
    {
      if slug != f.slug {
        assert NameOk(t, slug);
        assert t'.forms.Current(slug) == t.forms.Current(slug);
      }
    }
  }

  lemma {:induction false} FormsPhase(fm: T.Formats, p: Progress, fs: seq<Form>, tag: Tag, pending: set<string>)
    requires RowsOk(fm, p.t) && PinsOk(p.t, {}, pending) && forall i :: 0 <= i < |fs| ==> FormOkAt(fm, fs, i)
    requires forall i :: 0 <= i < |fs| ==> FormNameOk(p.t.workflows, fs[i])
    ensures var p' := ApplyForms(p, fs, tag);
            RowsOk(fm, p'.t) && p'.t.workflows == p.t.workflows && p'.added == p.added &&
            p.t.forms.rows <= p'.t.forms.rows &&
            PinsOk(p'.t, FormSlugs(fs), pending) && forall i :: 0 <= i < |fs| ==> FormStored(p'.t, fs[i])
    decreases |fs|
  {
    hide RowsOk, ValidForm, FormToDict, Upsert, PinFor, PinsOk;
    if fs == [] {
      assert FormSlugs(fs) == {};
    } else {
      var front, f := fs[..|fs| - 1], fs[|fs| - 1];
      forall i | 0 <= i < |front| ensures FormOkAt(fm, front, i) && FormNameOk(p.t.workflows, front[i]) {
        assert FormOkAt(fm, fs, i) && front[i] == fs[i];
      }
      assert FormOkAt(fm, fs, |front|);
      FormsPhase(fm, p, front, tag, pending);
      var p1 := ApplyForms(p, front, tag);
      UpsertFormKeeps(fm, p1.t, f, PinFor(p1.t.workflows, f.workflow), tag);
      UpsertPins(fm, p1.t, f, tag, FormSlugs(front), pending);
      var p' := ApplyForm(p1, f, tag);
      assert FormSlugs(fs) == FormSlugs(front) + {f.slug} by { LastSlug(fs); }
      forall i | 0 <= i < |fs| ensures FormStored(p'.t, fs[i]) {
        if i < |front| {
          assert FormStored(p1.t, front[i]);
          assert fs[i].slug != f.slug;
        }
      }
    }
  }

  lemma LastSlug(fs: seq<Form>)
    requires fs != []
    ensures FormSlugs(fs) == FormSlugs(fs[..|fs| - 1]) + {fs[|fs| - 1].slug}
  {
    var front := fs[..|fs| - 1];
    forall s | s in FormSlugs(fs) ensures s in FormSlugs(front) + {fs[|fs| - 1].slug} {
      var i :| 0 <= i < |fs| && fs[i].slug == s;
      if i < |front| { assert front[i].slug == s; }
    }
    forall s | s in FormSlugs(front) ensures s in FormSlugs(fs) {
      var i :| 0 <= i < |front| && front[i].slug == s;
      assert fs[i].slug == s;
    }
    assert fs[|fs| - 1].slug in FormSlugs(fs);
  }

  // ---- pinning the dependent forms anew -----------------------------------------------------------------------

  /** The same forms with the same documents. */
  ghost predicate SameDocs(t: Table, t': Table) {
    t'.current.Keys == t.current.Keys &&
    forall s :: s in t.current ==> Definition(t', s) == Definition(t, s)
  }

  ghost predicate NamedBy(t: Tables, f: Form, workflow: string) {
    f.slug in t.forms.current && f == Definition(t.forms, f.slug) && f.workflow == workflow
  }

  lemma RepinStep(fm: T.Formats, p: Progress, f: Form, workflow: string, bundle: set<string>, tag: Tag,
        done: set<string>, pending: set<string>)
    requires RowsOk(fm, p.t) && PinsOk(p.t, bundle + done, pending) && NamedBy(p.t, f, workflow)
    requires workflow != "" && workflow in p.t.workflows.current
    ensures var p' := Repin(p, f, p.t.workflows.current[workflow], bundle, tag);
            RowsOk(fm, p'.t) && p'.t.workflows == p.t.workflows && p'.added == p.added &&
            p.t.forms.rows <= p'.t.forms.rows &&
            SameDocs(p.t.forms, p'.t.forms) && PinsOk(p'.t, bundle + (done + {f.slug}), pending) &&
            forall s :: s in bundle && s in p.t.forms.current ==> p'.t.forms.Current(s) == p.t.forms.Current(s)
  {
    hide RowsOk, ValidForm, FormToDict, FormFromDict, Upsert, PinsOk;
    assert bundle + (done + {f.slug}) == (bundle + done) + {f.slug};
    if f.slug in bundle {
      assert bundle + (done + {f.slug}) == bundle + done;
    } else {
      var id := p.t.workflows.current[workflow];
      assert PinFor(p.t.workflows, f.workflow) == Some(id);
      CurrentDefinition(fm, p.t, f.slug);
      RowsOkTables(fm, p.t);
      UpsertPoints(p.t.forms, FormKind, f.slug, FormToDict(f), Some(id), tag);
      UpsertFormKeeps(fm, p.t, f, Some(id), tag);
      UpsertPins(fm, p.t, f, tag, bundle + done, pending);
    }
  }

  lemma {:induction false} RepinAllPhase(fm: T.Formats, p: Progress, fs: seq<Form>, workflow: string,
        bundle: set<string>, tag: Tag, pending: set<string>)
    requires RowsOk(fm, p.t) && PinsOk(p.t, bundle, pending) &&
             forall i :: 0 <= i < |fs| ==> NamedBy(p.t, fs[i], workflow)
    requires workflow != "" && workflow in p.t.workflows.current
    ensures var p' := RepinAll(p, fs, p.t.workflows.current[workflow], bundle, tag);
            RowsOk(fm, p'.t) && p'.t.workflows == p.t.workflows && p'.added == p.added &&
            p.t.forms.rows <= p'.t.forms.rows &&
            SameDocs(p.t.forms, p'.t.forms) && PinsOk(p'.t, bundle + FormSlugs(fs), pending) &&
            forall s :: s in bundle && s in p.t.forms.current ==> p'.t.forms.Current(s) == p.t.forms.Current(s)
    decreases |fs|
  {
    hide RowsOk, PinsOk, Repin, Definition;
    if fs == [] {
      assert bundle + FormSlugs(fs) == bundle;
    } else {
      var front, f := fs[..|fs| - 1], fs[|fs| - 1];
      RepinAllPhase(fm, p, front, workflow, bundle, tag, pending);
      var p1 := RepinAll(p, front, p.t.workflows.current[workflow], bundle, tag);
      RepinStep(fm, p1, f, workflow, bundle, tag, FormSlugs(front), pending);
      LastSlug(fs);
    }
  }

  lemma {:induction false} NamingHolds(t: Table, slugs: seq<string>, workflow: string, i: nat) returns (s: string)
    requires i < |Naming(t, slugs, workflow)|
    ensures s in slugs && Naming(t, slugs, workflow)[i] == Definition(t, s) && Definition(t, s).workflow == workflow
  {
    hide Definition;
    var front := slugs[..|slugs| - 1];
    if i < |Naming(t, front, workflow)| {
      s := NamingHolds(t, front, workflow, i);
    } else {
      s := slugs[|slugs| - 1];
    }
  }

  lemma {:induction false} NamingFinds(t: Table, slugs: seq<string>, workflow: string, s: string)
    requires s in slugs && Definition(t, s).workflow == workflow
    ensures Definition(t, s) in Naming(t, slugs, workflow)
  {
    hide Definition;
    var front, last := slugs[..|slugs| - 1], slugs[|slugs| - 1];
    var mine := if Definition(t, last).workflow == workflow then [Definition(t, last)] else [];
    assert slugs == front + [last] && Naming(t, slugs, workflow) == Naming(t, front, workflow) + mine;
    if s == last {
      assert mine[0] == Definition(t, s);
    } else {
      NamingFinds(t, front, workflow, s);
    }
  }

  lemma DependentsAre(fm: T.Formats, t: Tables, workflow: string)
    requires RowsOk(fm, t)
    ensures forall i :: 0 <= i < |Dependents(t.forms, workflow)| ==>
              NamedBy(t, Dependents(t.forms, workflow)[i], workflow)
    ensures forall s :: s in t.forms.current && Definition(t.forms, s).workflow == workflow ==>
              s in FormSlugs(Dependents(t.forms, workflow))
  {
    hide RowsOk, Definition, Naming, ValidForm;
    var slugs := Sorted([], t.forms.current.Keys);
    var deps := Dependents(t.forms, workflow);
    forall i | 0 <= i < |deps| ensures NamedBy(t, deps[i], workflow) {
      var s := NamingHolds(t.forms, slugs, workflow, i);
      CurrentDefinition(fm, t, s);
    }
    forall s | s in t.forms.current && Definition(t.forms, s).workflow == workflow ensures s in FormSlugs(deps) {
      CurrentDefinition(fm, t, s);
      NamingFinds(t.forms, slugs, workflow, s);
      var i :| 0 <= i < |deps| && deps[i] == Definition(t.forms, s);
      assert deps[i].slug == s;
    }
  }

  lemma RepinWorkflowStep(fm: T.Formats, p: Progress, w: Workflow, bundle: set<string>, tag: Tag, pending: set<string>)
    requires RowsOk(fm, p.t) && PinsOk(p.t, bundle, pending) && w.slug != "" && pending <= p.added.Keys
    requires forall s :: s in p.added ==> s in p.t.workflows.current && p.t.workflows.current[s] == p.added[s]
    ensures var p' := RepinWorkflow(p, w, bundle, tag);
            RowsOk(fm, p'.t) && p'.t.workflows == p.t.workflows && p'.added == p.added &&
            p.t.forms.rows <= p'.t.forms.rows &&
            PinsOk(p'.t, bundle, pending - {w.slug}) &&
            forall s :: s in bundle && s in p.t.forms.current ==>
              s in p'.t.forms.current && p'.t.forms.Current(s) == p.t.forms.Current(s)
  {
    hide RowsOk, Dependents, RepinAll, Definition, NameOk, PinOk;
    if w.slug in p.added {
      var deps := Dependents(p.t.forms, w.slug);
      DependentsAre(fm, p.t, w.slug);
      RepinAllPhase(fm, p, deps, w.slug, bundle, tag, pending);
      var p' := RepinWorkflow(p, w, bundle, tag);
      forall s | s in p'.t.forms.current
        ensures NameOk(p'.t, s) &&
                (PinOk(p'.t, s) || (s !in bundle && Definition(p'.t.forms, s).workflow in pending - {w.slug}))
      {
        assert Definition(p'.t.forms, s) == Definition(p.t.forms, s);
      }
    }
  }

  lemma {:induction false} RepinPhase(fm: T.Formats, p: Progress, ws: seq<Workflow>, bundle: set<string>, tag: Tag)
    requires RowsOk(fm, p.t) && PinsOk(p.t, bundle, p.added.Keys) && forall i :: 0 <= i < |ws| ==> ws[i].slug != ""
    requires forall s :: s in p.added ==> s in p.t.workflows.current && p.t.workflows.current[s] == p.added[s]
    ensures var p' := RepinWorkflows(p, ws, bundle, tag);
            RowsOk(fm, p'.t) && p'.t.workflows == p.t.workflows && p'.added == p.added &&
            p.t.forms.rows <= p'.t.forms.rows &&
            PinsOk(p'.t, bundle, p.added.Keys - WorkflowSlugs(ws)) &&
            forall s :: s in bundle && s in p.t.forms.current ==>
              s in p'.t.forms.current && p'.t.forms.Current(s) == p.t.forms.Current(s)
    decreases |ws|
  {
    hide RowsOk, PinsOk, RepinWorkflow;
    if ws == [] {
      assert p.added.Keys - WorkflowSlugs(ws) == p.added.Keys;
    } else {
      var front, w := ws[..|ws| - 1], ws[|ws| - 1];
      RepinPhase(fm, p, front, bundle, tag);
      RepinWorkflowStep(fm, RepinWorkflows(p, front, bundle, tag), w, bundle, tag, p.added.Keys - WorkflowSlugs(front));
      LastWorkflowSlug(ws);
      assert p.added.Keys - WorkflowSlugs(ws) == (p.added.Keys - WorkflowSlugs(front)) - {w.slug};
    }
  }

  lemma LastWorkflowSlug(ws: seq<Workflow>)
    requires ws != []
    ensures WorkflowSlugs(ws) == WorkflowSlugs(ws[..|ws| - 1]) + {ws[|ws| - 1].slug}
  {
    var front := ws[..|ws| - 1];
    forall s | s in WorkflowSlugs(ws) ensures s in WorkflowSlugs(front) + {ws[|ws| - 1].slug} {
      var i :| 0 <= i < |ws| && ws[i].slug == s;
      if i < |front| { assert front[i].slug == s; }
    }
    forall s | s in WorkflowSlugs(front) ensures s in WorkflowSlugs(ws) {
      var i :| 0 <= i < |front| && front[i].slug == s;
      assert ws[i].slug == s;
    }
    assert ws[|ws| - 1].slug in WorkflowSlugs(ws);
  }

  // ---- the whole call -----------------------------------------------------------------------------------------------

  /** The bundle's definitions are the current ones, and its forms are pinned right. */
  ghost predicate Settled(t: Tables, inp: Input) {
    (forall i :: 0 <= i < |inp.workflows| ==> WorkflowStored(t.workflows, inp.workflows[i])) &&
    (forall i :: 0 <= i < |inp.forms| ==> FormStored(t, inp.forms[i]))
  }

  ghost predicate Extends(t: Tables, t': Tables) {
    t.workflows.rows <= t'.workflows.rows && t.forms.rows <= t'.forms.rows
  }

  /** The workflows that the forms name exist once the bundle's workflows are in. */
  lemma NamesResolve(fm: T.Formats, t: Tables, inp: Input)
    requires RowsOk(fm, t) && InputOk(fm, t, inp)
    ensures var p := ApplyWorkflows(Progress(t, [], map[]), inp.workflows, TagOf(inp));
            forall i :: 0 <= i < |inp.forms| ==> FormNameOk(p.t.workflows, inp.forms[i])
  {
    hide RowsOk, WorkflowOkAt, FormOkAt, ApplyWorkflows;
    WorkflowsPhase(fm, t, inp.workflows, TagOf(inp));
    var p := ApplyWorkflows(Progress(t, [], map[]), inp.workflows, TagOf(inp));
    forall i | 0 <= i < |inp.forms| ensures FormNameOk(p.t.workflows, inp.forms[i]) {
      var name := inp.forms[i].workflow;
      if name != "" && name !in t.workflows.current {
        var j :| 0 <= j < |inp.workflows| && inp.workflows[j].slug == name;
        assert WorkflowStored(p.t.workflows, inp.workflows[j]);
      }
    }
  }

  /** Applying keeps every pin right, changes no earlier row, and leaves the bundle settled. */
  lemma ApplyKeepsStore(fm: T.Formats, t: Tables, inp: Input)
    requires StoreOk(fm, t) && InputOk(fm, t, inp)
    ensures var t' := Applied(t, inp).t; StoreOk(fm, t') && Extends(t, t') && Settled(t', inp)
  {
    hide RowsOk, WorkflowOkAt, FormOkAt, ApplyWorkflows, ApplyForms, RepinWorkflows, PinsOk, FormToDict, WorkflowToDict,
         PinFor;
    var tag, ws, fs := TagOf(inp), inp.workflows, inp.forms;
    WorkflowsPhase(fm, t, ws, tag);
    var p1 := ApplyWorkflows(Progress(t, [], map[]), ws, tag);
    PendingAfterWorkflows(t, p1.t, p1.added);
    NamesResolve(fm, t, inp);
    FormsPhase(fm, p1, fs, tag, p1.added.Keys);
    var p2 := ApplyForms(p1, fs, tag);
    forall i | 0 <= i < |ws| ensures ws[i].slug != "" {
      assert WorkflowOkAt(fm, ws, i);
      SlugIsNotEmpty(fm, ws, i);
    }
    RepinPhase(fm, p2, ws, FormSlugs(fs), tag);
    var p3 := RepinWorkflows(p2, ws, FormSlugs(fs), tag);
    assert p2.added.Keys - WorkflowSlugs(ws) == {};
    AllPinned(p3.t, FormSlugs(fs));
    forall i | 0 <= i < |fs| ensures FormStored(p3.t, fs[i]) {
      assert FormStored(p2.t, fs[i]) && fs[i].slug in FormSlugs(fs);
    }
  }

  lemma SlugIsNotEmpty(fm: T.Formats, ws: seq<Workflow>, i: nat)
    requires i < |ws| && WorkflowOkAt(fm, ws, i)
    ensures ws[i].slug != ""
  {
    hide TransitionOk, StateOk, WorkflowFieldOk, AllActionsOk;
  }

  lemma AllPinned(t: Tables, done: set<string>)
    requires PinsOk(t, done, {})
    ensures PinsOk(t, {}, {})
  {
    hide PinOk, NameOk, Definition;
  }

  // ---- applying again -----------------------------------------------------------------------------------------------

  ghost predicate AllUnchanged(items: seq<Item>) {
    forall i :: 0 <= i < |items| ==> !items[i].changed && !items[i].created
  }

  lemma {:induction false} SettledWorkflows(fm: T.Formats, t: Tables, ws: seq<Workflow>, tag: Tag)
    requires RowsOk(fm, t) && forall i :: 0 <= i < |ws| ==> WorkflowStored(t.workflows, ws[i])
    ensures var p := ApplyWorkflows(Progress(t, [], map[]), ws, tag);
            p.t == t && p.added == map[] && |p.items| == |ws| && AllUnchanged(p.items)
    decreases |ws|
  {
    hide RowsOk, WorkflowToDict;
    if ws != [] {
      var front, w := ws[..|ws| - 1], ws[|ws| - 1];
      forall i | 0 <= i < |front| ensures WorkflowStored(t.workflows, front[i]) {
        assert WorkflowStored(t.workflows, ws[i]);
      }
      SettledWorkflows(fm, t, front, tag);
      assert WorkflowStored(t.workflows, w);
      CurrentWorkflow(fm, t, w.slug);
      assert Same(t.workflows, w.slug, WorkflowToDict(w), None);
    }
  }

  lemma {:induction false} SettledForms(p: Progress, fs: seq<Form>, tag: Tag)
    requires AllUnchanged(p.items) && forall i :: 0 <= i < |fs| ==> FormStored(p.t, fs[i])
    ensures var p' := ApplyForms(p, fs, tag);
            p'.t == p.t && p'.added == p.added && |p'.items| == |p.items| + |fs| && AllUnchanged(p'.items)
    decreases |fs|
  {
    hide FormToDict, PinFor;
    if fs != [] {
      var front, f := fs[..|fs| - 1], fs[|fs| - 1];
      forall i | 0 <= i < |front| ensures FormStored(p.t, front[i]) {
        assert FormStored(p.t, fs[i]);
      }
      SettledForms(p, front, tag);
      assert FormStored(p.t, f);
      assert Same(p.t.forms, f.slug, FormToDict(f), PinFor(p.t.workflows, f.workflow));
    }
  }

  lemma {:induction false} NothingToRepin(p: Progress, ws: seq<Workflow>, bundle: set<string>, tag: Tag)
    requires p.added == map[]
    ensures RepinWorkflows(p, ws, bundle, tag) == p
    decreases |ws|
  {
    if ws != [] {
      NothingToRepin(p, ws[..|ws| - 1], bundle, tag);
    }
  }

  /** A settled bundle creates no version and is reported unchanged, item by item. */
  lemma SettledChangesNothing(fm: T.Formats, t: Tables, inp: Input)
    requires RowsOk(fm, t) && Settled(t, inp)
    ensures var p := Applied(t, inp);
            p.t == t && AllUnchanged(p.items) && |p.items| == |inp.workflows| + |inp.forms|
  {
    hide RowsOk, WorkflowStored, FormStored, ApplyWorkflows, ApplyForms, RepinWorkflows;
    var tag := TagOf(inp);
    SettledWorkflows(fm, t, inp.workflows, tag);
    var p1 := ApplyWorkflows(Progress(t, [], map[]), inp.workflows, tag);
    SettledForms(p1, inp.forms, tag);
    NothingToRepin(ApplyForms(p1, inp.forms, tag), inp.workflows, FormSlugs(inp.forms), tag);
  }

  /** Applying the same bundle twice is applying it once. */
  lemma ApplyTwice(fm: T.Formats, t: Tables, inp: Input)
    requires StoreOk(fm, t) && InputOk(fm, t, inp)
    ensures var t' := Applied(t, inp).t;
            InputOk(fm, t', inp) && Applied(t', inp).t == t' && AllUnchanged(Applied(t', inp).items)
  {
    hide RowsOk, PinsOk, DefinitionsOk, Applied, Settled, Extends;
    ApplyKeepsStore(fm, t, inp);
    SettledChangesNothing(fm, Applied(t, inp).t, inp);
    StillNamed(fm, t, inp);
  }

  lemma StillNamed(fm: T.Formats, t: Tables, inp: Input)
    requires StoreOk(fm, t) && InputOk(fm, t, inp)
    ensures NamesOk(Applied(t, inp).t, inp)
  {
    hide RowsOk, ApplyWorkflows, ApplyForms, RepinWorkflows, PinsOk, WorkflowOkAt, FormOkAt;
    NamesResolve(fm, t, inp);
    KeepsWorkflows(fm, t, inp);
  }

  lemma KeepsWorkflows(fm: T.Formats, t: Tables, inp: Input)
    requires StoreOk(fm, t) && InputOk(fm, t, inp)
    ensures Applied(t, inp).t.workflows == ApplyWorkflows(Progress(t, [], map[]), inp.workflows, TagOf(inp)).t.workflows
  {
    hide RowsOk, ApplyWorkflows, ApplyForms, RepinWorkflows, PinsOk, WorkflowOkAt, FormOkAt;
    var tag, ws, fs := TagOf(inp), inp.workflows, inp.forms;
    WorkflowsPhase(fm, t, ws, tag);
    var p1 := ApplyWorkflows(Progress(t, [], map[]), ws, tag);
    PendingAfterWorkflows(t, p1.t, p1.added);
    NamesResolve(fm, t, inp);
    FormsPhase(fm, p1, fs, tag, p1.added.Keys);
    forall i | 0 <= i < |ws| ensures ws[i].slug != "" {
      assert WorkflowOkAt(fm, ws, i);
      SlugIsNotEmpty(fm, ws, i);
    }
    RepinPhase(fm, ApplyForms(p1, fs, tag), ws, FormSlugs(fs), tag);
  }

  lemma ExportIsSettled(fm: T.Formats, t: Tables, tag: Tag)
    requires StoreOk(fm, t)
    ensures var inp := Export(t, tag); InputOk(fm, t, inp) && Settled(t, inp)
  {
    hide StoreOk, WorkflowOkAt, FormOkAt, WorkflowStored, FormStored, FormsAt, WorkflowsAt, Sorted;
    var inp := Export(t, tag);
    forall i | 0 <= i < |inp.workflows|
      ensures WorkflowOkAt(fm, inp.workflows, i) && WorkflowStored(t.workflows, inp.workflows[i])
    {
      ExportedWorkflow(fm, t, tag, i);
    }
    forall i | 0 <= i < |inp.forms|
      ensures FormOkAt(fm, inp.forms, i) && FormStored(t, inp.forms[i]) && FormNameOk(t.workflows, inp.forms[i])
    {
      ExportedForm(fm, t, tag, i);
    }
  }

  /** An exported bundle is accepted, creates no version, and is reported unchanged. */
  lemma ApplyExport(fm: T.Formats, t: Tables, tag: Tag)
    requires StoreOk(fm, t)
    ensures var inp := Export(t, tag);
            InputOk(fm, t, inp) && Applied(t, inp).t == t && AllUnchanged(Applied(t, inp).items) &&
            |Applied(t, inp).items| == |t.workflows.current| + |t.forms.current|
  {
    hide RowsOk, PinsOk, InputOk, Applied, Settled, FormsAt, WorkflowsAt, AllUnchanged, Precedes;
    ExportIsSettled(fm, t, tag);
    SettledChangesNothing(fm, t, Export(t, tag));
  }

  lemma {:induction false} ReadAt(t: Table, slugs: seq<string>, i: nat)
    requires i < |slugs|
    ensures FormsAt(t, slugs)[i] == Definition(t, slugs[i]) &&
            WorkflowsAt(t, slugs)[i] == WorkflowDefinition(t, slugs[i])
  {
    hide Definition, WorkflowDefinition;
    if i < |slugs| - 1 {
      ReadAt(t, slugs[..|slugs| - 1], i);
    }
  }

  lemma ExportedWorkflow(fm: T.Formats, t: Tables, tag: Tag, i: nat)
    requires StoreOk(fm, t) && i < |Export(t, tag).workflows|
    ensures WorkflowOkAt(fm, Export(t, tag).workflows, i) && WorkflowStored(t.workflows, Export(t, tag).workflows[i])
  {
    hide RowsOk, ValidWorkflow, WorkflowToDict, WorkflowFromDict, Precedes, Sorted;
    var slugs, ws := Sorted([], t.workflows.current.Keys), Export(t, tag).workflows;
    SortedAscends([], t.workflows.current.Keys);
    forall j | 0 <= j <= i ensures ws[j].slug == slugs[j] {
      ReadAt(t.workflows, slugs, j);
      assert slugs[j] in slugs;
      CurrentWorkflow(fm, t, slugs[j]);
    }
    ReadAt(t.workflows, slugs, i);
    assert slugs[i] in slugs;
    CurrentWorkflow(fm, t, slugs[i]);
  }

  lemma ExportedForm(fm: T.Formats, t: Tables, tag: Tag, i: nat)
    requires StoreOk(fm, t) && i < |Export(t, tag).forms|
    ensures var f := Export(t, tag).forms[i];
            FormOkAt(fm, Export(t, tag).forms, i) && FormStored(t, f) && FormNameOk(t.workflows, f)
  {
    hide RowsOk, ValidForm, FormToDict, FormFromDict, Precedes, Sorted, PinFor;
    var slugs, fs := Sorted([], t.forms.current.Keys), Export(t, tag).forms;
    SortedAscends([], t.forms.current.Keys);
    forall j | 0 <= j <= i ensures fs[j].slug == slugs[j] {
      ReadAt(t.forms, slugs, j);
      assert slugs[j] in slugs;
      CurrentDefinition(fm, t, slugs[j]);
    }
    ReadAt(t.forms, slugs, i);
    assert slugs[i] in slugs;
    CurrentDefinition(fm, t, slugs[i]);
    assert NameOk(t, slugs[i]) && PinOk(t, slugs[i]);
  }

  // ---- runs ---------------------------------------------------------------------------------------------------------

  datatype Call = Call(inp: Input, dryRun: bool)

  ghost function Next(fm: T.Formats, t: Tables, c: Call): Tables {
    if InputOk(fm, t, c.inp) && !c.dryRun then Applied(t, c.inp).t else t
  }

  ghost function Run(fm: T.Formats, t: Tables, calls: seq<Call>): Tables
    decreases |calls|
  {
    if calls == [] then t else Run(fm, Next(fm, t, calls[0]), calls[1..])
  }

  const NOTHING := Tables(EMPTY, EMPTY)

  lemma EmptyStoreOk(fm: T.Formats)
    ensures StoreOk(fm, NOTHING)
  {
  }

  /** After any sequence of calls every form is pinned to the current version of the workflow that it names, the
      versions of every slug are numbered without gap and differ from one to the next, and no row has changed. */
  lemma {:induction false} EveryRun(fm: T.Formats, t: Tables, calls: seq<Call>)
    requires StoreOk(fm, t)
    ensures StoreOk(fm, Run(fm, t, calls)) && Extends(t, Run(fm, t, calls))
    decreases |calls|
  {
    hide StoreOk, InputOk, Applied, Settled;
    if calls != [] {
      var c := calls[0];
      if InputOk(fm, t, c.inp) && !c.dryRun { ApplyKeepsStore(fm, t, c.inp); }
      EveryRun(fm, Next(fm, t, c), calls[1..]);
    }
  }

  /** Dry runs leave every table as it was, however many there are. */
  lemma {:induction false} DryRunsLeaveTheStore(fm: T.Formats, t: Tables, calls: seq<Call>)
    requires forall i :: 0 <= i < |calls| ==> calls[i].dryRun
    ensures Run(fm, t, calls) == t
    decreases |calls|
  {
    hide InputOk, Applied;
    if calls != [] { DryRunsLeaveTheStore(fm, t, calls[1..]); }
  }

  /** Only the real calls count: a run leaves what it leaves without its dry calls. */
  lemma {:induction false} OnlyRealCallsCount(fm: T.Formats, t: Tables, calls: seq<Call>)
    ensures Run(fm, t, calls) == Run(fm, t, RealCalls(calls))
    ensures forall c :: c in RealCalls(calls) <==> c in calls && !c.dryRun
    decreases |calls|
  {
    hide InputOk, Applied;
    if calls != [] {
      OnlyRealCallsCount(fm, Next(fm, t, calls[0]), calls[1..]);
      assert ([calls[0]] + RealCalls(calls[1..]))[1..] == RealCalls(calls[1..]);
      assert [] + RealCalls(calls[1..]) == RealCalls(calls[1..]);
    }
  }

  function RealCalls(calls: seq<Call>): seq<Call> {
    if calls == [] then [] else (if calls[0].dryRun then [] else [calls[0]]) + RealCalls(calls[1..])
  }

  /** A real call that is accepted leaves the tables of its three phases; a refused one leaves everything. */
  lemma RealCallIs(fm: T.Formats, t: Tables, inp: Input)
    ensures Run(fm, t, [Call(inp, false)]) == if InputOk(fm, t, inp) then Applied(t, inp).t else t
  {
    hide InputOk, Applied;
    assert [Call(inp, false)][1..] == [];
  }

  lemma EveryRunFromNothing(fm: T.Formats, calls: seq<Call>)
    ensures StoreOk(fm, Run(fm, NOTHING, calls))
  {
    hide StoreOk, Next;
    EmptyStoreOk(fm);
    EveryRun(fm, NOTHING, calls);
  }
}
