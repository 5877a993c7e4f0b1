/** The store's methods, which write its tables in place and cache the versions that they have looked up. */
module DefinitionStore {
  import opened Common
  import opened Definitions
  import opened DefinitionRules
  import opened DefinitionJson
  import opened VersionTable
  import opened Ordering
  import opened Problems
  import opened Store
  import opened Validators
  import T = Text

  datatype FormRecord = FormRecord(slug: string, version: nat, pin: Option<nat>, definition: Form)

  datatype WorkflowRecord = WorkflowRecord(slug: string, version: nat, definition: Workflow)

  function FormRecordOf(row: Row): FormRecord {
    FormRecord(row.slug, row.version, row.pin, FormFromDict(row.doc))
  }

  function WorkflowRecordOf(row: Row): WorkflowRecord {
    WorkflowRecord(row.slug, row.version, WorkflowFromDict(row.doc))
  }

  // ---- bundles ------------------------------------------------------------------------------------------

  /** A workflow of a bundle: its own problems, then whether its slug has occurred before it. */
  function BundledWorkflow(fm: T.Formats, ws: seq<Workflow>): nat -> seq<Problem> {
    (i: nat) =>
      if i >= |ws| then []
      else WorkflowEntry(fm, i, ws[i], exists j :: 0 <= j < i && ws[j].slug == ws[i].slug)
  }

  function WorkflowEntry(fm: T.Formats, i: nat, w: Workflow, used: bool): (ps: seq<Problem>)
    ensures ps == [] <==> ValidWorkflow(fm, w) && !used
  {
    hide WorkflowProblems, ValidWorkflow;
    WorkflowDecides(fm, w);
    Joined(At("workflows", i), WorkflowProblems(fm, w)) +
    When(used, At("workflows", i) + ".slug", "duplicate workflow slug " + Quote(w.slug))
  }

  /** A form of a bundle: the same, and whether the workflow that it names is known. */
  function BundledForm(fm: T.Formats, fs: seq<Form>, known: set<string>): nat -> seq<Problem> {
    (i: nat) =>
      if i >= |fs| then []
      else FormEntry(fm, i, fs[i], exists j :: 0 <= j < i && fs[j].slug == fs[i].slug, known)
  }

  function FormEntry(fm: T.Formats, i: nat, f: Form, used: bool, known: set<string>): (ps: seq<Problem>)
    ensures ps == [] <==> ValidForm(fm, f) && !used && (f.workflow == "" || f.workflow in known)
  {
    hide FormProblems, ValidForm;
    FormDecides(fm, f);
    Joined(At("forms", i), FormProblems(fm, f)) +
    When(used, At("forms", i) + ".slug", "duplicate form slug " + Quote(f.slug)) +
    When(f.workflow != "" && f.workflow !in known, At("forms", i) + ".workflow",
         "unknown workflow " + Quote(f.workflow))
  }

  function BundleProblems(fm: T.Formats, fs: seq<Form>, ws: seq<Workflow>, existing: set<string>): seq<Problem> {
    Collect(BundledWorkflow(fm, ws), |ws|) + Collect(BundledForm(fm, fs, existing + WorkflowSlugs(ws)), |fs|)
  }

  lemma BundleDecides(fm: T.Formats, fs: seq<Form>, ws: seq<Workflow>, existing: set<string>)
    ensures BundleProblems(fm, fs, ws, existing) == [] <==>
            (forall i :: 0 <= i < |ws| ==> WorkflowOkAt(fm, ws, i)) &&
            (forall i :: 0 <= i < |fs| ==> FormOkAt(fm, fs, i)) &&
            forall i :: 0 <= i < |fs| ==> fs[i].workflow == "" || fs[i].workflow in existing + WorkflowSlugs(ws)
  {
    hide ValidWorkflow, ValidForm, WorkflowEntry, FormEntry, WorkflowSlugs;
    var known := existing + WorkflowSlugs(ws);
    forall i | 0 <= i < |ws| ensures BundledWorkflow(fm, ws)(i) == [] <==> WorkflowOkAt(fm, ws, i) {}
    forall i | 0 <= i < |fs|
      ensures BundledForm(fm, fs, known)(i) == [] <==>
              FormOkAt(fm, fs, i) && (fs[i].workflow == "" || fs[i].workflow in known)
    {
    }
  }

  method ValidateBundle(fm: T.Formats, fs: seq<Form>, ws: seq<Workflow>, existing: set<string>)
    returns (ps: seq<Problem>)
    ensures ps == BundleProblems(fm, fs, ws, existing)
    ensures ps == [] <==>
            (forall i :: 0 <= i < |ws| ==> WorkflowOkAt(fm, ws, i)) &&
            (forall i :: 0 <= i < |fs| ==> FormOkAt(fm, fs, i)) &&
            forall i :: 0 <= i < |fs| ==> fs[i].workflow == "" || fs[i].workflow in existing + WorkflowSlugs(ws)
  {
    hide WorkflowOkAt, FormOkAt, WorkflowProblems, FormProblems, ValidWorkflow, ValidForm, Collect, At, Joined;
    ps := [];
    var seen: set<string> := {};
    for i := 0 to |ws|
      invariant seen == set j | 0 <= j < i :: ws[j].slug
      invariant ps == Collect(BundledWorkflow(fm, ws), i)
    {
      var prefix := At("workflows", i);
      var mine := ValidateWorkflow(fm, ws[i]);
      OneMore(BundledWorkflow(fm, ws), i);
      ps := ps + (Joined(prefix, mine) +
                  When(ws[i].slug in seen, prefix + ".slug", "duplicate workflow slug " + Quote(ws[i].slug)));
      seen := seen + {ws[i].slug};
    }
    var known := existing + seen;
    ps := BundledForms(fm, fs, known, ps);
    BundleDecides(fm, fs, ws, existing);
  }

  lemma FormIsBundled(fm: T.Formats, fs: seq<Form>, known: set<string>, i: nat, seen: set<string>)
    requires i < |fs| && seen == set j | 0 <= j < i :: fs[j].slug
    ensures BundledForm(fm, fs, known)(i) ==
            Joined(At("forms", i), FormProblems(fm, fs[i])) +
            When(fs[i].slug in seen, At("forms", i) + ".slug", "duplicate form slug " + Quote(fs[i].slug)) +
            When(fs[i].workflow != "" && fs[i].workflow !in known, At("forms", i) + ".workflow",
                 "unknown workflow " + Quote(fs[i].workflow))
  {
    hide FormProblems, ValidForm, Collect, At, Joined, When, Quote;
  }

  method BundledForms(fm: T.Formats, fs: seq<Form>, known: set<string>, before: seq<Problem>) returns (ps: seq<Problem>)
    ensures ps == before + Collect(BundledForm(fm, fs, known), |fs|)
  {
    hide FormProblems, ValidForm, Collect, At, Joined, FormEntry, BundledForm;
    ps := before;
    var seen: set<string> := {};
    for i := 0 to |fs|
      invariant seen == set j | 0 <= j < i :: fs[j].slug
      invariant ps == before + Collect(BundledForm(fm, fs, known), i)
    {
      var prefix := At("forms", i);
      var mine := ValidateForm(fm, fs[i]);
      OneMore(BundledForm(fm, fs, known), i);
      FormIsBundled(fm, fs, known, i, seen);
      ps := ps + (Joined(prefix, mine) +
                  When(fs[i].slug in seen, prefix + ".slug", "duplicate form slug " + Quote(fs[i].slug)) +
                  When(fs[i].workflow != "" && fs[i].workflow !in known, prefix + ".workflow",
                       "unknown workflow " + Quote(fs[i].workflow)));
      seen := seen + {fs[i].slug};
    }
  }

  // ---- the input of a call ------------------------------------------------------------------------------

  function Repeated(kind: string, slug: string): string {
    kind + " " + Quote(slug) + " appears more than once in the bundle"
  }

  function ListedWorkflow(fm: T.Formats, ws: seq<Workflow>): nat -> seq<Problem> {
    (i: nat) =>
      if i >= |ws| then []
      else
        When(exists j :: 0 <= j < i && ws[j].slug == ws[i].slug, At("workflows", i) + ".slug",
             Repeated("workflow", ws[i].slug)) +
        Prefixed(At("workflows", i), WorkflowProblems(fm, ws[i]))
  }

  function ListedForm(fm: T.Formats, fs: seq<Form>): nat -> seq<Problem> {
    (i: nat) =>
      if i >= |fs| then []
      else
        When(exists j :: 0 <= j < i && fs[j].slug == fs[i].slug, At("forms", i) + ".slug",
             Repeated("form", fs[i].slug)) +
        Prefixed(At("forms", i), FormProblems(fm, fs[i]))
  }

  /** The problems of the definitions by themselves or, if there are none, those of the bundle. */
  function InputProblems(fm: T.Formats, t: Tables, inp: Input): seq<Problem> {
    var ps := Collect(ListedWorkflow(fm, inp.workflows), |inp.workflows|) +
              Collect(ListedForm(fm, inp.forms), |inp.forms|);
    if ps != [] then ps else BundleProblems(fm, inp.forms, inp.workflows, t.workflows.current.Keys)
  }

  lemma InputDecides(fm: T.Formats, t: Tables, inp: Input)
    ensures InputProblems(fm, t, inp) == [] <==> InputOk(fm, t, inp)
  {
    hide ValidWorkflow, ValidForm, BundleProblems, WorkflowProblems, FormProblems, Collect, WorkflowSlugs;
    BundleDecides(fm, inp.forms, inp.workflows, t.workflows.current.Keys);
    var ws, fs := inp.workflows, inp.forms;
    forall i | 0 <= i < |ws| ensures ListedWorkflow(fm, ws)(i) == [] <==> WorkflowOkAt(fm, ws, i) {
      WorkflowDecides(fm, ws[i]);
    }
    forall i | 0 <= i < |fs| ensures ListedForm(fm, fs)(i) == [] <==> FormOkAt(fm, fs, i) {
      FormDecides(fm, fs[i]);
    }
  }

  /** What a call reports, dry or not. */
  ghost function Answer(fm: T.Formats, t: Tables, inp: Input): Result<seq<Item>, Error> {
    if InputOk(fm, t, inp) then Ok(Applied(t, inp).items) else Err(Invalid(InputProblems(fm, t, inp)))
  }

  /** A dry run tells beforehand what the real run then reports and, if it is accepted, leaves: the tables of the
      three phases, on tables that the dry run has not touched. */
  lemma DryRunForetells(fm: T.Formats, t: Tables, inp: Input)
    ensures var dry := Run(fm, t, [Call(inp, true)]);
            dry == t && Answer(fm, dry, inp) == Answer(fm, t, inp) &&
            Run(fm, dry, [Call(inp, false)]) == if Answer(fm, t, inp).Ok? then Applied(t, inp).t else t
  {
    hide Applied, InputOk, InputProblems;
    DryRunsLeaveTheStore(fm, t, [Call(inp, true)]);
    RealCallIs(fm, t, inp);
  }

  method ListWorkflowProblems(fm: T.Formats, ws: seq<Workflow>) returns (ps: seq<Problem>)
    ensures ps == Collect(ListedWorkflow(fm, ws), |ws|)
  {
    hide WorkflowProblems, ValidWorkflow, Collect, At, Prefixed;
    ps := [];
    var seen: set<string> := {};
    for i := 0 to |ws|
      invariant seen == set j | 0 <= j < i :: ws[j].slug
      invariant ps == Collect(ListedWorkflow(fm, ws), i)
    {
      var prefix := At("workflows", i);
      var mine := ValidateWorkflow(fm, ws[i]);
      OneMore(ListedWorkflow(fm, ws), i);
      ps := ps + (When(ws[i].slug in seen, prefix + ".slug", Repeated("workflow", ws[i].slug)) +
                  Prefixed(prefix, mine));
      seen := seen + {ws[i].slug};
    }
  }

  method ListFormProblems(fm: T.Formats, fs: seq<Form>) returns (ps: seq<Problem>)
    ensures ps == Collect(ListedForm(fm, fs), |fs|)
  {
    hide FormProblems, ValidForm, Collect, At, Prefixed;
    ps := [];
    var seen: set<string> := {};
    for i := 0 to |fs|
      invariant seen == set j | 0 <= j < i :: fs[j].slug
      invariant ps == Collect(ListedForm(fm, fs), i)
    {
      var prefix := At("forms", i);
      var mine := ValidateForm(fm, fs[i]);
      OneMore(ListedForm(fm, fs), i);
      ps := ps + (When(fs[i].slug in seen, prefix + ".slug", Repeated("form", fs[i].slug)) + Prefixed(prefix, mine));
      seen := seen + {fs[i].slug};
    }
  }

  // ---- the service --------------------------------------------------------------------------------------

  lemma NothingAt(t: Table)
    ensures FormsAt(t, []) == [] && WorkflowsAt(t, []) == []
  {
  }

  lemma OneMoreAt(t: Table, slugs: seq<string>, i: nat)
    requires i < |slugs|
    ensures FormsAt(t, slugs[..i + 1]) == FormsAt(t, slugs[..i]) + [Definition(t, slugs[i])]
    ensures WorkflowsAt(t, slugs[..i + 1]) == WorkflowsAt(t, slugs[..i]) + [WorkflowDefinition(t, slugs[i])]
  {
    hide Definition, WorkflowDefinition;
    assert slugs[..i + 1][..i] == slugs[..i];
  }

  lemma NoneNaming(t: Table, workflow: string)
    ensures Naming(t, [], workflow) == []
  {
  }

  lemma OneMoreNaming(t: Table, slugs: seq<string>, i: nat, workflow: string)
    requires i < |slugs|
    ensures Naming(t, slugs[..i + 1], workflow) ==
            Naming(t, slugs[..i], workflow) +
            if Definition(t, slugs[i]).workflow == workflow then [Definition(t, slugs[i])] else []
  {
    hide Definition;
    assert slugs[..i + 1][..i] == slugs[..i];
  }

  class Service {
    var workflows: Table
    var forms: Table
    var formCache: map<nat, FormRecord>
    var workflowCache: map<nat, WorkflowRecord>

    constructor ()
      ensures Valid() && Current() == NOTHING
    {
      workflows, forms := EMPTY, EMPTY;
      formCache, workflowCache := map[], map[];
    }

    ghost function Current(): Tables
      reads this
    {
      Tables(workflows, forms)
    }

    /** What is cached is what the tables hold. */
    ghost predicate Valid()
      reads this
    {
      (forall id :: id in formCache ==> id < |forms.rows| && formCache[id] == FormRecordOf(forms.rows[id])) &&
      forall id :: id in workflowCache ==>
        id < |workflows.rows| && workflowCache[id] == WorkflowRecordOf(workflows.rows[id])
    }

    /** A version by id, from the cache if it was looked up before: always what a fresh lookup gives. */
    method GetFormVersion(id: nat) returns (r: Result<FormRecord, Error>)
      requires Valid()
      modifies `formCache
      ensures Valid()
      ensures r == if id < |forms.rows| then Ok(FormRecordOf(forms.rows[id])) else Err(NotFound)
    {
      if id in formCache {
        return Ok(formCache[id]);
      }
      if id >= |forms.rows| {
        return Err(NotFound);
      }
      var rec := FormRecordOf(forms.rows[id]);
      formCache := formCache[id := rec];
      return Ok(rec);
    }

    method GetWorkflowVersion(id: nat) returns (r: Result<WorkflowRecord, Error>)
      requires Valid()
      modifies `workflowCache
      ensures Valid()
      ensures r == if id < |workflows.rows| then Ok(WorkflowRecordOf(workflows.rows[id])) else Err(NotFound)
    {
      if id in workflowCache {
        return Ok(workflowCache[id]);
      }
      if id >= |workflows.rows| {
        return Err(NotFound);
      }
      var rec := WorkflowRecordOf(workflows.rows[id]);
      workflowCache := workflowCache[id := rec];
      return Ok(rec);
    }

    method ListForms() returns (fs: seq<Form>)
      ensures fs == CurrentForms(forms)
    {
      hide Definition, FormsAt, Sorted;
      var slugs := SortKeys([], forms.current.Keys);
      NothingAt(forms);
      fs := [];
      for i := 0 to |slugs|
        invariant fs == FormsAt(forms, slugs[..i])
      {
        OneMoreAt(forms, slugs, i);
        fs := fs + [Definition(forms, slugs[i])];
      }
      assert slugs[..|slugs|] == slugs;
    }

    method ListWorkflows() returns (ws: seq<Workflow>)
      ensures ws == CurrentWorkflows(workflows)
    {
      hide WorkflowDefinition, WorkflowsAt, Sorted;
      var slugs := SortKeys([], workflows.current.Keys);
      NothingAt(workflows);
      ws := [];
      for i := 0 to |slugs|
        invariant ws == WorkflowsAt(workflows, slugs[..i])
      {
        OneMoreAt(workflows, slugs, i);
        ws := ws + [WorkflowDefinition(workflows, slugs[i])];
      }
      assert slugs[..|slugs|] == slugs;
    }

    method ExportAll(tag: Tag) returns (inp: Input)
      ensures inp == Store.Export(Current(), tag)
    {
      var fs := ListForms();
      var ws := ListWorkflows();
      return Input(fs, ws, tag);
    }

    method ValidateInput(fm: T.Formats, inp: Input) returns (ps: seq<Problem>)
      ensures ps == InputProblems(fm, Current(), inp)
      ensures ps == [] <==> InputOk(fm, Current(), inp)
    {
      hide WorkflowOkAt, FormOkAt, InputOk, Collect, BundleProblems;
      var wps := ListWorkflowProblems(fm, inp.workflows);
      var fps := ListFormProblems(fm, inp.forms);
      ps := wps + fps;
      if ps == [] {
        ps := ValidateBundle(fm, inp.forms, inp.workflows, workflows.current.Keys);
      }
      InputDecides(fm, Current(), inp);
    }

    method UpsertWorkflow(w: Workflow, tag: Tag) returns (item: Item, id: nat)
      modifies `workflows
      ensures (workflows, item, id) == Upsert(old(workflows), WorkflowKind, w.slug, WorkflowToDict(w), None, tag)
    {
      hide WorkflowToDict;
      var doc := WorkflowToDict(w);
      var row := workflows.Current(w.slug);
      if row.Some? && row.value.doc == doc && row.value.pin == None {
        return Item(WorkflowKind, w.slug, row.value.version, false, false), workflows.current[w.slug];
      }
      var n := (if row.Some? then row.value.version else 0) + 1;
      id := |workflows.rows|;
      item := Item(WorkflowKind, w.slug, n, true, w.slug !in workflows.current);
      workflows := Table(workflows.rows + [Row(w.slug, n, doc, None, tag)], workflows.current[w.slug := id]);
    }

    method UpsertForm(f: Form, pin: Option<nat>, tag: Tag) returns (item: Item)
      modifies `forms
      ensures (forms, item) ==
              (Upsert(old(forms), FormKind, f.slug, FormToDict(f), pin, tag).0,
               Upsert(old(forms), FormKind, f.slug, FormToDict(f), pin, tag).1)
    {
      hide FormToDict;
      var doc := FormToDict(f);
      var row := forms.Current(f.slug);
      if row.Some? && row.value.doc == doc && row.value.pin == pin {
        return Item(FormKind, f.slug, row.value.version, false, false);
      }
      var n := (if row.Some? then row.value.version else 0) + 1;
      item := Item(FormKind, f.slug, n, true, f.slug !in forms.current);
      forms := Table(forms.rows + [Row(f.slug, n, doc, pin, tag)], forms.current[f.slug := |forms.rows|]);
    }

    method CurrentWorkflowVersion(slug: string) returns (r: Result<Option<nat>, Error>)
      ensures r ==
              if slug == "" then Ok(None)
              else if slug in workflows.current then Ok(Some(workflows.current[slug]))
              else Err(NotFound)
    {
      if slug == "" {
        return Ok(None);
      }
      if slug !in workflows.current {
        return Err(NotFound);
      }
      return Ok(Some(workflows.current[slug]));
    }

    method DependentForms(workflow: string) returns (fs: seq<Form>)
      ensures fs == Dependents(forms, workflow)
    {
      hide Definition, Naming, Sorted;
      var slugs := SortKeys([], forms.current.Keys);
      NoneNaming(forms, workflow);
      fs := [];
      for i := 0 to |slugs|
        invariant fs == Naming(forms, slugs[..i], workflow)
      {
        OneMoreNaming(forms, slugs, i, workflow);
        var f := Definition(forms, slugs[i]);
        if f.workflow == workflow {
          fs := fs + [f];
        }
      }
      assert slugs[..|slugs|] == slugs;
    }

    /** First the workflows, noting the versions that are new. */
    method PutWorkflows(ws: seq<Workflow>, tag: Tag) returns (items: seq<Item>, added: map<string, nat>)
      modifies `workflows
      ensures Progress(Current(), items, added) == ApplyWorkflows(Progress(old(Current()), [], map[]), ws, tag)
    {
      hide Upsert;
      ghost var start := Progress(old(Current()), [], map[]);
      items, added := [], map[];
      for i := 0 to |ws|
        invariant Progress(Current(), items, added) == ApplyWorkflows(start, ws[..i], tag)
      {
        assert ws[..i + 1][..i] == ws[..i];
        var item, id := UpsertWorkflow(ws[i], tag);
        items := items + [item];
        if item.changed {
          added := added[ws[i].slug := id];
        }
      }
      assert ws[..|ws|] == ws;
    }

    /** Then the forms, each pinned to its workflow's current version; the lookup finds every named workflow. */
    method PutForms(fs: seq<Form>, tag: Tag, items0: seq<Item>, ghost added: map<string, nat>)
      returns (items: seq<Item>)
      requires forall i :: 0 <= i < |fs| ==> FormNameOk(workflows, fs[i])
      modifies `forms
      ensures Progress(Current(), items, added) == ApplyForms(Progress(old(Current()), items0, added), fs, tag)
    {
      hide Upsert;
      ghost var start := Progress(old(Current()), items0, added);
      items := items0;
      for i := 0 to |fs|
        invariant Progress(Current(), items, added) == ApplyForms(start, fs[..i], tag)
      {
        assert fs[..i + 1][..i] == fs[..i];
        var pin := CurrentWorkflowVersion(fs[i].workflow);
        assert pin.Ok? by { assert FormNameOk(workflows, fs[i]); }
        var item := UpsertForm(fs[i], pin.value, tag);
        items := items + [item];
      }
      assert fs[..|fs|] == fs;
    }

    method RepinForms(fs: seq<Form>, id: nat, bundle: set<string>, tag: Tag, items0: seq<Item>,
          ghost added: map<string, nat>) returns (items: seq<Item>)
      modifies `forms
      ensures Progress(Current(), items, added) ==
              RepinAll(Progress(old(Current()), items0, added), fs, id, bundle, tag)
    {
      hide Upsert;
      ghost var start := Progress(old(Current()), items0, added);
      items := items0;
      for i := 0 to |fs|
        invariant Progress(Current(), items, added) == RepinAll(start, fs[..i], id, bundle, tag)
      {
        assert fs[..i + 1][..i] == fs[..i];
        if fs[i].slug !in bundle {
          var item := UpsertForm(fs[i], Some(id), tag);
          if item.changed {
            items := items + [item];
          }
        }
      }
      assert fs[..|fs|] == fs;
    }

    /** Last, the forms outside the bundle whose workflow has just got a new version. */
    method RepinDependents(ws: seq<Workflow>, bundle: set<string>, tag: Tag, items0: seq<Item>,
          added: map<string, nat>) returns (items: seq<Item>)
      modifies `forms
      ensures Progress(Current(), items, added) ==
              RepinWorkflows(Progress(old(Current()), items0, added), ws, bundle, tag)
    {
      hide RepinAll, Dependents;
      ghost var start := Progress(old(Current()), items0, added);
      items := items0;
      for i := 0 to |ws|
        invariant Progress(Current(), items, added) == RepinWorkflows(start, ws[..i], bundle, tag)
      {
        assert ws[..i + 1][..i] == ws[..i];
        if ws[i].slug in added {
          var deps := DependentForms(ws[i].slug);
          items := RepinForms(deps, added[ws[i].slug], bundle, tag, items, added);
        }
      }
      assert ws[..|ws|] == ws;
    }

    /** A dry run reports what the real one would and leaves the tables as they were. */
    method Apply(fm: T.Formats, inp: Input, dryRun: bool) returns (r: Result<seq<Item>, Error>)
      requires Valid() && StoreOk(fm, Current())
      modifies this
      ensures Valid() && StoreOk(fm, Current()) && Current() == Store.Next(fm, old(Current()), Call(inp, dryRun))
      ensures r.Ok? <==> InputOk(fm, old(Current()), inp)
      ensures dryRun || r.Err? ==> Current() == old(Current())
      ensures !dryRun && r.Ok? ==> Current() == Applied(old(Current()), inp).t
      ensures r == Answer(fm, old(Current()), inp)
    {
      hide InputProblems, StoreOk, RowsOk, PinsOk, InputOk, ApplyWorkflows, ApplyForms, RepinWorkflows;
      var problems := ValidateInput(fm, inp);
      if problems != [] {
        return Err(Invalid(problems));
      }
      var savedWorkflows, savedForms := workflows, forms;
      NamesFound(fm, Current(), inp);
      ApplyKeepsStore(fm, Current(), inp);
      var tag := TagOf(inp);
      var items, added := PutWorkflows(inp.workflows, tag);
      items := PutForms(inp.forms, tag, items, added);
      items := RepinDependents(inp.workflows, FormSlugs(inp.forms), tag, items, added);
      if dryRun {
        workflows, forms := savedWorkflows, savedForms;
      } else {
        CacheStaysRight(savedForms.rows, forms.rows, formCache);
      }
      return Ok(items);
    }
  }

  lemma NamesFound(fm: T.Formats, t: Tables, inp: Input)
    requires StoreOk(fm, t) && InputOk(fm, t, inp)
    ensures var p := ApplyWorkflows(Progress(t, [], map[]), inp.workflows, TagOf(inp));
            forall i :: 0 <= i < |inp.forms| ==> FormNameOk(p.t.workflows, inp.forms[i])
  {
    hide RowsOk, InputOk;
    NamesResolve(fm, t, inp);
  }

  lemma CacheStaysRight(rows: seq<Row>, more: seq<Row>, cache: map<nat, FormRecord>)
    requires rows <= more && forall id :: id in cache ==> id < |rows| && cache[id] == FormRecordOf(rows[id])
    ensures forall id :: id in cache ==> id < |more| && cache[id] == FormRecordOf(more[id])
  {
  }
}
