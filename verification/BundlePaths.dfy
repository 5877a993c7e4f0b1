/** Which problems of a bundle are reported, and where. */
module BundlePaths {
  import opened Common
  import opened DefinitionStore
  import opened Definitions
  import opened ProblemPaths
  import opened Problems
  import opened Store
  import opened Validators
  import T = Text

  /** The problem of a document, told of the bundle that it stands in. */
  ghost predicate Told(at: string, q: Problem, p: Problem) {
    p.message == q.message && p.path == if q.path == "" then at else at + "." + q.path
  }

  /** The same, where the problem's path may begin with an index. */
  ghost predicate ToldAt(at: string, q: Problem, p: Problem) {
    p.message == q.message &&
    p.path == if q.path == "" then at else if q.path[0] == '[' then at + q.path else at + "." + q.path
  }

  lemma InJoined(at: string, ps: seq<Problem>, p: Problem)
    requires at != ""
    ensures p in Joined(at, ps) <==> exists q :: q in ps && Told(at, q, p)
  {
    var r := Joined(at, ps);
    if p in r {
      var i :| 0 <= i < |r| && r[i] == p;
      assert ps[i] in ps && Told(at, ps[i], p);
    }
    if q :| q in ps && Told(at, q, p) {
      var i :| 0 <= i < |ps| && ps[i] == q;
      assert r[i] == p;
    }
  }

  lemma InPrefixed(at: string, ps: seq<Problem>, p: Problem)
    ensures p in Prefixed(at, ps) <==> exists q :: q in ps && ToldAt(at, q, p)
  {
    var r := Prefixed(at, ps);
    if p in r {
      var i :| 0 <= i < |r| && r[i] == p;
      assert ps[i] in ps && ToldAt(at, ps[i], p);
    }
    if q :| q in ps && ToldAt(at, q, p) {
      var i :| 0 <= i < |ps| && ps[i] == q;
      assert r[i] == p;
    }
  }

  ghost predicate Again(slugs: seq<string>, i: nat)
    requires i < |slugs|
  {
    exists j :: 0 <= j < i && slugs[j] == slugs[i]
  }

  function SlugsOfWorkflows(ws: seq<Workflow>): seq<string> {
    seq(|ws|, i requires 0 <= i < |ws| => ws[i].slug)
  }

  function SlugsOfForms(fs: seq<Form>): seq<string> {
    seq(|fs|, i requires 0 <= i < |fs| => fs[i].slug)
  }

  ghost predicate WorkflowOfBundle(fm: T.Formats, ws: seq<Workflow>, i: nat, p: Problem)
    requires i < |ws|
  {
    var at := Place("workflows", i);
    (exists q :: q in WorkflowProblems(fm, ws[i]) && Told(at, q, p)) ||
    (Again(SlugsOfWorkflows(ws), i) &&
     p == Problem(at + ".slug", "duplicate workflow slug \"" + ws[i].slug + "\""))
  }

  ghost predicate FormOfBundle(fm: T.Formats, fs: seq<Form>, known: set<string>, i: nat, p: Problem)
    requires i < |fs|
  {
    var at := Place("forms", i);
    (exists q :: q in FormProblems(fm, fs[i]) && Told(at, q, p)) ||
    (Again(SlugsOfForms(fs), i) && p == Problem(at + ".slug", "duplicate form slug \"" + fs[i].slug + "\"")) ||
    (fs[i].workflow != "" && fs[i].workflow !in known &&
     p == Problem(at + ".workflow", "unknown workflow \"" + fs[i].workflow + "\""))
  }

  lemma WorkflowBundled(fm: T.Formats, ws: seq<Workflow>, i: nat, p: Problem)
    requires i < |ws|
    ensures p in BundledWorkflow(fm, ws)(i) <==> WorkflowOfBundle(fm, ws, i, p)
  {
    hide WorkflowProblems, Joined, Told, T.Decimal;
    var at := Place("workflows", i);
    assert at == At("workflows", i) && at != "";
    InJoined(at, WorkflowProblems(fm, ws[i]), p);
    assert "duplicate workflow slug " + Quote(ws[i].slug) == "duplicate workflow slug \"" + ws[i].slug + "\"";
    var slugs := SlugsOfWorkflows(ws);
    assert forall j :: 0 <= j < |ws| ==> slugs[j] == ws[j].slug;
  }

  lemma FormBundled(fm: T.Formats, fs: seq<Form>, known: set<string>, i: nat, p: Problem)
    requires i < |fs|
    ensures p in BundledForm(fm, fs, known)(i) <==> FormOfBundle(fm, fs, known, i, p)
  {
    hide FormProblems, Joined, Told, T.Decimal;
    var at := Place("forms", i);
    assert at == At("forms", i) && at != "";
    InJoined(at, FormProblems(fm, fs[i]), p);
    assert "duplicate form slug " + Quote(fs[i].slug) == "duplicate form slug \"" + fs[i].slug + "\"";
    assert "unknown workflow " + Quote(fs[i].workflow) == "unknown workflow \"" + fs[i].workflow + "\"";
    var slugs := SlugsOfForms(fs);
    assert forall j :: 0 <= j < |fs| ==> slugs[j] == fs[j].slug;
  }

  /** Of a bundle exactly these problems are reported. */
  lemma BundleReported(fm: T.Formats, fs: seq<Form>, ws: seq<Workflow>, existing: set<string>, p: Problem)
    ensures p in BundleProblems(fm, fs, ws, existing) <==>
            (exists i :: 0 <= i < |ws| && WorkflowOfBundle(fm, ws, i, p)) ||
            exists i :: 0 <= i < |fs| && FormOfBundle(fm, fs, existing + WorkflowSlugs(ws), i, p)
  {
    hide WorkflowOfBundle, FormOfBundle, BundledWorkflow, BundledForm, Collect, WorkflowSlugs;
    var known := existing + WorkflowSlugs(ws);
    InCollect(BundledWorkflow(fm, ws), |ws|, p);
    InCollect(BundledForm(fm, fs, known), |fs|, p);
    forall i | 0 <= i < |ws| { WorkflowBundled(fm, ws, i, p); }
    forall i | 0 <= i < |fs| { FormBundled(fm, fs, known, i, p); }
  }

  ghost predicate WorkflowOfInput(fm: T.Formats, ws: seq<Workflow>, i: nat, p: Problem)
    requires i < |ws|
  {
    var at := Place("workflows", i);
    (Again(SlugsOfWorkflows(ws), i) &&
     p == Problem(at + ".slug", "workflow \"" + ws[i].slug + "\" appears more than once in the bundle")) ||
    exists q :: q in WorkflowProblems(fm, ws[i]) && ToldAt(at, q, p)
  }

  ghost predicate FormOfInput(fm: T.Formats, fs: seq<Form>, i: nat, p: Problem)
    requires i < |fs|
  {
    var at := Place("forms", i);
    (Again(SlugsOfForms(fs), i) &&
     p == Problem(at + ".slug", "form \"" + fs[i].slug + "\" appears more than once in the bundle")) ||
    exists q :: q in FormProblems(fm, fs[i]) && ToldAt(at, q, p)
  }

  lemma WorkflowListed(fm: T.Formats, ws: seq<Workflow>, i: nat, p: Problem)
    requires i < |ws|
    ensures p in ListedWorkflow(fm, ws)(i) <==> WorkflowOfInput(fm, ws, i, p)
  {
    hide WorkflowProblems, Prefixed, ToldAt, T.Decimal;
    var at := Place("workflows", i);
    assert at == At("workflows", i);
    InPrefixed(at, WorkflowProblems(fm, ws[i]), p);
    var slugs := SlugsOfWorkflows(ws);
    assert forall j :: 0 <= j < |ws| ==> slugs[j] == ws[j].slug;
    RepeatedReads("workflow", ws[i].slug);
    assert "workflow" + " \"" == "workflow \"";
  }

  lemma RepeatedReads(kind: string, slug: string)
    ensures Repeated(kind, slug) == kind + " \"" + slug + "\" appears more than once in the bundle"
  {
    assert "\"" + " appears more than once in the bundle" == "\" appears more than once in the bundle";
    assert kind + " " + Quote(slug) + " appears more than once in the bundle" ==
           kind + " \"" + slug + ("\"" + " appears more than once in the bundle");
  }

  lemma FormListed(fm: T.Formats, fs: seq<Form>, i: nat, p: Problem)
    requires i < |fs|
    ensures p in ListedForm(fm, fs)(i) <==> FormOfInput(fm, fs, i, p)
  {
    hide FormProblems, Prefixed, ToldAt, T.Decimal;
    var at := Place("forms", i);
    assert at == At("forms", i);
    InPrefixed(at, FormProblems(fm, fs[i]), p);
    var slugs := SlugsOfForms(fs);
    assert forall j :: 0 <= j < |fs| ==> slugs[j] == fs[j].slug;
    RepeatedReads("form", fs[i].slug);
    assert "form" + " \"" == "form \"";
  }

  ghost predicate OfDefinitions(fm: T.Formats, inp: Input, p: Problem) {
    (exists i :: 0 <= i < |inp.workflows| && WorkflowOfInput(fm, inp.workflows, i, p)) ||
    exists i :: 0 <= i < |inp.forms| && FormOfInput(fm, inp.forms, i, p)
  }

  lemma DefinitionsReported(fm: T.Formats, inp: Input, p: Problem)
    ensures var ws, fs := inp.workflows, inp.forms;
            p in Collect(ListedWorkflow(fm, ws), |ws|) + Collect(ListedForm(fm, fs), |fs|) <==>
            OfDefinitions(fm, inp, p)
  {
    hide WorkflowOfInput, FormOfInput, ListedWorkflow, ListedForm, Collect;
    var ws, fs := inp.workflows, inp.forms;
    InCollect(ListedWorkflow(fm, ws), |ws|, p);
    InCollect(ListedForm(fm, fs), |fs|, p);
    forall i | 0 <= i < |ws| { WorkflowListed(fm, ws, i, p); }
    forall i | 0 <= i < |fs| { FormListed(fm, fs, i, p); }
  }

  /** Of an input exactly the problems of its definitions by themselves are reported, with the slugs that are repeated;
      and those of the bundle only if there are none. */
  lemma InputReported(fm: T.Formats, t: Tables, inp: Input, p: Problem)
    ensures p in InputProblems(fm, t, inp) <==>
            OfDefinitions(fm, inp, p) ||
            ((forall q :: !OfDefinitions(fm, inp, q)) &&
             p in BundleProblems(fm, inp.forms, inp.workflows, t.workflows.current.Keys))
  {
    hide OfDefinitions, ListedWorkflow, ListedForm, Collect, BundleProblems;
    var ws, fs := inp.workflows, inp.forms;
    var ps := Collect(ListedWorkflow(fm, ws), |ws|) + Collect(ListedForm(fm, fs), |fs|);
    forall q { DefinitionsReported(fm, inp, q); }
    if ps != [] { assert OfDefinitions(fm, inp, ps[0]); }
  }
}
