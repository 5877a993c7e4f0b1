/** The transactional outbox: the engine and the queue as one system. An engine call and the rows of its jobs
    are one step; a worker's step is another. */
module Delivery {
  import opened Common
  import opened DefinitionRules
  import opened Definitions
  import opened Text
  import E = Engine
  import P = FieldPatches
  import C = Recovery
  import Q = JobQueue
  import R = EngineRuns

  const ACTION_KINDS := {"action.webhook", "action.email", "action.assign"}

  /** The one organisation of this model. */
  const ORG: nat := 0

  function KindFor(t: ActionType): Option<string> {
    match t
    case Webhook => Some("action.webhook")
    case SendEmail => Some("action.email")
    case Assign => Some("action.assign")
    case UnknownAction(_) => None
  }

  /** Installs a handler for every kind of action job, and the failure hook. */
  method RegisterActions(queue: Q.Queue)
    modifies queue`handlers, queue`hooked
    ensures queue.handlers == old(queue.handlers) + ACTION_KINDS && queue.hooked
    ensures forall t: ActionType :: KindFor(t).Some? ==> KindFor(t).value in queue.handlers
  {
    queue.Register("action.webhook");
    queue.Register("action.email");
    queue.Register("action.assign");
    queue.SetFailedHook(true);
  }

  predicate AllKnown(jobs: seq<E.Job>) {
    forall i :: 0 <= i < |jobs| ==> KindFor(jobs[i].action.kind).Some?
  }

  /** `text` writes a payload as JSON. */
  function AddOf(text: E.Job -> string, j: E.Job): Q.Step
    requires KindFor(j.action.kind).Some?
  {
    Q.Add(ORG, KindFor(j.action.kind).value, text(j))
  }

  function Adds(text: E.Job -> string, jobs: seq<E.Job>): seq<Q.Step>
    requires AllKnown(jobs)
  {
    seq(|jobs|, i requires 0 <= i < |jobs| => AddOf(text, jobs[i]))
  }

  ghost function AddAll(text: E.Job -> string, q: Q.System, jobs: seq<E.Job>): Q.System
    requires AllKnown(jobs)
    decreases |jobs|
  {
    if jobs == [] then q else AddAll(text, Q.Apply(q, AddOf(text, jobs[0])), jobs[1..])
  }

  /** The row of a job that has just been added. */
  function NewRow(text: E.Job -> string, now: int, j: E.Job): Q.Job
    requires KindFor(j.action.kind).Some?
  {
    Q.Job(ORG, KindFor(j.action.kind).value, text(j), Q.Pending, 0, Q.DEFAULT_MAX_ATTEMPTS, now, None, "", now, now)
  }

  // ---- the joint system -----------------------------------------------------------------------------

  datatype World = World(engine: E.System, queue: Q.System)

  datatype Step = Call(op: R.Op) | Work(step: Q.Step)

  const START := World(R.START, Q.EMPTY)

  /** Only the engine adds jobs. */
  ghost predicate Possible(fm: Formats, w: World, step: Step) {
    match step
    case Call(op) => R.Possible(fm, w.engine, op)
    case Work(s) => !s.Add? && Q.Enabled(w.queue, s)
  }

  /** The jobs that a call commits. */
  function Committed(fm: Formats, s: E.System, op: R.Op): (jobs: seq<E.Job>)
    requires R.Possible(fm, s, op)
    ensures AllKnown(jobs) && R.Next(fm, s, op).jobs == s.jobs + jobs
  {
    CallsAppendKnownJobs(fm, s, op);
    R.Next(fm, s, op).jobs[|s.jobs|..]
  }

  lemma CallsAppendKnownJobs(fm: Formats, s: E.System, op: R.Op)
    requires R.Possible(fm, s, op)
    ensures s.jobs <= R.Next(fm, s, op).jobs && AllKnown(R.Next(fm, s, op).jobs[|s.jobs|..])
  {
    hide E.Decide, E.FirstCreated, E.S.Pass;
  }

  ghost function Next(fm: Formats, text: E.Job -> string, w: World, step: Step): World
    requires Possible(fm, w, step) && (step.Work? && step.step.Take? ==> step.step.id in w.queue.history)
  {
    match step
    case Call(op) => World(R.Next(fm, w.engine, op), AddAll(text, w.queue, Committed(fm, w.engine, op)))
    case Work(s) => w.(queue := Q.Apply(w.queue, s))
  }

  /** Row k + 1 of the queue is the job that was committed as number k. */
  ghost predicate RowHolds(text: E.Job -> string, w: World, k: nat)
    requires k < |w.engine.jobs|
  {
    k + 1 in w.queue.table.jobs && Holds(text, w.queue.table.jobs[k + 1], w.engine.jobs[k])
  }

  predicate Holds(text: E.Job -> string, row: Q.Job, j: E.Job) {
    row.org == ORG && Some(row.kind) == KindFor(j.action.kind) && row.payload == text(j) &&
    row.maxAttempts == Q.DEFAULT_MAX_ATTEMPTS
  }

  ghost predicate Queued(text: E.Job -> string, w: World) {
    w.queue.table.nextId == |w.engine.jobs| + 1 && 0 !in w.queue.table.jobs &&
    forall k :: 0 <= k < |w.engine.jobs| ==> RowHolds(text, w, k)
  }

  ghost predicate Inv(fm: Formats, text: E.Job -> string, w: World) {
    R.Inv(fm, w.engine) && Q.Inv(w.queue) && Queued(text, w)
  }

  // ---- each step keeps the invariant -------------------------------------------------------------------

  /** New rows for the jobs stand after the old ones, which are as they were. */
  ghost predicate Grown(text: E.Job -> string, q: Q.System, jobs: seq<E.Job>, q': Q.System) {
    q'.now == q.now && q'.claims == q.claims && q'.table.nextId == q.table.nextId + |jobs| &&
    (forall id :: id in q.table.jobs ==> id in q'.table.jobs && q'.table.jobs[id] == q.table.jobs[id]) &&
    (forall id :: id in q'.table.jobs && id < q.table.nextId ==> id in q.table.jobs) &&
    forall i :: 0 <= i < |jobs| ==> HoldsNew(text, q'.table, q.now, q.table.nextId + i, jobs[i])
  }

  predicate HoldsNew(text: E.Job -> string, t: Q.Table, now: int, id: nat, j: E.Job) {
    id in t.jobs && KindFor(j.action.kind).Some? && t.jobs[id] == NewRow(text, now, j)
  }

  lemma AddsOneRow(text: E.Job -> string, q: Q.System, j: E.Job)
    requires Q.Inv(q) && KindFor(j.action.kind).Some?
    ensures Grown(text, q, [j], Q.Apply(q, AddOf(text, j)))
  {
  }

  lemma GrownFurther(text: E.Job -> string, q: Q.System, j: E.Job, q1: Q.System, jobs: seq<E.Job>, q': Q.System)
    requires Grown(text, q, [j], q1) && Grown(text, q1, jobs, q')
    ensures Grown(text, q, [j] + jobs, q')
  {
    hide NewRow, KindFor;
    forall i | 0 <= i < |[j] + jobs|
      ensures HoldsNew(text, q'.table, q.now, q.table.nextId + i, ([j] + jobs)[i])
    {
      if i > 0 {
        assert HoldsNew(text, q'.table, q1.now, q1.table.nextId + (i - 1), jobs[i - 1]);
      } else {
        assert HoldsNew(text, q1.table, q.now, q.table.nextId + 0, [j][0]);
      }
    }
  }

  /** What adding the jobs one after the other comes to. */
  lemma {:induction false} AddAllRows(text: E.Job -> string, q: Q.System, jobs: seq<E.Job>)
    requires Q.Inv(q) && AllKnown(jobs)
    ensures Q.Inv(AddAll(text, q, jobs)) && Grown(text, q, jobs, AddAll(text, q, jobs))
    decreases |jobs|
  {
    hide Q.Inv, Grown;
    if jobs == [] {
      NothingGrown(text, q);
    } else {
      var step := AddOf(text, jobs[0]);
      var q1 := Q.Apply(q, step);
      Q.StepKeepsInv(q, step);
      AddsOneRow(text, q, jobs[0]);
      AddAllRows(text, q1, jobs[1..]);
      GrownFurther(text, q, jobs[0], q1, jobs[1..], AddAll(text, q, jobs));
      assert [jobs[0]] + jobs[1..] == jobs;
    }
  }

  lemma NothingGrown(text: E.Job -> string, q: Q.System)
    ensures Grown(text, q, [], q)
  {
  }

  lemma CallKeeps(fm: Formats, text: E.Job -> string, w: World, op: R.Op)
    requires Inv(fm, text, w) && R.Possible(fm, w.engine, op)
    ensures Inv(fm, text, Next(fm, text, w, Call(op)))
  {
    hide R.Inv, R.Next, R.Possible, Q.Inv, AddAll;
    R.StepKeepsInv(fm, w.engine, op);
    var jobs := Committed(fm, w.engine, op);
    AddAllRows(text, w.queue, jobs);
    var w' := Next(fm, text, w, Call(op));
    forall k | 0 <= k < |w'.engine.jobs| ensures RowHolds(text, w', k) {
      if k < |w.engine.jobs| {
        assert RowHolds(text, w, k);
      } else {
        var i := k - |w.engine.jobs|;
        assert HoldsNew(text, w'.queue.table, w.queue.now, w.queue.table.nextId + i, jobs[i]);
      }
    }
  }

  /** A worker's step neither adds nor loses a row, nor changes what a row is to do. */
  lemma WorkKeepsRows(q: Q.System, step: Q.Step)
    requires Q.Inv(q) && Q.Enabled(q, step) && !step.Add?
    ensures var q' := Q.Apply(q, step);
            q'.table.nextId == q.table.nextId && q'.table.jobs.Keys == q.table.jobs.Keys &&
            forall id :: id in q.table.jobs ==>
              var was, row := q.table.jobs[id], q'.table.jobs[id];
              row.org == was.org && row.kind == was.kind && row.payload == was.payload &&
              row.maxAttempts == was.maxAttempts
  {
    hide Q.RowOk, Q.BackoffDelay, Q.SomewherePermanent;
    if step.Report? {
      Q.LiveClaimMatches(q, step.claim);
    }
  }

  lemma WorkKeeps(fm: Formats, text: E.Job -> string, w: World, step: Q.Step)
    requires Inv(fm, text, w) && Possible(fm, w, Work(step))
    ensures Inv(fm, text, Next(fm, text, w, Work(step)))
  {
    hide R.Inv, Holds, Q.RowOk, Q.ClaimsOk;
    Q.StepKeepsInv(w.queue, step);
    WorkKeepsRows(w.queue, step);
    var w' := Next(fm, text, w, Work(step));
    forall k | 0 <= k < |w'.engine.jobs| ensures RowHolds(text, w', k) {
      assert RowHolds(text, w, k);
      HoldsStill(text, w.queue.table.jobs[k + 1], w'.queue.table.jobs[k + 1], w.engine.jobs[k]);
    }
  }

  lemma StepKeepsInv(fm: Formats, text: E.Job -> string, w: World, step: Step)
    requires Inv(fm, text, w) && Possible(fm, w, step)
    ensures Inv(fm, text, Next(fm, text, w, step))
  {
    hide R.Inv, R.Possible, R.Next, AddAll, Queued, Q.RowOk, Q.ClaimsOk, Q.Apply;
    match step
    case Call(op) => CallKeeps(fm, text, w, op);
    case Work(s) => WorkKeeps(fm, text, w, s);
  }

  lemma HoldsStill(text: E.Job -> string, was: Q.Job, row: Q.Job, j: E.Job)
    requires Holds(text, was, j)
    requires row.org == was.org && row.kind == was.kind && row.payload == was.payload &&
             row.maxAttempts == was.maxAttempts
    ensures Holds(text, row, j)
  {
  }

  // ---- runs ----------------------------------------------------------------------------------------------

  ghost predicate PossibleRun(fm: Formats, text: E.Job -> string, w: World, steps: seq<Step>)
    requires Inv(fm, text, w)
    decreases |steps|
  {
    steps != [] ==>
      Possible(fm, w, steps[0]) &&
      (StepKeepsInv(fm, text, w, steps[0]); PossibleRun(fm, text, Next(fm, text, w, steps[0]), steps[1..]))
  }

  ghost function Run(fm: Formats, text: E.Job -> string, w: World, steps: seq<Step>): (r: World)
    requires Inv(fm, text, w) && PossibleRun(fm, text, w, steps)
    ensures Inv(fm, text, r)
    decreases |steps|
  {
    if steps == [] then w
    else
      StepKeepsInv(fm, text, w, steps[0]);
      Run(fm, text, Next(fm, text, w, steps[0]), steps[1..])
  }

  lemma StartIsFine(fm: Formats, text: E.Job -> string)
    ensures Inv(fm, text, START)
  {
    R.EveryRunFromTheStart(fm, []);
    Q.EmptyIsFine();
  }

  // ---- a committed action is in the queue ---------------------------------------------------------------

  /** The actions that a call fires if it succeeds, and the trigger that their jobs name. */
  function Fired(s: E.System, op: R.Op): seq<Action>
    requires op.Create? && op.pin.Some? ==> op.pin.value < |s.workflows|
  {
    match op
    case Create(_, pin, _, _, _) => E.OnSubmit(s, pin)
    case Transition(id, _, input) =>
      if E.WorkflowFor(s, id).Err? || E.WorkflowFor(s, id).value.FindTransition(input.transition).None? then []
      else E.WorkflowFor(s, id).value.FindTransition(input.transition).value.actions
    case _ => []
  }

  function TriggerOf(op: R.Op): string {
    if op.Transition? then op.input.transition else E.SUBMIT
  }

  lemma CommittedAre(fm: Formats, s: E.System, op: R.Op)
    requires R.Inv(fm, s) && R.Possible(fm, s, op)
    ensures R.Outcome(fm, s, op).Err? ==> R.Next(fm, s, op) == s && Committed(fm, s, op) == []
    ensures R.Outcome(fm, s, op).Ok? ==>
              Committed(fm, s, op) ==
              E.JobsFor(R.Outcome(fm, s, op).value, TriggerOf(op), |R.Next(fm, s, op).events|, Fired(s, op))
  {
    hide R.Inv, E.Decide, E.FirstCreated, E.S.Pass;
    if R.Outcome(fm, s, op).Err? {
      R.FailedCallsWriteNothing(fm, s, op);
    } else if op.Create? {
      var s' := R.Next(fm, s, op);
      R.CreatedIsFound(s, s'.events[|s.events|], fm);
    } else if op.Transition? {
      AcceptedMoves(fm, s, op);
    }
  }

  lemma AcceptedMoves(fm: Formats, s: E.System, op: R.Op)
    requires op.Transition? && R.Possible(fm, s, op) && R.Outcome(fm, s, op).Ok?
    ensures Committed(fm, s, op) == E.JobsFor(op.id, op.input.transition, |R.Next(fm, s, op).events|, Fired(s, op))
    ensures R.Outcome(fm, s, op).value == op.id
  {
    hide E.FirstCreated, P.Merged, P.Changed, P.IssuesOf, E.Missing, E.HasAnyRole;
  }

  /** A failed call changes nothing at all. A successful one adds, in the same step, one pending row for each action
      it fires, in order, and touches no other row. */
  lemma CallsFireTheirActions(fm: Formats, text: E.Job -> string, w: World, op: R.Op)
    requires Inv(fm, text, w) && R.Possible(fm, w.engine, op)
    ensures var w', outcome := Next(fm, text, w, Call(op)), R.Outcome(fm, w.engine, op);
            if outcome.Err? then w' == w
            else
              var fired := Fired(w.engine, op);
              (forall i :: 0 <= i < |fired| ==>
                 HoldsNew(text, w'.queue.table, w.queue.now, w.queue.table.nextId + i,
                          E.Job(outcome.value, TriggerOf(op), |w'.engine.events|, fired[i]))) &&
              w'.queue.table.nextId == w.queue.table.nextId + |fired| &&
              forall id :: id in w'.queue.table.jobs && id < w.queue.table.nextId ==>
                id in w.queue.table.jobs && w'.queue.table.jobs[id] == w.queue.table.jobs[id]
  {
    hide R.Inv, R.Next, R.Outcome, Q.Inv, AddAll, HoldsNew, Fired, ValidWorkflow;
    CommittedAre(fm, w.engine, op);
    var jobs := Committed(fm, w.engine, op);
    AddAllRows(text, w.queue, jobs);
    NothingToAdd(text, w.queue);
    var w', outcome, fired := Next(fm, text, w, Call(op)), R.Outcome(fm, w.engine, op), Fired(w.engine, op);
    if outcome.Ok? {
      forall i | 0 <= i < |fired|
        ensures HoldsNew(text, w'.queue.table, w.queue.now, w.queue.table.nextId + i,
                         E.Job(outcome.value, TriggerOf(op), |w'.engine.events|, fired[i]))
      {
        assert jobs[i] == E.Job(outcome.value, TriggerOf(op), |w'.engine.events|, fired[i]);
      }
    }
  }

  lemma NothingToAdd(text: E.Job -> string, q: Q.System)
    ensures AddAll(text, q, []) == q
  {
  }

  // ---- a run as the queue sees it -----------------------------------------------------------------------

  ghost function QueueSteps(fm: Formats, text: E.Job -> string, w: World, steps: seq<Step>): seq<Q.Step>
    requires Inv(fm, text, w) && PossibleRun(fm, text, w, steps)
    decreases |steps|
  {
    if steps == [] then []
    else
      StepKeepsInv(fm, text, w, steps[0]);
      SeenAs(fm, text, w, steps[0]) + QueueSteps(fm, text, Next(fm, text, w, steps[0]), steps[1..])
  }

  ghost function SeenAs(fm: Formats, text: E.Job -> string, w: World, step: Step): seq<Q.Step>
    requires Possible(fm, w, step)
  {
    match step
    case Call(op) => Adds(text, Committed(fm, w.engine, op))
    case Work(s) => [s]
  }

  lemma {:induction false} AddsThenRun(text: E.Job -> string, q: Q.System, jobs: seq<E.Job>, rest: seq<Q.Step>)
    requires Q.Inv(q) && AllKnown(jobs) && Q.Inv(AddAll(text, q, jobs)) && Q.Possible(AddAll(text, q, jobs), rest)
    ensures Q.Possible(q, Adds(text, jobs) + rest)
    ensures Q.Run(q, Adds(text, jobs) + rest) == Q.Run(AddAll(text, q, jobs), rest)
    decreases |jobs|
  {
    hide Q.Inv, Q.Apply;
    if jobs == [] {
      assert Adds(text, jobs) + rest == rest;
    } else {
      var step := AddOf(text, jobs[0]);
      Q.StepKeepsInv(q, step);
      AddsThenRun(text, Q.Apply(q, step), jobs[1..], rest);
      assert Adds(text, jobs) + rest == [step] + (Adds(text, jobs[1..]) + rest);
      Q.StepsAreRun(q, step, Adds(text, jobs[1..]) + rest);
    }
  }

  /** Every run of the whole is a run of the queue, so all that holds in every run of the queue holds here too. */
  lemma {:induction false} QueueRuns(fm: Formats, text: E.Job -> string, w: World, steps: seq<Step>)
    requires Inv(fm, text, w) && PossibleRun(fm, text, w, steps)
    ensures Q.Possible(w.queue, QueueSteps(fm, text, w, steps))
    ensures Q.Run(w.queue, QueueSteps(fm, text, w, steps)) == Run(fm, text, w, steps).queue
    decreases |steps|
  {
    hide R.Inv, R.Next, R.Possible, Q.Apply, AddAll, Queued, Q.RowOk, Q.ClaimsOk;
    if steps != [] {
      StepKeepsInv(fm, text, w, steps[0]);
      var w1 := Next(fm, text, w, steps[0]);
      QueueRuns(fm, text, w1, steps[1..]);
      var rest := QueueSteps(fm, text, w1, steps[1..]);
      match steps[0]
      case Call(op) => AddsThenRun(text, w.queue, Committed(fm, w.engine, op), rest);
      case Work(s) => Q.StepsAreRun(w.queue, s, rest);
    }
  }

  /** The run of the queue. */
  ghost function QueueRun(fm: Formats, text: E.Job -> string, w: World, steps: seq<Step>): (r: seq<Q.Step>)
    requires Inv(fm, text, w) && PossibleRun(fm, text, w, steps)
    ensures Q.Possible(w.queue, r) && Q.Run(w.queue, r) == Run(fm, text, w, steps).queue
  {
    QueueRuns(fm, text, w, steps);
    QueueSteps(fm, text, w, steps)
  }

  /** The steps can be taken from the empty tables. */
  ghost predicate PossibleFromStart(fm: Formats, text: E.Job -> string, steps: seq<Step>) {
    StartIsFine(fm, text);
    PossibleRun(fm, text, START, steps)
  }

  ghost function FromStart(fm: Formats, text: E.Job -> string, steps: seq<Step>): (r: World)
    requires PossibleFromStart(fm, text, steps)
    ensures Inv(fm, text, r)
  {
    StartIsFine(fm, text);
    Run(fm, text, START, steps)
  }

  ghost function QueueFromStart(fm: Formats, text: E.Job -> string, steps: seq<Step>): (r: seq<Q.Step>)
    requires PossibleFromStart(fm, text, steps)
    ensures Q.Inv(Q.EMPTY) && Q.Possible(Q.EMPTY, r) && Q.Run(Q.EMPTY, r) == FromStart(fm, text, steps).queue
  {
    StartIsFine(fm, text);
    QueueRun(fm, text, START, steps)
  }

  /** Committed actions are done at least once: at any time in any run each of them has its row, of a kind with a
      handler; the row is done only if a worker has reported its success, failed only if one has reported an
      error, and otherwise is still to be done. */
  lemma AtLeastOnce(fm: Formats, text: E.Job -> string, steps: seq<Step>, k: nat)
    requires PossibleFromStart(fm, text, steps) && k < |FromStart(fm, text, steps).engine.jobs|
    ensures var w := FromStart(fm, text, steps);
            RowHolds(text, w, k) && w.queue.table.jobs[k + 1].kind in ACTION_KINDS &&
            R.WrittenFor(w.engine.workflows, R.Pins(w.engine.subs), w.engine.events, w.engine.jobs[k])
    ensures match FromStart(fm, text, steps).queue.table.jobs[k + 1].status
            case Done => Q.ReportedIn(Q.EMPTY, QueueFromStart(fm, text, steps), k + 1, true)
            case Failed => Q.ReportedIn(Q.EMPTY, QueueFromStart(fm, text, steps), k + 1, false)
            case _ => true
  {
    hide R.Inv, R.WrittenFor, R.Outbox, Q.Inv, FromStart, PossibleFromStart, QueueFromStart, Q.Possible, Q.Run,
         Q.ReportedIn;
    var w, seen := FromStart(fm, text, steps), QueueFromStart(fm, text, steps);
    assert RowHolds(text, w, k);
    OutboxIs(fm, w.engine);
    R.EveryJobHasItsEvent(w.engine.workflows, R.Pins(w.engine.subs), w.engine.events, w.engine.jobs[k]);
    if w.queue.table.jobs[k + 1].status.Done? {
      Q.EndsAreReported(Q.EMPTY, seen, k + 1, true);
    } else if w.queue.table.jobs[k + 1].status.Failed? {
      Q.EndsAreReported(Q.EMPTY, seen, k + 1, false);
    }
  }

  lemma OutboxIs(fm: Formats, s: E.System)
    requires R.Inv(fm, s)
    ensures s.jobs == R.Outbox(s.workflows, R.Pins(s.subs), s.events)
  {
  }

  lemma {:induction false} TakesAreWork(fm: Formats, text: E.Job -> string, w: World, steps: seq<Step>, id: nat)
    requires Inv(fm, text, w) && PossibleRun(fm, text, w, steps)
    requires Q.Take(id) in QueueSteps(fm, text, w, steps)
    ensures Work(Q.Take(id)) in steps
    decreases |steps|
  {
    hide R.Inv, R.Possible, R.Next, Q.Apply, AddAll, Queued, Q.RowOk, Q.ClaimsOk, Committed;
    if Q.Take(id) !in SeenAs(fm, text, w, steps[0]) {
      StepKeepsInv(fm, text, w, steps[0]);
      TakesAreWork(fm, text, Next(fm, text, w, steps[0]), steps[1..], id);
    }
  }

  /** And no engine call delays them: once the clock is past a job's time, a worker takes it within one more claim
      than there were jobs before it, however many actions are committed meanwhile. */
  lemma ActionsAreReached(fm: Formats, text: E.Job -> string, w: World, steps: seq<Step>, k: nat)
    requires Inv(fm, text, w) && PossibleRun(fm, text, w, steps) && k < |w.engine.jobs|
    requires Q.Waiting(w.queue, k + 1) && Q.NoExpiryIn(w.queue, QueueRun(fm, text, w, steps))
    requires Q.Takes(QueueRun(fm, text, w, steps)) > |Q.Ahead(w.queue, k + 1)|
    ensures Work(Q.Take(k + 1)) in steps
  {
    Q.NoStarvation(w.queue, QueueRun(fm, text, w, steps), k + 1);
    TakesAreWork(fm, text, w, steps, k + 1);
  }

  /** Nor does a crash lose them: a committed action whose worker has let its lease run out is taken again within one
      more claim than there are jobs in front of it, in every run in which no further lease runs out. */
  lemma AbandonedActionsAreTaken(fm: Formats, text: E.Job -> string, w: World, steps: seq<Step>, k: nat)
    requires Inv(fm, text, w) && PossibleRun(fm, text, w, steps) && k < |w.engine.jobs|
    requires C.Overdue(w.queue, k + 1) && C.NoCrashIn(w.queue, QueueRun(fm, text, w, steps))
    requires Q.Takes(QueueRun(fm, text, w, steps)) > |C.InFront(w.queue, k + 1)|
    ensures Work(Q.Take(k + 1)) in steps
  {
    C.OverdueJobsAreTaken(w.queue, QueueRun(fm, text, w, steps), k + 1);
    TakesAreWork(fm, text, w, steps, k + 1);
  }

  /** A committed action that is neither done nor failed is pending, held by a worker whose lease still runs, or
      abandoned; from its time on, or as soon as it is abandoned, some claim is possible. */
  lemma NoActionIsForgotten(fm: Formats, text: E.Job -> string, w: World, k: nat)
    requires Inv(fm, text, w) && k < |w.engine.jobs|
    ensures k + 1 in w.queue.table.jobs
    ensures var j := w.queue.table.jobs[k + 1];
            j.status.Done? || j.status.Failed? || j.status.Pending? || C.Abandoned(w.queue, k + 1) ||
            (j.lockedUntil.Some? && j.lockedUntil.value >= w.queue.now)
    ensures var j := w.queue.table.jobs[k + 1];
            (j.status.Pending? && j.runAt <= w.queue.now) || C.Abandoned(w.queue, k + 1) ==>
              exists i :: Q.Enabled(w.queue, Q.Take(i))
  {
    hide R.Inv, Q.ClaimsOk;
    assert RowHolds(text, w, k);
    assert Q.RowOk(w.queue.now, w.queue.table.jobs[k + 1], w.queue.history[k + 1]);
    if C.Claimable(w.queue, k + 1) { C.SomeClaimIsPossible(w.queue, k + 1); }
  }
}
