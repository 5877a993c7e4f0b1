/** The failure hook: every action job that ends failed leaves its event in the log, unless the worker dies first. */
module FailureEvents {
  import opened Common
  import opened Text
  import D = Delivery
  import E = Engine
  import Q = JobQueue
  import R = EngineRuns

  /** A job that has ended failed, and why. */
  datatype Notice = Notice(job: nat, error: string)

  /** The joint system with the notices that workers still owe to the log, those that never got there, and the ids of
      the failed jobs that have been retried, in order. */
  datatype Watched = Watched(world: D.World, owed: seq<Notice>, lost: seq<Notice>, retried: seq<nat>)

  /** A call or a worker's step; the hook of a notice; the loss of one, with its worker or in a write that fails. */
  datatype Step = Plain(step: D.Step) | Tell(i: nat) | Lose(i: nat)

  const START := Watched(D.START, [], [], [])

  /** A payload is read as the job it was written for, or not at all. */
  ghost predicate NeverMisread(text: E.Job -> string, read: string -> Option<E.Job>) {
    forall j :: read(text(j)) == Some(j) || read(text(j)).None?
  }

  /** What a step leaves to tell: the job that it ends failed, if it does. */
  function Ending(w: D.World, step: D.Step): seq<Notice> {
    if step.Work? && step.step.Report? && step.step.claim in w.queue.claims then
      var k := w.queue.claims[step.step.claim];
      if Q.EndsFailed(k.attempts, k.maxAttempts, step.step.err) then [Notice(k.job, step.step.err.value.message)]
      else []
    else []
  }

  function Retries(step: D.Step): seq<nat> {
    if step.Work? && step.step.Reset? then [step.step.id] else []
  }

  function Ids(ns: seq<Notice>): seq<nat> {
    seq(|ns|, i requires 0 <= i < |ns| => ns[i].job)
  }

  /** What the hook writes, if it can read the payload. */
  function Report(read: string -> Option<E.Job>, w: D.World, n: Notice): Option<R.Op> {
    if n.job !in w.queue.table.jobs || read(w.queue.table.jobs[n.job].payload).None? then None
    else
      var j := read(w.queue.table.jobs[n.job].payload).value;
      Some(R.Record(j.submission, E.ActionFailed, None, E.Performed(j.trigger, j.action, n.error, n.job)))
  }

  function Without(ns: seq<Notice>, i: nat): seq<Notice>
    requires i < |ns|
  {
    ns[..i] + ns[i + 1..]
  }

  function Lost(s: Watched, i: nat): Watched
    requires i < |s.owed|
  {
    s.(owed := Without(s.owed, i), lost := s.lost + [s.owed[i]])
  }

  /** Only the hook records failures. */
  ghost predicate Possible(fm: Formats, s: Watched, step: Step) {
    match step
    case Plain(d) => D.Possible(fm, s.world, d) && !(d.Call? && d.op.Record? && d.op.kind.ActionFailed?)
    case Tell(i) => i < |s.owed|
    case Lose(i) => i < |s.owed|
  }

  ghost function Next(fm: Formats, text: E.Job -> string, read: string -> Option<E.Job>, s: Watched,
          step: Step): Watched
    requires D.Inv(fm, text, s.world) && Possible(fm, s, step)
  {
    match step
    case Plain(d) =>
      D.StepKeepsInv(fm, text, s.world, d);
      Watched(D.Next(fm, text, s.world, d), s.owed + Ending(s.world, d), s.lost, s.retried + Retries(d))
    case Tell(i) =>
      var op := Report(read, s.world, s.owed[i]);
      if op.None? || !R.Possible(fm, s.world.engine, op.value) then Lost(s, i)
      else s.(world := D.Next(fm, text, s.world, D.Call(op.value)), owed := Without(s.owed, i))
    case Lose(i) => Lost(s, i)
  }

  // ---- the ledger -----------------------------------------------------------------------------------------

  predicate IsFailureOf(e: E.Event, id: nat) {
    e.kind.ActionFailed? && e.detail.Performed? && e.detail.job == id
  }

  function CountEvents(events: seq<E.Event>, id: nat): nat {
    if events == [] then 0
    else CountEvents(events[..|events| - 1], id) + if IsFailureOf(events[|events| - 1], id) then 1 else 0
  }

  function Times(ns: seq<Notice>, id: nat): nat {
    multiset(Ids(ns))[id]
  }

  predicate HasFailed(w: D.World, id: nat) {
    id in w.queue.table.jobs && w.queue.table.jobs[id].status.Failed?
  }

  /** How often a job has ended failed: once for each of its retries, and once more if it is failed now. */
  function Failures(s: Watched, id: nat): nat {
    multiset(s.retried)[id] + if HasFailed(s.world, id) then 1 else 0
  }

  /** Each failure of a job is in the log, or its notice is owed or lost. */
  ghost predicate Balanced(s: Watched) {
    forall id :: CountEvents(s.world.engine.events, id) + Times(s.owed, id) + Times(s.lost, id) == Failures(s, id)
  }

  /** The event tells of its job: the submission, the trigger and the action. */
  predicate TellsOf(e: E.Event, jobs: seq<E.Job>) {
    e.kind.ActionFailed? ==>
      e.detail.Performed? && 1 <= e.detail.job <= |jobs| &&
      var j := jobs[e.detail.job - 1];
      e.submission == j.submission && e.detail.trigger == j.trigger && e.detail.action == j.action
  }

  ghost predicate EventsTell(s: Watched) {
    forall k :: 0 <= k < |s.world.engine.events| ==> TellsOf(s.world.engine.events[k], s.world.engine.jobs)
  }

  ghost predicate OwedAreJobs(s: Watched) {
    forall i :: 0 <= i < |s.owed| ==> 1 <= s.owed[i].job <= |s.world.engine.jobs|
  }

  ghost predicate Inv(fm: Formats, text: E.Job -> string, s: Watched) {
    D.Inv(fm, text, s.world) && Balanced(s) && EventsTell(s) && OwedAreJobs(s)
  }

  lemma TimesTogether(a: seq<Notice>, b: seq<Notice>, id: nat)
    ensures Times(a + b, id) == Times(a, id) + Times(b, id)
  {
    assert Ids(a + b) == Ids(a) + Ids(b);
  }

  lemma TimesWithout(ns: seq<Notice>, i: nat, id: nat)
    requires i < |ns|
    ensures Times(ns, id) == Times(Without(ns, i), id) + if ns[i].job == id then 1 else 0
  {
    assert ns == (ns[..i] + [ns[i]]) + ns[i + 1..];
    TimesTogether(ns[..i] + [ns[i]], ns[i + 1..], id);
    TimesTogether(ns[..i], [ns[i]], id);
    TimesTogether(ns[..i], ns[i + 1..], id);
    TimesOne(ns[i], id);
  }

  lemma TimesOne(n: Notice, id: nat)
    ensures Times([n], id) == if n.job == id then 1 else 0
  {
    assert Ids([n]) == [n.job];
  }

  lemma CountAppended(events: seq<E.Event>, e: E.Event, id: nat)
    ensures CountEvents(events + [e], id) == CountEvents(events, id) + if IsFailureOf(e, id) then 1 else 0
  {
    assert (events + [e])[..|events|] == events;
  }

  // ---- each step keeps the ledger ----------------------------------------------------------------------------

  /** A call appends at most one event, and one of a failure only if it records one. */
  lemma CallAppends(fm: Formats, s: E.System, op: R.Op)
    requires R.Possible(fm, s, op)
    ensures var events := R.Next(fm, s, op).events;
            events == s.events ||
            (|events| == |s.events| + 1 && s.events == events[..|s.events|] &&
             (events[|s.events|].kind.ActionFailed? ==> op.Record? && op.kind.ActionFailed?))
  {
    hide E.Decide, E.FirstCreated, E.S.Pass;
  }

  lemma PlainKeeps(fm: Formats, text: E.Job -> string, read: string -> Option<E.Job>, s: Watched, d: D.Step)
    requires Inv(fm, text, s) && Possible(fm, s, Plain(d))
    ensures Inv(fm, text, Next(fm, text, read, s, Plain(d)))
  {
    hide R.Inv, R.Next, R.Possible, Q.RowOk, Q.ClaimsOk, D.Queued, D.Committed, D.AddAll, TellsOf;
    D.StepKeepsInv(fm, text, s.world, d);
    match d
    case Call(op) => CallKeeps(fm, text, read, s, op);
    case Work(step) => WorkKeeps(fm, text, read, s, step);
  }

  lemma CallKeeps(fm: Formats, text: E.Job -> string, read: string -> Option<E.Job>, s: Watched, op: R.Op)
    requires Inv(fm, text, s) && Possible(fm, s, Plain(D.Call(op)))
    ensures var s' := Next(fm, text, read, s, Plain(D.Call(op)));
            Balanced(s') && EventsTell(s') && OwedAreJobs(s')
  {
    hide R.Inv, R.Next, Q.Inv, D.AddAll, D.Grown, CountEvents, Times, TellsOf;
    var s' := Next(fm, text, read, s, Plain(D.Call(op)));
    assert s'.owed == s.owed && s'.retried == s.retried && s'.lost == s.lost;
    CallAppends(fm, s.world.engine, op);
    var events, events' := s.world.engine.events, s'.world.engine.events;
    forall id ensures CountEvents(events', id) == CountEvents(events, id) { AppendedCounts(events, events', id); }
    forall k | 0 <= k < |events'| ensures TellsOf(events'[k], s'.world.engine.jobs) {
      AppendedTells(events, events', s.world.engine.jobs, s'.world.engine.jobs, k);
    }
    D.AddAllRows(text, s.world.queue, D.Committed(fm, s.world.engine, op));
    NewRowsArePending(text, s.world.queue, D.Committed(fm, s.world.engine, op), s'.world.queue);
  }

  predicate Appended(events: seq<E.Event>, events': seq<E.Event>) {
    events' == events ||
    (|events'| == |events| + 1 && events == events'[..|events|] && !events'[|events|].kind.ActionFailed?)
  }

  /** An event that is not of a failure does not change the counts. */
  lemma AppendedCounts(events: seq<E.Event>, events': seq<E.Event>, id: nat)
    requires Appended(events, events')
    ensures CountEvents(events', id) == CountEvents(events, id)
  {
    hide CountEvents;
    if events' != events {
      CountAppended(events, events'[|events|], id);
      assert events' == events + [events'[|events|]];
    }
  }

  /** Nor does it change what the events tell, and what they tell of is still there when jobs are added. */
  lemma AppendedTells(events: seq<E.Event>, events': seq<E.Event>, jobs: seq<E.Job>, jobs': seq<E.Job>, k: nat)
    requires Appended(events, events') && jobs <= jobs' && k < |events'|
    requires k < |events| ==> TellsOf(events[k], jobs)
    ensures TellsOf(events'[k], jobs')
  {
    if k < |events| { assert events'[k] == events[k]; }
  }

  lemma NewRowIsPending(text: E.Job -> string, q: Q.System, jobs: seq<E.Job>, q': Q.System, i: nat)
    requires D.Grown(text, q, jobs, q') && i < |jobs|
    ensures q.table.nextId + i in q'.table.jobs && q'.table.jobs[q.table.nextId + i].status.Pending?
  {
    assert D.HoldsNew(text, q'.table, q.now, q.table.nextId + i, jobs[i]);
  }

  lemma NewRowsArePending(text: E.Job -> string, q: Q.System, jobs: seq<E.Job>, q': Q.System)
    requires D.Grown(text, q, jobs, q') && Q.Inv(q')
    ensures forall id :: (id in q'.table.jobs && q'.table.jobs[id].status.Failed?) <==>
              (id in q.table.jobs && q.table.jobs[id].status.Failed?)
  {
    hide Q.RowOk, Q.ClaimsOk;
    forall id | id in q'.table.jobs && q'.table.jobs[id].status.Failed?
      ensures id in q.table.jobs && q.table.jobs[id].status.Failed?
    {
      if id >= q.table.nextId { NewRowIsPending(text, q, jobs, q', id - q.table.nextId); }
    }
  }

  /** A worker's step makes a job failed exactly if it leaves its notice, and only a retry takes that back. */
  lemma FailuresMove(w: D.World, step: Q.Step, id: nat)
    requires Q.Inv(w.queue) && Q.Enabled(w.queue, step) && !step.Add?
    ensures var after := w.(queue := Q.Apply(w.queue, step));
            multiset(Retries(D.Work(step)))[id] + (if HasFailed(after, id) then 1 else 0) ==
            Times(Ending(w, D.Work(step)), id) + if HasFailed(w, id) then 1 else 0
  {
    hide Q.RowOk, Q.BackoffDelay, Q.SomewherePermanent, Times;
    if step.Report? { Q.LiveClaimMatches(w.queue, step.claim); }
    var ending := Ending(w, D.Work(step));
    if ending == [] { NoTimes(id); } else { TimesOne(ending[0], id); }
  }

  lemma NoTimes(id: nat)
    ensures Times([], id) == 0
  {
    assert Ids([]) == [];
  }

  lemma EndingsAreJobs(fm: Formats, text: E.Job -> string, w: D.World, step: Q.Step)
    requires D.Inv(fm, text, w) && Q.Enabled(w.queue, step)
    ensures forall i :: 0 <= i < |Ending(w, D.Work(step))| ==> 1 <= Ending(w, D.Work(step))[i].job <= |w.engine.jobs|
  {
    hide R.Inv, Q.RowOk;
    if step.Report? { Q.LiveClaimMatches(w.queue, step.claim); }
  }

  lemma WorkKeeps(fm: Formats, text: E.Job -> string, read: string -> Option<E.Job>, s: Watched, step: Q.Step)
    requires Inv(fm, text, s) && Possible(fm, s, Plain(D.Work(step)))
    ensures var s' := Next(fm, text, read, s, Plain(D.Work(step)));
            Balanced(s') && EventsTell(s') && OwedAreJobs(s')
  {
    hide R.Inv, Q.RowOk, Q.ClaimsOk, D.Queued, Q.Apply, CountEvents, Times, Ending, TellsOf;
    var s' := Next(fm, text, read, s, Plain(D.Work(step)));
    var ending := Ending(s.world, D.Work(step));
    EndingsAreJobs(fm, text, s.world, step);
    forall id
      ensures CountEvents(s.world.engine.events, id) + Times(s'.owed, id) + Times(s.lost, id) == Failures(s', id)
    {
      TimesTogether(s.owed, ending, id);
      FailuresMove(s.world, step, id);
      assert CountEvents(s.world.engine.events, id) + Times(s.owed, id) + Times(s.lost, id) == Failures(s, id);
    }
  }

  /** The hook reads the payload of its job and finds the submission. */
  lemma ReportIs(fm: Formats, text: E.Job -> string, read: string -> Option<E.Job>, w: D.World, n: Notice)
    requires D.Inv(fm, text, w) && 1 <= n.job <= |w.engine.jobs|
    requires var j := w.engine.jobs[n.job - 1]; read(text(j)) == Some(j)
    ensures var j := w.engine.jobs[n.job - 1];
            j.submission < |w.engine.subs| &&
            Report(read, w, n) ==
              Some(R.Record(j.submission, E.ActionFailed, None, E.Performed(j.trigger, j.action, n.error, n.job)))
  {
    hide R.Inv, Q.Inv;
    var k := n.job - 1;
    assert D.RowHolds(text, w, k);
    JobsHaveSubmissions(fm, w.engine, w.engine.jobs[k]);
  }

  lemma NothingToReport(fm: Formats, text: E.Job -> string, read: string -> Option<E.Job>, w: D.World, n: Notice)
    requires D.Inv(fm, text, w) && 1 <= n.job <= |w.engine.jobs| && read(text(w.engine.jobs[n.job - 1])).None?
    ensures Report(read, w, n).None?
  {
    hide R.Inv, Q.Inv;
    assert D.RowHolds(text, w, n.job - 1);
  }

  lemma JobsHaveSubmissions(fm: Formats, s: E.System, j: E.Job)
    requires R.Inv(fm, s) && j in s.jobs
    ensures j.submission < |s.subs|
  {
    hide R.RowOk, R.Outbox, R.Allowed;
    R.JobFacts(fm, s, j);
    assert R.WalkAt(s.workflows, R.Pins(s.subs), s.events, j.eventId - 1);
  }

  /** Recording a failure appends its event and does nothing else. */
  lemma RecordAppends(fm: Formats, text: E.Job -> string, w: D.World, op: R.Op, e: E.Event)
    requires op.Record? && op.kind.ActionFailed? && op.id < |w.engine.subs|
    requires e == E.Note(op.id, E.ActionFailed, E.SystemActor, op.detail)
    ensures D.Possible(fm, w, D.Call(op))
    ensures D.Next(fm, text, w, D.Call(op)) == w.(engine := w.engine.(events := w.engine.events + [e]))
  {
    var committed := D.Committed(fm, w.engine, op);
    assert committed == [];
    D.NothingToAdd(text, w.queue);
  }

  /** The event of a notice. */
  function EventOf(j: E.Job, n: Notice): E.Event {
    E.Note(j.submission, E.ActionFailed, E.SystemActor, E.Performed(j.trigger, j.action, n.error, n.job))
  }

  /** The hook of a job whose payload can be read appends the event of its notice, and the notice is owed no more. */
  lemma HookWrites(fm: Formats, text: E.Job -> string, read: string -> Option<E.Job>, s: Watched, i: nat)
    requires Inv(fm, text, s) && i < |s.owed|
    requires var j := s.world.engine.jobs[s.owed[i].job - 1]; read(text(j)) == Some(j)
    ensures var n, engine := s.owed[i], s.world.engine;
            var events := engine.events + [EventOf(engine.jobs[n.job - 1], n)];
            Next(fm, text, read, s, Tell(i)) ==
            s.(world := s.world.(engine := engine.(events := events)), owed := Without(s.owed, i))
  {
    hide R.Inv, Q.Inv, D.Queued, D.AddAll, Report;
    var n := s.owed[i];
    var j := s.world.engine.jobs[n.job - 1];
    ReportIs(fm, text, read, s.world, n);
    var op := R.Record(j.submission, E.ActionFailed, None, E.Performed(j.trigger, j.action, n.error, n.job));
    RecordAppends(fm, text, s.world, op, EventOf(j, n));
  }

  /** A notice whose payload cannot be read, or whose worker dies, is owed no more and lost; nothing else changes. */
  lemma LossWrites(fm: Formats, text: E.Job -> string, read: string -> Option<E.Job>, s: Watched, i: nat)
    requires D.Inv(fm, text, s.world) && i < |s.owed|
    ensures var lost := s.(owed := s.owed[..i] + s.owed[i + 1..], lost := s.lost + [s.owed[i]]);
            Next(fm, text, read, s, Lose(i)) == lost &&
            var id, rows := s.owed[i].job, s.world.queue.table.jobs;
            (id in rows && read(rows[id].payload).None? ==> Next(fm, text, read, s, Tell(i)) == lost)
  {
    hide D.Inv, D.Next;
  }

  lemma TellKeeps(fm: Formats, text: E.Job -> string, read: string -> Option<E.Job>, s: Watched, i: nat)
    requires Inv(fm, text, s) && i < |s.owed|
    requires var j := s.world.engine.jobs[s.owed[i].job - 1]; read(text(j)) == Some(j)
    ensures Inv(fm, text, Next(fm, text, read, s, Tell(i)))
  {
    hide R.Inv, Q.Inv, D.Queued, D.AddAll, CountEvents, Times, Report;
    var n := s.owed[i];
    var j := s.world.engine.jobs[n.job - 1];
    ReportIs(fm, text, read, s.world, n);
    var op := R.Record(j.submission, E.ActionFailed, None, E.Performed(j.trigger, j.action, n.error, n.job));
    var e := EventOf(j, n);
    RecordAppends(fm, text, s.world, op, e);
    D.StepKeepsInv(fm, text, s.world, D.Call(op));
    HookWrites(fm, text, read, s, i);
    forall id
      ensures CountEvents(s.world.engine.events + [e], id) + Times(Without(s.owed, i), id) ==
              CountEvents(s.world.engine.events, id) + Times(s.owed, id)
    {
      CountAppended(s.world.engine.events, e, id);
      TimesWithout(s.owed, i, id);
    }
  }

  lemma LossKeeps(fm: Formats, text: E.Job -> string, s: Watched, i: nat)
    requires Inv(fm, text, s) && i < |s.owed|
    ensures Inv(fm, text, Lost(s, i))
  {
    hide D.Inv, CountEvents, Times, TellsOf;
    forall id
      ensures Times(Without(s.owed, i), id) + Times(s.lost + [s.owed[i]], id) ==
              Times(s.owed, id) + Times(s.lost, id)
    {
      TimesWithout(s.owed, i, id);
      TimesTogether(s.lost, [s.owed[i]], id);
      TimesOne(s.owed[i], id);
    }
  }

  lemma StepKeepsInv(fm: Formats, text: E.Job -> string, read: string -> Option<E.Job>, s: Watched, step: Step)
    requires Inv(fm, text, s) && NeverMisread(text, read) && Possible(fm, s, step)
    ensures Inv(fm, text, Next(fm, text, read, s, step))
  {
    hide D.Inv, D.Next, R.Possible, Balanced, EventsTell;
    match step
    case Plain(d) => PlainKeeps(fm, text, read, s, d);
    case Tell(i) =>
      var n := s.owed[i];
      if read(text(s.world.engine.jobs[n.job - 1])).Some? {
        TellKeeps(fm, text, read, s, i);
      } else {
        NothingToReport(fm, text, read, s.world, n);
        LossKeeps(fm, text, s, i);
      }
    case Lose(i) => LossKeeps(fm, text, s, i);
  }

  // ---- runs ----------------------------------------------------------------------------------------------------

  ghost predicate PossibleRun(fm: Formats, text: E.Job -> string, read: string -> Option<E.Job>, s: Watched,
          steps: seq<Step>)
    requires Inv(fm, text, s) && NeverMisread(text, read)
    decreases |steps|
  {
    steps != [] ==>
      Possible(fm, s, steps[0]) &&
      (StepKeepsInv(fm, text, read, s, steps[0]);
       PossibleRun(fm, text, read, Next(fm, text, read, s, steps[0]), steps[1..]))
  }

  ghost function Run(fm: Formats, text: E.Job -> string, read: string -> Option<E.Job>, s: Watched, steps: seq<Step>)
    : (r: Watched)
    requires Inv(fm, text, s) && NeverMisread(text, read) && PossibleRun(fm, text, read, s, steps)
    ensures Inv(fm, text, r)
    decreases |steps|
  {
    if steps == [] then s
    else
      StepKeepsInv(fm, text, read, s, steps[0]);
      Run(fm, text, read, Next(fm, text, read, s, steps[0]), steps[1..])
  }

  lemma StartIsFine(fm: Formats, text: E.Job -> string)
    ensures Inv(fm, text, START)
  {
    D.StartIsFine(fm, text);
  }

  ghost predicate PossibleFromStart(fm: Formats, text: E.Job -> string, read: string -> Option<E.Job>,
          steps: seq<Step>) {
    StartIsFine(fm, text);
    NeverMisread(text, read) && PossibleRun(fm, text, read, START, steps)
  }

  ghost function FromStart(fm: Formats, text: E.Job -> string, read: string -> Option<E.Job>, steps: seq<Step>)
    : (r: Watched)
    requires PossibleFromStart(fm, text, read, steps)
    ensures Inv(fm, text, r)
  {
    StartIsFine(fm, text);
    Run(fm, text, read, START, steps)
  }

  ghost predicate Told(s: Watched, id: nat) {
    forall n :: n in s.owed + s.lost ==> n.job != id
  }

  /** In every run a job has no more failure events than failures, and as many exactly if no notice of it is owed or
      lost. Without a retry it then has one if it is failed and none otherwise. Each event names the
      submission, the trigger and the action of its job. */
  lemma FailuresAreRecorded(fm: Formats, text: E.Job -> string, read: string -> Option<E.Job>, steps: seq<Step>,
          id: nat)
    requires PossibleFromStart(fm, text, read, steps)
    ensures var s := FromStart(fm, text, read, steps);
            var events := s.world.engine.events;
            CountEvents(events, id) <= Failures(s, id) &&
            (CountEvents(events, id) == Failures(s, id) <==> Told(s, id)) &&
            (Told(s, id) && id !in s.retried ==> CountEvents(events, id) == if HasFailed(s.world, id) then 1 else 0) &&
            forall k :: 0 <= k < |events| && events[k].kind.ActionFailed? ==>
              var e, jobs := events[k], s.world.engine.jobs;
              e.detail.Performed? && 1 <= e.detail.job <= |jobs| &&
              e.submission == jobs[e.detail.job - 1].submission && e.detail.trigger == jobs[e.detail.job - 1].trigger &&
              e.detail.action == jobs[e.detail.job - 1].action
  {
    hide D.Inv, FromStart, PossibleFromStart, CountEvents, Times;
    var s := FromStart(fm, text, read, steps);
    TimesCount(s.owed, id);
    TimesCount(s.lost, id);
    assert CountEvents(s.world.engine.events, id) + Times(s.owed, id) + Times(s.lost, id) == Failures(s, id);
  }

  lemma TimesCount(ns: seq<Notice>, id: nat)
    ensures Times(ns, id) == 0 <==> forall n :: n in ns ==> n.job != id
  {
    if n :| n in ns && n.job == id {
      var i :| 0 <= i < |ns| && ns[i] == n;
      assert Ids(ns)[i] == id;
    }
    if id in Ids(ns) {
      var i :| 0 <= i < |ns| && Ids(ns)[i] == id;
      assert ns[i] in ns;
    }
  }
}
