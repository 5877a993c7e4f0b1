/** The leased job queue: the table and its operations, and what holds in every run of workers over it.
    Every database statement is one atomic step; times are integral seconds. */
module JobQueue {
  import opened Common

  datatype Status = Pending | Running | Done | Failed

  datatype Job = Job(
    org: nat, kind: string, payload: string, status: Status, attempts: nat, maxAttempts: nat,
    runAt: int, lockedUntil: Option<int>, lastError: string, createdAt: int, updatedAt: int)

  const LOCK_DURATION := 300
  const BASE_BACKOFF := 5
  const MAX_BACKOFF := 3600
  const DEFAULT_MAX_ATTEMPTS := 8

  datatype Table = Table(jobs: map<nat, Job>, nextId: nat)

  // ---- errors and backoff --------------------------------------------------------------------

  datatype Failure = Failure(permanent: bool, message: string, cause: Option<Failure>)

  predicate SomewherePermanent(e: Failure) {
    e.permanent || (e.cause.Some? && SomewherePermanent(e.cause.value))
  }

  /** Walks the chain of causes. */
  method IsPermanent(err: Failure) returns (r: bool)
    ensures r == SomewherePermanent(err)
  {
    var e := Some(err);
    while e.Some?
      invariant SomewherePermanent(err) <==> e.Some? && SomewherePermanent(e.value)
      decreases e
    {
      if e.value.permanent {
        return true;
      }
      e := e.value.cause;
    }
    return false;
  }

  function Pow2(n: nat): nat {
    if n == 0 then 1 else 2 * Pow2(n - 1)
  }

  /** min(5 s * 2^(attempts-1), 1 h) */
  function BackoffDelay(attempts: nat): nat {
    var d := BASE_BACKOFF * Pow2(if attempts <= 1 then 0 else attempts - 1);
    if d < MAX_BACKOFF then d else MAX_BACKOFF
  }

  lemma {:induction false} Pow2Grows(a: nat, b: nat)
    requires a <= b
    ensures Pow2(a) <= Pow2(b)
    decreases b
  {
    if a < b { Pow2Grows(a, b - 1); }
  }

  lemma BackoffIsPositive(attempts: nat)
    ensures BackoffDelay(attempts) > 0
  {
    Pow2Grows(0, if attempts <= 1 then 0 else attempts - 1);
  }

  method Backoff(attempts: nat) returns (d: nat)
    ensures d == BackoffDelay(attempts)
  {
    d := BASE_BACKOFF;
    var n := if attempts <= 1 then 1 else attempts;
    for i := 1 to n
      invariant d == BASE_BACKOFF * Pow2(i - 1) < MAX_BACKOFF
    {
      d := d * 2;
      if d >= MAX_BACKOFF {
        Pow2Grows(i, n - 1);
        return MAX_BACKOFF;
      }
    }
  }

  /** The waits before claim k of a job whose claims all fail and whose workers never crash. */
  function WaitBefore(k: nat): nat {
    if k <= 1 then 0 else WaitBefore(k - 1) + BackoffDelay(k - 1)
  }

  /** Doubling from 5 s for the first ten waits, one hour each after that. */
  lemma {:induction false} TotalWait(k: nat)
    requires k >= 1
    ensures k <= 11 ==> WaitBefore(k) == 5 * (Pow2(k - 1) - 1)
    ensures k >= 11 ==> WaitBefore(k) == 5115 + 3600 * (k - 11)
  {
    assert Pow2(10) == 1024 by { assert Pow2(5) == 32; }
    if k > 1 {
      TotalWait(k - 1);
      if k <= 11 {
        Pow2Grows(k - 2, 9);
      } else {
        Pow2Grows(10, k - 2);
      }
    }
  }

  // ---- the table ---------------------------------------------------------------------------------

  predicate Due(j: Job, now: int) {
    (j.status.Pending? && j.runAt <= now) || (j.status.Running? && j.lockedUntil.Some? && j.lockedUntil.value < now)
  }

  /** ORDER BY run_at, id */
  predicate Before(jobs: map<nat, Job>, i: nat, j: nat)
    requires i in jobs && j in jobs
  {
    jobs[i].runAt < jobs[j].runAt || (jobs[i].runAt == jobs[j].runAt && i < j)
  }

  predicate IsNextDue(jobs: map<nat, Job>, now: int, id: nat) {
    id in jobs && Due(jobs[id], now) && forall i :: i in jobs && i != id && Due(jobs[i], now) ==> Before(jobs, id, i)
  }

  function Enqueued(t: Table, now: int, org: nat, kind: string, payload: string): Table {
    Table(t.jobs[t.nextId := Job(org, kind, payload, Pending, 0, DEFAULT_MAX_ATTEMPTS, now, None, "", now, now)],
          t.nextId + 1)
  }

  function Claimed(t: Table, now: int, id: nat): Table
    requires id in t.jobs
  {
    var j := t.jobs[id];
    t.(jobs := t.jobs[id := j.(status := Running, attempts := j.attempts + 1,
                               lockedUntil := Some(now + LOCK_DURATION), updatedAt := now)])
  }

  /** The outcome of a handler is recorded by id; the attempt counts are those of the worker's copy. */
  function Finished(t: Table, now: int, id: nat, attempts: nat, maxAttempts: nat, err: Option<Failure>): Table {
    if id !in t.jobs then t
    else
      var j := t.jobs[id];
      t.(jobs := t.jobs[id :=
        match err
        case None => j.(status := Done, lockedUntil := None, lastError := "", updatedAt := now)
        case Some(e) =>
          if SomewherePermanent(e) || attempts >= maxAttempts then
            j.(status := Failed, lockedUntil := None, lastError := e.message, updatedAt := now)
          else
            j.(status := Pending, lockedUntil := None, lastError := e.message,
               runAt := now + BackoffDelay(attempts), updatedAt := now)])
  }

  /** The job ends failed, and the hook is told. */
  predicate EndsFailed(attempts: nat, maxAttempts: nat, err: Option<Failure>) {
    err.Some? && (SomewherePermanent(err.value) || attempts >= maxAttempts)
  }

  predicate Retryable(t: Table, org: nat, id: nat) {
    id in t.jobs && t.jobs[id].org == org && t.jobs[id].status.Failed?
  }

  function Retried(t: Table, now: int, org: nat, id: nat): Table {
    if !Retryable(t, org, id) then t
    else
      t.(jobs := t.jobs[id := t.jobs[id].(status := Pending, attempts := 0, runAt := now, lockedUntil := None,
                                          lastError := "", updatedAt := now)])
  }

  /** A claim followed by the record of its outcome; a job without a handler fails for good. */
  function Worked(t: Table, now: int, later: int, id: nat, handlers: set<string>, outcome: Option<Failure>): Table
    requires id in t.jobs
  {
    var j := Claimed(t, now, id).jobs[id];
    Finished(Claimed(t, now, id), later, id, j.attempts, j.maxAttempts,
             if j.kind in handlers then outcome else Some(Failure(true, "no handler registered for kind", None)))
  }

  /** Among due jobs there is a first one. */
  lemma {:induction false} SomeJobIsNext(jobs: map<nat, Job>, now: int, among: set<nat>)
    requires among <= jobs.Keys && (exists i :: i in among && Due(jobs[i], now))
    ensures exists id ::
              id in among && Due(jobs[id], now) &&
              forall i :: i in among && i != id && Due(jobs[i], now) ==> Before(jobs, id, i)
    decreases |among|
  {
    var x :| x in among && Due(jobs[x], now);
    var rest := among - {x};
    if exists i :: i in rest && Due(jobs[i], now) {
      SomeJobIsNext(jobs, now, rest);
      var y :| y in rest && Due(jobs[y], now) &&
               forall i :: i in rest && i != y && Due(jobs[i], now) ==> Before(jobs, y, i);
      var first := if Before(jobs, x, y) then x else y;
      assert forall i :: i in among && i != first && Due(jobs[i], now) ==> Before(jobs, first, i);
    } else {
      assert forall i :: i in among && i != x ==> !Due(jobs[i], now);
    }
  }

  class Queue {
    var jobs: map<nat, Job>
    var nextId: nat
    var handlers: set<string>
    /** Whether there is a failure hook, and the ids that it was called with. */
    var hooked: bool
    var told: seq<nat>

    ghost function State(): Table
      reads this
    {
      Table(jobs, nextId)
    }

    constructor ()
      ensures State() == Table(map[], 1) && handlers == {} && !hooked && told == []
    {
      jobs, nextId, handlers := map[], 1, {};
      hooked, told := false, [];
    }

    method SetFailedHook(on: bool)
      modifies this`hooked
      ensures hooked == on
    {
      hooked := on;
    }

    method Register(kind: string)
      modifies this`handlers
      ensures handlers == old(handlers) + {kind}
    {
      handlers := handlers + {kind};
    }

    method Enqueue(now: int, org: nat, kind: string, payload: string) returns (id: nat)
      modifies this`jobs, this`nextId
      ensures id == old(nextId) && State() == Enqueued(old(State()), now, org, kind, payload)
    {
      id := nextId;
      jobs := jobs[id := Job(org, kind, payload, Pending, 0, DEFAULT_MAX_ATTEMPTS, now, None, "", now, now)];
      nextId := nextId + 1;
    }

    method Claim(now: int) returns (r: Option<nat>)
      modifies this`jobs
      ensures r.None? ==> State() == old(State()) && forall i :: i in jobs ==> !Due(jobs[i], now)
      ensures r.Some? ==> IsNextDue(old(jobs), now, r.value) && State() == Claimed(old(State()), now, r.value)
      ensures r.None? ==>
                forall i :: i in jobs ==>
                  (jobs[i].status.Pending? ==> jobs[i].runAt > now) &&
                  (jobs[i].status.Running? && jobs[i].lockedUntil.Some? ==> jobs[i].lockedUntil.value >= now)
      ensures r.Some? ==>
                var was, job := old(jobs)[r.value], jobs[r.value];
                ((was.status.Pending? && was.runAt <= now) ||
                 (was.status.Running? && was.lockedUntil.Some? && was.lockedUntil.value < now)) &&
                job.status.Running? && job.attempts == was.attempts + 1 && job.lockedUntil == Some(now + LOCK_DURATION)
    {
      if i :| i in jobs && Due(jobs[i], now) {
        SomeJobIsNext(jobs, now, jobs.Keys);
        var id :| id in jobs && IsNextDue(jobs, now, id);
        var j := jobs[id];
        jobs := jobs[id := j.(status := Running, attempts := j.attempts + 1,
                              lockedUntil := Some(now + LOCK_DURATION), updatedAt := now)];
        return Some(id);
      }
      return None;
    }

    /** Records the outcome, and then tells the hook of a job that has ended failed. */
    method Finish(now: int, id: nat, attempts: nat, maxAttempts: nat, err: Option<Failure>)
      modifies this`jobs, this`told
      ensures State() == Finished(old(State()), now, id, attempts, maxAttempts, err)
      ensures told == old(told) + if hooked && EndsFailed(attempts, maxAttempts, err) then [id] else []
    {
      if err.None? {
        if id in jobs {
          jobs := jobs[id := jobs[id].(status := Done, lockedUntil := None, lastError := "", updatedAt := now)];
        }
        return;
      }
      var message := err.value.message;
      var permanent := IsPermanent(err.value);
      if permanent || attempts >= maxAttempts {
        if id in jobs {
          jobs := jobs[id := jobs[id].(status := Failed, lockedUntil := None, lastError := message, updatedAt := now)];
        }
      } else {
        var delay := Backoff(attempts);
        if id in jobs {
          jobs := jobs[id := jobs[id].(status := Pending, lockedUntil := None, lastError := message,
                                       runAt := now + delay, updatedAt := now)];
        }
        return;
      }
      if hooked {
        told := told + [id];
      }
    }

    /** One round of a worker. `outcome` is what the handler reports, `later` the time when it does;
        a job without a handler fails for good. */
    method RunOnce(now: int, later: int, outcome: Option<Failure>) returns (ran: bool)
      modifies this`jobs, this`told
      ensures !ran ==> State() == old(State()) && told == old(told) && forall i :: i in jobs ==> !Due(jobs[i], now)
      ensures !ran ==>
                forall i :: i in jobs ==>
                  (jobs[i].status.Pending? ==> jobs[i].runAt > now) &&
                  (jobs[i].status.Running? && jobs[i].lockedUntil.Some? ==> jobs[i].lockedUntil.value >= now)
      ensures ran ==> exists id ::
                IsNextDue(old(jobs), now, id) && State() == Worked(old(State()), now, later, id, handlers, outcome) &&
                told == old(told) + if hooked && State().jobs[id].status.Failed? then [id] else []
    {
      var r := Claim(now);
      if r.None? {
        return false;
      }
      var j := jobs[r.value];
      var err := if j.kind in handlers then outcome else Some(Failure(true, "no handler registered for kind", None));
      Finish(later, r.value, j.attempts, j.maxAttempts, err);
      assert IsNextDue(old(jobs), now, r.value);
      return true;
    }

    method Retry(now: int, org: nat, id: nat) returns (found: bool)
      modifies this`jobs
      ensures found == Retryable(old(State()), org, id) && State() == Retried(old(State()), now, org, id)
    {
      if id in jobs && jobs[id].org == org && jobs[id].status.Failed? {
        jobs := jobs[id := jobs[id].(status := Pending, attempts := 0, runAt := now, lockedUntil := None,
                                     lastError := "", updatedAt := now)];
        return true;
      }
      return false;
    }
  }

  // ---- runs -------------------------------------------------------------------------------------

  /** A worker's copy of a claimed job. */
  datatype Claim = Claim(job: nat, attempts: nat, maxAttempts: nat, lock: int)

  /** What happened to a job since it was last enqueued or retried. */
  datatype History = History(since: int, claims: nat, crashed: nat)

  datatype System = System(now: int, table: Table, claims: map<nat, Claim>, nextClaim: nat, history: map<nat, History>)

  datatype Step =
    | Tick(seconds: nat)
    | Add(org: nat, kind: string, payload: string)
    | Take(id: nat)
    | Report(claim: nat, err: Option<Failure>)
    | Reset(org: nat, id: nat)

  /** A worker takes the first due job. A worker whose lease has run out never reports. */
  ghost predicate Enabled(s: System, step: Step) {
    match step
    case Take(id) => IsNextDue(s.table.jobs, s.now, id)
    case Report(c, _) => c in s.claims && s.now <= s.claims[c].lock
    case Reset(org, id) => Retryable(s.table, org, id)
    case _ => true
  }

  ghost function Apply(s: System, step: Step): System
    requires Enabled(s, step) && (step.Take? ==> step.id in s.history)
  {
    match step
    case Tick(n) => s.(now := s.now + n)
    case Add(org, kind, payload) =>
      s.(table := Enqueued(s.table, s.now, org, kind, payload),
         history := s.history[s.table.nextId := History(s.now, 0, 0)])
    case Take(id) =>
      var j, h := s.table.jobs[id], s.history[id];
      var lost := if j.status.Running? then 1 else 0;
      s.(table := Claimed(s.table, s.now, id),
         claims := s.claims[s.nextClaim := Claim(id, j.attempts + 1, j.maxAttempts, s.now + LOCK_DURATION)],
         nextClaim := s.nextClaim + 1,
         history := s.history[id := h.(claims := h.claims + 1, crashed := h.crashed + lost)])
    case Report(c, err) =>
      var k := s.claims[c];
      s.(table := Finished(s.table, s.now, k.job, k.attempts, k.maxAttempts, err), claims := s.claims - {c})
    case Reset(org, id) =>
      s.(table := Retried(s.table, s.now, org, id), history := s.history[id := History(s.now, 0, 0)])
  }

  ghost predicate Live(s: System, c: nat) {
    c in s.claims && s.now <= s.claims[c].lock
  }

  /** The row of a job fits its history: attempts count the claims, a pending job has attempts left, the
      budget is exceeded by crashed claims only, and without crashes no claim comes before its time. */
  ghost predicate RowOk(now: int, j: Job, h: History) {
    j.attempts == h.claims && j.maxAttempts >= 1 &&
    (j.status.Running? <==> j.lockedUntil.Some?) &&
    (j.status.Running? ==> j.runAt + LOCK_DURATION <= j.lockedUntil.value) &&
    (j.status.Pending? ==> j.attempts < j.maxAttempts) &&
    (!j.status.Pending? ==> j.attempts >= 1) &&
    j.attempts <= j.maxAttempts + h.crashed &&
    (h.crashed == 0 && j.status.Pending? ==> j.runAt >= h.since + WaitBefore(j.attempts + 1)) &&
    (h.crashed == 0 && j.status.Running? ==> now >= h.since + WaitBefore(j.attempts))
  }

  ghost predicate RowsOk(s: System) {
    s.history.Keys == s.table.jobs.Keys &&
    forall id :: id in s.table.jobs ==> id < s.table.nextId && RowOk(s.now, s.table.jobs[id], s.history[id])
  }

  /** A live claim is the only one of its job and matches the row's attempts and lock. */
  ghost predicate ClaimsOk(s: System) {
    (forall c :: c in s.claims ==> c < s.nextClaim) &&
    (forall c :: Live(s, c) ==> Matches(s.claims[c], s.table)) &&
    forall c, d :: Live(s, c) && Live(s, d) && c != d ==> s.claims[c].job != s.claims[d].job
  }

  ghost predicate Inv(s: System) {
    RowsOk(s) && ClaimsOk(s)
  }

  const EMPTY := System(0, Table(map[], 1), map[], 0, map[])

  lemma StepKeepsRow(s: System, step: Step, id: nat)
    requires Inv(s) && Enabled(s, step) && id in s.table.jobs
    ensures var s' := Apply(s, step);
            id in s'.table.jobs && id in s'.history && RowOk(s'.now, s'.table.jobs[id], s'.history[id])
  {
    hide BackoffDelay, Pow2, SomewherePermanent, ClaimsOk;
    assert RowOk(s.now, s.table.jobs[id], s.history[id]);
    if step.Report? {
      LiveClaimMatches(s, step.claim);
    }
  }

  lemma LiveClaimMatches(s: System, c: nat)
    requires ClaimsOk(s) && Live(s, c)
    ensures Matches(s.claims[c], s.table)
  {
  }

  lemma StepKeepsRows(s: System, step: Step)
    requires Inv(s) && Enabled(s, step)
    ensures RowsOk(Apply(s, step))
  {
    var s' := Apply(s, step);
    forall id | id in s.table.jobs
      ensures id in s'.table.jobs && id in s'.history && RowOk(s'.now, s'.table.jobs[id], s'.history[id])
    {
      StepKeepsRow(s, step, id);
    }
    if step.Report? {
      assert Live(s, step.claim);
    }
  }

  lemma StepKeepsClaims(s: System, step: Step)
    requires Inv(s) && Enabled(s, step)
    ensures ClaimsOk(Apply(s, step))
  {
    hide RowOk;
    var s' := Apply(s, step);
    forall c | Live(s', c) && c in s.claims ensures Live(s, c) {}
    if step.Take? {
      forall c | Live(s, c) ensures s.claims[c].job != step.id {}
    }
  }

  lemma StepKeepsInv(s: System, step: Step)
    requires Inv(s) && Enabled(s, step)
    ensures Inv(Apply(s, step))
  {
    StepKeepsRows(s, step);
    StepKeepsClaims(s, step);
  }

  /** The steps can be taken one after the other. */
  ghost predicate Possible(s: System, steps: seq<Step>)
    requires Inv(s)
    decreases |steps|
  {
    steps != [] ==> Enabled(s, steps[0]) && (StepKeepsInv(s, steps[0]); Possible(Apply(s, steps[0]), steps[1..]))
  }

  ghost function Run(s: System, steps: seq<Step>): (r: System)
    requires Inv(s) && Possible(s, steps)
    ensures Inv(r)
    decreases |steps|
  {
    if steps == [] then s else StepKeepsInv(s, steps[0]); Run(Apply(s, steps[0]), steps[1..])
  }

  /** In every run from the empty queue: a job has at most one live claim, which matches the row; pending
      jobs have attempts left; and the claims since the last enqueue or retry exceed the allowed attempts
      at most by the number of crashed claims. */
  lemma EveryRun(steps: seq<Step>)
    requires Possible(EMPTY, steps)
    ensures var s := Run(EMPTY, steps);
            forall c, d :: Live(s, c) && Live(s, d) && c != d ==> s.claims[c].job != s.claims[d].job
    ensures var s := Run(EMPTY, steps); forall c :: Live(s, c) ==> Matches(s.claims[c], s.table)
    ensures var s := Run(EMPTY, steps);
            forall id :: id in s.table.jobs ==> id in s.history && WithinBudget(s.table.jobs[id], s.history[id])
  {
    var s := Run(EMPTY, steps);
    forall id | id in s.table.jobs ensures RowOk(s.now, s.table.jobs[id], s.history[id]) {}
  }

  ghost predicate Matches(k: Claim, t: Table) {
    k.job in t.jobs && t.jobs[k.job].status.Running? && t.jobs[k.job].attempts == k.attempts &&
    t.jobs[k.job].maxAttempts == k.maxAttempts && t.jobs[k.job].lockedUntil == Some(k.lock)
  }

  ghost predicate WithinBudget(j: Job, h: History) {
    j.attempts == h.claims && (j.status.Pending? ==> j.attempts < j.maxAttempts) &&
    h.claims <= j.maxAttempts + h.crashed
  }

  /** While no worker crashes on a job, its claim number k comes no earlier than the k-1 backoff waits allow. */
  lemma ClaimsAreSpaced(s: System, id: nat)
    requires Inv(s) && Enabled(s, Take(id))
    ensures id in s.history
    ensures var j, h := s.table.jobs[id], s.history[id];
            h.crashed == 0 && j.status.Pending? ==> s.now >= h.since + WaitBefore(h.claims + 1)
  {
    assert RowOk(s.now, s.table.jobs[id], s.history[id]);
  }

  /** A done job is never touched again; a failed one only by a retry. */
  lemma {:induction false} DoneIsFinal(s: System, steps: seq<Step>, id: nat)
    requires Inv(s) && Possible(s, steps) && id in s.table.jobs && s.table.jobs[id].status.Done?
    ensures id in Run(s, steps).table.jobs && Run(s, steps).table.jobs[id] == s.table.jobs[id]
    decreases |steps|
  {
    if steps != [] {
      StepKeepsInv(s, steps[0]);
      RestingJobsStay(s, steps[0], id);
      DoneIsFinal(Apply(s, steps[0]), steps[1..], id);
    }
  }

  lemma {:induction false} FailedUntilRetry(s: System, steps: seq<Step>, id: nat)
    requires Inv(s) && Possible(s, steps) && id in s.table.jobs && s.table.jobs[id].status.Failed?
    requires forall i :: 0 <= i < |steps| ==> !(steps[i].Reset? && steps[i].id == id)
    ensures id in Run(s, steps).table.jobs && Run(s, steps).table.jobs[id] == s.table.jobs[id]
    decreases |steps|
  {
    if steps != [] {
      StepKeepsInv(s, steps[0]);
      RestingJobsStay(s, steps[0], id);
      FailedUntilRetry(Apply(s, steps[0]), steps[1..], id);
    }
  }

  lemma RestingJobsStay(s: System, step: Step, id: nat)
    requires Inv(s) && Enabled(s, step) && id in s.table.jobs
    requires s.table.jobs[id].status.Done? || (s.table.jobs[id].status.Failed? && !(step.Reset? && step.id == id))
    ensures id in Apply(s, step).table.jobs && Apply(s, step).table.jobs[id] == s.table.jobs[id]
  {
    hide RowOk;
    if step.Report? {
      assert Live(s, step.claim);
    }
  }

  /** In the run a worker with a claim of the job reports success, or reports an error. */
  ghost predicate ReportedIn(s: System, steps: seq<Step>, id: nat, success: bool)
    requires Inv(s) && Possible(s, steps)
    decreases |steps|
  {
    steps != [] &&
    (Reports(s, steps[0], id, success) ||
     (StepKeepsInv(s, steps[0]); ReportedIn(Apply(s, steps[0]), steps[1..], id, success)))
  }

  ghost predicate Reports(s: System, step: Step, id: nat, success: bool) {
    step.Report? && step.claim in s.claims && s.claims[step.claim].job == id && step.err.None? == success
  }

  ghost predicate HasEnded(s: System, id: nat, success: bool) {
    id in s.table.jobs && s.table.jobs[id].status == if success then Done else Failed
  }

  /** A job becomes done only by a report of success, and failed only by a report of an error. */
  lemma {:induction false} EndsAreReported(s: System, steps: seq<Step>, id: nat, success: bool)
    requires Inv(s) && Possible(s, steps) && !HasEnded(s, id, success) && HasEnded(Run(s, steps), id, success)
    ensures ReportedIn(s, steps, id, success)
    decreases |steps|
  {
    hide RowOk, ClaimsOk, Apply, Reports, HasEnded;
    if !Reports(s, steps[0], id, success) {
      StepKeepsInv(s, steps[0]);
      OnlyReportsEnd(s, steps[0], id, success);
      EndsAreReported(Apply(s, steps[0]), steps[1..], id, success);
    }
  }

  lemma OnlyReportsEnd(s: System, step: Step, id: nat, success: bool)
    requires Inv(s) && Enabled(s, step) && !HasEnded(s, id, success) && !Reports(s, step, id, success)
    ensures !HasEnded(Apply(s, step), id, success)
  {
    hide RowOk, BackoffDelay, SomewherePermanent;
  }

  // ---- no starvation ------------------------------------------------------------------------------

  /** The pending jobs that are ordered before job id. */
  ghost function Ahead(s: System, id: nat): set<nat>
    requires id in s.table.jobs
  {
    set i | i in s.table.jobs && s.table.jobs[i].status.Pending? && Before(s.table.jobs, i, id)
  }

  ghost predicate NoExpiry(s: System) {
    forall i :: i in s.table.jobs && s.table.jobs[i].status.Running? && s.table.jobs[i].lockedUntil.Some? ==>
      s.now <= s.table.jobs[i].lockedUntil.value
  }

  /** No lease runs out before the last step of the run. */
  ghost predicate NoExpiryIn(s: System, steps: seq<Step>)
    requires Inv(s) && Possible(s, steps)
    decreases |steps|
  {
    steps != [] ==> NoExpiry(s) && (StepKeepsInv(s, steps[0]); NoExpiryIn(Apply(s, steps[0]), steps[1..]))
  }

  function Takes(steps: seq<Step>): nat {
    if steps == [] then 0 else (if steps[0].Take? then 1 else 0) + Takes(steps[1..])
  }

  ghost predicate Waiting(s: System, id: nat) {
    id in s.table.jobs && s.table.jobs[id].status.Pending? && s.table.jobs[id].runAt < s.now
  }

  /** Once the clock is past a job's time nothing is ever ordered before it any more, and every claim of
      another job is of one that was. */
  lemma NobodyOvertakes(s: System, step: Step, id: nat)
    requires Inv(s) && Enabled(s, step) && NoExpiry(s) && Waiting(s, id) && step != Take(id)
    ensures Waiting(Apply(s, step), id)
    ensures Ahead(Apply(s, step), id) <= Ahead(s, id)
    ensures step.Take? ==> step.id in Ahead(s, id) && step.id !in Ahead(Apply(s, step), id)
  {
    hide RowOk;
    if step.Report? {
      assert Live(s, step.claim);
    }
  }

  /** No starvation: such a job is claimed within one more claim than there were jobs before it. */
  lemma {:induction false} NoStarvation(s: System, steps: seq<Step>, id: nat)
    requires Inv(s) && Possible(s, steps) && NoExpiryIn(s, steps) && Waiting(s, id)
    requires Takes(steps) > |Ahead(s, id)|
    ensures Take(id) in steps
    decreases |steps|
  {
    if steps[0] != Take(id) {
      StepKeepsInv(s, steps[0]);
      NobodyOvertakes(s, steps[0], id);
      var s' := Apply(s, steps[0]);
      if steps[0].Take? {
        SubsetIsNoLarger(Ahead(s', id), Ahead(s, id) - {steps[0].id});
      } else {
        SubsetIsNoLarger(Ahead(s', id), Ahead(s, id));
      }
      NoStarvation(s', steps[1..], id);
    }
  }

  /** A worker that looks while a job is waiting finds work. */
  lemma WorkIsFound(s: System, id: nat)
    requires Waiting(s, id)
    ensures exists i :: Enabled(s, Take(i))
  {
    SomeJobIsNext(s.table.jobs, s.now, s.table.jobs.Keys);
    var i :| i in s.table.jobs && Due(s.table.jobs[i], s.now) &&
             forall k :: k in s.table.jobs && k != i && Due(s.table.jobs[k], s.now) ==> Before(s.table.jobs, i, k);
    assert Enabled(s, Take(i));
  }

  lemma StepsAreRun(s: System, step: Step, rest: seq<Step>)
    requires Inv(s) && Enabled(s, step)
    ensures Inv(Apply(s, step))
    ensures Possible(Apply(s, step), rest) ==>
              Possible(s, [step] + rest) && Run(s, [step] + rest) == Run(Apply(s, step), rest)
    ensures Possible(Apply(s, step), rest) && NoExpiry(s) && NoExpiryIn(Apply(s, step), rest) ==>
              NoExpiryIn(s, [step] + rest)
  {
    hide Inv, Apply, Enabled, NoExpiry;
    StepKeepsInv(s, step);
    assert ([step] + rest)[1..] == rest;
  }

  // ---- the very second ------------------------------------------------------------------------------

  /** Pending, and the clock stands exactly at the job's time. */
  ghost predicate AtTheTick(s: System, id: nat) {
    id in s.table.jobs && s.table.jobs[id].status.Pending? && s.table.jobs[id].runAt == s.now
  }

  /** A worker holds the job and may still report. */
  ghost predicate Held(s: System, i: nat) {
    exists c :: Live(s, c) && s.claims[c].job == i
  }

  /** An older job that a retry can put before the job: it has failed, or may yet fail in this second because a worker
      holds it or will be given it first. */
  ghost predicate Rival(s: System, id: nat, i: nat)
    requires id in s.table.jobs
  {
    i < id && i in s.table.jobs && (s.table.jobs[i].status.Failed? || i in Ahead(s, id) || Held(s, i))
  }

  ghost predicate NoRivals(s: System, id: nat)
    requires id in s.table.jobs
  {
    forall i :: !Rival(s, id, i)
  }

  /** What NoStarvation promises, for all runs from here. */
  ghost predicate ClaimedInTime(s: System, id: nat)
    requires Inv(s) && id in s.table.jobs
  {
    forall steps :: Possible(s, steps) && NoExpiryIn(s, steps) && Takes(steps) > |Ahead(s, id)| ==> Take(id) in steps
  }

  lemma TickKeepsJob(s: System, step: Step, id: nat)
    requires Inv(s) && Enabled(s, step) && NoExpiry(s) && AtTheTick(s, id) && NoRivals(s, id) && step != Take(id)
    ensures var s' := Apply(s, step); id in s'.table.jobs && s'.table.jobs[id] == s.table.jobs[id]
  {
    hide RowOk, BackoffDelay, NoRivals;
    if step.Report? { LiveClaimMatches(s, step.claim); }
  }

  lemma NobodyNewAhead(s: System, step: Step, id: nat, i: nat)
    requires Inv(s) && Enabled(s, step) && NoExpiry(s) && AtTheTick(s, id) && NoRivals(s, id) && step != Take(id)
    requires id in Apply(s, step).table.jobs && i in Ahead(Apply(s, step), id)
    ensures i in Ahead(s, id)
  {
    hide RowOk, BackoffDelay, NoRivals;
    TickKeepsJob(s, step, id);
    match step
    case Report(c, err) =>
      LiveClaimMatches(s, c);
      BackoffIsPositive(s.claims[c].attempts);
    case Reset(org, j) => assert !Rival(s, id, j) by { NoRivalsMeans(s, id, j); }
    case _ =>
  }

  lemma NoRivalsMeans(s: System, id: nat, i: nat)
    requires id in s.table.jobs && NoRivals(s, id)
    ensures !Rival(s, id, i)
  {
  }

  lemma NobodyNewRival(s: System, step: Step, id: nat, i: nat)
    requires Inv(s) && Enabled(s, step) && NoExpiry(s) && AtTheTick(s, id) && NoRivals(s, id) && step != Take(id)
    requires id in Apply(s, step).table.jobs
    ensures !Rival(Apply(s, step), id, i)
  {
    hide RowOk, BackoffDelay, NoRivals, Ahead;
    var s' := Apply(s, step);
    NoRivalsMeans(s, id, i);
    if Rival(s', id, i) {
      if i in Ahead(s', id) { NobodyNewAhead(s, step, id, i); }
      OlderOnesRest(s, step, id, i);
    }
  }

  /** Without rivals a step does nothing to an older job but let time pass. */
  lemma OlderOnesRest(s: System, step: Step, id: nat, i: nat)
    requires Inv(s) && Enabled(s, step) && NoExpiry(s) && AtTheTick(s, id) && !Rival(s, id, i) && step != Take(id)
    requires i < id
    ensures var s' := Apply(s, step);
            (i in s'.table.jobs ==> i in s.table.jobs && s'.table.jobs[i] == s.table.jobs[i]) &&
            (i in s.table.jobs && Held(s', i) ==> Held(s, i))
  {
    hide RowOk, BackoffDelay;
    match step
    case Report(c, err) => LiveClaimMatches(s, c);
    case Take(j) => assert j in Ahead(s, id);
    case _ =>
  }

  lemma NobodyOvertakesAtTheTick(s: System, step: Step, id: nat)
    requires Inv(s) && Enabled(s, step) && NoExpiry(s) && AtTheTick(s, id) && NoRivals(s, id) && step != Take(id)
    ensures var s' := Apply(s, step);
            (Waiting(s', id) || (AtTheTick(s', id) && NoRivals(s', id))) && Ahead(s', id) <= Ahead(s, id)
    ensures step.Take? ==> step.id in Ahead(s, id) && step.id !in Ahead(Apply(s, step), id)
  {
    hide Rival, RowOk;
    var s' := Apply(s, step);
    TickKeepsJob(s, step, id);
    forall i | i in Ahead(s', id) ensures i in Ahead(s, id) { NobodyNewAhead(s, step, id, i); }
    forall i ensures !Rival(s', id, i) { NobodyNewRival(s, step, id, i); }
  }

  /** The bound holds at the job's very second as well if there are no rivals. */
  lemma {:induction false} NoStarvationAtTheTick(s: System, steps: seq<Step>, id: nat)
    requires Inv(s) && Possible(s, steps) && NoExpiryIn(s, steps) && AtTheTick(s, id) && NoRivals(s, id)
    requires Takes(steps) > |Ahead(s, id)|
    ensures Take(id) in steps
    decreases |steps|
  {
    hide RowOk, ClaimsOk, Apply, NoExpiry, NoRivals;
    if steps[0] != Take(id) {
      StepKeepsInv(s, steps[0]);
      NobodyOvertakesAtTheTick(s, steps[0], id);
      var s' := Apply(s, steps[0]);
      if steps[0].Take? {
        SubsetIsNoLarger(Ahead(s', id), Ahead(s, id) - {steps[0].id});
      } else {
        SubsetIsNoLarger(Ahead(s', id), Ahead(s, id));
      }
      if Waiting(s', id) {
        NoStarvation(s', steps[1..], id);
      } else {
        NoStarvationAtTheTick(s', steps[1..], id);
      }
    }
  }

  /** While some job is ahead of one that is due, a job ahead of it is the next to be claimed. */
  lemma SomeoneAheadIsNext(s: System, id: nat) returns (j: nat)
    requires Inv(s) && NoExpiry(s) && AtTheTick(s, id) && Ahead(s, id) != {}
    ensures j in Ahead(s, id) && Enabled(s, Take(j)) && j in s.history
    ensures var s' := Apply(s, Take(j));
            Inv(s') && NoExpiry(s') && AtTheTick(s', id) && Ahead(s', id) == Ahead(s, id) - {j} &&
            Live(s', s.nextClaim) && s'.claims[s.nextClaim].job == j
  {
    hide RowOk, ClaimsOk, Apply, Ahead;
    j := FirstAhead(s, id);
    StepKeepsInv(s, Take(j));
    ClaimedFromAhead(s, id, j);
  }

  lemma FirstAhead(s: System, id: nat) returns (j: nat)
    requires RowsOk(s) && NoExpiry(s) && AtTheTick(s, id) && Ahead(s, id) != {}
    ensures j in Ahead(s, id) && Enabled(s, Take(j))
  {
    hide RowOk;
    var a :| a in Ahead(s, id);
    SomeJobIsNext(s.table.jobs, s.now, s.table.jobs.Keys);
    j :| j in s.table.jobs && Due(s.table.jobs[j], s.now) &&
         forall k :: k in s.table.jobs && k != j && Due(s.table.jobs[k], s.now) ==> Before(s.table.jobs, j, k);
    assert Due(s.table.jobs[a], s.now);
  }

  lemma ClaimedFromAhead(s: System, id: nat, j: nat)
    requires NoExpiry(s) && AtTheTick(s, id) && j in Ahead(s, id) && Enabled(s, Take(j)) && j in s.history
    ensures var s' := Apply(s, Take(j));
            NoExpiry(s') && AtTheTick(s', id) && Ahead(s', id) == Ahead(s, id) - {j} &&
            Live(s', s.nextClaim) && s'.claims[s.nextClaim].job == j
  {
  }

  /** All jobs ahead can be claimed one after the other. */
  lemma {:induction false} ClaimAhead(s: System, id: nat) returns (steps: seq<Step>)
    requires Inv(s) && NoExpiry(s) && AtTheTick(s, id)
    ensures Possible(s, steps) && NoExpiryIn(s, steps) && Take(id) !in steps && Takes(steps) == |Ahead(s, id)|
    decreases |Ahead(s, id)|
  {
    hide Inv, Apply, Enabled, NoExpiry, Ahead;
    if Ahead(s, id) == {} {
      steps := [];
      NoSteps(s);
    } else {
      var j := SomeoneAheadIsNext(s, id);
      var s' := Apply(s, Take(j));
      var rest := ClaimAhead(s', id);
      steps := FirstTake(s, id, j, rest);
    }
  }

  lemma FirstTake(s: System, id: nat, j: nat, rest: seq<Step>) returns (steps: seq<Step>)
    requires Inv(s) && NoExpiry(s) && id in s.table.jobs && j in Ahead(s, id) && Enabled(s, Take(j)) && j in s.history
    requires var s' := Apply(s, Take(j)); Inv(s') && Possible(s', rest) && NoExpiryIn(s', rest) && Take(id) !in rest
    ensures Possible(s, steps) && NoExpiryIn(s, steps) && Take(id) !in steps && Takes(steps) == 1 + Takes(rest)
  {
    hide Inv, Apply, Enabled, NoExpiry;
    steps := [Take(j)] + rest;
    OneMore(s, Take(j), Apply(s, Take(j)), rest);
    assert steps[1..] == rest;
  }

  lemma FirstOther(s: System, id: nat, step: Step, rest: seq<Step>) returns (steps: seq<Step>)
    requires Inv(s) && NoExpiry(s) && Enabled(s, step) && !step.Take?
    requires var s' := Apply(s, step); Inv(s') && Possible(s', rest) && NoExpiryIn(s', rest) && Take(id) !in rest
    ensures Possible(s, steps) && NoExpiryIn(s, steps) && Take(id) !in steps && Takes(steps) == Takes(rest)
  {
    hide Inv, Apply, Enabled, NoExpiry;
    steps := [step] + rest;
    OneMore(s, step, Apply(s, step), rest);
    assert steps[1..] == rest;
  }

  lemma ResetGoesAhead(s: System, id: nat, i: nat)
    requires NoExpiry(s) && AtTheTick(s, id) && i < id && i in s.table.jobs && s.table.jobs[i].status.Failed?
    ensures var reset := Reset(s.table.jobs[i].org, i);
            Enabled(s, reset) && i !in Ahead(s, id) &&
            var s' := Apply(s, reset);
            NoExpiry(s') && AtTheTick(s', id) && Ahead(s', id) == Ahead(s, id) + {i}
  {
  }

  /** A failed older job can be reset, which puts it ahead. */
  lemma FailedBreaks(s: System, id: nat, i: nat) returns (steps: seq<Step>)
    requires Inv(s) && NoExpiry(s) && AtTheTick(s, id) && i < id && i in s.table.jobs && s.table.jobs[i].status.Failed?
    ensures Possible(s, steps) && NoExpiryIn(s, steps) && Take(id) !in steps && Takes(steps) == |Ahead(s, id)| + 1
  {
    hide Inv, NoExpiryIn, Possible, NoExpiry, Apply, Ahead, Enabled;
    var reset := Reset(s.table.jobs[i].org, i);
    ResetGoesAhead(s, id, i);
    StepKeepsInv(s, reset);
    var rest := ClaimAhead(Apply(s, reset), id);
    steps := FirstOther(s, id, reset, rest);
  }

  /** A held older job can fail and be reset. */
  lemma HeldBreaks(s: System, id: nat, c: nat) returns (steps: seq<Step>)
    requires Inv(s) && NoExpiry(s) && AtTheTick(s, id) && Live(s, c) && s.claims[c].job < id
    ensures Possible(s, steps) && NoExpiryIn(s, steps) && Take(id) !in steps && Takes(steps) == |Ahead(s, id)| + 1
  {
    hide RowOk, NoExpiryIn, Possible;
    LiveClaimMatches(s, c);
    var fail := Report(c, Some(Failure(true, "no", None)));
    assert SomewherePermanent(Failure(true, "no", None));
    StepKeepsInv(s, fail);
    var s' := Apply(s, fail);
    assert NoExpiry(s') && AtTheTick(s', id) && s'.table.jobs[s.claims[c].job].status.Failed?;
    assert Ahead(s', id) == Ahead(s, id);
    var rest := FailedBreaks(s', id, s.claims[c].job);
    steps := FirstOther(s, id, fail, rest);
  }

  /** An older job that is ahead is claimed in its turn, can fail and be reset. */
  lemma {:induction false} AheadBreaks(s: System, id: nat, i: nat) returns (steps: seq<Step>)
    requires Inv(s) && NoExpiry(s) && AtTheTick(s, id) && i < id && i in Ahead(s, id)
    ensures Possible(s, steps) && NoExpiryIn(s, steps) && Take(id) !in steps && Takes(steps) == |Ahead(s, id)| + 1
    decreases |Ahead(s, id)|
  {
    hide Inv, Apply, Enabled, NoExpiry, Ahead, NoExpiryIn, Possible;
    var j := SomeoneAheadIsNext(s, id);
    var s' := Apply(s, Take(j));
    var rest;
    if j == i {
      rest := HeldBreaks(s', id, s.nextClaim);
    } else {
      rest := AheadBreaks(s', id, i);
    }
    steps := FirstTake(s, id, j, rest);
  }

  /** At a job's very second the bound holds for all runs if and only if the job has no rival. */
  lemma BoundAtTheTick(s: System, id: nat)
    requires Inv(s) && NoExpiry(s) && AtTheTick(s, id)
    ensures ClaimedInTime(s, id) <==> NoRivals(s, id)
  {
    hide Inv, NoExpiry, Ahead, NoExpiryIn, Possible, NoRivals;
    if NoRivals(s, id) {
      forall steps | Possible(s, steps) && NoExpiryIn(s, steps) && Takes(steps) > |Ahead(s, id)|
        ensures Take(id) in steps
      {
        NoStarvationAtTheTick(s, steps, id);
      }
    } else {
      var i := SomeRival(s, id);
      var steps;
      if i in Ahead(s, id) {
        steps := AheadBreaks(s, id, i);
      } else if Held(s, i) {
        var c :| Live(s, c) && s.claims[c].job == i;
        steps := HeldBreaks(s, id, c);
      } else {
        steps := FailedBreaks(s, id, i);
      }
    }
  }

  lemma SomeRival(s: System, id: nat) returns (i: nat)
    requires id in s.table.jobs && !NoRivals(s, id)
    ensures Rival(s, id, i)
  {
    i :| Rival(s, id, i);
  }

  lemma EmptyIsFine()
    ensures Inv(EMPTY)
  {
  }

  const NEW_JOB := Job(0, "k", "p", Pending, 0, DEFAULT_MAX_ATTEMPTS, 0, None, "", 0, 0)
  const FAILED_JOB := NEW_JOB.(status := Failed, attempts := 1, lastError := "no")
  const TAKEN_JOB := NEW_JOB.(status := Running, attempts := 1, lockedUntil := Some(LOCK_DURATION))
  const ADD := Add(0, "k", "p")
  const FAIL := Report(0, Some(Failure(true, "no", None)))

  const AFTER_ADD := System(0, Table(map[1 := NEW_JOB], 2), map[], 0, map[1 := History(0, 0, 0)])
  const AFTER_TAKE := System(
    0, Table(map[1 := TAKEN_JOB], 2), map[0 := Claim(1, 1, DEFAULT_MAX_ATTEMPTS, LOCK_DURATION)], 1,
    map[1 := History(0, 1, 0)])
  const AFTER_FAIL := System(0, Table(map[1 := FAILED_JOB], 2), map[], 1, map[1 := History(0, 1, 0)])
  const AFTER_SECOND := System(0, Table(map[1 := FAILED_JOB, 2 := NEW_JOB], 3), map[], 1,
                               map[1 := History(0, 1, 0), 2 := History(0, 0, 0)])
  const AFTER_RETRY := System(0, Table(map[1 := NEW_JOB, 2 := NEW_JOB], 3), map[], 1,
                              map[1 := History(0, 0, 0), 2 := History(0, 0, 0)])

  lemma FirstIsTaken()
    ensures Enabled(EMPTY, ADD) && Apply(EMPTY, ADD) == AFTER_ADD
    ensures Enabled(AFTER_ADD, Take(1)) && Apply(AFTER_ADD, Take(1)) == AFTER_TAKE
  {
  }

  lemma FirstFails()
    ensures Enabled(AFTER_TAKE, FAIL) && Apply(AFTER_TAKE, FAIL) == AFTER_FAIL
  {
    assert SomewherePermanent(Failure(true, "no", None));
    assert AFTER_TAKE.claims - {0} == map[];
  }

  lemma SecondIsPassed()
    ensures Enabled(AFTER_FAIL, ADD) && Apply(AFTER_FAIL, ADD) == AFTER_SECOND && Ahead(AFTER_SECOND, 2) == {}
    ensures Enabled(AFTER_SECOND, Reset(0, 1)) && Apply(AFTER_SECOND, Reset(0, 1)) == AFTER_RETRY
    ensures Enabled(AFTER_RETRY, Take(1)) && NoExpiry(AFTER_SECOND) && NoExpiry(AFTER_RETRY)
  {
  }

  /** A run goes on with one more step at its front. */
  lemma OneMore(s: System, step: Step, s': System, rest: seq<Step>)
    requires Inv(s) && Enabled(s, step) && (step.Take? ==> step.id in s.history) && Apply(s, step) == s'
    ensures Inv(s') && (Possible(s', rest) ==> Possible(s, [step] + rest) && Run(s, [step] + rest) == Run(s', rest))
    ensures Possible(s', rest) && NoExpiry(s) && NoExpiryIn(s', rest) ==> NoExpiryIn(s, [step] + rest)
  {
    hide Inv, Apply, Enabled, NoExpiry;
    StepsAreRun(s, step, rest);
  }

  /** "Strictly past" is needed: in a run from the empty queue job 2 is pending at its very time with no job ahead
      of it, and yet the next claim, after a retry of job 1 in the same second, is of job 1. */
  lemma StarvedAtTheTick() returns (before: seq<Step>, after: seq<Step>)
    ensures Inv(EMPTY) && Possible(EMPTY, before)
    ensures var s := Run(EMPTY, before);
            2 in s.table.jobs && s.table.jobs[2].status.Pending? && s.table.jobs[2].runAt == s.now &&
            Ahead(s, 2) == {} &&
            Possible(s, after) && NoExpiryIn(s, after) && Takes(after) > |Ahead(s, 2)| && Take(2) !in after
  {
    hide Inv, Possible, Run, NoExpiryIn, Apply, Enabled, NoExpiry, Ahead;
    EmptyIsFine();
    FirstIsTaken();
    FirstFails();
    SecondIsPassed();
    OneMore(EMPTY, ADD, AFTER_ADD, [Take(1), FAIL, ADD]);
    OneMore(AFTER_ADD, Take(1), AFTER_TAKE, [FAIL, ADD]);
    OneMore(AFTER_TAKE, FAIL, AFTER_FAIL, [ADD]);
    OneMore(AFTER_FAIL, ADD, AFTER_SECOND, []);
    OneMore(AFTER_SECOND, Reset(0, 1), AFTER_RETRY, [Take(1)]);
    OneMore(AFTER_RETRY, Take(1), Apply(AFTER_RETRY, Take(1)), []);
    NoSteps(AFTER_SECOND);
    NoSteps(Apply(AFTER_RETRY, Take(1)));
    before, after := [ADD, Take(1), FAIL, ADD], [Reset(0, 1), Take(1)];
    assert before == [ADD] + [Take(1), FAIL, ADD] && [Take(1), FAIL, ADD] == [Take(1)] + [FAIL, ADD];
    assert [FAIL, ADD] == [FAIL] + [ADD] && [ADD] == [ADD] + [];
    assert after == [Reset(0, 1)] + [Take(1)] && [Take(1)] == [Take(1)] + [];
    assert after[1..] == [Take(1)] && Takes(after) == Takes([Take(1)]) == 1 + Takes([]);
  }

  lemma NoSteps(s: System)
    requires Inv(s)
    ensures Possible(s, []) && Run(s, []) == s && NoExpiryIn(s, [])
  {
  }
}
