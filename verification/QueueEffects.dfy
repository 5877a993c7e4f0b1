/** What each operation of the job queue writes, column by column. */
module QueueEffects {
  import opened Common
  import opened JobQueue

  /** An error and its causes, outermost first. */
  function Causes(e: Failure): seq<Failure> {
    [e] + if e.cause.Some? then Causes(e.cause.value) else []
  }

  /** An error is permanent exactly if it or one of its causes is marked so. */
  lemma {:induction false} PermanentMeans(e: Failure)
    ensures SomewherePermanent(e) <==> exists i :: 0 <= i < |Causes(e)| && Causes(e)[i].permanent
  {
    if e.cause.Some? {
      var rest := Causes(e.cause.value);
      PermanentMeans(e.cause.value);
      assert forall i :: 0 < i < |Causes(e)| ==> Causes(e)[i] == rest[i - 1];
      if i :| 0 <= i < |rest| && rest[i].permanent { assert Causes(e)[i + 1].permanent; }
    }
    assert Causes(e)[0] == e;
  }

  /** Every job but one is as before. */
  ghost predicate OnlyJob(t: Table, t': Table, id: nat) {
    t'.nextId == t.nextId && id in t.jobs && t'.jobs.Keys == t.jobs.Keys &&
    (forall i :: i in t.jobs && i != id ==> t'.jobs[i] == t.jobs[i]) &&
    var was, now := t.jobs[id], t'.jobs[id];
    now.org == was.org && now.kind == was.kind && now.payload == was.payload && now.maxAttempts == was.maxAttempts &&
    now.createdAt == was.createdAt
  }

  /** A new job is pending, due at once, with no attempts made and eight to make. */
  lemma EnqueueWrites(t: Table, now: int, org: nat, kind: string, payload: string)
    requires t.nextId !in t.jobs
    ensures var t' := Enqueued(t, now, org, kind, payload);
            t'.nextId == t.nextId + 1 && t'.jobs.Keys == t.jobs.Keys + {t.nextId} &&
            (forall i :: i in t.jobs ==> t'.jobs[i] == t.jobs[i]) &&
            var j := t'.jobs[t.nextId];
            j.org == org && j.kind == kind && j.payload == payload && j.status == Pending && j.attempts == 0 &&
            j.maxAttempts == 8 && j.runAt == now && j.lockedUntil == None && j.lastError == "" && j.createdAt == now &&
            j.updatedAt == now
  {
  }

  /** A claim takes the job for 300 seconds and counts as an attempt. */
  lemma ClaimWrites(t: Table, now: int, id: nat)
    requires id in t.jobs
    ensures var t' := Claimed(t, now, id);
            OnlyJob(t, t', id) &&
            var was, j := t.jobs[id], t'.jobs[id];
            j.status == Running && j.attempts == was.attempts + 1 && j.lockedUntil == Some(now + 300) &&
            j.runAt == was.runAt && j.lastError == was.lastError && j.updatedAt == now
  {
  }

  /** Success makes the job done. An error that is permanent, or the last attempt's, makes it failed; any other makes
      it pending again after the wait. */
  lemma FinishWrites(t: Table, now: int, id: nat, attempts: nat, maxAttempts: nat, err: Option<Failure>)
    requires id in t.jobs
    ensures var t' := Finished(t, now, id, attempts, maxAttempts, err);
            OnlyJob(t, t', id) &&
            var was, j := t.jobs[id], t'.jobs[id];
            j.attempts == was.attempts && j.lockedUntil == None && j.updatedAt == now &&
            match err
            case None => j.status == Done && j.lastError == "" && j.runAt == was.runAt
            case Some(e) =>
              j.lastError == e.message &&
              if attempts >= maxAttempts || exists i :: 0 <= i < |Causes(e)| && Causes(e)[i].permanent
              then j.status == Failed && j.runAt == was.runAt
              else j.status == Pending && j.runAt == now + BackoffDelay(attempts)
  {
    hide BackoffDelay, SomewherePermanent;
    if err.Some? { PermanentMeans(err.value); }
  }

  /** A job that is not there any more is not written. */
  lemma FinishOfNothing(t: Table, now: int, id: nat, attempts: nat, maxAttempts: nat, err: Option<Failure>)
    requires id !in t.jobs
    ensures Finished(t, now, id, attempts, maxAttempts, err) == t
  {
  }

  /** The first wait is 5 seconds, each further one twice as long, but none longer than an hour. */
  lemma WaitDoubles(attempts: nat)
    ensures attempts <= 1 ==> BackoffDelay(attempts) == 5
    ensures attempts >= 1 ==>
              BackoffDelay(attempts + 1) == if BackoffDelay(attempts) < 1800 then 2 * BackoffDelay(attempts) else 3600
  {
  }

  /** A retry makes a failed job of the organisation pending again, due at once, with all attempts to make. */
  lemma RetryWrites(t: Table, now: int, org: nat, id: nat)
    ensures var t' := Retried(t, now, org, id);
            if id in t.jobs && t.jobs[id].org == org && t.jobs[id].status == Failed then
              OnlyJob(t, t', id) &&
              var j := t'.jobs[id];
              j.status == Pending && j.attempts == 0 && j.runAt == now && j.lockedUntil == None && j.lastError == "" &&
              j.updatedAt == now
            else t' == t
  {
  }

  /** A worker's round counts one attempt and leaves the job done, failed or pending; without a handler it has failed.
      */
  lemma RoundWrites(t: Table, now: int, later: int, id: nat, handlers: set<string>, outcome: Option<Failure>)
    requires id in t.jobs
    ensures var t' := Worked(t, now, later, id, handlers, outcome);
            OnlyJob(t, t', id) &&
            var was, j := t.jobs[id], t'.jobs[id];
            j.attempts == was.attempts + 1 && j.lockedUntil == None && j.updatedAt == later &&
            if was.kind !in handlers then j.status == Failed && j.runAt == was.runAt
            else match outcome
              case None => j.status == Done && j.lastError == "" && j.runAt == was.runAt
              case Some(e) =>
                j.lastError == e.message &&
                if was.attempts + 1 >= was.maxAttempts || exists i :: 0 <= i < |Causes(e)| && Causes(e)[i].permanent
                then j.status == Failed && j.runAt == was.runAt
                else j.status == Pending && j.runAt == later + BackoffDelay(was.attempts + 1)
  {
    hide BackoffDelay, Finished, Claimed, SomewherePermanent;
    ClaimWrites(t, now, id);
    var claimed := Claimed(t, now, id);
    var j := claimed.jobs[id];
    var err := if j.kind in handlers then outcome else Some(Failure(true, "no handler registered for kind", None));
    FinishWrites(claimed, later, id, j.attempts, j.maxAttempts, err);
    if j.kind !in handlers { assert Causes(err.value)[0].permanent; }
  }

  /** When a step is possible: time may pass and jobs may come at any time, a worker may report a claim that it holds
      until its lease is over, and a failed job of the organisation may be retried. Only the passing of time moves the
      clock, and it changes nothing else; only a claim adds a claim, and only its report removes it. */
  lemma StepsArePossible(s: System, step: Step)
    requires step.Take? ==> step.id in s.history
    ensures match step
            case Tick(_) => Enabled(s, step)
            case Add(_, _, _) => Enabled(s, step)
            case Take(_) => true
            case Report(c, _) => Enabled(s, step) <==> c in s.claims && s.now <= s.claims[c].lock
            case Reset(org, id) =>
              Enabled(s, step) <==> id in s.table.jobs && s.table.jobs[id].org == org && s.table.jobs[id].status.Failed?
    ensures Enabled(s, step) ==>
              var s' := Apply(s, step);
              s'.now == s.now + (if step.Tick? then step.seconds else 0) &&
              (step.Tick? ==> s' == s.(now := s'.now)) &&
              (step.Take? ==>
                 var c := s.nextClaim;
                 s'.nextClaim == c + 1 && c in s'.claims && s'.claims == s.claims[c := s'.claims[c]] &&
                 s'.claims[c].job == step.id && s'.claims[c].lock == s.now + 300) &&
              (step.Report? ==> s'.claims == s.claims - {step.claim}) &&
              (!step.Take? && !step.Report? ==> s'.claims == s.claims)
  {
    hide Before, Due, IsNextDue, Claimed, Finished, Retried, Enqueued;
  }
}
