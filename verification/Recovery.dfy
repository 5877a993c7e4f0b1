/** Crashed workers: a job whose lease has run out is taken again, and waits no longer than a pending one. */
module Recovery {
  import opened Common
  import opened JobQueue

  /** The worker of the job has let its lease run out. */
  ghost predicate Abandoned(s: System, id: nat) {
    id in s.table.jobs && s.table.jobs[id].status.Running? && s.table.jobs[id].lockedUntil.Some? &&
    s.table.jobs[id].lockedUntil.value < s.now
  }

  /** Waiting for its first or next attempt since before now, or abandoned. */
  ghost predicate Overdue(s: System, id: nat) {
    Waiting(s, id) || Abandoned(s, id)
  }

  // ---- what is claimed --------------------------------------------------------------------------------

  /** A claim is possible exactly of the first job, by time and id, among the pending ones whose time has come and the
      running ones whose lease is over. */
  ghost predicate Claimable(s: System, id: nat) {
    id in s.table.jobs &&
    var j := s.table.jobs[id];
    (j.status.Pending? && j.runAt <= s.now) || (j.status.Running? && j.lockedUntil.Some? && j.lockedUntil.value < s.now)
  }

  ghost predicate Earlier(s: System, i: nat, id: nat)
    requires i in s.table.jobs && id in s.table.jobs
  {
    var a, b := s.table.jobs[i].runAt, s.table.jobs[id].runAt; a < b || (a == b && i < id)
  }

  lemma TakesTheFirst(s: System, id: nat)
    ensures Enabled(s, Take(id)) <==>
            Claimable(s, id) && forall i :: Claimable(s, i) && i != id ==> Earlier(s, id, i)
  {
    if Claimable(s, id) && forall i :: Claimable(s, i) && i != id ==> Earlier(s, id, i) {
      forall i | i in s.table.jobs && i != id && Due(s.table.jobs[i], s.now) ensures Before(s.table.jobs, id, i) {
        assert Claimable(s, i);
      }
    }
  }

  /** While there is such a job, some claim is possible. */
  lemma SomeClaimIsPossible(s: System, id: nat)
    requires Claimable(s, id)
    ensures exists i :: Enabled(s, Take(i))
  {
    SomeJobIsNext(s.table.jobs, s.now, s.table.jobs.Keys);
    var i :| i in s.table.jobs && Due(s.table.jobs[i], s.now) &&
             forall k :: k in s.table.jobs && k != i && Due(s.table.jobs[k], s.now) ==> Before(s.table.jobs, i, k);
    assert Enabled(s, Take(i));
  }

  /** The claim of a job runs for the length of a lease, counts as one more attempt and, if the job was abandoned, as a
      crash; no other job changes. */
  lemma TakeLeases(s: System, id: nat)
    requires Inv(s) && Enabled(s, Take(id))
    ensures id in s.history
    ensures var s', was := Apply(s, Take(id)), s.table.jobs[id];
            s'.now == s.now && s'.table.jobs.Keys == s.table.jobs.Keys &&
            (forall i :: i in s.table.jobs && i != id ==> s'.table.jobs[i] == s.table.jobs[i]) &&
            var j := s'.table.jobs[id];
            j.status.Running? && j.lockedUntil == Some(s.now + 300) && j.attempts == was.attempts + 1 &&
            j.kind == was.kind && j.payload == was.payload && j.runAt == was.runAt && !Abandoned(s', id) &&
            s'.history[id].crashed == s.history[id].crashed + if Abandoned(s, id) then 1 else 0
  {
    hide BackoffDelay, WaitBefore;
    assert RowOk(s.now, s.table.jobs[id], s.history[id]);
  }

  // ---- an abandoned job is taken again ------------------------------------------------------------------

  /** The jobs that can be claimed, or soon can, and are ordered before job id. */
  ghost function InFront(s: System, id: nat): set<nat>
    requires id in s.table.jobs
  {
    set i | i in s.table.jobs && (s.table.jobs[i].status.Pending? || Abandoned(s, i)) && Before(s.table.jobs, i, id)
  }

  /** No further lease runs out in the step. */
  ghost predicate NobodyCrashes(s: System, s': System) {
    forall i :: Abandoned(s', i) ==> Abandoned(s, i)
  }

  /** No further lease runs out before the last step of the run. */
  ghost predicate NoCrashIn(s: System, steps: seq<Step>)
    requires Inv(s) && Possible(s, steps)
    decreases |steps|
  {
    |steps| > 1 ==>
      (StepKeepsInv(s, steps[0]);
       NobodyCrashes(s, Apply(s, steps[0])) && NoCrashIn(Apply(s, steps[0]), steps[1..]))
  }

  lemma OverdueStays(s: System, step: Step, id: nat)
    requires Inv(s) && Enabled(s, step) && Overdue(s, id) && step != Take(id)
    ensures var s' := Apply(s, step);
            Overdue(s', id) && s'.table.jobs[id] == s.table.jobs[id] && s.table.jobs[id].runAt < s.now <= s'.now
  {
    hide BackoffDelay, WaitBefore, ClaimsOk;
    assert RowOk(s.now, s.table.jobs[id], s.history[id]);
    if step.Report? { LiveClaimMatches(s, step.claim); }
  }

  lemma NobodyNewInFront(s: System, step: Step, id: nat, i: nat)
    requires Inv(s) && Enabled(s, step) && Overdue(s, id) && step != Take(id)
    requires NobodyCrashes(s, Apply(s, step)) && id in Apply(s, step).table.jobs && i in InFront(Apply(s, step), id)
    ensures i in InFront(s, id)
  {
    hide RowOk, BackoffDelay;
    OverdueStays(s, step, id);
    if step.Report? { LiveClaimMatches(s, step.claim); }
  }

  /** Nothing is put before an overdue job any more, and every claim of another job is of one that was before it. */
  lemma NobodyOvertakesOverdue(s: System, step: Step, id: nat)
    requires Inv(s) && Enabled(s, step) && Overdue(s, id) && step != Take(id) && NobodyCrashes(s, Apply(s, step))
    ensures Overdue(Apply(s, step), id) && InFront(Apply(s, step), id) <= InFront(s, id)
    ensures step.Take? ==> step.id in InFront(s, id) && step.id !in InFront(Apply(s, step), id)
  {
    hide RowOk, BackoffDelay;
    OverdueStays(s, step, id);
    var s' := Apply(s, step);
    forall i | i in InFront(s', id) ensures i in InFront(s, id) { NobodyNewInFront(s, step, id, i); }
    if step.Take? { TakenWasInFront(s, step.id, id); }
  }

  lemma TakenWasInFront(s: System, i: nat, id: nat)
    requires Inv(s) && Enabled(s, Take(i)) && Overdue(s, id) && i != id
    ensures i in InFront(s, id) && id in Apply(s, Take(i)).table.jobs && i !in InFront(Apply(s, Take(i)), id)
  {
    hide RowOk, BackoffDelay;
    OverdueStays(s, Take(i), id);
  }

  lemma TakingCrashesNobody(s: System, id: nat)
    requires Inv(s) && Enabled(s, Take(id))
    ensures NobodyCrashes(s, Apply(s, Take(id)))
  {
    TakeLeases(s, id);
  }

  /** An overdue job, abandoned or not, is taken within one more claim than there are jobs in front of it, in every run
      in which no further lease runs out. */
  lemma {:induction false} OverdueJobsAreTaken(s: System, steps: seq<Step>, id: nat)
    requires Inv(s) && Possible(s, steps) && NoCrashIn(s, steps) && Overdue(s, id)
    requires Takes(steps) > |InFront(s, id)|
    ensures Take(id) in steps
    decreases |steps|
  {
    hide RowOk, ClaimsOk, Apply, NobodyCrashes, InFront;
    if steps[0] != Take(id) {
      var step := steps[0];
      StepKeepsInv(s, step);
      if step.Take? { TakingCrashesNobody(s, step.id); }
      var s' := Apply(s, step);
      if |steps| == 1 {
        OnlyStep(steps);
        NobodyOvertakesOverdue(s, step, id);
      } else {
        NobodyOvertakesOverdue(s, step, id);
        if step.Take? {
          SubsetIsNoLarger(InFront(s', id), InFront(s, id) - {step.id});
        } else {
          SubsetIsNoLarger(InFront(s', id), InFront(s, id));
        }
        OverdueJobsAreTaken(s', steps[1..], id);
      }
    }
  }

  lemma OnlyStep(steps: seq<Step>)
    requires |steps| == 1 && Takes(steps) > 0
    ensures steps[0].Take?
  {
    assert steps[1..] == [];
  }
}
