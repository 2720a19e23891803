/** No retry before its failure time plus the wait: over whole runs, and exactly when
    the failed attempt gets recorded. */
module QueueRetryTimes {
  import opened Models
  import opened Backoff
  import opened Tables
  import opened Retry
  import opened QueueSystem
  import opened QueueInvariant
  import opened QueueSteps
  import opened QueueTheorems
  import opened QueueProgress

  // ----- Between the outcome and its save -----

  /** Worker w has an outcome to record, as wk says. */
  predicate Recording(s: State, w: nat, wk: Worker) {
    w < |s.workers| && s.workers[w] == wk && wk.Saving?
  }

  /** Nothing but the save itself, or a crash, takes the outcome from the worker. */
  lemma RecordingStays(s: State, step: Step, w: nat, wk: Worker)
    requires Enabled(s, step) && DomainsOk(s) && Recording(s, w, wk)
    requires !step.Crash? && !(step.Save? && step.w == w)
    ensures Recording(Apply(s, step), w, wk)
  {
    if IsWorkerStep(step) {
      assert Mover(step) != w ==> Apply(s, step).workers[w] == s.workers[w];
    }
  }

  /** The row of a recorded failure: pending, one attempt further, due at d. */
  ghost predicate RetryDue(s: State, id: DeliveryId, attempts: nat, d: Time) {
    id in s.db.deliveries ==>
      && id in s.db.queue && s.db.deliveries[id].status == Pending
      && s.db.deliveries[id].attempts == attempts && s.db.queue[id].due == d
  }

  lemma SaveReschedules(s: State, w: nat)
    requires w < |s.workers| && s.workers[w].Saving? && s.workers[w].next.Some?
    requires s.workers[w].result.status == Pending
    requires s.workers[w].job.id in s.hist.original && RowOk(s, s.workers[w].job.id)
    ensures var wk := s.workers[w]; RetryDue(DoSave(s, w, true), wk.job.id, wk.result.attempts, wk.next.value)
  {
  }

  /** The failure is worth a retry, and one is left. */
  ghost predicate Retries(s: State, w: nat, o: Outcome) {
    && w < |s.workers| && s.workers[w].Sending? && s.workers[w].job.snapshot.Encoded? && !s.cancelled
    && var retry := s.workers[w].job.snapshot.snap.retry;
       Retryable(o, retry.retryOnTimeout) && s.workers[w].job.attempts < retry.maxRetries
  }

  lemma FailureIsRecorded(s: State, w: nat, o: Outcome, t: Time, wait: Duration)
    requires Enabled(s, Complete(w, o, t, wait)) && Retries(s, w, o)
    ensures var s1 := Apply(s, Complete(w, o, t, wait));
      && w < |s1.workers| && s1.workers[w].Saving? && s1.workers[w].job == s.workers[w].job
      && s1.workers[w].next == Some(t + wait) && s1.workers[w].result.status == Pending
      && s1.workers[w].result.attempts == s.workers[w].job.attempts + 1
  {
  }

  lemma {:induction false} RecordingRun(s: State, steps: seq<Step>, w: nat, wk: Worker)
    requires Inv(s) && Valid(s, steps) && Recording(s, w, wk)
    requires forall step :: step in steps ==> !step.Crash? && !(step.Save? && step.w == w)
    ensures Recording(Run(s, steps), w, wk)
    decreases |steps|
  {
    if steps != [] {
      RecordingStays(s, steps[0], w, wk);
      StepKeeps(s, steps[0]);
      RecordingRun(Apply(s, steps[0]), steps[1..], w, wk);
    }
  }

  /** Whatever happens between a retryable failure at time t and its save, the save
      leaves the row pending, one attempt further, and due exactly one backoff after t. */
  lemma RetryIsScheduled(s: State, w: nat, o: Outcome, t: Time, wait: Duration, steps: seq<Step>)
    requires Reachable(s) && Retries(s, w, o) && Valid(s, [Complete(w, o, t, wait)] + steps)
    requires forall step :: step in steps ==> !step.Crash? && !(step.Save? && step.w == w)
    ensures var s' := Run(s, [Complete(w, o, t, wait)] + steps);
      && Enabled(s', Save(w, true))
      && RetryDue(Apply(s', Save(w, true)), s.workers[w].job.id, s.workers[w].job.attempts + 1, t + wait)
  {
    var s1, wk := AfterFailure(s, w, o, t, wait, steps);
    RecordingRun(s1, steps, w, wk);
    RunKeeps(s1, steps);
    RecordedLater(Run(s1, steps), w, wk);
  }

  /** The state right after the failure. */
  lemma AfterFailure(s: State, w: nat, o: Outcome, t: Time, wait: Duration, steps: seq<Step>) returns (s1: State, wk: Worker)
    requires Reachable(s) && Retries(s, w, o) && Valid(s, [Complete(w, o, t, wait)] + steps)
    ensures Inv(s1) && Valid(s1, steps) && Run(s, [Complete(w, o, t, wait)] + steps) == Run(s1, steps)
    ensures s1.db == s.db
    ensures Recording(s1, w, wk) && wk.job == s.workers[w].job && wk.next == Some(t + wait)
    ensures wk.result.status == Pending && wk.result.attempts == wk.job.attempts + 1
  {
    ReachableInv(s);
    RunCons(s, Complete(w, o, t, wait), steps);
    FailureIsRecorded(s, w, o, t, wait);
    StepKeeps(s, Complete(w, o, t, wait));
    TablesStay(s, Complete(w, o, t, wait));
    s1 := Apply(s, Complete(w, o, t, wait));
    wk := s1.workers[w];
  }

  lemma RecordedLater(s: State, w: nat, wk: Worker)
    requires Inv(s) && Recording(s, w, wk) && wk.next.Some? && wk.result.status == Pending
    ensures Enabled(s, Save(w, true))
    ensures RetryDue(Apply(s, Save(w, true)), wk.job.id, wk.result.attempts, wk.next.value)
  {
    assert WorkerOk(s, s.workers[w]);
    SaveReschedules(s, w);
  }

  // ----- No early retry -----

  /** The next save of worker w succeeds, and no crash comes before it. What comes
      after it is open: it may crash, fail and restart. */
  predicate Lands(steps: seq<Step>, w: nat) {
    steps == []
    || (!steps[0].Crash? && (if steps[0].Save? && steps[0].w == w then steps[0].ok else Lands(steps[1..], w)))
  }

  /** The delivery cannot be claimed before d: its worker still has the outcome to
      record, with a due time of d, or its row is due no earlier. */
  ghost predicate Guarded(s: State, t: Time, w: nat, wk: Worker, d: Time)
    requires wk.Saving?
  {
    Recording(s, w, wk) || DueFrom(s, t, wk.job.id, d)
  }

  lemma LandedStep(s: State, w: nat, wk: Worker, t: Time)
    requires Inv(s) && Recording(s, w, wk) && wk.next.Some? && wk.result.status == Pending
    ensures DueFrom(DoSave(s, w, true), t, wk.job.id, wk.next.value)
  {
    var s', id := DoSave(s, w, true), wk.job.id;
    assert WorkerOk(s, s.workers[w]);
    SaveReschedules(s, w);
    forall v | 0 <= v < |s'.workers| ensures !s'.workers[v].Holds(id) {
      assert v != w ==> s'.workers[v] == s.workers[v];
    }
    assert id in s'.db.deliveries <==> id in s.db.deliveries;
  }

  lemma {:induction false} GuardedRun(s: State, steps: seq<Step>, t: Time, w: nat, wk: Worker)
    requires Inv(s) && Valid(s, steps) && Monotone(steps, t) && Lands(steps, w)
    requires Recording(s, w, wk) && wk.next.Some? && wk.result.status == Pending
    ensures Guarded(Run(s, steps), ClockAfter(steps, t), w, wk, wk.next.value)
    decreases |steps|
  {
    if steps != [] {
      var step, s1 := steps[0], Apply(s, steps[0]);
      StepKeeps(s, step);
      if step.Save? && step.w == w {
        LandedStep(s, w, wk, OrElse(Moment(step), t));
        DueRun(s1, steps[1..], OrElse(Moment(step), t), wk.job.id, wk.next.value);
      } else {
        RecordingStays(s, step, w, wk);
        GuardedRun(s1, steps[1..], OrElse(Moment(step), t), w, wk);
      }
    }
  }

  /** Nobody can claim what worker w still holds. */
  lemma NotClaimable(s: State, w: nat, wk: Worker, v: nat, now: Time)
    requires WorkersOk(s) && Recording(s, w, wk)
    ensures !Enabled(s, Claim(v, wk.job.id, now))
  {
    assert WorkerOk(s, s.workers[w]);
  }

  lemma DueClaim(s: State, t: Time, id: DeliveryId, d: Time, v: nat, now: Time)
    requires DueFrom(s, t, id, d)
    ensures Enabled(s, Claim(v, id, now)) ==> now >= d
  {
  }

  lemma GuardedClaims(s: State, steps: seq<Step>, t: Time, w: nat, wk: Worker, v: nat, now: Time)
    requires Inv(s) && Valid(s, steps) && Monotone(steps, t) && Lands(steps, w)
    requires Recording(s, w, wk) && wk.next.Some? && wk.result.status == Pending
    ensures Enabled(Run(s, steps), Claim(v, wk.job.id, now)) ==> now >= wk.next.value
  {
    GuardedRun(s, steps, t, w, wk);
    RunKeeps(s, steps);
    if Recording(Run(s, steps), w, wk) {
      NotClaimable(Run(s, steps), w, wk, v, now);
    } else {
      DueClaim(Run(s, steps), ClockAfter(steps, t), wk.job.id, wk.next.value, v, now);
    }
  }

  /** No retry before its failure time plus the wait, in any continuation in which the
      failure gets recorded: with a clock that never goes back, and waits that are not
      negative, every later claim comes at t + wait or after. */
  lemma NoEarlyRetry(s: State, w: nat, o: Outcome, t: Time, wait: Duration, steps: seq<Step>, v: nat, now: Time)
    requires Reachable(s) && Retries(s, w, o) && Valid(s, [Complete(w, o, t, wait)] + steps)
    requires Monotone(steps, t) && Lands(steps, w)
    requires Enabled(Run(s, [Complete(w, o, t, wait)] + steps), Claim(v, s.workers[w].job.id, now))
    ensures now >= t + wait
  {
    var s1, wk := AfterFailure(s, w, o, t, wait, steps);
    GuardedClaims(s1, steps, t, w, wk, v, now);
  }

  // ----- A failure that is not recorded -----

  /** The two ways in which the record of worker w's outcome gets lost, and a restart. */
  function Lost(w: nat, saveFails: bool, count: nat): seq<Step> {
    (if saveFails then [Save(w, false)] else []) + [Crash, Start(count)]
  }

  lemma {:induction false} LostNeverLands(steps: seq<Step>, w: nat, saveFails: bool, count: nat)
    requires forall step :: step in steps ==> !step.Crash? && !(step.Save? && step.w == w)
    ensures !Lands(steps + Lost(w, saveFails, count), w)
  {
    var all := steps + Lost(w, saveFails, count);
    if steps == [] {
      assert all == Lost(w, saveFails, count);
      assert all[0] == if saveFails then Save(w, false) else Crash;
    } else {
      assert all[0] == steps[0] && all[1..] == steps[1..] + Lost(w, saveFails, count);
      LostNeverLands(steps[1..], w, saveFails, count);
    }
  }

  /** While the outcome waits to be recorded, the queue row keeps its old due time. */
  lemma HeldRowStays(s: State, step: Step, s': State, w: nat, wk: Worker)
    requires Recording(s, w, wk) && Exclusive(s.workers) && wk.job.id in s.hist.original && wk.job.id in s'.hist.original
    requires RowOk(s, wk.job.id) && RowOk(s', wk.job.id) && RowMoves(s, step, s', wk.job.id)
    requires !(step.Save? && step.w == w)
    ensures wk.job.id in s'.db.deliveries ==>
      && wk.job.id in s.db.deliveries && wk.job.id in s.db.queue && wk.job.id in s'.db.queue
      && s'.db.queue[wk.job.id] == s.db.queue[wk.job.id]
  {
  }

  lemma HeldRowStep(s: State, step: Step, w: nat, wk: Worker)
    requires Inv(s) && Enabled(s, step) && Recording(s, w, wk) && !(step.Save? && step.w == w)
    ensures wk.job.id in Apply(s, step).db.deliveries ==>
      && wk.job.id in s.db.deliveries && wk.job.id in s.db.queue && wk.job.id in Apply(s, step).db.queue
      && Apply(s, step).db.queue[wk.job.id] == s.db.queue[wk.job.id]
  {
    assert WorkerOk(s, s.workers[w]);
    InvIsLocal(s, step, wk.job.id);
    StepMoves(s, step, wk.job.id);
    StepKeeps(s, step);
    HeldRowStays(s, step, Apply(s, step), w, wk);
  }

  lemma {:induction false} HeldRowRun(s: State, steps: seq<Step>, w: nat, wk: Worker)
    requires Inv(s) && Valid(s, steps) && Recording(s, w, wk) && wk.job.id in Run(s, steps).db.deliveries
    requires forall step :: step in steps ==> !step.Crash? && !(step.Save? && step.w == w)
    ensures wk.job.id in s.db.deliveries && wk.job.id in s.db.queue && wk.job.id in Run(s, steps).db.queue
    ensures Run(s, steps).db.queue[wk.job.id] == s.db.queue[wk.job.id]
    decreases |steps|
  {
    assert WorkerOk(s, s.workers[w]);
    if steps == [] {
      assert RowOk(s, wk.job.id);
    } else {
      RecordingStays(s, steps[0], w, wk);
      StepKeeps(s, steps[0]);
      HeldRowRun(Apply(s, steps[0]), steps[1..], w, wk);
      HeldRowStep(s, steps[0], w, wk);
    }
  }

  lemma FailedSave(s: State, w: nat, id: DeliveryId)
    requires Inv(s) && s.up && w < |s.workers| && s.workers[w].Saving? && s.workers[w].job.id == id
    requires id in s.db.deliveries
    ensures var s' := Apply(s, Save(w, false));
      && Inv(s') && s'.up && s'.db == s.db && id in s'.hist.original && Unfinished(s.db.deliveries[id].status)
  {
    assert WorkerOk(s, s.workers[w]);
    StepKeeps(s, Save(w, false));
  }

  lemma LostRow(s: State, w: nat, saveFails: bool, count: nat, id: DeliveryId, now: Time)
    requires Inv(s) && s.up && count >= 1 && w < |s.workers| && s.workers[w].Saving? && s.workers[w].job.id == id
    requires id in s.db.deliveries
    ensures Valid(s, Lost(w, saveFails, count))
    ensures var s' := Run(s, Lost(w, saveFails, count));
      id in s.db.queue && (Due(s'.db, id, now) <==> s.db.queue[id].due <= now)
  {
    if saveFails {
      FailedSave(s, w, id);
      assert RowOk(Apply(s, Save(w, false)), id);
      RestartRow(Apply(s, Save(w, false)), count, id, now);
      assert Lost(w, saveFails, count)[1..] == [Crash, Start(count)];
    } else {
      assert WorkerOk(s, s.workers[w]) && RowOk(s, id);
      RestartRow(s, count, id, now);
      assert Lost(w, saveFails, count) == [Crash, Start(count)];
    }
  }

  lemma {:induction false} RunAppend(s: State, a: seq<Step>, b: seq<Step>)
    requires Valid(s, a) && Valid(Run(s, a), b)
    ensures Valid(s, a + b) && Run(s, a + b) == Run(Run(s, a), b)
    decreases |a|
  {
    if a == [] {
      assert a + b == b;
    } else {
      assert (a + b)[0] == a[0] && (a + b)[1..] == a[1..] + b;
      RunAppend(Apply(s, a[0]), a[1..], b);
    }
  }

  /** The failure, what comes after it, and the loss of its record. */
  function Unrecorded(failure: Step, steps: seq<Step>, w: nat, saveFails: bool, count: nat): seq<Step> {
    [failure] + steps + Lost(w, saveFails, count)
  }

  lemma LostLater(s: State, steps: seq<Step>, w: nat, wk: Worker, saveFails: bool, count: nat, now: Time)
    requires Inv(s) && Valid(s, steps) && Recording(s, w, wk) && count >= 1
    requires forall step :: step in steps ==> !step.Crash? && !(step.Save? && step.w == w)
    requires wk.job.id in Run(s, steps).db.deliveries
    ensures wk.job.id in s.db.queue && Valid(Run(s, steps), Lost(w, saveFails, count))
    ensures Due(Run(Run(s, steps), Lost(w, saveFails, count)).db, wk.job.id, now) <==> s.db.queue[wk.job.id].due <= now
  {
    RecordingRun(s, steps, w, wk);
    HeldRowRun(s, steps, w, wk);
    RunKeeps(s, steps);
    LostRow(Run(s, steps), w, saveFails, count, wk.job.id, now);
  }

  /** The condition is needed. Let anything happen after the failure but its save and a
      crash; if then the process crashes, or the save fails and the process is
      restarted, the row keeps the due time of the failed attempt. It may be claimed at
      once, however long the wait that was due. */
  lemma UnrecordedRetryIsEarly(s: State, w: nat, o: Outcome, t: Time, wait: Duration, steps: seq<Step>,
                               saveFails: bool, count: nat, now: Time)
    requires Reachable(s) && Retries(s, w, o) && Valid(s, [Complete(w, o, t, wait)] + steps) && count >= 1
    requires forall step :: step in steps ==> !step.Crash? && !(step.Save? && step.w == w)
    requires s.workers[w].job.id in Run(s, [Complete(w, o, t, wait)] + steps).db.deliveries
    ensures var id, all := s.workers[w].job.id, Unrecorded(Complete(w, o, t, wait), steps, w, saveFails, count);
      && Valid(s, all) && !Lands(steps + Lost(w, saveFails, count), w)
      && id in s.db.queue && (Due(Run(s, all).db, id, now) <==> s.db.queue[id].due <= now)
  {
    var step := Complete(w, o, t, wait);
    var s1, wk := AfterFailure(s, w, o, t, wait, steps);
    LostNeverLands(steps, w, saveFails, count);
    LostLater(s1, steps, w, wk, saveFails, count, now);
    RunAppend(s, [step] + steps, Lost(w, saveFails, count));
  }
}
