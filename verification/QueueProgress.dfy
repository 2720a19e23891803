/** Shutdown, due times and termination of the queue. */
module QueueProgress {
  import opened Models
  import opened Backoff
  import opened Tables
  import opened Aggregate
  import opened Retry
  import opened QueueSystem
  import opened QueueInvariant
  import opened QueueSteps
  import opened QueueTheorems

  // ----- Sums over workers -----

  function Sum(ws: seq<Worker>, weight: Worker -> nat): nat {
    if ws == [] then 0 else Sum(ws[..|ws| - 1], weight) + weight(ws[|ws| - 1])
  }

  lemma {:induction false} SumAfterMove(ws: seq<Worker>, w: nat, x: Worker, weight: Worker -> nat)
    requires w < |ws|
    ensures Sum(ws[w := x], weight) + weight(ws[w]) == Sum(ws, weight) + weight(x)
  {
    var init, init' := ws[..|ws| - 1], ws[w := x][..|ws| - 1];
    if w < |ws| - 1 {
      assert init' == init[w := x];
      SumAfterMove(init, w, x, weight);
    } else {
      assert init' == init;
    }
  }

  // ----- Shutdown -----

  /** Short of the second look at the stop channel, or past all requests. */
  ghost predicate Short(wk: Worker) {
    wk.Top? || wk.ToClaim? || wk.Claimed? || wk.Releasing? || wk.Exited?
  }

  ghost predicate NoStart(steps: seq<Step>) {
    forall i :: 0 <= i < |steps| ==> !steps[i].Start?
  }

  lemma ShortStep(s: State, step: Step, w: nat)
    requires Enabled(s, step) && s.stop && !step.Start?
    ensures Apply(s, step).stop && |Apply(s, step).workers| <= |s.workers|
    ensures w < |Apply(s, step).workers| && Short(s.workers[w]) ==> Short(Apply(s, step).workers[w])
  {
  }

  /** After stop is closed, a worker short of its second look never gets to send
      again, in any continuation of this process. */
  lemma {:induction false} StoppedWorkerSendsNothing(s: State, steps: seq<Step>, w: nat)
    requires Valid(s, steps) && NoStart(steps) && s.stop && w < |s.workers| && Short(s.workers[w])
    ensures w < |Run(s, steps).workers| ==> Short(Run(s, steps).workers[w])
    decreases |steps|
  {
    if steps != [] {
      var s1 := Apply(s, steps[0]);
      ShortStep(s, steps[0], w);
      if w < |s1.workers| {
        StoppedWorkerSendsNothing(s1, steps[1..], w);
      } else {
        WorkersNeverGrow(s1, steps[1..]);
      }
    }
  }

  lemma {:induction false} WorkersNeverGrow(s: State, steps: seq<Step>)
    requires Valid(s, steps) && NoStart(steps) && s.stop
    ensures |Run(s, steps).workers| <= |s.workers|
    decreases |steps|
  {
    if steps != [] {
      ShortStep(s, steps[0], |s.workers|);
      WorkersNeverGrow(Apply(s, steps[0]), steps[1..]);
    }
  }

  function MaySend(wk: Worker): nat {
    if wk.Running? then 1 else 0
  }

  lemma StoppedMover(s: State, step: Step)
    requires Enabled(s, step) && s.stop && IsWorkerStep(step)
    ensures Mover(step) < |s.workers| && Mover(step) < |Apply(s, step).workers|
    ensures |Apply(s, step).hist.log| + MaySend(Apply(s, step).workers[Mover(step)])
         <= |s.hist.log| + MaySend(s.workers[Mover(step)])
  {
    if IsQuiet(step) {
      var w, x := QuietStep(s, step);
    }
  }

  lemma OthersUnderStop(s: State, step: Step)
    requires Enabled(s, step) && s.stop && !step.Start? && !IsWorkerStep(step)
    ensures Apply(s, step).stop && Apply(s, step).hist.log == s.hist.log
    ensures Apply(s, step).workers == s.workers || Apply(s, step).workers == []
  {
  }

  lemma StopStep(s: State, step: Step)
    requires Enabled(s, step) && s.stop && !step.Start?
    ensures Apply(s, step).stop
    ensures |Apply(s, step).hist.log| + Sum(Apply(s, step).workers, MaySend) <= |s.hist.log| + Sum(s.workers, MaySend)
  {
    if IsWorkerStep(step) {
      MoverMoves(s, step);
      StoppedMover(s, step);
      SumAfterMove(s.workers, Mover(step), Apply(s, step).workers[Mover(step)], MaySend);
    } else {
      OthersUnderStop(s, step);
    }
  }

  /** After stop is closed at most one request begins per worker that was already
      past its second look. */
  lemma {:induction false} StopBoundsRequests(s: State, steps: seq<Step>)
    requires Valid(s, steps) && NoStart(steps) && s.stop
    ensures |Run(s, steps).hist.log| <= |s.hist.log| + Sum(s.workers, MaySend)
    decreases |steps|
  {
    if steps != [] {
      StopStep(s, steps[0]);
      StopBoundsRequests(Apply(s, steps[0]), steps[1..]);
    }
  }

  /** How many steps a worker has left once stop is closed. */
  function Rank(wk: Worker): nat {
    match wk
    case Exited => 0
    case Top => 1
    case Saving(_, _, _, _) => 2
    case Releasing(_) => 2
    case Sending(_, _) => 3
    case Claimed(_) => 3
    case Running(_) => 4
    case ToClaim => 4
  }

  lemma RankFalls(s: State, step: Step)
    requires Enabled(s, step) && s.stop && IsWorkerStep(step)
    ensures var s', w := Apply(s, step), Mover(step);
      && s'.stop && w < |s.workers| && s'.workers == s.workers[w := s'.workers[w]]
      && Rank(s'.workers[w]) < Rank(s.workers[w])
  {
    if IsQuiet(step) {
      var v, x := QuietStep(s, step);
    }
  }

  lemma DrainStep(s: State, step: Step)
    requires Enabled(s, step) && s.stop && !step.Start?
    ensures Apply(s, step).stop
    ensures Sum(Apply(s, step).workers, Rank) + (if IsWorkerStep(step) then 1 else 0) <= Sum(s.workers, Rank)
  {
    if IsWorkerStep(step) {
      RankFalls(s, step);
      SumAfterMove(s.workers, Mover(step), Apply(s, step).workers[Mover(step)], Rank);
    } else {
      OthersUnderStop(s, step);
    }
  }

  function CountWorkerSteps(steps: seq<Step>): nat {
    if steps == [] then 0 else (if IsWorkerStep(steps[0]) then 1 else 0) + CountWorkerSteps(steps[1..])
  }

  /** Shutdown ends: once stop is closed, the workers together take at most this
      many more steps, whatever happens around them. */
  lemma {:induction false} ShutdownEnds(s: State, steps: seq<Step>)
    requires Valid(s, steps) && NoStart(steps) && s.stop
    ensures CountWorkerSteps(steps) <= Sum(s.workers, Rank)
    decreases |steps|
  {
    if steps != [] {
      DrainStep(s, steps[0]);
      ShutdownEnds(Apply(s, steps[0]), steps[1..]);
    }
  }

  /** And while a worker is left, one of its steps can be taken: it is never stuck,
      whatever the outcome of its request. */
  lemma ShutdownNeverStuck(s: State, w: nat, o: Outcome) returns (step: Step)
    requires Reachable(s) && s.up && s.stop && w < |s.workers| && !s.workers[w].Exited?
    ensures Mover(step) == w && IsWorkerStep(step) && Enabled(s, step)
    ensures s.workers[w].Sending? ==> step.Complete? && step.outcome == o
  {
    ReachableInv(s);
    assert WorkerOk(s, s.workers[w]);
    step := NextMove(s, w, o);
  }

  /** Some wait that backoff may return. */
  function SomeWait(retry: RetryConfig, n: nat): (wait: Duration)
    requires n >= 1
    ensures IsBackoff(retry, n, wait)
  {
    Min(retry.initialWait * Pow2(n - 1), retry.maxWait)
  }

  lemma FinishRequest(s: State, w: nat, o: Outcome) returns (step: Step)
    requires s.up && w < |s.workers| && s.workers[w].Sending? && s.workers[w].job.snapshot.Encoded?
    ensures Enabled(s, step) && step.Complete? && step.w == w && step.outcome == o
  {
    var job := s.workers[w].job;
    var wait := SomeWait(job.snapshot.snap.retry, job.attempts + 1);
    step := Complete(w, o, Min(0, -wait), wait);
  }

  /** A step of worker w that is not idle, if it holds a job or stop is closed. */
  lemma NextMove(s: State, w: nat, o: Outcome) returns (step: Step)
    requires s.up && w < |s.workers| && !s.workers[w].Exited?
    requires s.workers[w].Sending? ==> s.workers[w].job.snapshot.Encoded?
    ensures Mover(step) == w && IsWorkerStep(step) && Enabled(s, step)
    ensures s.workers[w].Sending? ==> step.Complete? && step.outcome == o
    ensures s.workers[w].HasJob() ==> !step.ClaimNothing?
  {
    match s.workers[w]
    case Top => step := if s.stop then ExitTop(w) else PassStop(w);
    case ToClaim => step := ClaimNothing(w);
    case Claimed(_) => step := if s.stop then SeeStop(w) else Proceed(w);
    case Releasing(_) => step := Release(w, 0, true);
    case Running(_) => step := Begin(w);
    case Sending(_, _) => step := FinishRequest(s, w, o);
    case Saving(_, _, _, _) => step := Save(w, true);
  }

  /** The steps that leave a row in progress without a holder. */
  ghost predicate Orphans(step: Step) {
    step.Crash? || (step.Save? && !step.ok) || (step.Release? && !step.ok)
  }

  lemma OrphanStep(s: State, step: Step)
    requires Enabled(s, step) && !Orphans(step) && s.orphans == {}
    ensures Apply(s, step).orphans == {}
  {
  }

  lemma {:induction false} OrphanRun(s: State, steps: seq<Step>)
    requires Valid(s, steps) && s.orphans == {}
    requires forall i :: 0 <= i < |steps| ==> !Orphans(steps[i])
    ensures Run(s, steps).orphans == {}
    decreases |steps|
  {
    if steps != [] {
      OrphanStep(s, steps[0]);
      OrphanRun(Apply(s, steps[0]), steps[1..]);
    }
  }

  lemma AllExitedNothingInProgress(s: State, id: DeliveryId)
    requires DomainsOk(s) && RowsOk(s) && s.orphans == {} && id in s.db.deliveries
    requires forall w :: 0 <= w < |s.workers| ==> s.workers[w].Exited?
    ensures s.db.deliveries[id].status != InProgress
  {
    assert RowOk(s, id);
  }

  /** A clean life of the process: if no save failed and there was no crash since
      the start, then once all workers have returned nothing is in progress. Every
      job was recorded final or put back as pending. */
  lemma CleanShutdown(s: State, count: nat, steps: seq<Step>)
    requires Reachable(s) && Valid(s, [Start(count)] + steps)
    requires forall i :: 0 <= i < |steps| ==> !Orphans(steps[i])
    requires forall w :: 0 <= w < |Run(s, [Start(count)] + steps).workers| ==>
      Run(s, [Start(count)] + steps).workers[w].Exited?
    ensures var db := Run(s, [Start(count)] + steps).db;
      forall id :: id in db.deliveries ==> db.deliveries[id].status != InProgress
  {
    ReachableInv(s);
    RunKeeps(s, [Start(count)] + steps);
    RunCons(s, Start(count), steps);
    OrphanRun(Apply(s, Start(count)), steps);
    var s' := Run(s, [Start(count)] + steps);
    forall id | id in s'.db.deliveries ensures s'.db.deliveries[id].status != InProgress {
      AllExitedNothingInProgress(s', id);
    }
  }

  // ----- Due times -----

  /** The clock reading that a step uses, if it uses one. */
  function Moment(step: Step): Option<Time> {
    match step
    case Enqueue(_, _, _, _, now) => Some(now)
    case Claim(_, _, now) => Some(now)
    case Release(_, now, _) => Some(now)
    case Complete(_, _, now, _) => Some(now)
    case _ => None
  }

  /** The step happens at or after t, and asks for no negative wait. */
  ghost predicate NotBefore(step: Step, t: Time) {
    && (Moment(step).Some? ==> Moment(step).value >= t)
    && (step.Complete? ==> step.wait >= 0)
  }

  /** The clock never goes back. */
  ghost predicate Monotone(steps: seq<Step>, t: Time)
    decreases |steps|
  {
    steps != [] ==> NotBefore(steps[0], t) && Monotone(steps[1..], OrElse(Moment(steps[0]), t))
  }

  /** Delivery `id` cannot be claimed before d: it is due no earlier, and if a
      worker holds it the clock has passed d, and so does its next due time. */
  ghost predicate DueFrom(s: State, t: Time, id: DeliveryId, d: Time) {
    && id in s.hist.original
    && (id in s.db.deliveries && id in s.db.queue && Unfinished(s.db.deliveries[id].status) ==> s.db.queue[id].due >= d)
    && (forall w :: 0 <= w < |s.workers| && s.workers[w].Holds(id) ==>
          t >= d && (s.workers[w].Saving? && s.workers[w].next.Some? ==> s.workers[w].next.value >= d))
  }

  lemma DueRow(s: State, step: Step, s': State, t: Time, id: DeliveryId, d: Time)
    requires DueFrom(s, t, id, d) && RowMoves(s, step, s', id) && RowOk(s, id) && RowOk(s', id) && NotBefore(step, t)
    ensures id in s'.hist.original
    ensures id in s'.db.deliveries && id in s'.db.queue && Unfinished(s'.db.deliveries[id].status) ==> s'.db.queue[id].due >= d
  {
  }

  lemma OwnTurn(s: State, step: Step, w: nat, id: DeliveryId)
    requires Enabled(s, step) && IsWorkerStep(step) && w < |Apply(s, step).workers| && Apply(s, step).workers[w].Holds(id)
    ensures w < |s.workers|
    ensures s.workers[w].Holds(id) || (step.Claim? && step.w == w && step.id == id)
  {
    MoverMoves(s, step);
    if Mover(step) == w {
      MoverHolds(s, step, id);
    }
  }

  lemma MoverHolds(s: State, step: Step, id: DeliveryId)
    requires Enabled(s, step) && IsWorkerStep(step) && OnlyWorkerMoved(s, Apply(s, step), Mover(step))
    requires Apply(s, step).workers[Mover(step)].Holds(id)
    ensures s.workers[Mover(step)].Holds(id) || (step.Claim? && step.id == id)
  {
    if IsQuiet(step) {
      var v, x := QuietStep(s, step);
    }
  }

  /** A worker that holds a job either held it before the step or claims it now. */
  lemma HolderTurns(s: State, step: Step, w: nat, id: DeliveryId)
    requires Enabled(s, step) && w < |Apply(s, step).workers| && Apply(s, step).workers[w].Holds(id)
    ensures w < |s.workers|
    ensures s.workers[w].Holds(id) || (step.Claim? && step.w == w && step.id == id)
  {
    if IsWorkerStep(step) {
      OwnTurn(s, step, w, id);
    }
  }

  /** The next due time that a worker will save was fixed by the end of its request. */
  lemma NextTurns(s: State, step: Step, w: nat)
    requires Enabled(s, step) && w < |Apply(s, step).workers| && w < |s.workers|
    requires Apply(s, step).workers[w].Saving? && Apply(s, step).workers[w].next.Some?
    ensures (s.workers[w].Saving? && s.workers[w].next == Apply(s, step).workers[w].next)
      || (step.Complete? && Apply(s, step).workers[w].next.value - step.now in {0, step.wait})
  {
    if IsQuiet(step) {
      var v, x := QuietStep(s, step);
    } else if IsWorkerStep(step) {
      assert Mover(step) != w ==> Apply(s, step).workers[w] == s.workers[w];
    }
  }

  lemma DueStep(s: State, step: Step, t: Time, id: DeliveryId, d: Time)
    requires Inv(s) && Enabled(s, step) && DueFrom(s, t, id, d) && NotBefore(step, t)
    ensures DueFrom(Apply(s, step), OrElse(Moment(step), t), id, d)
  {
    var s' := Apply(s, step);
    InvIsLocal(s, step, id);
    StepMoves(s, step, id);
    StepKeeps(s, step);
    DueRow(s, step, s', t, id, d);
    forall w | 0 <= w < |s'.workers| && s'.workers[w].Holds(id)
      ensures OrElse(Moment(step), t) >= d
      ensures s'.workers[w].Saving? && s'.workers[w].next.Some? ==> s'.workers[w].next.value >= d
    {
      HolderTurns(s, step, w, id);
      if s'.workers[w].Saving? && s'.workers[w].next.Some? {
        NextTurns(s, step, w);
      }
    }
  }

  ghost function ClockAfter(steps: seq<Step>, t: Time): Time {
    if steps == [] then t else ClockAfter(steps[1..], OrElse(Moment(steps[0]), t))
  }

  lemma {:induction false} DueRun(s: State, steps: seq<Step>, t: Time, id: DeliveryId, d: Time)
    requires Inv(s) && Valid(s, steps) && Monotone(steps, t) && DueFrom(s, t, id, d)
    ensures DueFrom(Run(s, steps), ClockAfter(steps, t), id, d)
    decreases |steps|
  {
    if steps != [] {
      DueStep(s, steps[0], t, id, d);
      StepKeeps(s, steps[0]);
      DueRun(Apply(s, steps[0]), steps[1..], OrElse(Moment(steps[0]), t), id, d);
    }
  }

  /** A pending delivery is never claimed before its due time, in any continuation
      with a clock that never goes back and waits that are not negative: not even
      after it was released, cancelled, or recovered from a crash. */
  lemma NoEarlyClaim(s: State, t: Time, steps: seq<Step>, id: DeliveryId, w: nat, now: Time)
    requires Reachable(s) && Valid(s, steps) && Monotone(steps, t)
    requires id in s.db.deliveries && s.db.deliveries[id].status == Pending
    requires Enabled(Run(s, steps), Claim(w, id, now))
    ensures id in s.db.queue && s.db.queue[id].due <= now
  {
    ReachableInv(s);
    assert RowOk(s, id);
    PendingNotHeld(s, id);
    assert DueFrom(s, t, id, s.db.queue[id].due);
    DueRun(s, steps, t, id, s.db.queue[id].due);
  }

  // ----- Bounded bypass -----

  /** The rows that are pending and due by d. */
  ghost function Backlog(db: Db, d: Time): set<DeliveryId> {
    set id | id in db.queue && id in db.deliveries && db.deliveries[id].status == Pending && db.queue[id].due <= d
  }

  /** The worker is about to save a next due time by d. */
  function Early(d: Time): Worker -> nat {
    (wk: Worker) => if wk.Saving? && wk.next.Some? && wk.next.value <= d then 1 else 0
  }

  /** How many claims may come before a given row that is due by d. */
  ghost function Ahead(s: State, d: Time): nat {
    |Backlog(s.db, d)| + Sum(s.workers, Early(d))
  }

  /** The step is the save of an early worker. */
  ghost function SavesEarly(s: State, step: Step, d: Time): nat {
    if step.Save? && Mover(step) < |s.workers| then Early(d)(s.workers[Mover(step)]) else 0
  }

  /** A row enters the backlog of d only by a save whose time was fixed before d passed. */
  lemma BacklogRow(s: State, step: Step, s': State, id: DeliveryId, d: Time)
    requires id in s.hist.original && RowOk(s, id) && RowMoves(s, step, s', id)
    requires NotBefore(step, d + 1) && !step.Start?
    requires id in Backlog(s'.db, d)
    ensures id in Backlog(s.db, d)
      || (step.Save? && step.ok && step.w < |s.workers| && s.workers[step.w].Holds(id) && Early(d)(s.workers[step.w]) == 1)
  {
  }

  lemma PublishedLate(db: Db, e: EmailId, batch: BatchId, jobs: seq<NewDelivery>, now: Time, id: DeliveryId, d: Time)
    requires Insertable(db, e, jobs) && id !in db.deliveries && id !in db.queue && now > d
    ensures id !in Backlog(Publish(db, e, batch, jobs, now), d)
  {
    if IsNew(jobs, id) {
      var k :| 0 <= k < |jobs| && jobs[k].id == id;
      PublishStores(db, e, batch, jobs, now, k);
    } else {
      PublishKeeps(db, e, batch, jobs, now, id);
    }
  }

  lemma NewRowsAreLate(s: State, step: Step, id: DeliveryId, d: Time)
    requires DomainsOk(s) && Enabled(s, step) && NotBefore(step, d + 1) && id !in s.hist.original
    ensures id !in Backlog(Apply(s, step).db, d)
  {
    if step.Enqueue? {
      PublishedLate(s.db, step.e, step.batch, JobsFor(step.matched, step.retry), step.now, id, d);
    }
  }

  /** The backlog of a moment that has passed only grows by such a save. */
  lemma BacklogShrinks(s: State, step: Step, d: Time)
    requires Inv(s) && Enabled(s, step) && NotBefore(step, d + 1) && !step.Start?
    ensures SavesEarly(s, step, d) == 0 ==> Backlog(Apply(s, step).db, d) <= Backlog(s.db, d)
    ensures SavesEarly(s, step, d) == 1 ==>
      Backlog(Apply(s, step).db, d) <= Backlog(s.db, d) + {s.workers[Mover(step)].job.id}
  {
    var s' := Apply(s, step);
    forall id | id in Backlog(s'.db, d)
      ensures id in Backlog(s.db, d) || (SavesEarly(s, step, d) == 1 && id == s.workers[Mover(step)].job.id)
    {
      if id !in s.hist.original {
        NewRowsAreLate(s, step, id, d);
      } else {
        InvIsLocal(s, step, id);
        StepMoves(s, step, id);
        BacklogRow(s, step, s', id, d);
      }
    }
  }

  lemma SubsetCard(a: set<DeliveryId>, b: set<DeliveryId>)
    requires a <= b
    ensures |a| <= |b|
  {
    assert b == a + (b - a);
  }

  /** No step makes a worker early; a save makes it not early. */
  lemma EarlyStep(s: State, step: Step, d: Time)
    requires Enabled(s, step) && NotBefore(step, d + 1) && !step.Start?
    ensures Sum(Apply(s, step).workers, Early(d)) + SavesEarly(s, step, d) <= Sum(s.workers, Early(d))
  {
    var s' := Apply(s, step);
    if IsWorkerStep(step) {
      MoverTurns(s, step);
      SumAfterMove(s.workers, Mover(step), s'.workers[Mover(step)], Early(d));
      EarlyMover(s, step, d);
    } else {
      NonWorkerStep(s, step);
    }
  }

  lemma MoverTurns(s: State, step: Step)
    requires Enabled(s, step) && IsWorkerStep(step)
    ensures var s', w := Apply(s, step), Mover(step);
      w < |s.workers| && |s'.workers| == |s.workers| && s'.workers == s.workers[w := s'.workers[w]]
  {
    MoverMoves(s, step);
  }

  lemma EarlyMover(s: State, step: Step, d: Time)
    requires Enabled(s, step) && NotBefore(step, d + 1) && IsWorkerStep(step)
    requires Mover(step) < |s.workers| && Mover(step) < |Apply(s, step).workers|
    ensures Early(d)(Apply(s, step).workers[Mover(step)]) <= Early(d)(s.workers[Mover(step)])
    ensures step.Save? ==> Early(d)(Apply(s, step).workers[Mover(step)]) == 0
  {
    if IsQuiet(step) {
      var v, x := QuietStep(s, step);
    }
  }

  lemma NonWorkerStep(s: State, step: Step)
    requires Enabled(s, step) && !IsWorkerStep(step) && !step.Start?
    ensures Apply(s, step).workers == s.workers || Apply(s, step).workers == []
  {
  }

  /** The claimed row is due by d, if any pending row is, and leaves the backlog. */
  lemma ClaimTakesOldest(s: State, w: nat, id: DeliveryId, now: Time, d: Time, r: DeliveryId)
    requires RowsOk(s) && s.db.queue.Keys <= s.hist.original.Keys && w < |s.workers|
    requires IsNext(s.db, id, now) && now > d && r in Backlog(s.db, d)
    ensures |Backlog(DoClaim(s, w, id).db, d)| < |Backlog(s.db, d)|
  {
    assert RowOk(s, r);
    assert Due(s.db, r, now);
    assert id in Backlog(s.db, d);
    assert Backlog(DoClaim(s, w, id).db, d) == Backlog(s.db, d) - {id};
  }

  lemma CardWithin(a: set<DeliveryId>, b: set<DeliveryId>, x: DeliveryId)
    requires a <= b + {x}
    ensures |a| <= |b| + 1
  {
    SubsetCard(a, b + {x});
  }

  lemma BacklogCard(s: State, step: Step, d: Time)
    requires Inv(s) && Enabled(s, step) && NotBefore(step, d + 1) && !step.Start?
    ensures |Backlog(Apply(s, step).db, d)| <= |Backlog(s.db, d)| + SavesEarly(s, step, d)
  {
    var before, after := Backlog(s.db, d), Backlog(Apply(s, step).db, d);
    BacklogShrinks(s, step, d);
    if SavesEarly(s, step, d) == 1 {
      CardWithin(after, before, s.workers[Mover(step)].job.id);
    } else {
      SubsetCard(after, before);
    }
  }

  lemma AheadStep(s: State, step: Step, d: Time, r: DeliveryId)
    requires Inv(s) && Enabled(s, step) && NotBefore(step, d + 1) && !step.Start? && r in Backlog(s.db, d)
    ensures Ahead(Apply(s, step), d) + (if step.Claim? then 1 else 0) <= Ahead(s, d)
  {
    EarlyStep(s, step, d);
    BacklogCard(s, step, d);
    if step.Claim? {
      ClaimTakesOldest(s, step.w, step.id, step.now, d, r);
    }
  }

  lemma BacklogStays(s: State, step: Step, s': State, r: DeliveryId, d: Time)
    requires r in s.hist.original && RowMoves(s, step, s', r) && RowOk(s, r) && RowOk(s', r) && r in Backlog(s.db, d)
    requires !(step.Claim? && step.id == r)
    ensures r in s'.db.deliveries ==> r in Backlog(s'.db, d)
  {
  }

  function CountClaims(steps: seq<Step>): nat {
    if steps == [] then 0 else (if steps[0].Claim? then 1 else 0) + CountClaims(steps[1..])
  }

  /** The clock is past d, no restart, and r is left alone. */
  ghost predicate Passes(step: Step, d: Time, r: DeliveryId) {
    NotBefore(step, d + 1) && !step.Start? && !(step.Claim? && step.id == r)
  }

  lemma BypassStep(s: State, step: Step, d: Time, r: DeliveryId)
    requires Inv(s) && Enabled(s, step) && Passes(step, d, r) && r in Backlog(s.db, d)
    ensures Inv(Apply(s, step)) && r in Apply(s, step).hist.original
    ensures r in Apply(s, step).db.deliveries ==> r in Backlog(Apply(s, step).db, d)
    ensures Ahead(Apply(s, step), d) + (if step.Claim? then 1 else 0) <= Ahead(s, d)
  {
    AheadStep(s, step, d, r);
    InvIsLocal(s, step, r);
    StepMoves(s, step, r);
    StepKeeps(s, step);
    BacklogStays(s, step, Apply(s, step), r, d);
  }

  /** The run leaves row r alone, and r is there at its end. */
  ghost predicate LeavesAlone(s: State, steps: seq<Step>, d: Time, r: DeliveryId) {
    && Inv(s) && Valid(s, steps) && r in Backlog(s.db, d) && r in Run(s, steps).db.deliveries
    && AllPass(steps, d, r)
  }

  ghost predicate AllPass(steps: seq<Step>, d: Time, r: DeliveryId) {
    forall i :: 0 <= i < |steps| ==> Passes(steps[i], d, r)
  }

  lemma PassesOn(steps: seq<Step>, d: Time, r: DeliveryId)
    requires steps != [] && AllPass(steps, d, r)
    ensures Passes(steps[0], d, r) && AllPass(steps[1..], d, r)
    ensures CountClaims(steps) == (if steps[0].Claim? then 1 else 0) + CountClaims(steps[1..])
  {
  }

  lemma {:induction false} BypassRun(s: State, steps: seq<Step>, d: Time, r: DeliveryId)
    requires LeavesAlone(s, steps, d, r)
    ensures r in Backlog(Run(s, steps).db, d)
    ensures CountClaims(steps) + Ahead(Run(s, steps), d) <= Ahead(s, d)
    decreases |steps|
  {
    if steps != [] {
      var s1 := BypassFirst(s, steps, d, r);
      BypassRun(s1, steps[1..], d, r);
    }
  }

  lemma BypassFirst(s: State, steps: seq<Step>, d: Time, r: DeliveryId) returns (s1: State)
    requires steps != [] && LeavesAlone(s, steps, d, r)
    ensures LeavesAlone(s1, steps[1..], d, r) && Run(s1, steps[1..]) == Run(s, steps)
    ensures CountClaims(steps) == (if steps[0].Claim? then 1 else 0) + CountClaims(steps[1..])
    ensures Ahead(s1, d) + (if steps[0].Claim? then 1 else 0) <= Ahead(s, d)
  {
    s1 := Apply(s, steps[0]);
    PassesOn(steps, d, r);
    BypassStep(s, steps[0], d, r);
    StillThere(s1, steps[1..], r);
  }

  lemma StillThere(s: State, steps: seq<Step>, r: DeliveryId)
    requires Inv(s) && Valid(s, steps) && r in s.hist.original && r in Run(s, steps).db.deliveries
    ensures r in s.db.deliveries
  {
    if r !in s.db.deliveries {
      GoneStaysGone(s, steps, r);
    }
  }

  /** While row r, pending and due by d, is neither claimed nor deleted, and the
      clock is past d, fewer claims succeed than there were rows ahead of it:
      publications, retries and releases never get in front. */
  lemma BoundedBypass(s: State, steps: seq<Step>, d: Time, r: DeliveryId)
    requires Reachable(s) && Valid(s, steps)
    requires r in s.db.deliveries && r in s.db.queue && s.db.deliveries[r].status == Pending && s.db.queue[r].due <= d
    requires forall i :: 0 <= i < |steps| ==> Passes(steps[i], d, r)
    requires r in Run(s, steps).db.deliveries
    ensures CountClaims(steps) < Ahead(s, d)
  {
    ReachableInv(s);
    BypassRun(s, steps, d, r);
  }
}
