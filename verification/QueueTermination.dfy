/** Without new work and without disturbance, claims and saves are bounded, and some
    worker can always go on. QueueDrain concludes that the queue drains. */
module QueueTermination {
  import opened Models
  import opened Backoff
  import opened Tables
  import opened Retry
  import opened QueueSystem
  import opened QueueInvariant
  import opened QueueSteps
  import opened QueueTheorems
  import opened QueueProgress

  // ----- Sums over a table -----

  ghost function Total(m: map<DeliveryId, nat>): nat
    decreases |m|
  {
    if m == map[] then 0
    else
      var k :| k in m;
      m[k] + Total(m - {k})
  }

  lemma {:induction false} TotalRemove(m: map<DeliveryId, nat>, k: DeliveryId)
    requires k in m
    ensures Total(m) == m[k] + Total(m - {k})
    decreases |m|
  {
    var j :| j in m && Total(m) == m[j] + Total(m - {j});
    if j != k {
      TotalRemove(m - {j}, k);
      TotalRemove(m - {k}, j);
      assert m - {j} - {k} == m - {k} - {j};
    }
  }

  ghost predicate Below(m': map<DeliveryId, nat>, m: map<DeliveryId, nat>) {
    forall k :: k in m' ==> k in m && m'[k] <= m[k]
  }

  lemma {:induction false} TotalMonotone(m': map<DeliveryId, nat>, m: map<DeliveryId, nat>)
    requires Below(m', m)
    ensures Total(m') <= Total(m)
    decreases |m'|
  {
    if m' != map[] {
      var k :| k in m';
      TotalRemove(m', k);
      TotalRemove(m, k);
      TotalMonotone(m' - {k}, m - {k});
    }
  }

  lemma TotalStrict(m': map<DeliveryId, nat>, m: map<DeliveryId, nat>, k: DeliveryId)
    requires Below(m', m) && k in m' && m'[k] < m[k]
    ensures Total(m') < Total(m)
  {
    TotalRemove(m', k);
    TotalRemove(m, k);
    TotalMonotone(m' - {k}, m - {k});
  }

  // ----- The work left -----

  /** Twice the attempts an unfinished row still has, plus one while it is pending. */
  function Weight(d: Delivery, budget: nat): nat {
    if !Unfinished(d.status) then 0
    else 2 * Max(0, budget + 1 - d.attempts) + (if d.status == Pending then 1 else 0)
  }

  ghost function Budget(s: State, id: DeliveryId): nat {
    if id in s.hist.original then RetryBudget(s.hist.original[id].retry) else 0
  }

  ghost function Weights(s: State): map<DeliveryId, nat> {
    map id | id in s.db.deliveries :: Weight(s.db.deliveries[id], Budget(s, id))
  }

  ghost function Work(s: State): nat {
    Total(Weights(s))
  }

  // ----- Undisturbed operation -----

  /** Neither stopping nor cancelling, and nothing on its way back uncounted. */
  ghost predicate Calm(s: State) {
    && !s.stop && !s.cancelled
    && forall w :: 0 <= w < |s.workers| ==> CalmWorker(s.workers[w])
  }

  ghost predicate CalmWorker(wk: Worker) {
    !wk.Releasing? && !wk.Exited? && (wk.Saving? && wk.next.Some? ==> wk.sent)
  }

  ghost predicate CalmStep(step: Step) {
    && !step.Enqueue? && !step.Start? && !step.Stop? && !step.Cancel? && !step.Crash?
    && (step.Save? ==> step.ok)
  }

  lemma CalmAfterStart(s: State, count: nat)
    requires Enabled(s, Start(count))
    ensures Calm(Apply(s, Start(count)))
    ensures var s' := Apply(s, Start(count)); s'.up && |s'.workers| == count && s'.orphans == {}
  {
  }

  lemma CalmMover(s: State, step: Step, w: nat)
    requires Enabled(s, step) && CalmStep(step) && !s.stop && !s.cancelled
    requires w < |Apply(s, step).workers|
    ensures !Apply(s, step).stop && !Apply(s, step).cancelled
    ensures w < |s.workers|
    ensures CalmWorker(s.workers[w]) ==> CalmWorker(Apply(s, step).workers[w])
  {
  }

  lemma CalmStays(s: State, step: Step)
    requires Enabled(s, step) && CalmStep(step) && Calm(s)
    ensures Calm(Apply(s, step))
  {
    forall w | 0 <= w < |Apply(s, step).workers| ensures CalmWorker(Apply(s, step).workers[w]) {
      CalmMover(s, step, w);
    }
    if |Apply(s, step).workers| == 0 {
      CalmFlags(s, step);
    } else {
      CalmMover(s, step, 0);
    }
  }

  lemma CalmFlags(s: State, step: Step)
    requires Enabled(s, step) && CalmStep(step) && !s.stop && !s.cancelled
    ensures !Apply(s, step).stop && !Apply(s, step).cancelled
  {
  }

  // ----- One step -----

  lemma SameRecord(s: State, step: Step)
    requires Enabled(s, step) && !step.Enqueue?
    ensures Apply(s, step).hist.original == s.hist.original
  {
    if IsWorkerStep(step) {
      MoverMoves(s, step);
    }
  }

  lemma WeightRow(s: State, step: Step, s': State, id: DeliveryId)
    requires id in s.hist.original && RowMoves(s, step, s', id) && RowOk(s, id) && RowOk(s', id)
    requires s'.hist.original == s.hist.original && CalmStep(step)
    requires forall w :: 0 <= w < |s.workers| ==> CalmWorker(s.workers[w])
    requires id in s'.db.deliveries
    ensures id in s.db.deliveries
    ensures Weight(s'.db.deliveries[id], Budget(s, id)) <= Weight(s.db.deliveries[id], Budget(s, id))
  {
  }

  lemma WeightsFall(s: State, step: Step)
    requires Inv(s) && Enabled(s, step) && CalmStep(step) && Calm(s)
    ensures Below(Weights(Apply(s, step)), Weights(s))
  {
    var s' := Apply(s, step);
    SameRecord(s, step);
    StepKeeps(s, step);
    forall id | id in s'.db.deliveries
      ensures id in s.db.deliveries
      ensures Weight(s'.db.deliveries[id], Budget(s', id)) <= Weight(s.db.deliveries[id], Budget(s, id))
    {
      InvIsLocal(s, step, id);
      StepMoves(s, step, id);
      WeightRow(s, step, s', id);
    }
  }

  /** A claim, and a save of a row that is still there. */
  ghost predicate Advances(s: State, step: Step) {
    step.Claim? || (step.Save? && Mover(step) < |s.workers| && s.workers[Mover(step)].Saving?
                    && s.workers[Mover(step)].job.id in s.db.deliveries)
  }

  lemma SaveLowers(s: State, w: nat)
    requires w < |s.workers| && s.workers[w].Saving? && WorkerOk(s, s.workers[w]) && CalmWorker(s.workers[w])
    requires s.workers[w].job.id in s.hist.original && s.workers[w].job.id in s.db.deliveries
    ensures var s', id := DoSave(s, w, true), s.workers[w].job.id;
      && id in s'.db.deliveries
      && Weight(s'.db.deliveries[id], Budget(s, id)) < Weight(s.db.deliveries[id], Budget(s, id))
  {
  }

  lemma ClaimLowers(s: State, w: nat, id: DeliveryId)
    requires w < |s.workers| && id in s.db.deliveries && id in s.db.queue && s.db.deliveries[id].status == Pending
    ensures var s' := DoClaim(s, w, id);
      && id in Weights(s') && id in Weights(s) && Weights(s')[id] < Weights(s)[id]
  {
  }

  lemma SaveLowersWeights(s: State, w: nat)
    requires w < |s.workers| && s.workers[w].Saving? && WorkerOk(s, s.workers[w]) && CalmWorker(s.workers[w])
    requires s.workers[w].job.id in s.hist.original && s.workers[w].job.id in s.db.deliveries
    ensures var s', id := DoSave(s, w, true), s.workers[w].job.id;
      && id in Weights(s') && id in Weights(s) && Weights(s')[id] < Weights(s)[id]
  {
    SaveLowers(s, w);
  }

  lemma AdvanceLowers(s: State, step: Step) returns (k: DeliveryId)
    requires DomainsOk(s) && WorkersOk(s) && Calm(s)
    requires Enabled(s, step) && CalmStep(step) && Advances(s, step)
    ensures k in Weights(Apply(s, step)) && k in Weights(s) && Weights(Apply(s, step))[k] < Weights(s)[k]
  {
    match step
    case Claim(w, id, now) =>
      ClaimLowers(s, w, id);
      k := id;
    case Save(w, ok) =>
      assert WorkerOk(s, s.workers[w]) && CalmWorker(s.workers[w]);
      SaveLowersWeights(s, w);
      k := s.workers[w].job.id;
  }

  lemma WorkFalls(s: State, step: Step)
    requires Inv(s) && Enabled(s, step) && CalmStep(step) && Calm(s)
    ensures Work(Apply(s, step)) + (if Advances(s, step) then 1 else 0) <= Work(s)
  {
    WeightsFall(s, step);
    if Advances(s, step) {
      var k := AdvanceLowers(s, step);
      TotalStrict(Weights(Apply(s, step)), Weights(s), k);
    } else {
      TotalMonotone(Weights(Apply(s, step)), Weights(s));
    }
  }

  ghost function CountAdvances(s: State, steps: seq<Step>): nat
    requires Valid(s, steps)
    decreases |steps|
  {
    if steps == [] then 0
    else (if Advances(s, steps[0]) then 1 else 0) + CountAdvances(Apply(s, steps[0]), steps[1..])
  }

  lemma {:induction false} WorkRun(s: State, steps: seq<Step>)
    requires Inv(s) && Valid(s, steps) && Calm(s)
    requires forall i :: 0 <= i < |steps| ==> CalmStep(steps[i])
    ensures CountAdvances(s, steps) + Work(Run(s, steps)) <= Work(s)
    decreases |steps|
  {
    if steps != [] {
      WorkFalls(s, steps[0]);
      StepKeeps(s, steps[0]);
      CalmStays(s, steps[0]);
      WorkRun(Apply(s, steps[0]), steps[1..]);
    }
  }

  /** Undisturbed, and without new work, all workers together make at most Work(s)
      claims and effective saves. */
  lemma Termination(s: State, steps: seq<Step>)
    requires Reachable(s) && Valid(s, steps) && Calm(s)
    requires forall i :: 0 <= i < |steps| ==> CalmStep(steps[i])
    ensures CountAdvances(s, steps) <= Work(s)
  {
    ReachableInv(s);
    WorkRun(s, steps);
  }

  // ----- Never stuck -----

  lemma ClaimPossible(s: State, r: DeliveryId) returns (id: DeliveryId, now: Time)
    requires DomainsOk(s) && RowsOk(s)
    requires r in s.db.deliveries && s.db.deliveries[r].status == Pending
    ensures IsNext(s.db, id, now)
  {
    var ids := set x | x in s.db.queue && x in s.db.deliveries && s.db.deliveries[x].status == Pending;
    assert RowOk(s, r);
    assert r in ids;
    id := OldestOf(s.db, ids);
    assert RowOk(s, id);
    now := s.db.queue[id].due;
  }

  lemma SomeClaim(s: State, r: DeliveryId) returns (step: Step)
    requires DomainsOk(s) && RowsOk(s) && s.up && s.workers != [] && s.workers[0].ToClaim?
    requires r in s.db.deliveries && s.db.deliveries[r].status == Pending
    ensures Enabled(s, step) && step.Claim?
  {
    var id, now := ClaimPossible(s, r);
    step := Claim(0, id, now);
  }

  lemma HolderMoves(s: State, r: DeliveryId, o: Outcome) returns (step: Step)
    requires WorkersOk(s) && s.up && Calm(s) && Held(s.workers, r)
    ensures Enabled(s, step) && CalmStep(step) && IsWorkerStep(step) && !step.ClaimNothing?
    ensures step.Complete? ==> step.outcome == o
  {
    var w :| 0 <= w < |s.workers| && s.workers[w].Holds(r);
    assert CalmWorker(s.workers[w]) && WorkerOk(s, s.workers[w]);
    step := CalmMove(s, w, o);
  }

  lemma SomeStep(s: State, r: DeliveryId, o: Outcome) returns (step: Step)
    requires Inv(s) && s.up && s.workers != [] && Calm(s) && s.orphans == {}
    requires r in s.db.deliveries && Unfinished(s.db.deliveries[r].status)
    ensures Enabled(s, step) && CalmStep(step) && IsWorkerStep(step) && !step.ClaimNothing?
    ensures step.Complete? ==> step.outcome == o
  {
    assert RowOk(s, r);
    assert CalmWorker(s.workers[0]) && WorkerOk(s, s.workers[0]);
    if s.workers[0].ToClaim? {
      if s.db.deliveries[r].status == Pending {
        step := SomeClaim(s, r);
      } else {
        step := HolderMoves(s, r, o);
      }
    } else {
      step := CalmMove(s, 0, o);
    }
  }

  /** While unfinished work is left, undisturbed and with no orphan, some worker can
      do something useful at a suitable time, whatever outcome a request may have:
      look on, claim, or carry its job further. */
  lemma NeverStuck(s: State, r: DeliveryId, o: Outcome) returns (step: Step)
    requires Reachable(s) && s.up && s.workers != [] && Calm(s) && s.orphans == {}
    requires r in s.db.deliveries && Unfinished(s.db.deliveries[r].status)
    ensures Enabled(s, step) && CalmStep(step) && IsWorkerStep(step) && !step.ClaimNothing?
    ensures step.Complete? ==> step.outcome == o
  {
    ReachableInv(s);
    step := SomeStep(s, r, o);
  }

  lemma CalmMove(s: State, w: nat, o: Outcome) returns (step: Step)
    requires s.up && !s.stop && w < |s.workers| && !s.workers[w].ToClaim?
    requires CalmWorker(s.workers[w]) && WorkerOk(s, s.workers[w])
    ensures Enabled(s, step) && CalmStep(step) && IsWorkerStep(step) && !step.ClaimNothing?
    ensures step.Complete? ==> step.outcome == o
  {
    match s.workers[w]
    case Top => step := PassStop(w);
    case Claimed(_) => step := Proceed(w);
    case Running(_) => step := Begin(w);
    case Sending(_, _) => step := FinishRequest(s, w, o);
    case Saving(_, _, _, _) => step := Save(w, true);
  }
}
