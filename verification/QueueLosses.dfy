/** How many outcomes a delivery can lose when nothing is disturbed: none while its row
    is there, and one, the request that was out, when its email is deleted meanwhile. */
module QueueLosses {
  import opened Models
  import opened Tables
  import opened Retry
  import opened QueueSystem
  import opened QueueInvariant
  import opened QueueSteps
  import opened QueueTheorems
  import opened QueueProgress

  /** Lost outcomes, and the one that may still get lost. */
  ghost function Exposure(s: State, id: DeliveryId): nat
    requires id in s.hist.lost
  {
    s.hist.lost[id] + (if id in s.db.deliveries || Held(s.workers, id) then 1 else 0)
  }

  /** Without a disturbance only a save for a deleted row loses an outcome. */
  lemma WorkerLoss(s: State, step: Step, id: DeliveryId)
    requires Enabled(s, step) && IsWorkerStep(step) && !Loses(step) && !s.cancelled && id in s.hist.lost
    ensures var s' := Apply(s, step);
      && id in s'.hist.lost
      && (s'.hist.lost[id] == s.hist.lost[id]
          || (s'.hist.lost[id] == s.hist.lost[id] + 1 && step.Save? && s.workers[step.w].Holds(id) && id !in s.db.deliveries))
  {
    if IsQuiet(step) {
      var w, x := QuietStep(s, step);
    }
  }

  lemma StepLoss(s: State, step: Step, id: DeliveryId)
    requires Enabled(s, step) && !Loses(step) && !s.cancelled && id in s.hist.original && id in s.hist.lost
    ensures var s' := Apply(s, step);
      && id in s'.hist.lost
      && (s'.hist.lost[id] == s.hist.lost[id]
          || (s'.hist.lost[id] == s.hist.lost[id] + 1 && step.Save? && s.workers[step.w].Holds(id) && id !in s.db.deliveries))
  {
    if step.Enqueue? {
      EnqueueLosesNothing(s, step.e, step.batch, step.matched, step.retry, step.now, id);
    } else if IsWorkerStep(step) {
      WorkerLoss(s, step, id);
    }
  }

  lemma HeldBefore(s: State, step: Step, id: DeliveryId)
    requires Enabled(s, step) && Held(Apply(s, step).workers, id)
    ensures Held(s.workers, id) || id in s.db.deliveries
  {
    var w :| 0 <= w < |Apply(s, step).workers| && Apply(s, step).workers[w].Holds(id);
    HolderTurns(s, step, w, id);
  }

  lemma SaveLetsGo(s: State, w: nat, ok: bool, id: DeliveryId)
    requires Enabled(s, Save(w, ok)) && Exclusive(s.workers) && s.workers[w].Holds(id)
    ensures !Held(Apply(s, Save(w, ok)).workers, id)
  {
  }

  lemma ExposureFalls(s: State, step: Step, id: DeliveryId)
    requires Enabled(s, step) && Exclusive(s.workers) && !Loses(step) && !s.cancelled
    requires id in s.hist.original && id in s.hist.lost
    requires id in Apply(s, step).db.deliveries ==> id in s.db.deliveries
    ensures id in Apply(s, step).hist.lost && Exposure(Apply(s, step), id) <= Exposure(s, id)
  {
    StepLoss(s, step, id);
    if Held(Apply(s, step).workers, id) {
      HeldBefore(s, step, id);
    }
    if step.Save? && s.workers[step.w].Holds(id) {
      SaveLetsGo(s, step.w, step.ok, id);
      assert Held(s.workers, id);
    }
  }

  lemma KnownStep(s: State, step: Step, id: DeliveryId)
    requires Inv(s) && Enabled(s, step) && !Loses(step) && !s.cancelled && id in s.hist.original
    ensures var s' := Apply(s, step);
      && Inv(s') && !s'.cancelled && id in s'.hist.original
      && (id in s'.db.deliveries ==> id in s.db.deliveries)
  {
    KeptOneStep(s, step, id);
    InvIsLocal(s, step, id);
    StepMoves(s, step, id);
  }

  lemma {:induction false} ExposureRun(s: State, steps: seq<Step>, id: DeliveryId)
    requires Inv(s) && Valid(s, steps) && !s.cancelled && id in s.hist.original && id in s.hist.lost
    requires forall step :: step in steps ==> !Loses(step)
    ensures id in Run(s, steps).hist.lost && Exposure(Run(s, steps), id) <= Exposure(s, id)
    decreases |steps|
  {
    if steps != [] {
      KnownStep(s, steps[0], id);
      ExposureFalls(s, steps[0], id);
      ExposureRun(Apply(s, steps[0]), steps[1..], id);
    }
  }

  /** Without a crash, a cancellation or a failed save, a delivery loses no outcome while
      it is there, and at most one ever, also if it is deleted: every other request
      begun is recorded or in flight. */
  lemma OneLossAtMost(s: State, steps: seq<Step>, id: DeliveryId)
    requires Reachable(s) && Valid(s, steps) && !s.cancelled && id in s.hist.original
    requires forall step :: step in steps ==> !Loses(step)
    ensures id in s.hist.lost && id in Run(s, steps).hist.lost
    ensures Run(s, steps).hist.lost[id] <= s.hist.lost[id] + 1
    ensures id in Run(s, steps).db.deliveries ==> Run(s, steps).hist.lost[id] == s.hist.lost[id]
  {
    ReachableInv(s);
    assert RowOk(s, id);
    ExposureRun(s, steps, id);
    if id in Run(s, steps).db.deliveries {
      NothingLost(s, steps, id);
    }
  }
}
