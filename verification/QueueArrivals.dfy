/** Which outcomes get recorded: while none is lost, all that arrive, in order, but for the
    one that the worker has yet to save. */
module QueueArrivals {
  import opened Models
  import opened Tables
  import opened Retry
  import opened QueueSystem
  import opened QueueInvariant
  import opened QueueSteps
  import opened QueueTheorems
  import opened QueueProgress
  import opened QueueRefinement

  /** The outcomes that a run gives delivery `id`, in order. */
  ghost function ArrivedOutcomes(s: State, steps: seq<Step>, id: DeliveryId): seq<Taken>
    requires Valid(s, steps)
    decreases |steps|
  {
    if steps == [] then []
    else Arrives(s, steps[0], id) + ArrivedOutcomes(Apply(s, steps[0]), steps[1..], id)
  }

  ghost function Arrives(s: State, step: Step, id: DeliveryId): seq<Taken> {
    if step.Complete? && step.w < |s.workers| && s.workers[step.w].Holds(id) then [Taken(step.outcome, step.wait)] else []
  }

  /** A worker has an outcome of the delivery to save. */
  ghost predicate Unsaved(ws: seq<Worker>, id: DeliveryId) {
    exists w :: 0 <= w < |ws| && ws[w].Saving? && ws[w].sent && ws[w].Holds(id)
  }

  /** The outcomes that arrived are those recorded, and the one to be saved. */
  ghost predicate AllNoted(s: State, id: DeliveryId, p: Progress, arrived: seq<Taken>) {
    if Unsaved(s.workers, id) then p.last.Some? && arrived == p.recorded + [p.last.value] else arrived == p.recorded
  }

  /** So it is as long as the row is there and no outcome got lost. */
  ghost predicate Noting(s: State, id: DeliveryId, p: Progress, arrived: seq<Taken>) {
    id in s.hist.original && id in s.hist.lost && (s.hist.lost[id] == 0 && id in s.db.deliveries ==> AllNoted(s, id, p, arrived))
  }

  // ----- Lost outcomes -----

  /** The number of lost outcomes never falls. */
  lemma LostGrows(s: State, step: Step, id: DeliveryId)
    requires Enabled(s, step) && id in s.hist.original && id in s.hist.lost
    ensures id in Apply(s, step).hist.lost && Apply(s, step).hist.lost[id] >= s.hist.lost[id]
  {
    if step.Enqueue? {
      EnqueueLosesNothing(s, step.e, step.batch, step.matched, step.retry, step.now, id);
    } else if IsWorkerStep(step) {
      WorkerLoses(s, step, id);
    }
  }

  /** What a worker step adds to the lost outcomes. */
  lemma WorkerLoses(s: State, step: Step, id: DeliveryId)
    requires Enabled(s, step) && IsWorkerStep(step) && id in s.hist.lost
    ensures id in Apply(s, step).hist.lost && Apply(s, step).hist.lost[id] >= s.hist.lost[id]
    ensures ByHolder(s, step, id) && Apply(s, step).hist.lost[id] == 0 ==>
      && (step.Complete? && s.cancelled ==> step.outcome.Answered?)
      && (step.Save? && !step.ok ==> !s.workers[step.w].sent)
  {
    if IsQuiet(step) {
      var w, x := QuietStep(s, step);
    }
  }

  lemma CrashLoses(s: State, id: DeliveryId)
    requires id in s.hist.lost && DoCrash(s).hist.lost[id] == 0
    ensures !Unsaved(s.workers, id)
  {
    if w :| 0 <= w < |s.workers| && s.workers[w].Saving? && s.workers[w].sent && s.workers[w].Holds(id) {
      assert s.workers[w].Flying(id);
    }
  }

  // ----- One step -----

  lemma OnlyUnsaved(s: State, w: nat, id: DeliveryId)
    requires Exclusive(s.workers) && w < |s.workers| && s.workers[w].Holds(id)
    ensures Unsaved(s.workers, id) <==> s.workers[w].Saving? && s.workers[w].sent
  {
    if s.workers[w].Saving? && s.workers[w].sent {
      assert Unsaved(s.workers, id);
    }
  }

  lemma UnsavedAfter(s: State, s': State, w: nat, id: DeliveryId)
    requires Exclusive(s.workers) && w < |s.workers| && s.workers[w].Holds(id)
    requires |s'.workers| == |s.workers| && s'.workers == s.workers[w := s'.workers[w]]
    ensures Unsaved(s'.workers, id) <==> s'.workers[w].Saving? && s'.workers[w].sent && s'.workers[w].Holds(id)
  {
    OneHolder(s, s', w, id);
    if s'.workers[w].Saving? && s'.workers[w].sent && s'.workers[w].Holds(id) {
      assert Unsaved(s'.workers, id);
    }
  }

  /** Where the moving worker gets by a step. */
  lemma HolderGets(s: State, step: Step, id: DeliveryId)
    requires Enabled(s, step) && ByHolder(s, step, id)
    requires step.Complete? && s.cancelled ==> step.outcome.Answered?
    requires step.Save? && !step.ok ==> !s.workers[step.w].sent
    ensures var wk := Apply(s, step).workers[Mover(step)];
      && (step.Complete? ==> wk.Saving? && wk.sent && wk.Holds(id) && !s.workers[step.w].Saving?)
      && (!step.Complete? ==> !(wk.Saving? && wk.sent && wk.Holds(id)))
      && (!step.Save? ==> !s.workers[Mover(step)].Saving?)
  {
    if IsQuiet(step) {
      var w, x := QuietStep(s, step);
    }
  }

  lemma HolderNotes(s: State, step: Step, id: DeliveryId, p: Progress, arrived: seq<Taken>)
    requires Exclusive(s.workers) && Enabled(s, step) && ByHolder(s, step, id) && AllNoted(s, id, p, arrived)
    requires step.Complete? && s.cancelled ==> step.outcome.Answered?
    requires step.Save? && !step.ok ==> !s.workers[step.w].sent
    ensures AllNoted(Apply(s, step), id, Advance(s, step, id, p), arrived + Arrives(s, step, id))
  {
    MoverMoves(s, step);
    OnlyUnsaved(s, Mover(step), id);
    UnsavedAfter(s, Apply(s, step), Mover(step), id);
    HolderGets(s, step, id);
  }

  lemma OthersNote(s: State, s': State, id: DeliveryId, p: Progress, arrived: seq<Taken>)
    requires AllNoted(s, id, p, arrived) && SameHolders(s.workers, s'.workers, id)
    ensures AllNoted(s', id, p, arrived)
  {
    assert Unsaved(s.workers, id) <==> Unsaved(s'.workers, id);
  }

  lemma TurningNotes(s: State, step: Step, id: DeliveryId, p: Progress, arrived: seq<Taken>)
    requires (step.Claim? && step.id == id) || step.Crash? || step.Start?
    requires WorkersOk(s) && DomainsOk(s) && Enabled(s, step) && AllNoted(s, id, p, arrived)
    requires id in s.hist.lost && id in Apply(s, step).hist.lost && Apply(s, step).hist.lost[id] == 0
    ensures AllNoted(Apply(s, step), id, p, arrived)
  {
    if step.Claim? {
      PendingNotHeld(s, id);
      assert !Unsaved(s.workers, id) && !Unsaved(Apply(s, step).workers, id);
    } else if step.Crash? {
      CrashLoses(s, id);
    }
  }

  /** A step that loses no outcome, with the delivery still there. */
  lemma NotedStep(s: State, step: Step, id: DeliveryId, p: Progress, arrived: seq<Taken>)
    requires Exclusive(s.workers) && WorkersOk(s) && DomainsOk(s) && Enabled(s, step) && AllNoted(s, id, p, arrived)
    requires id in s.hist.lost && id in Apply(s, step).hist.lost && Apply(s, step).hist.lost[id] == 0
    ensures AllNoted(Apply(s, step), id, Advance(s, step, id, p), arrived + Arrives(s, step, id))
  {
    if ByHolder(s, step, id) {
      WorkerLoses(s, step, id);
      HolderNotes(s, step, id, p, arrived);
    } else {
      NotedElse(s, step, id, p, arrived);
    }
  }

  lemma NotedElse(s: State, step: Step, id: DeliveryId, p: Progress, arrived: seq<Taken>)
    requires WorkersOk(s) && DomainsOk(s) && Enabled(s, step) && AllNoted(s, id, p, arrived) && !ByHolder(s, step, id)
    requires id in s.hist.lost && id in Apply(s, step).hist.lost && Apply(s, step).hist.lost[id] == 0
    ensures AllNoted(Apply(s, step), id, p, arrived + Arrives(s, step, id))
  {
    assert arrived + Arrives(s, step, id) == arrived;
    if Passive(s, step, id) {
      PassiveHolders(s, step, id);
      OthersNote(s, Apply(s, step), id, p, arrived);
    } else {
      TurningNotes(s, step, id, p, arrived);
    }
  }

  lemma NotingStep(s: State, step: Step, id: DeliveryId, p: Progress, arrived: seq<Taken>)
    requires Inv(s) && Enabled(s, step) && Noting(s, id, p, arrived)
    ensures Noting(Apply(s, step), id, Advance(s, step, id, p), arrived + Arrives(s, step, id))
  {
    KnownStill(s, step, id);
    LostGrows(s, step, id);
    if Apply(s, step).hist.lost[id] == 0 && id in Apply(s, step).db.deliveries {
      NotedStep(s, step, id, p, arrived);
    }
  }

  lemma KnownStill(s: State, step: Step, id: DeliveryId)
    requires Inv(s) && Enabled(s, step) && id in s.hist.original
    ensures id in Apply(s, step).hist.original && (id in Apply(s, step).db.deliveries ==> id in s.db.deliveries)
  {
    InvIsLocal(s, step, id);
    StepMoves(s, step, id);
  }

  // ----- Whole runs -----

  lemma Regroup(a: seq<Taken>, b: seq<Taken>, c: seq<Taken>)
    ensures (a + b) + c == a + (b + c)
  {
  }

  lemma {:induction false} NotingRun(s: State, steps: seq<Step>, id: DeliveryId, p: Progress, arrived: seq<Taken>)
    requires Inv(s) && Valid(s, steps) && Noting(s, id, p, arrived)
    ensures Noting(Run(s, steps), id, ProgressOf(s, steps, id, p), arrived + ArrivedOutcomes(s, steps, id))
    decreases |steps|
  {
    if steps == [] {
      assert arrived + ArrivedOutcomes(s, steps, id) == arrived;
    } else {
      NotingStep(s, steps[0], id, p, arrived);
      StepKeeps(s, steps[0]);
      NotingRun(Apply(s, steps[0]), steps[1..], id, Advance(s, steps[0], id, p), arrived + Arrives(s, steps[0], id));
      Regroup(arrived, Arrives(s, steps[0], id), ArrivedOutcomes(Apply(s, steps[0]), steps[1..], id));
    }
  }

  /** From its publication on, a delivery that is still there and lost no outcome has
      recorded all that arrived, in order, but for one that its worker has yet to save:
      once its row is final, all of them. */
  lemma NothingLostAllRecorded(s: State, e: EmailId, batch: BatchId, matched: seq<Match>, retry: RetryConfig, now: Time,
                               steps: seq<Step>, k: nat)
    requires Reachable(s) && Valid(s, [Enqueue(e, batch, matched, retry, now)] + steps) && k < |matched|
    requires var s' := Run(s, [Enqueue(e, batch, matched, retry, now)] + steps);
      && matched[k].id in s'.db.deliveries && matched[k].id in s'.hist.lost && s'.hist.lost[matched[k].id] == 0
    ensures var all, id := [Enqueue(e, batch, matched, retry, now)] + steps, matched[k].id;
      && RecordedOutcomes(s, all, id) <= ArrivedOutcomes(s, all, id)
      && |ArrivedOutcomes(s, all, id)| <= |RecordedOutcomes(s, all, id)| + 1
      && (!Held(Run(s, all).workers, id) ==> RecordedOutcomes(s, all, id) == ArrivedOutcomes(s, all, id))
  {
    var all, id := [Enqueue(e, batch, matched, retry, now)] + steps, matched[k].id;
    NotingFrom(s, e, batch, matched, retry, now, steps, k);
    if w :| 0 <= w < |Run(s, all).workers| && Run(s, all).workers[w].Saving? && Run(s, all).workers[w].sent && Run(s, all).workers[w].Holds(id) {
      assert Held(Run(s, all).workers, id);
    }
  }

  lemma NotingFrom(s: State, e: EmailId, batch: BatchId, matched: seq<Match>, retry: RetryConfig, now: Time,
                   steps: seq<Step>, k: nat)
    requires Reachable(s) && Valid(s, [Enqueue(e, batch, matched, retry, now)] + steps) && k < |matched|
    ensures var all, id := [Enqueue(e, batch, matched, retry, now)] + steps, matched[k].id;
      Noting(Run(s, all), id, ProgressOf(s, all, id, START), ArrivedOutcomes(s, all, id))
  {
    var step, id := Enqueue(e, batch, matched, retry, now), matched[k].id;
    ReachableInv(s);
    RunCons(s, step, steps);
    ProgressAfter(s, step, steps, id);
    OutcomesAfter(s, step, steps, id);
    NotingBegins(s, e, batch, matched, retry, now, k);
    NotingOn(Apply(s, step), steps, id);
  }

  lemma NotingOn(s: State, steps: seq<Step>, id: DeliveryId)
    requires Inv(s) && Valid(s, steps) && Noting(s, id, START, [])
    ensures Noting(Run(s, steps), id, ProgressOf(s, steps, id, START), ArrivedOutcomes(s, steps, id))
  {
    NotingRun(s, steps, id, START, []);
    assert [] + ArrivedOutcomes(s, steps, id) == ArrivedOutcomes(s, steps, id);
  }

  lemma NotingBegins(s: State, e: EmailId, batch: BatchId, matched: seq<Match>, retry: RetryConfig, now: Time, k: nat)
    requires Inv(s) && Enabled(s, Enqueue(e, batch, matched, retry, now)) && k < |matched|
    ensures Inv(Apply(s, Enqueue(e, batch, matched, retry, now)))
    ensures Noting(Apply(s, Enqueue(e, batch, matched, retry, now)), matched[k].id, START, [])
  {
    var s1, id := DoEnqueue(s, e, batch, matched, retry, now), matched[k].id;
    UnknownIsNowhere(s, id);
    EnqueueRecords(s, e, batch, matched, retry, now, k);
    StepKeeps(s, Enqueue(e, batch, matched, retry, now));
    assert RowOk(s1, id);
    assert !Unsaved(s1.workers, id);
  }

  lemma OutcomesAfter(s: State, step: Step, steps: seq<Step>, id: DeliveryId)
    requires Enabled(s, step) && !step.Complete? && Valid(s, [step] + steps) && Valid(Apply(s, step), steps)
    ensures ArrivedOutcomes(s, [step] + steps, id) == ArrivedOutcomes(Apply(s, step), steps, id)
  {
    assert ([step] + steps)[1..] == steps;
    assert [] + ArrivedOutcomes(Apply(s, step), steps, id) == ArrivedOutcomes(Apply(s, step), steps, id);
  }
}
