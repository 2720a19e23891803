/** The waits of a delivery over a whole run: the j-th retry that is recorded was scheduled
    with the j-th wait of the backoff. */
module QueueWaits {
  import opened Models
  import opened Backoff
  import opened Tables
  import opened Retry
  import opened QueueSystem
  import opened QueueInvariant
  import opened QueueSteps
  import opened QueueTheorems
  import opened QueueRefinement

  /** The waits drawn so far are those of the backoff, one after the other. */
  ghost predicate InTurn(retry: RetryConfig, p: Progress) {
    && (forall j :: 0 <= j < |p.recorded| ==> IsBackoff(retry, j + 1, p.recorded[j].wait))
    && (p.last.Some? ==> IsBackoff(retry, |p.recorded| + 1, p.last.value.wait))
  }

  lemma NotedInTurn(retry: RetryConfig, wk: Worker, ok: bool, p: Progress)
    requires InTurn(retry, p)
    ensures InTurn(retry, Noted(wk, ok, p))
  {
  }

  /** An outcome arrives at the attempt that follows those recorded. */
  lemma ArrivesInTurn(s: State, step: Step, id: DeliveryId, snap: Snapshot, p: Progress)
    requires step.Complete? && Enabled(s, step) && ByHolder(s, step, id) && WorkerOk(s, s.workers[step.w])
    requires id in s.hist.original && s.hist.original[id] == snap && id in s.db.deliveries && OnTrack(s, id, snap, p)
    requires InTurn(snap.retry, p)
    ensures InTurn(snap.retry, Advance(s, step, id, p))
  {
    assert HolderOk(snap, s.workers[step.w], p);
  }

  lemma InTurnStep(s: State, step: Step, id: DeliveryId, snap: Snapshot, p: Progress)
    requires Inv(s) && Enabled(s, step) && Track(s, id, snap, p)
    requires id in s.db.deliveries ==> InTurn(snap.retry, p)
    ensures id in Apply(s, step).db.deliveries ==> InTurn(snap.retry, Advance(s, step, id, p))
  {
    InvIsLocal(s, step, id);
    StepMoves(s, step, id);
    if id in s.db.deliveries && ByHolder(s, step, id) {
      if step.Complete? {
        ArrivesInTurn(s, step, id, snap, p);
      } else if step.Save? {
        NotedInTurn(snap.retry, s.workers[step.w], step.ok, p);
      }
    }
  }

  lemma {:induction false} InTurnRun(s: State, steps: seq<Step>, id: DeliveryId, rule: Rule, snap: Snapshot, p: Progress)
    requires TracksAlong(s, steps, id, rule, snap, p) && (id in s.db.deliveries ==> InTurn(snap.retry, p))
    ensures id in Run(s, steps).db.deliveries ==> InTurn(snap.retry, ProgressOf(s, steps, id, p))
    decreases |steps|
  {
    if steps != [] {
      InTurnStep(s, steps[0], id, snap, p);
      TrackFirst(s, steps, id, rule, snap, p);
      InTurnRun(Apply(s, steps[0]), steps[1..], id, rule, snap, Advance(s, steps[0], id, p));
    }
  }

  lemma InTurnFrom(s: State, step: Step, steps: seq<Step>, id: DeliveryId, rule: Rule, snap: Snapshot)
    requires Valid(s, [step] + steps) && !IsWorkerStep(step) && StartsTrack(s, step, steps, id, rule, snap)
    requires id in Run(s, [step] + steps).db.deliveries
    ensures AreBackoffs(snap.retry, Delays(RecordedOutcomes(s, [step] + steps, id)))
  {
    RunCons(s, step, steps);
    ProgressAfter(s, step, steps, id);
    InTurnRun(Apply(s, step), steps, id, rule, snap, START);
    DelaysInTurn(snap.retry, ProgressOf(s, [step] + steps, id, START));
  }

  lemma DelaysInTurn(retry: RetryConfig, p: Progress)
    requires InTurn(retry, p)
    ensures AreBackoffs(retry, Delays(p.recorded))
  {
  }

  /** Over any run from its publication on, the waits between the recorded attempts of a
      delivery are the backoff of its own settings, in turn: with WaitsDouble, the first is
      the initial wait, and each further one twice the one before, up to the maximum. */
  lemma DelaysAreBackoffs(s: State, e: EmailId, batch: BatchId, matched: seq<Match>, retry: RetryConfig, now: Time,
                          steps: seq<Step>, k: nat)
    requires Reachable(s) && Valid(s, [Enqueue(e, batch, matched, retry, now)] + steps) && k < |matched|
    requires SecretStands(s.rules, matched[k].rule) && KeepsSecret(steps, matched[k].rule)
    requires matched[k].id in Run(s, [Enqueue(e, batch, matched, retry, now)] + steps).db.deliveries
    ensures AreBackoffs(Effective(matched[k].rule.webhook, retry),
                        Delays(RecordedOutcomes(s, [Enqueue(e, batch, matched, retry, now)] + steps, matched[k].id)))
  {
    var snap := TakeSnapshot(matched[k].rule, retry, matched[k].payload);
    TracksFrom(s, e, batch, matched, retry, now, steps, k);
    InTurnFrom(s, Enqueue(e, batch, matched, retry, now), steps, matched[k].id, matched[k].rule, snap);
  }
}
