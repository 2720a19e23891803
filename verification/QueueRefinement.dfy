/** The running queue refines the in-memory retry loop: over whole runs, with other
    workers, other deliveries, shutdowns, crashes and restarts in between, a delivery
    sends and ends as dispatchOne would with the outcomes that got recorded, and sends
    once more for each outcome that got lost. */
module QueueRefinement {
  import opened Models
  import opened Backoff
  import opened Tables
  import opened Retry
  import opened QueueSystem
  import opened QueueInvariant
  import opened QueueSteps
  import opened QueueTheorems
  import opened QueueProgress

  // ----- What the outcomes so far say -----

  /** An outcome that arrived for the delivery, and the wait that backoff gave for it. */
  datatype Taken = Taken(outcome: Outcome, wait: Duration)

  /** Attempt k, with outcome o, is the last one. */
  predicate LastOne(retry: RetryConfig, o: Outcome, k: nat) {
    !Retryable(o, retry.retryOnTimeout) || k >= retry.maxRetries
  }

  predicate GoOn(retry: RetryConfig, outs: seq<Taken>) {
    forall j :: 0 <= j < |outs| ==> !LastOne(retry, outs[j].outcome, j)
  }

  /** The delivery is between attempts, or in one that has no outcome yet. */
  predicate Underway(snap: Snapshot, outs: seq<Taken>, attempts: nat) {
    attempts == |outs| && GoOn(snap.retry, outs) && (snap.payloadError != "" ==> outs == [])
  }

  /** r is the final result after these outcomes. */
  predicate Final(snap: Snapshot, r: DeliveryResult, outs: seq<Taken>) {
    if snap.payloadError != "" then outs == [] && r == GaveUp(snap.payloadError, 0)
    else
      var n := |outs|;
      && n > 0 && GoOn(snap.retry, outs[..n - 1]) && LastOne(snap.retry, outs[n - 1].outcome, n - 1)
      && r == Verdict(outs[n - 1].outcome, n)
  }

  // ----- What is recorded -----

  /** The outcomes recorded for a delivery, in order, and the one that its worker is about
      to record. */
  datatype Progress = Progress(recorded: seq<Taken>, last: Option<Taken>)

  const START := Progress([], None)

  /** A step of the worker that holds the delivery. */
  ghost predicate ByHolder(s: State, step: Step, id: DeliveryId) {
    IsWorkerStep(step) && Mover(step) < |s.workers| && s.workers[Mover(step)].Holds(id)
  }

  /** What a step does to the progress: an outcome arrives, unless it is cancelled away,
      and a save that succeeds records it. */
  ghost function Advance(s: State, step: Step, id: DeliveryId, p: Progress): Progress {
    if !ByHolder(s, step, id) then p
    else if step.Complete? then
      p.(last := if step.outcome.Answered? || !s.cancelled then Some(Taken(step.outcome, step.wait)) else None)
    else if step.Save? then Noted(s.workers[step.w], step.ok, p)
    else p
  }

  function Noted(wk: Worker, ok: bool, p: Progress): Progress {
    if ok && wk.Saving? && wk.sent && p.last.Some? then Progress(p.recorded + [p.last.value], None) else p.(last := None)
  }

  ghost function ProgressOf(s: State, steps: seq<Step>, id: DeliveryId, p: Progress): Progress
    requires Valid(s, steps)
    decreases |steps|
  {
    if steps == [] then p else ProgressOf(Apply(s, steps[0]), steps[1..], id, Advance(s, steps[0], id, p))
  }

  /** The outcomes that a run recorded for a delivery. */
  ghost function RecordedOutcomes(s: State, steps: seq<Step>, id: DeliveryId): seq<Taken>
    requires Valid(s, steps)
  {
    ProgressOf(s, steps, id, START).recorded
  }

  /** A worker that holds the delivery. */
  predicate HolderOk(snap: Snapshot, wk: Worker, p: Progress)
    requires wk.HasJob()
  {
    if !wk.Saving? then Underway(snap, p.recorded, wk.job.attempts) && (wk.Sending? ==> snap.payloadError == "")
    else if wk.sent then
      && p.last.Some? && snap.payloadError == ""
      && var all := p.recorded + [p.last.value];
         if wk.next.None? then Final(snap, wk.result, all) else Underway(snap, all, wk.result.attempts)
    else if wk.next.None? then snap.payloadError != "" && Final(snap, wk.result, p.recorded)
    else Underway(snap, p.recorded, wk.result.attempts)
  }

  ghost predicate HoldersOk(ws: seq<Worker>, id: DeliveryId, snap: Snapshot, p: Progress) {
    forall w :: 0 <= w < |ws| && ws[w].Holds(id) ==> HolderOk(snap, ws[w], p)
  }

  predicate RowFits(d: Delivery, held: bool, snap: Snapshot, outs: seq<Taken>) {
    && (!Unfinished(d.status) ==> Final(snap, RowResult(d), outs))
    && (Unfinished(d.status) && !held ==> Underway(snap, outs, d.attempts))
  }

  /** The delivery and its worker fit what was recorded. */
  ghost predicate OnTrack(s: State, id: DeliveryId, snap: Snapshot, p: Progress) {
    id in s.db.deliveries ==>
      && RowFits(s.db.deliveries[id], Held(s.workers, id), snap, p.recorded)
      && HoldersOk(s.workers, id, snap, p)
  }

  ghost predicate Track(s: State, id: DeliveryId, snap: Snapshot, p: Progress) {
    id in s.hist.original && s.hist.original[id] == snap && OnTrack(s, id, snap, p)
  }

  /** Whatever its worker is about to record, so far it is between attempts. */
  lemma HolderUnderway(snap: Snapshot, wk: Worker, p: Progress)
    requires wk.HasJob() && HolderOk(snap, wk, p) && (wk.Saving? ==> SavingOk(snap, wk))
    ensures Underway(snap, p.recorded, wk.job.attempts)
  {
    if wk.Saving? && wk.sent {
      var all := p.recorded + [p.last.value];
      assert all[..|all| - 1] == p.recorded;
      assert forall j :: 0 <= j < |p.recorded| ==> all[j] == p.recorded[j];
    }
  }

  // ----- Steps of the worker that holds the delivery -----

  /** Only worker w may hold the delivery after the step. */
  lemma OneHolder(s: State, s': State, w: nat, id: DeliveryId)
    requires Exclusive(s.workers) && w < |s.workers| && s.workers[w].Holds(id)
    requires |s'.workers| == |s.workers| && s'.workers == s.workers[w := s'.workers[w]]
    ensures forall v :: 0 <= v < |s'.workers| && v != w ==> !s'.workers[v].Holds(id)
    ensures Held(s'.workers, id) <==> s'.workers[w].Holds(id)
  {
    forall v | 0 <= v < |s'.workers| && v != w ensures !s'.workers[v].Holds(id) {
      assert s'.workers[v] == s.workers[v];
    }
    if s'.workers[w].Holds(id) {
      assert Held(s'.workers, id);
    }
  }

  /** After a step of the holder, its row and the worker itself are all that matters. */
  lemma HolderStep(s: State, s': State, w: nat, id: DeliveryId, snap: Snapshot, p: Progress)
    requires Exclusive(s.workers) && w < |s.workers| && s.workers[w].Holds(id)
    requires |s'.workers| == |s.workers| && s'.workers == s.workers[w := s'.workers[w]]
    requires id in s'.db.deliveries ==> RowFits(s'.db.deliveries[id], s'.workers[w].Holds(id), snap, p.recorded)
    requires id in s'.db.deliveries && s'.workers[w].Holds(id) ==> HolderOk(snap, s'.workers[w], p)
    ensures OnTrack(s', id, snap, p)
  {
    OneHolder(s, s', w, id);
  }

  lemma QuietTrack(s: State, step: Step, w: nat, id: DeliveryId, snap: Snapshot, p: Progress)
    requires IsQuiet(step) && Enabled(s, step) && step.w == w && s.workers[w].Holds(id)
    requires Exclusive(s.workers) && WorkerOk(s, s.workers[w]) && OnTrack(s, id, snap, p)
    ensures OnTrack(Apply(s, step), id, snap, p)
  {
    var v, x := QuietStep(s, step);
    assert Held(s.workers, id);
    HolderStep(s, Apply(s, step), w, id, snap, p);
  }

  /** The rule's secret is the one it had when the delivery was published. */
  predicate SecretStands(rules: seq<Rule>, rule: Rule) {
    rule.webhook.signingSecret != "" ==> SecretOf(rules, rule.name) == Some(rule.webhook.signingSecret)
  }

  predicate SnapOf(snap: Snapshot, rule: Rule) {
    && snap.rule == rule.(webhook := rule.webhook.(signingSecret := ""))
    && (snap.signed <==> rule.webhook.signingSecret != "")
  }

  lemma BeginTrack(s: State, w: nat, id: DeliveryId, rule: Rule, snap: Snapshot, p: Progress)
    requires At(s, w) && s.workers[w].Running? && s.workers[w].Holds(id) && s.workers[w].job.snapshot == Encoded(snap)
    requires Exclusive(s.workers) && OnTrack(s, id, snap, p)
    requires SnapOf(snap, rule) && SecretStands(s.rules, rule)
    requires id in s.db.deliveries ==> s.db.deliveries[id].status == InProgress
    ensures OnTrack(DoBegin(s, w), id, snap, p)
  {
    assert Held(s.workers, id);
    HolderStep(s, DoBegin(s, w), w, id, snap, p);
  }

  lemma CompleteTrack(s: State, w: nat, o: Outcome, now: Time, wait: Duration, id: DeliveryId, snap: Snapshot, p: Progress)
    requires At(s, w) && s.workers[w].Sending? && s.workers[w].Holds(id) && s.workers[w].job.snapshot == Encoded(snap)
    requires Exclusive(s.workers) && OnTrack(s, id, snap, p)
    requires id in s.db.deliveries ==> s.db.deliveries[id].status == InProgress
    ensures OnTrack(DoComplete(s, w, o, now, wait), id, snap, Advance(s, Complete(w, o, now, wait), id, p))
  {
    var s', p' := DoComplete(s, w, o, now, wait), Advance(s, Complete(w, o, now, wait), id, p);
    if id in s.db.deliveries {
      assert HolderOk(snap, s.workers[w], p);
      var all := p.recorded + [Taken(o, wait)];
      assert all[..|all| - 1] == p.recorded;
      assert HolderOk(snap, s'.workers[w], p');
    }
    assert s'.workers[w].Holds(id) && Held(s'.workers, id);
    HolderStep(s, s', w, id, snap, p');
  }

  lemma SaveTrack(s: State, w: nat, ok: bool, id: DeliveryId, snap: Snapshot, p: Progress)
    requires At(s, w) && s.workers[w].Saving? && s.workers[w].Holds(id)
    requires Exclusive(s.workers) && WorkerOk(s, s.workers[w]) && OnTrack(s, id, snap, p)
    requires id in s.hist.original && s.hist.original[id] == snap
    ensures OnTrack(DoSave(s, w, ok), id, snap, Noted(s.workers[w], ok, p))
  {
    if id in s.db.deliveries {
      HolderUnderway(snap, s.workers[w], p);
    }
    HolderStep(s, DoSave(s, w, ok), w, id, snap, Noted(s.workers[w], ok, p));
  }

  lemma ReleaseTrack(s: State, w: nat, now: Time, ok: bool, id: DeliveryId, snap: Snapshot, p: Progress)
    requires At(s, w) && s.workers[w].Releasing? && s.workers[w].Holds(id)
    requires Exclusive(s.workers) && WorkerOk(s, s.workers[w]) && OnTrack(s, id, snap, p)
    ensures OnTrack(DoRelease(s, w, now, ok), id, snap, p)
  {
    HolderStep(s, DoRelease(s, w, now, ok), w, id, snap, p);
  }

  lemma ClaimTrack(s: State, w: nat, id: DeliveryId, snap: Snapshot, p: Progress)
    requires At(s, w) && !s.workers[w].HasJob() && id in s.db.queue && id in s.db.deliveries
    requires s.db.deliveries[id].status == Pending && !Held(s.workers, id) && OnTrack(s, id, snap, p)
    ensures OnTrack(DoClaim(s, w, id), id, snap, p)
  {
    var s' := DoClaim(s, w, id);
    assert s'.workers[w].Holds(id) && Held(s'.workers, id);
    assert forall v :: 0 <= v < |s'.workers| && v != w ==> s'.workers[v] == s.workers[v] && !s.workers[v].Holds(id);
    assert HolderOk(snap, s'.workers[w], p);
  }

  // ----- Steps that end or restart the process -----

  lemma CrashTrack(s: State, id: DeliveryId, snap: Snapshot, p: Progress)
    requires OnTrack(s, id, snap, p) && WorkersOk(s)
    requires id in s.hist.original && s.hist.original[id] == snap
    ensures OnTrack(DoCrash(s), id, snap, p)
  {
    if id in s.db.deliveries && Unfinished(s.db.deliveries[id].status) && Held(s.workers, id) {
      var w :| 0 <= w < |s.workers| && s.workers[w].Holds(id);
      assert WorkerOk(s, s.workers[w]) && HolderOk(snap, s.workers[w], p);
      HolderUnderway(snap, s.workers[w], p);
    }
  }

  lemma StartTrack(s: State, count: nat, id: DeliveryId, snap: Snapshot, p: Progress)
    requires OnTrack(s, id, snap, p) && s.workers == []
    ensures OnTrack(DoStart(s, count), id, snap, p)
  {
    assert !Held(DoStart(s, count).workers, id);
  }

  // ----- Steps of others -----

  /** A step that leaves the row, or deletes it, and the holders as they are. */
  lemma OthersTrack(s: State, s': State, id: DeliveryId, snap: Snapshot, p: Progress)
    requires OnTrack(s, id, snap, p)
    requires id in s'.db.deliveries ==> id in s.db.deliveries && s'.db.deliveries[id] == s.db.deliveries[id]
    requires SameHolders(s.workers, s'.workers, id)
    ensures OnTrack(s', id, snap, p)
  {
    if Held(s.workers, id) {
      var w :| 0 <= w < |s.workers| && s.workers[w].Holds(id);
      assert s'.workers[w].Holds(id);
    }
  }

  ghost predicate SameHolders(ws: seq<Worker>, ws': seq<Worker>, id: DeliveryId) {
    && (forall w :: 0 <= w < |ws| && ws[w].Holds(id) ==> w < |ws'| && ws'[w] == ws[w])
    && (forall w :: 0 <= w < |ws'| && ws'[w].Holds(id) ==> w < |ws| && ws[w] == ws'[w])
  }

  /** A worker step of someone who neither holds the delivery nor claims it. */
  lemma OthersWork(s: State, step: Step, id: DeliveryId)
    requires Enabled(s, step) && IsWorkerStep(step) && !s.workers[Mover(step)].Holds(id)
    requires !(step.Claim? && step.id == id)
    ensures SameHolders(s.workers, Apply(s, step).workers, id)
  {
    var s', w := Apply(s, step), Mover(step);
    assert s'.workers == s.workers[w := s'.workers[w]];
    if s'.workers[w].Holds(id) {
      HolderTurns(s, step, w, id);
    }
  }

  lemma OthersHolders(s: State, step: Step, id: DeliveryId)
    requires Enabled(s, step) && !IsWorkerStep(step) && !step.Crash? && !step.Start?
    ensures SameHolders(s.workers, Apply(s, step).workers, id)
  {
  }

  /** The step neither takes the delivery up or down nor moves a worker that holds it. */
  predicate Passive(s: State, step: Step, id: DeliveryId) {
    && !(step.Claim? && step.id == id) && !step.Crash? && !step.Start?
    && (IsWorkerStep(step) && Mover(step) < |s.workers| ==> !s.workers[Mover(step)].Holds(id))
  }

  lemma RowStands(s: State, step: Step, s': State, id: DeliveryId)
    requires id in s.hist.original && RowOk(s, id) && id in s'.hist.original && RowOk(s', id)
    requires RowMoves(s, step, s', id) && Passive(s, step, id)
    ensures id in s'.db.deliveries ==> id in s.db.deliveries && s'.db.deliveries[id] == s.db.deliveries[id]
  {
  }

  /** What the invariant says about one delivery around one step. */
  lemma StepAround(s: State, step: Step, id: DeliveryId)
    requires Inv(s) && Enabled(s, step) && id in s.hist.original
    ensures var s' := Apply(s, step);
      && id in s'.hist.original && s'.hist.original[id] == s.hist.original[id]
      && (Passive(s, step, id) && id in s'.db.deliveries ==>
            id in s.db.deliveries && s'.db.deliveries[id] == s.db.deliveries[id])
  {
    InvIsLocal(s, step, id);
    StepMoves(s, step, id);
    StepKeeps(s, step);
    if Passive(s, step, id) {
      RowStands(s, step, Apply(s, step), id);
    }
  }

  // ----- Every step -----

  /** The step of a worker that holds the delivery. */
  lemma HolderTrack(s: State, step: Step, id: DeliveryId, rule: Rule, snap: Snapshot, p: Progress)
    requires Exclusive(s.workers) && Enabled(s, step) && ByHolder(s, step, id) && WorkerOk(s, s.workers[Mover(step)])
    requires id in s.hist.original && s.hist.original[id] == snap && OnTrack(s, id, snap, p)
    requires SnapOf(snap, rule) && SecretStands(s.rules, rule)
    ensures OnTrack(Apply(s, step), id, snap, Advance(s, step, id, p))
  {
    if step.Complete? {
      CompleteTrack(s, step.w, step.outcome, step.now, step.wait, id, snap, p);
    } else if step.Save? {
      SaveTrack(s, step.w, step.ok, id, snap, p);
    } else {
      HolderElse(s, step, id, rule, snap, p);
    }
  }

  lemma HolderElse(s: State, step: Step, id: DeliveryId, rule: Rule, snap: Snapshot, p: Progress)
    requires Exclusive(s.workers) && Enabled(s, step) && ByHolder(s, step, id) && !step.Complete? && !step.Save?
    requires WorkerOk(s, s.workers[Mover(step)])
    requires id in s.hist.original && s.hist.original[id] == snap && OnTrack(s, id, snap, p)
    requires SnapOf(snap, rule) && SecretStands(s.rules, rule)
    ensures OnTrack(Apply(s, step), id, snap, p)
  {
    if IsQuiet(step) {
      QuietTrack(s, step, Mover(step), id, snap, p);
    } else if step.Begin? {
      BeginTrack(s, step.w, id, rule, snap, p);
    } else if step.Release? {
      ReleaseTrack(s, step.w, step.now, step.ok, id, snap, p);
    }
  }

  lemma PassiveHolders(s: State, step: Step, id: DeliveryId)
    requires Enabled(s, step) && Passive(s, step, id)
    ensures SameHolders(s.workers, Apply(s, step).workers, id)
  {
    if IsWorkerStep(step) {
      OthersWork(s, step, id);
    } else {
      OthersHolders(s, step, id);
    }
  }

  /** The three steps that take a delivery up or put all of them down. */
  lemma TurningTrack(s: State, step: Step, id: DeliveryId, snap: Snapshot, p: Progress)
    requires (step.Claim? && step.id == id) || step.Crash? || step.Start?
    requires WorkersOk(s) && DomainsOk(s) && Enabled(s, step) && OnTrack(s, id, snap, p)
    requires id in s.hist.original && s.hist.original[id] == snap
    ensures OnTrack(Apply(s, step), id, snap, p)
  {
    if step.Claim? {
      PendingNotHeld(s, id);
      ClaimTrack(s, step.w, id, snap, p);
    } else if step.Crash? {
      CrashTrack(s, id, snap, p);
    } else {
      StartTrack(s, step.count, id, snap, p);
    }
  }

  lemma PassiveTrack(s: State, step: Step, id: DeliveryId, snap: Snapshot, p: Progress)
    requires Enabled(s, step) && Passive(s, step, id) && OnTrack(s, id, snap, p)
    requires id in Apply(s, step).db.deliveries ==>
      id in s.db.deliveries && Apply(s, step).db.deliveries[id] == s.db.deliveries[id]
    ensures OnTrack(Apply(s, step), id, snap, p)
  {
    PassiveHolders(s, step, id);
    OthersTrack(s, Apply(s, step), id, snap, p);
  }

  lemma ActiveTrack(s: State, step: Step, id: DeliveryId, rule: Rule, snap: Snapshot, p: Progress)
    requires Exclusive(s.workers) && WorkersOk(s) && DomainsOk(s) && Enabled(s, step) && !Passive(s, step, id)
    requires id in s.hist.original && s.hist.original[id] == snap && OnTrack(s, id, snap, p)
    requires SnapOf(snap, rule) && SecretStands(s.rules, rule)
    ensures OnTrack(Apply(s, step), id, snap, Advance(s, step, id, p))
  {
    if ByHolder(s, step, id) {
      assert WorkerOk(s, s.workers[Mover(step)]);
      HolderTrack(s, step, id, rule, snap, p);
    } else {
      TurningTrack(s, step, id, snap, p);
    }
  }

  /** Every step of the system keeps the delivery on track. */
  lemma TrackStep(s: State, step: Step, id: DeliveryId, rule: Rule, snap: Snapshot, p: Progress)
    requires Inv(s) && Enabled(s, step) && Track(s, id, snap, p)
    requires SnapOf(snap, rule) && SecretStands(s.rules, rule)
    ensures Track(Apply(s, step), id, snap, Advance(s, step, id, p))
  {
    StepAround(s, step, id);
    if Passive(s, step, id) {
      PassiveTrack(s, step, id, snap, p);
    } else {
      ActiveTrack(s, step, id, rule, snap, p);
    }
  }

  // ----- Whole runs -----

  /** No step of the run changes the rule's secret. */
  ghost predicate KeepsSecret(steps: seq<Step>, rule: Rule) {
    forall i :: 0 <= i < |steps| && steps[i].SetRules? ==> SecretStands(steps[i].rules, rule)
  }

  lemma SecretStays(s: State, step: Step, rule: Rule)
    requires Enabled(s, step) && SecretStands(s.rules, rule) && (step.SetRules? ==> SecretStands(step.rules, rule))
    ensures SecretStands(Apply(s, step).rules, rule)
  {
    if IsWorkerStep(step) {
      RulesStay(s, step);
    }
  }

  lemma RulesStay(s: State, step: Step)
    requires Enabled(s, step) && IsWorkerStep(step)
    ensures Apply(s, step).rules == s.rules
  {
    if IsQuiet(step) {
      var w, x := QuietStep(s, step);
    }
  }

  lemma KeepsSecretRest(steps: seq<Step>, rule: Rule)
    requires steps != [] && KeepsSecret(steps, rule)
    ensures (steps[0].SetRules? ==> SecretStands(steps[0].rules, rule)) && KeepsSecret(steps[1..], rule)
  {
  }

  /** The run so far, and what it may do yet. */
  ghost predicate TracksAlong(s: State, steps: seq<Step>, id: DeliveryId, rule: Rule, snap: Snapshot, p: Progress) {
    && Inv(s) && Valid(s, steps) && Track(s, id, snap, p)
    && SnapOf(snap, rule) && SecretStands(s.rules, rule) && KeepsSecret(steps, rule)
  }

  lemma TrackFirst(s: State, steps: seq<Step>, id: DeliveryId, rule: Rule, snap: Snapshot, p: Progress)
    requires steps != [] && TracksAlong(s, steps, id, rule, snap, p)
    ensures TracksAlong(Apply(s, steps[0]), steps[1..], id, rule, snap, Advance(s, steps[0], id, p))
  {
    TrackStep(s, steps[0], id, rule, snap, p);
    StepKeeps(s, steps[0]);
    KeepsSecretRest(steps, rule);
    SecretStays(s, steps[0], rule);
  }

  lemma {:induction false} TrackRun(s: State, steps: seq<Step>, id: DeliveryId, rule: Rule, snap: Snapshot, p: Progress)
    requires TracksAlong(s, steps, id, rule, snap, p)
    ensures Track(Run(s, steps), id, snap, ProgressOf(s, steps, id, p))
    decreases |steps|
  {
    if steps != [] {
      TrackFirst(s, steps, id, rule, snap, p);
      TrackRun(Apply(s, steps[0]), steps[1..], id, rule, snap, Advance(s, steps[0], id, p));
    }
  }

  // ----- The requests -----

  /** Every request made for the delivery is the same one. */
  ghost predicate SameRequests(log: seq<Sent>, id: DeliveryId, out: Outgoing) {
    forall i :: 0 <= i < |log| && log[i].id == id ==> log[i].out == out
  }

  /** Only the start of a request writes the log. */
  lemma LogStays(s: State, step: Step)
    requires Enabled(s, step) && !step.Begin?
    ensures Apply(s, step).hist.log == s.hist.log
  {
    if IsQuiet(step) {
      var w, x := QuietStep(s, step);
    }
  }

  lemma RequestBegins(s: State, w: nat, id: DeliveryId, rule: Rule, snap: Snapshot)
    requires At(s, w) && s.workers[w].Running? && WorkerOk(s, s.workers[w])
    requires id in s.hist.original && s.hist.original[id] == snap
    requires SnapOf(snap, rule) && SecretStands(s.rules, rule)
    requires SameRequests(s.hist.log, id, Request(snap, rule.webhook.signingSecret))
    ensures SameRequests(DoBegin(s, w).hist.log, id, Request(snap, rule.webhook.signingSecret))
  {
    BeginStep(s, w, s.hist.original[s.workers[w].job.id]);
  }

  lemma RequestStep(s: State, step: Step, id: DeliveryId, rule: Rule, snap: Snapshot)
    requires WorkersOk(s) && Enabled(s, step) && id in s.hist.original && s.hist.original[id] == snap
    requires SnapOf(snap, rule) && SecretStands(s.rules, rule)
    requires SameRequests(s.hist.log, id, Request(snap, rule.webhook.signingSecret))
    ensures SameRequests(Apply(s, step).hist.log, id, Request(snap, rule.webhook.signingSecret))
  {
    if step.Begin? {
      RequestBegins(s, step.w, id, rule, snap);
    } else {
      LogStays(s, step);
    }
  }

  lemma {:induction false} RequestRun(s: State, steps: seq<Step>, id: DeliveryId, rule: Rule, snap: Snapshot, p: Progress)
    requires TracksAlong(s, steps, id, rule, snap, p)
    requires SameRequests(s.hist.log, id, Request(snap, rule.webhook.signingSecret))
    ensures SameRequests(Run(s, steps).hist.log, id, Request(snap, rule.webhook.signingSecret))
    decreases |steps|
  {
    if steps != [] {
      RequestStep(s, steps[0], id, rule, snap);
      TrackFirst(s, steps, id, rule, snap, p);
      RequestRun(Apply(s, steps[0]), steps[1..], id, rule, snap, Advance(s, steps[0], id, p));
    }
  }

  /** The requests made for the delivery, in order. */
  function SentFor(log: seq<Sent>, id: DeliveryId): seq<Outgoing> {
    if log == [] then []
    else SentFor(log[..|log| - 1], id) + (if log[|log| - 1].id == id then [log[|log| - 1].out] else [])
  }

  lemma {:induction false} SentIsRepeat(log: seq<Sent>, id: DeliveryId, out: Outgoing)
    requires SameRequests(log, id, out)
    ensures SentFor(log, id) == Repeat(out, Begun(log, id))
  {
    if log != [] {
      SentIsRepeat(log[..|log| - 1], id, out);
      if log[|log| - 1].id == id {
        RepeatSnoc(out, Begun(log[..|log| - 1], id));
      }
    }
  }

  // ----- The start -----

  lemma FreshRow(s: State, e: EmailId, batch: BatchId, matched: seq<Match>, retry: RetryConfig, now: Time, k: nat)
    requires Enabled(s, Enqueue(e, batch, matched, retry, now)) && k < |matched|
    ensures var s1, id := DoEnqueue(s, e, batch, matched, retry, now), matched[k].id;
      id in s1.db.deliveries && s1.db.deliveries[id].status == Pending && s1.db.deliveries[id].attempts == 0
  {
    var jobs := JobsFor(matched, retry);
    assert jobs[k].id == matched[k].id;
    PublishStores(s.db, e, batch, jobs, now, k);
  }

  lemma UnknownIsNowhere(s: State, id: DeliveryId)
    requires LogOk(s.hist) && WorkersOk(s) && id !in s.hist.original
    ensures !Held(s.workers, id)
    ensures forall i :: 0 <= i < |s.hist.log| ==> s.hist.log[i].id != id
  {
    forall w | 0 <= w < |s.workers| ensures !s.workers[w].Holds(id) {
      assert WorkerOk(s, s.workers[w]);
    }
    forall i | 0 <= i < |s.hist.log| ensures s.hist.log[i].id != id {
      assert SentOk(s.hist, s.hist.log[i]);
    }
  }

  lemma TrackBegins(s: State, e: EmailId, batch: BatchId, matched: seq<Match>, retry: RetryConfig, now: Time, k: nat)
    requires Inv(s) && Enabled(s, Enqueue(e, batch, matched, retry, now)) && k < |matched|
    ensures var s1, id := Apply(s, Enqueue(e, batch, matched, retry, now)), matched[k].id;
      var snap := TakeSnapshot(matched[k].rule, retry, matched[k].payload);
      && Track(s1, id, snap, START)
      && SameRequests(s1.hist.log, id, Request(snap, matched[k].rule.webhook.signingSecret))
  {
    var s1, id := DoEnqueue(s, e, batch, matched, retry, now), matched[k].id;
    UnknownIsNowhere(s, id);
    FreshRow(s, e, batch, matched, retry, now, k);
    EnqueueRecords(s, e, batch, matched, retry, now, k);
    StepKeeps(s, Enqueue(e, batch, matched, retry, now));
    assert RowOk(s1, id);
    assert forall w :: 0 <= w < |s1.workers| ==> !s1.workers[w].Holds(id);
  }

  // ----- The end -----

  /** The attempts of a tracked row are the outcomes recorded; all but the last go on. */
  lemma AttemptsRecorded(s: State, id: DeliveryId, snap: Snapshot, p: Progress)
    requires id in s.hist.original && s.hist.original[id] == snap && WorkersOk(s) && OnTrack(s, id, snap, p)
    requires id in s.db.deliveries
    ensures s.db.deliveries[id].attempts == |p.recorded|
    ensures Unfinished(s.db.deliveries[id].status) ==> GoOn(snap.retry, p.recorded)
    ensures snap.payloadError != "" ==> p.recorded == []
    ensures snap.payloadError == "" && p.recorded != [] ==> GoOn(snap.retry, p.recorded[..|p.recorded| - 1])
  {
    if Unfinished(s.db.deliveries[id].status) && Held(s.workers, id) {
      var w :| 0 <= w < |s.workers| && s.workers[w].Holds(id);
      assert WorkerOk(s, s.workers[w]) && HolderOk(snap, s.workers[w], p);
      HolderUnderway(snap, s.workers[w], p);
    }
  }

  /** A row that says a final result has no request out. */
  lemma FinalIsIdle(s: State, id: DeliveryId)
    requires WorkersOk(s) && id in s.db.deliveries && s.db.deliveries[id].status != InProgress
    ensures !InFlight(s.workers, id) && !Held(s.workers, id)
  {
    PendingNotHeld(s, id);
  }

  /** The outcomes and waits of the run are those of the streams. */
  predicate Streams(outs: seq<Taken>, outcomes: nat -> Outcome, waits: nat -> Duration) {
    forall j :: 0 <= j < |outs| ==> outs[j].outcome == outcomes(j) && outs[j].wait == waits(j + 1)
  }

  /** The waits between the attempts. */
  function Delays(outs: seq<Taken>): seq<Duration> {
    if outs == [] then [] else seq(|outs| - 1, j requires 0 <= j < |outs| - 1 => outs[j].wait)
  }

  lemma SameRequest(rule: Rule, global: RetryConfig, payload: Payload)
    requires payload.Built?
    ensures Request(TakeSnapshot(rule, global, payload), rule.webhook.signingSecret)
         == Outgoing(rule, payload.bytes, Effective(rule.webhook, global).timeout)
  {
    assert rule.webhook.(signingSecret := "").(signingSecret := rule.webhook.signingSecret) == rule.webhook;
  }

  /** While every outcome but the last goes on, the last attempt is not yet past. */
  lemma NotPast(retry: RetryConfig, outcomes: nat -> Outcome, outs: seq<Taken>)
    requires forall j :: 0 <= j < |outs| ==> outs[j].outcome == outcomes(j)
    requires outs != [] ==> GoOn(retry, outs[..|outs| - 1])
    ensures |outs| <= LastAttempt(retry, outcomes, 0) + 1
    ensures GoOn(retry, outs) ==> |outs| <= LastAttempt(retry, outcomes, 0)
  {
    var k := LastAttempt(retry, outcomes, 0);
    assert forall j :: 0 <= j < |outs| - 1 ==> outs[..|outs| - 1][j] == outs[j];
    assert k < |outs| ==> LastOne(retry, outs[k].outcome, k);
  }

  lemma EndsHere(snap: Snapshot, outcomes: nat -> Outcome, outs: seq<Taken>, r: DeliveryResult)
    requires snap.payloadError == "" && Final(snap, r, outs)
    requires forall j :: 0 <= j < |outs| ==> outs[j].outcome == outcomes(j)
    ensures LastAttempt(snap.retry, outcomes, 0) == |outs| - 1
    ensures r == Verdict(outcomes(|outs| - 1), |outs|)
  {
    var n := |outs|;
    forall j | 0 <= j < n - 1 ensures !Ends(snap.retry, outcomes, j) {
      assert outs[..n - 1][j] == outs[j];
    }
    LastAttemptUnique(snap.retry, outcomes, 0, n - 1);
  }

  /** The recorded outcomes have made a beginning of the requests of the dispatch. */
  lemma Beginning(rule: Rule, global: RetryConfig, payload: Payload, outcomes: nat -> Outcome, waits: nat -> Duration, outs: seq<Taken>)
    requires payload.Broken? ==> payload.reason != "" && outs == []
    requires payload.Broken? || Effective(rule.webhook, global).maxRetries >= 0
    requires Streams(outs, outcomes, waits)
    requires payload.Built? && outs != [] ==> GoOn(Effective(rule.webhook, global), outs[..|outs| - 1])
    ensures var full, req := Undisturbed(rule, global, payload, outcomes, waits),
                             Request(TakeSnapshot(rule, global, payload), rule.webhook.signingSecret);
      && |outs| <= |full.sends| && Repeat(req, |outs|) <= full.sends
      && (payload.Built? && GoOn(Effective(rule.webhook, global), outs) ==> Repeat(req, |outs| + 1) <= full.sends)
  {
    if payload.Built? {
      SameRequest(rule, global, payload);
      NotPast(Effective(rule.webhook, global), outcomes, outs);
    }
  }

  /** A final result after the recorded outcomes is that of the whole dispatch. */
  lemma WholeDispatch(rule: Rule, global: RetryConfig, payload: Payload, outcomes: nat -> Outcome, waits: nat -> Duration,
                      outs: seq<Taken>, r: DeliveryResult)
    requires payload.Broken? ==> payload.reason != ""
    requires payload.Broken? || Effective(rule.webhook, global).maxRetries >= 0
    requires Streams(outs, outcomes, waits) && Final(TakeSnapshot(rule, global, payload), r, outs)
    ensures Dispatched(r, Repeat(Request(TakeSnapshot(rule, global, payload), rule.webhook.signingSecret), |outs|), Delays(outs))
         == Undisturbed(rule, global, payload, outcomes, waits)
  {
    if payload.Built? {
      SameRequest(rule, global, payload);
      EndsHere(TakeSnapshot(rule, global, payload), outcomes, outs, r);
      assert Delays(outs) == Waits(waits, 1, |outs|);
    }
  }

  // ----- The refinement -----

  /** How a run matches the dispatch: its requests are a beginning of those of the dispatch,
      one for each recorded outcome, and the same request once more for each outcome that
      got lost and for the one in flight. Once the row is final the beginning is all of
      them, with the same waits in between, and the row says the same. */
  ghost predicate Refines(s: State, id: DeliveryId, outs: seq<Taken>, req: Outgoing, full: Dispatched) {
    && id in s.hist.lost && |outs| <= |full.sends|
    && SentFor(s.hist.log, id)
       == full.sends[..|outs|] + Repeat(req, s.hist.lost[id] + (if InFlight(s.workers, id) then 1 else 0))
    && (id in s.db.deliveries && !Unfinished(s.db.deliveries[id].status) ==>
          !InFlight(s.workers, id) && Dispatched(RowResult(s.db.deliveries[id]), full.sends[..|outs|], Delays(outs)) == full)
  }

  lemma RepeatSplits(req: Outgoing, m: nat, n: nat)
    ensures Repeat(req, m + n) == Repeat(req, m) + Repeat(req, n)
  {
  }

  /** How many requests a tracked delivery has made. */
  lemma RequestCount(s: State, id: DeliveryId, snap: Snapshot, p: Progress)
    requires id in s.hist.original && RowOk(s, id) && WorkersOk(s) && Track(s, id, snap, p) && id in s.db.deliveries
    ensures Begun(s.hist.log, id) == |p.recorded| + (s.hist.lost[id] + (if InFlight(s.workers, id) then 1 else 0))
    ensures s.db.deliveries[id].status != InProgress ==> !InFlight(s.workers, id)
  {
    AttemptsRecorded(s, id, snap, p);
    if s.db.deliveries[id].status != InProgress {
      FinalIsIdle(s, id);
    }
  }

  /** The requests of a tracked delivery, split in those recorded and the others. */
  lemma RequestsSplit(log: seq<Sent>, id: DeliveryId, req: Outgoing, recorded: nat, others: nat)
    requires SameRequests(log, id, req) && Begun(log, id) == recorded + others
    ensures SentFor(log, id) == Repeat(req, recorded) + Repeat(req, others)
  {
    SentIsRepeat(log, id, req);
    RepeatSplits(req, recorded, others);
  }

  lemma RefinesFrom(s: State, id: DeliveryId, outs: seq<Taken>, req: Outgoing, full: Dispatched)
    requires id in s.hist.lost && |outs| <= |full.sends| && Repeat(req, |outs|) <= full.sends
    requires SentFor(s.hist.log, id)
          == Repeat(req, |outs|) + Repeat(req, s.hist.lost[id] + (if InFlight(s.workers, id) then 1 else 0))
    requires id in s.db.deliveries && !Unfinished(s.db.deliveries[id].status) ==>
      !InFlight(s.workers, id) && Dispatched(RowResult(s.db.deliveries[id]), Repeat(req, |outs|), Delays(outs)) == full
    ensures Refines(s, id, outs, req, full)
  {
    PrefixIs(Repeat(req, |outs|), full.sends);
  }

  /** What the state of a tracked delivery says. */
  ghost predicate Splits(s: State, id: DeliveryId, snap: Snapshot, outs: seq<Taken>, req: Outgoing) {
    && id in s.hist.lost && id in s.db.deliveries
    && SentFor(s.hist.log, id) == Repeat(req, |outs|) + Repeat(req, s.hist.lost[id] + (if InFlight(s.workers, id) then 1 else 0))
    && (!Unfinished(s.db.deliveries[id].status) ==>
          !InFlight(s.workers, id) && Final(snap, RowResult(s.db.deliveries[id]), outs))
    && (snap.payloadError != "" ==> outs == [])
    && (snap.payloadError == "" && outs != [] ==> GoOn(snap.retry, outs[..|outs| - 1]))
  }

  lemma TrackSplits(s: State, id: DeliveryId, snap: Snapshot, p: Progress, req: Outgoing)
    requires id in s.hist.original && RowOk(s, id) && WorkersOk(s) && Track(s, id, snap, p)
    requires id in s.db.deliveries && SameRequests(s.hist.log, id, req)
    ensures Splits(s, id, snap, p.recorded, req)
  {
    RequestCount(s, id, snap, p);
    AttemptsRecorded(s, id, snap, p);
    RequestsSplit(s.hist.log, id, req, |p.recorded|, s.hist.lost[id] + (if InFlight(s.workers, id) then 1 else 0));
  }

  lemma TrackRefines(s: State, id: DeliveryId, rule: Rule, global: RetryConfig, payload: Payload,
                     outcomes: nat -> Outcome, waits: nat -> Duration, outs: seq<Taken>)
    requires Splits(s, id, TakeSnapshot(rule, global, payload), outs,
                    Request(TakeSnapshot(rule, global, payload), rule.webhook.signingSecret))
    requires payload.Broken? ==> payload.reason != ""
    requires payload.Broken? || Effective(rule.webhook, global).maxRetries >= 0
    requires Streams(outs, outcomes, waits)
    ensures Refines(s, id, outs, Request(TakeSnapshot(rule, global, payload), rule.webhook.signingSecret),
                    Undisturbed(rule, global, payload, outcomes, waits))
  {
    var snap, full := TakeSnapshot(rule, global, payload), Undisturbed(rule, global, payload, outcomes, waits);
    Beginning(rule, global, payload, outcomes, waits, outs);
    if !Unfinished(s.db.deliveries[id].status) {
      WholeDispatch(rule, global, payload, outcomes, waits, outs, RowResult(s.db.deliveries[id]));
    }
    RefinesFrom(s, id, outs, Request(snap, rule.webhook.signingSecret), full);
  }

  lemma PrefixIs(a: seq<Outgoing>, b: seq<Outgoing>)
    requires a <= b
    ensures b[..|a|] == a
  {
  }

  /** The running queue refines the in-memory loop. Publish a batch at any reachable
      state and let anything happen: other deliveries, claims, releases, cancellations,
      crashes, failed saves, restarts, new settings. As long as the rule's secret stays, a
      delivery of the batch that is still there has made a beginning of the requests that
      dispatchOne makes for the outcomes recorded, and the same request once more for each
      outcome that got lost; and when its row is final it says what dispatchOne returns
      for them, after the same waits. As before, the retry limit must not be negative. */
  lemma RunRefinesDispatch(s: State, e: EmailId, batch: BatchId, matched: seq<Match>, retry: RetryConfig, now: Time,
                           steps: seq<Step>, k: nat, outcomes: nat -> Outcome, waits: nat -> Duration)
    requires Reachable(s) && Valid(s, [Enqueue(e, batch, matched, retry, now)] + steps) && k < |matched|
    requires SecretStands(s.rules, matched[k].rule) && KeepsSecret(steps, matched[k].rule)
    requires matched[k].payload.Broken? ==> matched[k].payload.reason != ""
    requires matched[k].payload.Broken? || Effective(matched[k].rule.webhook, retry).maxRetries >= 0
    requires Streams(RecordedOutcomes(s, [Enqueue(e, batch, matched, retry, now)] + steps, matched[k].id), outcomes, waits)
    requires matched[k].id in Run(s, [Enqueue(e, batch, matched, retry, now)] + steps).db.deliveries
    ensures Refines(Run(s, [Enqueue(e, batch, matched, retry, now)] + steps), matched[k].id,
                    RecordedOutcomes(s, [Enqueue(e, batch, matched, retry, now)] + steps, matched[k].id),
                    Request(TakeSnapshot(matched[k].rule, retry, matched[k].payload), matched[k].rule.webhook.signingSecret),
                    Undisturbed(matched[k].rule, retry, matched[k].payload, outcomes, waits))
  {
    var all, id, rule := [Enqueue(e, batch, matched, retry, now)] + steps, matched[k].id, matched[k].rule;
    FromEnqueue(s, e, batch, matched, retry, now, steps, k);
    TrackRefines(Run(s, all), id, rule, retry, matched[k].payload, outcomes, waits, RecordedOutcomes(s, all, id));
  }

  /** The run from the publication on keeps to the track, with the same requests. */
  lemma FromEnqueue(s: State, e: EmailId, batch: BatchId, matched: seq<Match>, retry: RetryConfig, now: Time, steps: seq<Step>, k: nat)
    requires Reachable(s) && Valid(s, [Enqueue(e, batch, matched, retry, now)] + steps) && k < |matched|
    requires SecretStands(s.rules, matched[k].rule) && KeepsSecret(steps, matched[k].rule)
    requires matched[k].id in Run(s, [Enqueue(e, batch, matched, retry, now)] + steps).db.deliveries
    ensures var all, id, rule := [Enqueue(e, batch, matched, retry, now)] + steps, matched[k].id, matched[k].rule;
      var snap := TakeSnapshot(rule, retry, matched[k].payload);
      Splits(Run(s, all), id, snap, RecordedOutcomes(s, all, id), Request(snap, rule.webhook.signingSecret))
  {
    TracksFrom(s, e, batch, matched, retry, now, steps, k);
    TrackedEnd(s, Enqueue(e, batch, matched, retry, now), steps, matched[k].id, matched[k].rule,
               TakeSnapshot(matched[k].rule, retry, matched[k].payload));
  }

  /** A run whose first step puts a delivery on the track. */
  lemma TrackedEnd(s: State, step: Step, steps: seq<Step>, id: DeliveryId, rule: Rule, snap: Snapshot)
    requires Valid(s, [step] + steps) && !IsWorkerStep(step) && StartsTrack(s, step, steps, id, rule, snap)
    requires id in Run(s, [step] + steps).db.deliveries
    ensures Splits(Run(s, [step] + steps), id, snap, RecordedOutcomes(s, [step] + steps, id), Request(snap, rule.webhook.signingSecret))
  {
    RunCons(s, step, steps);
    ProgressAfter(s, step, steps, id);
    TrackOn(Apply(s, step), steps, id, rule, snap);
  }

  ghost predicate StartsTrack(s: State, step: Step, steps: seq<Step>, id: DeliveryId, rule: Rule, snap: Snapshot) {
    && Enabled(s, step) && TracksAlong(Apply(s, step), steps, id, rule, snap, START)
    && SameRequests(Apply(s, step).hist.log, id, Request(snap, rule.webhook.signingSecret))
  }

  lemma TracksFrom(s: State, e: EmailId, batch: BatchId, matched: seq<Match>, retry: RetryConfig, now: Time, steps: seq<Step>, k: nat)
    requires Reachable(s) && Valid(s, [Enqueue(e, batch, matched, retry, now)] + steps) && k < |matched|
    requires SecretStands(s.rules, matched[k].rule) && KeepsSecret(steps, matched[k].rule)
    ensures StartsTrack(s, Enqueue(e, batch, matched, retry, now), steps, matched[k].id, matched[k].rule,
                        TakeSnapshot(matched[k].rule, retry, matched[k].payload))
  {
    ReachableInv(s);
    RunCons(s, Enqueue(e, batch, matched, retry, now), steps);
    TrackBegins(s, e, batch, matched, retry, now, k);
    StepKeeps(s, Enqueue(e, batch, matched, retry, now));
  }

  lemma TrackOn(s: State, steps: seq<Step>, id: DeliveryId, rule: Rule, snap: Snapshot)
    requires TracksAlong(s, steps, id, rule, snap, START)
    requires SameRequests(s.hist.log, id, Request(snap, rule.webhook.signingSecret))
    requires id in Run(s, steps).db.deliveries
    ensures Splits(Run(s, steps), id, snap, ProgressOf(s, steps, id, START).recorded, Request(snap, rule.webhook.signingSecret))
  {
    TrackRun(s, steps, id, rule, snap, START);
    RequestRun(s, steps, id, rule, snap, START);
    RunKeeps(s, steps);
    assert RowOk(Run(s, steps), id);
    TrackSplits(Run(s, steps), id, snap, ProgressOf(s, steps, id, START), Request(snap, rule.webhook.signingSecret));
  }

  lemma ProgressAfter(s: State, step: Step, steps: seq<Step>, id: DeliveryId)
    requires Enabled(s, step) && !IsWorkerStep(step) && Valid(s, [step] + steps) && Valid(Apply(s, step), steps)
    ensures ProgressOf(s, [step] + steps, id, START) == ProgressOf(Apply(s, step), steps, id, START)
  {
    assert ([step] + steps)[1..] == steps;
  }
}
