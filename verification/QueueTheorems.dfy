/** What the invariant means for whole runs of the queue. */
module QueueTheorems {
  import opened Models
  import opened Backoff
  import opened Tables
  import opened Aggregate
  import opened Retry
  import opened QueueSystem
  import opened QueueInvariant
  import opened QueueSteps

  ghost predicate Reachable(s: State) {
    exists s0: State, steps: seq<Step> :: Init(s0) && Valid(s0, steps) && Run(s0, steps) == s
  }

  lemma ReachableInv(s: State)
    requires Reachable(s)
    ensures Inv(s)
  {
    var s0: State, steps: seq<Step> :| Init(s0) && Valid(s0, steps) && Run(s0, steps) == s;
    InitInv(s0);
    RunKeeps(s0, steps);
  }

  // ----- Mutual exclusion -----

  /** No two workers hold the same delivery, and a held row is in progress with the
      attempts of the held copy, unless its email was deleted under the worker. */
  lemma MutualExclusion(s: State, v: nat, w: nat)
    requires Reachable(s) && v < |s.workers| && w < |s.workers|
    requires s.workers[v].HasJob() && s.workers[w].HasJob()
    ensures v != w ==> s.workers[v].job.id != s.workers[w].job.id
    ensures var job := s.workers[w].job;
      if job.id in s.db.deliveries
      then s.db.deliveries[job.id].status == InProgress && s.db.deliveries[job.id].attempts == job.attempts
      else job.id in s.hist.gone && job.emailId !in s.db.emails
  {
    ReachableInv(s);
    assert WorkerOk(s, s.workers[w]);
    assert RowOk(s, s.workers[w].job.id);
  }

  // ----- What one step can do to one delivery -----

  /** A known delivery never comes back. */
  ghost predicate StillKnown(s: State, s': State, id: DeliveryId) {
    && id in s.hist.original && id in s'.hist.original && s'.hist.original[id] == s.hist.original[id]
    && (id in s'.db.deliveries ==> id in s.db.deliveries)
    && (id in s'.db.queue ==> id in s.db.queue)
  }

  /** Unless absent before or after, the row is unchanged. */
  ghost predicate Unchanged(s: State, s': State, id: DeliveryId) {
    id in s.db.deliveries && id in s.db.queue && id in s'.db.deliveries && id in s'.db.queue ==>
      s'.db.queue[id] == s.db.queue[id] && s'.db.deliveries[id] == s.db.deliveries[id]
  }

  /** Only the status of the row changed, in this way. */
  ghost predicate Turned(s: State, s': State, id: DeliveryId, before: DeliveryStatus, after: DeliveryStatus) {
    id in s.db.deliveries && id in s.db.queue && id in s'.db.deliveries && id in s'.db.queue ==>
      && s'.db.queue[id] == s.db.queue[id] && s.db.deliveries[id].status == before
      && s'.db.deliveries[id] == s.db.deliveries[id].(status := after)
  }

  /** The row is unchanged, or claimed by this step, or recovered by this step. */
  ghost predicate Kept(s: State, step: Step, s': State, id: DeliveryId) {
    || Unchanged(s, s', id)
    || (step.Claim? && step.id == id && Turned(s, s', id, Pending, InProgress))
    || (step.Start? && Turned(s, s', id, InProgress, Pending))
  }

  /** The row was held by worker wk and now says what wk recorded. */
  ghost predicate RecordedBy(s: State, wk: Worker, r: DeliveryResult, next: Option<Time>, s': State, id: DeliveryId)
    requires id in s.hist.original
  {
    && wk.HasJob() && wk.job.id == id
    && (id in s.db.deliveries && id in s.db.queue ==>
         && id in s'.db.deliveries && id in s'.db.queue
         && s.db.deliveries[id].status == InProgress && s.db.deliveries[id].attempts == wk.job.attempts
         && RowResult(s'.db.deliveries[id]) == r
         && (wk.Saving? ==> SavingOk(s.hist.original[id], wk))
         && (next.Some? ==> s'.db.queue[id] == s.db.queue[id].(due := next.value))
         && (next.None? ==> s'.db.queue[id] == s.db.queue[id].(snapshot := Released, due := MAX_NANOS)))
  }

  function ReleaseResult(job: Job): DeliveryResult {
    DeliveryResult(Pending, 0, "", "", job.attempts)
  }

  /** What one step does to a known delivery. */
  ghost predicate RowMoves(s: State, step: Step, s': State, id: DeliveryId) {
    && StillKnown(s, s', id)
    && (Kept(s, step, s', id)
        || (step.Save? && step.ok && step.w < |s.workers| && s.workers[step.w].Saving?
            && RecordedBy(s, s.workers[step.w], s.workers[step.w].result, s.workers[step.w].next, s', id))
        || (step.Release? && step.ok && step.w < |s.workers| && s.workers[step.w].Releasing?
            && RecordedBy(s, s.workers[step.w], ReleaseResult(s.workers[step.w].job), Some(step.now), s', id)))
  }

  lemma EnqueueMoves(s: State, e: EmailId, batch: BatchId, matched: seq<Match>, retry: RetryConfig, now: Time, id: DeliveryId)
    requires Enabled(s, Enqueue(e, batch, matched, retry, now)) && id in s.hist.original
    ensures StillKnown(s, DoEnqueue(s, e, batch, matched, retry, now), id) && Unchanged(s, DoEnqueue(s, e, batch, matched, retry, now), id)
  {
    var jobs := JobsFor(matched, retry);
    assert !IsNew(jobs, id);
    PublishKeeps(s.db, e, batch, jobs, now, id);
    RecordKeeps(s.hist.original, s.hist.lost, jobs, id);
  }

  lemma SaveMoves(s: State, w: nat, x: Worker, r: DeliveryResult, next: Option<Time>, sent: bool, id: DeliveryId)
    requires w < |s.workers| && s.workers[w].HasJob() && WorkerOk(s, s.workers[w])
    requires id in s.hist.original && RowOk(s, id)
    ensures var s' := SaveDone(s, w, x, r, next, sent);
      StillKnown(s, s', id) && (Unchanged(s, s', id) || RecordedBy(s, s.workers[w], r, next, s', id))
  {
  }

  lemma StartMoves(s: State, count: nat, id: DeliveryId)
    requires id in s.hist.original
    ensures StillKnown(s, DoStart(s, count), id) && Kept(s, Start(count), DoStart(s, count), id)
  {
  }

  lemma DeleteMoves(s: State, doomed: set<EmailId>, manual: bool, id: DeliveryId)
    requires id in s.hist.original
    ensures StillKnown(s, DoDelete(s, doomed, manual), id) && Unchanged(s, DoDelete(s, doomed, manual), id)
  {
  }

  lemma ReleaseMoves(s: State, w: nat, now: Time, ok: bool, id: DeliveryId)
    requires w < |s.workers| && s.workers[w].Releasing? && WorkerOk(s, s.workers[w])
    requires id in s.hist.original && RowOk(s, id)
    ensures RowMoves(s, Release(w, now, ok), DoRelease(s, w, now, ok), id)
  {
    if ok {
      SaveMoves(s, w, Exited, ReleaseResult(s.workers[w].job), Some(now), false, id);
    }
  }

  lemma SaveStepMoves(s: State, w: nat, ok: bool, id: DeliveryId)
    requires w < |s.workers| && s.workers[w].Saving? && WorkerOk(s, s.workers[w])
    requires id in s.hist.original && RowOk(s, id)
    ensures RowMoves(s, Save(w, ok), DoSave(s, w, ok), id)
  {
    if ok {
      SaveMoves(s, w, Top, s.workers[w].result, s.workers[w].next, s.workers[w].sent, id);
    }
  }

  lemma SameTablesMoves(s: State, step: Step, s': State, id: DeliveryId)
    requires id in s.hist.original && s'.db == s.db && s'.hist.original == s.hist.original
    ensures StillKnown(s, s', id) && Kept(s, step, s', id)
  {
  }

  lemma ClaimMoves(s: State, w: nat, id: DeliveryId, now: Time, other: DeliveryId)
    requires Enabled(s, Claim(w, id, now)) && other in s.hist.original
    ensures StillKnown(s, DoClaim(s, w, id), other) && Kept(s, Claim(w, id, now), DoClaim(s, w, id), other)
  {
  }

  lemma TablesStay(s: State, step: Step)
    requires IsWorkerStep(step) && !step.Save? && !step.Release? && !step.Claim? && Enabled(s, step)
    ensures Apply(s, step).db == s.db && Apply(s, step).hist.original == s.hist.original
  {
    if IsQuiet(step) {
      var w, x := QuietStep(s, step);
    }
  }

  /** Worker steps that save nothing. */
  lemma WorkerMoves(s: State, step: Step, id: DeliveryId)
    requires IsWorkerStep(step) && !step.Save? && !step.Release?
    requires Enabled(s, step) && id in s.hist.original
    ensures StillKnown(s, Apply(s, step), id) && Kept(s, step, Apply(s, step), id)
  {
    if step.Claim? {
      ClaimMoves(s, step.w, step.id, step.now, id);
    } else {
      TablesStay(s, step);
      SameTablesMoves(s, step, Apply(s, step), id);
    }
  }

  /** Steps that are neither a publication, a deletion, a restart nor a save. */
  lemma OtherMoves(s: State, step: Step, id: DeliveryId)
    requires !step.Enqueue? && !step.Start? && !step.DeleteEmail? && !step.DeleteAll? && !step.Cleanup?
    requires !step.Save? && !step.Release?
    requires Enabled(s, step) && id in s.hist.original
    ensures StillKnown(s, Apply(s, step), id) && Kept(s, step, Apply(s, step), id)
  {
    if IsWorkerStep(step) {
      WorkerMoves(s, step, id);
    }
  }

  /** Deletions of all kinds. */
  lemma DeletionMoves(s: State, step: Step, id: DeliveryId)
    requires step.DeleteEmail? || step.DeleteAll? || step.Cleanup?
    requires Enabled(s, step) && id in s.hist.original
    ensures StillKnown(s, Apply(s, step), id) && Kept(s, step, Apply(s, step), id)
  {
    match step
    case DeleteEmail(e) => DeleteMoves(s, {e}, true, id);
    case DeleteAll => DeleteMoves(s, s.db.emails.Keys, true, id);
    case Cleanup(cutoff) => DeleteMoves(s, Expired(s.db, cutoff), false, id);
  }

  /** The worker that a step moves; any number for other steps. */
  function Mover(step: Step): nat {
    match step
    case PassStop(w) => w
    case ExitTop(w) => w
    case Claim(w, _, _) => w
    case ClaimNothing(w) => w
    case Proceed(w) => w
    case SeeStop(w) => w
    case Release(w, _, _) => w
    case Begin(w) => w
    case Complete(w, _, _, _) => w
    case Save(w, _) => w
    case _ => 0
  }

  /** The whole state but for the tables, one worker, the orphans and the ledger. */
  ghost predicate OnlyWorkerMoved(s: State, s': State, w: nat) {
    && w < |s.workers| && |s'.workers| == |s.workers| && s'.workers == s.workers[w := s'.workers[w]]
    && s'.up == s.up && s'.stop == s.stop && s'.cancelled == s.cancelled && s'.rules == s.rules && s'.retry == s.retry
    && s'.hist.(log := s.hist.log, lost := s.hist.lost) == s.hist
  }

  lemma ActStep(s: State, step: Step)
    requires Enabled(s, step) && (step.Claim? || step.Begin? || step.Complete?)
    ensures OnlyWorkerMoved(s, Apply(s, step), Mover(step))
  {
  }

  lemma EndStep(s: State, step: Step)
    requires Enabled(s, step) && (step.Save? || step.Release?)
    ensures OnlyWorkerMoved(s, Apply(s, step), Mover(step))
  {
  }

  /** A worker step moves its worker only. */
  lemma MoverMoves(s: State, step: Step)
    requires Enabled(s, step) && IsWorkerStep(step)
    ensures OnlyWorkerMoved(s, Apply(s, step), Mover(step))
  {
    if IsQuiet(step) {
      var w, x := QuietStep(s, step);
    } else if step.Save? || step.Release? {
      EndStep(s, step);
    } else {
      ActStep(s, step);
    }
  }

  /** The parts of the invariant that concern one delivery and the moving worker. */
  ghost predicate Local(s: State, step: Step, id: DeliveryId) {
    && id in s.hist.original && RowOk(s, id)
    && (Mover(step) < |s.workers| ==> WorkerOk(s, s.workers[Mover(step)]))
  }

  lemma InvIsLocal(s: State, step: Step, id: DeliveryId)
    requires Inv(s) && id in s.hist.original
    ensures Local(s, step, id)
  {
  }

  /** Steps that record something in the row of a held delivery. */
  lemma RecordMoves(s: State, step: Step, id: DeliveryId)
    requires (step.Save? || step.Release?) && Enabled(s, step) && Local(s, step, id)
    ensures RowMoves(s, step, Apply(s, step), id)
  {
    match step
    case Release(w, now, ok) => ReleaseMoves(s, w, now, ok, id);
    case Save(w, ok) => SaveStepMoves(s, w, ok, id);
  }

  lemma StepMoves(s: State, step: Step, id: DeliveryId)
    requires Enabled(s, step) && Local(s, step, id)
    ensures RowMoves(s, step, Apply(s, step), id)
  {
    if step.Enqueue? {
      EnqueueMoves(s, step.e, step.batch, step.matched, step.retry, step.now, id);
    } else if step.Start? {
      StartMoves(s, step.count, id);
    } else if step.DeleteEmail? || step.DeleteAll? || step.Cleanup? {
      DeletionMoves(s, step, id);
    } else if step.Save? || step.Release? {
      RecordMoves(s, step, id);
    } else {
      OtherMoves(s, step, id);
    }
  }

  // ----- Final results -----

  /** A known delivery that is absent, or has exactly these rows. */
  ghost predicate FrozenAt(s: State, id: DeliveryId, d: Delivery, q: QueueRow) {
    && id in s.hist.original
    && (id in s.db.deliveries ==> s.db.deliveries[id] == d)
    && (id in s.db.queue ==> s.db.queue[id] == q)
  }

  lemma FrozenStep(s: State, step: Step, s': State, id: DeliveryId, d: Delivery, q: QueueRow)
    requires FrozenAt(s, id, d, q) && RowMoves(s, step, s', id) && RowOk(s, id) && RowOk(s', id) && !Unfinished(d.status)
    ensures FrozenAt(s', id, d, q)
  {
  }

  lemma {:induction false} FrozenRun(s: State, steps: seq<Step>, id: DeliveryId, d: Delivery, q: QueueRow)
    requires Inv(s) && Valid(s, steps) && FrozenAt(s, id, d, q) && !Unfinished(d.status)
    ensures FrozenAt(Run(s, steps), id, d, q)
    decreases |steps|
  {
    if steps != [] {
      InvIsLocal(s, steps[0], id);
      StepMoves(s, steps[0], id);
      StepKeeps(s, steps[0]);
      FrozenStep(s, steps[0], Apply(s, steps[0]), id, d, q);
      FrozenRun(Apply(s, steps[0]), steps[1..], id, d, q);
    }
  }

  /** A recorded final result is never changed again: whatever happens later, the
      rows stay as they are or are deleted, although no save checks ownership. */
  lemma FinalResultsStay(s: State, steps: seq<Step>, id: DeliveryId)
    requires Reachable(s) && Valid(s, steps)
    requires id in s.db.deliveries && !Unfinished(s.db.deliveries[id].status)
    ensures id in s.db.queue
    ensures id in Run(s, steps).db.deliveries ==>
      Run(s, steps).db.deliveries[id] == s.db.deliveries[id]
    ensures id in Run(s, steps).db.queue ==>
      Run(s, steps).db.queue[id] == s.db.queue[id]
  {
    ReachableInv(s);
    assert RowOk(s, id);
    FrozenRun(s, steps, id, s.db.deliveries[id], s.db.queue[id]);
  }

  // ----- No lost delivery -----

  /** Every delivery ever published is final, or still has its row, its email and
      the snapshot resolved when it was published, or was deleted; and a deletion
      of unfinished work was a manual one. */
  lemma NoLostDelivery(s: State, id: DeliveryId)
    requires Reachable(s) && id in s.hist.original
    ensures if id in s.db.deliveries
      then && id in s.db.queue && s.db.deliveries[id].emailId in s.db.emails
           && (Unfinished(s.db.deliveries[id].status) <==> s.db.queue[id].snapshot == Encoded(s.hist.original[id]))
           && (Unfinished(s.db.deliveries[id].status) <==> s.db.queue[id].snapshot != Released)
           && (Unfinished(s.db.deliveries[id].status) <==> s.db.queue[id].due != MAX_NANOS)
      else && id in s.hist.gone
           && (s.hist.gone[id].manual || !Unfinished(s.hist.gone[id].status))
  {
    ReachableInv(s);
    assert RowOk(s, id);
  }

  lemma SparesRow(s: State, cutoff: Time, id: DeliveryId)
    requires id in s.hist.original && RowOk(s, id)
    requires id in s.db.deliveries && Unfinished(s.db.deliveries[id].status)
    ensures var db' := DeleteEmails(s.db, Expired(s.db, cutoff));
      && id in db'.deliveries && db'.deliveries[id] == s.db.deliveries[id]
      && id in db'.queue && id in s.db.queue && db'.queue[id] == s.db.queue[id]
      && s.db.queue[id].emailId in db'.emails
  {
    assert HasUnfinished(s.db, s.db.queue[id].emailId);
  }

  /** Retention keeps every unfinished delivery, its queue row and its email. */
  lemma RetentionSparesUnfinished(s: State, cutoff: Time, id: DeliveryId)
    requires Reachable(s)
    requires id in s.db.deliveries && Unfinished(s.db.deliveries[id].status)
    ensures var db' := DeleteEmails(s.db, Expired(s.db, cutoff));
      && id in db'.deliveries && db'.deliveries[id] == s.db.deliveries[id]
      && id in db'.queue && id in s.db.queue && db'.queue[id] == s.db.queue[id]
      && s.db.queue[id].emailId in db'.emails
  {
    ReachableInv(s);
    assert RowOk(s, id);
    SparesRow(s, cutoff, id);
  }

  lemma RestartRun(s: State, count: nat)
    requires s.up && count >= 1
    ensures Valid(s, [Crash, Start(count)]) && Run(s, [Crash, Start(count)]) == DoStart(DoCrash(s), count)
  {
    var s1 := DoCrash(s);
    assert [Crash, Start(count)][1..] == [Start(count)];
    assert [Start(count)][1..] == [];
    assert Run(s1, [Start(count)]) == DoStart(s1, count);
  }

  lemma RestartRow(s: State, count: nat, id: DeliveryId, now: Time)
    requires s.up && count >= 1 && id in s.hist.original && RowOk(s, id)
    requires id in s.db.deliveries && Unfinished(s.db.deliveries[id].status)
    ensures Valid(s, [Crash, Start(count)])
    ensures var s' := Run(s, [Crash, Start(count)]);
      && id in s'.db.deliveries && id in s.db.queue
      && s'.db.deliveries[id] == s.db.deliveries[id].(status := Pending)
      && s'.db.queue == s.db.queue
      && (Due(s'.db, id, now) <==> s.db.queue[id].due <= now)
  {
    RestartRun(s, count);
  }

  /** After a crash and a restart every unfinished row is pending, otherwise as it
      was, and may be claimed exactly from its due time on. */
  lemma RestartResumes(s: State, count: nat, id: DeliveryId, now: Time)
    requires Reachable(s) && s.up && count >= 1
    requires id in s.db.deliveries && Unfinished(s.db.deliveries[id].status)
    ensures Valid(s, [Crash, Start(count)])
    ensures var s' := Run(s, [Crash, Start(count)]);
      && id in s'.db.deliveries && id in s.db.queue
      && s'.db.deliveries[id] == s.db.deliveries[id].(status := Pending)
      && s'.db.queue == s.db.queue
      && (Due(s'.db, id, now) <==> s.db.queue[id].due <= now)
  {
    ReachableInv(s);
    assert RowOk(s, id);
    RestartRow(s, count, id, now);
  }

  // ----- Send ledger and budget -----

  /** For every delivery of every run: requests begun = attempts recorded + requests
      whose outcome was lost + the one in flight; and the recorded attempts stay
      within the retry budget plus the first attempt. */
  lemma SendLedger(s: State, id: DeliveryId)
    requires Reachable(s) && id in s.hist.original
    ensures id in s.hist.lost
    ensures Begun(s.hist.log, id)
         == RecordedAttempts(s, id) + s.hist.lost[id] + (if InFlight(s.workers, id) then 1 else 0)
    ensures id in s.db.deliveries ==>
      s.db.deliveries[id].attempts <= Max(1, s.hist.original[id].retry.maxRetries + 1)
    ensures id in s.db.deliveries && Unfinished(s.db.deliveries[id].status) ==>
      s.db.deliveries[id].attempts <= Max(0, s.hist.original[id].retry.maxRetries)
  {
    ReachableInv(s);
    assert RowOk(s, id);
  }

  ghost predicate AttemptsAtLeast(s: State, id: DeliveryId, n: nat) {
    id in s.hist.original && (id in s.db.deliveries ==> s.db.deliveries[id].attempts >= n)
  }

  lemma AttemptsStep(s: State, step: Step, s': State, id: DeliveryId, n: nat)
    requires AttemptsAtLeast(s, id, n) && RowMoves(s, step, s', id) && RowOk(s, id) && RowOk(s', id)
    ensures AttemptsAtLeast(s', id, n)
  {
  }

  lemma {:induction false} AttemptsRun(s: State, steps: seq<Step>, id: DeliveryId, n: nat)
    requires Inv(s) && Valid(s, steps) && AttemptsAtLeast(s, id, n)
    ensures AttemptsAtLeast(Run(s, steps), id, n)
    decreases |steps|
  {
    if steps != [] {
      InvIsLocal(s, steps[0], id);
      StepMoves(s, steps[0], id);
      StepKeeps(s, steps[0]);
      AttemptsStep(s, steps[0], Apply(s, steps[0]), id, n);
      AttemptsRun(Apply(s, steps[0]), steps[1..], id, n);
    }
  }

  /** Recorded attempts never decrease, whatever happens. */
  lemma AttemptsNeverDecrease(s: State, steps: seq<Step>, id: DeliveryId)
    requires Reachable(s) && Valid(s, steps) && id in s.db.deliveries
    ensures id in Run(s, steps).db.deliveries ==>
      s.db.deliveries[id].attempts <= Run(s, steps).db.deliveries[id].attempts
  {
    ReachableInv(s);
    AttemptsRun(s, steps, id, s.db.deliveries[id].attempts);
  }

  lemma PutBackRow(s: State, w: nat, x: Worker, r: DeliveryResult, next: Option<Time>, sent: bool, id: DeliveryId)
    requires w < |s.workers| && s.workers[w].Holds(id) && WorkerOk(s, s.workers[w])
    requires id in s.hist.original && RowOk(s, id) && id in s.db.deliveries
    requires r.status == Pending && r.attempts == s.workers[w].job.attempts && next.Some?
    ensures PutBack(s, SaveDone(s, w, x, r, next, sent), id, next.value)
  {
  }

  /** The row is pending, due at this time, with the attempts and the snapshot it had. */
  ghost predicate PutBack(s: State, s': State, id: DeliveryId, due: Time) {
    && id in s.db.deliveries && id in s.db.queue && id in s'.db.deliveries && id in s'.db.queue
    && s'.db.deliveries[id].status == Pending
    && s'.db.deliveries[id].attempts == s.db.deliveries[id].attempts
    && s'.db.queue[id] == s.db.queue[id].(due := due)
  }

  /** Putting a row back, on shutdown or after a cancelled request, makes it pending
      with its attempt count and snapshot as they were when it was claimed, due at the
      time of the release, or of the cancelled failure. */
  lemma PuttingBackIsFree(s: State, w: nat, now: Time, id: DeliveryId)
    requires Reachable(s) && w < |s.workers| && s.workers[w].Holds(id) && id in s.db.deliveries
    ensures s.workers[w].Releasing? ==> PutBack(s, DoRelease(s, w, now, true), id, now)
    ensures s.workers[w].Saving? && s.workers[w].next.Some? && !s.workers[w].sent ==>
      PutBack(s, DoSave(s, w, true), id, s.workers[w].next.value)
  {
    ReachableInv(s);
    var wk := s.workers[w];
    assert WorkerOk(s, wk) && RowOk(s, id);
    if wk.Releasing? {
      PutBackRow(s, w, Exited, ReleaseResult(wk.job), Some(now), false, id);
    } else if wk.Saving? && wk.next.Some? && !wk.sent {
      PutBackRow(s, w, Top, wk.result, wk.next, wk.sent, id);
    }
  }

  lemma {:induction false} GoneStaysGone(s: State, steps: seq<Step>, id: DeliveryId)
    requires Inv(s) && Valid(s, steps) && id in s.hist.original && id !in s.db.deliveries
    ensures id !in Run(s, steps).db.deliveries
    decreases |steps|
  {
    if steps != [] {
      InvIsLocal(s, steps[0], id);
      StepMoves(s, steps[0], id);
      StepKeeps(s, steps[0]);
      GoneStaysGone(Apply(s, steps[0]), steps[1..], id);
    }
  }

  /** The steps that can lose the outcome of a request. */
  ghost predicate Loses(step: Step) {
    step.Crash? || step.Cancel? || (step.Save? && !step.ok)
  }

  lemma EnqueueLosesNothing(s: State, e: EmailId, batch: BatchId, matched: seq<Match>, retry: RetryConfig, now: Time, id: DeliveryId)
    requires Enabled(s, Enqueue(e, batch, matched, retry, now)) && id in s.hist.original && id in s.hist.lost
    ensures var s' := DoEnqueue(s, e, batch, matched, retry, now);
      id in s'.hist.lost && s'.hist.lost[id] == s.hist.lost[id] && s'.cancelled == s.cancelled
  {
    assert !IsNew(JobsFor(matched, retry), id);
    RecordKeeps(s.hist.original, s.hist.lost, JobsFor(matched, retry), id);
  }

  lemma StepLosesNothing(s: State, step: Step, id: DeliveryId)
    requires Enabled(s, step) && !Loses(step) && !s.cancelled
    requires id in s.hist.original && id in s.hist.lost && id in s.db.deliveries
    ensures id in Apply(s, step).hist.lost && Apply(s, step).hist.lost[id] == s.hist.lost[id]
    ensures !Apply(s, step).cancelled
  {
    if step.Enqueue? {
      EnqueueLosesNothing(s, step.e, step.batch, step.matched, step.retry, step.now, id);
    }
  }

  /** Without a crash, a cancellation or a failed save, no outcome of a delivery that
      is still there gets lost: every request begun is recorded or in flight. */
  lemma {:induction false} NothingLost(s: State, steps: seq<Step>, id: DeliveryId)
    requires Inv(s) && Valid(s, steps) && !s.cancelled
    requires forall i :: 0 <= i < |steps| ==> !Loses(steps[i])
    requires id in s.hist.original && id in Run(s, steps).db.deliveries
    ensures id in s.hist.lost && id in Run(s, steps).hist.lost
    ensures Run(s, steps).hist.lost[id] == s.hist.lost[id]
    decreases |steps|
  {
    if steps == [] {
      assert RowOk(s, id);
    } else {
      var s1 := KeptFirst(s, steps, id);
      NothingLost(s1, steps[1..], id);
    }
  }

  lemma KeptFirst(s: State, steps: seq<Step>, id: DeliveryId) returns (s1: State)
    requires steps != [] && Inv(s) && Valid(s, steps) && !s.cancelled && !Loses(steps[0])
    requires id in s.hist.original && id in Run(s, steps).db.deliveries
    ensures Inv(s1) && Valid(s1, steps[1..]) && Run(s1, steps[1..]) == Run(s, steps)
    ensures !s1.cancelled && id in s1.hist.original
    ensures id in s.hist.lost && id in s1.hist.lost && s1.hist.lost[id] == s.hist.lost[id]
  {
    s1 := Apply(s, steps[0]);
    KeptOneStep(s, steps[0], id);
    if id !in s1.db.deliveries {
      GoneStaysGone(s1, steps[1..], id);
    }
  }

  lemma KeptOneStep(s: State, step: Step, id: DeliveryId)
    requires Inv(s) && Enabled(s, step) && !Loses(step) && !s.cancelled && id in s.hist.original
    ensures var s' := Apply(s, step);
      && Inv(s') && !s'.cancelled && id in s'.hist.original
      && (id in s'.db.deliveries ==> id in s.hist.lost && id in s'.hist.lost && s'.hist.lost[id] == s.hist.lost[id])
  {
    StepKeeps(s, step);
    InvIsLocal(s, step, id);
    StepMoves(s, step, id);
    if id in Apply(s, step).db.deliveries {
      assert RowOk(s, id);
      StepLosesNothing(s, step, id);
    } else {
      StaysUp(s, step);
    }
  }

  lemma StaysUp(s: State, step: Step)
    requires Enabled(s, step) && !Loses(step) && !s.cancelled
    ensures !Apply(s, step).cancelled
  {
  }

  // ----- Aggregate status -----

  /** While an email has unfinished work its status is received; otherwise it is
      dropped if that was said after its last batch, else what computeStatus says
      of the last batch alone, else what it was stored with. */
  lemma AggregateStatus(s: State, e: EmailId)
    requires Reachable(s) && e in s.db.emails
    ensures e in s.hist.saved
    ensures e in s.hist.latest ==> Stored(s.db, s.hist.latest[e]) && s.hist.latest[e] != []
    ensures s.db.emails[e].status ==
      if HasUnfinished(s.db, e) then Received
      else if e in s.hist.dropped then Dropped
      else if e in s.hist.latest then StatusOf(Statuses(s.db, s.hist.latest[e]))
      else s.hist.saved[e]
  {
    ReachableInv(s);
    assert EmailOk(s, e);
  }

  /** The last batch published for e consists of these ids, and e was not dropped since. */
  ghost predicate LastBatch(s: State, e: EmailId, ids: seq<DeliveryId>) {
    e in s.hist.latest && s.hist.latest[e] == ids && e !in s.hist.dropped
  }

  lemma {:induction false} LastBatchRun(s: State, steps: seq<Step>, e: EmailId, ids: seq<DeliveryId>)
    requires Valid(s, steps) && LastBatch(s, e, ids)
    requires forall i :: 0 <= i < |steps| ==>
      !(steps[i].Enqueue? && steps[i].e == e) && !(steps[i].Drop? && steps[i].e == e)
    ensures LastBatch(Run(s, steps), e, ids)
    decreases |steps|
  {
    if steps != [] {
      LastBatchStep(s, steps[0], e, ids);
      LastBatchRun(Apply(s, steps[0]), steps[1..], e, ids);
    }
  }

  lemma LastBatchStep(s: State, step: Step, e: EmailId, ids: seq<DeliveryId>)
    requires Enabled(s, step) && LastBatch(s, e, ids)
    requires !(step.Enqueue? && step.e == e) && !(step.Drop? && step.e == e)
    ensures LastBatch(Apply(s, step), e, ids)
  {
    if IsWorkerStep(step) {
      MoverMoves(s, step);
    }
  }

  lemma RunCons(s: State, step: Step, steps: seq<Step>)
    requires Valid(s, [step] + steps)
    ensures Enabled(s, step) && Valid(Apply(s, step), steps)
    ensures Run(s, [step] + steps) == Run(Apply(s, step), steps)
  {
    assert ([step] + steps)[1..] == steps;
  }

  /** Once nothing of an email is unfinished, the batch published last decides its
      status alone, even if older batches finished after it, until the next batch
      or drop of that email. */
  lemma LastBatchDecides(s: State, e: EmailId, batch: BatchId, matched: seq<Match>, retry: RetryConfig, now: Time, steps: seq<Step>)
    requires Reachable(s) && Valid(s, [Enqueue(e, batch, matched, retry, now)] + steps)
    requires forall i :: 0 <= i < |steps| ==>
      !(steps[i].Enqueue? && steps[i].e == e) && !(steps[i].Drop? && steps[i].e == e)
    ensures var s', ids := Run(s, [Enqueue(e, batch, matched, retry, now)] + steps), Ids(JobsFor(matched, retry));
      e in s'.db.emails ==>
        && Stored(s'.db, ids)
        && s'.db.emails[e].status ==
           if HasUnfinished(s'.db, e) then Received else StatusOf(Statuses(s'.db, ids))
  {
    var step := Enqueue(e, batch, matched, retry, now);
    RunCons(s, step, steps);
    ReachableInv(s);
    RunKeeps(s, [step] + steps);
    LastBatchRun(Apply(s, step), steps, e, Ids(JobsFor(matched, retry)));
    var s' := Run(s, [step] + steps);
    assert e in s'.db.emails ==> EmailOk(s', e);
  }

  // ----- Snapshot isolation and signing -----

  lemma {:induction false} OriginalRun(s: State, steps: seq<Step>, id: DeliveryId)
    requires Inv(s) && Valid(s, steps) && id in s.hist.original
    ensures id in Run(s, steps).hist.original && Run(s, steps).hist.original[id] == s.hist.original[id]
    decreases |steps|
  {
    if steps != [] {
      InvIsLocal(s, steps[0], id);
      StepMoves(s, steps[0], id);
      StepKeeps(s, steps[0]);
      OriginalRun(Apply(s, steps[0]), steps[1..], id);
    }
  }

  /** Delivery `id` still is what was resolved for `rule` when it was published. */
  ghost predicate StaysAs(s: State, id: DeliveryId, rule: Rule, snap: Snapshot) {
    && (id in s.db.deliveries && Unfinished(s.db.deliveries[id].status) ==>
          id in s.db.queue && s.db.queue[id].snapshot == Encoded(snap))
    && (forall i :: 0 <= i < |s.hist.log| && s.hist.log[i].id == id ==>
          var r := s.hist.log[i];
          && r.out == Request(snap, r.out.rule.webhook.signingSecret)
          && (r.out.rule.webhook.signingSecret != "" <==> rule.webhook.signingSecret != "")
          && (rule.webhook.signingSecret != "" ==> r.known == Some(r.out.rule.webhook.signingSecret)))
  }

  lemma OriginalStays(s: State, id: DeliveryId, rule: Rule, snap: Snapshot)
    requires LogOk(s.hist) && id in s.hist.original && RowOk(s, id)
    requires s.hist.original[id] == snap && (snap.signed <==> rule.webhook.signingSecret != "")
    ensures StaysAs(s, id, rule, snap)
  {
    forall i | 0 <= i < |s.hist.log| && s.hist.log[i].id == id ensures SentOk(s.hist, s.hist.log[i]) {}
  }

  lemma EnqueueRecords(s: State, e: EmailId, batch: BatchId, matched: seq<Match>, retry: RetryConfig, now: Time, k: nat)
    requires Enabled(s, Enqueue(e, batch, matched, retry, now)) && k < |matched|
    ensures var s1, id := DoEnqueue(s, e, batch, matched, retry, now), matched[k].id;
      && id in s1.hist.original
      && s1.hist.original[id] == TakeSnapshot(matched[k].rule, retry, matched[k].payload)
  {
    RecordStores(s.hist.original, s.hist.lost, JobsFor(matched, retry), k);
  }

  /** Whatever happens to rules and retry settings after a batch was published, an
      unfinished delivery keeps the payload, webhook and retry settings resolved
      then, no stored snapshot holds a secret, and every request made for it
      carries exactly that snapshot: signed if and only if the rule had a secret
      then, with the rule's secret of the moment of sending. */
  lemma SnapshotIsolation(s: State, e: EmailId, batch: BatchId, matched: seq<Match>, retry: RetryConfig, now: Time, steps: seq<Step>, k: nat)
    requires Reachable(s) && Valid(s, [Enqueue(e, batch, matched, retry, now)] + steps) && k < |matched|
    ensures var snap := TakeSnapshot(matched[k].rule, retry, matched[k].payload);
      && snap.rule.webhook.signingSecret == ""
      && StaysAs(Run(s, [Enqueue(e, batch, matched, retry, now)] + steps), matched[k].id, matched[k].rule, snap)
  {
    var step, id := Enqueue(e, batch, matched, retry, now), matched[k].id;
    RunCons(s, step, steps);
    ReachableInv(s);
    StepKeeps(s, step);
    EnqueueRecords(s, e, batch, matched, retry, now, k);
    var s1 := Apply(s, step);
    OriginalRun(s1, steps, id);
    RunKeeps(s1, steps);
    OriginalStays(Run(s1, steps), id, matched[k].rule, TakeSnapshot(matched[k].rule, retry, matched[k].payload));
  }

  /** What beginning a request for a delivery with this snapshot must do. */
  ghost predicate BeginsWell(s: State, s': State, w: nat, snap: Snapshot)
    requires At(s, w) && s.workers[w].Running?
  {
    var current := SecretOf(s.rules, snap.rule.name);
    && w < |s'.workers|
    && if snap.payloadError == "" && (snap.signed ==> current.Some? && current.value != "")
       then && s'.workers[w].Sending?
            && s'.workers[w].secret == (if snap.signed then current.value else "")
            && s'.hist.log == s.hist.log + [Sent(s.workers[w].job.id, Request(snap, s'.workers[w].secret), current)]
       else && s'.workers[w].Saving? && !s'.workers[w].sent && s'.hist.log == s.hist.log
            && s'.workers[w].result.status == Error && s'.workers[w].next == None
  }

  lemma BeginStep(s: State, w: nat, snap: Snapshot)
    requires At(s, w) && s.workers[w].Running? && s.workers[w].job.snapshot == Encoded(snap)
    ensures BeginsWell(s, DoBegin(s, w), w, snap)
  {
  }

  lemma BeginLocal(s: State, w: nat)
    requires Enabled(s, Begin(w)) && WorkerOk(s, s.workers[w])
    ensures s.workers[w].job.id in s.hist.original
    ensures BeginsWell(s, Apply(s, Begin(w)), w, s.hist.original[s.workers[w].job.id])
  {
    BeginStep(s, w, s.hist.original[s.workers[w].job.id]);
  }

  /** k is the first position of a rule of that name, or the end. */
  ghost predicate FirstNamed(rules: seq<Rule>, name: string, k: nat) {
    && k <= |rules| && (k < |rules| ==> rules[k].name == name)
    && forall j :: 0 <= j < k ==> rules[j].name != name
  }

  lemma {:induction false} SecretOfFirst(rules: seq<Rule>, name: string, k: nat)
    requires FirstNamed(rules, name, k)
    ensures SecretOf(rules, name) == if k < |rules| then Some(rules[k].webhook.signingSecret) else None
  {
    if k > 0 {
      SecretOfFirst(rules[1..], name, k - 1);
    }
  }

  /** A request that begins is looked up in the rules of that moment: let k be the first
      position of a rule with the delivery's name. A signed delivery goes out with the
      secret of that rule, and not at all without one; an unsigned one goes out as it is. */
  lemma BeginUsesCurrentSecret(s: State, w: nat, k: nat)
    requires Reachable(s) && Enabled(s, Begin(w))
    requires s.workers[w].job.id in s.hist.original ==>
      FirstNamed(s.rules, s.hist.original[s.workers[w].job.id].rule.name, k)
    ensures s.workers[w].job.id in s.hist.original
    ensures var s', id, snap := Apply(s, Begin(w)), s.workers[w].job.id, s.hist.original[s.workers[w].job.id];
      var known := k < |s.rules| && s.rules[k].webhook.signingSecret != "";
      && w < |s'.workers|
      && if snap.payloadError != "" || (snap.signed && !known)
         then && s'.hist.log == s.hist.log && s'.workers[w].Saving? && !s'.workers[w].sent
              && s'.workers[w].result.status == Error && s'.workers[w].next == None
         else && s'.workers[w].Sending?
              && s'.workers[w].secret == (if snap.signed then s.rules[k].webhook.signingSecret else "")
              && |s'.hist.log| == |s.hist.log| + 1 && s'.hist.log[|s.hist.log|].id == id
              && s'.hist.log[|s.hist.log|].out == Request(snap, s'.workers[w].secret)
  {
    ReachableInv(s);
    BeginLocal(s, w);
    SecretOfFirst(s.rules, s.hist.original[s.workers[w].job.id].rule.name, k);
  }
}
