/** Every step of the queue keeps the invariant, one lemma per kind of step. */
module QueueSteps {
  import opened Models
  import opened Backoff
  import opened Tables
  import opened Aggregate
  import opened Retry
  import opened QueueSystem
  import opened QueueInvariant

  // ----- Frames -----

  /** The work of email e looks the same in both tables: the same rows in the same
      batches, the same ones unfinished, and finished ones with the same status. */
  ghost predicate SimilarWork(db: Db, db': Db, e: EmailId) {
    forall id :: (id in db.queue && db.queue[id].emailId == e) || (id in db'.queue && db'.queue[id].emailId == e) ==>
      && id in db.queue && id in db'.queue && id in db.deliveries && id in db'.deliveries
      && db.queue[id].emailId == db'.queue[id].emailId && db.queue[id].batch == db'.queue[id].batch
      && (Unfinished(db.deliveries[id].status) <==> Unfinished(db'.deliveries[id].status))
      && (!Unfinished(db.deliveries[id].status) ==> db.deliveries[id].status == db'.deliveries[id].status)
  }

  lemma SameUnfinished(db: Db, db': Db, e: EmailId)
    requires SimilarWork(db, db', e)
    ensures HasUnfinished(db, e) <==> HasUnfinished(db', e)
  {
  }

  /** An email whose work looks the same keeps its part of the invariant. */
  lemma EmailFrame(s: State, s': State, e: EmailId)
    requires e in s.db.emails && EmailOk(s, e) && e in s'.db.emails
    requires s'.db.emails[e] == s.db.emails[e]
    requires SimilarWork(s.db, s'.db, e)
    requires s'.hist.saved.Keys >= s.hist.saved.Keys && s'.hist.saved[e] == s.hist.saved[e]
    requires s'.hist.batches >= s.hist.batches
    requires e in s'.hist.latest <==> e in s.hist.latest
    requires e in s.hist.latest ==> s'.hist.latest[e] == s.hist.latest[e]
    requires e in s'.hist.dropped <==> e in s.hist.dropped
    ensures EmailOk(s', e)
  {
    SameUnfinished(s.db, s'.db, e);
    if e in s.hist.latest {
      var ids := s.hist.latest[e];
      assert LatestRows(s.db, e) == LatestRows(s'.db, e);
      forall i | 0 <= i < |ids| ensures ids[i] in s'.db.deliveries {
        assert ids[i] in SetOf(ids);
      }
      assert Stored(s'.db, ids);
      if !HasUnfinished(s.db, e) {
        forall i | 0 <= i < |ids| ensures s'.db.deliveries[ids[i]].status == s.db.deliveries[ids[i]].status {
          assert ids[i] in SetOf(ids);
        }
        assert Statuses(s'.db, ids) == Statuses(s.db, ids);
      }
    }
  }

  /** A row untouched by the step keeps its part of the invariant. */
  lemma RowFrame(s: State, s': State, id: DeliveryId)
    requires id in s.hist.original && RowOk(s, id)
    requires id in s'.hist.original && s'.hist.original[id] == s.hist.original[id]
    requires id in s'.db.deliveries <==> id in s.db.deliveries
    requires id in s'.db.queue <==> id in s.db.queue
    requires id in s.db.deliveries ==> s'.db.deliveries[id] == s.db.deliveries[id]
    requires id in s.db.queue ==> s'.db.queue[id] == s.db.queue[id]
    requires id in s'.hist.gone <==> id in s.hist.gone
    requires id in s.hist.gone ==> s'.hist.gone[id] == s.hist.gone[id]
    requires id in s.db.queue ==> s.db.queue[id].emailId in s'.db.emails
    requires s'.hist.latest.Keys >= s.hist.latest.Keys && s'.hist.batches >= s.hist.batches
    requires id in s'.orphans <==> id in s.orphans
    requires Held(s'.workers, id) <==> Held(s.workers, id)
    requires InFlight(s'.workers, id) <==> InFlight(s.workers, id)
    requires Begun(s'.hist.log, id) == Begun(s.hist.log, id)
    requires id in s'.hist.lost && s'.hist.lost[id] == s.hist.lost[id]
    ensures RowOk(s', id)
  {
  }

  lemma WorkerFrame(s: State, s': State, wk: Worker)
    requires WorkerOk(s, wk)
    requires wk.HasJob() ==>
      var id := wk.job.id;
      && id in s'.hist.original && (id in s.hist.original ==> s'.hist.original[id] == s.hist.original[id])
      && id !in s'.orphans
      && (id in s'.db.deliveries <==> id in s.db.deliveries)
      && (id in s.db.deliveries ==> s'.db.deliveries[id] == s.db.deliveries[id])
      && (id !in s.db.deliveries ==> wk.job.emailId !in s'.db.emails)
    requires s'.hist.saved.Keys >= s.hist.saved.Keys
    ensures WorkerOk(s', wk)
  {
  }

  /** Emails do not depend on workers, requests or orphans. */
  lemma EmailsUntouched(s: State, s': State)
    requires EmailsOk(s) && s'.db == s.db
    requires s'.hist.(log := s.hist.log, lost := s.hist.lost) == s.hist
    ensures EmailsOk(s')
  {
    forall e | e in s'.db.emails ensures EmailOk(s', e) { assert EmailOk(s, e); }
  }

  /** The other workers, when the tables did not change. */
  lemma WorkersUntouched(s: State, s': State, w: nat)
    requires WorkersOk(s) && s'.db == s.db && s'.orphans == s.orphans
    requires s'.hist.(log := s.hist.log, lost := s.hist.lost) == s.hist
    requires w < |s.workers| && |s'.workers| == |s.workers| && s'.workers == s.workers[w := s'.workers[w]]
    requires WorkerOk(s', s'.workers[w])
    ensures WorkersOk(s')
  {
    forall v | 0 <= v < |s'.workers| ensures WorkerOk(s', s'.workers[v]) {
      if v != w { WorkerFrame(s, s', s.workers[v]); }
    }
  }

  // ----- Steps that touch no table -----

  /** A worker that only moves on, with the same job and the same request. */
  lemma QuietMove(s: State, w: nat, x: Worker)
    requires Inv(s) && s.up && w < |s.workers| && WorkerOk(s, x)
    requires x.HasJob() <==> s.workers[w].HasJob()
    requires x.HasJob() ==> x.job == s.workers[w].job
    requires !x.Sending? && !(x.Saving? && x.sent) && !s.workers[w].Sending? && !s.workers[w].Saving?
    ensures Inv(MoveTo(s, w, x))
  {
    var s' := MoveTo(s, w, x);
    ExclusiveAfterMove(s.workers, w, x);
    forall id | id in s'.hist.original ensures RowOk(s', id) {
      HeldAfterMove(s.workers, w, x, id);
      RowFrame(s, s', id);
    }
    WorkersUntouched(s, s', w);
    EmailsUntouched(s, s');
  }

  lemma RowsUntouched(s: State, s': State)
    requires RowsOk(s)
    requires s'.db == s.db && s'.hist == s.hist && s'.orphans == s.orphans && s'.workers == s.workers
    ensures RowsOk(s')
  {
    forall id | id in s'.hist.original ensures RowOk(s', id) { RowFrame(s, s', id); }
  }

  lemma SettingsKeep(s: State, s': State)
    requires Inv(s)
    requires s'.db == s.db && s'.hist == s.hist && s'.orphans == s.orphans && s'.workers == s.workers && s'.up == s.up
    ensures Inv(s')
  {
    RowsUntouched(s, s');
    forall v | 0 <= v < |s'.workers| ensures WorkerOk(s', s'.workers[v]) { WorkerFrame(s, s', s'.workers[v]); }
    EmailsUntouched(s, s');
  }

  lemma ShutdownKeeps(s: State)
    requires Inv(s) && forall w :: 0 <= w < |s.workers| ==> s.workers[w].Exited?
    ensures Inv(s.(up := false, workers := []))
  {
    var s' := s.(up := false, workers := []);
    forall id | id in s'.hist.original ensures RowOk(s', id) { RowFrame(s, s', id); }
    EmailsUntouched(s, s');
  }

  // ----- Requests -----

  lemma BegunAppend(log: seq<Sent>, r: Sent, id: DeliveryId)
    ensures Begun(log + [r], id) == Begun(log, id) + (if r.id == id then 1 else 0)
  {
    assert (log + [r])[..|log|] == log;
  }

  function Sends(s: State, w: nat, secret: string, known: Option<string>): State
    requires w < |s.workers| && s.workers[w].Running? && s.workers[w].job.snapshot.Encoded?
  {
    var job := s.workers[w].job;
    MoveTo(s, w, Sending(job, secret)).(
      hist := s.hist.(log := s.hist.log + [Sent(job.id, Request(job.snapshot.snap, secret), known)]))
  }

  lemma SendRow(s: State, w: nat, secret: string, known: Option<string>, id: DeliveryId)
    requires Exclusive(s.workers) && w < |s.workers| && s.workers[w].Running? && s.workers[w].job.snapshot.Encoded?
    requires id in s.hist.original && RowOk(s, id)
    ensures RowOk(Sends(s, w, secret, known), id)
  {
    var s' := Sends(s, w, secret, known);
    HeldAfterMove(s.workers, w, s'.workers[w], id);
    BegunAppend(s.hist.log, s'.hist.log[|s.hist.log|], id);
    if id != s.workers[w].job.id {
      RowFrame(s, s', id);
    }
  }

  lemma SendKeeps(s: State, w: nat, secret: string, known: Option<string>)
    requires Inv(s) && w < |s.workers| && s.workers[w].Running? && s.workers[w].job.snapshot.Encoded?
    requires secret != "" <==> s.workers[w].job.snapshot.snap.signed
    requires secret != "" ==> known == Some(secret)
    ensures Inv(Sends(s, w, secret, known))
  {
    var s' := Sends(s, w, secret, known);
    assert WorkerOk(s, s.workers[w]);
    ExclusiveAfterMove(s.workers, w, s'.workers[w]);
    forall id | id in s'.hist.original ensures RowOk(s', id) { SendRow(s, w, secret, known, id); }
    WorkersUntouched(s, s', w);
    EmailsUntouched(s, s');
    assert s'.hist.log[..|s.hist.log|] == s.hist.log;
    assert SentOk(s'.hist, s'.hist.log[|s.hist.log|]);
  }

  /** The request begins, or the delivery is given up without one. */
  lemma BeginKeeps(s: State, w: nat)
    requires Inv(s) && s.up && w < |s.workers| && s.workers[w].Running?
    ensures Inv(DoBegin(s, w))
  {
    var job := s.workers[w].job;
    assert WorkerOk(s, s.workers[w]);
    match Prepare(job.snapshot, Known(s, job.snapshot))
    case GiveUp(reason) =>
      QuietMove(s, w, Saving(job, GaveUp(reason, job.attempts), None, false));
    case Ready(secret) =>
      SendKeeps(s, w, secret, Known(s, job.snapshot));
  }

  lemma DecideOk(snap: Snapshot, job: Job, o: Outcome, cancelled: bool, now: Time, wait: Duration)
    requires job.attempts <= RetryBudget(snap.retry) && now < MAX_NANOS && now + wait < MAX_NANOS
    ensures var (r, next) := Decide(job.attempts, snap.retry, o, cancelled, now, wait);
      SavingOk(snap, Saving(job, r, next, o.Answered? || !cancelled))
  {
  }

  lemma CompleteRow(s: State, w: nat, o: Outcome, now: Time, wait: Duration, id: DeliveryId)
    requires Exclusive(s.workers) && w < |s.workers| && s.workers[w].Sending? && s.workers[w].job.snapshot.Encoded?
    requires WorkerOk(s, s.workers[w]) && id in s.hist.original && RowOk(s, id)
    ensures RowOk(DoComplete(s, w, o, now, wait), id)
  {
    var s' := DoComplete(s, w, o, now, wait);
    HeldAfterMove(s.workers, w, s'.workers[w], id);
    if id != s.workers[w].job.id {
      RowFrame(s, s', id);
    }
  }

  lemma CompleteKeeps(s: State, w: nat, o: Outcome, now: Time, wait: Duration)
    requires Inv(s) && w < |s.workers| && s.workers[w].Sending? && s.workers[w].job.snapshot.Encoded?
    requires now < MAX_NANOS && now + wait < MAX_NANOS
    ensures Inv(DoComplete(s, w, o, now, wait))
  {
    var s' := DoComplete(s, w, o, now, wait);
    var job := s.workers[w].job;
    assert WorkerOk(s, s.workers[w]);
    DecideOk(s.hist.original[job.id], job, o, s.cancelled, now, wait);
    ExclusiveAfterMove(s.workers, w, s'.workers[w]);
    forall id | id in s'.hist.original ensures RowOk(s', id) { CompleteRow(s, w, o, now, wait, id); }
    WorkersUntouched(s, s', w);
    EmailsUntouched(s, s');
  }

  // ----- Claiming -----

  lemma NotHeldNotFlying(ws: seq<Worker>, id: DeliveryId)
    requires !Held(ws, id)
    ensures !InFlight(ws, id)
  {
    forall v | 0 <= v < |ws| ensures !ws[v].Flying(id) {
      assert !ws[v].Holds(id);
    }
  }

  /** A pending row has no holder. */
  lemma PendingNotHeld(s: State, id: DeliveryId)
    requires WorkersOk(s) && id in s.db.deliveries && s.db.deliveries[id].status != InProgress
    ensures !Held(s.workers, id) && !InFlight(s.workers, id)
  {
    forall v | 0 <= v < |s.workers| ensures !s.workers[v].Holds(id) {
      assert WorkerOk(s, s.workers[v]);
    }
    NotHeldNotFlying(s.workers, id);
  }

  /** Only one row's status changed, and it stayed unfinished. */
  lemma SimilarAfterStatus(s: State, s': State, id: DeliveryId, e: EmailId)
    requires RowsOk(s) && s.db.queue.Keys <= s.hist.original.Keys
    requires s'.db.queue.Keys == s.db.queue.Keys && s'.db.deliveries.Keys == s.db.deliveries.Keys
    requires forall r :: r in s.db.queue ==>
      s'.db.queue[r].emailId == s.db.queue[r].emailId && s'.db.queue[r].batch == s.db.queue[r].batch
    requires forall r :: r in s.db.deliveries && r != id ==> s'.db.deliveries[r].status == s.db.deliveries[r].status
    requires id in s.db.deliveries ==>
      (Unfinished(s.db.deliveries[id].status) && Unfinished(s'.db.deliveries[id].status))
    ensures SimilarWork(s.db, s'.db, e)
  {
    forall r | r in s.db.queue ensures r in s.db.deliveries { assert RowOk(s, r); }
  }

  /** Such a change does not concern any email. */
  lemma OneRowEmails(s: State, s': State, id: DeliveryId)
    requires RowsOk(s) && EmailsOk(s) && s.db.queue.Keys <= s.hist.original.Keys
    requires s'.db.queue.Keys == s.db.queue.Keys && s'.db.deliveries.Keys == s.db.deliveries.Keys
    requires forall r :: r in s.db.queue ==>
      s'.db.queue[r].emailId == s.db.queue[r].emailId && s'.db.queue[r].batch == s.db.queue[r].batch
    requires forall r :: r in s.db.deliveries && r != id ==> s'.db.deliveries[r].status == s.db.deliveries[r].status
    requires id in s.db.deliveries ==>
      (Unfinished(s.db.deliveries[id].status) && Unfinished(s'.db.deliveries[id].status))
    requires s'.db.emails == s.db.emails && s'.hist.(log := s.hist.log, lost := s.hist.lost) == s.hist
    ensures EmailsOk(s')
  {
    forall e | e in s'.db.emails ensures EmailOk(s', e) {
      SimilarAfterStatus(s, s', id, e);
      EmailFrame(s, s', e);
    }
  }

  lemma ClaimRow(s: State, w: nat, id: DeliveryId, r: DeliveryId)
    requires Exclusive(s.workers) && w < |s.workers| && s.workers[w].ToClaim?
    requires id in s.db.queue && id in s.db.deliveries && s.db.deliveries[id].status == Pending
    requires !Held(s.workers, id) && !InFlight(s.workers, id)
    requires r in s.hist.original && RowOk(s, r)
    ensures RowOk(DoClaim(s, w, id), r)
  {
    var s' := DoClaim(s, w, id);
    HeldAfterMove(s.workers, w, s'.workers[w], r);
    if r != id {
      RowFrame(s, s', r);
    }
  }

  lemma ClaimWorkers(s: State, w: nat, id: DeliveryId)
    requires DomainsOk(s) && RowsOk(s) && WorkersOk(s) && EmailsOk(s) && Exclusive(s.workers)
    requires w < |s.workers| && s.workers[w].ToClaim?
    requires id in s.db.queue && id in s.db.deliveries && s.db.deliveries[id].status == Pending
    ensures WorkersOk(DoClaim(s, w, id)) && Exclusive(DoClaim(s, w, id).workers)
  {
    var s' := DoClaim(s, w, id);
    PendingNotHeld(s, id);
    ExclusiveAfterMove(s.workers, w, s'.workers[w]);
    assert RowOk(s, id) && EmailOk(s, s.db.queue[id].emailId);
    assert WorkerOk(s', s'.workers[w]);
    forall v | 0 <= v < |s'.workers| ensures WorkerOk(s', s'.workers[v]) {
      if v != w {
        assert !s.workers[v].Holds(id);
        WorkerFrame(s, s', s.workers[v]);
      }
    }
  }

  lemma ClaimKeeps(s: State, w: nat, id: DeliveryId)
    requires Inv(s) && s.up && w < |s.workers| && s.workers[w].ToClaim?
    requires id in s.db.queue && id in s.db.deliveries && s.db.deliveries[id].status == Pending
    ensures Inv(DoClaim(s, w, id))
  {
    ClaimRows(s, w, id);
    ClaimWorkers(s, w, id);
    ClaimEmails(s, w, id);
  }

  lemma ClaimRows(s: State, w: nat, id: DeliveryId)
    requires RowsOk(s) && WorkersOk(s) && Exclusive(s.workers) && DomainsOk(s)
    requires w < |s.workers| && s.workers[w].ToClaim?
    requires id in s.db.queue && id in s.db.deliveries && s.db.deliveries[id].status == Pending
    ensures RowsOk(DoClaim(s, w, id))
  {
    PendingNotHeld(s, id);
    forall r | r in s.hist.original ensures RowOk(DoClaim(s, w, id), r) { ClaimRow(s, w, id, r); }
  }

  lemma ClaimEmails(s: State, w: nat, id: DeliveryId)
    requires DomainsOk(s) && RowsOk(s) && EmailsOk(s) && w < |s.workers|
    requires id in s.db.queue && id in s.db.deliveries && s.db.deliveries[id].status == Pending
    ensures EmailsOk(DoClaim(s, w, id)) && DomainsOk(DoClaim(s, w, id))
  {
    OneRowEmails(s, DoClaim(s, w, id), id);
  }

  // ----- Saving an attempt, releasing a row -----

  /** Worker w ends its attempt with FinishDelivery and goes on to x. */
  function SaveDone(s: State, w: nat, x: Worker, r: DeliveryResult, next: Option<Time>, sent: bool): State
    requires w < |s.workers| && s.workers[w].HasJob()
  {
    var job := s.workers[w].job;
    MoveTo(s, w, x).(
      db := Finish(s.db, job, r, next),
      hist := if sent && job.id !in s.db.deliveries then LoseOne(s.hist, job.id) else s.hist)
  }

  /** Worker w ends its attempt but FinishDelivery fails. */
  function SaveFailed(s: State, w: nat, x: Worker, sent: bool): State
    requires w < |s.workers| && s.workers[w].HasJob()
  {
    var job := s.workers[w].job;
    MoveTo(s, w, x).(orphans := s.orphans + {job.id}, hist := if sent then LoseOne(s.hist, job.id) else s.hist)
  }

  /** Saving for a deleted delivery changes no table. */
  lemma FinishGone(db: Db, job: Job, r: DeliveryResult, next: Option<Time>)
    requires job.id !in db.deliveries && job.id !in db.queue && job.emailId !in db.emails
    ensures Finish(db, job, r, next) == db
  {
  }

  ghost predicate EndReady(s: State, w: nat, x: Worker, r: DeliveryResult, next: Option<Time>, sent: bool) {
    && w < |s.workers| && s.workers[w].HasJob() && !x.HasJob()
    && s.workers[w].job.id in s.hist.original
    && SavingOk(s.hist.original[s.workers[w].job.id], Saving(s.workers[w].job, r, next, sent))
    && (s.workers[w].Flying(s.workers[w].job.id) <==> sent)
    && WorkerOk(s, s.workers[w])
  }

  lemma EndRow(s: State, w: nat, x: Worker, r: DeliveryResult, next: Option<Time>, sent: bool, id: DeliveryId)
    requires Exclusive(s.workers) && EndReady(s, w, x, r, next, sent)
    requires id in s.hist.original && RowOk(s, id)
    requires forall e :: e in s.db.emails ==> e in SaveDone(s, w, x, r, next, sent).db.emails
    ensures RowOk(SaveDone(s, w, x, r, next, sent), id)
  {
    var s' := SaveDone(s, w, x, r, next, sent);
    HeldAfterMove(s.workers, w, x, id);
    if id != s.workers[w].job.id {
      RowFrame(s, s', id);
    } else if id !in s.db.deliveries {
      FinishGone(s.db, s.workers[w].job, r, next);
    }
  }

  lemma FailRow(s: State, w: nat, x: Worker, sent: bool, id: DeliveryId)
    requires Exclusive(s.workers) && w < |s.workers| && s.workers[w].HasJob() && !x.HasJob()
    requires s.workers[w].Flying(s.workers[w].job.id) <==> sent
    requires WorkerOk(s, s.workers[w])
    requires id in s.hist.original && RowOk(s, id)
    ensures RowOk(SaveFailed(s, w, x, sent), id)
  {
    var s' := SaveFailed(s, w, x, sent);
    HeldAfterMove(s.workers, w, x, id);
    if id != s.workers[w].job.id {
      RowFrame(s, s', id);
    }
  }

  lemma SettledKeys(db: Db, e: EmailId)
    ensures Settled(db, e).Keys == db.emails.Keys
    ensures forall x :: x in db.emails && x != e ==> Settled(db, e)[x] == db.emails[x]
    ensures e in db.emails ==> Settled(db, e)[e].batch == db.emails[e].batch
  {
  }

  lemma EndWorkers(s: State, w: nat, x: Worker, r: DeliveryResult, next: Option<Time>, sent: bool)
    requires Exclusive(s.workers) && EndReady(s, w, x, r, next, sent) && WorkersOk(s)
    ensures WorkersOk(SaveDone(s, w, x, r, next, sent))
  {
    var s' := SaveDone(s, w, x, r, next, sent);
    var job := s.workers[w].job;
    SettledKeys(Db(s.db.emails, Recorded(s.db.deliveries, job.id, r), Rescheduled(s.db.queue, job.id, next)), job.emailId);
    forall v | 0 <= v < |s'.workers| ensures WorkerOk(s', s'.workers[v]) {
      if v != w {
        assert !s.workers[v].Holds(job.id);
        WorkerFrame(s, s', s.workers[v]);
      }
    }
  }

  lemma FailWorkers(s: State, w: nat, x: Worker, sent: bool)
    requires Exclusive(s.workers) && w < |s.workers| && s.workers[w].HasJob() && !x.HasJob() && WorkersOk(s)
    ensures WorkersOk(SaveFailed(s, w, x, sent))
  {
    var s' := SaveFailed(s, w, x, sent);
    forall v | 0 <= v < |s'.workers| ensures WorkerOk(s', s'.workers[v]) {
      if v != w {
        assert !s.workers[v].Holds(s.workers[w].job.id);
        WorkerFrame(s, s', s.workers[v]);
      }
    }
  }

  /** The tables after one row became terminal, seen from its own email. */
  lemma EndOwnEmail(s: State, s': State, job: Job, r: DeliveryResult, next: Option<Time>)
    requires s'.db == Finish(s.db, job, r, next)
    requires s'.hist.(log := s.hist.log, lost := s.hist.lost) == s.hist
    requires job.id in s.db.deliveries && job.id in s.db.queue && job.emailId in s.db.emails
    requires s.db.queue[job.id].emailId == job.emailId && job.emailId in s.hist.latest
    requires EmailOk(s, job.emailId) && Unfinished(s.db.deliveries[job.id].status)
    ensures EmailOk(s', job.emailId)
  {
    var e := job.emailId;
    var mid := Db(s.db.emails, Recorded(s.db.deliveries, job.id, r), Rescheduled(s.db.queue, job.id, next));
    assert HasUnfinished(s.db, e);
    assert HasUnfinished(s'.db, e) <==> HasUnfinished(mid, e);
    var ids := s.hist.latest[e];
    assert LatestRows(mid, e) == LatestRows(s.db, e);
    assert LatestRows(s'.db, e) == LatestRows(s.db, e);
    assert Stored(s'.db, ids);
    if !HasUnfinished(mid, e) {
      assert Stored(mid, ids);
      QueryMatchesLoop(mid, ids);
      assert Statuses(s'.db, ids) == Statuses(mid, ids);
    }
  }

  /** Only a row of another email changed. */
  lemma SimilarElsewhere(s: State, s': State, id: DeliveryId, e: EmailId)
    requires RowsOk(s) && s.db.queue.Keys <= s.hist.original.Keys
    requires s'.db.queue.Keys == s.db.queue.Keys && s'.db.deliveries.Keys == s.db.deliveries.Keys
    requires forall r :: r in s.db.queue ==>
      s'.db.queue[r].emailId == s.db.queue[r].emailId && s'.db.queue[r].batch == s.db.queue[r].batch
    requires forall r :: r in s.db.deliveries && r != id ==> s'.db.deliveries[r].status == s.db.deliveries[r].status
    requires id in s.db.queue ==> s.db.queue[id].emailId != e
    ensures SimilarWork(s.db, s'.db, e)
  {
    forall r | r in s.db.queue ensures r in s.db.deliveries { assert RowOk(s, r); }
  }

  /** Only one row changed: no email but its own is concerned. */
  lemma OtherEmails(s: State, s': State, id: DeliveryId, own: EmailId)
    requires RowsOk(s) && EmailsOk(s) && s.db.queue.Keys <= s.hist.original.Keys
    requires s'.db.queue.Keys == s.db.queue.Keys && s'.db.deliveries.Keys == s.db.deliveries.Keys
    requires forall r :: r in s.db.queue ==>
      s'.db.queue[r].emailId == s.db.queue[r].emailId && s'.db.queue[r].batch == s.db.queue[r].batch
    requires forall r :: r in s.db.deliveries && r != id ==> s'.db.deliveries[r].status == s.db.deliveries[r].status
    requires id in s.db.queue ==> s.db.queue[id].emailId == own
    requires s'.db.emails.Keys == s.db.emails.Keys
    requires forall e :: e in s.db.emails && e != own ==> s'.db.emails[e] == s.db.emails[e]
    requires own in s.db.emails ==> EmailOk(s', own)
    requires s'.hist.(log := s.hist.log, lost := s.hist.lost) == s.hist
    ensures EmailsOk(s')
  {
    forall e | e in s'.db.emails ensures EmailOk(s', e) {
      if e != own {
        SimilarElsewhere(s, s', id, e);
        EmailFrame(s, s', e);
      }
    }
  }

  /** FinishDelivery changes one delivery, its queue row and one email at most. */
  lemma FinishShape(db: Db, job: Job, r: DeliveryResult, next: Option<Time>)
    ensures var db' := Finish(db, job, r, next);
      && db'.queue.Keys == db.queue.Keys && db'.deliveries.Keys == db.deliveries.Keys
      && db'.emails.Keys == db.emails.Keys
      && (forall q :: q in db.queue ==>
            db'.queue[q].emailId == db.queue[q].emailId && db'.queue[q].batch == db.queue[q].batch)
      && (forall d :: d in db.deliveries && d != job.id ==> db'.deliveries[d].status == db.deliveries[d].status)
      && (forall e :: e in db.emails && e != job.emailId ==> db'.emails[e] == db.emails[e])
  {
    SettledKeys(Db(db.emails, Recorded(db.deliveries, job.id, r), Rescheduled(db.queue, job.id, next)), job.emailId);
  }

  lemma EndEmails(s: State, s': State, job: Job, r: DeliveryResult, next: Option<Time>)
    requires RowsOk(s) && EmailsOk(s) && s.db.queue.Keys <= s.hist.original.Keys
    requires s'.db == Finish(s.db, job, r, next)
    requires s'.hist.(log := s.hist.log, lost := s.hist.lost) == s.hist
    requires job.id in s.db.deliveries && job.id in s.db.queue && s.db.queue[job.id].emailId == job.emailId
    requires s.db.deliveries[job.id].status == InProgress
    requires job.emailId in s.db.emails && job.emailId in s.hist.latest
    ensures EmailsOk(s')
  {
    EndOwnEmail(s, s', job, r, next);
    FinishShape(s.db, job, r, next);
    OtherEmails(s, s', job.id, job.emailId);
  }

  lemma SaveDoneKeeps(s: State, w: nat, x: Worker, r: DeliveryResult, next: Option<Time>, sent: bool)
    requires Inv(s) && s.up && EndReady(s, w, x, r, next, sent)
    ensures Inv(SaveDone(s, w, x, r, next, sent))
  {
    var s' := SaveDone(s, w, x, r, next, sent);
    var job := s.workers[w].job;
    SettledKeys(Db(s.db.emails, Recorded(s.db.deliveries, job.id, r), Rescheduled(s.db.queue, job.id, next)), job.emailId);
    forall id | id in s'.hist.original ensures RowOk(s', id) { EndRow(s, w, x, r, next, sent, id); }
    EndWorkers(s, w, x, r, next, sent);
    ExclusiveAfterMove(s.workers, w, x);
    assert RowOk(s, job.id);
    if job.id in s.db.deliveries {
      EndEmails(s, s', job, r, next);
    } else {
      FinishGone(s.db, job, r, next);
      EmailsUntouched(s, s');
    }
  }

  lemma SaveFailedKeeps(s: State, w: nat, x: Worker, sent: bool)
    requires Inv(s) && s.up && w < |s.workers| && s.workers[w].HasJob() && !x.HasJob()
    requires s.workers[w].Flying(s.workers[w].job.id) <==> sent
    ensures Inv(SaveFailed(s, w, x, sent))
  {
    var s' := SaveFailed(s, w, x, sent);
    assert WorkerOk(s, s.workers[w]);
    forall id | id in s'.hist.original ensures RowOk(s', id) { FailRow(s, w, x, sent, id); }
    FailWorkers(s, w, x, sent);
    ExclusiveAfterMove(s.workers, w, x);
    EmailsUntouched(s, s');
  }

  // ----- Crash and restart -----

  lemma CrashRow(s: State, id: DeliveryId)
    requires id in s.hist.original && RowOk(s, id) && WorkersOk(s)
    ensures RowOk(DoCrash(s), id)
  {
    var s' := DoCrash(s);
    if id in HeldIds(s.workers) {
      var w :| 0 <= w < |s.workers| && s.workers[w].HasJob() && s.workers[w].job.id == id;
      assert WorkerOk(s, s.workers[w]);
    }
    if Held(s.workers, id) {
      var w :| 0 <= w < |s.workers| && s.workers[w].Holds(id);
      assert id in HeldIds(s.workers);
    }
  }

  lemma CrashKeeps(s: State)
    requires Inv(s)
    ensures Inv(DoCrash(s))
  {
    var s' := DoCrash(s);
    forall id | id in s'.hist.original ensures RowOk(s', id) { CrashRow(s, id); }
    forall id | id in HeldIds(s.workers) ensures id in s.hist.original {
      var w :| 0 <= w < |s.workers| && s.workers[w].HasJob() && s.workers[w].job.id == id;
      assert WorkerOk(s, s.workers[w]);
    }
    EmailsUntouched(s, s');
  }

  lemma StartRow(s: State, count: nat, id: DeliveryId)
    requires id in s.hist.original && RowOk(s, id) && s.workers == []
    ensures RowOk(DoStart(s, count), id)
  {
    var s' := DoStart(s, count);
    NotHeldNotFlying(s'.workers, id);
    NotHeldNotFlying(s.workers, id);
  }

  /** Recovery makes every interrupted row pending again, and no other change. */
  lemma StartKeeps(s: State, count: nat)
    requires Inv(s) && !s.up
    ensures Inv(DoStart(s, count))
  {
    var s' := DoStart(s, count);
    forall id | id in s'.hist.original ensures RowOk(s', id) { StartRow(s, count, id); }
    forall e | e in s'.db.emails ensures EmailOk(s', e) {
      RecoverSimilar(s, e);
      EmailFrame(s, s', e);
    }
  }

  lemma RecoverSimilar(s: State, e: EmailId)
    requires RowsOk(s) && s.db.queue.Keys <= s.hist.original.Keys
    ensures SimilarWork(s.db, Recover(s.db), e)
  {
    forall r | r in s.db.queue ensures r in s.db.deliveries { assert RowOk(s, r); }
  }

  // ----- Emails -----

  /** Steps that only write the emails table, or nothing. */
  lemma RowsFrame(s: State, s': State)
    requires RowsOk(s) && WorkersOk(s)
    requires s'.db.deliveries == s.db.deliveries && s'.db.queue == s.db.queue
    requires s'.db.emails.Keys >= s.db.emails.Keys
    requires forall e :: e in s'.db.emails && e !in s.db.emails ==> e !in s.hist.saved
    requires s'.orphans == s.orphans && s'.workers == s.workers && s'.hist.original == s.hist.original
    requires s'.hist.gone == s.hist.gone && s'.hist.latest == s.hist.latest && s'.hist.batches == s.hist.batches
    requires s'.hist.log == s.hist.log && s'.hist.lost == s.hist.lost && s'.hist.saved.Keys >= s.hist.saved.Keys
    ensures RowsOk(s') && WorkersOk(s')
  {
    forall id | id in s'.hist.original ensures RowOk(s', id) { assert RowOk(s, id); }
    forall v | 0 <= v < |s'.workers| ensures WorkerOk(s', s'.workers[v]) { assert WorkerOk(s, s.workers[v]); }
  }

  lemma SameTables(s: State, s': State, e: EmailId)
    requires RowsOk(s) && s.db.queue.Keys <= s.hist.original.Keys
    requires s'.db.deliveries == s.db.deliveries && s'.db.queue == s.db.queue
    ensures SimilarWork(s.db, s'.db, e)
  {
    forall r | r in s.db.queue ensures r in s.db.deliveries { assert RowOk(s, r); }
  }

  lemma NoWorkYet(s: State, e: EmailId)
    requires RowsOk(s) && EmailsOk(s) && s.db.queue.Keys <= s.hist.original.Keys && e !in s.hist.saved
    ensures !HasUnfinished(s.db, e) && e !in s.db.emails
  {
    forall id | id in s.db.queue && id in s.db.deliveries ensures s.db.queue[id].emailId != e {
      assert RowOk(s, id) && EmailOk(s, s.db.queue[id].emailId);
    }
  }

  lemma SavedEmail(s: State, s': State, e: EmailId, x: EmailId)
    requires SimilarWork(s.db, s'.db, x) && !HasUnfinished(s.db, e) && e !in s.hist.saved
    requires e !in s.hist.latest && e !in s.hist.dropped && "" in s.hist.batches
    requires e in s'.db.emails && s'.db.emails == s.db.emails[e := s'.db.emails[e]] && s'.db.emails[e].batch == ""
    requires s'.hist == s.hist.(saved := s.hist.saved[e := s'.db.emails[e].status])
    requires x in s'.db.emails && (x != e ==> EmailOk(s, x))
    ensures EmailOk(s', x)
  {
    if x != e {
      EmailFrame(s, s', x);
    } else {
      SameUnfinished(s.db, s'.db, e);
    }
  }

  lemma SaveEmailKeeps(s: State, e: EmailId, at: Time, st: EmailStatus)
    requires Inv(s) && e !in s.hist.saved
    ensures Inv(s.(db := s.db.(emails := s.db.emails[e := Email(at, st, "")]),
                   hist := s.hist.(saved := s.hist.saved[e := st])))
  {
    var s' := s.(db := s.db.(emails := s.db.emails[e := Email(at, st, "")]),
                 hist := s.hist.(saved := s.hist.saved[e := st]));
    NoWorkYet(s, e);
    RowsFrame(s, s');
    forall x | x in s'.db.emails ensures EmailOk(s', x) {
      SameTables(s, s', x);
      SavedEmail(s, s', e, x);
    }
  }

  /** The two ways of asking whether an email has unfinished work agree. */
  lemma OpenIsUnfinished(s: State, e: EmailId)
    requires RowsOk(s) && DomainsOk(s)
    ensures HasOpenDelivery(s.db, e) <==> HasUnfinished(s.db, e)
  {
    if HasOpenDelivery(s.db, e) {
      var id :| id in s.db.deliveries && s.db.deliveries[id].emailId == e && Unfinished(s.db.deliveries[id].status);
      assert RowOk(s, id);
    }
    if HasUnfinished(s.db, e) {
      var id :| id in s.db.queue && id in s.db.deliveries
        && s.db.queue[id].emailId == e && Unfinished(s.db.deliveries[id].status);
      assert RowOk(s, id);
    }
  }

  lemma DropKeeps(s: State, e: EmailId)
    requires Inv(s)
    ensures Inv(DoDrop(s, e))
  {
    OpenIsUnfinished(s, e);
    if e in s.db.emails && !HasUnfinished(s.db, e) {
      DroppedKeeps(s, e);
    } else {
      assert DoDrop(s, e) == s;
    }
  }

  lemma DroppedEmail(s: State, s': State, e: EmailId, x: EmailId)
    requires s'.db == s.db.(emails := s'.db.emails) && SimilarWork(s.db, s'.db, x)
    requires s'.hist == s.hist.(dropped := s.hist.dropped + {e})
    requires e in s.db.emails && !HasUnfinished(s.db, e)
    requires s'.db.emails == s.db.emails[e := s.db.emails[e].(status := Dropped)]
    requires x in s.db.emails && EmailOk(s, x)
    ensures EmailOk(s', x)
  {
    if x != e {
      EmailFrame(s, s', x);
    } else {
      SameUnfinished(s.db, s'.db, e);
      assert LatestRows(s.db, e) == LatestRows(s'.db, e);
    }
  }

  lemma DroppedKeeps(s: State, e: EmailId)
    requires Inv(s) && e in s.db.emails && !HasUnfinished(s.db, e)
    ensures Inv(s.(db := s.db.(emails := s.db.emails[e := s.db.emails[e].(status := Dropped)]),
                   hist := s.hist.(dropped := s.hist.dropped + {e})))
  {
    var s' := s.(db := s.db.(emails := s.db.emails[e := s.db.emails[e].(status := Dropped)]),
                 hist := s.hist.(dropped := s.hist.dropped + {e}));
    RowsFrame(s, s');
    forall x | x in s'.db.emails ensures EmailOk(s', x) {
      SameTables(s, s', x);
      DroppedEmail(s, s', e, x);
    }
  }

  // ----- Deleting -----

  lemma DeleteRow(s: State, doomed: set<EmailId>, manual: bool, id: DeliveryId)
    requires id in s.hist.original && RowOk(s, id)
    requires manual || forall e :: e in doomed ==> !HasUnfinished(s.db, e)
    ensures RowOk(DoDelete(s, doomed, manual), id)
  {
    var s' := DoDelete(s, doomed, manual);
    if id in s.db.deliveries && s.db.deliveries[id].emailId in doomed {
      assert id !in s'.db.deliveries && id !in s'.db.queue && id in s'.hist.gone;
    } else {
      RowFrame(s, s', id);
    }
  }

  lemma DeleteWorker(s: State, doomed: set<EmailId>, manual: bool, wk: Worker)
    requires WorkerOk(s, wk)
    ensures WorkerOk(DoDelete(s, doomed, manual), wk)
  {
  }

  lemma DeleteEmailOther(s: State, doomed: set<EmailId>, manual: bool, e: EmailId)
    requires RowsOk(s) && s.db.queue.Keys <= s.hist.original.Keys
    requires e in s.db.emails && e !in doomed && EmailOk(s, e)
    ensures EmailOk(DoDelete(s, doomed, manual), e)
  {
    var s' := DoDelete(s, doomed, manual);
    forall r | r in s.db.queue ensures r in s.db.deliveries && s.db.deliveries[r].emailId == s.db.queue[r].emailId {
      assert RowOk(s, r);
    }
    EmailFrame(s, s', e);
  }

  /** Deleting emails takes their deliveries along and leaves all other work alone.
      Retention is only ever asked to delete emails without unfinished work. */
  lemma DeleteKeeps(s: State, doomed: set<EmailId>, manual: bool)
    requires Inv(s)
    requires manual || forall e :: e in doomed ==> !HasUnfinished(s.db, e)
    ensures Inv(DoDelete(s, doomed, manual))
  {
    var s' := DoDelete(s, doomed, manual);
    forall id | id in s'.hist.original ensures RowOk(s', id) { DeleteRow(s, doomed, manual, id); }
    forall v | 0 <= v < |s'.workers| ensures WorkerOk(s', s'.workers[v]) {
      DeleteWorker(s, doomed, manual, s.workers[v]);
    }
    forall e | e in s'.db.emails ensures EmailOk(s', e) { DeleteEmailOther(s, doomed, manual, e); }
    assert s'.hist.gone.Keys <= s'.hist.original.Keys;
  }

  // ----- Enqueueing -----

  /** The observer's record of a publication: old deliveries keep theirs. */
  lemma {:induction false} RecordKeeps(m: map<DeliveryId, Snapshot>, z: map<DeliveryId, nat>, jobs: seq<NewDelivery>, id: DeliveryId)
    requires !IsNew(jobs, id)
    ensures (id in Originals(m, jobs) <==> id in m) && (id in m ==> Originals(m, jobs)[id] == m[id])
    ensures (id in Zeros(z, jobs) <==> id in z) && (id in z ==> Zeros(z, jobs)[id] == z[id])
  {
    if jobs != [] {
      var init := jobs[..|jobs| - 1];
      assert forall i :: 0 <= i < |init| ==> init[i] == jobs[i];
      assert jobs[|jobs| - 1].id != id;
      RecordKeeps(m, z, init, id);
    }
  }

  /** New deliveries are recorded with their snapshot and no lost request. */
  lemma {:induction false} RecordStores(m: map<DeliveryId, Snapshot>, z: map<DeliveryId, nat>, jobs: seq<NewDelivery>, k: nat)
    requires DistinctIds(jobs) && k < |jobs|
    ensures var id := jobs[k].id;
      && id in Originals(m, jobs) && Originals(m, jobs)[id] == jobs[k].snap
      && id in Zeros(z, jobs) && Zeros(z, jobs)[id] == 0
  {
    var init := jobs[..|jobs| - 1];
    if k < |init| {
      assert forall i :: 0 <= i < |init| ==> init[i] == jobs[i];
      RecordStores(m, z, init, k);
      assert jobs[k].id != jobs[|jobs| - 1].id;
    }
  }

  lemma {:induction false} NeverBegun(log: seq<Sent>, id: DeliveryId)
    requires forall i :: 0 <= i < |log| ==> log[i].id != id
    ensures Begun(log, id) == 0
  {
    if log != [] {
      NeverBegun(log[..|log| - 1], id);
    }
  }

  /** A new row: pending, due now, never attempted, with the resolved snapshot. */
  lemma NewRow(s: State, s': State, jobs: seq<NewDelivery>, e: EmailId, batch: BatchId, now: Time, k: nat)
    requires DomainsOk(s) && LogOk(s.hist) && WorkersOk(s)
    requires DistinctIds(jobs) && k < |jobs| && jobs[k].id !in s.hist.original
    requires jobs[k].snap.rule.webhook.signingSecret == "" && now < MAX_NANOS && batch != ""
    requires e in s'.db.emails && e in s'.hist.latest && batch in s'.hist.batches
    requires s'.db.deliveries == InsertAll(s.db, e, batch, jobs, now).deliveries
    requires s'.db.queue == InsertAll(s.db, e, batch, jobs, now).queue
    requires s'.hist.original == Originals(s.hist.original, jobs) && s'.hist.lost == Zeros(s.hist.lost, jobs)
    requires s'.hist.gone == s.hist.gone && s'.hist.log == s.hist.log
    requires s'.workers == s.workers && s'.orphans == s.orphans
    ensures jobs[k].id in s'.hist.original && RowOk(s', jobs[k].id)
  {
    var id := jobs[k].id;
    RecordStores(s.hist.original, s.hist.lost, jobs, k);
    PublishStores(s.db, e, batch, jobs, now, k);
    forall i | 0 <= i < |s.hist.log| ensures s.hist.log[i].id != id { assert SentOk(s.hist, s.hist.log[i]); }
    NeverBegun(s.hist.log, id);
    forall v | 0 <= v < |s.workers| ensures !s.workers[v].Holds(id) { assert WorkerOk(s, s.workers[v]); }
    NotHeldNotFlying(s.workers, id);
  }

  /** The jobs of a batch are new to the whole run, and carry no secret. */
  ghost predicate FreshJobs(s: State, jobs: seq<NewDelivery>) {
    && jobs != [] && DistinctIds(jobs)
    && (forall i :: 0 <= i < |jobs| ==> jobs[i].id !in s.hist.original)
    && (forall i :: 0 <= i < |jobs| ==> jobs[i].snap.rule.webhook.signingSecret == "")
  }

  function Ids(jobs: seq<NewDelivery>): seq<DeliveryId> {
    seq(|jobs|, i requires 0 <= i < |jobs| => jobs[i].id)
  }

  function Enqueued(s: State, e: EmailId, batch: BatchId, jobs: seq<NewDelivery>, now: Time): State {
    s.(db := Publish(s.db, e, batch, jobs, now),
       hist := s.hist.(
         original := Originals(s.hist.original, jobs),
         latest := s.hist.latest[e := Ids(jobs)],
         dropped := s.hist.dropped - {e},
         batches := s.hist.batches + {batch},
         lost := Zeros(s.hist.lost, jobs)))
  }

  /** A row of the tables after a publication is either an old one, unchanged, or
      one of the batch. */
  lemma EnqueuedRow(s: State, e: EmailId, batch: BatchId, jobs: seq<NewDelivery>, now: Time, id: DeliveryId)
    requires FreshJobs(s, jobs) && DomainsOk(s)
    ensures var db' := Enqueued(s, e, batch, jobs, now).db;
      if IsNew(jobs, id)
      then && id !in s.hist.original && id in db'.deliveries && id in db'.queue
           && db'.deliveries[id].status == Pending && db'.deliveries[id].emailId == e
           && db'.queue[id].emailId == e && db'.queue[id].batch == batch
      else && (id in db'.deliveries <==> id in s.db.deliveries) && (id in db'.queue <==> id in s.db.queue)
           && (id in s.db.deliveries ==> db'.deliveries[id] == s.db.deliveries[id])
           && (id in s.db.queue ==> db'.queue[id] == s.db.queue[id])
  {
    if IsNew(jobs, id) {
      var k :| 0 <= k < |jobs| && jobs[k].id == id;
      PublishStores(s.db, e, batch, jobs, now, k);
    } else {
      PublishKeeps(s.db, e, batch, jobs, now, id);
    }
  }

  lemma EnqueuedRowOk(s: State, e: EmailId, batch: BatchId, jobs: seq<NewDelivery>, now: Time, id: DeliveryId)
    requires DomainsOk(s) && LogOk(s.hist) && WorkersOk(s) && FreshJobs(s, jobs)
    requires e in s.db.emails && batch != "" && now < MAX_NANOS
    requires id in s.hist.original ==> RowOk(s, id)
    requires id in Originals(s.hist.original, jobs)
    ensures RowOk(Enqueued(s, e, batch, jobs, now), id)
  {
    var s' := Enqueued(s, e, batch, jobs, now);
    InsertAllEmails(s.db, e, batch, jobs, now);
    EnqueuedRow(s, e, batch, jobs, now, id);
    if IsNew(jobs, id) {
      var k :| 0 <= k < |jobs| && jobs[k].id == id;
      NewRow(s, s', jobs, e, batch, now, k);
    } else {
      RecordKeeps(s.hist.original, s.hist.lost, jobs, id);
      RowFrame(s, s', id);
    }
  }

  lemma EnqueuedWorker(s: State, e: EmailId, batch: BatchId, jobs: seq<NewDelivery>, now: Time, wk: Worker)
    requires DomainsOk(s) && FreshJobs(s, jobs) && e in s.db.emails && WorkerOk(s, wk)
    ensures WorkerOk(Enqueued(s, e, batch, jobs, now), wk)
  {
    var s' := Enqueued(s, e, batch, jobs, now);
    InsertAllEmails(s.db, e, batch, jobs, now);
    if wk.HasJob() {
      assert !IsNew(jobs, wk.job.id);
      EnqueuedRow(s, e, batch, jobs, now, wk.job.id);
      RecordKeeps(s.hist.original, s.hist.lost, jobs, wk.job.id);
      WorkerFrame(s, s', wk);
    }
  }

  lemma EnqueuedOtherEmail(s: State, e: EmailId, batch: BatchId, jobs: seq<NewDelivery>, now: Time, x: EmailId)
    requires DomainsOk(s) && RowsOk(s) && FreshJobs(s, jobs) && e in s.db.emails
    requires x in s.db.emails && x != e && EmailOk(s, x)
    ensures x in Enqueued(s, e, batch, jobs, now).db.emails && EmailOk(Enqueued(s, e, batch, jobs, now), x)
  {
    var s' := Enqueued(s, e, batch, jobs, now);
    InsertAllEmails(s.db, e, batch, jobs, now);
    forall id | (id in s.db.queue && s.db.queue[id].emailId == x) || (id in s'.db.queue && s'.db.queue[id].emailId == x)
      ensures id in s.db.queue && id in s'.db.queue && id in s.db.deliveries && id in s'.db.deliveries
      ensures s'.db.queue[id] == s.db.queue[id] && s'.db.deliveries[id] == s.db.deliveries[id]
    {
      EnqueuedRow(s, e, batch, jobs, now, id);
      assert id in s.db.queue ==> RowOk(s, id);
    }
    assert SimilarWork(s.db, s'.db, x);
    EmailFrame(s, s', x);
  }

  lemma IdsAreNew(jobs: seq<NewDelivery>, id: DeliveryId)
    ensures id in SetOf(Ids(jobs)) <==> IsNew(jobs, id)
  {
    if IsNew(jobs, id) {
      var k :| 0 <= k < |jobs| && jobs[k].id == id;
      assert Ids(jobs)[k] == id;
    }
  }

  /** The latest rows of the email are exactly the batch. */
  lemma EnqueuedLatest(s: State, e: EmailId, batch: BatchId, jobs: seq<NewDelivery>, now: Time)
    requires DomainsOk(s) && RowsOk(s) && FreshJobs(s, jobs) && e in s.db.emails && batch !in s.hist.batches
    ensures e in Enqueued(s, e, batch, jobs, now).db.emails
    ensures LatestRows(Enqueued(s, e, batch, jobs, now).db, e) == SetOf(Ids(jobs))
    ensures Stored(Enqueued(s, e, batch, jobs, now).db, Ids(jobs))
  {
    var s' := Enqueued(s, e, batch, jobs, now);
    InsertAllEmails(s.db, e, batch, jobs, now);
    forall id ensures id in LatestRows(s'.db, e) <==> id in SetOf(Ids(jobs)) {
      IdsAreNew(jobs, id);
      EnqueuedRow(s, e, batch, jobs, now, id);
      if !IsNew(jobs, id) {
        assert id in s.db.queue ==> RowOk(s, id);
      }
    }
    forall i | 0 <= i < |jobs| ensures Ids(jobs)[i] in s'.db.deliveries {
      assert Ids(jobs)[i] in SetOf(Ids(jobs));
    }
  }

  /** The email of the batch is unfinished again. */
  lemma EnqueuedOwnEmail(s: State, e: EmailId, batch: BatchId, jobs: seq<NewDelivery>, now: Time)
    requires DomainsOk(s) && RowsOk(s) && FreshJobs(s, jobs)
    requires e in s.db.emails && EmailOk(s, e) && batch !in s.hist.batches
    ensures e in Enqueued(s, e, batch, jobs, now).db.emails && EmailOk(Enqueued(s, e, batch, jobs, now), e)
  {
    InsertAllEmails(s.db, e, batch, jobs, now);
    EnqueuedLatest(s, e, batch, jobs, now);
    assert IsNew(jobs, jobs[0].id);
    EnqueuedRow(s, e, batch, jobs, now, jobs[0].id);
    assert HasUnfinished(Enqueued(s, e, batch, jobs, now).db, e);
  }

  lemma EnqueuedDomains(s: State, e: EmailId, batch: BatchId, jobs: seq<NewDelivery>, now: Time)
    requires DomainsOk(s) && LogOk(s.hist) && FreshJobs(s, jobs) && e in s.hist.saved
    ensures DomainsOk(Enqueued(s, e, batch, jobs, now)) && LogOk(Enqueued(s, e, batch, jobs, now).hist)
  {
    var s' := Enqueued(s, e, batch, jobs, now);
    forall id ensures id in s.hist.original ==> id in s'.hist.original && s'.hist.original[id] == s.hist.original[id]
              ensures id in s'.db.deliveries || id in s'.db.queue ==> id in s'.hist.original {
      EnqueuedRow(s, e, batch, jobs, now, id);
      if IsNew(jobs, id) {
        var k :| 0 <= k < |jobs| && jobs[k].id == id;
        RecordStores(s.hist.original, s.hist.lost, jobs, k);
      } else {
        RecordKeeps(s.hist.original, s.hist.lost, jobs, id);
      }
    }
    forall i | 0 <= i < |s'.hist.log| ensures SentOk(s'.hist, s'.hist.log[i]) { assert SentOk(s.hist, s.hist.log[i]); }
  }

  lemma EnqueuedKeeps(s: State, e: EmailId, batch: BatchId, jobs: seq<NewDelivery>, now: Time)
    requires Inv(s) && FreshJobs(s, jobs) && e in s.db.emails && batch !in s.hist.batches && now < MAX_NANOS
    ensures Inv(Enqueued(s, e, batch, jobs, now))
  {
    var s' := Enqueued(s, e, batch, jobs, now);
    assert EmailOk(s, e);
    EnqueuedDomains(s, e, batch, jobs, now);
    InsertAllEmails(s.db, e, batch, jobs, now);
    forall id | id in s'.hist.original ensures RowOk(s', id) { EnqueuedRowOk(s, e, batch, jobs, now, id); }
    forall v | 0 <= v < |s'.workers| ensures WorkerOk(s', s'.workers[v]) {
      EnqueuedWorker(s, e, batch, jobs, now, s.workers[v]);
    }
    forall x | x in s'.db.emails ensures EmailOk(s', x) {
      if x == e { EnqueuedOwnEmail(s, e, batch, jobs, now); }
      else { EnqueuedOtherEmail(s, e, batch, jobs, now, x); }
    }
  }

  lemma EnqueueKeeps(s: State, e: EmailId, batch: BatchId, matched: seq<Match>, retry: RetryConfig, now: Time)
    requires Inv(s) && Enabled(s, Enqueue(e, batch, matched, retry, now))
    ensures Inv(DoEnqueue(s, e, batch, matched, retry, now))
  {
    var jobs := JobsFor(matched, retry);
    assert DoEnqueue(s, e, batch, matched, retry, now) == Enqueued(s, e, batch, jobs, now);
    EnqueuedKeeps(s, e, batch, jobs, now);
  }

  // ----- All steps -----

  /** Steps of one worker. */
  predicate IsWorkerStep(step: Step) {
    step.PassStop? || step.ExitTop? || step.Claim? || step.ClaimNothing? || step.Proceed? || step.SeeStop?
    || step.Release? || step.Begin? || step.Complete? || step.Save?
  }

  lemma ReleaseKeeps(s: State, w: nat, now: Time, ok: bool)
    requires Inv(s) && s.up && w < |s.workers| && s.workers[w].Releasing? && now < MAX_NANOS
    ensures Inv(DoRelease(s, w, now, ok))
  {
    assert WorkerOk(s, s.workers[w]);
    if ok {
      SaveDoneKeeps(s, w, Exited, DeliveryResult(Pending, 0, "", "", s.workers[w].job.attempts), Some(now), false);
    } else {
      SaveFailedKeeps(s, w, Exited, false);
    }
  }

  lemma SaveKeeps(s: State, w: nat, ok: bool)
    requires Inv(s) && s.up && w < |s.workers| && s.workers[w].Saving?
    ensures Inv(DoSave(s, w, ok))
  {
    var wk := s.workers[w];
    assert WorkerOk(s, wk);
    if ok {
      SaveDoneKeeps(s, w, Top, wk.result, wk.next, wk.sent);
    } else {
      SaveFailedKeeps(s, w, Top, wk.sent);
    }
  }

  /** Looking at the stop channel, or finding nothing to claim. */
  lemma MoveKeeps(s: State, w: nat, x: Worker)
    requires Inv(s) && s.up && w < |s.workers|
    requires (!s.workers[w].HasJob() && !x.HasJob())
      || (s.workers[w].Claimed? && (x == Running(s.workers[w].job) || x == Releasing(s.workers[w].job)))
    ensures Inv(MoveTo(s, w, x))
  {
    assert WorkerOk(s, s.workers[w]);
    QuietMove(s, w, x);
  }

  predicate IsQuiet(step: Step) {
    step.PassStop? || step.ExitTop? || step.ClaimNothing? || step.Proceed? || step.SeeStop?
  }

  /** Such a step only moves one worker. */
  lemma QuietStep(s: State, step: Step) returns (w: nat, x: Worker)
    requires IsQuiet(step) && Enabled(s, step)
    ensures s.up && w < |s.workers| && Apply(s, step) == MoveTo(s, w, x)
    ensures (!s.workers[w].HasJob() && !x.HasJob())
      || (s.workers[w].Claimed? && (x == Running(s.workers[w].job) || x == Releasing(s.workers[w].job)))
  {
    match step
    case PassStop(v) => w, x := v, ToClaim;
    case ExitTop(v) => w, x := v, Exited;
    case ClaimNothing(v) => w, x := v, Top;
    case Proceed(v) => w, x := v, Running(s.workers[v].job);
    case SeeStop(v) => w, x := v, Releasing(s.workers[v].job);
  }

  lemma MoveStepKeeps(s: State, step: Step)
    requires IsQuiet(step) && Inv(s) && Enabled(s, step)
    ensures Inv(Apply(s, step))
  {
    var w, x := QuietStep(s, step);
    MoveKeeps(s, w, x);
  }

  lemma WorkerStepKeeps(s: State, step: Step)
    requires Inv(s) && IsWorkerStep(step) && Enabled(s, step)
    ensures Inv(Apply(s, step))
  {
    match step
    case Claim(w, id, now) => ClaimKeeps(s, w, id);
    case Release(w, now, ok) => ReleaseKeeps(s, w, now, ok);
    case Begin(w) => BeginKeeps(s, w);
    case Complete(w, o, now, wait) => CompleteKeeps(s, w, o, now, wait);
    case Save(w, ok) => SaveKeeps(s, w, ok);
    case _ => MoveStepKeeps(s, step);
  }

  /** Every step keeps the invariant. */
  lemma StepKeeps(s: State, step: Step)
    requires Inv(s) && Enabled(s, step)
    ensures Inv(Apply(s, step))
  {
    match step
    case SaveEmail(e, at, st) => SaveEmailKeeps(s, e, at, st);
    case Enqueue(e, batch, matched, retry, now) => EnqueueKeeps(s, e, batch, matched, retry, now);
    case Drop(e) => DropKeeps(s, e);
    case DeleteEmail(e) => DeleteKeeps(s, {e}, true);
    case DeleteAll => DeleteKeeps(s, s.db.emails.Keys, true);
    case Cleanup(cutoff) => DeleteKeeps(s, Expired(s.db, cutoff), false);
    case SetRules(_) => SettingsKeep(s, Apply(s, step));
    case SetRetry(_) => SettingsKeep(s, Apply(s, step));
    case Start(count) => StartKeeps(s, count);
    case Stop => SettingsKeep(s, Apply(s, step));
    case Cancel => SettingsKeep(s, Apply(s, step));
    case Shutdown => ShutdownKeeps(s);
    case Crash => CrashKeeps(s);
    case _ => WorkerStepKeeps(s, step);
  }

  /** The invariant holds in every state of every run. */
  lemma {:induction false} RunKeeps(s: State, steps: seq<Step>)
    requires Inv(s) && Valid(s, steps)
    ensures Inv(Run(s, steps))
    decreases |steps|
  {
    if steps != [] {
      StepKeeps(s, steps[0]);
      RunKeeps(Apply(s, steps[0]), steps[1..]);
    }
  }
}
