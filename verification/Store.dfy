/** The store (internal/storage/store.go and internal/storage/queue.go): each
    method runs one transaction on the three tables. `fuse` says how many
    statements the database accepts before it reports an error; every
    transaction that does not reach its commit leaves the tables as they were. */
module Storage {
  import opened Models
  import opened Tables

  class Store {
    var emails: map<EmailId, Email>
    var deliveries: map<DeliveryId, Delivery>
    var queue: map<DeliveryId, QueueRow>

    function Db(): Db
      reads this
    {
      Tables.Db(emails, deliveries, queue)
    }

    constructor ()
      ensures Db() == Tables.Db(map[], map[], map[])
    {
      emails, deliveries, queue := map[], map[], map[];
    }

    /** SaveEmail: the primary key refuses an id that is already there, so no stored
        email is overwritten. */
    method SaveEmail(e: EmailId, receivedAt: Time, status: EmailStatus, fuse: nat) returns (ok: bool)
      modifies this
      ensures ok <==> fuse >= 1 && e !in old(emails)
      ensures Db() == if ok then old(Db()).(emails := old(emails)[e := Email(receivedAt, status, "")]) else old(Db())
      ensures forall x :: x in old(emails) ==> x in emails && emails[x] == old(emails[x])
      ensures Unreferenced(old(Db()), e) && ok ==> DeleteEmails(Db(), {e}) == old(Db())
    {
      ok := fuse >= 1 && e !in emails;
      if ok {
        if Unreferenced(Db(), e) {
          SaveThenDelete(Db(), e, Email(receivedAt, status, ""));
        }
        emails := emails[e := Email(receivedAt, status, "")];
      }
    }

    /** EnqueueDeliveries: two inserts per job, then the email, then the commit. It
        succeeds exactly if the keys accept every row and no statement fails, and
        then the whole batch is there; otherwise none of it is. */
    method EnqueueDeliveries(e: EmailId, batch: BatchId, jobs: seq<NewDelivery>, now: Time, fuse: nat) returns (ok: bool)
      modifies this
      ensures ok <==> Insertable(old(Db()), e, jobs) && fuse >= 2 * |jobs| + 2
      ensures Db() == if ok then Publish(old(Db()), e, batch, jobs, now) else old(Db())
    {
      var tx := Db();
      var left := fuse;
      for i := 0 to |jobs|
        invariant tx == InsertAll(old(Db()), e, batch, jobs[..i], now)
        invariant left + 2 * i == fuse
        invariant Insertable(old(Db()), e, jobs[..i])
        invariant unchanged(this)
      {
        InsertableStep(old(Db()), e, batch, jobs, now, i);
        assert jobs[..i + 1][..i] == jobs[..i];
        if left == 0 || e !in tx.emails || jobs[i].id in tx.deliveries {
          return false;
        }
        tx := tx.(deliveries := tx.deliveries[jobs[i].id := Delivery(e, jobs[i].ruleName, Pending, 0, "", "", 0)]);
        if left == 1 || jobs[i].id in tx.queue {
          return false;
        }
        tx := tx.(queue := tx.queue[jobs[i].id := QueueRow(batch, e, Encoded(jobs[i].snap), now)]);
        left := left - 2;
      }
      assert jobs[..|jobs|] == jobs;
      if left < 2 {
        return false;
      }
      tx := MarkBatch(tx, e, batch);
      emails, deliveries, queue := tx.emails, tx.deliveries, tx.queue;
      ok := true;
    }

    /** RecoverDeliveries: no queued row is left in progress, and no other field of any
        row changes. */
    method RecoverDeliveries(fuse: nat) returns (ok: bool)
      modifies this`deliveries
      ensures ok <==> fuse >= 1
      ensures !ok ==> Db() == old(Db())
      ensures ok ==> forall id :: id in deliveries && id in queue ==> deliveries[id].status != InProgress
      ensures deliveries.Keys == old(deliveries).Keys
      ensures forall id :: id in deliveries ==>
        deliveries[id] == old(deliveries[id])
        || (id in queue && old(deliveries[id]).status == InProgress && deliveries[id] == old(deliveries[id]).(status := Pending))
      ensures ok ==> Db() == Recover(old(Db()))
    {
      ok := fuse >= 1;
      if ok {
        var stale := set id | id in deliveries && deliveries[id].status == InProgress && id in queue;
        deliveries := map id | id in deliveries ::
          if id in stale then deliveries[id].(status := Pending) else deliveries[id];
      }
    }

    /** ClaimDelivery: an oldest due row, now in progress, and a copy of it as it was. */
    method ClaimDelivery(now: Time, fuse: nat) returns (job: Option<Job>)
      modifies this`deliveries
      ensures job.Some? ==>
        && IsNext(old(Db()), job.value.id, now)
        && job.value == JobOf(old(Db()), job.value.id)
        && Db() == SetStatus(old(Db()), job.value.id, InProgress)
      ensures job.None? ==> Db() == old(Db())
      ensures job.Some? <==> fuse >= 3 && exists id :: id in old(queue) && Due(old(Db()), id, now)
    {
      var db := Db();
      var due := set id | id in queue && Due(db, id, now);
      assert forall id :: id in queue && Due(db, id, now) ==> id in due;
      if due == {} || fuse < 3 {
        return None;
      }
      assert exists id :: id in due && IsNext(db, id, now) by {
        var oldest := OldestOf(db, due);
        assert IsNext(db, oldest, now);
      }
      var id :| id in due && IsNext(db, id, now);
      job := Some(JobOf(db, id));
      deliveries := SetStatus(db, id, InProgress).deliveries;
    }

    /** FinishDelivery: result, due time or release, aggregate status, commit. */
    method FinishDelivery(job: Job, result: DeliveryResult, next: Option<Time>, fuse: nat) returns (ok: bool)
      modifies this
      ensures ok <==> fuse >= 4
      ensures Db() == if ok then Finish(old(Db()), job, result, next) else old(Db())
    {
      var tx := Db();
      if fuse < 1 {
        return false;
      }
      if job.id in tx.deliveries {
        var d := tx.deliveries[job.id].(status := result.status, statusCode := result.statusCode,
                                        error := result.error, body := result.body, attempts := result.attempts);
        tx := tx.(deliveries := tx.deliveries[job.id := d]);
      }
      if fuse < 2 {
        return false;
      }
      if job.id in tx.queue {
        var q := tx.queue[job.id];
        if next.Some? {
          q := q.(due := next.value);
        } else {
          q := q.(snapshot := Released, due := MAX_NANOS);
        }
        tx := tx.(queue := tx.queue[job.id := q]);
      }
      if fuse < 3 {
        return false;
      }
      if job.emailId in tx.emails && !HasUnfinished(tx, job.emailId) {
        var st := SqlStatus(tx, LatestRows(tx, job.emailId));
        tx := tx.(emails := tx.emails[job.emailId := tx.emails[job.emailId].(status := st)]);
      }
      if fuse < 4 {
        return false;
      }
      emails, deliveries, queue := tx.emails, tx.deliveries, tx.queue;
      ok := true;
    }

    /** UpdateEmailStatus: an email with an unfinished delivery is not dropped; no
        other email changes. */
    method UpdateEmailStatus(e: EmailId, status: EmailStatus, fuse: nat) returns (ok: bool)
      modifies this`emails
      ensures ok <==> fuse >= 1
      ensures emails.Keys == old(emails).Keys
      ensures forall x :: x in emails && x != e ==> emails[x] == old(emails[x])
      ensures status == Dropped && HasOpenDelivery(old(Db()), e) ==> Db() == old(Db())
      ensures ok && e in emails && !(status == Dropped && HasOpenDelivery(old(Db()), e)) ==>
        emails[e] == old(emails[e]).(status := status)
      ensures Db() == if ok then UpdateStatus(old(Db()), e, status) else old(Db())
    {
      ok := fuse >= 1;
      if ok && e in emails {
        if status != Dropped || !HasOpenDelivery(Db(), e) {
          emails := emails[e := emails[e].(status := status)];
        }
      }
    }

    /** DeleteEmail, with everything that belongs to it and nothing else. */
    method DeleteEmail(e: EmailId, fuse: nat) returns (ok: bool)
      modifies this
      ensures ok <==> fuse >= 1
      ensures ok ==> e !in emails && Unreferenced(Db(), e)
      ensures forall x :: x in old(emails) && (x != e || !ok) ==> x in emails && emails[x] == old(emails[x])
      ensures forall id :: id in old(deliveries) && (old(deliveries[id]).emailId != e || !ok) ==>
        id in deliveries && deliveries[id] == old(deliveries[id])
      ensures Db() == if ok then DeleteEmails(old(Db()), {e}) else old(Db())
    {
      ok := fuse >= 1;
      if ok {
        emails := emails - {e};
        var cascaded := set id | id in deliveries && deliveries[id].emailId == e;
        var queued := set id | id in queue && (queue[id].emailId == e || id in cascaded);
        deliveries := deliveries - cascaded;
        queue := queue - queued;
        assert deliveries == DeleteEmails(old(Db()), {e}).deliveries;
        assert queue == DeleteEmails(old(Db()), {e}).queue;
      }
    }

    /** CleanupExpired: the ids returned are exactly the emails deleted. */
    method CleanupExpired(retentionDays: int, now: Time, fuse: nat) returns (removed: set<EmailId>, ok: bool)
      modifies this
      ensures ok <==> retentionDays <= 0 || fuse >= 1
      ensures removed == if ok && retentionDays > 0 then Expired(old(Db()), now - retentionDays * 86400 * SECOND) else {}
      ensures ok && retentionDays > 0 ==> forall e :: e in removed <==>
        && e in old(emails) && old(emails[e]).receivedAt < now - retentionDays * 86_400_000_000_000
        && forall id :: id in old(queue) && id in old(deliveries) && old(queue[id]).emailId == e ==>
             old(deliveries[id]).status != Pending && old(deliveries[id]).status != InProgress
      ensures Db() == DeleteEmails(old(Db()), removed)
      ensures removed == old(emails).Keys - emails.Keys
    {
      removed, ok := {}, true;
      if retentionDays > 0 {
        ok := fuse >= 1;
        if ok {
          removed := Expired(Db(), now - retentionDays * 86400 * SECOND);
        }
      }
      forall e ensures e in Expired(Db(), now - retentionDays * 86400 * SECOND) <==>
        && e in emails && emails[e].receivedAt < now - retentionDays * 86_400_000_000_000
        && forall id :: id in queue && id in deliveries && queue[id].emailId == e ==>
             deliveries[id].status != Pending && deliveries[id].status != InProgress
      {
        ExpiredMeans(Db(), now - retentionDays * 86400 * SECOND, e);
      }
      NothingDoomed(Db());
      var db := DeleteEmails(Db(), removed);
      emails, deliveries, queue := db.emails, db.deliveries, db.queue;
    }
  }

  /** The keys accept one more job exactly if they have not seen its id, in the
      tables or in the batch; a refused job spoils the batch. */
  lemma InsertableStep(db: Db, e: EmailId, batch: BatchId, jobs: seq<NewDelivery>, now: Time, i: nat)
    requires i < |jobs| && Insertable(db, e, jobs[..i])
    ensures var mid := InsertAll(db, e, batch, jobs[..i], now);
      && mid.emails == db.emails
      && (Insertable(db, e, jobs[..i + 1]) <==>
            e in db.emails && jobs[i].id !in mid.deliveries && jobs[i].id !in mid.queue)
    ensures !Insertable(db, e, jobs[..i + 1]) ==> !Insertable(db, e, jobs)
  {
    var done, id := jobs[..i], jobs[i].id;
    InsertAllEmails(db, e, batch, done, now);
    if IsNew(done, id) {
      var j :| 0 <= j < |done| && done[j].id == id;
      PublishStores(db, e, batch, done, now, j);
      assert jobs[..i + 1][j].id == jobs[..i + 1][i].id;
    } else {
      PublishKeeps(db, e, batch, done, now, id);
      forall j | 0 <= j < i ensures jobs[j].id != id { assert done[j] == jobs[j]; }
      forall j, k | 0 <= j < k < i ensures jobs[j].id != jobs[k].id { assert done[j].id != done[k].id; }
      forall j | 0 <= j < i ensures jobs[j].id !in db.deliveries && jobs[j].id !in db.queue { assert done[j] == jobs[j]; }
    }
  }

  lemma NothingDoomed(db: Db)
    ensures DeleteEmails(db, {}) == db
  {
    assert DeleteEmails(db, {}).deliveries == db.deliveries;
    assert DeleteEmails(db, {}).queue == db.queue;
  }
}
