/** The emails, deliveries and delivery_queue tables (internal/storage/store.go,
    schema) and the effect of every committed transaction on them
    (internal/storage/queue.go, internal/storage/store.go). */
module Tables {
  import opened Models

  datatype Email = Email(receivedAt: Time, status: EmailStatus, batch: BatchId)

  datatype Delivery = Delivery(
    emailId: EmailId,
    ruleName: string,
    status: DeliveryStatus,
    statusCode: int,
    error: string,
    body: string,
    attempts: nat)

  datatype QueueRow = QueueRow(batch: BatchId, emailId: EmailId, snapshot: Blob, due: Time)

  datatype Db = Db(
    emails: map<EmailId, Email>,
    deliveries: map<DeliveryId, Delivery>,
    queue: map<DeliveryId, QueueRow>)

  /** A row to be published: the fresh delivery id, the rule and the snapshot. */
  datatype NewDelivery = NewDelivery(id: DeliveryId, ruleName: string, snap: Snapshot)

  /** The copy of a claimed row that a worker carries. */
  datatype Job = Job(
    id: DeliveryId,
    emailId: EmailId,
    ruleName: string,
    snapshot: Blob,
    attempts: nat,
    due: Time)

  // ----- Publishing -----

  function Insert(db: Db, e: EmailId, batch: BatchId, job: NewDelivery, now: Time): Db {
    db.(deliveries := db.deliveries[job.id := Delivery(e, job.ruleName, Pending, 0, "", "", 0)],
        queue := db.queue[job.id := QueueRow(batch, e, Encoded(job.snap), now)])
  }

  function InsertAll(db: Db, e: EmailId, batch: BatchId, jobs: seq<NewDelivery>, now: Time): Db {
    if jobs == [] then db
    else Insert(InsertAll(db, e, batch, jobs[..|jobs| - 1], now), e, batch, jobs[|jobs| - 1], now)
  }

  function MarkBatch(db: Db, e: EmailId, batch: BatchId): Db {
    if e in db.emails
    then db.(emails := db.emails[e := db.emails[e].(status := Received, batch := batch)])
    else db
  }

  /** A committed EnqueueDeliveries: all rows at once, and the email unfinished again. */
  function Publish(db: Db, e: EmailId, batch: BatchId, jobs: seq<NewDelivery>, now: Time): Db {
    MarkBatch(InsertAll(db, e, batch, jobs, now), e, batch)
  }

  ghost predicate DistinctIds(jobs: seq<NewDelivery>) {
    forall i, j :: 0 <= i < j < |jobs| ==> jobs[i].id != jobs[j].id
  }

  /** Primary keys and foreign keys accept the batch. */
  ghost predicate Insertable(db: Db, e: EmailId, jobs: seq<NewDelivery>) {
    && (jobs != [] ==> e in db.emails)
    && DistinctIds(jobs)
    && forall i :: 0 <= i < |jobs| ==> jobs[i].id !in db.deliveries && jobs[i].id !in db.queue
  }

  // ----- Claiming -----

  predicate Due(db: Db, id: DeliveryId, now: Time) {
    && id in db.queue && id in db.deliveries
    && db.queue[id].emailId in db.emails
    && db.deliveries[id].status == Pending
    && db.queue[id].due <= now
  }

  /** The row a claim may take: due, and no other due row is older. Ties are open. */
  predicate IsNext(db: Db, id: DeliveryId, now: Time) {
    && Due(db, id, now)
    && forall other :: other in db.queue && Due(db, other, now) ==> db.queue[id].due <= db.queue[other].due
  }

  function JobOf(db: Db, id: DeliveryId): Job
    requires id in db.queue && id in db.deliveries
  {
    Job(id, db.queue[id].emailId, db.deliveries[id].ruleName, db.queue[id].snapshot,
        db.deliveries[id].attempts, db.queue[id].due)
  }

  function SetStatus(db: Db, id: DeliveryId, st: DeliveryStatus): Db
    requires id in db.deliveries
  {
    db.(deliveries := db.deliveries[id := db.deliveries[id].(status := st)])
  }

  // ----- Finishing -----

  predicate HasUnfinished(db: Db, e: EmailId) {
    exists id :: id in db.queue && id in db.deliveries
      && db.queue[id].emailId == e && Unfinished(db.deliveries[id].status)
  }

  /** The rows the aggregate query joins: those of the email's latest batch. */
  function LatestRows(db: Db, e: EmailId): set<DeliveryId>
    requires e in db.emails
  {
    set id | id in db.queue && id in db.deliveries
      && db.queue[id].emailId == e && db.queue[id].batch == db.emails[e].batch
  }

  function Successes(db: Db, rows: set<DeliveryId>): set<DeliveryId> {
    set id | id in rows && id in db.deliveries && db.deliveries[id].status == Success
  }

  /** CASE over SUM(success) and COUNT(*). With no rows SUM is NULL, both
      comparisons are NULL, and the ELSE branch is taken. */
  function SqlStatus(db: Db, rows: set<DeliveryId>): EmailStatus {
    if rows != {} && |Successes(db, rows)| == |rows| then Delivered
    else if |Successes(db, rows)| > 0 then PartialFailure
    else AllFailed
  }

  /** The emails table once the status of e is recomputed, if no work is left for it. */
  function Settled(db: Db, e: EmailId): map<EmailId, Email> {
    if e in db.emails && !HasUnfinished(db, e)
    then db.emails[e := db.emails[e].(status := SqlStatus(db, LatestRows(db, e)))]
    else db.emails
  }

  function Recorded(rows: map<DeliveryId, Delivery>, id: DeliveryId, r: DeliveryResult): map<DeliveryId, Delivery> {
    if id in rows
    then rows[id := rows[id].(status := r.status, statusCode := r.statusCode, error := r.error,
                              body := r.body, attempts := r.attempts)]
    else rows
  }

  function Rescheduled(rows: map<DeliveryId, QueueRow>, id: DeliveryId, next: Option<Time>): map<DeliveryId, QueueRow> {
    if id !in rows then rows
    else if next.Some? then rows[id := rows[id].(due := next.value)]
    else rows[id := rows[id].(snapshot := Released, due := MAX_NANOS)]
  }

  /** A committed FinishDelivery: the attempt, the next due time (none if final)
      and the aggregate status, in one transaction. */
  function Finish(db: Db, job: Job, r: DeliveryResult, next: Option<Time>): Db {
    var rows := Recorded(db.deliveries, job.id, r);
    var queue := Rescheduled(db.queue, job.id, next);
    Db(Settled(Db(db.emails, rows, queue), job.emailId), rows, queue)
  }

  // ----- Recovery, status, deletion -----

  function Recover(db: Db): Db {
    db.(deliveries := map id | id in db.deliveries ::
          if db.deliveries[id].status == InProgress && id in db.queue
          then db.deliveries[id].(status := Pending) else db.deliveries[id])
  }

  predicate HasOpenDelivery(db: Db, e: EmailId) {
    exists id :: id in db.deliveries && db.deliveries[id].emailId == e && Unfinished(db.deliveries[id].status)
  }

  /** UpdateEmailStatus: dropping is refused while a delivery is unfinished. */
  function UpdateStatus(db: Db, e: EmailId, st: EmailStatus): Db {
    if e in db.emails && (st != Dropped || !HasOpenDelivery(db, e))
    then db.(emails := db.emails[e := db.emails[e].(status := st)])
    else db
  }

  /** DELETE FROM emails with the cascades of both foreign keys. */
  function DeleteEmails(db: Db, doomed: set<EmailId>): Db {
    Db(db.emails - doomed,
       map id | id in db.deliveries && db.deliveries[id].emailId !in doomed :: db.deliveries[id],
       map id | id in db.queue && db.queue[id].emailId !in doomed
                && (id in db.deliveries ==> db.deliveries[id].emailId !in doomed) :: db.queue[id])
  }

  /** Retention removes old emails that have no unfinished queued delivery. */
  function Expired(db: Db, cutoff: Time): set<EmailId> {
    set e | e in db.emails && db.emails[e].receivedAt < cutoff && !HasUnfinished(db, e)
  }

  // ----- Facts about publishing -----

  ghost predicate IsNew(jobs: seq<NewDelivery>, id: DeliveryId) {
    exists i :: 0 <= i < |jobs| && jobs[i].id == id
  }

  /** Publishing leaves every other row alone. */
  lemma {:induction false} PublishKeeps(db: Db, e: EmailId, batch: BatchId, jobs: seq<NewDelivery>, now: Time, id: DeliveryId)
    requires !IsNew(jobs, id)
    ensures var db' := InsertAll(db, e, batch, jobs, now);
      && db'.emails == db.emails
      && (id in db'.deliveries <==> id in db.deliveries)
      && (id in db'.queue <==> id in db.queue)
      && (id in db.deliveries ==> db'.deliveries[id] == db.deliveries[id])
      && (id in db.queue ==> db'.queue[id] == db.queue[id])
  {
    if jobs != [] {
      assert forall i :: 0 <= i < |jobs| - 1 ==> jobs[..|jobs| - 1][i] == jobs[i];
      assert jobs[|jobs| - 1].id != id;
      PublishKeeps(db, e, batch, jobs[..|jobs| - 1], now, id);
    }
  }

  /** Publishing stores every given row: pending, never attempted and due now. */
  lemma {:induction false} PublishStores(db: Db, e: EmailId, batch: BatchId, jobs: seq<NewDelivery>, now: Time, k: nat)
    requires DistinctIds(jobs) && k < |jobs|
    ensures var db', id := InsertAll(db, e, batch, jobs, now), jobs[k].id;
      && db'.emails == db.emails
      && id in db'.deliveries && id in db'.queue
      && db'.deliveries[id] == Delivery(e, jobs[k].ruleName, Pending, 0, "", "", 0)
      && db'.queue[id] == QueueRow(batch, e, Encoded(jobs[k].snap), now)
  {
    var init, last := jobs[..|jobs| - 1], jobs[|jobs| - 1];
    if k < |init| {
      assert forall i :: 0 <= i < |init| ==> init[i] == jobs[i];
      PublishStores(db, e, batch, init, now, k);
      assert jobs[k].id != last.id;
    } else {
      InsertAllEmails(db, e, batch, init, now);
    }
  }

  lemma {:induction false} InsertAllEmails(db: Db, e: EmailId, batch: BatchId, jobs: seq<NewDelivery>, now: Time)
    ensures InsertAll(db, e, batch, jobs, now).emails == db.emails
  {
    if jobs != [] {
      InsertAllEmails(db, e, batch, jobs[..|jobs| - 1], now);
    }
  }

  /** A published batch makes its email received and unfinished, under the new batch, and
      leaves every other email alone. */
  lemma PublishMarks(db: Db, e: EmailId, batch: BatchId, jobs: seq<NewDelivery>, now: Time)
    ensures var db' := Publish(db, e, batch, jobs, now);
      && db'.emails.Keys == db.emails.Keys
      && (e in db.emails ==> db'.emails[e] == Email(db.emails[e].receivedAt, Received, batch))
      && (forall x :: x in db.emails && x != e ==> db'.emails[x] == db.emails[x])
      && db'.deliveries == InsertAll(db, e, batch, jobs, now).deliveries && db'.queue == InsertAll(db, e, batch, jobs, now).queue
  {
    InsertAllEmails(db, e, batch, jobs, now);
  }

  // ----- Facts about claiming -----

  /** No row of the set is older. */
  ghost predicate Oldest(db: Db, ids: set<DeliveryId>, id: DeliveryId) {
    id in ids && id in db.queue && forall x :: x in ids && x in db.queue ==> db.queue[id].due <= db.queue[x].due
  }

  lemma OlderOfTwo(db: Db, ids: set<DeliveryId>, id: DeliveryId, other: DeliveryId)
    requires id in ids && id in db.queue && Oldest(db, ids - {id}, other)
    ensures db.queue[other].due < db.queue[id].due ==> Oldest(db, ids, other)
    ensures db.queue[other].due >= db.queue[id].due ==> Oldest(db, ids, id)
  {
    forall x | x in ids && x in db.queue
      ensures x == id || db.queue[other].due <= db.queue[x].due
    {
      assert x == id || x in ids - {id};
    }
  }

  /** A non-empty set of queued rows has an oldest one. */
  lemma {:induction false} OldestOf(db: Db, ids: set<DeliveryId>) returns (id: DeliveryId)
    requires ids != {}
    requires forall x :: x in ids ==> x in db.queue
    ensures Oldest(db, ids, id)
    decreases |ids|
  {
    id :| id in ids;
    if ids != {id} {
      var other := OldestOf(db, ids - {id});
      OlderOfTwo(db, ids, id, other);
      if db.queue[other].due < db.queue[id].due {
        id := other;
      }
    }
  }

  /** What a claim takes: a pending row with its email, due by now, and no such row is due
      before it. The copy has the row's values; of the row only the status changes. */
  lemma ClaimMeans(db: Db, id: DeliveryId, now: Time)
    ensures IsNext(db, id, now) <==>
      && id in db.queue && id in db.deliveries && db.queue[id].emailId in db.emails
      && db.deliveries[id].status == Pending && db.queue[id].due <= now
      && forall x :: x in db.queue && x in db.deliveries && db.queue[x].emailId in db.emails && db.deliveries[x].status == Pending
                     ==> db.queue[id].due <= db.queue[x].due
    ensures id in db.queue && id in db.deliveries ==>
      && JobOf(db, id) == Job(id, db.queue[id].emailId, db.deliveries[id].ruleName, db.queue[id].snapshot,
                              db.deliveries[id].attempts, db.queue[id].due)
      && SetStatus(db, id, InProgress) == Db(
           db.emails, db.deliveries[id := db.deliveries[id].(status := InProgress)], db.queue)
  {
    forall x | IsNext(db, id, now) && x in db.queue && x in db.deliveries && db.queue[x].emailId in db.emails && db.deliveries[x].status == Pending
      ensures db.queue[id].due <= db.queue[x].due
    {
      assert Due(db, x, now) || db.queue[x].due > now;
    }
  }

  // ----- Facts about finishing -----

  lemma SuccessesMean(db: Db, rows: set<DeliveryId>)
    requires forall id :: id in rows ==> id in db.deliveries
    ensures |Successes(db, rows)| == |rows| <==> forall id :: id in rows ==> db.deliveries[id].status == Success
    ensures |Successes(db, rows)| > 0 <==> exists id :: id in rows && db.deliveries[id].status == Success
  {
    var some := Successes(db, rows);
    assert some <= rows;
    if forall id :: id in rows ==> db.deliveries[id].status == Success {
      assert some == rows;
    } else {
      var id :| id in rows && db.deliveries[id].status != Success;
      SmallerSubset(some, rows, id);
    }
    if id :| id in rows && db.deliveries[id].status == Success {
      assert id in some;
    } else {
      assert some == {};
    }
  }

  lemma SmallerSubset(a: set<DeliveryId>, b: set<DeliveryId>, x: DeliveryId)
    requires a <= b && x in b && x !in a
    ensures |a| < |b|
  {
    assert a <= b - {x};
    SubsetSize(a, b - {x});
  }

  lemma {:induction false} SubsetSize(a: set<DeliveryId>, b: set<DeliveryId>)
    requires a <= b
    ensures |a| <= |b|
  {
    if x :| x in a {
      SubsetSize(a - {x}, b - {x});
    }
  }

  /** The rows that decide the status of an email: of its latest batch. */
  ghost predicate Decides(db: Db, e: EmailId, id: DeliveryId) {
    && e in db.emails && id in db.queue && id in db.deliveries
    && db.queue[id].emailId == e && db.queue[id].batch == db.emails[e].batch
  }

  /** What a save leaves. The delivery has the result; its queue row the next due time or,
      when it is final, no snapshot and the largest due time an int64 holds. If the email
      has no pending row and none in progress left, its status is delivered when every row
      of its latest batch succeeded, failed when none did, and partial otherwise. */
  lemma FinishMeans(db: Db, job: Job, r: DeliveryResult, next: Option<Time>)
    ensures var db' := Finish(db, job, r, next);
      && db'.deliveries.Keys == db.deliveries.Keys && db'.queue.Keys == db.queue.Keys && db'.emails.Keys == db.emails.Keys
      && (forall id :: id in db.deliveries && id != job.id ==> db'.deliveries[id] == db.deliveries[id])
      && (forall id :: id in db.queue && id != job.id ==> db'.queue[id] == db.queue[id])
      && (forall e :: e in db.emails && e != job.emailId ==> db'.emails[e] == db.emails[e])
      && (job.id in db.deliveries ==>
            var d := db.deliveries[job.id];
            db'.deliveries[job.id] == Delivery(d.emailId, d.ruleName, r.status, r.statusCode, r.error, r.body, r.attempts))
      && (job.id in db.queue ==>
            var q := db.queue[job.id];
            db'.queue[job.id] == match next
              case Some(due) => QueueRow(q.batch, q.emailId, q.snapshot, due)
              case None => QueueRow(q.batch, q.emailId, Released, 9_223_372_036_854_775_807))
    ensures job.emailId in db.emails ==>
      var db', e := Finish(db, job, r, next), job.emailId;
      if exists id :: id in db'.queue && id in db'.deliveries && db'.queue[id].emailId == e
                      && (db'.deliveries[id].status == Pending || db'.deliveries[id].status == InProgress)
      then db'.emails[e] == db.emails[e]
      else
        var good, bad := exists id :: Decides(db', e, id) && db'.deliveries[id].status == Success,
                         exists id :: Decides(db', e, id) && db'.deliveries[id].status != Success;
        db'.emails[e] == db.emails[e].(status := if good && !bad then Delivered else if good then PartialFailure else AllFailed)
  {
    if job.emailId in db.emails {
      SettledMeans(Db(db.emails, Finish(db, job, r, next).deliveries, Finish(db, job, r, next).queue), job.emailId);
    }
  }

  lemma SettledMeans(db: Db, e: EmailId)
    requires e in db.emails
    ensures HasUnfinished(db, e) <==> exists id :: id in db.queue && id in db.deliveries && db.queue[id].emailId == e
                                        && (db.deliveries[id].status == Pending || db.deliveries[id].status == InProgress)
    ensures var good, bad := exists id :: Decides(db, e, id) && db.deliveries[id].status == Success,
                             exists id :: Decides(db, e, id) && db.deliveries[id].status != Success;
      SqlStatus(db, LatestRows(db, e)) == if good && !bad then Delivered else if good then PartialFailure else AllFailed
  {
    var rows := LatestRows(db, e);
    assert forall id :: id in rows <==> Decides(db, e, id);
    SuccessesMean(db, rows);
  }

  // ----- Facts about recovery, status and deletion -----

  /** Which emails retention takes: those received before the cutoff of which no queued
      delivery is pending or in progress. */
  lemma ExpiredMeans(db: Db, cutoff: Time, e: EmailId)
    ensures e in Expired(db, cutoff) <==>
      && e in db.emails && db.emails[e].receivedAt < cutoff
      && forall id :: id in db.queue && id in db.deliveries && db.queue[id].emailId == e ==>
           db.deliveries[id].status != Pending && db.deliveries[id].status != InProgress
  {
  }

  /** A status is written unless it says dropped while a delivery of the email is pending
      or in progress; nothing else changes. */
  lemma UpdateMeans(db: Db, e: EmailId, st: EmailStatus)
    ensures var db' := UpdateStatus(db, e, st);
      var open := exists id :: id in db.deliveries && db.deliveries[id].emailId == e
                               && (db.deliveries[id].status == Pending || db.deliveries[id].status == InProgress);
      && db'.deliveries == db.deliveries && db'.queue == db.queue && db'.emails.Keys == db.emails.Keys
      && (forall x :: x in db.emails && x != e ==> db'.emails[x] == db.emails[x])
      && (e in db.emails ==>
            db'.emails[e] == if st == Dropped && open then db.emails[e] else Email(db.emails[e].receivedAt, st, db.emails[e].batch))
  {
  }

  /** After recovery no queued row is in progress, nothing else changed, and a second
      recovery finds nothing to do. */
  lemma RecoverMeans(db: Db, id: DeliveryId)
    ensures Recover(db).emails == db.emails && Recover(db).queue == db.queue
    ensures id in Recover(db).deliveries <==> id in db.deliveries
    ensures id in db.deliveries && id in db.queue ==>
      && Recover(db).deliveries[id].status != InProgress
      && (Unfinished(Recover(db).deliveries[id].status) <==> Unfinished(db.deliveries[id].status))
      && Recover(db).deliveries[id] == db.deliveries[id].(status := Recover(db).deliveries[id].status)
    ensures id in db.deliveries && (id !in db.queue || db.deliveries[id].status != InProgress) ==>
      Recover(db).deliveries[id] == db.deliveries[id]
    ensures Recover(Recover(db)) == Recover(db)
  {
    assert Recover(Recover(db)).deliveries == Recover(db).deliveries;
  }

  /** Deleting emails leaves no row of theirs and touches no other, and deleting in
      two steps is deleting at once, in either order. */
  lemma DeleteMeans(db: Db, some: set<EmailId>, more: set<EmailId>)
    ensures DeleteEmails(db, some).emails.Keys == db.emails.Keys - some
    ensures forall id :: id in DeleteEmails(db, some).deliveries <==> id in db.deliveries && db.deliveries[id].emailId !in some
    ensures forall id :: id in DeleteEmails(db, some).deliveries ==> DeleteEmails(db, some).deliveries[id] == db.deliveries[id]
    ensures forall e :: e in DeleteEmails(db, some).emails ==> DeleteEmails(db, some).emails[e] == db.emails[e]
    ensures forall id :: id in DeleteEmails(db, some).queue <==>
      id in db.queue && db.queue[id].emailId !in some && (id !in db.deliveries || db.deliveries[id].emailId !in some)
    ensures forall id :: id in DeleteEmails(db, some).queue ==> DeleteEmails(db, some).queue[id] == db.queue[id]
    ensures DeleteEmails(DeleteEmails(db, some), more) == DeleteEmails(db, some + more)
    ensures DeleteEmails(DeleteEmails(db, more), some) == DeleteEmails(db, some + more)
  {
    DeleteTwice(db, some, more);
    DeleteTwice(db, more, some);
    assert some + more == more + some;
  }

  lemma DeleteTwice(db: Db, some: set<EmailId>, more: set<EmailId>)
    ensures DeleteEmails(DeleteEmails(db, some), more) == DeleteEmails(db, some + more)
  {
    var once, twice := DeleteEmails(db, some + more), DeleteEmails(DeleteEmails(db, some), more);
    assert twice.emails == once.emails;
    assert twice.deliveries == once.deliveries;
    assert twice.queue == once.queue;
  }

  /** Foreign keys: no row refers to this email. */
  ghost predicate Unreferenced(db: Db, e: EmailId) {
    && (forall id :: id in db.deliveries ==> db.deliveries[id].emailId != e)
    && (forall id :: id in db.queue ==> db.queue[id].emailId != e)
  }

  /** Storing a new email and deleting it again restores the tables. */
  lemma SaveThenDelete(db: Db, e: EmailId, email: Email)
    requires e !in db.emails && Unreferenced(db, e)
    ensures DeleteEmails(db.(emails := db.emails[e := email]), {e}) == db
  {
    var there := DeleteEmails(db.(emails := db.emails[e := email]), {e});
    assert there.emails == db.emails;
    assert there.deliveries == db.deliveries;
    assert there.queue == db.queue;
  }

  /** Publishing a batch for an email and deleting the email leaves what deleting it
      right away would have left: the cascade misses no published row. */
  lemma {:induction false} PublishThenDelete(db: Db, e: EmailId, batch: BatchId, jobs: seq<NewDelivery>, now: Time)
    requires Insertable(db, e, jobs)
    ensures DeleteEmails(InsertAll(db, e, batch, jobs, now), {e}) == DeleteEmails(db, {e})
  {
    if jobs != [] {
      var init, last := jobs[..|jobs| - 1], jobs[|jobs| - 1];
      assert Insertable(db, e, init) by {
        assert forall i :: 0 <= i < |init| ==> init[i] == jobs[i];
      }
      PublishThenDelete(db, e, batch, init, now);
      var mid := InsertAll(db, e, batch, init, now);
      assert last.id !in mid.deliveries && last.id !in mid.queue by {
        forall i | 0 <= i < |init| ensures init[i].id != last.id {
          assert jobs[i].id != jobs[|jobs| - 1].id;
        }
        PublishKeeps(db, e, batch, init, now, last.id);
      }
      InsertThenDelete(mid, e, batch, last, now);
    }
  }

  lemma InsertThenDelete(db: Db, e: EmailId, batch: BatchId, job: NewDelivery, now: Time)
    requires job.id !in db.deliveries && job.id !in db.queue
    ensures DeleteEmails(Insert(db, e, batch, job, now), {e}) == DeleteEmails(db, {e})
  {
    var there, gone := DeleteEmails(Insert(db, e, batch, job, now), {e}), DeleteEmails(db, {e});
    assert there.deliveries == gone.deliveries;
    assert there.queue == gone.queue;
  }
}
