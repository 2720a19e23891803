/** The inductive invariant of the step system, row by row, worker by worker and
    email by email. QueueSteps proves that every step keeps it. */
module QueueInvariant {
  import opened Models
  import opened Backoff
  import opened Tables
  import opened Aggregate
  import opened Retry
  import opened QueueSystem

  /** How many requests for `id` were ever begun. */
  function Begun(log: seq<Sent>, id: DeliveryId): nat {
    if log == [] then 0
    else Begun(log[..|log| - 1], id) + (if log[|log| - 1].id == id then 1 else 0)
  }

  /** The attempts recorded for a delivery, also after its row was deleted. */
  function RecordedAttempts(s: State, id: DeliveryId): nat {
    if id in s.db.deliveries then s.db.deliveries[id].attempts
    else if id in s.hist.gone then s.hist.gone[id].attempts
    else 0
  }

  // ----- The parts of the invariant -----

  /** A row that is present. Terminal status, released snapshot and the maximal
      due time coincide; an in-progress row has a holder or was orphaned. */
  ghost predicate LiveOk(s: State, id: DeliveryId)
    requires id in s.db.deliveries && id in s.db.queue && id in s.hist.original
  {
    var d, q, snap := s.db.deliveries[id], s.db.queue[id], s.hist.original[id];
    && d.emailId == q.emailId && d.emailId in s.db.emails && d.emailId in s.hist.latest
    && q.batch in s.hist.batches && q.batch != ""
    && (if Unfinished(d.status)
        then q.snapshot == Encoded(snap) && q.due < MAX_NANOS && d.attempts <= RetryBudget(snap.retry)
        else q.snapshot == Released && q.due == MAX_NANOS && d.attempts <= RetryBudget(snap.retry) + 1)
    && (d.status == InProgress ==> id in s.orphans || Held(s.workers, id))
    && (id in s.orphans ==> d.status == InProgress)
  }

  /** Requests begun = attempts recorded + outcomes lost + the one in flight. */
  ghost predicate LedgerOk(s: State, id: DeliveryId) {
    && id in s.hist.lost
    && Begun(s.hist.log, id)
       == RecordedAttempts(s, id) + s.hist.lost[id] + (if InFlight(s.workers, id) then 1 else 0)
  }

  ghost predicate RowOk(s: State, id: DeliveryId)
    requires id in s.hist.original
  {
    && (id in s.db.deliveries <==> id in s.db.queue)
    && (id in s.db.deliveries <==> id !in s.hist.gone)
    && s.hist.original[id].rule.webhook.signingSecret == ""
    && LedgerOk(s, id)
    && (id in s.db.deliveries && id in s.db.queue ==> LiveOk(s, id))
    && (id in s.hist.gone && Unfinished(s.hist.gone[id].status) ==> s.hist.gone[id].manual)
  }

  ghost predicate RowsOk(s: State) {
    forall id :: id in s.hist.original ==> RowOk(s, id)
  }

  ghost predicate SavingOk(snap: Snapshot, wk: Worker)
    requires wk.Saving?
  {
    && (wk.next.Some? <==> Unfinished(wk.result.status)) && wk.result.status != InProgress
    && (wk.next.Some? ==> wk.next.value < MAX_NANOS && wk.result.attempts <= RetryBudget(snap.retry))
    && wk.result.attempts <= RetryBudget(snap.retry) + 1
    && wk.result.attempts == wk.job.attempts + (if wk.sent then 1 else 0)
  }

  /** A held row is in progress with the attempts of the held copy, or its email
      was deleted. */
  ghost predicate WorkerOk(s: State, wk: Worker) {
    wk.HasJob() ==>
      var job := wk.job;
      && job.id in s.hist.original && job.id !in s.orphans
      && job.snapshot == Encoded(s.hist.original[job.id])
      && job.attempts <= RetryBudget(s.hist.original[job.id].retry)
      && job.emailId in s.hist.saved
      && (if job.id in s.db.deliveries
          then && s.db.deliveries[job.id].status == InProgress
               && s.db.deliveries[job.id].attempts == job.attempts
               && s.db.deliveries[job.id].emailId == job.emailId
          else job.emailId !in s.db.emails)
      && (wk.Saving? ==> SavingOk(s.hist.original[job.id], wk))
  }

  ghost predicate WorkersOk(s: State) {
    forall w :: 0 <= w < |s.workers| ==> WorkerOk(s, s.workers[w])
  }

  /** No two workers hold the same delivery. */
  ghost predicate Exclusive(ws: seq<Worker>) {
    forall v, w :: 0 <= v < w < |ws| && ws[v].HasJob() && ws[w].HasJob() ==> ws[v].job.id != ws[w].job.id
  }

  /** latest[e] lists exactly the rows of the email's current batch. */
  ghost predicate BatchOk(s: State, e: EmailId)
    requires e in s.db.emails && e in s.hist.latest
  {
    var ids := s.hist.latest[e];
    && ids != [] && Distinct(ids) && Stored(s.db, ids)
    && SetOf(ids) == LatestRows(s.db, e)
  }

  /** What the status column of an email must say. */
  ghost function ExpectedStatus(s: State, e: EmailId): EmailStatus
    requires e in s.hist.saved
    requires e in s.hist.latest ==> Stored(s.db, s.hist.latest[e])
  {
    if HasUnfinished(s.db, e) then Received
    else if e in s.hist.dropped then Dropped
    else if e in s.hist.latest then StatusOf(Statuses(s.db, s.hist.latest[e]))
    else s.hist.saved[e]
  }

  ghost predicate EmailOk(s: State, e: EmailId)
    requires e in s.db.emails
  {
    && e in s.hist.saved && s.db.emails[e].batch in s.hist.batches
    && (e in s.hist.latest <==> s.db.emails[e].batch != "")
    && (e in s.hist.latest ==> BatchOk(s, e))
    && (e in s.hist.dropped ==> !HasUnfinished(s.db, e))
    && s.db.emails[e].status == ExpectedStatus(s, e)
  }

  ghost predicate EmailsOk(s: State) {
    forall e :: e in s.db.emails ==> EmailOk(s, e)
  }

  /** A request carries its delivery's snapshot, and a signature exactly if the
      rule had a secret at enqueue time, with the secret current at send time. */
  ghost predicate SentOk(h: History, r: Sent) {
    && r.id in h.original
    && r.out == Request(h.original[r.id], r.out.rule.webhook.signingSecret)
    && (h.original[r.id].signed <==> r.out.rule.webhook.signingSecret != "")
    && (h.original[r.id].signed ==> r.known == Some(r.out.rule.webhook.signingSecret))
  }

  ghost predicate LogOk(h: History) {
    forall i :: 0 <= i < |h.log| ==> SentOk(h, h.log[i])
  }

  ghost predicate DomainsOk(s: State) {
    && s.db.deliveries.Keys <= s.hist.original.Keys
    && s.db.queue.Keys <= s.hist.original.Keys
    && s.hist.gone.Keys <= s.hist.original.Keys
    && s.orphans <= s.hist.original.Keys
    && s.hist.latest.Keys <= s.hist.saved.Keys
    && s.hist.dropped <= s.hist.saved.Keys
    && "" in s.hist.batches
    && (!s.up ==> s.workers == [])
  }

  ghost predicate Inv(s: State) {
    && DomainsOk(s) && LogOk(s.hist) && Exclusive(s.workers)
    && RowsOk(s) && WorkersOk(s) && EmailsOk(s)
  }

  lemma InitInv(s: State)
    requires Init(s)
    ensures Inv(s)
  {
  }

  // ----- Facts about one worker moving -----

  /** Whether a delivery is held, or has a request in flight, after worker w moved. */
  lemma HeldAfterMove(ws: seq<Worker>, w: nat, x: Worker, id: DeliveryId)
    requires Exclusive(ws) && w < |ws|
    ensures x.Holds(id) ==> Held(ws[w := x], id)
    ensures ws[w].Holds(id) ==> Held(ws, id) && (InFlight(ws, id) <==> ws[w].Flying(id))
    ensures !x.Holds(id) && ws[w].Holds(id) ==> !Held(ws[w := x], id) && !InFlight(ws[w := x], id)
    ensures !x.Holds(id) && !ws[w].Holds(id) ==>
      (Held(ws[w := x], id) <==> Held(ws, id)) && (InFlight(ws[w := x], id) <==> InFlight(ws, id))
    ensures x.Holds(id) && (ws[w].Holds(id) || !Held(ws, id)) ==> (InFlight(ws[w := x], id) <==> x.Flying(id))
  {
    var ws' := ws[w := x];
    assert ws'[w] == x;
    forall v | 0 <= v < |ws| && v != w ensures ws'[v] == ws[v] {}
    if x.Flying(id) { assert ws'[w].Flying(id); }
    if ws[w].Flying(id) { assert InFlight(ws, id); }
    if v :| 0 <= v < |ws| && v != w && ws[v].Holds(id) { assert ws'[v].Holds(id); }
    if v :| 0 <= v < |ws| && v != w && ws[v].Flying(id) { assert ws'[v].Flying(id); }
  }

  lemma ExclusiveAfterMove(ws: seq<Worker>, w: nat, x: Worker)
    requires Exclusive(ws) && w < |ws|
    requires x.HasJob() ==> ws[w].Holds(x.job.id) || !Held(ws, x.job.id)
    ensures Exclusive(ws[w := x])
  {
    var ws' := ws[w := x];
    forall u, v | 0 <= u < v < |ws'| && ws'[u].HasJob() && ws'[v].HasJob()
      ensures ws'[u].job.id != ws'[v].job.id
    {
      if u == w { assert ws[v].Holds(ws[v].job.id); }
      if v == w { assert ws[u].Holds(ws[u].job.id); }
    }
  }
}
