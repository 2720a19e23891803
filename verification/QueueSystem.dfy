/** The delivery queue as a step system: the tables, any number of workers
    (internal/webhook/queue.go, work and runQueued), shutdown, crash and restart,
    and everything else that touches the same tables. Every committed
    transaction is one step (the pool has one connection); a transaction that
    fails has no effect on the tables. Any step may happen at any time. */
module QueueSystem {
  import opened Models
  import opened Backoff
  import opened Tables
  import opened Retry

  /** Where a worker goroutine is, with the job it carries. */
  datatype Worker =
    | Top                                     // about to look at the stop channel
    | ToClaim                                 // about to call ClaimDelivery
    | Claimed(job: Job)                       // about to look at the stop channel again
    | Releasing(job: Job)                     // saw stop; about to put the row back
    | Running(job: Job)                       // in runQueued, nothing sent yet
    | Sending(job: Job, secret: string)       // the request is out
    | Saving(job: Job, result: DeliveryResult, next: Option<Time>, sent: bool)
    | Exited
  {
    predicate HasJob() {
      Claimed? || Releasing? || Running? || Sending? || Saving?
    }

    predicate Holds(id: DeliveryId) {
      HasJob() && job.id == id
    }

    /** A request for `id` has begun and its outcome is not recorded yet. */
    predicate Flying(id: DeliveryId) {
      (Sending? || (Saving? && sent)) && job.id == id
    }
  }

  /** A request that was sent, and the rule's secret at that moment. */
  datatype Sent = Sent(id: DeliveryId, out: Outgoing, known: Option<string>)

  /** How a delivery row left the tables. */
  datatype Removal = Removal(status: DeliveryStatus, attempts: nat, manual: bool)

  /** What an observer of the whole run remembers; no step depends on it, except
      that new ids are new. */
  datatype History = History(
    saved: map<EmailId, EmailStatus>,           // every email ever stored, and how
    original: map<DeliveryId, Snapshot>,        // every delivery ever published
    gone: map<DeliveryId, Removal>,             // rows deleted since
    latest: map<EmailId, seq<DeliveryId>>,      // the last batch of each email
    dropped: set<EmailId>,                      // dropped since their last batch
    batches: set<BatchId>,
    log: seq<Sent>,                             // every request begun, in order
    lost: map<DeliveryId, nat>)                 // requests whose outcome was never recorded

  datatype State = State(
    db: Db,
    up: bool,
    stop: bool,
    cancelled: bool,
    workers: seq<Worker>,
    orphans: set<DeliveryId>,                   // rows left in progress by a crash or failed save
    rules: seq<Rule>,
    retry: RetryConfig,
    settings: set<RetryConfig>,                 // every retry setting there has been
    hist: History)

  /** One matched rule and the payload built for it, with the fresh delivery id. */
  datatype Match = Match(id: DeliveryId, rule: Rule, payload: Payload)

  /** An enqueue reads the retry settings before its transaction begins, so it carries
      those it read: the current ones or any there were before. */
  datatype Step =
    | SaveEmail(e: EmailId, receivedAt: Time, status: EmailStatus)
    | Enqueue(e: EmailId, batch: BatchId, matched: seq<Match>, retry: RetryConfig, now: Time)
    | Drop(e: EmailId)
    | DeleteEmail(e: EmailId)
    | DeleteAll
    | Cleanup(cutoff: Time)
    | SetRules(rules: seq<Rule>)
    | SetRetry(retry: RetryConfig)
    | Start(count: nat)
    | Stop
    | Cancel
    | Shutdown
    | Crash
    | PassStop(w: nat)
    | ExitTop(w: nat)
    | Claim(w: nat, id: DeliveryId, now: Time)
    | ClaimNothing(w: nat)
    | Proceed(w: nat)
    | SeeStop(w: nat)
    | Release(w: nat, now: Time, ok: bool)
    | Begin(w: nat)
    | Complete(w: nat, outcome: Outcome, now: Time, wait: Duration)
    | Save(w: nat, ok: bool)

  /** Engine.SigningSecret: the secret of the first rule with that name. */
  function SecretOf(rules: seq<Rule>, name: string): Option<string> {
    if rules == [] then None
    else if rules[0].name == name then Some(rules[0].webhook.signingSecret)
    else SecretOf(rules[1..], name)
  }

  function Known(s: State, blob: Blob): Option<string> {
    if blob.Encoded? then SecretOf(s.rules, blob.snap.rule.name) else None
  }

  function JobsFor(matched: seq<Match>, retry: RetryConfig): (jobs: seq<NewDelivery>)
    ensures |jobs| == |matched|
  {
    seq(|matched|, i requires 0 <= i < |matched| =>
      NewDelivery(matched[i].id, matched[i].rule.name, TakeSnapshot(matched[i].rule, retry, matched[i].payload)))
  }

  ghost predicate Init(s: State) {
    && s.db == Db(map[], map[], map[])
    && !s.up && !s.stop && !s.cancelled && s.workers == [] && s.orphans == {}
    && s.settings == {s.retry}
    && s.hist == History(map[], map[], map[], map[], {}, {""}, [], map[])
  }

  ghost predicate At(s: State, w: nat) {
    s.up && w < |s.workers|
  }

  ghost predicate Enabled(s: State, step: Step) {
    match step
    case SaveEmail(e, _, st) => e !in s.hist.saved && (st == Received || st == Refused)
    case Enqueue(e, batch, matched, retry, now) =>
      && matched != [] && retry in s.settings && e in s.db.emails && batch !in s.hist.batches && now < MAX_NANOS
      && (forall i :: 0 <= i < |matched| ==> matched[i].id !in s.hist.original)
      && (forall i, j :: 0 <= i < j < |matched| ==> matched[i].id != matched[j].id)
    case Drop(_) => true
    case DeleteEmail(_) => true
    case DeleteAll => true
    case Cleanup(_) => true
    case SetRules(_) => true
    case SetRetry(_) => true
    case Start(count) => !s.up && count >= 1
    case Stop => s.up
    case Cancel => s.up && s.stop
    case Shutdown => s.up && s.stop && forall w :: 0 <= w < |s.workers| ==> s.workers[w].Exited?
    case Crash => s.up
    case PassStop(w) => At(s, w) && s.workers[w].Top? && !s.stop
    case ExitTop(w) => At(s, w) && s.workers[w].Top? && s.stop
    case Claim(w, id, now) => At(s, w) && s.workers[w].ToClaim? && IsNext(s.db, id, now)
    case ClaimNothing(w) => At(s, w) && s.workers[w].ToClaim?
    case Proceed(w) => At(s, w) && s.workers[w].Claimed? && !s.stop
    case SeeStop(w) => At(s, w) && s.workers[w].Claimed? && s.stop
    case Release(w, now, _) => At(s, w) && s.workers[w].Releasing? && now < MAX_NANOS
    case Begin(w) => At(s, w) && s.workers[w].Running?
    case Complete(w, _, now, wait) =>
      && At(s, w) && s.workers[w].Sending? && now < MAX_NANOS && now + wait < MAX_NANOS
      && s.workers[w].job.snapshot.Encoded?
      && IsBackoff(s.workers[w].job.snapshot.snap.retry, s.workers[w].job.attempts + 1, wait)
    case Save(w, _) => At(s, w) && s.workers[w].Saving?
  }

  // ----- Effects -----

  function MoveTo(s: State, w: nat, wk: Worker): State
    requires w < |s.workers|
  {
    s.(workers := s.workers[w := wk])
  }

  function LoseOne(h: History, id: DeliveryId): History {
    if id in h.lost then h.(lost := h.lost[id := h.lost[id] + 1]) else h
  }

  function DoEnqueue(s: State, e: EmailId, batch: BatchId, matched: seq<Match>, retry: RetryConfig, now: Time): State {
    var jobs := JobsFor(matched, retry);
    s.(db := Publish(s.db, e, batch, jobs, now),
       hist := s.hist.(
         original := Originals(s.hist.original, jobs),
         latest := s.hist.latest[e := seq(|jobs|, i requires 0 <= i < |jobs| => jobs[i].id)],
         dropped := s.hist.dropped - {e},
         batches := s.hist.batches + {batch},
         lost := Zeros(s.hist.lost, jobs)))
  }

  function Originals(m: map<DeliveryId, Snapshot>, jobs: seq<NewDelivery>): map<DeliveryId, Snapshot> {
    if jobs == [] then m
    else Originals(m, jobs[..|jobs| - 1])[jobs[|jobs| - 1].id := jobs[|jobs| - 1].snap]
  }

  function Zeros(m: map<DeliveryId, nat>, jobs: seq<NewDelivery>): map<DeliveryId, nat> {
    if jobs == [] then m else Zeros(m, jobs[..|jobs| - 1])[jobs[|jobs| - 1].id := 0]
  }

  function DoDrop(s: State, e: EmailId): State {
    s.(db := UpdateStatus(s.db, e, Dropped),
       hist := if e in s.db.emails && !HasOpenDelivery(s.db, e)
               then s.hist.(dropped := s.hist.dropped + {e}) else s.hist)
  }

  function DoDelete(s: State, doomed: set<EmailId>, manual: bool): State {
    s.(db := DeleteEmails(s.db, doomed),
       hist := s.hist.(gone := s.hist.gone +
         map id | id in s.db.deliveries && s.db.deliveries[id].emailId in doomed ::
           Removal(s.db.deliveries[id].status, s.db.deliveries[id].attempts, manual)))
  }

  function HeldIds(workers: seq<Worker>): set<DeliveryId> {
    set w | 0 <= w < |workers| && workers[w].HasJob() :: workers[w].job.id
  }

  ghost predicate Held(workers: seq<Worker>, id: DeliveryId) {
    exists w :: 0 <= w < |workers| && workers[w].Holds(id)
  }

  ghost predicate InFlight(workers: seq<Worker>, id: DeliveryId) {
    exists w :: 0 <= w < |workers| && workers[w].Flying(id)
  }

  /** The process is gone: workers vanish, their rows stay in progress. */
  ghost function DoCrash(s: State): State {
    s.(up := false, workers := [],
       orphans := s.orphans + HeldIds(s.workers),
       hist := s.hist.(lost := map id | id in s.hist.lost ::
         s.hist.lost[id] + (if InFlight(s.workers, id) then 1 else 0)))
  }

  /** StartQueue: recover, then start the workers. */
  function DoStart(s: State, count: nat): State {
    s.(db := Recover(s.db), up := true, stop := false, cancelled := false,
       workers := seq(count, _ => Top), orphans := {})
  }

  function DoClaim(s: State, w: nat, id: DeliveryId): State
    requires w < |s.workers| && id in s.db.queue && id in s.db.deliveries
  {
    MoveTo(s, w, Claimed(JobOf(s.db, id))).(db := SetStatus(s.db, id, InProgress))
  }

  function DoRelease(s: State, w: nat, now: Time, ok: bool): State
    requires w < |s.workers| && s.workers[w].Releasing?
  {
    var job := s.workers[w].job;
    if ok
    then MoveTo(s, w, Exited).(db := Finish(s.db, job, DeliveryResult(Pending, 0, "", "", job.attempts), Some(now)))
    else MoveTo(s, w, Exited).(orphans := s.orphans + {job.id})
  }

  /** runQueued up to the request. */
  function DoBegin(s: State, w: nat): State
    requires w < |s.workers| && s.workers[w].Running?
  {
    var job := s.workers[w].job;
    match Prepare(job.snapshot, Known(s, job.snapshot))
    case GiveUp(reason) => MoveTo(s, w, Saving(job, GaveUp(reason, job.attempts), None, false))
    case Ready(secret) =>
      MoveTo(s, w, Sending(job, secret)).(
        hist := s.hist.(log := s.hist.log +
          [Sent(job.id, Request(job.snapshot.snap, secret), Known(s, job.snapshot))]))
  }

  /** The outcome arrives. A cancelled failure is put back, its outcome dropped. */
  function DoComplete(s: State, w: nat, o: Outcome, now: Time, wait: Duration): State
    requires w < |s.workers| && s.workers[w].Sending? && s.workers[w].job.snapshot.Encoded?
  {
    var job := s.workers[w].job;
    var (r, next) := Decide(job.attempts, job.snapshot.snap.retry, o, s.cancelled, now, wait);
    var kept := o.Answered? || !s.cancelled;
    MoveTo(s, w, Saving(job, r, next, kept)).(hist := if kept then s.hist else LoseOne(s.hist, job.id))
  }

  /** FinishDelivery, which updates no row if the row was deleted meanwhile. */
  function DoSave(s: State, w: nat, ok: bool): State
    requires w < |s.workers| && s.workers[w].Saving?
  {
    var Saving(job, r, next, sent) := s.workers[w];
    if ok
    then MoveTo(s, w, Top).(
           db := Finish(s.db, job, r, next),
           hist := if sent && job.id !in s.db.deliveries then LoseOne(s.hist, job.id) else s.hist)
    else MoveTo(s, w, Top).(
           orphans := s.orphans + {job.id},
           hist := if sent then LoseOne(s.hist, job.id) else s.hist)
  }

  ghost function Apply(s: State, step: Step): State
    requires Enabled(s, step)
  {
    match step
    case SaveEmail(e, at, st) =>
      s.(db := s.db.(emails := s.db.emails[e := Email(at, st, "")]), hist := s.hist.(saved := s.hist.saved[e := st]))
    case Enqueue(e, batch, matched, retry, now) => DoEnqueue(s, e, batch, matched, retry, now)
    case Drop(e) => DoDrop(s, e)
    case DeleteEmail(e) => DoDelete(s, {e}, true)
    case DeleteAll => DoDelete(s, s.db.emails.Keys, true)
    case Cleanup(cutoff) => DoDelete(s, Expired(s.db, cutoff), false)
    case SetRules(rules) => s.(rules := rules)
    case SetRetry(retry) => s.(retry := retry, settings := s.settings + {retry})
    case Start(count) => DoStart(s, count)
    case Stop => s.(stop := true)
    case Cancel => s.(cancelled := true)
    case Shutdown => s.(up := false, workers := [])
    case Crash => DoCrash(s)
    case PassStop(w) => MoveTo(s, w, ToClaim)
    case ExitTop(w) => MoveTo(s, w, Exited)
    case Claim(w, id, now) => DoClaim(s, w, id)
    case ClaimNothing(w) => MoveTo(s, w, Top)
    case Proceed(w) => MoveTo(s, w, Running(s.workers[w].job))
    case SeeStop(w) => MoveTo(s, w, Releasing(s.workers[w].job))
    case Release(w, now, ok) => DoRelease(s, w, now, ok)
    case Begin(w) => DoBegin(s, w)
    case Complete(w, o, now, wait) => DoComplete(s, w, o, now, wait)
    case Save(w, ok) => DoSave(s, w, ok)
  }

  // ----- Runs -----

  ghost predicate Valid(s: State, steps: seq<Step>)
    decreases |steps|
  {
    steps == [] || (Enabled(s, steps[0]) && Valid(Apply(s, steps[0]), steps[1..]))
  }

  ghost function Run(s: State, steps: seq<Step>): State
    requires Valid(s, steps)
    decreases |steps|
  {
    if steps == [] then s else Run(Apply(s, steps[0]), steps[1..])
  }
}
