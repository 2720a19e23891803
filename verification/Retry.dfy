/** One delivery attempt of the queue (internal/webhook/queue.go, runQueued) and
    the in-memory retry loop (internal/webhook/dispatcher.go, dispatchOne). Both
    are proved against one description: the attempts go on until the first
    outcome that is not retryable or the last allowed one. */
module Retry {
  import opened Models
  import opened Backoff
  import opened Tables
  import Text

  // ----- Classifying one outcome -----

  function StatusText(code: int): string {
    "webhook returned status " + (if code < 0 then "-" + Text.Decimal(-code) else Text.Decimal(code))
  }

  predicate ClientError(code: int) {
    400 <= code < 500
  }

  /** Worth another attempt, if any is left. */
  predicate Retryable(o: Outcome, retryOnTimeout: bool) {
    match o
    case Answered(_) => false
    case BadStatus(code, _) => !ClientError(code)
    case Transport(_, isPrivate, isTimeout) => !isPrivate && (isTimeout ==> retryOnTimeout)
  }

  /** The final result if this outcome is the last one. */
  function Verdict(o: Outcome, attempts: nat): DeliveryResult {
    match o
    case Answered(body) => DeliveryResult(Success, 0, "", body, attempts)
    case BadStatus(code, body) =>
      DeliveryResult(if ClientError(code) then Rejected else Failed, code, StatusText(code), body, attempts)
    case Transport(text, isPrivate, _) =>
      DeliveryResult(if isPrivate then Rejected else Failed, 0, text, "", attempts)
  }

  /** Outcome by outcome: what ends the attempts, and what is then reported. */
  lemma OutcomeMeans(o: Outcome, retryOnTimeout: bool, attempts: nat)
    ensures match o
      case Answered(body) => !Retryable(o, retryOnTimeout) && Verdict(o, attempts) == DeliveryResult(Success, 0, "", body, attempts)
      case BadStatus(code, body) =>
        && (Retryable(o, retryOnTimeout) <==> code < 400 || code > 499)
        && Verdict(o, attempts).status == (if 400 <= code <= 499 then Rejected else Failed)
        && Verdict(o, attempts).statusCode == code && Verdict(o, attempts).body == body && Verdict(o, attempts).attempts == attempts
        && (code >= 0 ==> Verdict(o, attempts).error == "webhook returned status " + Text.Decimal(code))
      case Transport(text, isPrivate, isTimeout) =>
        && (Retryable(o, retryOnTimeout) <==> !isPrivate && (!isTimeout || retryOnTimeout))
        && Verdict(o, attempts) == DeliveryResult(if isPrivate then Rejected else Failed, 0, text, "", attempts)
  {
  }

  function GaveUp(reason: string, attempts: nat): DeliveryResult {
    DeliveryResult(Error, 0, reason, "", attempts)
  }

  // ----- One queued attempt -----

  datatype Prepared = Ready(secret: string) | GiveUp(reason: string)

  /** A delivery that was signed when enqueued is never sent unsigned. `known` is
      the current secret of the rule, if the rule still exists. */
  function ResolveSecret(snap: Snapshot, known: Option<string>): (r: Option<string>)
    ensures !snap.signed ==> r == Some("")
    ensures snap.signed && r.Some? ==> r == known && r.value != ""
    ensures snap.signed && known.Some? && known.value != "" ==> r == known
  {
    if !snap.signed then Some("")
    else if known.Some? && known.value != "" then known
    else None
  }

  const UNDECODABLE := "unexpected end of JSON input"
  function SecretGone(name: string): string {
    "signing secret for rule \"" + name + "\" is no longer available"
  }

  function Prepare(blob: Blob, known: Option<string>): (p: Prepared)
    ensures p.Ready? ==> blob.Encoded? && (p.secret != "" <==> blob.snap.signed)
  {
    match blob
    case Released => GiveUp(UNDECODABLE)
    case Encoded(snap) =>
      if snap.payloadError != "" then GiveUp(snap.payloadError)
      else match ResolveSecret(snap, known)
        case None => GiveUp(SecretGone(snap.rule.name))
        case Some(secret) => Ready(secret)
  }

  /** What is recorded after a send: the result, and the next due time unless final.
      A cancelled send is put back with its attempt count unchanged. */
  function Decide(attempts: nat, retry: RetryConfig, o: Outcome, cancelled: bool, now: Time, wait: Duration)
    : (DeliveryResult, Option<Time>)
  {
    if o.Answered? then (Verdict(o, attempts + 1), None)
    else if cancelled then (Verdict(o, attempts).(status := Pending), Some(now))
    else if Retryable(o, retry.retryOnTimeout) && attempts + 1 <= retry.maxRetries
    then (Verdict(o, attempts + 1).(status := Pending), Some(now + wait))
    else (Verdict(o, attempts + 1), None)
  }

  /** The decision, outcome by outcome. An answer is a success. A status from 400 to 499 and
      a blocked address are rejected; another status, and another failure unless it is a
      timeout that the rule does not retry, get another attempt while attempts are left. A
      cancelled failure is put back, due now, as if it had not been tried. */
  lemma DecideMeans(attempts: nat, retry: RetryConfig, o: Outcome, cancelled: bool, now: Time, wait: Duration)
    ensures var (r, next) := Decide(attempts, retry, o, cancelled, now, wait);
      match o
      case Answered(body) => r == DeliveryResult(Success, 0, "", body, attempts + 1) && next == None
      case BadStatus(code, body) =>
        && r.statusCode == code && r.body == body
        && (code >= 0 ==> r.error == "webhook returned status " + Text.Decimal(code))
        && (if cancelled then r.status == Pending && r.attempts == attempts && next == Some(now)
            else && r.attempts == attempts + 1
                 && if 400 <= code <= 499 then r.status == Rejected && next == None
                    else if attempts < retry.maxRetries then r.status == Pending && next == Some(now + wait)
                    else r.status == Failed && next == None)
      case Transport(text, isPrivate, isTimeout) =>
        && r.statusCode == 0 && r.body == "" && r.error == text
        && (if cancelled then r.status == Pending && r.attempts == attempts && next == Some(now)
            else && r.attempts == attempts + 1
                 && if isPrivate then r.status == Rejected && next == None
                    else if (!isTimeout || retry.retryOnTimeout) && attempts < retry.maxRetries
                    then r.status == Pending && next == Some(now + wait)
                    else r.status == Failed && next == None)
  {
  }

  /** Before the request: a released row and a broken payload are given up with their
      reason, a signed delivery without a secret too; any other is sent, with the current
      secret exactly if it was signed. */
  lemma PrepareMeans(blob: Blob, known: Option<string>)
    ensures match blob
      case Released => Prepare(blob, known) == GiveUp("unexpected end of JSON input")
      case Encoded(snap) =>
        if snap.payloadError != "" then Prepare(blob, known) == GiveUp(snap.payloadError)
        else if !snap.signed then Prepare(blob, known) == Ready("")
        else if known == None || known == Some("")
        then Prepare(blob, known) == GiveUp("signing secret for rule \"" + snap.rule.name + "\" is no longer available")
        else Prepare(blob, known) == Ready(known.value)
  {
  }

  /** runQueued up to the save: `outcome` is what the request would give, `wait`
      what backoff returns, `sent` the secret of the request if one was made. */
  method RunQueued(job: Job, known: Option<string>, outcome: Outcome, cancelled: bool, now: Time, wait: Duration)
    returns (result: DeliveryResult, next: Option<Time>, sent: Option<string>)
    ensures match Prepare(job.snapshot, known)
      case GiveUp(reason) => result == GaveUp(reason, job.attempts) && next == None && sent == None
      case Ready(secret) =>
        && sent == Some(secret) && job.snapshot.Encoded?
        && (result, next) == Decide(job.attempts, job.snapshot.snap.retry, outcome, cancelled, now, wait)
  {
    result := DeliveryResult(Error, 0, "", "", job.attempts);
    next, sent := None, None;
    if job.snapshot.Released? {
      result := result.(error := UNDECODABLE);
      return;
    }
    var snap := job.snapshot.snap;
    if snap.payloadError != "" {
      result := result.(error := snap.payloadError);
      return;
    }
    var secret := ResolveSecret(snap, known);
    if secret.None? {
      result := result.(error := SecretGone(snap.rule.name));
      return;
    }
    result := result.(attempts := result.attempts + 1);
    sent := secret;
    result := result.(status := Success, body := if outcome.Answered? then outcome.body else "");
    if !outcome.Answered? {
      result := result.(status := Failed);
      var retryable := true;
      match outcome {
        case BadStatus(code, body) =>
          result := result.(error := StatusText(code), statusCode := code, body := body);
          if code >= 400 && code < 500 {
            result := result.(status := Rejected);
            retryable := false;
          }
        case Transport(text, isPrivate, isTimeout) =>
          result := result.(error := text);
          if isPrivate {
            result := result.(status := Rejected);
            retryable := false;
          }
          if isTimeout && !snap.retry.retryOnTimeout {
            retryable := false;
          }
        case Answered(_) =>
      }
      if cancelled {
        result := result.(status := Pending, attempts := job.attempts);
        next := Some(now);
      } else if retryable && result.attempts <= snap.retry.maxRetries {
        result := result.(status := Pending);
        next := Some(now + wait);
      }
    }
  }

  // ----- The in-memory retry loop -----

  /** No attempt follows attempt k (counted from 0). */
  predicate Ends(retry: RetryConfig, outcomes: nat -> Outcome, k: nat) {
    !Retryable(outcomes(k), retry.retryOnTimeout) || k >= retry.maxRetries
  }

  /** The first attempt, from `from` on, that no other follows. */
  function LastAttempt(retry: RetryConfig, outcomes: nat -> Outcome, from: nat): (k: nat)
    ensures from <= k && Ends(retry, outcomes, k)
    ensures forall j :: from <= j < k ==> !Ends(retry, outcomes, j)
    decreases Max(0, retry.maxRetries - from)
  {
    if Ends(retry, outcomes, from) then from else LastAttempt(retry, outcomes, from + 1)
  }

  lemma LastAttemptUnique(retry: RetryConfig, outcomes: nat -> Outcome, from: nat, k: nat)
    requires from <= k && Ends(retry, outcomes, k)
    requires forall j :: from <= j < k ==> !Ends(retry, outcomes, j)
    ensures LastAttempt(retry, outcomes, from) == k
  {
    assert Ends(retry, outcomes, LastAttempt(retry, outcomes, from));
  }

  /** One request: the rule with its secret, the body, and the time allowed. */
  datatype Outgoing = Outgoing(rule: Rule, payload: Bytes, timeout: Duration)

  function Repeat(o: Outgoing, n: nat): seq<Outgoing> {
    seq(n, _ => o)
  }

  function Waits(waits: nat -> Duration, from: nat, to: nat): seq<Duration>
    requires from <= to
  {
    seq(to - from, i requires 0 <= i < to - from => waits(from + i))
  }

  lemma RepeatSnoc(o: Outgoing, n: nat)
    ensures Repeat(o, n) + [o] == Repeat(o, n + 1)
  {
  }

  lemma WaitsSnoc(waits: nat -> Duration, from: nat, to: nat)
    requires from <= to
    ensures Waits(waits, from, to) + [waits(to)] == Waits(waits, from, to + 1)
  {
  }

  /** A whole dispatch: the result, the requests in order, and the waits between them. */
  datatype Dispatched = Dispatched(result: DeliveryResult, sends: seq<Outgoing>, waits: seq<Duration>)

  /** What dispatchOne does when nothing interrupts it. */
  function Undisturbed(rule: Rule, global: RetryConfig, payload: Payload, outcomes: nat -> Outcome, waits: nat -> Duration)
    : Dispatched
  {
    var retry := Effective(rule.webhook, global);
    if payload.Broken? then Dispatched(GaveUp(payload.reason, 0), [], [])
    else if retry.maxRetries < 0 then Dispatched(DeliveryResult(Failed, 0, "", "", 0), [], [])
    else
      var k := LastAttempt(retry, outcomes, 0);
      Dispatched(Verdict(outcomes(k), k + 1),
                 Repeat(Outgoing(rule, payload.bytes, retry.timeout), k + 1),
                 Waits(waits, 1, k + 1))
  }

  /** The whole dispatch, outcome by outcome. There are n requests, the same each time, with
      the waits between them. Each but the last was followed by a failure worth another
      attempt: a status outside 400 to 499, or a failure that is no blocked address and no
      timeout that the rule does not retry. The last was not, or was the last allowed; its
      outcome gives the result. */
  lemma DispatchMeans(rule: Rule, global: RetryConfig, payload: Payload, outcomes: nat -> Outcome, waits: nat -> Duration)
    requires payload.Built? && Effective(rule.webhook, global).maxRetries >= 0
    ensures var retry := Effective(rule.webhook, global);
      var Dispatched(result, sends, slept) := Undisturbed(rule, global, payload, outcomes, waits);
      var n := |sends|;
      && 1 <= n <= retry.maxRetries + 1
      && (forall j :: 0 <= j < n ==> sends[j] == Outgoing(rule, payload.bytes, retry.timeout))
      && |slept| == n - 1 && (forall j :: 0 <= j < n - 1 ==> slept[j] == waits(j + 1))
      && (forall j :: 0 <= j < n - 1 ==>
            match outcomes(j)
            case Answered(_) => false
            case BadStatus(code, _) => code < 400 || code > 499
            case Transport(_, isPrivate, isTimeout) => !isPrivate && (!isTimeout || retry.retryOnTimeout))
      && result.attempts == n
      && (match outcomes(n - 1)
          case Answered(body) => result == DeliveryResult(Success, 0, "", body, n)
          case BadStatus(code, body) =>
            && result.statusCode == code && result.body == body
            && (code >= 0 ==> result.error == "webhook returned status " + Text.Decimal(code))
            && (if 400 <= code <= 499 then result.status == Rejected
                else result.status == Failed && n == retry.maxRetries + 1)
          case Transport(text, isPrivate, isTimeout) =>
            && result.statusCode == 0 && result.body == "" && result.error == text
            && (if isPrivate then result.status == Rejected
                else result.status == Failed && ((isTimeout && !retry.retryOnTimeout) || n == retry.maxRetries + 1)))
  {
    var retry := Effective(rule.webhook, global);
    var k := LastAttempt(retry, outcomes, 0);
    LastWithin(retry, outcomes, 0);
    var d := Undisturbed(rule, global, payload, outcomes, waits);
    assert |d.sends| == k + 1 && d.result == Verdict(outcomes(k), k + 1);
    assert Ends(retry, outcomes, k);
    forall j | 0 <= j < k
      ensures match outcomes(j)
        case Answered(_) => false
        case BadStatus(code, _) => code < 400 || code > 499
        case Transport(_, isPrivate, isTimeout) => !isPrivate && (!isTimeout || retry.retryOnTimeout)
    {
      assert !Ends(retry, outcomes, j);
    }
  }

  /** Without a body, or with a negative limit, nothing is sent. */
  lemma NothingToSend(rule: Rule, global: RetryConfig, payload: Payload, outcomes: nat -> Outcome, waits: nat -> Duration)
    ensures var d := Undisturbed(rule, global, payload, outcomes, waits);
      && (payload.Broken? ==> d == Dispatched(DeliveryResult(Error, 0, payload.reason, "", 0), [], []))
      && (payload.Built? && Effective(rule.webhook, global).maxRetries < 0 ==>
            d == Dispatched(DeliveryResult(Failed, 0, "", "", 0), [], []))
  {
  }

  lemma {:induction false} LastWithin(retry: RetryConfig, outcomes: nat -> Outcome, from: nat)
    requires from <= retry.maxRetries
    ensures LastAttempt(retry, outcomes, from) <= retry.maxRetries
    decreases retry.maxRetries - from
  {
    if !Ends(retry, outcomes, from) {
      LastWithin(retry, outcomes, from + 1);
    }
  }

  /** Where the first final attempt is known, the whole dispatch is. */
  lemma WholeEndsAt(rule: Rule, global: RetryConfig, payload: Payload, outcomes: nat -> Outcome,
                    waits: nat -> Duration, k: nat)
    requires var retry := Effective(rule.webhook, global);
      && payload.Built? && k <= retry.maxRetries && Ends(retry, outcomes, k)
      && forall j :: 0 <= j < k ==> !Ends(retry, outcomes, j)
    ensures Undisturbed(rule, global, payload, outcomes, waits) == Dispatched(
              Verdict(outcomes(k), k + 1),
              Repeat(Outgoing(rule, payload.bytes, Effective(rule.webhook, global).timeout), k + 1),
              Waits(waits, 1, k + 1))
  {
    LastAttemptUnique(Effective(rule.webhook, global), outcomes, 0, k);
  }

  /** The dispatch was cut short during the wait before attempt number |sends|. */
  ghost predicate CutShort(full: Dispatched, sends: seq<Outgoing>, slept: seq<Duration>, interrupted: nat -> bool) {
    && 0 < |sends| < |full.sends| && sends <= full.sends
    && |slept| + 1 == |sends| && slept <= full.waits
    && interrupted(|sends|)
    && forall n: nat :: 1 <= n < |sends| ==> !interrupted(n)
  }

  /** While every outcome so far was retryable, what was done is part of the whole. */
  lemma StopsInWait(rule: Rule, global: RetryConfig, payload: Payload, outcomes: nat -> Outcome,
                    waits: nat -> Duration, interrupted: nat -> bool, n: nat)
    requires payload.Built? && 1 <= n <= Effective(rule.webhook, global).maxRetries && interrupted(n)
    requires forall j: nat :: j < n ==> Retryable(outcomes(j), Effective(rule.webhook, global).retryOnTimeout)
    requires forall j: nat :: 1 <= j < n ==> !interrupted(j)
    ensures CutShort(
              Undisturbed(rule, global, payload, outcomes, waits),
              Repeat(Outgoing(rule, payload.bytes, Effective(rule.webhook, global).timeout), n),
              Waits(waits, 1, n), interrupted)
  {
    var out := Outgoing(rule, payload.bytes, Effective(rule.webhook, global).timeout);
    var k := LastAttempt(Effective(rule.webhook, global), outcomes, 0);
    assert n <= k && Repeat(out, n) <= Repeat(out, k + 1) && Waits(waits, 1, n) <= Waits(waits, 1, k + 1);
  }

  /** The checks of dispatchOne after a send: does the loop return, and with what? */
  method AfterSend(o: Outcome, retryOnTimeout: bool, attempts: nat) returns (stop: bool, result: DeliveryResult)
    ensures stop == !Retryable(o, retryOnTimeout)
    ensures stop ==> result == Verdict(o, attempts)
  {
    result := DeliveryResult(Failed, 0, "", "", attempts);
    if o.Answered? {
      return true, result.(status := Success, body := o.body);
    }
    if o.Transport? && o.isPrivate {
      return true, result.(status := Rejected, error := o.text);
    }
    if o.BadStatus? && o.code >= 400 && o.code < 500 {
      return true, result.(status := Rejected, statusCode := o.code, error := StatusText(o.code), body := o.body);
    }
    if o.Transport? && o.isTimeout && !retryOnTimeout {
      return true, result.(status := Failed, error := o.text);
    }
    stop := false;
  }

  /** The end of dispatchOne, when every allowed attempt was used. */
  method OutOfAttempts(lastErr: Option<Outcome>, ghost retryOnTimeout: bool, attempts: nat) returns (result: DeliveryResult)
    requires lastErr.Some? ==> Retryable(lastErr.value, retryOnTimeout)
    ensures result == if lastErr.Some? then Verdict(lastErr.value, attempts) else DeliveryResult(Failed, 0, "", "", attempts)
  {
    result := DeliveryResult(Failed, 0, "", "", attempts);
    if lastErr.Some? {
      if lastErr.value.BadStatus? {
        result := result.(error := StatusText(lastErr.value.code),
                          statusCode := lastErr.value.code, body := lastErr.value.body);
      } else if lastErr.value.Transport? {
        result := result.(error := lastErr.value.text);
      }
    }
  }

  /** dispatchOne. `interrupted(n)` says that the context ends during the wait
      before attempt n. */
  method DispatchOne(rule: Rule, global: RetryConfig, payload: Payload, outcomes: nat -> Outcome,
                     waits: nat -> Duration, interrupted: nat -> bool, ctxErr: string)
    returns (result: DeliveryResult, sends: seq<Outgoing>, slept: seq<Duration>)
    ensures result.status != Cancelled ==>
      Dispatched(result, sends, slept) == Undisturbed(rule, global, payload, outcomes, waits)
    ensures result.status != Cancelled ==> forall n: nat :: 1 <= n < |sends| ==> !interrupted(n)
    ensures result.status == Cancelled ==>
      && CutShort(Undisturbed(rule, global, payload, outcomes, waits), sends, slept, interrupted)
      && result == DeliveryResult(Cancelled, 0, ctxErr, "", |sends| + 1)
  {
    result := DeliveryResult(Failed, 0, "", "", 0);
    sends, slept := [], [];
    var retry := Effective(rule.webhook, global);
    if payload.Broken? {
      result := result.(status := Error, error := payload.reason);
      return;
    }
    var out := Outgoing(rule, payload.bytes, retry.timeout);
    var lastErr: Option<Outcome> := None;
    var attempt := 0;
    while attempt <= retry.maxRetries
      invariant 0 <= attempt <= Max(0, retry.maxRetries + 1)
      invariant forall j: nat :: j < attempt ==> Retryable(outcomes(j), retry.retryOnTimeout)
      invariant forall j: nat :: 1 <= j < attempt ==> !interrupted(j)
      invariant sends == Repeat(out, attempt)
      invariant slept == Waits(waits, 1, Max(1, attempt))
      invariant lastErr == if attempt == 0 then None else Some(outcomes(attempt - 1))
      invariant result == DeliveryResult(Failed, 0, "", "", attempt)
    {
      result := result.(attempts := attempt + 1);
      if attempt > 0 {
        if interrupted(attempt) {
          StopsInWait(rule, global, payload, outcomes, waits, interrupted, attempt);
          result := result.(status := Cancelled, error := ctxErr);
          return;
        }
        WaitsSnoc(waits, 1, attempt);
        slept := slept + [waits(attempt)];
      }
      var o := outcomes(attempt);
      RepeatSnoc(out, attempt);
      sends := sends + [out];
      lastErr := Some(o);
      var stop, final := AfterSend(o, retry.retryOnTimeout, attempt + 1);
      if stop {
        WholeEndsAt(rule, global, payload, outcomes, waits, attempt);
        result := final;
        return;
      }
      attempt := attempt + 1;
    }
    if retry.maxRetries >= 0 {
      WholeEndsAt(rule, global, payload, outcomes, waits, retry.maxRetries);
    }
    result := OutOfAttempts(lastErr, retry.retryOnTimeout, result.attempts);
  }

  // ----- Queue rounds on the tables -----

  predicate Waiting(db: Db, id: DeliveryId) {
    && id in db.queue && id in db.deliveries
    && db.deliveries[id].status == Pending
    && db.queue[id].snapshot.Encoded?
  }

  function RowResult(d: Delivery): DeliveryResult {
    DeliveryResult(d.status, d.statusCode, d.error, d.body, d.attempts)
  }

  datatype Drained = Drained(db: Db, sends: seq<Outgoing>, delays: seq<Duration>)

  /** The tables after claiming a row and saving one attempt of it. */
  function SavedRound(db: Db, id: DeliveryId, r: DeliveryResult, next: Option<Time>): Db
    requires id in db.queue && id in db.deliveries
  {
    Finish(SetStatus(db, id, InProgress), JobOf(db, id), r, next)
  }

  function Request(snap: Snapshot, secret: string): Outgoing {
    Outgoing(snap.rule.(webhook := snap.rule.webhook.(signingSecret := secret)), snap.payload, snap.retry.timeout)
  }

  /** Claim, attempt and save one delivery over and over until it is final.
      `known` is the rule's current secret and clock(n) the time at which attempt
      n is recorded. The delays are how far each new due time lies after it. */
  function Drain(db: Db, id: DeliveryId, known: Option<string>, outcomes: nat -> Outcome,
                 waits: nat -> Duration, clock: nat -> Time): Drained
    requires Waiting(db, id)
    decreases Max(0, db.queue[id].snapshot.snap.retry.maxRetries - db.deliveries[id].attempts)
  {
    var snap, n: nat := db.queue[id].snapshot.snap, db.deliveries[id].attempts;
    match Prepare(db.queue[id].snapshot, known)
    case GiveUp(reason) => Drained(SavedRound(db, id, GaveUp(reason, n), None), [], [])
    case Ready(secret) =>
      var (r, next) := Decide(n, snap.retry, outcomes(n), false, clock(n), waits(n + 1));
      if next.None? then Drained(SavedRound(db, id, r, next), [Request(snap, secret)], [])
      else
        var rest := Drain(SavedRound(db, id, r, next), id, known, outcomes, waits, clock);
        Drained(rest.db, [Request(snap, secret)] + rest.sends, [next.value - clock(n)] + rest.delays)
  }

  lemma RepeatCons(o: Outgoing, n: nat)
    ensures [o] + Repeat(o, n) == Repeat(o, n + 1)
  {
  }

  lemma WaitsCons(waits: nat -> Duration, from: nat, to: nat)
    requires from < to
    ensures [waits(from)] + Waits(waits, from + 1, to) == Waits(waits, from, to)
  {
  }

  lemma SavedRetry(db: Db, id: DeliveryId, r: DeliveryResult, next: Option<Time>)
    requires Waiting(db, id) && r.status == Pending && next.Some?
    ensures var saved := SavedRound(db, id, r, next);
      && Waiting(saved, id) && saved.queue[id].snapshot == db.queue[id].snapshot
      && saved.deliveries[id].attempts == r.attempts
  {
  }

  /** One retried round leaves the row waiting, with one more attempt. */
  lemma DrainRetries(db: Db, id: DeliveryId, known: Option<string>, outcomes: nat -> Outcome,
                     waits: nat -> Duration, clock: nat -> Time, secret: string) returns (saved: Db, rest: Drained)
    requires Waiting(db, id) && Prepare(db.queue[id].snapshot, known) == Ready(secret)
    requires !Ends(db.queue[id].snapshot.snap.retry, outcomes, db.deliveries[id].attempts)
    ensures Waiting(saved, id)
    ensures saved.queue[id].snapshot == db.queue[id].snapshot
    ensures saved.deliveries[id].attempts == db.deliveries[id].attempts + 1
    ensures rest == Drain(saved, id, known, outcomes, waits, clock)
    ensures Drain(db, id, known, outcomes, waits, clock)
      == Drained(rest.db, [Request(db.queue[id].snapshot.snap, secret)] + rest.sends,
                 [waits(db.deliveries[id].attempts + 1)] + rest.delays)
  {
    var snap, n: nat := db.queue[id].snapshot.snap, db.deliveries[id].attempts;
    var (r, next) := Decide(n, snap.retry, outcomes(n), false, clock(n), waits(n + 1));
    SavedRetry(db, id, r, next);
    saved := SavedRound(db, id, r, next);
    rest := Drain(saved, id, known, outcomes, waits, clock);
  }

  /** `d` is how rounds that start with n recorded attempts and end with attempt k
      must end. */
  ghost predicate EndsWell(d: Drained, id: DeliveryId, snap: Snapshot, secret: string,
                           outcomes: nat -> Outcome, waits: nat -> Duration, n: nat, k: nat)
    requires n <= k
  {
    && id in d.db.deliveries
    && RowResult(d.db.deliveries[id]) == Verdict(outcomes(k), k + 1)
    && d.sends == Repeat(Request(snap, secret), k + 1 - n)
    && d.delays == Waits(waits, n + 1, k + 1)
  }

  /** The last round records its verdict. */
  lemma DrainStops(db: Db, id: DeliveryId, known: Option<string>, outcomes: nat -> Outcome,
                   waits: nat -> Duration, clock: nat -> Time, secret: string)
    requires Waiting(db, id) && Prepare(db.queue[id].snapshot, known) == Ready(secret)
    requires Ends(db.queue[id].snapshot.snap.retry, outcomes, db.deliveries[id].attempts)
    ensures var n: nat := db.deliveries[id].attempts;
      EndsWell(Drain(db, id, known, outcomes, waits, clock), id, db.queue[id].snapshot.snap, secret, outcomes, waits, n, n)
  {
    RepeatCons(Request(db.queue[id].snapshot.snap, secret), 0);
  }

  lemma EndsWellEarlier(rest: Drained, id: DeliveryId, snap: Snapshot, secret: string,
                        outcomes: nat -> Outcome, waits: nat -> Duration, n: nat, k: nat)
    requires n < k && EndsWell(rest, id, snap, secret, outcomes, waits, n + 1, k)
    ensures EndsWell(Drained(rest.db, [Request(snap, secret)] + rest.sends, [waits(n + 1)] + rest.delays),
                     id, snap, secret, outcomes, waits, n, k)
  {
    RepeatCons(Request(snap, secret), k - n);
    WaitsCons(waits, n + 1, k + 1);
  }

  lemma LastAttemptLater(retry: RetryConfig, outcomes: nat -> Outcome, n: nat)
    requires !Ends(retry, outcomes, n)
    ensures n < LastAttempt(retry, outcomes, n) == LastAttempt(retry, outcomes, n + 1)
  {
  }

  /** From any recorded attempt count the rounds end at the last attempt, having
      sent once per attempt and delayed once per retry. */
  lemma {:induction false} DrainEnds(db: Db, id: DeliveryId, known: Option<string>, outcomes: nat -> Outcome,
                                     waits: nat -> Duration, clock: nat -> Time, secret: string)
    requires Waiting(db, id) && Prepare(db.queue[id].snapshot, known) == Ready(secret)
    ensures var snap, n: nat := db.queue[id].snapshot.snap, db.deliveries[id].attempts;
      EndsWell(Drain(db, id, known, outcomes, waits, clock), id, snap, secret, outcomes, waits, n,
               LastAttempt(snap.retry, outcomes, n))
    decreases Max(0, db.queue[id].snapshot.snap.retry.maxRetries - db.deliveries[id].attempts)
  {
    var snap, n: nat := db.queue[id].snapshot.snap, db.deliveries[id].attempts;
    if Ends(snap.retry, outcomes, n) {
      DrainStops(db, id, known, outcomes, waits, clock, secret);
    } else {
      LastAttemptLater(snap.retry, outcomes, n);
      var saved, rest := DrainRetries(db, id, known, outcomes, waits, clock, secret);
      DrainEnds(saved, id, known, outcomes, waits, clock, secret);
      EndsWellEarlier(rest, id, snap, secret, outcomes, waits, n, LastAttempt(snap.retry, outcomes, n));
    }
  }

  ghost predicate SameDispatch(db: Db, id: DeliveryId, drained: Drained, d: Dispatched) {
    && id in drained.db.deliveries
    && RowResult(drained.db.deliveries[id]) == d.result
    && drained.sends == d.sends
    && drained.delays == d.waits
  }

  /** The queue refines the in-memory loop. For a delivery just enqueued for `rule`,
      whose secret is still the one of enqueue time, the rounds record the same
      result after the same requests and the same waits, for every stream of
      outcomes, if and only if the retry limit is not negative (or the payload
      could not be built). With a negative limit the loop sends nothing, while
      the queue sends once. */
  lemma QueueRefinesDispatch(db: Db, id: DeliveryId, rule: Rule, global: RetryConfig, payload: Payload,
                             known: Option<string>, outcomes: nat -> Outcome, waits: nat -> Duration, clock: nat -> Time)
    requires Waiting(db, id) && db.deliveries[id].attempts == 0
    requires db.queue[id].snapshot == Encoded(TakeSnapshot(rule, global, payload))
    requires payload.Broken? ==> payload.reason != ""
    requires rule.webhook.signingSecret != "" ==> known == Some(rule.webhook.signingSecret)
    ensures SameDispatch(db, id, Drain(db, id, known, outcomes, waits, clock),
                         Undisturbed(rule, global, payload, outcomes, waits))
            <==> payload.Broken? || Effective(rule.webhook, global).maxRetries >= 0
  {
    var snap := TakeSnapshot(rule, global, payload);
    if payload.Built? {
      assert rule.webhook.(signingSecret := "").(signingSecret := rule.webhook.signingSecret) == rule.webhook;
      DrainEnds(db, id, known, outcomes, waits, clock, rule.webhook.signingSecret);
      assert Request(snap, rule.webhook.signingSecret) == Outgoing(rule, payload.bytes, snap.retry.timeout);
    }
  }
}
