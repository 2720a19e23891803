/** Accepting an email: the SMTP session (internal/smtp/server.go, Data), the
    handler (cmd/mailrelay/main.go, buildHandler and buildRejectionHandler) and
    the dispatcher's Enqueue (internal/webhook/queue.go). */
module Ingest {
  import opened Models
  import opened Tables
  import opened QueueSystem
  import opened RuleEngine
  import opened Storage

  datatype Reply = Accepted | TryLater | NotAllowed(reason: string)

  /** What arrives, and everything that decides its way but lies outside: the
      authentication verdict, whether it parses, the payload each rule's template
      gives, which conditions hit, the ids drawn, the clock at its two writes, and how
      far each of the three transactions gets. */
  datatype Arrival = Arrival(
    denied: Option<string>,
    parses: bool,
    payload: Rule -> Payload,
    hits: Condition -> bool,
    emailId: EmailId,
    batch: BatchId,
    ids: seq<DeliveryId>,
    now: Time,
    queuedAt: Time,
    saveFuse: nat,
    dropFuse: nat,
    enqueueFuse: nat)

  /** The rows that Enqueue publishes for these rules. */
  function JobsOf(rules: seq<Rule>, ids: seq<DeliveryId>, retry: RetryConfig, payload: Rule -> Payload): (jobs: seq<NewDelivery>)
    requires |ids| >= |rules|
    ensures |jobs| == |rules|
  {
    seq(|rules|, i requires 0 <= i < |rules| =>
      NewDelivery(ids[i], rules[i].name, TakeSnapshot(rules[i], retry, payload(rules[i]))))
  }

  function WithEmail(db: Db, e: EmailId, now: Time, status: EmailStatus): Db {
    db.(emails := db.emails[e := Email(now, status, "")])
  }

  class Relay {
    const store: Store
    const engine: Engine
    var retry: RetryConfig

    constructor (store: Store, engine: Engine, retry: RetryConfig)
      ensures this.store == store && this.engine == engine && this.retry == retry
    {
      this.store, this.engine, this.retry := store, engine, retry;
    }

    /** Dispatcher.Enqueue: snapshots of all rules, then one transaction. */
    method Enqueue(e: EmailId, rules: seq<Rule>, a: Arrival) returns (ok: bool)
      requires |a.ids| >= |rules|
      modifies store
      ensures var jobs := JobsOf(rules, a.ids, retry, a.payload);
        && (ok <==> Insertable(old(store.Db()), e, jobs) && a.enqueueFuse >= 2 * |jobs| + 2)
        && store.Db() == if ok then Publish(old(store.Db()), e, a.batch, jobs, a.queuedAt) else old(store.Db())
    {
      var jobs: seq<NewDelivery> := [];
      var global := retry;
      for i := 0 to |rules|
        invariant jobs == JobsOf(rules[..i], a.ids, retry, a.payload)
        invariant unchanged(store)
      {
        var rule := rules[i];
        var wh := rule.webhook;
        var own := RetryConfig(
          OrElse(wh.maxRetries, global.maxRetries),
          SecondsOrElse(wh.initialWait, global.initialWait),
          SecondsOrElse(wh.maxWait, global.maxWait),
          SecondsOrElse(wh.timeout, global.timeout),
          OrElse(wh.retryOnTimeout, global.retryOnTimeout));
        var body := a.payload(rule);
        var snap := Snapshot(rule, wh.signingSecret != "", if body.Built? then body.bytes else [], own, "");
        snap := snap.(rule := rule.(webhook := wh.(signingSecret := "")));
        if body.Broken? {
          snap := snap.(payloadError := body.reason);
        }
        jobs := jobs + [NewDelivery(a.ids[i], rule.name, snap)];
      }
      assert rules[..|rules|] == rules;
      ok := store.EnqueueDeliveries(e, a.batch, jobs, a.queuedAt, a.enqueueFuse);
    }

    /** The email handler. An error means a temporary failure for the sender. */
    method Handle(a: Arrival) returns (ok: bool)
      requires |a.ids| >= |engine.rules|
      modifies store
      ensures Leaves(old(store.Db()), old(engine.rules), retry, a, ok, store.Db())
    {
      ok := store.SaveEmail(a.emailId, a.now, Received, a.saveFuse);
      if !ok {
        return;
      }
      ok := Route(a);
    }

    /** The rest of the handler, once the email is stored: match, read the settings, then
        one transaction. */
    method Route(a: Arrival) returns (ok: bool)
      requires |a.ids| >= |engine.rules|
      modifies store
      ensures |Matching(engine.rules, a.hits)| <= |engine.rules|
      ensures RoutingLeaves(old(store.Db()), Matching(engine.rules, a.hits), retry, a, ok, store.Db())
    {
      var matched := engine.Match(a.hits);
      MatchingShorter(engine.rules, a.hits);
      if |matched| == 0 {
        var dropped := store.UpdateEmailStatus(a.emailId, Dropped, a.dropFuse);
        return true;
      }
      ok := Enqueue(a.emailId, matched, a);
    }

    /** Data, with a store configured. */
    method Data(a: Arrival) returns (reply: Reply)
      requires |a.ids| >= |engine.rules|
      modifies store
      ensures a.denied.Some? ==>
        && reply == NotAllowed(a.denied.value)
        && store.Db() == if a.saveFuse >= 1 && a.emailId !in old(store.emails)
                         then WithEmail(old(store.Db()), a.emailId, a.now, Refused) else old(store.Db())
      ensures a.denied.None? && !a.parses ==> reply.NotAllowed? && store.Db() == old(store.Db())
      ensures a.denied.None? && a.parses ==>
        && !reply.NotAllowed?
        && Leaves(old(store.Db()), old(engine.rules), retry, a, reply == Accepted, store.Db())
      ensures DataLeaves(old(store.Db()), old(engine.rules), retry, a, reply, store.Db())
    {
      if a.denied.Some? {
        var saved := store.SaveEmail(a.emailId, a.now, Refused, a.saveFuse);
        return NotAllowed(a.denied.value);
      }
      if !a.parses {
        return NotAllowed("Failed to parse email");
      }
      var ok := Handle(a);
      reply := if ok then Accepted else TryLater;
    }
  }

  /** What the handler leaves behind of a stored email. Without a matching rule it is
      marked dropped and accepted anyway; otherwise it is accepted exactly if the whole
      batch could be published, and nothing changes if it could not. The tables are those
      at the transaction; rules and settings may have been read earlier. */
  ghost predicate RoutingLeaves(db: Db, matched: seq<Rule>, retry: RetryConfig, a: Arrival, accepted: bool, db': Db)
    requires |a.ids| >= |matched|
  {
    var jobs := JobsOf(matched, a.ids, retry, a.payload);
    if matched == [] then
      accepted && db' == if a.dropFuse >= 1 then UpdateStatus(db, a.emailId, Dropped) else db
    else
      && (accepted <==> Insertable(db, a.emailId, jobs) && a.enqueueFuse >= 2 * |jobs| + 2)
      && db' == if accepted then Publish(db, a.emailId, a.batch, jobs, a.queuedAt) else db
  }

  /** What a handled email leaves behind: nothing if its row could not be stored. */
  ghost predicate Leaves(db: Db, rules: seq<Rule>, retry: RetryConfig, a: Arrival, accepted: bool, db': Db)
    requires |a.ids| >= |rules|
  {
    MatchingShorter(rules, a.hits);
    if a.saveFuse >= 1 && a.emailId !in db.emails
    then RoutingLeaves(WithEmail(db, a.emailId, a.now, Received), Matching(rules, a.hits), retry, a, accepted, db')
    else !accepted && db' == db
  }

  /** What the session leaves behind, whatever its reply. */
  ghost predicate DataLeaves(db: Db, rules: seq<Rule>, retry: RetryConfig, a: Arrival, reply: Reply, db': Db)
    requires |a.ids| >= |rules|
  {
    if a.denied.Some? then
      && reply == NotAllowed(a.denied.value)
      && db' == if a.saveFuse >= 1 && a.emailId !in db.emails then WithEmail(db, a.emailId, a.now, Refused) else db
    else if !a.parses then reply.NotAllowed? && db' == db
    else !reply.NotAllowed? && Leaves(db, rules, retry, a, reply == Accepted, db')
  }

  /** What is written down for a rule: the rule without its secret, whether it had one, the
      body or why there is none, and the rule's own settings, in seconds, before the
      global ones. */
  lemma SnapshotMeans(rule: Rule, global: RetryConfig, payload: Payload)
    ensures var snap, wh := TakeSnapshot(rule, global, payload), rule.webhook;
      && snap.rule.webhook.signingSecret == "" && (snap.signed <==> wh.signingSecret != "")
      && rule == snap.rule.(webhook := snap.rule.webhook.(signingSecret := wh.signingSecret))
      && (payload.Built? ==> snap.payload == payload.bytes && snap.payloadError == "")
      && (payload.Broken? ==> snap.payload == [] && snap.payloadError == payload.reason)
      && snap.retry.maxRetries == (match wh.maxRetries case Some(n) => n case None => global.maxRetries)
      && snap.retry.initialWait == (match wh.initialWait case Some(n) => n * 1_000_000_000 case None => global.initialWait)
      && snap.retry.maxWait == (match wh.maxWait case Some(n) => n * 1_000_000_000 case None => global.maxWait)
      && snap.retry.timeout == (match wh.timeout case Some(n) => n * 1_000_000_000 case None => global.timeout)
      && snap.retry.retryOnTimeout == (match wh.retryOnTimeout case Some(b) => b case None => global.retryOnTimeout)
  {
  }

  lemma {:induction false} MatchingShorter(rules: seq<Rule>, hits: Condition -> bool)
    ensures |Matching(rules, hits)| <= |rules|
  {
    if rules != [] {
      MatchingShorter(rules[..|rules| - 1], hits);
    }
  }

  /** An accepted email is durable: its row is stored, and for the k-th matching
      rule in engine order there is exactly one row of the batch, pending, never
      attempted, due at once, with the request resolved now. Every other delivery
      is as it was. */
  lemma DurableAcknowledgement(db: Db, rules: seq<Rule>, retry: RetryConfig, a: Arrival, db': Db, id: DeliveryId)
    requires |a.ids| >= |rules| && Leaves(db, rules, retry, a, true, db')
    ensures a.emailId in db'.emails
    ensures var matched := Matching(rules, a.hits);
      && |matched| <= |rules|
      && (matched != [] ==> db'.emails[a.emailId].status == Received && db'.emails[a.emailId].batch == a.batch)
      && (forall k :: 0 <= k < |matched| ==>
            && a.ids[k] in db'.deliveries && a.ids[k] in db'.queue
            && db'.deliveries[a.ids[k]] == Delivery(a.emailId, matched[k].name, Pending, 0, "", "", 0)
            && db'.queue[a.ids[k]]
               == QueueRow(a.batch, a.emailId, Encoded(TakeSnapshot(matched[k], retry, a.payload(matched[k]))), a.queuedAt))
      && (forall j, k :: 0 <= j < k < |matched| ==> a.ids[j] != a.ids[k])
      && (id !in a.ids[..|matched|] ==>
            && (id in db'.deliveries <==> id in db.deliveries) && (id in db'.queue <==> id in db.queue)
            && (id in db.deliveries ==> db'.deliveries[id] == db.deliveries[id])
            && (id in db.queue ==> db'.queue[id] == db.queue[id]))
  {
    MatchingShorter(rules, a.hits);
    var matched := Matching(rules, a.hits);
    var stored := WithEmail(db, a.emailId, a.now, Received);
    if matched != [] {
      var jobs := JobsOf(matched, a.ids, retry, a.payload);
      InsertAllEmails(stored, a.emailId, a.batch, jobs, a.queuedAt);
      forall k | 0 <= k < |matched|
        ensures a.ids[k] in db'.deliveries && a.ids[k] in db'.queue
        ensures db'.deliveries[a.ids[k]] == Delivery(a.emailId, matched[k].name, Pending, 0, "", "", 0)
        ensures db'.queue[a.ids[k]]
             == QueueRow(a.batch, a.emailId, Encoded(TakeSnapshot(matched[k], retry, a.payload(matched[k]))), a.queuedAt)
      {
        PublishStores(stored, a.emailId, a.batch, jobs, a.queuedAt, k);
      }
      forall j, k | 0 <= j < k < |matched| ensures a.ids[j] != a.ids[k] {
        assert jobs[j].id != jobs[k].id;
      }
      if id !in a.ids[..|matched|] {
        forall k | 0 <= k < |jobs| ensures jobs[k].id != id { assert a.ids[..|matched|][k] == a.ids[k]; }
        PublishKeeps(stored, a.emailId, a.batch, jobs, a.queuedAt, id);
      }
    }
  }
}
