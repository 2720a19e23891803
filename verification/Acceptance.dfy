/** From the SMTP reply to the queue: what a session leaves in the tables is what steps of
    the queue system leave, so that all that holds for its runs holds for accepted mail. */
module Acceptance {
  import opened Models
  import opened Tables
  import opened Retry
  import opened QueueSystem
  import opened QueueInvariant
  import opened QueueSteps
  import opened QueueTheorems
  import opened QueueTermination
  import opened QueueDrain
  import opened QueueRetryTimes
  import opened QueueRefinement
  import opened QueueArrivals
  import opened RuleEngine
  import opened Ingest

  // ----- The current settings have been in force -----

  lemma SettingsStep(s: State, step: Step)
    requires Enabled(s, step) && s.retry in s.settings
    ensures Apply(s, step).retry in Apply(s, step).settings
  {
    if IsWorkerStep(step) {
      WorkerSettings(s, step);
    }
  }

  lemma WorkerSettings(s: State, step: Step)
    requires Enabled(s, step) && IsWorkerStep(step)
    ensures Apply(s, step).retry == s.retry && Apply(s, step).settings == s.settings
  {
    if IsQuiet(step) {
      var w, x := QuietStep(s, step);
    }
  }

  lemma {:induction false} SettingsRun(s: State, steps: seq<Step>)
    requires Valid(s, steps) && s.retry in s.settings
    ensures Run(s, steps).retry in Run(s, steps).settings
    decreases |steps|
  {
    if steps != [] {
      SettingsStep(s, steps[0]);
      SettingsRun(Apply(s, steps[0]), steps[1..]);
    }
  }

  /** Settings are not forgotten. */
  lemma {:induction false} SettingsGrow(s: State, steps: seq<Step>, retry: RetryConfig)
    requires Valid(s, steps) && retry in s.settings
    ensures retry in Run(s, steps).settings
    decreases |steps|
  {
    if steps != [] {
      if IsWorkerStep(steps[0]) {
        WorkerSettings(s, steps[0]);
      }
      SettingsGrow(Apply(s, steps[0]), steps[1..], retry);
    }
  }

  lemma CurrentSettings(s: State)
    requires Reachable(s)
    ensures s.retry in s.settings
  {
    var s0: State, steps: seq<Step> :| Init(s0) && Valid(s0, steps) && Run(s0, steps) == s;
    SettingsRun(s0, steps);
  }

  // ----- Runs -----

  lemma StaysReachable(s: State, steps: seq<Step>)
    requires Reachable(s) && Valid(s, steps)
    ensures Reachable(Run(s, steps))
  {
    var s0: State, before: seq<Step> :| Init(s0) && Valid(s0, before) && Run(s0, before) == s;
    RunAppend(s0, before, steps);
  }

  lemma OneStep(s: State, a: Step)
    requires Enabled(s, a)
    ensures Valid(s, [a]) && Run(s, [a]) == Apply(s, a)
  {
    assert [a][1..] == [];
  }

  ghost predicate Leads(s: State, steps: seq<Step>, s': State) {
    Valid(s, steps) && Run(s, steps) == s'
  }

  lemma LeadsOn(s: State, a: seq<Step>, s1: State, b: seq<Step>, s2: State)
    requires Leads(s, a, s1) && Leads(s1, b, s2)
    ensures Leads(s, a + b, s2)
  {
    RunAppend(s, a, b);
  }

  // ----- The steps of a session -----

  /** A session that stores its email at `start`, matches it at `matching`, reads the
      settings at `settling` and comes to its second transaction at `publishing`; any
      steps may fall between. */
  datatype Session = Session(
    start: State,
    toMatch: seq<Step>,
    matching: State,
    toSettings: seq<Step>,
    settling: State,
    toPublish: seq<Step>,
    publishing: State)

  function SaveOf(a: Arrival): Step {
    SaveEmail(a.emailId, a.now, Received)
  }

  ghost function Matched(x: Session, a: Arrival): seq<Rule> {
    Matching(x.matching.rules, a.hits)
  }

  /** The ids drawn are new, and the clock has not run out. */
  ghost predicate Drawn(s: State, a: Arrival) {
    && a.batch !in s.hist.batches && a.queuedAt < MAX_NANOS
    && (forall i :: 0 <= i < |a.ids| ==> a.ids[i] !in s.hist.original)
    && (forall i, j :: 0 <= i < j < |a.ids| ==> a.ids[i] != a.ids[j])
  }

  ghost predicate Happens(x: Session, a: Arrival) {
    && Reachable(x.start) && Leads(x.start, [SaveOf(a)] + x.toMatch, x.matching)
    && Leads(x.matching, x.toSettings, x.settling) && Leads(x.settling, x.toPublish, x.publishing)
    && Drawn(x.publishing, a) && |a.ids| >= |Matched(x, a)|
  }

  /** The session is handled: its second transaction leaves db'. */
  ghost predicate Handles(x: Session, a: Arrival, accepted: bool, db': Db) {
    Happens(x, a) && RoutingLeaves(x.publishing.db, Matched(x, a), x.settling.retry, a, accepted, db')
  }

  /** The rules that match, with their payloads and the ids drawn for them. */
  function MatchesOf(matched: seq<Rule>, a: Arrival): (r: seq<Match>)
    requires |a.ids| >= |matched|
    ensures |r| == |matched|
  {
    seq(|matched|, i requires 0 <= i < |matched| => Match(a.ids[i], matched[i], a.payload(matched[i])))
  }

  lemma SameJobs(matched: seq<Rule>, a: Arrival, retry: RetryConfig)
    requires |a.ids| >= |matched|
    ensures JobsFor(MatchesOf(matched, a), retry) == JobsOf(matched, a.ids, retry, a.payload)
  {
  }

  ghost function Publication(x: Session, a: Arrival): Step
    requires |a.ids| >= |Matched(x, a)|
  {
    Enqueue(a.emailId, a.batch, MatchesOf(Matched(x, a), a), x.settling.retry, a.queuedAt)
  }

  /** The second transaction as a step, if it has an effect. */
  ghost function LastOf(x: Session, a: Arrival, accepted: bool): seq<Step>
    requires |a.ids| >= |Matched(x, a)|
  {
    if Matched(x, a) == [] then (if a.dropFuse >= 1 then [Drop(a.emailId)] else [])
    else if accepted then [Publication(x, a)]
    else []
  }

  lemma PublishingReached(x: Session, a: Arrival)
    requires Happens(x, a)
    ensures Leads(x.start, [SaveOf(a)] + x.toMatch + x.toSettings + x.toPublish, x.publishing)
    ensures Reachable(x.publishing) && x.settling.retry in x.publishing.settings
  {
    StaysReachable(x.start, [SaveOf(a)] + x.toMatch);
    StaysReachable(x.matching, x.toSettings);
    CurrentSettings(x.settling);
    SettingsGrow(x.settling, x.toPublish, x.settling.retry);
    StaysReachable(x.settling, x.toPublish);
    LeadsOn(x.start, [SaveOf(a)] + x.toMatch, x.matching, x.toSettings, x.settling);
    LeadsOn(x.start, [SaveOf(a)] + x.toMatch + x.toSettings, x.settling, x.toPublish, x.publishing);
  }

  /** New ids fit into the tables exactly if the email is still there. */
  lemma FitsExactly(s: State, matched: seq<Rule>, a: Arrival, retry: RetryConfig)
    requires DomainsOk(s) && RowsOk(s) && Drawn(s, a) && matched != [] && |a.ids| >= |matched|
    ensures Insertable(s.db, a.emailId, JobsOf(matched, a.ids, retry, a.payload)) <==> a.emailId in s.db.emails
  {
    var jobs := JobsOf(matched, a.ids, retry, a.payload);
    assert forall i :: 0 <= i < |jobs| ==> jobs[i].id == a.ids[i];
  }

  lemma PublicationEnabled(x: Session, a: Arrival)
    requires Drawn(x.publishing, a) && |a.ids| >= |Matched(x, a)| && Matched(x, a) != []
    requires x.settling.retry in x.publishing.settings && a.emailId in x.publishing.db.emails
    ensures Enabled(x.publishing, Publication(x, a))
    ensures Apply(x.publishing, Publication(x, a)).db
         == Publish(x.publishing.db, a.emailId, a.batch, JobsOf(Matched(x, a), a.ids, x.settling.retry, a.payload), a.queuedAt)
  {
    var matches := MatchesOf(Matched(x, a), a);
    SameJobs(Matched(x, a), a, x.settling.retry);
    assert forall i :: 0 <= i < |matches| ==> matches[i].id == a.ids[i];
  }

  lemma LastStepLeaves(x: Session, a: Arrival, accepted: bool, db': Db)
    requires Handles(x, a, accepted, db') && Inv(x.publishing) && x.settling.retry in x.publishing.settings
    ensures Valid(x.publishing, LastOf(x, a, accepted)) && Run(x.publishing, LastOf(x, a, accepted)).db == db'
    ensures accepted <==> Matched(x, a) == [] || (a.emailId in x.publishing.db.emails && a.enqueueFuse >= 2 * |Matched(x, a)| + 2)
  {
    if Matched(x, a) == [] {
      if a.dropFuse >= 1 {
        OneStep(x.publishing, Drop(a.emailId));
      }
    } else {
      FitsExactly(x.publishing, Matched(x, a), a, x.settling.retry);
      if accepted {
        PublicationEnabled(x, a);
        OneStep(x.publishing, Publication(x, a));
      }
    }
  }

  /** What a handled session does are steps of the queue system, whatever falls between its
      two transactions; and it accepts exactly if no rule matched, or the email is still
      there at the second transaction and the database takes the batch. */
  lemma InterleavedIsSteps(x: Session, a: Arrival, accepted: bool, db': Db)
    requires Handles(x, a, accepted, db')
    ensures var steps := [SaveOf(a)] + x.toMatch + x.toSettings + x.toPublish + LastOf(x, a, accepted);
      Valid(x.start, steps) && Run(x.start, steps).db == db'
    ensures accepted <==> Matched(x, a) == [] || (a.emailId in x.publishing.db.emails && a.enqueueFuse >= 2 * |Matched(x, a)| + 2)
  {
    PublishingReached(x, a);
    ReachableInv(x.publishing);
    LastStepLeaves(x, a, accepted, db');
    LeadsOn(x.start, [SaveOf(a)] + x.toMatch + x.toSettings + x.toPublish, x.publishing,
            LastOf(x, a, accepted), Run(x.publishing, LastOf(x, a, accepted)));
  }

  // ----- Only a deletion comes in between -----

  /** Steps that may delete emails. */
  predicate Deletes(step: Step) {
    step.DeleteEmail? || step.DeleteAll? || step.Cleanup?
  }

  lemma EmailStays(s: State, step: Step, e: EmailId)
    requires Enabled(s, step) && !Deletes(step) && e in s.db.emails
    ensures e in Apply(s, step).db.emails
  {
    if step.Enqueue? {
      InsertAllEmails(s.db, step.e, step.batch, JobsFor(step.matched, step.retry), step.now);
    } else if IsWorkerStep(step) {
      WorkerEmails(s, step, e);
    }
  }

  lemma WorkerEmails(s: State, step: Step, e: EmailId)
    requires Enabled(s, step) && IsWorkerStep(step) && e in s.db.emails
    ensures e in Apply(s, step).db.emails
  {
    if IsQuiet(step) {
      var w, x := QuietStep(s, step);
    }
  }

  lemma {:induction false} EmailStaysRun(s: State, steps: seq<Step>, e: EmailId)
    requires Valid(s, steps) && e in s.db.emails && forall i :: 0 <= i < |steps| ==> !Deletes(steps[i])
    ensures e in Run(s, steps).db.emails
    decreases |steps|
  {
    if steps != [] {
      EmailStays(s, steps[0], e);
      EmailStaysRun(Apply(s, steps[0]), steps[1..], e);
    }
  }

  /** Without a deletion in between, a session is turned away for want of the database alone. */
  lemma OnlyDeletionsIntervene(x: Session, a: Arrival, accepted: bool, db': Db)
    requires Handles(x, a, accepted, db') && Matched(x, a) != []
    requires var between := x.toMatch + x.toSettings + x.toPublish;
      forall i :: 0 <= i < |between| ==> !Deletes(between[i])
    ensures accepted <==> a.enqueueFuse >= 2 * |Matched(x, a)| + 2
  {
    InterleavedIsSteps(x, a, accepted, db');
    StillStored(x, a);
  }

  lemma StillStored(x: Session, a: Arrival)
    requires Happens(x, a)
    requires var between := x.toMatch + x.toSettings + x.toPublish;
      forall i :: 0 <= i < |between| ==> !Deletes(between[i])
    ensures a.emailId in x.publishing.db.emails
  {
    PublishingReached(x, a);
    GroupGaps([SaveOf(a)], x.toMatch, x.toSettings, x.toPublish);
    StoredStays(x.start, a, x.toMatch + x.toSettings + x.toPublish, x.publishing);
  }

  lemma GroupGaps(a: seq<Step>, b: seq<Step>, c: seq<Step>, d: seq<Step>)
    ensures a + b + c + d == a + (b + c + d)
  {
  }

  lemma StoredStays(s: State, a: Arrival, between: seq<Step>, s': State)
    requires Leads(s, [SaveOf(a)] + between, s') && forall i :: 0 <= i < |between| ==> !Deletes(between[i])
    ensures a.emailId in s'.db.emails
  {
    RunCons(s, SaveOf(a), between);
    EmailStaysRun(Apply(s, SaveOf(a)), between, a.emailId);
  }

  // ----- A session that nobody interrupts -----

  ghost function Alone(s: State, a: Arrival): Session
    requires a.emailId !in s.hist.saved
  {
    var s1 := Apply(s, SaveOf(a));
    Session(s, [], s1, [], s1, [], s1)
  }

  /** Its steps: none, the email alone, or the email and its drop or batch. */
  ghost function StepsOf(s: State, a: Arrival, reply: Reply): seq<Step>
    requires |a.ids| >= |s.rules| && a.emailId !in s.hist.saved
  {
    MatchingShorter(s.rules, a.hits);
    if a.denied.Some? then (if a.saveFuse >= 1 then [SaveEmail(a.emailId, a.now, Refused)] else [])
    else if !a.parses || a.saveFuse == 0 then []
    else [SaveOf(a)] + LastOf(Alone(s, a), a, reply == Accepted)
  }

  lemma UnstoredIsNew(s: State, e: EmailId)
    requires EmailsOk(s) && e !in s.hist.saved
    ensures e !in s.db.emails
  {
    assert e in s.db.emails ==> EmailOk(s, e);
  }

  /** What Data leaves behind in the tables is what these steps leave. */
  lemma SessionIsSteps(s: State, a: Arrival, reply: Reply, db': Db)
    requires Reachable(s) && |a.ids| >= |s.rules| && a.emailId !in s.hist.saved && Drawn(s, a)
    requires DataLeaves(s.db, s.rules, s.retry, a, reply, db')
    ensures Valid(s, StepsOf(s, a, reply)) && Run(s, StepsOf(s, a, reply)).db == db'
  {
    ReachableInv(s);
    UnstoredIsNew(s, a.emailId);
    if a.denied.Some? {
      OneStep(s, SaveEmail(a.emailId, a.now, Refused));
    } else if a.parses && a.saveFuse >= 1 {
      HandledIsSteps(s, a, reply == Accepted, db');
    }
  }

  lemma HandledIsSteps(s: State, a: Arrival, accepted: bool, db': Db)
    requires Reachable(s) && |a.ids| >= |s.rules| && a.emailId !in s.hist.saved && a.emailId !in s.db.emails && Drawn(s, a)
    requires a.saveFuse >= 1 && Leaves(s.db, s.rules, s.retry, a, accepted, db')
    ensures |a.ids| >= |Matched(Alone(s, a), a)|
    ensures var steps := [SaveOf(a)] + LastOf(Alone(s, a), a, accepted);
      Valid(s, steps) && Run(s, steps).db == db'
  {
    AloneHandles(s, a, accepted, db');
    InterleavedIsSteps(Alone(s, a), a, accepted, db');
    var x, last := Alone(s, a), LastOf(Alone(s, a), a, accepted);
    assert [SaveOf(a)] + x.toMatch + x.toSettings + x.toPublish + last == [SaveOf(a)] + last;
  }

  lemma AloneHandles(s: State, a: Arrival, accepted: bool, db': Db)
    requires Reachable(s) && |a.ids| >= |s.rules| && a.emailId !in s.hist.saved && a.emailId !in s.db.emails && Drawn(s, a)
    requires a.saveFuse >= 1 && Leaves(s.db, s.rules, s.retry, a, accepted, db')
    ensures Handles(Alone(s, a), a, accepted, db')
  {
    MatchingShorter(s.rules, a.hits);
    OneStep(s, SaveOf(a));
    assert [SaveOf(a)] + [] == [SaveOf(a)];
  }

  // ----- What becomes of accepted mail -----

  /** The delivery is final, or still has its email, its row and the request resolved at
      acceptance, or was deleted; unfinished, only by hand. */
  ghost predicate Accounted(s: State, id: DeliveryId, snap: Snapshot) {
    && id in s.hist.original && s.hist.original[id] == snap
    && if id in s.db.deliveries
       then && id in s.db.queue && s.db.deliveries[id].emailId in s.db.emails
            && (Unfinished(s.db.deliveries[id].status) <==> s.db.queue[id].snapshot == Encoded(snap))
       else id in s.hist.gone && (s.hist.gone[id].manual || !Unfinished(s.hist.gone[id].status))
  }

  lemma PublishedIsKnown(s: State, e: EmailId, batch: BatchId, matched: seq<Match>, retry: RetryConfig, now: Time,
                         more: seq<Step>, k: nat)
    requires Reachable(s) && Enabled(s, Enqueue(e, batch, matched, retry, now)) && k < |matched|
    requires Valid(Apply(s, Enqueue(e, batch, matched, retry, now)), more)
    ensures Accounted(Run(Apply(s, Enqueue(e, batch, matched, retry, now)), more), matched[k].id,
                      TakeSnapshot(matched[k].rule, retry, matched[k].payload))
  {
    var enqueue := Enqueue(e, batch, matched, retry, now);
    OneStep(s, enqueue);
    StaysReachable(s, [enqueue]);
    EnqueueRecords(s, e, batch, matched, retry, now, k);
    ReachableInv(Apply(s, enqueue));
    OriginalRun(Apply(s, enqueue), more, matched[k].id);
    StaysReachable(Apply(s, enqueue), more);
    NoLostDelivery(Run(Apply(s, enqueue), more), matched[k].id);
  }

  /** The publication of an accepted session, when some rule matched. */
  lemma AcceptedPublishes(x: Session, a: Arrival, db': Db)
    requires Handles(x, a, true, db') && Matched(x, a) != []
    ensures Reachable(x.publishing) && Enabled(x.publishing, Publication(x, a)) && Apply(x.publishing, Publication(x, a)).db == db'
  {
    PublishingReached(x, a);
    ReachableInv(x.publishing);
    FitsExactly(x.publishing, Matched(x, a), a, x.settling.retry);
    PublicationEnabled(x, a);
  }

  /** Accepted mail is not lost. After 250, in every continuation, with crashes, restarts,
      retention and replays, there is for each rule that matched a delivery with the
      request resolved at acceptance, final or unfinished, until it is deleted. */
  lemma AcceptedIsAccounted(x: Session, a: Arrival, db': Db, more: seq<Step>, k: nat)
    requires Handles(x, a, true, db') && k < |Matched(x, a)|
    requires Valid(x.publishing, [Publication(x, a)] + more)
    ensures var rule := Matched(x, a)[k];
      Accounted(Run(x.publishing, [Publication(x, a)] + more), a.ids[k], TakeSnapshot(rule, x.settling.retry, a.payload(rule)))
  {
    AcceptedPublishes(x, a, db');
    RunCons(x.publishing, Publication(x, a), more);
    PublishedIsKnown(x.publishing, a.emailId, a.batch, MatchesOf(Matched(x, a), a), x.settling.retry, a.queuedAt, more, k);
  }

  /** The row is final, with result, requests and waits as given. */
  ghost predicate DoneAs(s: State, id: DeliveryId, arrived: seq<Taken>, d: Dispatched) {
    && id in s.db.deliveries && !Unfinished(s.db.deliveries[id].status)
    && RowResult(s.db.deliveries[id]) == d.result && SentFor(s.hist.log, id) == d.sends && Delays(arrived) == d.waits
  }

  lemma QuietlyFinal(s: State, step: Step, more: seq<Step>, id: DeliveryId)
    requires Reachable(s) && Valid(s, [step] + more) && Enabled(s, step) && RunsOut(Apply(s, step), more)
    requires id in Apply(s, step).hist.original && id in Apply(s, step).hist.lost && Apply(s, step).hist.lost[id] == 0
    requires id in Run(Apply(s, step), more).db.deliveries
    ensures var s2 := Run(Apply(s, step), more);
      && !Unfinished(s2.db.deliveries[id].status) && !Held(s2.workers, id) && id in s2.hist.lost && s2.hist.lost[id] == 0
  {
    OneStep(s, step);
    StaysReachable(s, [step]);
    ReachableInv(Apply(s, step));
    EverySchedule(Apply(s, step), more);
    NothingLost(Apply(s, step), more, id);
    RunKeeps(Apply(s, step), more);
    FinalIsIdle(Run(Apply(s, step), more), id);
  }

  lemma NoneLostYet(s: State, e: EmailId, batch: BatchId, matched: seq<Match>, retry: RetryConfig, now: Time, k: nat)
    requires Enabled(s, Enqueue(e, batch, matched, retry, now)) && k < |matched|
    ensures var h := Apply(s, Enqueue(e, batch, matched, retry, now)).hist;
      matched[k].id in h.original && matched[k].id in h.lost && h.lost[matched[k].id] == 0
  {
    RecordStores(s.hist.original, s.hist.lost, JobsFor(matched, retry), k);
  }

  /** All outcomes of the schedule are recorded. */
  lemma PublishedQuietly(s: State, e: EmailId, batch: BatchId, matched: seq<Match>, retry: RetryConfig, now: Time,
                         more: seq<Step>, k: nat)
    requires Reachable(s) && Valid(s, [Enqueue(e, batch, matched, retry, now)] + more) && k < |matched|
    requires Enabled(s, Enqueue(e, batch, matched, retry, now)) && RunsOut(Apply(s, Enqueue(e, batch, matched, retry, now)), more)
    requires matched[k].id in Run(s, [Enqueue(e, batch, matched, retry, now)] + more).db.deliveries
    ensures var all, id := [Enqueue(e, batch, matched, retry, now)] + more, matched[k].id;
      && !Unfinished(Run(s, all).db.deliveries[id].status) && id in Run(s, all).hist.lost && Run(s, all).hist.lost[id] == 0
      && RecordedOutcomes(s, all, id) == ArrivedOutcomes(s, all, id)
  {
    var enqueue, id := Enqueue(e, batch, matched, retry, now), matched[k].id;
    RunCons(s, enqueue, more);
    NoneLostYet(s, e, batch, matched, retry, now, k);
    QuietlyFinal(s, enqueue, more, id);
    NothingLostAllRecorded(s, e, batch, matched, retry, now, more, k);
  }

  lemma RefinedIsDone(s: State, id: DeliveryId, outs: seq<Taken>, req: Outgoing, full: Dispatched)
    requires Refines(s, id, outs, req, full) && s.hist.lost[id] == 0
    requires id in s.db.deliveries && !Unfinished(s.db.deliveries[id].status)
    ensures DoneAs(s, id, outs, full)
  {
    assert full.sends[..|outs|] + Repeat(req, 0) == full.sends[..|outs|];
  }

  /** A batch published in any reachable state gets done: over an undisturbed schedule
      that goes on until no worker has anything useful to do, which comes after at most
      Left steps, a delivery of it ends as dispatchOne would end for the outcomes it was
      given, unless it was deleted. */
  lemma PublishedGetsDone(s: State, e: EmailId, batch: BatchId, matched: seq<Match>, retry: RetryConfig, now: Time,
                          more: seq<Step>, k: nat, outcomes: nat -> Outcome, waits: nat -> Duration)
    requires Reachable(s) && Valid(s, [Enqueue(e, batch, matched, retry, now)] + more) && k < |matched|
    requires Enabled(s, Enqueue(e, batch, matched, retry, now)) && RunsOut(Apply(s, Enqueue(e, batch, matched, retry, now)), more)
    requires SecretStands(s.rules, matched[k].rule) && KeepsSecret(more, matched[k].rule)
    requires matched[k].payload.Broken? ==> matched[k].payload.reason != ""
    requires matched[k].payload.Broken? || Effective(matched[k].rule.webhook, retry).maxRetries >= 0
    requires Streams(ArrivedOutcomes(s, [Enqueue(e, batch, matched, retry, now)] + more, matched[k].id), outcomes, waits)
    requires matched[k].id in Run(s, [Enqueue(e, batch, matched, retry, now)] + more).db.deliveries
    ensures var all := [Enqueue(e, batch, matched, retry, now)] + more;
      DoneAs(Run(s, all), matched[k].id, ArrivedOutcomes(s, all, matched[k].id),
             Undisturbed(matched[k].rule, retry, matched[k].payload, outcomes, waits))
  {
    var all, id := [Enqueue(e, batch, matched, retry, now)] + more, matched[k].id;
    PublishedQuietly(s, e, batch, matched, retry, now, more, k);
    RunRefinesDispatch(s, e, batch, matched, retry, now, more, k, outcomes, waits);
    RefinedIsDone(Run(s, all), id, RecordedOutcomes(s, all, id),
                  Request(TakeSnapshot(matched[k].rule, retry, matched[k].payload), matched[k].rule.webhook.signingSecret),
                  Undisturbed(matched[k].rule, retry, matched[k].payload, outcomes, waits));
  }

  /** Such a schedule exists from every state with working workers, and without deleting
      anything, so that every delivery of the batch is there to be done. */
  lemma PublishedCanGetDone(s: State, e: EmailId, batch: BatchId, matched: seq<Match>, retry: RetryConfig, now: Time)
    returns (more: seq<Step>)
    requires Reachable(s) && Staffed(s) && Enabled(s, Enqueue(e, batch, matched, retry, now))
    ensures RunsOut(Apply(s, Enqueue(e, batch, matched, retry, now)), more)
    ensures forall k :: 0 <= k < |matched| ==>
      matched[k].id in Run(Apply(s, Enqueue(e, batch, matched, retry, now)), more).db.deliveries
  {
    var s1 := Apply(s, Enqueue(e, batch, matched, retry, now));
    PublishedWorks(s, e, batch, matched, retry, now);
    PublishedRows(s, e, batch, matched, retry, now);
    more := RunsOutExists(s1);
    RowsStay(s1, more);
  }

  lemma PublishedWorks(s: State, e: EmailId, batch: BatchId, matched: seq<Match>, retry: RetryConfig, now: Time)
    requires Reachable(s) && Staffed(s) && Enabled(s, Enqueue(e, batch, matched, retry, now))
    ensures Working(Apply(s, Enqueue(e, batch, matched, retry, now)))
  {
    ReachableInv(s);
    StepKeeps(s, Enqueue(e, batch, matched, retry, now));
  }

  lemma PublishedRows(s: State, e: EmailId, batch: BatchId, matched: seq<Match>, retry: RetryConfig, now: Time)
    requires Enabled(s, Enqueue(e, batch, matched, retry, now))
    ensures forall k :: 0 <= k < |matched| ==>
      matched[k].id in Apply(s, Enqueue(e, batch, matched, retry, now)).db.deliveries
  {
    forall k | 0 <= k < |matched| ensures matched[k].id in DoEnqueue(s, e, batch, matched, retry, now).db.deliveries {
      PublishStores(s.db, e, batch, JobsFor(matched, retry), now, k);
    }
  }

  lemma {:induction false} RowsStay(s: State, steps: seq<Step>)
    requires Valid(s, steps) && forall i :: 0 <= i < |steps| ==> IsWorkerStep(steps[i])
    ensures Run(s, steps).db.deliveries.Keys == s.db.deliveries.Keys
    decreases |steps|
  {
    if steps != [] {
      WorkerKeepsRows(s, steps[0]);
      RowsStay(Apply(s, steps[0]), steps[1..]);
    }
  }

  lemma WorkerKeepsRows(s: State, step: Step)
    requires Enabled(s, step) && IsWorkerStep(step)
    ensures Apply(s, step).db.deliveries.Keys == s.db.deliveries.Keys
  {
    if IsQuiet(step) {
      var w, x := QuietStep(s, step);
    }
  }

  /** Accepted mail gets done. After 250, over an undisturbed schedule that goes on until
      it runs out, each rule that matched has had the requests, the waits and the result
      of dispatchOne for the outcomes given, unless the email was deleted. */
  lemma AcceptedGetsDone(x: Session, a: Arrival, db': Db, more: seq<Step>, k: nat, outcomes: nat -> Outcome, waits: nat -> Duration)
    requires Handles(x, a, true, db') && k < |Matched(x, a)|
    requires Valid(x.publishing, [Publication(x, a)] + more) && Enabled(x.publishing, Publication(x, a))
    requires RunsOut(Apply(x.publishing, Publication(x, a)), more)
    requires var rule := Matched(x, a)[k];
      && SecretStands(x.publishing.rules, rule) && KeepsSecret(more, rule)
      && if a.payload(rule).Broken? then a.payload(rule).reason != "" else Effective(rule.webhook, x.settling.retry).maxRetries >= 0
    requires Streams(ArrivedOutcomes(x.publishing, [Publication(x, a)] + more, a.ids[k]), outcomes, waits)
    requires a.ids[k] in Run(x.publishing, [Publication(x, a)] + more).db.deliveries
    ensures var all, rule := [Publication(x, a)] + more, Matched(x, a)[k];
      DoneAs(Run(x.publishing, all), a.ids[k], ArrivedOutcomes(x.publishing, all, a.ids[k]),
             Undisturbed(rule, x.settling.retry, a.payload(rule), outcomes, waits))
  {
    PublishingReached(x, a);
    PublishedGetsDone(x.publishing, a.emailId, a.batch, MatchesOf(Matched(x, a), a), x.settling.retry, a.queuedAt,
                      more, k, outcomes, waits);
  }
}
