/** Left alone, the queue drains: every schedule of worker steps comes to an end, at the
    end every delivery is final, and such a schedule exists from any start of the
    process, whatever the requests give. */
module QueueDrain {
  import opened Models
  import opened Backoff
  import opened Tables
  import opened Retry
  import opened QueueSystem
  import opened QueueInvariant
  import opened QueueSteps
  import opened QueueTheorems
  import opened QueueProgress
  import opened QueueTermination

  // ----- A measure that every useful step lowers -----

  /** How far a worker is from its next claim. */
  function Phase(wk: Worker): nat {
    match wk
    case ToClaim => 0
    case Exited => 0
    case Top => 1
    case Saving(_, _, _, _) => 2
    case Releasing(_) => 2
    case Sending(_, _) => 3
    case Running(_) => 4
    case Claimed(_) => 5
  }

  ghost function Left(s: State): nat {
    6 * Work(s) + Sum(s.workers, Phase)
  }

  /** Any worker step but a look at the table that finds nothing. */
  predicate Useful(step: Step) {
    IsWorkerStep(step) && !step.ClaimNothing?
  }

  /** What a step does to the phases: a claim raises one, any other useful step lowers
      one, and a step of nobody leaves them or ends the process. */
  lemma PhaseMoves(s: State, step: Step)
    requires Enabled(s, step) && IsWorkerStep(step)
    ensures var s', w := Apply(s, step), Mover(step);
      && w < |s.workers| && s'.workers == s.workers[w := s'.workers[w]]
      && (step.Claim? ==> Phase(s'.workers[w]) == Phase(s.workers[w]) + 5)
      && (step.ClaimNothing? ==> Phase(s'.workers[w]) == Phase(s.workers[w]) + 1)
      && (Useful(step) && !step.Claim? && !s.stop ==> Phase(s'.workers[w]) < Phase(s.workers[w]))
  {
    if IsQuiet(step) {
      var w, x := QuietStep(s, step);
    }
  }

  lemma CalmIdle(s: State, step: Step)
    requires Enabled(s, step) && CalmStep(step) && !s.stop && !IsWorkerStep(step)
    ensures Apply(s, step).workers == s.workers
  {
  }

  /** Every useful step lowers what is left; an idle look adds one, and no step of
      others raises it. */
  lemma LeftFalls(s: State, step: Step)
    requires Inv(s) && Enabled(s, step) && CalmStep(step) && Calm(s)
    ensures Left(Apply(s, step)) + (if Useful(step) then 1 else 0) <= Left(s) + (if step.ClaimNothing? then 1 else 0)
  {
    WorkFalls(s, step);
    if IsWorkerStep(step) {
      PhaseMoves(s, step);
      SumAfterMove(s.workers, Mover(step), Apply(s, step).workers[Mover(step)], Phase);
    } else {
      CalmIdle(s, step);
    }
  }

  // ----- Every schedule ends -----

  /** No new work and no disturbance. */
  ghost predicate Schedule(steps: seq<Step>) {
    forall i :: 0 <= i < |steps| ==> CalmStep(steps[i])
  }

  function CountUseful(steps: seq<Step>): nat {
    if steps == [] then 0 else (if Useful(steps[0]) then 1 else 0) + CountUseful(steps[1..])
  }

  function CountIdle(steps: seq<Step>): nat {
    if steps == [] then 0 else (if steps[0].ClaimNothing? then 1 else 0) + CountIdle(steps[1..])
  }

  lemma {:induction false} LeftRun(s: State, steps: seq<Step>)
    requires Inv(s) && Calm(s) && Valid(s, steps) && Schedule(steps)
    ensures CountUseful(steps) + Left(Run(s, steps)) <= Left(s) + CountIdle(steps)
    ensures Inv(Run(s, steps)) && Calm(Run(s, steps))
    decreases |steps|
  {
    if steps != [] {
      LeftFalls(s, steps[0]);
      StepKeeps(s, steps[0]);
      CalmStays(s, steps[0]);
      ScheduleRest(steps);
      LeftRun(Apply(s, steps[0]), steps[1..]);
    }
  }

  lemma ScheduleRest(steps: seq<Step>)
    requires steps != [] && Schedule(steps)
    ensures CalmStep(steps[0]) && Schedule(steps[1..])
  {
  }

  /** No delivery is unfinished. */
  ghost predicate AllFinal(s: State) {
    forall id :: id in s.db.deliveries ==> !Unfinished(s.db.deliveries[id].status)
  }

  lemma Weighs(s: State, id: DeliveryId)
    requires id in s.hist.original && RowOk(s, id) && id in s.db.deliveries && Unfinished(s.db.deliveries[id].status)
    ensures id in Weights(s) && Weights(s)[id] >= 2
  {
  }

  lemma UnfinishedWeighs(s: State, id: DeliveryId)
    requires Inv(s) && id in s.db.deliveries && Unfinished(s.db.deliveries[id].status)
    ensures Work(s) > 0
  {
    assert RowOk(s, id);
    Weighs(s, id);
    TotalRemove(Weights(s), id);
  }

  // ----- A schedule that runs out has drained the queue -----

  /** The process is up, has workers, and nobody left a row behind. */
  ghost predicate Staffed(s: State) {
    s.up && s.workers != [] && Calm(s) && s.orphans == {}
  }

  ghost predicate Working(s: State) {
    Inv(s) && Staffed(s)
  }

  /** No worker has a step left but to look at the table in vain. */
  ghost predicate Stopped(s: State) {
    forall step :: Enabled(s, step) && CalmStep(step) ==> !Useful(step)
  }

  /** An undisturbed schedule of working workers that goes on until no useful step is left. */
  ghost predicate RunsOut(s: State, steps: seq<Step>) {
    Staffed(s) && Valid(s, steps) && Schedule(steps) && Stopped(Run(s, steps))
  }

  lemma StaffedStays(s: State, step: Step)
    requires Staffed(s) && Enabled(s, step) && CalmStep(step)
    ensures Staffed(Apply(s, step))
  {
    CalmStays(s, step);
    if IsWorkerStep(step) {
      PhaseMoves(s, step);
      StaysOn(s, step);
    } else {
      CalmIdle(s, step);
    }
  }

  lemma StaysOn(s: State, step: Step)
    requires s.up && s.orphans == {} && Calm(s) && Enabled(s, step) && CalmStep(step) && IsWorkerStep(step)
    ensures Apply(s, step).up && Apply(s, step).orphans == {}
  {
    if IsQuiet(step) {
      var w, x := QuietStep(s, step);
    }
  }

  lemma WorkingStays(s: State, step: Step)
    requires Working(s) && Enabled(s, step) && CalmStep(step)
    ensures Working(Apply(s, step))
  {
    StepKeeps(s, step);
    StaffedStays(s, step);
  }

  lemma {:induction false} WorkingRun(s: State, steps: seq<Step>)
    requires Working(s) && Valid(s, steps) && Schedule(steps)
    ensures Working(Run(s, steps))
    decreases |steps|
  {
    if steps != [] {
      WorkingStays(s, steps[0]);
      ScheduleRest(steps);
      WorkingRun(Apply(s, steps[0]), steps[1..]);
    }
  }

  /** A schedule can stop, for want of a useful step, only when nothing is unfinished. */
  lemma StopsOnlyDrained(s: State)
    requires Working(s) && Stopped(s)
    ensures AllFinal(s)
  {
    if id :| id in s.db.deliveries && Unfinished(s.db.deliveries[id].status) {
      var step := SomeStep(s, id, Answered(""));
    }
  }

  /** Every delivery becomes final in a bounded number of steps: a schedule of any length
      holds at most Left(s) useful steps, and one more for every idle look; and as long as
      something is unfinished there is another useful step, so that a schedule that has
      run out of them has drained the queue. Emails may be stored, dropped and deleted in
      between, and settings may change. */
  lemma EverySchedule(s: State, steps: seq<Step>)
    requires Reachable(s) && Calm(s) && Valid(s, steps) && Schedule(steps)
    ensures CountUseful(steps) <= Left(s) + CountIdle(steps)
    ensures RunsOut(s, steps) ==> AllFinal(Run(s, steps))
  {
    ReachableInv(s);
    LeftRun(s, steps);
    if RunsOut(s, steps) {
      WorkingRun(s, steps);
      StopsOnlyDrained(Run(s, steps));
    }
  }

  ghost predicate AreUseful(steps: seq<Step>) {
    forall i :: 0 <= i < |steps| ==> Useful(steps[i])
  }

  /** Every schedule of working workers can be carried on until it runs out. */
  lemma {:induction false} RunsOutExists(s: State) returns (steps: seq<Step>)
    requires Working(s)
    ensures RunsOut(s, steps) && AreUseful(steps)
    decreases Left(s)
  {
    var next := Lowers(s);
    if next.None? {
      StopsHere(s);
      steps := [];
    } else {
      var rest := RunsOutExists(Apply(s, next.value));
      GoesOn(s, next.value, rest);
      steps := [next.value] + rest;
    }
  }

  lemma StopsHere(s: State)
    requires Staffed(s) && Stopped(s)
    ensures RunsOut(s, []) && AreUseful([])
  {
  }

  /** A useful step, if there is any. */
  lemma Lowers(s: State) returns (next: Option<Step>)
    requires Working(s)
    ensures if next.None? then Stopped(s) else
      && Enabled(s, next.value) && CalmStep(next.value) && Useful(next.value)
      && Working(Apply(s, next.value)) && Left(Apply(s, next.value)) < Left(s)
  {
    if step :| Enabled(s, step) && CalmStep(step) && Useful(step) {
      LeftFalls(s, step);
      WorkingStays(s, step);
      next := Some(step);
    } else {
      next := None;
    }
  }

  lemma GoesOn(s: State, step: Step, rest: seq<Step>)
    requires Staffed(s) && Enabled(s, step) && CalmStep(step) && Useful(step) && RunsOut(Apply(s, step), rest) && AreUseful(rest)
    ensures RunsOut(s, [step] + rest) && AreUseful([step] + rest)
  {
    assert ([step] + rest)[1..] == rest;
  }

  // ----- The clock -----

  /** The clock of the steps starts at t or later and never goes back. */
  predicate Forward(steps: seq<Step>, t: Time)
    decreases |steps|
  {
    steps != [] ==>
      && (Moment(steps[0]).Some? ==> Moment(steps[0]).value >= t)
      && Forward(steps[1..], OrElse(Moment(steps[0]), t))
  }

  /** Everything unfinished is due by h, also what is about to be put back. */
  ghost predicate DueBy(s: State, h: Time) {
    && (forall id :: id in s.db.deliveries && id in s.db.queue && Unfinished(s.db.deliveries[id].status) ==>
          s.db.queue[id].due <= h)
    && (forall w :: 0 <= w < |s.workers| && s.workers[w].Saving? && s.workers[w].next.Some? ==>
          s.workers[w].next.value <= h)
  }

  /** No wait is longer than m; nor negative, if `signed`. */
  predicate WaitsWithin(retry: RetryConfig, m: Duration, signed: bool) {
    retry.maxWait <= m && (signed ==> retry.initialWait >= 0 && retry.maxWait >= 0)
  }

  /** So it is for every delivery that is unfinished or held. */
  ghost predicate WaitsUpTo(s: State, m: Duration, signed: bool) {
    && (forall id :: id in s.hist.original && id in s.db.deliveries && Unfinished(s.db.deliveries[id].status) ==>
          WaitsWithin(s.hist.original[id].retry, m, signed))
    && (forall w :: 0 <= w < |s.workers| && s.workers[w].HasJob() && s.workers[w].job.id in s.hist.original ==>
          WaitsWithin(s.hist.original[s.workers[w].job.id].retry, m, signed))
  }

  lemma DueRowLater(s: State, step: Step, s': State, id: DeliveryId, h: Time)
    requires id in s.hist.original && RowMoves(s, step, s', id) && RowOk(s, id) && RowOk(s', id)
    requires !step.Release? && DueBy(s, h)
    ensures id in s'.db.deliveries && id in s'.db.queue && Unfinished(s'.db.deliveries[id].status) ==>
      && id in s.db.deliveries && Unfinished(s.db.deliveries[id].status) && s'.db.queue[id].due <= h
  {
  }

  lemma UnfinishedStays(s: State, step: Step, h: Time, id: DeliveryId)
    requires Inv(s) && Enabled(s, step) && CalmStep(step) && !step.Release? && DueBy(s, h)
    requires id in s.hist.original
    requires id in Apply(s, step).db.deliveries && Unfinished(Apply(s, step).db.deliveries[id].status)
    ensures id in Apply(s, step).hist.original
    ensures Apply(s, step).hist.original[id] == s.hist.original[id]
    ensures id in s.db.deliveries && Unfinished(s.db.deliveries[id].status)
    ensures id in Apply(s, step).db.queue ==> Apply(s, step).db.queue[id].due <= h
  {
    StepKeeps(s, step);
    SameRecord(s, step);
    InvIsLocal(s, step, id);
    StepMoves(s, step, id);
    DueRowLater(s, step, Apply(s, step), id, h);
  }

  lemma NextLater(s: State, step: Step, h: Time, m: Duration, w: nat)
    requires Enabled(s, step) && IsWorkerStep(step) && DueBy(s, h) && m >= 0
    requires step.Complete? ==> step.now <= h && step.wait <= m
    requires w < |Apply(s, step).workers| && Apply(s, step).workers[w].Saving? && Apply(s, step).workers[w].next.Some?
    ensures Apply(s, step).workers[w].next.value <= h + m
  {
    MoverMoves(s, step);
    NextTurns(s, step, w);
  }

  lemma HeldWaits(s: State, step: Step, m: Duration, signed: bool, w: nat)
    requires Enabled(s, step) && IsWorkerStep(step) && WaitsUpTo(s, m, signed)
    requires Apply(s, step).hist.original == s.hist.original
    requires w < |Apply(s, step).workers| && Apply(s, step).workers[w].HasJob()
    ensures Apply(s, step).workers[w].job.id in s.hist.original ==>
      WaitsWithin(s.hist.original[Apply(s, step).workers[w].job.id].retry, m, signed)
  {
    HolderTurns(s, step, w, Apply(s, step).workers[w].job.id);
  }

  lemma NoRelease(s: State, step: Step)
    requires Calm(s) && Enabled(s, step)
    ensures !step.Release?
  {
    assert step.Release? ==> CalmWorker(s.workers[step.w]);
  }

  /** After a useful step at time h or before, everything is due at most one wait later. */
  lemma DueStays(s: State, step: Step, h: Time, m: Duration)
    requires Inv(s) && Calm(s) && Enabled(s, step) && CalmStep(step) && Useful(step) && DueBy(s, h) && m >= 0
    requires step.Complete? ==> step.now <= h && step.wait <= m
    ensures DueBy(Apply(s, step), h + m)
  {
    var s' := Apply(s, step);
    NoRelease(s, step);
    forall id | id in s'.db.deliveries && id in s'.db.queue && Unfinished(s'.db.deliveries[id].status)
      ensures s'.db.queue[id].due <= h + m
    {
      KnownRow(s, step, id);
      UnfinishedStays(s, step, h, id);
    }
    forall w | 0 <= w < |s'.workers| && s'.workers[w].Saving? && s'.workers[w].next.Some?
      ensures s'.workers[w].next.value <= h + m
    {
      NextLater(s, step, h, m, w);
    }
  }

  lemma KnownRow(s: State, step: Step, id: DeliveryId)
    requires Inv(s) && Enabled(s, step) && !step.Enqueue? && id in Apply(s, step).db.deliveries
    ensures id in s.hist.original
  {
    StepKeeps(s, step);
    SameRecord(s, step);
  }

  lemma WaitsStay(s: State, step: Step, h: Time, m: Duration, signed: bool)
    requires Inv(s) && Calm(s) && Enabled(s, step) && CalmStep(step) && Useful(step) && DueBy(s, h) && WaitsUpTo(s, m, signed)
    ensures WaitsUpTo(Apply(s, step), m, signed)
  {
    var s' := Apply(s, step);
    NoRelease(s, step);
    SameRecord(s, step);
    forall id | id in s'.hist.original && id in s'.db.deliveries && Unfinished(s'.db.deliveries[id].status)
      ensures WaitsWithin(s'.hist.original[id].retry, m, signed)
    {
      UnfinishedStays(s, step, h, id);
    }
    forall w | 0 <= w < |s'.workers| && s'.workers[w].HasJob() && s'.workers[w].job.id in s'.hist.original
      ensures WaitsWithin(s'.hist.original[s'.workers[w].job.id].retry, m, signed)
    {
      HeldWaits(s, step, m, signed, w);
    }
  }

  /** The k-th outcome, in the order in which requests end, is outcomes(k). */
  function Outcomes(steps: seq<Step>): seq<Outcome> {
    if steps == [] then []
    else (if steps[0].Complete? then [steps[0].outcome] else []) + Outcomes(steps[1..])
  }

  predicate Follows(os: seq<Outcome>, outcomes: nat -> Outcome, from: nat) {
    forall k :: 0 <= k < |os| ==> os[k] == outcomes(from + k)
  }

  lemma FollowsCons(o: Outcome, rest: seq<Outcome>, outcomes: nat -> Outcome, from: nat)
    requires o == outcomes(from) && Follows(rest, outcomes, from + 1)
    ensures Follows([o] + rest, outcomes, from)
  {
    forall k | 0 <= k < |[o] + rest| ensures ([o] + rest)[k] == outcomes(from + k) {
      if k > 0 {
        assert rest[k - 1] == outcomes(from + 1 + (k - 1));
      }
    }
  }

  // ----- One step of it -----

  lemma ClaimAt(s: State, r: DeliveryId, h: Time) returns (step: Step)
    requires DomainsOk(s) && RowsOk(s) && s.up && s.workers != [] && s.workers[0].ToClaim? && DueBy(s, h)
    requires r in s.db.deliveries && s.db.deliveries[r].status == Pending
    ensures Enabled(s, step) && step.Claim? && step.now == h
  {
    var ids := set x | x in s.db.queue && x in s.db.deliveries && s.db.deliveries[x].status == Pending;
    assert RowOk(s, r);
    assert r in ids;
    var id := OldestOf(s.db, ids);
    assert RowOk(s, id);
    step := Claim(0, id, h);
  }

  /** A request ends at time h. */
  lemma EndAt(s: State, w: nat, o: Outcome, h: Time, m: Duration, signed: bool) returns (step: Step)
    requires s.up && w < |s.workers| && s.workers[w].Sending? && WorkerOk(s, s.workers[w])
    requires s.workers[w].job.id in s.hist.original ==> WaitsWithin(s.hist.original[s.workers[w].job.id].retry, m, signed)
    requires m >= 0 && h + m < MAX_NANOS
    ensures Enabled(s, step) && AtTime(step, o, h, m, signed)
    ensures step.Complete?
  {
    var job := s.workers[w].job;
    step := Complete(w, o, h, SomeWait(job.snapshot.snap.retry, job.attempts + 1));
  }

  /** The step happens at time h, and a request that ends gives o and waits at most m. */
  predicate AtTime(step: Step, o: Outcome, h: Time, m: Duration, signed: bool) {
    && (Moment(step).Some? ==> Moment(step).value == h)
    && (step.Complete? ==> step.outcome == o && step.wait <= m && (signed ==> step.wait >= 0))
  }

  /** Worker w carries its job further at time h. */
  lemma MoveAt(s: State, w: nat, o: Outcome, h: Time, m: Duration, signed: bool) returns (step: Step)
    requires s.up && !s.stop && w < |s.workers| && !s.workers[w].ToClaim?
    requires CalmWorker(s.workers[w]) && WorkerOk(s, s.workers[w]) && WaitsUpTo(s, m, signed)
    requires m >= 0 && h + m < MAX_NANOS
    ensures Enabled(s, step) && CalmStep(step) && Useful(step) && AtTime(step, o, h, m, signed)
  {
    match s.workers[w]
    case Top => step := PassStop(w);
    case Claimed(_) => step := Proceed(w);
    case Running(_) => step := Begin(w);
    case Sending(_, _) => step := EndAt(s, w, o, h, m, signed);
    case Saving(_, _, _, _) => step := Save(w, true);
  }

  lemma HolderAt(s: State, r: DeliveryId, o: Outcome, h: Time, m: Duration, signed: bool) returns (step: Step)
    requires s.up && Calm(s) && WorkersOk(s) && Held(s.workers, r) && WaitsUpTo(s, m, signed) && m >= 0 && h + m < MAX_NANOS
    ensures Enabled(s, step) && CalmStep(step) && Useful(step) && AtTime(step, o, h, m, signed)
  {
    var w :| 0 <= w < |s.workers| && s.workers[w].Holds(r);
    assert CalmWorker(s.workers[w]) && WorkerOk(s, s.workers[w]);
    step := MoveAt(s, w, o, h, m, signed);
  }

  lemma PendingOrHeld(s: State, r: DeliveryId)
    requires DomainsOk(s) && RowsOk(s) && s.orphans == {} && r in s.db.deliveries && Unfinished(s.db.deliveries[r].status)
    ensures s.db.deliveries[r].status == Pending || Held(s.workers, r)
  {
    assert RowOk(s, r);
  }

  lemma FirstAt(s: State, o: Outcome, h: Time, m: Duration, signed: bool) returns (step: Step)
    requires s.up && s.workers != [] && !s.workers[0].ToClaim? && Calm(s) && WorkersOk(s)
    requires WaitsUpTo(s, m, signed) && m >= 0 && h + m < MAX_NANOS
    ensures Enabled(s, step) && CalmStep(step) && Useful(step) && AtTime(step, o, h, m, signed)
  {
    assert CalmWorker(s.workers[0]) && WorkerOk(s, s.workers[0]);
    step := MoveAt(s, 0, o, h, m, signed);
  }

  /** Someone can do something useful at time h. */
  lemma StepAt(s: State, r: DeliveryId, o: Outcome, h: Time, m: Duration, signed: bool) returns (step: Step)
    requires Working(s) && DueBy(s, h) && WaitsUpTo(s, m, signed) && m >= 0 && h + m < MAX_NANOS
    requires r in s.db.deliveries && Unfinished(s.db.deliveries[r].status)
    ensures Enabled(s, step) && CalmStep(step) && Useful(step) && AtTime(step, o, h, m, signed)
  {
    PendingOrHeld(s, r);
    if !s.workers[0].ToClaim? {
      step := FirstAt(s, o, h, m, signed);
    } else if s.db.deliveries[r].status == Pending {
      step := ClaimAt(s, r, h);
    } else {
      step := HolderAt(s, r, o, h, m, signed);
    }
  }

  /** At time h, with everything due and no wait above m. */
  ghost predicate OnTime(s: State, h: Time, m: Duration, signed: bool) {
    Working(s) && DueBy(s, h) && WaitsUpTo(s, m, signed) && m >= 0 && h + m * Left(s) < MAX_NANOS
  }

  lemma Distributes(m: nat, a: nat, c: nat)
    ensures m * (a + 1 + c) == m * a + m + m * c
  {
  }

  lemma NotNegative(m: nat, c: nat)
    ensures m * c >= 0
  {
  }

  lemma OneWait(m: nat, a: nat, b: nat)
    requires a < b
    ensures m + m * a <= m * b
  {
    var c := b - a - 1;
    assert b == a + 1 + c;
    Distributes(m, a, c);
    NotNegative(m, c);
  }

  lemma StillOnTime(s: State, step: Step, o: Outcome, h: Time, m: Duration, signed: bool)
    requires OnTime(s, h, m, signed) && Enabled(s, step) && CalmStep(step) && Useful(step) && AtTime(step, o, h, m, signed)
    ensures OnTime(Apply(s, step), h + m, m, signed) && Left(Apply(s, step)) < Left(s)
  {
    LeftFalls(s, step);
    WorkingStays(s, step);
    DueStays(s, step, h, m);
    WaitsStay(s, step, h, m, signed);
    OneWait(m, Left(Apply(s, step)), Left(s));
  }

  /** One useful step at time h, in which a request that ends gives o. */
  lemma UsefulStep(s: State, o: Outcome, h: Time, m: Duration, signed: bool) returns (step: Step)
    requires OnTime(s, h, m, signed) && !AllFinal(s)
    ensures Enabled(s, step) && CalmStep(step) && Useful(step) && AtTime(step, o, h, m, signed)
  {
    var id :| id in s.db.deliveries && Unfinished(s.db.deliveries[id].status);
    UnfinishedWeighs(s, id);
    OneWait(m, 0, Left(s));
    step := StepAt(s, id, o, h, m, signed);
  }

  /** These steps drain the queue, and the requests that end give these outcomes. */
  ghost predicate Drains(s: State, steps: seq<Step>, outcomes: nat -> Outcome, from: nat) {
    && Valid(s, steps) && AllFinal(Run(s, steps))
    && (forall i :: 0 <= i < |steps| ==> CalmStep(steps[i]) && Useful(steps[i]))
    && Follows(Outcomes(steps), outcomes, from)
  }

  /** The same, with what it leaves. */
  lemma NextAt(s: State, o: Outcome, t: Time, h: Time, m: Duration, signed: bool) returns (step: Step)
    requires OnTime(s, h, m, signed) && !AllFinal(s) && t <= h
    ensures Enabled(s, step) && CalmStep(step) && Useful(step)
    ensures OnTime(Apply(s, step), h + m, m, signed) && Left(Apply(s, step)) < Left(s)
    ensures step.Complete? ==> step.outcome == o && (signed ==> step.wait >= 0)
    ensures (Moment(step).Some? ==> Moment(step).value >= t) && OrElse(Moment(step), t) <= h + m
  {
    step := UsefulStep(s, o, h, m, signed);
    StillOnTime(s, step, o, h, m, signed);
  }

  /** It drains the queue with these outcomes on a clock that starts at t. */
  ghost predicate DrainsAt(s: State, steps: seq<Step>, outcomes: nat -> Outcome, from: nat, t: Time, signed: bool) {
    Drains(s, steps, outcomes, from) && Forward(steps, t) && (signed ==> Monotone(steps, t))
  }

  lemma {:induction false} DrainFrom(s: State, outcomes: nat -> Outcome, from: nat, t: Time, h: Time, m: Duration, signed: bool)
    returns (steps: seq<Step>)
    requires OnTime(s, h, m, signed) && t <= h
    ensures DrainsAt(s, steps, outcomes, from, t, signed)
    decreases Left(s)
  {
    if AllFinal(s) {
      steps := [];
      NothingToDrain(s, outcomes, from, t, signed);
    } else {
      var step := NextAt(s, outcomes(from), t, h, m, signed);
      var rest := DrainFrom(Apply(s, step), outcomes, if step.Complete? then from + 1 else from,
                            OrElse(Moment(step), t), h + m, m, signed);
      steps := [step] + rest;
      FirstAndRest(s, step, rest, outcomes, from, t, signed);
    }
  }

  lemma NothingToDrain(s: State, outcomes: nat -> Outcome, from: nat, t: Time, signed: bool)
    requires AllFinal(s)
    ensures DrainsAt(s, [], outcomes, from, t, signed)
  {
  }

  lemma FirstAndRest(s: State, step: Step, rest: seq<Step>, outcomes: nat -> Outcome, from: nat, t: Time, signed: bool)
    requires Enabled(s, step) && CalmStep(step) && Useful(step)
    requires step.Complete? ==> step.outcome == outcomes(from) && (signed ==> step.wait >= 0)
    requires Moment(step).Some? ==> Moment(step).value >= t
    requires DrainsAt(Apply(s, step), rest, outcomes, if step.Complete? then from + 1 else from, OrElse(Moment(step), t), signed)
    ensures DrainsAt(s, [step] + rest, outcomes, from, t, signed)
  {
    FirstThen(s, step, rest, outcomes, from);
    FirstTick(step, rest, t);
  }

  lemma FirstTick(step: Step, rest: seq<Step>, t: Time)
    requires (Moment(step).Some? ==> Moment(step).value >= t) && Forward(rest, OrElse(Moment(step), t))
    ensures Forward([step] + rest, t)
    ensures (step.Complete? ==> step.wait >= 0) && Monotone(rest, OrElse(Moment(step), t)) ==> Monotone([step] + rest, t)
  {
    assert ([step] + rest)[1..] == rest;
  }

  lemma FirstThen(s: State, step: Step, rest: seq<Step>, outcomes: nat -> Outcome, from: nat)
    requires Enabled(s, step) && CalmStep(step) && Useful(step) && (step.Complete? ==> step.outcome == outcomes(from))
    requires Drains(Apply(s, step), rest, outcomes, if step.Complete? then from + 1 else from)
    ensures Drains(s, [step] + rest, outcomes, from)
  {
    var steps := [step] + rest;
    assert steps[1..] == rest;
    if step.Complete? {
      FollowsCons(step.outcome, Outcomes(rest), outcomes, from);
    }
  }

  lemma {:induction false} AllUseful(steps: seq<Step>)
    requires forall i :: 0 <= i < |steps| ==> CalmStep(steps[i]) && Useful(steps[i])
    ensures Schedule(steps) && CountUseful(steps) == |steps| && CountIdle(steps) == 0
  {
    if steps != [] {
      AllUseful(steps[1..]);
    }
  }

  /** From any start of the process with at least one worker, the workers can drain the
      queue in at most Left steps, whatever outcomes their requests have, in order, on a
      clock that starts at t and never goes back: let everything unfinished be due by h,
      and no wait exceed m; the last attempt ends by h + m * Left, which the clock must
      reach. With waits that are not negative the run is one of those that NoEarlyClaim
      and NoEarlyRetry speak of. */
  lemma StartDrains(s: State, count: nat, outcomes: nat -> Outcome, t: Time, h: Time, m: Duration) returns (steps: seq<Step>)
    requires Reachable(s) && Enabled(s, Start(count))
    requires t <= h && m >= 0 && DueBy(s, h) && WaitsUpTo(s, m, false)
    requires h + m * Left(Apply(s, Start(count))) < MAX_NANOS
    ensures var s1 := Apply(s, Start(count));
      && Drains(s1, steps, outcomes, 0) && |steps| <= Left(s1) && Forward(steps, t)
      && (WaitsUpTo(s, m, true) ==> Monotone(steps, t))
  {
    var s1, signed := Apply(s, Start(count)), WaitsUpTo(s, m, true);
    ReachableInv(s);
    StepKeeps(s, Start(count));
    CalmAfterStart(s, count);
    StartOnTime(s, count, h, m, signed);
    steps := DrainFrom(s1, outcomes, 0, t, h, m, signed);
    AllUseful(steps);
    LeftRun(s1, steps);
  }

  lemma StartOnTime(s: State, count: nat, h: Time, m: Duration, signed: bool)
    requires DueBy(s, h) && WaitsUpTo(s, m, signed)
    ensures DueBy(DoStart(s, count), h) && WaitsUpTo(DoStart(s, count), m, signed)
  {
  }

  /** Such bounds always exist. */
  lemma BoundsExist(s: State) returns (h: Time, m: Duration)
    ensures m >= 0 && (s.workers == [] ==> DueBy(s, h) && WaitsUpTo(s, m, false))
  {
    h := LastDue(s.db.queue);
    m := LongestWait(s.hist.original);
  }

  lemma {:induction false} LastDue(queue: map<DeliveryId, QueueRow>) returns (h: Time)
    ensures forall id :: id in queue ==> queue[id].due <= h
    decreases |queue|
  {
    if queue == map[] {
      h := 0;
    } else {
      var id :| id in queue;
      var rest := LastDue(queue - {id});
      h := Max(rest, queue[id].due);
      assert forall x :: x in queue ==> x == id || x in queue - {id};
    }
  }

  lemma {:induction false} LongestWait(original: map<DeliveryId, Snapshot>) returns (m: Duration)
    ensures m >= 0 && forall id :: id in original ==> original[id].retry.maxWait <= m
    decreases |original|
  {
    if original == map[] {
      m := 0;
    } else {
      var id :| id in original;
      var rest := LongestWait(original - {id});
      m := Max(rest, original[id].retry.maxWait);
      assert forall x :: x in original ==> x == id || x in original - {id};
    }
  }
}
