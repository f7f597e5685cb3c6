/**
 The asynchronous worker pool of push/client/client.go as a transition system:
 a bounded job channel, anonymous workers, nil "poison pills" sent by SetWorkers
 to shrink the pool, HealthCheck callers that take an item out of the channel and
 put it back, and Close, which closes the channel and waits for the workers.

 A step is one channel operation, one atomic operation or one mutex section. A
 send on the closed channel panics (`panicked`), and nothing runs after that.
 */
module PushPool {
  import opened Runs

  type JobId = nat

  datatype Item = Job(id: JobId) | Pill

  /** SetWorkers holds the mutex from its first step to its last. */
  datatype Adjusting = Settled | Spawning(left: nat, goal: nat) | Pilling(left: nat, goal: nat)

  datatype Closing = NotClosed | Swapped | Waiting | Returned

  datatype Pool = Pool(
    cap: nat,                    // capacity of asyncCh
    queue: seq<Item>,            // what asyncCh holds
    closed: bool,                // asyncCh is closed
    running: bool,               // the running flag
    target: nat,                 // the workers field
    adjusting: Adjusting,        // the SetWorkers call that holds mu
    idle: nat,                   // workers blocked on asyncCh
    busy: multiset<JobId>,       // one entry for each worker in doPushWithRetry
    checking: nat,               // HealthCheck callers that have read running == true
    heldJobs: multiset<JobId>,   // jobs HealthCheck callers have taken out
    heldPills: nat,              // pills HealthCheck callers have taken out
    processed: nat,              // totalProcessed
    failed: nat,                 // failedCount
    closing: Closing,
    panicked: bool,
    accepted: seq<JobId>,        // history: jobs put on asyncCh by AsyncPush
    dispatched: seq<JobId>,      // history: jobs taken by workers
    executed: seq<JobId>,        // history: jobs sent by workers
    disturbed: bool)             // history: some HealthCheck has taken an item out
  {
    function Live(): nat { idle + |busy| }
  }

  datatype Step =
    | Enqueue(id: JobId)             // AsyncPushTimeout finds room
    | Take                           // a worker receives
    | TakeClosed                     // a worker finds the channel closed and empty
    | Finish(id: JobId, ok: bool)    // doPushWithRetry returns
    | SetWorkers(n: int)             // SetWorkers acquires mu
    | SpawnOne
    | SendPill
    | SetDone                        // workers = n, mu released
    | HealthBegin                    // HealthCheck reads running
    | HealthReceive                  // its select
    | PutBackJob(id: JobId)
    | PutBackPill
    | CloseSwap                      // running CAS true -> false
    | CloseChannel
    | CloseReturn                    // wg.Wait returns

  function JobsIn(q: seq<Item>): seq<JobId> {
    if q == [] then [] else (if q[0].Job? then [q[0].id] else []) + JobsIn(q[1..])
  }

  function PillsIn(q: seq<Item>): nat {
    if q == [] then 0 else (if q[0].Pill? then 1 else 0) + PillsIn(q[1..])
  }

  /** New starts every worker before it returns; both options ignore values below 1. */
  function Fresh(workers: nat, cap: nat): Pool
    requires workers >= 1 && cap >= 1
  {
    Pool(cap, [], false, true, workers, Settled, workers, multiset{}, 0, multiset{}, 0, 0, 0, NotClosed, false,
         [], [], [], false)
  }

  predicate Enabled(s: Pool, step: Step) {
    !s.panicked &&
    match step
    case Enqueue(_) => s.closed || |s.queue| < s.cap
    case Take => s.idle > 0 && s.queue != []
    case TakeClosed => s.idle > 0 && s.queue == [] && s.closed
    case Finish(id, _) => id in s.busy
    case SetWorkers(_) => s.adjusting.Settled?
    case SpawnOne => s.adjusting.Spawning? && s.adjusting.left > 0
    case SendPill => s.adjusting.Pilling? && s.adjusting.left > 0 && (s.closed || |s.queue| < s.cap)
    case SetDone => !s.adjusting.Settled? && s.adjusting.left == 0
    case HealthBegin => s.running
    case HealthReceive => s.checking > 0
    case PutBackJob(id) => id in s.heldJobs && (s.closed || |s.queue| < s.cap)
    case PutBackPill => s.heldPills > 0 && (s.closed || |s.queue| < s.cap)
    case CloseSwap => s.running
    case CloseChannel => s.closing == Swapped
    case CloseReturn => s.closing == Waiting && s.Live() == 0
  }

  predicate IsWorkerStep(step: Step) {
    step.Take? || step.TakeClosed? || step.Finish?
  }

  function Apply(s: Pool, step: Step): Pool
    requires Enabled(s, step)
  {
    match step
    case Enqueue(id) =>
      if s.closed then s.(panicked := true)
      else s.(queue := s.queue + [Job(id)], accepted := s.accepted + [id])
    case Take =>
      var rest := s.(queue := s.queue[1..], idle := s.idle - 1);
      if s.queue[0].Pill? then rest
      else rest.(busy := s.busy + multiset{s.queue[0].id}, dispatched := s.dispatched + [s.queue[0].id])
    case TakeClosed => s.(idle := s.idle - 1)
    case Finish(id, ok) =>
      s.(busy := s.busy - multiset{id}, idle := s.idle + 1, executed := s.executed + [id],
         processed := if ok then s.processed + 1 else s.processed,
         failed := if ok then s.failed else s.failed + 1)
    case SetWorkers(n) =>
      if n <= 0 || n == s.target then s
      else if n > s.target then s.(adjusting := Spawning(n - s.target, n))
      else s.(adjusting := Pilling(s.target - n, n))
    case SpawnOne => s.(idle := s.idle + 1, adjusting := Spawning(s.adjusting.left - 1, s.adjusting.goal))
    case SendPill =>
      if s.closed then s.(panicked := true)
      else s.(queue := s.queue + [Pill], adjusting := Pilling(s.adjusting.left - 1, s.adjusting.goal))
    case SetDone => s.(target := s.adjusting.goal, adjusting := Settled)
    case HealthBegin => s.(checking := s.checking + 1)
    case HealthReceive =>
      var t := s.(checking := s.checking - 1);
      if s.queue != [] then
        var u := t.(queue := s.queue[1..], disturbed := true);
        if s.queue[0].Pill? then u.(heldPills := s.heldPills + 1)
        else u.(heldJobs := s.heldJobs + multiset{s.queue[0].id})
      else if s.closed then t.(panicked := true)  // receives nil, then sends it on the closed channel
      else t
    case PutBackJob(id) =>
      if s.closed then s.(panicked := true)
      else s.(queue := s.queue + [Job(id)], heldJobs := s.heldJobs - multiset{id})
    case PutBackPill =>
      if s.closed then s.(panicked := true)
      else s.(queue := s.queue + [Pill], heldPills := s.heldPills - 1)
    case CloseSwap => s.(running := false, closing := Swapped)
    case CloseChannel => s.(closed := true, closing := Waiting)
    case CloseReturn => s.(closing := Returned)
  }

  const SYSTEM: System<Pool, Step> :=
    System(Enabled, (s, step) => if Enabled(s, step) then Apply(s, step) else s)

  // ---------------------------------------------------------------------
  // The invariant
  // ---------------------------------------------------------------------

  /** Pills sent and not yet received by a worker. */
  function Outstanding(s: Pool): nat {
    PillsIn(s.queue) + s.heldPills
  }

  /** The number of workers the pool will have once every outstanding pill has been taken. */
  function Base(s: Pool): int {
    match s.adjusting
    case Settled => s.target
    case Spawning(left, goal) => goal - left
    case Pilling(left, goal) => goal + left
  }

  ghost predicate Conserved(s: Pool) {
    multiset(s.accepted) == multiset(JobsIn(s.queue)) + (s.heldJobs + s.busy) + multiset(s.executed)
  }

  /** Live workers = base + outstanding pills, until the closed channel has run empty. */
  ghost predicate Balanced(s: Pool) {
    (s.closed && s.queue == []) || s.Live() == Base(s) + Outstanding(s)
  }

  /** Until some HealthCheck takes an item out, the channel is first in, first out. */
  ghost predicate Ordered(s: Pool) {
    !s.disturbed ==> s.heldJobs == multiset{} && s.heldPills == 0 && s.dispatched + JobsIn(s.queue) == s.accepted
  }

  ghost predicate Shape(s: Pool) {
    && s.cap >= 1 && |s.queue| <= s.cap
    && s.target >= 1 && Base(s) >= 1
    && (!s.adjusting.Settled? ==> s.adjusting.goal >= 1)
    && s.processed + s.failed == |s.executed|
    && (s.closed <==> s.closing == Waiting || s.closing == Returned)
    && (s.running <==> s.closing == NotClosed)
  }

  ghost predicate Inv(s: Pool) {
    && Shape(s) && Conserved(s) && Balanced(s) && Ordered(s)
    && (s.closing == Returned ==> s.queue == [] && s.busy == multiset{})
  }

  lemma {:induction false} JobsInAppend(q: seq<Item>, x: Item)
    ensures JobsIn(q + [x]) == JobsIn(q) + if x.Job? then [x.id] else []
    ensures PillsIn(q + [x]) == PillsIn(q) + if x.Pill? then 1 else 0
  {
    if q == [] {
      assert (q + [x])[1..] == [];
    } else {
      var first := if q[0].Job? then [q[0].id] else [];
      var last := if x.Job? then [x.id] else [];
      assert (q + [x])[0] == q[0] && (q + [x])[1..] == q[1..] + [x];
      JobsInAppend(q[1..], x);
      assert JobsIn(q + [x]) == first + (JobsIn(q[1..]) + last);
    }
  }

  lemma {:induction false} CountItems(q: seq<Item>)
    ensures |q| == |JobsIn(q)| + PillsIn(q)
  {
    if q == [] {
    } else {
      CountItems(q[1..]);
    }
  }

  lemma AcceptKeepsConservation(s: Pool, id: JobId)
    requires Conserved(s) && Enabled(s, Enqueue(id))
    ensures Conserved(Apply(s, Enqueue(id)))
  {
    JobsInAppend(s.queue, Job(id));
  }

  lemma PutBackKeepsConservation(s: Pool, id: JobId)
    requires Conserved(s) && Enabled(s, PutBackJob(id))
    ensures Conserved(Apply(s, PutBackJob(id)))
  {
    JobsInAppend(s.queue, Job(id));
  }

  lemma FinishKeepsConservation(s: Pool, id: JobId, ok: bool)
    requires Conserved(s) && Enabled(s, Finish(id, ok))
    ensures Conserved(Apply(s, Finish(id, ok)))
  {
    var t := Apply(s, Finish(id, ok));
    assert multiset(t.executed) == multiset(s.executed) + multiset{id};
  }

  lemma ReceiveKeepsConservation(s: Pool, step: Step)
    requires Conserved(s) && Enabled(s, step) && s.queue != [] && (step.Take? || step.HealthReceive?)
    ensures Conserved(Apply(s, step))
  {
    var t := Apply(s, step);
    var taken := if s.queue[0].Job? then [s.queue[0].id] else [];
    assert JobsIn(s.queue) == taken + JobsIn(t.queue);
  }

  ghost predicate SameJobs(s: Pool, t: Pool) {
    && t.queue == s.queue && t.heldJobs == s.heldJobs && t.heldPills == s.heldPills && t.busy == s.busy
    && t.accepted == s.accepted && t.dispatched == s.dispatched && t.executed == s.executed
    && t.disturbed == s.disturbed
  }

  predicate Receives(s: Pool, step: Step) {
    s.queue != [] && (step.Take? || step.HealthReceive?)
  }

  predicate Sends(step: Step) {
    step.Enqueue? || step.SendPill? || step.PutBackJob? || step.PutBackPill?
  }

  /** All other steps, and sends that panic, leave every job where it is. */
  lemma OtherStepsMoveNoJob(s: Pool, step: Step)
    requires Enabled(s, step) && !step.Finish? && !Receives(s, step) && (Sends(step) ==> s.closed)
    ensures SameJobs(s, Apply(s, step))
  {
    match step
    case TakeClosed =>
    case SetWorkers(n) =>
    case HealthReceive =>
    case SpawnOne =>
    case SetDone =>
    case _ =>
  }

  lemma PillKeepsConservation(s: Pool, step: Step)
    requires Conserved(s) && Enabled(s, step) && (step.SendPill? || step.PutBackPill?) && !s.closed
    ensures Conserved(Apply(s, step))
  {
    JobsInAppend(s.queue, Pill);
    assert JobsIn(s.queue) + [] == JobsIn(s.queue);
  }

  lemma StepKeepsConservation(s: Pool, step: Step)
    requires Conserved(s) && Enabled(s, step)
    ensures Conserved(Apply(s, step))
  {
    if step.Finish? {
      FinishKeepsConservation(s, step.id, step.ok);
    } else if Receives(s, step) {
      ReceiveKeepsConservation(s, step);
    } else if !Sends(step) || s.closed {
      OtherStepsMoveNoJob(s, step);
    } else if step.Enqueue? {
      AcceptKeepsConservation(s, step.id);
    } else if step.PutBackJob? {
      PutBackKeepsConservation(s, step.id);
    } else {
      PillKeepsConservation(s, step);
    }
  }

  lemma AppendKeepsBalance(s: Pool, step: Step)
    requires Balanced(s) && Enabled(s, step) && !s.closed && Sends(step)
    ensures Balanced(Apply(s, step))
  {
    JobsInAppend(s.queue, if step.Enqueue? || step.PutBackJob? then Job(step.id) else Pill);
  }

  lemma FinishKeepsBalance(s: Pool, step: Step)
    requires Balanced(s) && Enabled(s, step) && step.Finish?
    ensures Balanced(Apply(s, step))
  {
    assert |s.busy - multiset{step.id}| == |s.busy| - 1;
  }

  lemma TakeKeepsBalance(s: Pool)
    requires Balanced(s) && Enabled(s, Take)
    ensures Balanced(Apply(s, Take))
  {
    var t := Apply(s, Take);
    assert t.Live() == s.Live() - if s.queue[0].Pill? then 1 else 0;
  }

  lemma HealthReceiveKeepsBalance(s: Pool)
    requires Balanced(s) && Enabled(s, HealthReceive) && s.queue != []
    ensures Balanced(Apply(s, HealthReceive))
  {}

  lemma OtherKeepsBalance(s: Pool, step: Step)
    requires Balanced(s) && Enabled(s, step) && !IsWorkerStep(step) && !Receives(s, step) && (Sends(step) ==> s.closed)
    ensures Balanced(Apply(s, step))
  {
    OtherStepsMoveNoJob(s, step);
    OthersKeepNumbers(s, step);
  }

  lemma OthersKeepNumbers(s: Pool, step: Step)
    requires Enabled(s, step) && !IsWorkerStep(step) && !Receives(s, step) && (Sends(step) ==> s.closed)
    ensures var t := Apply(s, step);
      && t.Live() - Base(t) == s.Live() - Base(s)
      && (s.closed ==> t.closed) && (t.closed ==> s.closed || step.CloseChannel?)
  {
    match step
    case SetWorkers(n) =>
    case SpawnOne =>
    case SetDone =>
    case HealthReceive =>
    case CloseChannel =>
    case _ =>
  }

  lemma StepKeepsBalance(s: Pool, step: Step)
    requires Balanced(s) && Enabled(s, step)
    ensures Balanced(Apply(s, step))
  {
    if step.Finish? {
      FinishKeepsBalance(s, step);
    } else if step.TakeClosed? {
      assert Apply(s, step).queue == [] && Apply(s, step).closed;
    } else if step.Take? {
      TakeKeepsBalance(s);
    } else if Receives(s, step) {
      HealthReceiveKeepsBalance(s);
    } else if Sends(step) && !s.closed {
      AppendKeepsBalance(s, step);
    } else {
      OtherKeepsBalance(s, step);
    }
  }

  lemma TakeKeepsOrder(s: Pool)
    requires Ordered(s) && Enabled(s, Take) && !s.disturbed
    ensures Ordered(Apply(s, Take))
  {
    var t := Apply(s, Take);
    var taken := if s.queue[0].Job? then [s.queue[0].id] else [];
    assert JobsIn(s.queue) == taken + JobsIn(t.queue);
    assert s.dispatched + (taken + JobsIn(t.queue)) == s.dispatched + taken + JobsIn(t.queue);
    assert s.dispatched + [] == s.dispatched;
  }

  lemma AppendKeepsOrder(s: Pool, step: Step)
    requires Ordered(s) && Enabled(s, step) && !s.disturbed && Sends(step) && !s.closed
    ensures Ordered(Apply(s, step))
  {
    var x := if step.Enqueue? || step.PutBackJob? then Job(step.id) else Pill;
    JobsInAppend(s.queue, x);
    var more := if x.Job? then [x.id] else [];
    assert s.dispatched + (JobsIn(s.queue) + more) == s.dispatched + JobsIn(s.queue) + more;
    assert s.accepted + [] == s.accepted;
  }

  lemma DisturbedStays(s: Pool, step: Step)
    requires Enabled(s, step) && (s.disturbed || (step.HealthReceive? && s.queue != []))
    ensures Apply(s, step).disturbed
  {}

  lemma FinishKeepsOrder(s: Pool, step: Step)
    requires Ordered(s) && Enabled(s, step) && step.Finish?
    ensures Ordered(Apply(s, step))
  {}

  lemma StepKeepsOrder(s: Pool, step: Step)
    requires Ordered(s) && Enabled(s, step)
    ensures Ordered(Apply(s, step))
  {
    if s.disturbed || (step.HealthReceive? && s.queue != []) {
      DisturbedStays(s, step);
    } else if step.Take? {
      TakeKeepsOrder(s);
    } else if Sends(step) && !s.closed {
      AppendKeepsOrder(s, step);
    } else if step.Finish? {
      FinishKeepsOrder(s, step);
    } else {
      OtherStepsMoveNoJob(s, step);
    }
  }

  /** SetWorkers and Close change the shape; every other step changes at most the queue's length and the counters. */
  lemma SettingsStepKeepsShape(s: Pool, step: Step)
    requires Shape(s) && Enabled(s, step)
    requires || step.SetWorkers? || step.SpawnOne? || step.SetDone?
             || step.CloseSwap? || step.CloseChannel? || step.CloseReturn?
    ensures Shape(Apply(s, step))
  {}

  lemma SendKeepsShape(s: Pool, step: Step)
    requires Shape(s) && Enabled(s, step) && Sends(step)
    ensures Shape(Apply(s, step))
  {}

  lemma ReceiveKeepsShape(s: Pool, step: Step)
    requires Shape(s) && Enabled(s, step) && (IsWorkerStep(step) || step.HealthBegin? || step.HealthReceive?)
    ensures Shape(Apply(s, step))
  {}

  lemma StepKeepsShape(s: Pool, step: Step)
    requires Shape(s) && Enabled(s, step)
    ensures Shape(Apply(s, step))
  {
    if Sends(step) {
      SendKeepsShape(s, step);
    } else if IsWorkerStep(step) || step.HealthBegin? || step.HealthReceive? {
      ReceiveKeepsShape(s, step);
    } else {
      SettingsStepKeepsShape(s, step);
    }
  }

  lemma StepKeepsInv(s: Pool, step: Step)
    requires Inv(s) && Enabled(s, step)
    ensures Inv(Apply(s, step))
  {
    StepKeepsShape(s, step);
    StepKeepsConservation(s, step);
    StepKeepsBalance(s, step);
    StepKeepsOrder(s, step);
    StepKeepsDrained(s, step);
  }

  /** Once Close has returned, the channel stays empty and no worker holds a job. */
  lemma StepKeepsDrained(s: Pool, step: Step)
    requires Shape(s) && Balanced(s) && Enabled(s, step)
    requires s.closing == Returned ==> s.queue == [] && s.busy == multiset{}
    ensures var t := Apply(s, step); t.closing == Returned ==> t.queue == [] && t.busy == multiset{}
  {
    if step.CloseReturn? {
      assert s.Live() == 0;
      assert s.queue == [];
      assert |s.busy| == 0;
    }
  }

  lemma {:induction false} RunKeepsInv(s: Pool, steps: seq<Step>)
    requires Inv(s) && CanRun(SYSTEM, s, steps)
    ensures Inv(After(SYSTEM, s, steps))
    decreases |steps|
  {
    if steps == [] {
    } else {
      StepKeepsInv(s, steps[0]);
      RunKeepsInv(Apply(s, steps[0]), steps[1..]);
    }
  }

  // ---------------------------------------------------------------------
  // Safety over every run
  // ---------------------------------------------------------------------

  /**
   In every reachable state each accepted job is in exactly one place: queued,
   held by a HealthCheck caller, held by a worker, or sent; so the counters add up.
   */
  lemma JobsAreConserved(workers: nat, cap: nat, steps: seq<Step>)
    requires workers >= 1 && cap >= 1 && CanRun(SYSTEM, Fresh(workers, cap), steps)
    ensures var s := After(SYSTEM, Fresh(workers, cap), steps);
            && Conserved(s)
            && |s.accepted| == |s.queue| - PillsIn(s.queue) + |s.heldJobs| + |s.busy| + s.processed + s.failed
            && |s.queue| <= cap
  {
    RunKeepsInv(Fresh(workers, cap), steps);
    var s := After(SYSTEM, Fresh(workers, cap), steps);
    CountItems(s.queue);
    assert |multiset(s.accepted)| == |multiset(JobsIn(s.queue)) + s.heldJobs + s.busy + multiset(s.executed)|;
    CapIsFixed(Fresh(workers, cap), steps);
  }

  lemma {:induction false} CapIsFixed(s: Pool, steps: seq<Step>)
    requires CanRun(SYSTEM, s, steps)
    ensures After(SYSTEM, s, steps).cap == s.cap
    decreases |steps|
  {
    if steps == [] {
    } else {
      CapIsFixed(Apply(s, steps[0]), steps[1..]);
    }
  }

  function FinishedIn(steps: seq<Step>, ok: bool): nat {
    if steps == [] then 0
    else (if steps[0].Finish? && steps[0].ok == ok then 1 else 0) + FinishedIn(steps[1..], ok)
  }

  /** `processed` counts the jobs that were delivered, `failed` those that were not. */
  lemma {:induction false} CountersCount(s: Pool, steps: seq<Step>)
    requires CanRun(SYSTEM, s, steps)
    ensures After(SYSTEM, s, steps).processed == s.processed + FinishedIn(steps, true)
    ensures After(SYSTEM, s, steps).failed == s.failed + FinishedIn(steps, false)
    decreases |steps|
  {
    if steps == [] {
    } else {
      FinishCounts(s, steps[0]);
      CountersCount(Apply(s, steps[0]), steps[1..]);
    }
  }

  lemma FinishCounts(s: Pool, step: Step)
    requires Enabled(s, step)
    ensures Apply(s, step).processed == s.processed + (if step.Finish? && step.ok then 1 else 0)
    ensures Apply(s, step).failed == s.failed + (if step.Finish? && !step.ok then 1 else 0)
  {}

  /** Pills never outnumber the workers that could take them: a queued job keeps at least one worker. */
  lemma PillsNeverStrandAJob(workers: nat, cap: nat, steps: seq<Step>)
    requires workers >= 1 && cap >= 1 && CanRun(SYSTEM, Fresh(workers, cap), steps)
    ensures var s := After(SYSTEM, Fresh(workers, cap), steps);
            && (!s.closed || s.queue != [] ==> s.Live() == Base(s) + Outstanding(s) && s.Live() > Outstanding(s))
            && (s.adjusting.Settled? ==> Base(s) == s.target >= 1)
  {
    RunKeepsInv(Fresh(workers, cap), steps);
  }

  /** SetWorkers(n) is under way or over: what it does leads to n workers. */
  predicate AimsAt(s: Pool, n: int) {
    match s.adjusting
    case Settled => s.target == n
    case Spawning(_, goal) => goal == n
    case Pilling(_, goal) => goal == n
  }

  lemma StepKeepsAim(s: Pool, step: Step, n: int)
    requires AimsAt(s, n) && Enabled(s, step) && !step.SetWorkers?
    ensures AimsAt(Apply(s, step), n)
  {}

  lemma {:induction false} RunKeepsAim(s: Pool, steps: seq<Step>, n: int)
    requires AimsAt(s, n) && CanRun(SYSTEM, s, steps) && forall step | step in steps :: !step.SetWorkers?
    ensures AimsAt(After(SYSTEM, s, steps), n)
    decreases |steps|
  {
    if steps == [] {
    } else {
      assert steps[0] in steps && forall step | step in steps[1..] :: step in steps;
      StepKeepsAim(s, steps[0], n);
      RunKeepsAim(Apply(s, steps[0]), steps[1..], n);
    }
  }

  lemma AimedRun(s: Pool, n: int, steps: seq<Step>)
    requires Inv(s) && AimsAt(s, n) && CanRun(SYSTEM, s, steps) && forall step | step in steps :: !step.SetWorkers?
    ensures var t := After(SYSTEM, s, steps);
      t.adjusting.Settled? ==> t.target == n && (!t.closed || t.queue != [] ==> t.Live() == n + Outstanding(t))
  {
    RunKeepsAim(s, steps, n);
    RunKeepsInv(s, steps);
  }

  lemma SetWorkersAims(s: Pool, n: int)
    requires Enabled(s, SetWorkers(n))
    ensures n < 1 || n == s.target ==> Apply(s, SetWorkers(n)) == s
    ensures n >= 1 ==> AimsAt(Apply(s, SetWorkers(n)), n)
    ensures var t := Apply(s, SetWorkers(n)); t.closed == s.closed && t.panicked == s.panicked
  {}

  /**
   SetWorkers does what it is asked for: whenever it is over, the pool is set to n workers, and as many
   live as that and the pills still on their way make; for n < 1 and the present number nothing happens.
   */
  lemma SetWorkersSets(s: Pool, n: int, steps: seq<Step>)
    requires Inv(s) && Enabled(s, SetWorkers(n))
    requires CanRun(SYSTEM, Apply(s, SetWorkers(n)), steps) && forall step | step in steps :: !step.SetWorkers?
    ensures n < 1 || n == s.target ==> Apply(s, SetWorkers(n)) == s
    ensures var t := After(SYSTEM, Apply(s, SetWorkers(n)), steps);
      n >= 1 && t.adjusting.Settled? ==>
        && t.target == n
        && (!t.closed || t.queue != [] ==> t.Live() == n + Outstanding(t))
  {
    SetWorkersAims(s, n);
    StepKeepsInv(s, SetWorkers(n));
    if n >= 1 {
      AimedRun(Apply(s, SetWorkers(n)), n, steps);
    }
  }

  /** As long as no HealthCheck has taken an item out, workers receive the jobs in the order they were accepted. */
  lemma FirstInFirstOut(workers: nat, cap: nat, steps: seq<Step>)
    requires workers >= 1 && cap >= 1 && CanRun(SYSTEM, Fresh(workers, cap), steps)
    ensures var s := After(SYSTEM, Fresh(workers, cap), steps);
            !s.disturbed ==> s.dispatched <= s.accepted
  {
    RunKeepsInv(Fresh(workers, cap), steps);
  }

  /** When Close can return, what is missing is what HealthCheck callers hold. */
  lemma MissingIsHeld(s: Pool)
    requires Inv(s) && Enabled(s, CloseReturn)
    ensures multiset(s.executed) == multiset(s.accepted) <==> s.heldJobs == multiset{}
  {
    assert s.queue == [] && s.busy == multiset{};
    assert multiset(s.accepted) == s.heldJobs + multiset(s.executed);
    assert |multiset(s.accepted)| == |s.heldJobs| + |multiset(s.executed)|;
  }

  /**
   When wg.Wait returns in Close, the channel is empty and no worker holds a job;
   so every accepted job has been sent exactly once if and only if no HealthCheck
   caller is holding one.
   */
  lemma CloseDrains(workers: nat, cap: nat, steps: seq<Step>)
    requires workers >= 1 && cap >= 1 && CanRun(SYSTEM, Fresh(workers, cap), steps)
    requires Enabled(After(SYSTEM, Fresh(workers, cap), steps), CloseReturn)
    ensures var s := After(SYSTEM, Fresh(workers, cap), steps);
            && s.queue == [] && s.busy == multiset{}
            && (multiset(s.executed) == multiset(s.accepted) <==> s.heldJobs == multiset{})
  {
    RunKeepsInv(Fresh(workers, cap), steps);
    MissingIsHeld(After(SYSTEM, Fresh(workers, cap), steps));
  }

  // ---------------------------------------------------------------------
  // Callers that keep clear of Close
  // ---------------------------------------------------------------------

  /** No caller is inside HealthCheck, and no SetWorkers has a pill left to send (one may still start workers). */
  ghost predicate Quiet(s: Pool) {
    && !(s.adjusting.Pilling? && s.adjusting.left > 0)
    && s.checking == 0 && s.heldJobs == multiset{} && s.heldPills == 0
  }

  /** Close begins while the pool is quiet, and no AsyncPush or SetWorkers begins after it. */
  ghost predicate Disciplined(s: Pool, steps: seq<Step>)
    requires CanRun(SYSTEM, s, steps)
    decreases |steps|
  {
    steps == [] ||
    (&& (steps[0].CloseSwap? ==> Quiet(s))
     && (steps[0].Enqueue? || steps[0].SetWorkers? ==> s.running)
     && Disciplined(Apply(s, steps[0]), steps[1..]))
  }

  /** An AsyncPush finds room, or has to send the job itself, or panics on the closed channel. */
  lemma AsyncPushFinds(s: Pool, id: JobId)
    requires !s.panicked
    ensures s.closed ==> Enabled(s, Enqueue(id)) && Apply(s, Enqueue(id)).panicked
    ensures !s.closed ==> (Enabled(s, Enqueue(id)) <==> |s.queue| < s.cap)
    ensures !s.closed && |s.queue| < s.cap ==>
      Apply(s, Enqueue(id)).queue == s.queue + [Job(id)] && Apply(s, Enqueue(id)).accepted == s.accepted + [id]
  {}

  /** The only panics are sends on the closed channel. */
  lemma PanicIsSendAfterClose(s: Pool, step: Step)
    requires Enabled(s, step)
    ensures Apply(s, step).panicked <==>
      s.closed && (step.Enqueue? || step.SendPill? || step.PutBackJob? || step.PutBackPill?
                   || (step.HealthReceive? && s.queue == []))
  {}

  lemma DisciplinedStep(s: Pool, step: Step)
    requires Shape(s) && Enabled(s, step) && (!s.running ==> Quiet(s))
    requires (step.CloseSwap? ==> Quiet(s)) && (step.Enqueue? || step.SetWorkers? ==> s.running)
    ensures var t := Apply(s, step); !t.panicked && (!t.running ==> Quiet(t))
  {
    PanicIsSendAfterClose(s, step);
    if !s.running || step.CloseSwap? {
      assert !Receives(s, step) || step.Take?;
    } else {
      assert Apply(s, step).running;
    }
  }

  lemma {:induction false} DisciplinedStaysQuiet(s: Pool, steps: seq<Step>)
    requires Inv(s) && CanRun(SYSTEM, s, steps) && Disciplined(s, steps)
    requires !s.panicked && (!s.running ==> Quiet(s))
    ensures var t := After(SYSTEM, s, steps); !t.panicked && (!t.running ==> Quiet(t))
    decreases |steps|
  {
    if steps == [] {
    } else {
      StepKeepsInv(s, steps[0]);
      DisciplinedStep(s, steps[0]);
      DisciplinedStaysQuiet(Apply(s, steps[0]), steps[1..]);
    }
  }

  /** With disciplined callers nothing panics, and once Close has returned every accepted job was sent exactly once. */
  lemma DisciplinedCloseDrains(workers: nat, cap: nat, steps: seq<Step>)
    requires workers >= 1 && cap >= 1 && CanRun(SYSTEM, Fresh(workers, cap), steps)
    requires Disciplined(Fresh(workers, cap), steps)
    ensures var s := After(SYSTEM, Fresh(workers, cap), steps);
            && !s.panicked
            && (s.closing == Returned ==> s.queue == [] && multiset(s.executed) == multiset(s.accepted))
  {
    RunKeepsInv(Fresh(workers, cap), steps);
    DisciplinedStaysQuiet(Fresh(workers, cap), steps);
  }

  /** No AsyncPush and no SetWorkers begins. */
  predicate NoNewCall(steps: seq<Step>) {
    forall step | step in steps :: !step.Enqueue? && !step.SetWorkers?
  }

  /** Some continuation without new calls panics. */
  ghost predicate CanPanic(s: Pool) {
    exists steps :: CanRun(SYSTEM, s, steps) && NoNewCall(steps) && After(SYSTEM, s, steps).panicked
  }

  lemma {:induction false} QuietIsSafe(s: Pool, steps: seq<Step>)
    requires Shape(s) && !s.running && Quiet(s) && !s.panicked && CanRun(SYSTEM, s, steps) && NoNewCall(steps)
    ensures !After(SYSTEM, s, steps).panicked
    decreases |steps|
  {
    if steps == [] {
    } else {
      assert steps[0] in steps && forall step | step in steps[1..] :: step in steps;
      StepKeepsShape(s, steps[0]);
      DisciplinedStep(s, steps[0]);
      QuietIsSafe(Apply(s, steps[0]), steps[1..]);
    }
  }

  /** With the channel closed, whoever has something left to send panics. */
  lemma LoudPanics(s: Pool) returns (steps: seq<Step>)
    requires Shape(s) && s.closed && !s.panicked && !Quiet(s)
    ensures CanRun(SYSTEM, s, steps) && NoNewCall(steps) && After(SYSTEM, s, steps).panicked
  {
    if s.adjusting.Pilling? && s.adjusting.left > 0 {
      RunsOn(SYSTEM, s, [SendPill], Apply(s, SendPill));
      steps := [SendPill];
    } else if s.heldPills > 0 {
      RunsOn(SYSTEM, s, [PutBackPill], Apply(s, PutBackPill));
      steps := [PutBackPill];
    } else if s.heldJobs != multiset{} {
      var id :| id in s.heldJobs;
      RunsOn(SYSTEM, s, [PutBackJob(id)], Apply(s, PutBackJob(id)));
      steps := [PutBackJob(id)];
    } else {
      steps := CheckPanics(s);
    }
  }

  lemma CheckPanics(s: Pool) returns (steps: seq<Step>)
    requires s.closed && !s.panicked && s.checking > 0
    ensures CanRun(SYSTEM, s, steps) && NoNewCall(steps) && After(SYSTEM, s, steps).panicked
  {
    var t := Apply(s, HealthReceive);
    if s.queue == [] {
      RunsOn(SYSTEM, s, [HealthReceive], t);
      steps := [HealthReceive];
    } else {
      var back := if s.queue[0].Pill? then PutBackPill else PutBackJob(s.queue[0].id);
      RunsOn(SYSTEM, t, [back], Apply(t, back));
      assert [HealthReceive, back][1..] == [back];
      RunsOn(SYSTEM, s, [HealthReceive, back], Apply(t, back));
      steps := [HealthReceive, back];
    }
  }

  /**
   Exactly when is Close dangerous to the calls that are in progress as it begins? When a
   HealthCheck is in progress or holds an item, or a SetWorkers has pills left to send.
   */
  lemma ClosePanicsIff(s: Pool)
    requires Inv(s) && !s.panicked && Enabled(s, CloseSwap)
    ensures CanPanic(Apply(s, CloseSwap)) <==> !Quiet(s)
  {
    StepKeepsShape(s, CloseSwap);
    if Quiet(s) {
      QuietClose(Apply(s, CloseSwap));
    } else {
      LoudClose(Apply(s, CloseSwap));
    }
  }

  lemma QuietClose(s: Pool)
    requires Shape(s) && !s.running && Quiet(s) && !s.panicked
    ensures !CanPanic(s)
  {
    forall steps | CanRun(SYSTEM, s, steps) && NoNewCall(steps)
      ensures !After(SYSTEM, s, steps).panicked
    {
      QuietIsSafe(s, steps);
    }
  }

  lemma LoudClose(s: Pool)
    requires Shape(s) && s.closing == Swapped && !Quiet(s) && !s.panicked
    ensures CanPanic(s)
  {
    var u := Apply(s, CloseChannel);
    StepKeepsShape(s, CloseChannel);
    var rest := LoudPanics(u);
    var steps := [CloseChannel] + rest;
    assert steps[1..] == rest;
    RunsOn(SYSTEM, s, steps, After(SYSTEM, u, rest));
    forall step | step in steps
      ensures !step.Enqueue? && !step.SetWorkers?
    {
      assert step == CloseChannel || step in rest;
    }
  }

  /** Without that discipline a job is lost: HealthCheck takes it out, Close drains and returns, the put-back panics. */
  lemma UndisciplinedCloseLosesJob() returns (steps: seq<Step>)
    ensures CanRun(SYSTEM, Fresh(1, 1), steps)
    ensures var s := After(SYSTEM, Fresh(1, 1), steps);
            && Enabled(s, CloseReturn) && s.accepted == [7] && s.executed == []
            && Enabled(s, PutBackJob(7)) && Apply(s, PutBackJob(7)).panicked
  {
    var s0 := Fresh(1, 1);
    var s3 := s0.(accepted := [7], heldJobs := multiset{7}, disturbed := true);
    var s6 := s3.(running := false, closed := true, closing := Waiting, idle := 0);
    TakenOut(s0, s3);
    Drained(s3, s6);
    steps := [Enqueue(7), HealthBegin, HealthReceive] + [CloseSwap, CloseChannel, TakeClosed];
    RunsConcat(SYSTEM, s0, [Enqueue(7), HealthBegin, HealthReceive], [CloseSwap, CloseChannel, TakeClosed]);
  }

  lemma TakenOut(s0: Pool, s3: Pool)
    requires s0 == Fresh(1, 1) && s3 == s0.(accepted := [7], heldJobs := multiset{7}, disturbed := true)
    ensures CanRun(SYSTEM, s0, [Enqueue(7), HealthBegin, HealthReceive])
    ensures After(SYSTEM, s0, [Enqueue(7), HealthBegin, HealthReceive]) == s3
  {
    var s1 := s0.(queue := [Job(7)], accepted := [7]);
    var s2 := s1.(checking := 1);
    Accepts(s0, s1);
    Checks(s2, s3);
    var two := [HealthBegin, HealthReceive];
    assert two[1..] == [HealthReceive];
    RunsOn(SYSTEM, s1, two, s3);
    var three := [Enqueue(7), HealthBegin, HealthReceive];
    assert three[1..] == two;
    RunsOn(SYSTEM, s0, three, s3);
  }

  lemma Accepts(s0: Pool, s1: Pool)
    requires s0 == Fresh(1, 1) && s1 == s0.(queue := [Job(7)], accepted := [7])
    ensures Enabled(s0, Enqueue(7)) && Apply(s0, Enqueue(7)) == s1
  {
    assert s0.queue + [Job(7)] == [Job(7)] && s0.accepted + [7] == [7];
  }

  lemma Checks(s2: Pool, s3: Pool)
    requires s2.queue == [Job(7)] && s2.checking == 1 && s2.heldJobs == multiset{} && !s2.panicked
    requires s3 == s2.(queue := [], checking := 0, heldJobs := multiset{7}, disturbed := true)
    ensures CanRun(SYSTEM, s2, [HealthReceive]) && After(SYSTEM, s2, [HealthReceive]) == s3
  {
    assert s2.queue[1..] == [] && multiset{} + multiset{7} == multiset{7};
    assert Apply(s2, HealthReceive) == s3;
    RunsOn(SYSTEM, s2, [HealthReceive], s3);
  }

  lemma Drained(s3: Pool, s6: Pool)
    requires s3.queue == [] && s3.idle == 1 && s3.running && s3.closing == NotClosed && !s3.panicked
    requires s6 == s3.(running := false, closed := true, closing := Waiting, idle := 0)
    ensures CanRun(SYSTEM, s3, [CloseSwap, CloseChannel, TakeClosed])
    ensures After(SYSTEM, s3, [CloseSwap, CloseChannel, TakeClosed]) == s6
  {
    var s4 := Apply(s3, CloseSwap);
    var s5 := Apply(s4, CloseChannel);
    assert Apply(s5, TakeClosed) == s6;
    RunsOn(SYSTEM, s5, [TakeClosed], s6);
    RunsOn(SYSTEM, s4, [CloseChannel, TakeClosed], s6);
    RunsOn(SYSTEM, s3, [CloseSwap, CloseChannel, TakeClosed], s6);
  }

  // ---------------------------------------------------------------------
  // Progress
  // ---------------------------------------------------------------------

  /** What the workers have left to do. */
  function Work(s: Pool): nat {
    2 * |s.queue| + |s.busy| + s.Live()
  }

  lemma WorkerStepShrinksWork(s: Pool, step: Step)
    requires Enabled(s, step) && IsWorkerStep(step)
    ensures Work(Apply(s, step)) < Work(s)
  {}

  /** Workers alone cannot go on for ever. */
  lemma {:induction false} WorkersTerminate(s: Pool, steps: seq<Step>)
    requires CanRun(SYSTEM, s, steps) && forall step | step in steps :: IsWorkerStep(step)
    ensures |steps| + Work(After(SYSTEM, s, steps)) <= Work(s)
    decreases |steps|
  {
    if steps == [] {
    } else {
      assert steps[0] in steps;
      WorkerStepShrinksWork(s, steps[0]);
      forall step | step in steps[1..] ensures IsWorkerStep(step) {
        assert step in steps;
      }
      WorkersTerminate(Apply(s, steps[0]), steps[1..]);
    }
  }

  /** And they are never stuck with work left: not while an item is queued, nor, after the close, while one lives. */
  lemma WorkersCanMove(s: Pool) returns (step: Step)
    requires Inv(s) && !s.panicked
    requires s.queue != [] || (s.closed && s.Live() > 0)
    ensures IsWorkerStep(step) && Enabled(s, step)
  {
    if s.idle > 0 {
      step := if s.queue != [] then Take else TakeClosed;
    } else {
      assert s.busy != multiset{};
      var id :| id in s.busy;
      step := Finish(id, true);
    }
  }

  /**
   From any reachable state with the channel closed, every way of letting the
   workers run ends (WorkersTerminate) and can only end with Close able to
   return; one such run is exhibited.
   */
  lemma {:induction false} DrainCompletes(s: Pool) returns (steps: seq<Step>)
    requires Inv(s) && !s.panicked && s.closed && s.closing == Waiting
    ensures CanRun(SYSTEM, s, steps) && forall step | step in steps :: IsWorkerStep(step)
    ensures Enabled(After(SYSTEM, s, steps), CloseReturn)
    ensures Apply(After(SYSTEM, s, steps), CloseReturn).closing == Returned
    decreases Work(s)
  {
    if s.Live() == 0 {
      steps := [];
    } else {
      var step := WorkersCanMove(s);
      StepKeepsInv(s, step);
      WorkerStepShrinksWork(s, step);
      var rest := DrainCompletes(Apply(s, step));
      steps := [step] + rest;
      assert steps[1..] == rest;
    }
  }

  /** A step of the SetWorkers call that is under way. */
  predicate IsSetStep(step: Step) {
    step.SpawnOne? || step.SendPill? || step.SetDone?
  }

  /** What the call has left to do. */
  function SetWork(a: Adjusting): nat {
    match a
    case Settled => 0
    case Spawning(left, _) => left + 1
    case Pilling(left, _) => left + 1
  }

  /** The next of its steps, or one of a worker that makes room for a pill. */
  lemma SetCanMove(s: Pool) returns (step: Step)
    requires Inv(s) && !s.panicked && !s.closed && !s.adjusting.Settled?
    ensures Enabled(s, step) && (IsSetStep(step) || IsWorkerStep(step))
    ensures var t := Apply(s, step);
      && !t.panicked && !t.closed
      && SetWork(t.adjusting) <= SetWork(s.adjusting)
      && (SetWork(t.adjusting) == SetWork(s.adjusting) ==> Work(t) < Work(s))
  {
    if s.adjusting.left == 0 {
      step := SetDone;
    } else if s.adjusting.Spawning? {
      step := SpawnOne;
    } else if |s.queue| < s.cap {
      step := SendPill;
    } else {
      step := WorkersCanMove(s);
      WorkerStepShrinksWork(s, step);
    }
  }

  /** A SetWorkers that aims at n can finish before Close closes the channel, however full the queue is. */
  lemma {:induction false} SetCompletes(s: Pool, n: int) returns (steps: seq<Step>)
    requires Inv(s) && AimsAt(s, n) && !s.panicked && !s.closed
    ensures CanRun(SYSTEM, s, steps) && forall step | step in steps :: IsSetStep(step) || IsWorkerStep(step)
    ensures var t := After(SYSTEM, s, steps);
      !t.panicked && t.adjusting.Settled? && t.target == n && t.Live() == n + Outstanding(t)
    decreases SetWork(s.adjusting), Work(s)
  {
    if s.adjusting.Settled? {
      steps := [];
    } else {
      var step := SetCanMove(s);
      StepKeepsInv(s, step);
      StepKeepsAim(s, step, n);
      var rest := SetCompletes(Apply(s, step), n);
      steps := [step] + rest;
      assert steps[1..] == rest;
    }
  }

  /** So n workers it will be: from SetWorkers(n) some run settles with exactly n and the pills on their way. */
  lemma SetWorkersCompletes(s: Pool, n: int) returns (steps: seq<Step>)
    requires Inv(s) && !s.closed && n >= 1 && Enabled(s, SetWorkers(n))
    ensures CanRun(SYSTEM, Apply(s, SetWorkers(n)), steps)
    ensures var t := After(SYSTEM, Apply(s, SetWorkers(n)), steps);
      t.adjusting.Settled? && t.target == n && t.Live() == n + Outstanding(t)
  {
    SetWorkersAims(s, n);
    StepKeepsInv(s, SetWorkers(n));
    steps := SetCompletes(Apply(s, SetWorkers(n)), n);
  }

  predicate IsPutBack(step: Step) {
    step.PutBackJob? || step.PutBackPill?
  }

  /** The next put-back, or a step of a worker that makes room for it. */
  lemma PutBackCanMove(s: Pool) returns (step: Step)
    requires Inv(s) && !s.panicked && !s.closed && (s.heldJobs != multiset{} || s.heldPills > 0)
    ensures Enabled(s, step) && (IsPutBack(step) || IsWorkerStep(step))
    ensures var t := Apply(s, step);
      && !t.panicked && !t.closed
      && |t.heldJobs| + t.heldPills <= |s.heldJobs| + s.heldPills
      && (|t.heldJobs| + t.heldPills == |s.heldJobs| + s.heldPills ==> Work(t) < Work(s))
  {
    if |s.queue| == s.cap {
      step := WorkersCanMove(s);
      WorkerStepShrinksWork(s, step);
    } else if s.heldPills > 0 {
      step := PutBackPill;
    } else {
      var id :| id in s.heldJobs;
      assert |s.heldJobs - multiset{id}| == |s.heldJobs| - 1;
      step := PutBackJob(id);
    }
  }

  /** While the channel is open HealthCheck callers can put back whatever they have taken out. */
  lemma {:induction false} PutBackCompletes(s: Pool) returns (steps: seq<Step>)
    requires Inv(s) && !s.panicked && !s.closed
    ensures CanRun(SYSTEM, s, steps) && forall step | step in steps :: IsPutBack(step) || IsWorkerStep(step)
    ensures var t := After(SYSTEM, s, steps); !t.panicked && t.heldJobs == multiset{} && t.heldPills == 0
    decreases |s.heldJobs| + s.heldPills, Work(s)
  {
    if s.heldJobs == multiset{} && s.heldPills == 0 {
      steps := [];
    } else {
      var step := PutBackCanMove(s);
      StepKeepsInv(s, step);
      var rest := PutBackCompletes(Apply(s, step));
      steps := [step] + rest;
      assert steps[1..] == rest;
    }
  }

  // ---------------------------------------------------------------------
  // Lost jobs
  // ---------------------------------------------------------------------

  /** Some continuation without new calls lets Close return with an accepted job unsent. */
  ghost predicate CanLose(s: Pool) {
    exists steps :: CanRun(SYSTEM, s, steps) && NoNewCall(steps)
      && Enabled(After(SYSTEM, s, steps), CloseReturn)
      && multiset(After(SYSTEM, s, steps).executed) != multiset(After(SYSTEM, s, steps).accepted)
  }

  /** Close has begun, and no HealthCheck holds a job or can take one out. */
  ghost predicate OutOfReach(s: Pool) {
    !s.running && s.heldJobs == multiset{} && (s.checking == 0 || JobsIn(s.queue) == [])
  }

  lemma ReceiveStaysOutOfReach(s: Pool, step: Step)
    requires OutOfReach(s) && Enabled(s, step) && Receives(s, step)
    ensures OutOfReach(Apply(s, step))
  {
    assert JobsIn(s.queue) == (if s.queue[0].Job? then [s.queue[0].id] else []) + JobsIn(s.queue[1..]);
  }

  lemma PillStaysOutOfReach(s: Pool, step: Step)
    requires OutOfReach(s) && Enabled(s, step) && (step.SendPill? || step.PutBackPill?)
    ensures OutOfReach(Apply(s, step))
  {
    JobsInAppend(s.queue, Pill);
  }

  lemma StaysOutOfReach(s: Pool, step: Step)
    requires OutOfReach(s) && Enabled(s, step) && !step.Enqueue?
    ensures OutOfReach(Apply(s, step))
  {
    if Receives(s, step) {
      ReceiveStaysOutOfReach(s, step);
    } else if step.SendPill? || step.PutBackPill? {
      PillStaysOutOfReach(s, step);
    } else {
      assert !step.PutBackJob?;
    }
  }

  lemma {:induction false} NothingIsLost(s: Pool, steps: seq<Step>)
    requires Inv(s) && OutOfReach(s) && CanRun(SYSTEM, s, steps) && NoNewCall(steps)
    ensures Inv(After(SYSTEM, s, steps)) && After(SYSTEM, s, steps).heldJobs == multiset{}
    decreases |steps|
  {
    if steps == [] {
    } else {
      assert steps[0] in steps && forall step | step in steps[1..] :: step in steps;
      StepKeepsInv(s, steps[0]);
      StaysOutOfReach(s, steps[0]);
      NothingIsLost(Apply(s, steps[0]), steps[1..]);
    }
  }

  /** A step in front of a losing continuation. */
  lemma LosesAfter(s: Pool, step: Step)
    requires Enabled(s, step) && !step.Enqueue? && !step.SetWorkers? && CanLose(Apply(s, step))
    ensures CanLose(s)
  {
    var t := Apply(s, step);
    var rest :| CanRun(SYSTEM, t, rest) && NoNewCall(rest) && Enabled(After(SYSTEM, t, rest), CloseReturn)
      && multiset(After(SYSTEM, t, rest).executed) != multiset(After(SYSTEM, t, rest).accepted);
    var steps := [step] + rest;
    assert steps[1..] == rest;
    RunsOn(SYSTEM, s, steps, After(SYSTEM, t, rest));
  }

  lemma {:induction false} WorkersTouchNoHeldJob(s: Pool, steps: seq<Step>)
    requires CanRun(SYSTEM, s, steps) && forall step | step in steps :: IsWorkerStep(step)
    ensures After(SYSTEM, s, steps).heldJobs == s.heldJobs
    decreases |steps|
  {
    if steps == [] {
    } else {
      assert steps[0] in steps && forall step | step in steps[1..] :: step in steps;
      WorkersTouchNoHeldJob(Apply(s, steps[0]), steps[1..]);
    }
  }

  /** A job that a HealthCheck holds when Close begins is lost if the put-back comes too late. */
  lemma HeldIsLost(s: Pool)
    requires Inv(s) && !s.panicked && s.closing == Swapped && s.heldJobs != multiset{}
    ensures CanLose(s)
  {
    var t := Apply(s, CloseChannel);
    StepKeepsInv(s, CloseChannel);
    var steps := DrainCompletes(t);
    WorkersTouchNoHeldJob(t, steps);
    RunKeepsInv(t, steps);
    MissingIsHeld(After(SYSTEM, t, steps));
    assert NoNewCall(steps);
    LosesAfter(s, CloseChannel);
  }

  /** So is a job that a HealthCheck in progress takes out: workers first take the pills in front of it. */
  lemma {:induction false} ReachableIsLost(s: Pool)
    requires Inv(s) && !s.panicked && s.closing == Swapped && s.checking > 0 && JobsIn(s.queue) != []
    ensures CanLose(s)
    decreases Work(s)
  {
    if s.queue[0].Job? {
      StepKeepsInv(s, HealthReceive);
      HeldIsLost(Apply(s, HealthReceive));
      LosesAfter(s, HealthReceive);
    } else {
      var step := WorkersCanMove(s);
      StepKeepsInv(s, step);
      WorkerStepShrinksWork(s, step);
      ReachableIsLost(Apply(s, step));
      LosesAfter(s, step);
    }
  }

  /**
   Exactly when can Close lose a job to the calls that are in progress as it begins? When a
   HealthCheck holds one, or is in progress with one queued that it can take out.
   */
  lemma CloseLosesIff(s: Pool)
    requires Inv(s) && !s.panicked && Enabled(s, CloseSwap)
    ensures CanLose(Apply(s, CloseSwap)) <==> s.heldJobs != multiset{} || (s.checking > 0 && JobsIn(s.queue) != [])
  {
    var t := Apply(s, CloseSwap);
    StepKeepsInv(s, CloseSwap);
    if s.heldJobs != multiset{} {
      HeldIsLost(t);
    } else if s.checking > 0 && JobsIn(s.queue) != [] {
      ReachableIsLost(t);
    } else {
      forall steps | CanRun(SYSTEM, t, steps) && NoNewCall(steps) && Enabled(After(SYSTEM, t, steps), CloseReturn)
        ensures multiset(After(SYSTEM, t, steps).executed) == multiset(After(SYSTEM, t, steps).accepted)
      {
        NothingIsLost(t, steps);
        MissingIsHeld(After(SYSTEM, t, steps));
      }
    }
  }
}
