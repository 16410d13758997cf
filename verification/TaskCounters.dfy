/** tasks.c over whole runs: how deep the scheduler is suspended, what it owes until it resumes, and what no step but its
    own changes, told by the steps alone. */
module TaskCounters {
  import opened Sequences
  import opened Containers
  import opened Tasks
  import opened TaskInvariants
  import opened TaskSteps
  import opened TaskRuns

  /** What is counted: vTaskSuspendAll less xTaskResumeAll; and since the suspension began, whether a switch was asked
      for and how many ticks have come. */
  datatype Owed = Owed(depth: int, switch: bool, ticks: nat)

  function Tally(o: Owed, op: Op): Owed {
    match op
    case SuspendScheduler => o.(depth := o.depth + 1)
    case ResumeScheduler => if o.depth == 1 then Owed(0, false, 0) else o.(depth := o.depth - 1)
    case SwitchTask => if o.depth > 0 then o.(switch := true) else o
    case TickInterrupt => if o.depth > 0 then o.(ticks := o.ticks + 1) else o
    case _ => o
  }

  function TallyAll(o: Owed, ops: seq<Op>): Owed
    decreases |ops|
  {
    if ops == [] then o else TallyAll(Tally(o, ops[0]), ops[1..])
  }

  function Interrupts(ops: seq<Op>): nat {
    if ops == [] then 0 else (if ops[0].TickInterrupt? then 1 else 0) + Interrupts(ops[1..])
  }

  function OwedBy(k: Kernel): Owed {
    Owed(k.suspended, k.missedYield, k.missed)
  }

  // ---- What the loops leave alone ----

  /** What is neither a list nor a clock. */
  ghost predicate SameRest(k: Kernel, k': Kernel) {
    && k'.period == k.period && k'.levels == k.levels && k'.idle == k.idle && k'.current == k.current
    && k'.suspended == k.suspended && k'.missedYield == k.missedYield && k'.tasks == k.tasks && k'.deleted == k.deleted
  }

  lemma {:induction false} ScanKeepsRest(k: Kernel)
    requires Consistent(k.gen)
    ensures SameRest(k, Scan(k)) && Scan(k).missed == k.missed
    decreases |Delayed(k)|
  {
    if Delayed(k) != [] && k.tick >= Get(k.wake, Delayed(k)[0]) {
      var t := Delayed(k)[0];
      MovedIsConsistent(k.gen, t, Ready(Get(k.prio, t)), |Unlink(k.gen, t).At(Ready(Get(k.prio, t)))|);
      ScanKeepsRest(WakeTask(k, t));
    }
  }

  lemma AdvanceKeepsRest(k: Kernel)
    ensures SameRest(k, Advance(k)) && Advance(k).missed == k.missed && Advance(k).gen == k.gen
  {
  }

  lemma TickKeepsRest(k: Kernel)
    requires Consistent(k.gen)
    ensures SameRest(k, IncrementTick(k))
    ensures IncrementTick(k).missed == if k.suspended > 0 then k.missed + 1 else k.missed
  {
    AdvanceKeepsRest(k);
    ScanKeepsRest(Advance(k));
  }

  lemma {:induction false} DrainKeepsRest(k: Kernel)
    requires Consistent(k.gen) && Consistent(k.ev)
    ensures SameRest(k, DrainPending(k))
    decreases |k.ev.At(Pending)|
  {
    if k.ev.At(Pending) != [] {
      var t := k.ev.At(Pending)[0];
      UnlinkIsConsistent(k.ev, t);
      MovedIsConsistent(k.gen, t, Ready(Get(k.prio, t)), |Unlink(k.gen, t).At(Ready(Get(k.prio, t)))|);
      DrainKeepsRest(WakeTask(k, t));
    }
  }

  lemma {:induction false} ReplayKeepsRest(k: Kernel)
    requires Consistent(k.gen) && k.suspended == 0
    ensures SameRest(k, ReplayTicks(k)) && ReplayTicks(k).missed == 0
    decreases k.missed
  {
    if k.missed > 0 {
      TickKeepsCounters(k);
      TickKeepsRest(k);
      ReplayKeepsRest(IncrementTick(k).(missed := k.missed - 1));
    }
  }

  lemma ResumeKeepsRest(k: Kernel)
    requires Consistent(k.gen) && Consistent(k.ev) && k.suspended > 0
    ensures var k' := ResumeAll(k);
      if k.suspended > 1 || k.tasks == 0 then k' == k.(suspended := k.suspended - 1)
      else SameRest(k.(suspended := 0, missedYield := false), k') && k'.missed == 0
  {
    if k.suspended == 1 && k.tasks > 0 {
      var k1 := k.(suspended := 0);
      DrainKeepsCounters(k1);
      DrainKeepsRest(k1);
      ReplayKeepsRest(DrainPending(k1));
    }
  }

  // ---- Every step ----

  /** The number of tasks that exist, and of those deleted and not freed yet. */
  function Population(k: Kernel): (nat, nat) {
    (k.tasks, k.deleted)
  }

  function Repopulated(p: (nat, nat), op: Op): (nat, nat) {
    match op
    case CreateTask(_, _) => (p.0 + 1, p.1)
    case DeleteTask(_) => (p.0, p.1 + 1)
    case ReapTask => if p.0 > 0 && p.1 > 0 then (p.0 - 1, p.1 - 1) else p
    case _ => p
  }

  /** What a step makes of the counters, and that the running task stays the same but for a switch. */
  ghost predicate StepIsCounted(k: Kernel, op: Op, k': Kernel) {
    && OwedBy(k') == Tally(OwedBy(k), op) && Population(k') == Repopulated(Population(k), op)
    && (k'.current == k.current || (op.SwitchTask? && k.suspended == 0))
    && k'.idle == k.idle && k'.period == k.period && k'.levels == k.levels
  }

  lemma TimeStepIsCounted(k: Kernel, op: Op)
    requires Placed(k) && Counted(k) && Allowed(k, op)
    requires op.TickInterrupt? || op.SuspendScheduler? || op.ResumeScheduler? || op.SwitchTask?
    requires k.tasks > 0
    ensures StepIsCounted(k, op, Effect(k, op))
  {
    match op
    case TickInterrupt => TickKeepsRest(k);
    case SuspendScheduler =>
    case ResumeScheduler => ResumeKeepsRest(k);
    case SwitchTask => SomeTaskIsReady(k);
  }

  /** Steps that only move tasks, and how urgent or until when they are. */
  ghost predicate OnlyMoves(k: Kernel, k': Kernel) {
    SameRest(k, k') && k'.missed == k.missed
  }

  predicate Uncounted(op: Op) {
    !(op.TickInterrupt? || op.SuspendScheduler? || op.ResumeScheduler? || op.SwitchTask? || op.CreateTask? || op.DeleteTask? || op.ReapTask?)
  }

  lemma MovesAreCounted(k: Kernel, op: Op, k': Kernel)
    requires OnlyMoves(k, k') && Uncounted(op)
    ensures StepIsCounted(k, op, k')
  {
  }

  lemma DelayOnlyMoves(k: Kernel, ticks: nat)
    ensures OnlyMoves(k, DelayFor(k, ticks))
  {
  }

  lemma BlockOnlyMoves(k: Kernel, e: nat, ticks: nat)
    ensures OnlyMoves(k, PlaceOnEventList(k, e, ticks))
  {
    DelayOnlyMoves(k.(ev := PutSorted(k.ev, Event(e), k.current, k.evVal)), ticks);
  }

  lemma RestrictedOnlyMoves(k: Kernel, e: nat, ticks: nat, at: nat)
    requires at <= |k.ev.At(Event(e))|
    ensures OnlyMoves(k, PlaceRestricted(k, e, ticks, at))
  {
    DelayOnlyMoves(k.(ev := Put(k.ev, Event(e), at, k.current)), ticks);
  }

  lemma ReadyingOnlyMoves(k: Kernel, t: Task)
    ensures OnlyMoves(k, MoveToReady(k, t))
  {
  }

  lemma SignalOnlyMoves(k: Kernel, e: nat)
    requires k.ev.At(Event(e)) != []
    ensures OnlyMoves(k, SignalEvent(k, e))
  {
    var t := k.ev.At(Event(e))[0];
    ReadyingOnlyMoves(k.(ev := Unlink(k.ev, t)), t);
  }

  lemma SuspendOnlyMoves(k: Kernel, t: Task)
    ensures OnlyMoves(k, SuspendTask(k, t))
  {
  }

  lemma ResumeOnlyMoves(k: Kernel, t: Task)
    ensures OnlyMoves(k, ResumeTask(k, t))
  {
    ReadyingOnlyMoves(k, t);
  }

  lemma ResumeISROnlyMoves(k: Kernel, t: Task)
    ensures OnlyMoves(k, ResumeFromISR(k, t))
  {
    ReadyingOnlyMoves(k, t);
  }

  lemma InheritOnlyMoves(k: Kernel, t: Task)
    ensures OnlyMoves(k, Inherit(k, t)) && OnlyMoves(k, Disinherit(k, t))
  {
  }

  lemma SetPriorityOnlyMoves(k: Kernel, t: Task, priority: nat)
    ensures OnlyMoves(k, SetPriority(k, t, priority))
  {
  }

  lemma BlockingMoves(k: Kernel, op: Op)
    requires Placed(k) && Counted(k) && Allowed(k, op)
    requires op.DelayCurrent? || op.BlockCurrent? || op.BlockRestricted? || op.RaiseEvent?
    ensures OnlyMoves(k, Effect(k, op))
  {
    match op
    case DelayCurrent(ticks) => DelayOnlyMoves(k, ticks);
    case BlockCurrent(e, ticks) => BlockOnlyMoves(k, e, ticks);
    case BlockRestricted(e, ticks, at) => RestrictedOnlyMoves(k, e, ticks, at);
    case RaiseEvent(e) => SignalOnlyMoves(k, e);
  }

  lemma ControlMoves(k: Kernel, op: Op)
    requires Placed(k) && Counted(k) && Allowed(k, op)
    requires op.SuspendOther? || op.ResumeOther? || op.ResumeOtherFromISR? || op.InheritFrom? || op.DisinheritBy? || op.Reprioritise?
    ensures OnlyMoves(k, Effect(k, op))
  {
    match op
    case SuspendOther(t) => SuspendOnlyMoves(k, t);
    case ResumeOther(t) => ResumeOnlyMoves(k, t);
    case ResumeOtherFromISR(t) => ResumeISROnlyMoves(k, t);
    case InheritFrom(t) => InheritOnlyMoves(k, t);
    case DisinheritBy(t) => InheritOnlyMoves(k, t);
    case Reprioritise(t, priority) => SetPriorityOnlyMoves(k, t, priority);
  }

  lemma CreationIsCounted(k: Kernel, op: Op)
    requires Placed(k) && Counted(k) && Allowed(k, op) && (op.CreateTask? || op.DeleteTask?)
    ensures StepIsCounted(k, op, Effect(k, op))
  {
  }

  lemma ReapIsCounted(k: Kernel)
    requires Placed(k) && Counted(k) && Allowed(k, ReapTask)
    ensures StepIsCounted(k, ReapTask, Effect(k, ReapTask))
  {
    TasksCounted(k);
  }

  /** Every step is counted, and it is the only one that changes what it changes. */
  lemma EffectIsCounted(k: Kernel, op: Op)
    requires Placed(k) && Counted(k) && Allowed(k, op)
    ensures StepIsCounted(k, op, Effect(k, op))
  {
    if op.ReapTask? {
      ReapIsCounted(k);
    } else if op.CreateTask? || op.DeleteTask? {
      CreationIsCounted(k, op);
    } else if !Uncounted(op) {
      SomeTaskExists(k);
      TimeStepIsCounted(k, op);
    } else {
      if op.DelayCurrent? || op.BlockCurrent? || op.BlockRestricted? || op.RaiseEvent? {
        BlockingMoves(k, op);
      } else {
        ControlMoves(k, op);
      }
      MovesAreCounted(k, op, Effect(k, op));
    }
  }

  lemma SomeTaskExists(k: Kernel)
    requires Placed(k) && Counted(k)
    ensures k.tasks > 0
  {
    assert k.idle in k.gen.where && k.idle in k.prio;
  }

  // ---- Every run ----

  function Suspends(ops: seq<Op>): nat {
    if ops == [] then 0 else (if ops[0].SuspendScheduler? then 1 else 0) + Suspends(ops[1..])
  }

  function Resumes(ops: seq<Op>): nat {
    if ops == [] then 0 else (if ops[0].ResumeScheduler? then 1 else 0) + Resumes(ops[1..])
  }

  lemma {:induction false} DepthIsDifference(o: Owed, ops: seq<Op>)
    ensures TallyAll(o, ops).depth == o.depth + Suspends(ops) - Resumes(ops)
    decreases |ops|
  {
    if ops != [] {
      DepthIsDifference(Tally(o, ops[0]), ops[1..]);
    }
  }

  lemma {:induction false} RunIsCounted(w: GoodWorld, ops: seq<Op>)
    requires CanRun(w, ops)
    ensures OwedBy(Run(w, ops).k) == TallyAll(OwedBy(w.k), ops) && Run(w, ops).interrupts == w.interrupts + Interrupts(ops)
    decreases |ops|
  {
    if ops != [] {
      EffectIsCounted(w.k, ops[0]);
      RunIsCounted(Next(w, ops[0]), ops[1..]);
    }
  }

  /** Everything is caught up: the clock has counted every tick interrupt, and no task is held back. */
  ghost predicate CaughtUp(w: World, interrupts: nat) {
    w.k.missed == 0 && w.k.ev.At(Pending) == [] && w.T == interrupts
  }

  lemma UnsuspendedIsCaughtUp(w: World)
    requires Inv(w) && w.k.suspended == 0
    ensures CaughtUp(w, w.interrupts)
  {
  }

  /** In every run the scheduler is suspended as often as vTaskSuspendAll was called more than xTaskResumeAll, and when
      the calls match everything is caught up. */
  lemma SuspensionsNest(w: GoodWorld, ops: seq<Op>)
    requires CanRun(w, ops)
    ensures Run(w, ops).k.suspended == w.k.suspended + Suspends(ops) - Resumes(ops)
    ensures w.k.suspended + Suspends(ops) == Resumes(ops) ==> CaughtUp(Run(w, ops), w.interrupts + Interrupts(ops))
  {
    RunIsCounted(w, ops);
    DepthIsDifference(OwedBy(w.k), ops);
    if Run(w, ops).k.suspended == 0 {
      UnsuspendedIsCaughtUp(Run(w, ops));
    }
  }

  /** In every run, the xTaskResumeAll that matches the first vTaskSuspendAll asks for a yield iff since that a switch
      was asked for or a tick came, or a task that is as urgent as the running one was held back. */
  lemma ResumeYieldsIff(w: GoodWorld, ops: seq<Op>)
    requires w.k.suspended == 0 && !w.k.missedYield && CanRun(w, ops) && Suspends(ops) == Resumes(ops) + 1
    ensures var k, o := Run(w, ops).k, TallyAll(Owed(0, false, 0), ops);
      && k.suspended == 1
      && (YieldOnResume(k) <==> o.switch || o.ticks > 0 || exists t :: t in k.ev.At(Pending) && Get(k.prio, t) >= Get(k.prio, k.current))
      && !ResumeAll(k).missedYield && ResumeAll(k).suspended == 0
  {
    RunIsCounted(w, ops);
    DepthIsDifference(OwedBy(w.k), ops);
    assert w.k.missed == 0;
    ResumeKeepsRest(Run(w, ops).k);
    SomeTaskExists(Run(w, ops).k);
  }
}
