/** tasks.c and queue.c: priority inheritance over whole runs. While a task holds a mutex it runs at the highest of
    its base priority and those of the tasks that have blocked on the mutex since it was taken. */
module Inheritance {
  import opened Sequences
  import opened Containers
  import opened Tasks
  import opened TaskInvariants
  import opened TaskSteps
  import opened TaskRuns

  type Mutex = nat

  /** The kernel, who holds each mutex, and the priorities with which tasks have blocked on it since. */
  datatype System = System(w: World, holder: map<Mutex, Task>, blocked: map<Mutex, seq<nat>>)

  datatype Act =
    | Other(op: TaskRuns.Op)    // any step that sets no priority
    | Take(m: Mutex)          // xQueueGenericReceive on a free mutex
    | Wait(m: Mutex)          // its vTaskPriorityInherit, before the task goes on the event list
    | Give(m: Mutex)          // the vTaskPriorityDisinherit of prvCopyDataToQueue

  predicate Holds(s: System, t: Task) {
    exists m :: m in s.holder && s.holder[m] == t
  }

  /** Tasks hold one mutex at a time and give it themselves; holders are not deleted, and nobody sets priorities. */
  ghost predicate Allowed(s: System, act: Act) {
    var k := s.w.k;
    match act
    case Other(op) =>
      && TaskRuns.Allowed(k, op) && !op.InheritFrom? && !op.DisinheritBy? && !op.Reprioritise?
      && (op.ReapTask? ==> !Holds(s, k.gen.At(Terminating)[0]))
    case Take(m) => m !in s.holder && !Holds(s, k.current) && k.current in k.prio
    case Wait(m) => m in s.holder && k.current in k.prio
    case Give(m) => m in s.holder && s.holder[m] == k.current && IsReady(k, k.current)
  }

  function MaxOf(p: nat, s: seq<nat>): nat {
    if s == [] then p
    else
      var q := MaxOf(p, s[..|s| - 1]);
      if s[|s| - 1] > q then s[|s| - 1] else q
  }

  /** MaxOf is the least bound of its arguments. */
  lemma {:induction false} MaxOfIsMaximum(p: nat, s: seq<nat>)
    ensures p <= MaxOf(p, s) && forall i :: 0 <= i < |s| ==> s[i] <= MaxOf(p, s)
    ensures MaxOf(p, s) == p || MaxOf(p, s) in s
  {
    if s != [] {
      MaxOfIsMaximum(p, s[..|s| - 1]);
    }
  }

  ghost function BlockedOn(s: System, m: Mutex): seq<nat> {
    if m in s.blocked then s.blocked[m] else []
  }

  ghost function Step(s: System, act: Act): System
    requires Inv(s.w) && Allowed(s, act)
  {
    var k := s.w.k;
    match act
    case Other(op) => s.(w := TaskRuns.Step(s.w, op))
    case Take(m) => s.(holder := s.holder[m := k.current], blocked := s.blocked[m := []])
    case Wait(m) => s.(w := s.w.(k := Inherit(k, s.holder[m])), blocked := s.blocked[m := BlockedOn(s, m) + [Get(k.prio, k.current)]])
    case Give(m) => s.(w := s.w.(k := Disinherit(k, k.current)), holder := s.holder - {m})
  }

  /** The holder of a mutex runs at the highest priority that has blocked on it, or its own. */
  ghost predicate Boosted(s: System, m: Mutex)
    requires m in s.holder
  {
    var t := s.holder[m];
    t in s.w.k.prio && t in s.w.k.base && s.w.k.prio[t] == MaxOf(s.w.k.base[t], BlockedOn(s, m))
  }

  ghost predicate Unboosted(s: System, t: Task) {
    t in s.w.k.prio && !Holds(s, t) ==> t in s.w.k.base && s.w.k.prio[t] == s.w.k.base[t]
  }

  ghost predicate Exact(s: System) {
    && (forall m, m' :: m in s.holder && m' in s.holder && m != m' ==> s.holder[m] != s.holder[m'])
    && (forall m :: m in s.holder ==> Boosted(s, m))
    && (forall t :: Unboosted(s, t))
  }

  // ---- Steps that leave priorities alone ----

  ghost predicate SamePriorities(k: Kernel, k': Kernel) {
    k'.prio == k.prio && k'.base == k.base
  }

  lemma {:induction false} ScanKeepsPriorities(k: Kernel)
    requires Consistent(k.gen)
    ensures SamePriorities(k, Scan(k))
    decreases |Delayed(k)|
  {
    if Delayed(k) != [] && k.tick >= Get(k.wake, Delayed(k)[0]) {
      var t := Delayed(k)[0];
      MovedIsConsistent(k.gen, t, Ready(Get(k.prio, t)), |Unlink(k.gen, t).At(Ready(Get(k.prio, t)))|);
      ScanKeepsPriorities(WakeTask(k, t));
    }
  }

  lemma TickKeepsPriorities(k: Kernel)
    requires Consistent(k.gen)
    ensures SamePriorities(k, IncrementTick(k))
  {
    ScanKeepsPriorities(Advance(k));
  }

  lemma {:induction false} DrainKeepsPriorities(k: Kernel)
    requires Consistent(k.gen) && Consistent(k.ev)
    ensures SamePriorities(k, DrainPending(k))
    decreases |k.ev.At(Pending)|
  {
    if k.ev.At(Pending) != [] {
      var t := k.ev.At(Pending)[0];
      UnlinkIsConsistent(k.ev, t);
      MovedIsConsistent(k.gen, t, Ready(Get(k.prio, t)), |Unlink(k.gen, t).At(Ready(Get(k.prio, t)))|);
      DrainKeepsPriorities(WakeTask(k, t));
    }
  }

  lemma {:induction false} ReplayKeepsPriorities(k: Kernel)
    requires Consistent(k.gen) && k.suspended == 0
    ensures SamePriorities(k, ReplayTicks(k))
    decreases k.missed
  {
    if k.missed > 0 {
      TickKeepsCounters(k);
      TickKeepsPriorities(k);
      ReplayKeepsPriorities(IncrementTick(k).(missed := k.missed - 1));
    }
  }

  lemma ResumeKeepsPriorities(k: Kernel)
    requires Consistent(k.gen) && Consistent(k.ev) && k.suspended > 0
    ensures SamePriorities(k, ResumeAll(k))
  {
    var k1 := k.(suspended := k.suspended - 1);
    if k1.suspended == 0 && k.tasks != 0 {
      DrainKeepsCounters(k1);
      DrainKeepsPriorities(k1);
      ReplayKeepsPriorities(DrainPending(k1));
    }
  }

  lemma DelayKeepsPriorities(k: Kernel, v: nat)
    ensures SamePriorities(k, MoveToDelayed(k, v))
  {
  }

  lemma BlockingKeepsPriorities(k: Kernel, e: nat, ticks: nat)
    ensures SamePriorities(k, PlaceOnEventList(k, e, ticks))
  {
    var k1 := k.(ev := PutSorted(k.ev, Event(e), k.current, k.evVal));
    DelayKeepsPriorities(k1, (k.tick + ticks) % k.period);
  }

  lemma RestrictedKeepsPriorities(k: Kernel, e: nat, ticks: nat, at: nat)
    requires at <= |k.ev.At(Event(e))|
    ensures SamePriorities(k, PlaceRestricted(k, e, ticks, at))
  {
    DelayKeepsPriorities(k.(ev := Put(k.ev, Event(e), at, k.current)), (k.tick + ticks) % k.period);
  }

  lemma ControlKeepsPriorities(k: Kernel, t: Task)
    ensures SamePriorities(k, SuspendTask(k, t)) && SamePriorities(k, ResumeTask(k, t))
    ensures SamePriorities(k, ResumeFromISR(k, t)) && SamePriorities(k, Tasks.Delete(k, t))
  {
  }

  lemma SignalKeepsPriorities(k: Kernel, e: nat)
    requires k.ev.At(Event(e)) != []
    ensures SamePriorities(k, SignalEvent(k, e))
  {
  }

  lemma SwitchKeepsPriorities(k: Kernel)
    requires Placed(k)
    ensures k.suspended == 0 ==> k.gen.At(Ready(TopReady(k.gen, k.top))) != []
    ensures SamePriorities(k, SwitchContext(k)) && SamePriorities(k, SuspendAll(k))
  {
    SomeTaskIsReady(k);
  }

  lemma EffectKeepsPriorities(k: Kernel, op: TaskRuns.Op) returns (k': Kernel)
    requires Placed(k) && Counted(k) && TaskRuns.Allowed(k, op)
    requires !op.CreateTask? && !op.ReapTask? && !op.InheritFrom? && !op.DisinheritBy? && !op.Reprioritise?
    ensures k' == Effect(k, op) && SamePriorities(k, k')
  {
    k' := Effect(k, op);
    match op
    case TickInterrupt => TickKeepsPriorities(k);
    case SuspendScheduler =>
    case ResumeScheduler => ResumeKeepsPriorities(k);
    case SwitchTask => SwitchKeepsPriorities(k);
    case DelayCurrent(ticks) => DelayKeepsPriorities(k, (k.tick + ticks) % k.period);
    case BlockCurrent(e, ticks) => BlockingKeepsPriorities(k, e, ticks);
    case BlockRestricted(e, ticks, at) => RestrictedKeepsPriorities(k, e, ticks, at);
    case RaiseEvent(e) => SignalKeepsPriorities(k, e);
    case SuspendOther(t) => ControlKeepsPriorities(k, t);
    case ResumeOther(t) => ControlKeepsPriorities(k, t);
    case ResumeOtherFromISR(t) => ControlKeepsPriorities(k, t);
    case DeleteTask(t) => ControlKeepsPriorities(k, t);
  }

  // ---- Every act keeps the priorities exact ----

  lemma SamePrioritiesKeepExact(s: System, s': System)
    requires Exact(s) && s' == s.(w := s'.w) && SamePriorities(s.w.k, s'.w.k)
    ensures Exact(s')
  {
    forall m | m in s'.holder ensures Boosted(s', m) {
      assert Boosted(s, m);
    }
    forall t ensures Unboosted(s', t) {
      assert Unboosted(s, t);
    }
  }

  lemma CreateKeepsExact(s: System, s': System, t: Task, p: nat)
    requires Exact(s) && s' == s.(w := s'.w) && t !in s.w.k.prio
    requires s'.w.k.prio == s.w.k.prio[t := p] && s'.w.k.base == s.w.k.base[t := p]
    ensures Exact(s')
  {
    forall m | m in s'.holder ensures Boosted(s', m) {
      assert Boosted(s, m);
    }
    forall u ensures Unboosted(s', u) {
      assert Unboosted(s, u);
    }
  }

  lemma ReapKeepsExact(s: System, s': System, t: Task)
    requires Exact(s) && s' == s.(w := s'.w) && !Holds(s, t)
    requires s'.w.k.prio == s.w.k.prio - {t} && s'.w.k.base == s.w.k.base - {t}
    ensures Exact(s')
  {
    forall m | m in s'.holder ensures Boosted(s', m) {
      assert Boosted(s, m);
    }
    forall u ensures Unboosted(s', u) {
      assert Unboosted(s, u);
    }
  }

  lemma TakeKeepsExact(s: System, m: Mutex)
    requires Inv(s.w) && Exact(s) && Allowed(s, Take(m))
    ensures Exact(Step(s, Take(m)))
  {
    var s' := Step(s, Take(m));
    assert Unboosted(s, s.w.k.current);
    forall m' | m' in s'.holder ensures Boosted(s', m') {
      if m' != m {
        assert Boosted(s, m');
      }
    }
    forall t ensures Unboosted(s', t) {
      assert Unboosted(s, t);
      if Holds(s, t) {
        var m' :| m' in s.holder && s.holder[m'] == t;
        assert m' in s'.holder && s'.holder[m'] == t;
      }
    }
  }

  lemma StillHeld(s: System, s': System, m: Mutex, t: Task)
    requires s'.holder == s.holder || s'.holder == s.holder - {m}
    requires Holds(s, t) && (m in s.holder && m !in s'.holder ==> s.holder[m] != t)
    ensures Holds(s', t)
  {
    var m' :| m' in s.holder && s.holder[m'] == t;
    assert m' in s'.holder && s'.holder[m'] == t;
  }

  /** A task of priority `p` has come to wait for `m`. */
  lemma WaitedKeepsExact(s: System, s': System, m: Mutex, p: nat)
    requires Exact(s) && m in s.holder && s' == s.(w := s'.w, blocked := s.blocked[m := BlockedOn(s, m) + [p]])
    requires s.holder[m] in s.w.k.prio && s'.w.k.base == s.w.k.base
    requires var h := s.holder[m]; s'.w.k.prio == s.w.k.prio[h := if p > s.w.k.prio[h] then p else s.w.k.prio[h]]
    ensures Exact(s')
  {
    assert Boosted(s, m);
    var b := BlockedOn(s, m);
    assert (b + [p])[..|b|] == b;
    forall m' | m' in s'.holder ensures Boosted(s', m') {
      assert Boosted(s, m');
    }
    forall t ensures Unboosted(s', t) {
      assert Unboosted(s, t);
      if Holds(s, t) {
        StillHeld(s, s', m, t);
      }
    }
  }

  lemma BasesStay(k: Kernel, t: Task)
    ensures Inherit(k, t).base == k.base && Disinherit(k, t).base == k.base
  {
  }

  lemma WaitKeepsExact(s: System, m: Mutex) returns (s': System)
    requires Inv(s.w) && Exact(s) && Allowed(s, Wait(m))
    ensures s' == Step(s, Wait(m)) && Inv(s'.w) && Exact(s')
  {
    assert Boosted(s, m);
    var w' := InheritKeepsInv(s.w, s.holder[m]);
    BasesStay(s.w.k, s.holder[m]);
    s' := s.(w := w', blocked := s.blocked[m := BlockedOn(s, m) + [Get(s.w.k.prio, s.w.k.current)]]);
    WaitedKeepsExact(s, s', m, Get(s.w.k.prio, s.w.k.current));
  }

  lemma GivenKeepsExact(s: System, s': System, m: Mutex)
    requires Exact(s) && m in s.holder && s' == s.(w := s'.w, holder := s.holder - {m})
    requires s.holder[m] in s.w.k.base && s'.w.k.base == s.w.k.base
    requires s'.w.k.prio == s.w.k.prio[s.holder[m] := s.w.k.base[s.holder[m]]]
    ensures Exact(s')
  {
    forall m' | m' in s'.holder ensures Boosted(s', m') {
      assert Boosted(s, m');
    }
    forall t ensures Unboosted(s', t) {
      assert Unboosted(s, t);
      if t != s.holder[m] && Holds(s, t) {
        StillHeld(s, s', m, t);
      }
    }
  }

  lemma GiveKeepsExact(s: System, m: Mutex) returns (s': System)
    requires Inv(s.w) && Exact(s) && Allowed(s, Give(m))
    ensures s' == Step(s, Give(m)) && Inv(s'.w) && Exact(s')
  {
    assert Boosted(s, m);
    var w' := DisinheritKeepsInv(s.w, s.holder[m]);
    BasesStay(s.w.k, s.holder[m]);
    s' := s.(w := w', holder := s.holder - {m});
    GivenKeepsExact(s, s', m);
  }

  lemma OtherKeepsExact(s: System, op: TaskRuns.Op)
    requires Inv(s.w) && Exact(s) && Allowed(s, Other(op))
    ensures Inv(Step(s, Other(op)).w) && Exact(Step(s, Other(op)))
  {
    var s' := Step(s, Other(op));
    StepIsGood(s.w, op);
    match op
    case CreateTask(t, priority) => CreateKeepsExact(s, s', t, Cap(s.w.k, priority));
    case ReapTask => ReapKeepsExact(s, s', s.w.k.gen.At(Terminating)[0]);
    case _ =>
      var k' := EffectKeepsPriorities(s.w.k, op);
      SamePrioritiesKeepExact(s, s');
  }

  lemma StepKeepsExact(s: System, act: Act)
    requires Inv(s.w) && Exact(s) && Allowed(s, act)
    ensures Inv(Step(s, act).w) && Exact(Step(s, act))
  {
    match act
    case Other(op) => OtherKeepsExact(s, op);
    case Take(m) => TakeKeepsExact(s, m);
    case Wait(m) => var s' := WaitKeepsExact(s, m);
    case Give(m) => var s' := GiveKeepsExact(s, m);
  }

  // ---- Runs ----

  ghost predicate CanRun(s: System, acts: seq<Act>)
    requires Inv(s.w) && Exact(s)
    decreases |acts|
  {
    acts == [] || (Allowed(s, acts[0]) && (StepKeepsExact(s, acts[0]); CanRun(Step(s, acts[0]), acts[1..])))
  }

  ghost function Run(s: System, acts: seq<Act>): System
    requires Inv(s.w) && Exact(s) && CanRun(s, acts)
    decreases |acts|
  {
    if acts == [] then s else StepKeepsExact(s, acts[0]); Run(Step(s, acts[0]), acts[1..])
  }

  lemma {:induction false} RunKeepsExact(s: System, acts: seq<Act>)
    requires Inv(s.w) && Exact(s) && CanRun(s, acts)
    ensures Inv(Run(s, acts).w) && Exact(Run(s, acts))
    decreases |acts|
  {
    if acts != [] {
      StepKeepsExact(s, acts[0]);
      RunKeepsExact(Step(s, acts[0]), acts[1..]);
    }
  }

  /** In every run from a state in which no mutex is held and no priority inherited: the holder of a mutex runs at
      the maximum of its base priority and the priorities that have blocked on the mutex since it was taken,
      every other task at its base priority, and each ready task is on the ready list of its priority. */
  lemma InheritanceIsExact(w: World, acts: seq<Act>)
    requires Inv(w) && w.k.prio == w.k.base && CanRun(System(w, map[], map[]), acts)
    ensures var s := Run(System(w, map[], map[]), acts);
      && (forall m :: m in s.holder ==> Boosted(s, m))
      && (forall t :: t in s.w.k.prio && !Holds(s, t) ==> t in s.w.k.base && s.w.k.prio[t] == s.w.k.base[t])
      && (forall t :: t in s.w.k.gen.where && s.w.k.gen.where[t].Ready? ==> t in s.w.k.prio && s.w.k.gen.where[t] == Ready(s.w.k.prio[t]))
  {
    RunKeepsExact(System(w, map[], map[]), acts);
    var s := Run(System(w, map[], map[]), acts);
    forall t | t in s.w.k.prio && !Holds(s, t) ensures t in s.w.k.base && s.w.k.prio[t] == s.w.k.base[t] {
      assert Unboosted(s, t);
    }
  }

  // ---- Outside those rules ----

  /** A mutex given by another task readies its holder, if that had inherited, wherever it was. The invariants survive
      iff the holder is not waiting for an event and has not been deleted. */
  lemma GiveByOtherIsRightIff(w: World, holder: Task)
    requires Inv(w) && holder in w.k.prio && w.k.prio[holder] != w.k.base[holder]
    ensures Inv(w.(k := Disinherit(w.k, holder))) <==> MayBeReadied(w.k, holder)
  {
    if MayBeReadied(w.k, holder) {
      var w' := DisinheritKeepsInv(w, holder);
    } else {
      BadlyReadied(w.k, holder);
    }
  }

  /** What readying such a task does to its items. */
  lemma ReadiedAnyway(k: Kernel, holder: Task) returns (k': Kernel)
    requires Consistent(k.gen) && holder in k.prio && holder in k.base && k.prio[holder] != k.base[holder]
    ensures k' == Disinherit(k, holder) && k'.ev == k.ev && k'.deleted == k.deleted
    ensures k'.gen.where == k.gen.where[holder := Ready(k.base[holder])]
    ensures k'.gen.At(Terminating) == if holder in k.gen.At(Terminating) then Without(k.gen.At(Terminating), holder) else k.gen.At(Terminating)
  {
    var p := k.base[holder];
    var k1 := k.(prio := k.prio[holder := p], evVal := k.evVal[holder := EventValue(k, p)]);
    ReadyKeepsPlaced(k1, holder);
    k' := Disinherit(k, holder);
    assert k' == MoveToReady(k1, holder);
  }

  lemma BadlyReadied(k: Kernel, holder: Task)
    requires Placed(k) && Counted(k) && holder in k.prio && k.prio[holder] != k.base[holder] && !MayBeReadied(k, holder)
    ensures !Homed(Disinherit(k, holder)) || !Counted(Disinherit(k, holder))
  {
    assert holder in k.gen.where;
    var k' := ReadiedAnyway(k, holder);
    if holder in k.ev.where {
      WaitingAndReady(k', holder);
    } else {
      assert holder in k.gen.At(Terminating);
      MiscountedDeletions(k, k', holder);
    }
  }

  lemma WaitingAndReady(k: Kernel, t: Task)
    requires t in k.ev.where && t in k.gen.where && k.gen.where[t].Ready?
    ensures !Homed(k)
  {
  }

  lemma MiscountedDeletions(k: Kernel, k': Kernel, t: Task)
    requires Counted(k) && t in k.gen.At(Terminating) && k'.deleted == k.deleted
    requires k'.gen.At(Terminating) == Without(k.gen.At(Terminating), t)
    ensures !Counted(k')
  {
  }
}
