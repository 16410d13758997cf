/** The states in which the scheduler starts: any tick period, any number of priorities, any tasks created before it.
    They satisfy every invariant, so what is proved of runs holds of all that starts there. */
module TaskStart {
  import opened Sequences
  import opened Containers
  import opened Ticks
  import opened Tasks
  import opened TaskInvariants
  import opened TaskSteps
  import opened TaskRuns
  import EventOrder
  import Inheritance

  /** A call of xTaskGenericCreate. */
  datatype Spec = Spec(t: Task, priority: nat)

  predicate Distinct(specs: seq<Spec>) {
    forall i, j :: 0 <= i < j < |specs| ==> specs[i].t != specs[j].t
  }

  /** xTaskGenericCreate before the scheduler runs: the new task is the current one unless that has a higher priority. */
  ghost function CreateEarly(w: World, s: Spec): World {
    var k := Create(w.k, s.t, s.priority);
    w.(k := k.(current := if Get(k.prio, k.current) <= Get(k.prio, s.t) then s.t else k.current))
  }

  /** The tasks there are when the scheduler starts, in the order they were created. */
  ghost function Boot(n: Period, l: Levels, specs: seq<Spec>): World
    requires specs != []
  {
    if |specs| == 1 then Alone(n, l, specs[0].t, specs[0].priority) else CreateEarly(Boot(n, l, specs[..|specs| - 1]), specs[|specs| - 1])
  }

  /** vTaskStartScheduler has added the idle task, and the timer daemon behind it if there is one. */
  predicate Proper(specs: seq<Spec>, idle: Task) {
    Distinct(specs) && Spec(idle, 0) in specs
  }

  ghost function Started(n: Period, l: Levels, specs: seq<Spec>, idle: Task): World
    requires Proper(specs, idle)
  {
    var w := Boot(n, l, specs);
    w.(k := w.k.(idle := idle))
  }

  // ---- They satisfy every invariant ----

  lemma FirstIsGood(n: Period, l: Levels, s: Spec)
    ensures var w := Alone(n, l, s.t, s.priority);
      Inv(w) && EventOrder.Orderly(w.k) && w.k.prio == w.k.base && w.k.prio.Keys == {s.t} && IsReady(w.k, s.t)
  {
    AloneIsGood(n, l, s.t, s.priority);
    AloneIsPlaced(n, l, s.t, s.priority);
    var k := Alone(n, l, s.t, s.priority).k;
    assert forall e: nat :: k.ev.At(Event(e)) == [];
  }

  /** The idle and current tasks may be any ready one. */
  lemma NamesAreIrrelevant(w: World, idle: Task, current: Task)
    requires Inv(w) && IsReady(w.k, idle)
    ensures Inv(w.(k := w.k.(idle := idle, current := current)))
  {
    var w' := w.(k := w.k.(idle := idle, current := current));
    SameListsKeepPlaced(w.k.(idle := idle), w'.k);
    OtherListsKeepOrder(w, w');
  }

  /** Good, all tasks ready at the priority they were created with, none inherited, and event lists in order. */
  ghost predicate Fresh(w: World) {
    && Inv(w) && EventOrder.Orderly(w.k) && w.k.prio == w.k.base && w.k.current in w.k.prio
    && (forall t :: t in w.k.prio ==> IsReady(w.k, t))
    && w.T == 0 && w.interrupts == 0 && w.k.suspended == 0
  }

  lemma CreatedEarlyIsFresh(w: World, s: Spec)
    requires Fresh(w) && s.t !in w.k.prio
    ensures Fresh(CreateEarly(w, s)) && CreateEarly(w, s).k.prio == w.k.prio[s.t := Cap(w.k, s.priority)]
    ensures CreateEarly(w, s).k.levels == w.k.levels && CreateEarly(w, s).k.period == w.k.period
  {
    var w1 := CreateKeepsInv(w, s.t, s.priority);
    EventOrder.CreateKeepsOrder(w.k, s.t, s.priority);
    var w' := CreateEarly(w, s);
    NamesAreIrrelevant(w1, w.k.idle, w'.k.current);
    EventOrder.SameEventsStayOrderly(w1.k, w'.k, w1.k.ev);
    assert w1.k.prio == w.k.prio[s.t := Cap(w.k, s.priority)] && w1.k.base == w.k.base[s.t := Cap(w.k, s.priority)];
  }

  function TasksOf(specs: seq<Spec>): set<Task> {
    set i | 0 <= i < |specs| :: specs[i].t
  }

  /** The tasks are those specified, at the priorities specified. */
  ghost predicate AsMade(k: Kernel, specs: seq<Spec>) {
    k.prio.Keys == TasksOf(specs) && forall i :: 0 <= i < |specs| ==> Get(k.prio, specs[i].t) == Least(specs[i].priority, k.levels - 1)
  }

  lemma OneMoreIsMade(k: Kernel, k': Kernel, specs: seq<Spec>)
    requires specs != [] && Distinct(specs)
    requires AsMade(k, specs[..|specs| - 1]) && k'.levels == k.levels
    requires var s := specs[|specs| - 1]; k'.prio == k.prio[s.t := Cap(k, s.priority)]
    ensures AsMade(k', specs)
  {
    assert TasksOf(specs) == TasksOf(specs[..|specs| - 1]) + {specs[|specs| - 1].t};
  }

  lemma LastIsNew(k: Kernel, specs: seq<Spec>)
    requires specs != [] && Distinct(specs) && AsMade(k, specs[..|specs| - 1])
    ensures specs[|specs| - 1].t !in k.prio
  {
    assert specs[|specs| - 1].t !in TasksOf(specs[..|specs| - 1]);
  }

  lemma {:induction false} BootIsFresh(n: Period, l: Levels, specs: seq<Spec>) returns (w: World)
    requires specs != [] && Distinct(specs)
    ensures w == Boot(n, l, specs) && Fresh(w) && w.k.period == n && w.k.levels == l && AsMade(w.k, specs)
  {
    var last := specs[|specs| - 1];
    if |specs| == 1 {
      FirstIsGood(n, l, last);
      w := Alone(n, l, last.t, last.priority);
      assert TasksOf(specs) == {last.t};
    } else {
      var v := BootIsFresh(n, l, specs[..|specs| - 1]);
      LastIsNew(v.k, specs);
      CreatedEarlyIsFresh(v, last);
      w := CreateEarly(v, last);
      OneMoreIsMade(v.k, w.k, specs);
    }
  }

  lemma RenamedIsFresh(w: World, idle: Task) returns (w': World)
    requires Fresh(w) && idle in w.k.prio
    ensures w' == w.(k := w.k.(idle := idle)) && Fresh(w')
    ensures forall specs :: AsMade(w.k, specs) ==> AsMade(w'.k, specs)
  {
    w' := w.(k := w.k.(idle := idle));
    NamesAreIrrelevant(w, idle, w.k.current);
    EventOrder.SameEventsStayOrderly(w.k, w'.k, w.k.ev);
  }

  /** Any scheduler starts in a state that satisfies every invariant, in which each task is ready at the priority it
      was created with and the event lists are in order. */
  lemma StartedIsFresh(n: Period, l: Levels, specs: seq<Spec>, idle: Task)
    requires Proper(specs, idle)
    ensures var w := Started(n, l, specs, idle);
      Fresh(w) && w.k.period == n && w.k.levels == l && w.k.idle == idle && AsMade(w.k, specs)
  {
    IdleIsSpecified(specs, idle);
    var w := BootIsFresh(n, l, specs);
    var w' := RenamedIsFresh(w, idle);
  }

  function Priority(s: Spec, l: Levels): nat {
    Least(s.priority, l - 1)
  }

  /** The i-th task created is at least as urgent as those before it and more so than those after it. */
  predicate LastOfHighest(specs: seq<Spec>, l: Levels, i: nat) {
    && i < |specs|
    && (forall j :: 0 <= j < i ==> Priority(specs[j], l) <= Priority(specs[i], l))
    && (forall j :: i < j < |specs| ==> Priority(specs[j], l) < Priority(specs[i], l))
  }

  lemma NewcomerOrNot(front: seq<Spec>, s: Spec, l: Levels, i: nat) returns (i': nat)
    requires LastOfHighest(front, l, i)
    ensures LastOfHighest(front + [s], l, i') && i' == if Priority(front[i], l) <= Priority(s, l) then |front| else i
  {
    i' := if Priority(front[i], l) <= Priority(s, l) then |front| else i;
  }

  lemma NewcomerRuns(w: World, front: seq<Spec>, s: Spec, l: Levels, i: nat)
    requires i < |front| && AsMade(w.k, front) && s.t !in w.k.prio && w.k.levels == l && w.k.current == front[i].t
    ensures CreateEarly(w, s).k.current == if Priority(front[i], l) <= Priority(s, l) then s.t else front[i].t
  {
    assert front[i].t in TasksOf(front);
  }

  lemma BootIsMade(n: Period, l: Levels, specs: seq<Spec>)
    requires specs != [] && Distinct(specs)
    ensures Boot(n, l, specs).k.levels == l && AsMade(Boot(n, l, specs).k, specs)
  {
    var w := BootIsFresh(n, l, specs);
  }

  lemma NewcomerIsOne(v: World, specs: seq<Spec>, front: seq<Spec>, last: Spec, l: Levels, i: nat) returns (i': nat)
    requires specs == front + [last]
    requires LastOfHighest(front, l, i) && AsMade(v.k, front) && last.t !in v.k.prio && v.k.levels == l && v.k.current == front[i].t
    ensures LastOfHighest(specs, l, i') && CreateEarly(v, last).k.current == specs[i'].t
  {
    NewcomerRuns(v, front, last, l, i);
    i' := NewcomerOrNot(front, last, l, i);
  }

  lemma OneMoreBoots(v: World, specs: seq<Spec>, l: Levels, i: nat) returns (i': nat)
    requires |specs| > 1 && Distinct(specs) && LastOfHighest(specs[..|specs| - 1], l, i)
    requires AsMade(v.k, specs[..|specs| - 1]) && v.k.levels == l && v.k.current == specs[i].t
    ensures LastOfHighest(specs, l, i') && CreateEarly(v, specs[|specs| - 1]).k.current == specs[i'].t
  {
    LastIsNew(v.k, specs);
    i' := NewcomerIsOne(v, specs, specs[..|specs| - 1], specs[|specs| - 1], l, i);
  }

  lemma {:induction false} BootRuns(n: Period, l: Levels, specs: seq<Spec>) returns (i: nat)
    requires specs != [] && Distinct(specs)
    ensures LastOfHighest(specs, l, i) && Boot(n, l, specs).k.current == specs[i].t
  {
    if |specs| == 1 {
      i := 0;
    } else {
      i := BootRuns(n, l, specs[..|specs| - 1]);
      BootIsMade(n, l, specs[..|specs| - 1]);
      i := OneMoreBoots(Boot(n, l, specs[..|specs| - 1]), specs, l, i);
    }
  }

  /** The scheduler starts with the task that was created last of those of the highest priority. */
  lemma HighestRunsFirst(n: Period, l: Levels, specs: seq<Spec>, idle: Task) returns (i: nat)
    requires Proper(specs, idle)
    ensures LastOfHighest(specs, l, i) && Started(n, l, specs, idle).k.current == specs[i].t
  {
    i := BootRuns(n, l, specs);
  }

  lemma IdleIsSpecified(specs: seq<Spec>, idle: Task)
    requires Proper(specs, idle)
    ensures idle in TasksOf(specs)
  {
    var i :| 0 <= i < |specs| && specs[i] == Spec(idle, 0);
    assert specs[i].t in TasksOf(specs);
  }

  ghost function Start(n: Period, l: Levels, specs: seq<Spec>, idle: Task): GoodWorld
    requires Proper(specs, idle)
  {
    StartedIsFresh(n, l, specs, idle);
    Started(n, l, specs, idle)
  }

  // ---- What holds of every run from the start ----

  /** After any run, a task that is delayed then and left alone from then on is ready exactly from its deadline on. */
  lemma WakesOnTimeFromStart(n: Period, l: Levels, specs: seq<Spec>, idle: Task, before: seq<Op>, ops: seq<Op>, t: Task)
    requires Proper(specs, idle) && CanRun(Start(n, l, specs, idle), before)
    requires var w := Run(Start(n, l, specs, idle), before);
      CanRun(w, ops) && LeftAlone(w, ops, t) && IsDelayed(w.k, t) && w.T < Due(w, t)
    ensures var w := Run(Start(n, l, specs, idle), before);
      var w' := Run(w, ops);
      if w'.T < Due(w, t) then IsDelayed(w'.k, t) && Due(w', t) == Due(w, t) else IsReady(w'.k, t)
  {
    WakesExactlyWhenDue(Run(Start(n, l, specs, idle), before), ops, t);
  }

  /** After any run, resuming the scheduler for good catches up with all that happened meanwhile; and the clock is then
      the number of tick interrupts since the start. */
  lemma ResumeLosesNothingFromStart(n: Period, l: Levels, specs: seq<Spec>, idle: Task, ops: seq<Op>)
    requires Proper(specs, idle) && CanRun(Start(n, l, specs, idle), ops)
    requires Run(Start(n, l, specs, idle), ops).k.suspended == 1
    ensures var w := Run(Start(n, l, specs, idle), ops);
      var w' := Next(w, ResumeScheduler);
      Resumed(w, w') && w'.T == w'.interrupts
  {
    ResumedIsNext(Run(Start(n, l, specs, idle), ops));
  }

  lemma ResumedIsNext(w: GoodWorld)
    requires w.k.suspended == 1
    ensures Resumed(w, Next(w, ResumeScheduler)) && Next(w, ResumeScheduler).T == Next(w, ResumeScheduler).interrupts
  {
    var w' := ResumeLosesNothing(w);
    IsStep(w, ResumeScheduler, w');
  }

  /** No mutex is held at the start. */
  ghost function StartSystem(n: Period, l: Levels, specs: seq<Spec>, idle: Task): (s: Inheritance.System)
    requires Proper(specs, idle)
    ensures Inv(s.w) && Inheritance.Exact(s)
  {
    StartedIsFresh(n, l, specs, idle);
    Inheritance.System(Start(n, l, specs, idle), map[], map[])
  }

  /** In any run in which tasks hold one mutex at a time, the priorities are those the mutexes call for. */
  lemma InheritanceIsExactFromStart(n: Period, l: Levels, specs: seq<Spec>, idle: Task, acts: seq<Inheritance.Act>)
    requires Proper(specs, idle) && Inheritance.CanRun(StartSystem(n, l, specs, idle), acts)
    ensures var s := Inheritance.Run(StartSystem(n, l, specs, idle), acts);
      && (forall m :: m in s.holder ==> Inheritance.Boosted(s, m))
      && (forall t :: t in s.w.k.prio && !Inheritance.Holds(s, t) ==> t in s.w.k.base && s.w.k.prio[t] == s.w.k.base[t])
  {
    StartedIsFresh(n, l, specs, idle);
    Inheritance.InheritanceIsExact(Start(n, l, specs, idle), acts);
  }

  /** In any run that keeps to the rules of EventOrder, an event wakes a task of the highest priority of its waiters. */
  lemma EventWakesHighestFromStart(n: Period, l: Levels, specs: seq<Spec>, idle: Task, ops: seq<Op>, e: nat, t: Task)
    requires Proper(specs, idle) && CanRun(Start(n, l, specs, idle), ops)
    requires EventOrder.AllRespect(Start(n, l, specs, idle), ops)
    requires t in Run(Start(n, l, specs, idle), ops).k.ev.At(Event(e))
    ensures var k := Run(Start(n, l, specs, idle), ops).k;
      var head := k.ev.At(Event(e))[0];
      t in k.prio && head in k.prio && k.prio[t] <= k.prio[head] && head !in SignalEvent(k, e).ev.At(Event(e))
  {
    StartedIsFresh(n, l, specs, idle);
    EventOrder.EventWakesHighest(Start(n, l, specs, idle), ops, e, t);
  }
}
