/** Runs from the start of the scheduler in which priority inheritance does not do what it is for: a holder of two
    mutexes, a holder that waits for an event, and a mutex given by a task that does not hold it. */
module InheritanceLimits {
  import opened Sequences
  import opened Containers
  import opened Ticks
  import opened Tasks
  import opened TaskInvariants
  import opened TaskSteps
  import opened TaskRuns
  import opened TaskStart
  import opened EventOrder
  import I = Inheritance
  import opened ManyMutexes

  const IDLE: Task := 0
  const HOLDER: Task := 1
  const OTHER: Task := 2
  const URGENT: Task := 3

  /** What matters of a state: priorities, where each task is, who waits for event 0, and who runs. */
  datatype Scene = Scene(prio: map<Task, nat>, base: map<Task, nat>, place: map<Task, Place>, waiting: seq<Task>, current: Task)

  ghost predicate Shows(w: World, n: nat, l: nat, sc: Scene) {
    && w.k.period == n && w.k.levels == l && w.k.suspended == 0 && w.k.idle == IDLE
    && w.k.prio == sc.prio && w.k.base == sc.base && w.k.gen.where == sc.place && w.k.current == sc.current
    && w.k.ev.At(Event(0)) == sc.waiting && (forall t :: t in w.k.ev.where <==> t in sc.waiting)
  }

  // ---- What each step makes of a scene ----

  ghost predicate Switches(sc: Scene, t: Task, sc': Scene) {
    && t in sc.place && sc.place[t].Ready?
    && (forall u :: u in sc.place && sc.place[u].Ready? && u != t ==> u in sc.prio && t in sc.prio && sc.prio[u] < sc.prio[t])
    && sc' == sc.(current := t)
  }

  ghost predicate Waits(sc: Scene, at: nat, sc': Scene) {
    && sc.current in sc.place && sc.place[sc.current].Ready? && sc.current != IDLE
    && at <= |sc.waiting| && sc' == sc.(place := sc.place[sc.current := Suspended], waiting := InsertAt(sc.waiting, at, sc.current))
  }

  ghost predicate Sleeps(sc: Scene, sc': Scene) {
    && sc.current in sc.place && sc.place[sc.current].Ready? && sc.current != IDLE
    && sc' == sc.(place := sc.place[sc.current := Suspended])
  }

  ghost predicate Wakes(sc: Scene, t: Task, sc': Scene) {
    && t in sc.place && sc.place[t].Suspended? && t in sc.prio && t !in sc.waiting
    && sc' == sc.(place := sc.place[t := Ready(sc.prio[t])])
  }

  ghost predicate Raises(sc: Scene, t: Task, sc': Scene) {
    && t in sc.place && t in sc.prio && sc.current in sc.prio && sc.prio[t] < sc.prio[sc.current]
    && sc' == sc.(prio := sc.prio[t := sc.prio[sc.current]],
                  place := if sc.place[t].Ready? then sc.place[t := Ready(sc.prio[sc.current])] else sc.place)
  }

  // ---- One step at a time ----

  lemma Switched(w: GoodWorld, n: nat, l: nat, sc: Scene, t: Task, sc': Scene) returns (w': GoodWorld)
    requires Shows(w, n, l, sc) && Orderly(w.k)
    requires Switches(sc, t, sc')
    ensures Allowed(w.k, SwitchTask) && w' == Next(w, SwitchTask)
    ensures Orderly(w'.k)
    ensures Shows(w', n, l, sc')
  {
    w' := SwitchPicksHighest(w);
    IsStep(w, SwitchTask, w');
    SwitchKeepsOrder(w.k);
    assert IsReady(w.k, t);
  }

  /** Blocking on event 0 for ever, behind `at` of its waiters. */
  lemma Blocked(w: GoodWorld, n: nat, l: nat, sc: Scene, at: nat, sc': Scene) returns (w': GoodWorld)
    requires Shows(w, n, l, sc) && Orderly(w.k)
    requires Waits(sc, at, sc')
    requires at == InsertPos(Keys(sc.waiting, w.k.evVal), Get(w.k.evVal, sc.current))
    ensures Allowed(w.k, BlockCurrent(0, n - 1)) && w' == Next(w, BlockCurrent(0, n - 1))
    ensures Orderly(w'.k)
    ensures Shows(w', n, l, sc')
  {
    w' := BlockKeepsInv(w, 0, n - 1);
    IsStep(w, BlockCurrent(0, n - 1), w');
    BlockKeepsOrder(w.k, 0, n - 1);
    BlockedWaits(w.k, w'.k, sc.waiting, at, sc'.waiting);
  }

  lemma BlockedWaits(k: Kernel, k': Kernel, s: seq<Task>, at: nat, s': seq<Task>)
    requires k'.ev.where == k.ev.where[k.current := Event(0)] && at <= |s| && s' == InsertAt(s, at, k.current)
    requires forall t :: t in k.ev.where <==> t in s
    ensures forall t :: t in k'.ev.where <==> t in s'
  {
    InsertedEntries(s, at, k.current);
    forall t | t in s ensures t in s' {
      var i :| 0 <= i < |s| && s[i] == t;
      assert s'[if i < at then i else i + 1] == t;
    }
  }

  /** vTaskSuspend, by the task itself. */
  lemma Slept(w: GoodWorld, n: nat, l: nat, sc: Scene, sc': Scene) returns (w': GoodWorld)
    requires Shows(w, n, l, sc) && Orderly(w.k)
    requires Sleeps(sc, sc')
    ensures Allowed(w.k, SuspendOther(sc.current)) && w' == Next(w, SuspendOther(sc.current))
    ensures Orderly(w'.k)
    ensures Shows(w', n, l, sc')
  {
    var t := sc.current;
    ReadyWaitsNowhere(w.k, t);
    w' := SuspendTaskKeepsInv(w, t);
    NotOnEventList(w.k, t);
    IsStep(w, SuspendOther(t), w');
    UnlistedKeepsOrder(w.k, t);
  }

  /** xTaskResumeFromISR */
  lemma Woken(w: GoodWorld, n: nat, l: nat, sc: Scene, t: Task, sc': Scene) returns (w': GoodWorld)
    requires Shows(w, n, l, sc) && Orderly(w.k)
    requires Wakes(sc, t, sc')
    ensures Allowed(w.k, ResumeOtherFromISR(t)) && w' == Next(w, ResumeOtherFromISR(t))
    ensures Orderly(w'.k)
    ensures Shows(w', n, l, sc')
  {
    w' := ResumeFromISRKeepsInv(w, t);
    IsStep(w, ResumeOtherFromISR(t), w');
    ResumedKeepsOrder(w.k, t);
  }

  /** vTaskPriorityInherit, by a running task of higher priority. */
  lemma Raised(w: GoodWorld, n: nat, l: nat, sc: Scene, t: Task, sc': Scene) returns (w': GoodWorld)
    requires Shows(w, n, l, sc)
    requires Raises(sc, t, sc')
    ensures Allowed(w.k, InheritFrom(t)) && w' == Next(w, InheritFrom(t))
    ensures w' == w.(k := Inherit(w.k, t))
    ensures Shows(w', n, l, sc')
  {
    InheritedOnly(w.k, t);
    w' := InheritKeepsInv(w, t);
    IsStep(w, InheritFrom(t), w');
  }

  lemma InheritedOnly(k: Kernel, t: Task)
    ensures var k' := Inherit(k, t); k' == k.(prio := k'.prio, evVal := k'.evVal, gen := k'.gen, top := k'.top)
  {
  }

  // ---- Runs ----

  /** Steps that create, delete and reprice nobody. */
  predicate Plain(op: Op) {
    op.SwitchTask? || op.BlockCurrent? || op.SuspendOther? || op.ResumeOtherFromISR?
  }

  predicate AllPlain(ops: seq<Op>) {
    ops == [] || (Plain(ops[0]) && AllPlain(ops[1..]))
  }

  /** `w'` is what the steps make of `w`. */
  ghost predicate Leads(w: GoodWorld, ops: seq<Op>, w': World) {
    CanRun(w, ops) && Run(w, ops) == w'
  }

  lemma First(w: GoodWorld, op: Op, next: GoodWorld, rest: seq<Op>, w': World)
    requires Allowed(w.k, op) && next == Next(w, op)
    requires Leads(next, rest, w')
    ensures Leads(w, [op] + rest, w') && (Plain(op) && AllPlain(rest) ==> AllPlain([op] + rest))
  {
    assert ([op] + rest)[1..] == rest;
  }

  lemma Later(w: GoodWorld, ops: seq<Op>, w': World)
    requires ops != [] && Leads(w, ops, w')
    ensures Allowed(w.k, ops[0]) && Leads(Next(w, ops[0]), ops[1..], w')
  {
  }

  lemma Regrouped<T>(ops: seq<T>, rest: seq<T>)
    requires ops != []
    ensures ops + rest == [ops[0]] + (ops[1..] + rest)
  {
  }

  lemma ComposeOne(w: GoodWorld, ops: seq<Op>, rest: seq<Op>, next: GoodWorld, w': World)
    requires ops != [] && Allowed(w.k, ops[0]) && next == Next(w, ops[0])
    requires Leads(next, ops[1..] + rest, w')
    ensures Leads(w, ops + rest, w')
    ensures Plain(ops[0]) && AllPlain(ops[1..] + rest) ==> AllPlain(ops + rest)
  {
    First(w, ops[0], next, ops[1..] + rest, w');
    Regrouped(ops, rest);
  }

  lemma {:induction false} Compose(w: GoodWorld, ops: seq<Op>, w1: GoodWorld, rest: seq<Op>, w': World)
    requires Leads(w, ops, w1)
    requires Leads(w1, rest, w')
    ensures Leads(w, ops + rest, w') && (AllPlain(ops) && AllPlain(rest) ==> AllPlain(ops + rest))
    decreases |ops|
  {
    if ops == [] {
      assert ops + rest == rest;
    } else {
      Later(w, ops, w1);
      var next := Next(w, ops[0]);
      Compose(next, ops[1..], w1, rest, w');
      ComposeOne(w, ops, rest, next, w');
    }
  }

  ghost predicate LeadsAll(z: GoodMulti, acts: seq<I.Act>, z': Multi) {
    MayRun(z, acts) && RunAll(z, acts) == z'
  }

  lemma FirstAct(z: GoodMulti, act: I.Act, next: GoodMulti, rest: seq<I.Act>, z': Multi)
    requires MayDo(z, act) && next == Do(z, act)
    requires LeadsAll(next, rest, z')
    ensures LeadsAll(z, [act] + rest, z')
  {
    assert ([act] + rest)[1..] == rest;
  }

  lemma PlainAct(z: GoodMulti, op: Op, w': GoodWorld) returns (z': GoodMulti)
    requires Allowed(z.s.w.k, op) && Plain(op) && w' == Next(z.s.w, op)
    ensures MayDo(z, I.Other(op)) && z' == Do(z, I.Other(op))
    ensures z'.s == z.s.(w := w')
  {
    z' := Do(z, I.Other(op));
  }

  lemma TakeAct(z: GoodMulti, m: I.Mutex) returns (z': GoodMulti)
    requires m !in z.s.holder && z.s.w.k.current in z.s.w.k.prio
    ensures MayDo(z, I.Take(m)) && z' == Do(z, I.Take(m))
    ensures z'.s == z.s.(holder := z.s.holder[m := z.s.w.k.current], blocked := z.s.blocked[m := []])
  {
    z' := Do(z, I.Take(m));
  }

  lemma WaitAct(z: GoodMulti, m: I.Mutex, w': GoodWorld) returns (z': GoodMulti)
    requires m in z.s.holder && z.s.w.k.current in z.s.w.k.prio
    requires w' == z.s.w.(k := Inherit(z.s.w.k, z.s.holder[m]))
    ensures MayDo(z, I.Wait(m)) && z' == Do(z, I.Wait(m))
    ensures z'.s.w == w' && z'.s.holder == z.s.holder
    ensures I.BlockedOn(z'.s, m) == I.BlockedOn(z.s, m) + [Get(z.s.w.k.prio, z.s.w.k.current)]
  {
    z' := Do(z, I.Wait(m));
  }

  lemma LaterAct(z: GoodMulti, acts: seq<I.Act>, z': Multi)
    requires acts != [] && LeadsAll(z, acts, z')
    ensures MayDo(z, acts[0]) && LeadsAll(Do(z, acts[0]), acts[1..], z')
  {
  }

  lemma ComposeOneAct(z: GoodMulti, acts: seq<I.Act>, rest: seq<I.Act>, next: GoodMulti, z': Multi)
    requires acts != [] && MayDo(z, acts[0]) && next == Do(z, acts[0])
    requires LeadsAll(next, acts[1..] + rest, z')
    ensures LeadsAll(z, acts + rest, z')
  {
    FirstAct(z, acts[0], next, acts[1..] + rest, z');
    Regrouped(acts, rest);
  }

  lemma {:induction false} ComposeAll(z: GoodMulti, acts: seq<I.Act>, z1: GoodMulti, rest: seq<I.Act>, z': Multi)
    requires LeadsAll(z, acts, z1)
    requires LeadsAll(z1, rest, z')
    ensures LeadsAll(z, acts + rest, z')
    decreases |acts|
  {
    if acts == [] {
      NothingLeads(z, acts, z1);
      assert acts + rest == rest;
    } else {
      LaterAct(z, acts, z1);
      ComposeAll(Do(z, acts[0]), acts[1..], z1, rest, z');
      ComposeOneAct(z, acts, rest, Do(z, acts[0]), z');
    }
  }

  lemma NothingLeads(z: GoodMulti, acts: seq<I.Act>, z1: Multi)
    requires acts == [] && LeadsAll(z, acts, z1)
    ensures z1 == z
  {
  }

  function Others(ops: seq<Op>): seq<I.Act> {
    if ops == [] then [] else [I.Other(ops[0])] + Others(ops[1..])
  }

  /** Steps that leave priorities alone can be taken while mutexes are held. */
  lemma {:induction false} Lifted(z: GoodMulti, ops: seq<Op>, w': GoodWorld) returns (z': GoodMulti)
    requires Leads(z.s.w, ops, w') && AllPlain(ops)
    ensures LeadsAll(z, Others(ops), z')
    ensures z'.s == z.s.(w := w')
    decreases |ops|
  {
    if ops == [] {
      z' := z;
    } else {
      Later(z.s.w, ops, w');
      var z1 := PlainAct(z, ops[0], Next(z.s.w, ops[0]));
      z' := Lifted(z1, ops[1..], w');
      FirstAct(z, I.Other(ops[0]), z1, Others(ops[1..]), z');
    }
  }

  // ---- The tasks ----

  const SPECS := [Spec(HOLDER, 1), Spec(OTHER, 2), Spec(URGENT, 3), Spec(IDLE, 0)]
  const PRIORITIES: map<Task, nat> := map[IDLE := 0, HOLDER := 1, OTHER := 2, URGENT := 3]
  const READY: map<Task, Place> := map[IDLE := Ready(0), HOLDER := Ready(1), OTHER := Ready(2), URGENT := Ready(3)]

  lemma NobodyWaits(k: Kernel, e: nat)
    requires Placed(k) && forall t :: t in k.prio ==> IsReady(k, t)
    ensures k.ev.At(Event(e)) == []
  {
    var s := k.ev.At(Event(e));
    assert s != [] ==> s[0] in s && s[0] in k.ev.where && s[0] in k.gen.where && !IsReady(k, s[0]);
  }

  lemma FreshlyPlaced(w: World, prio: map<Task, nat>)
    requires Fresh(w) && w.k.prio == prio
    ensures forall t :: t in w.k.gen.where <==> t in prio
    ensures forall t :: t in prio ==> w.k.gen.where[t] == Ready(prio[t])
    ensures w.k.ev.At(Event(0)) == []
  {
    NobodyWaits(w.k, 0);
  }

  lemma SpecsAreProper()
    ensures Proper(SPECS, IDLE)
  {
    assert SPECS[3] == Spec(IDLE, 0);
  }

  ghost function Begin(n: Period, l: Levels): GoodWorld {
    SpecsAreProper();
    Start(n, l, SPECS, IDLE)
  }

  lemma MadePriorities(k: Kernel)
    requires AsMade(k, SPECS) && k.levels >= 4
    ensures k.prio == PRIORITIES
  {
    var all := SPECS;
    assert all[0] == Spec(HOLDER, 1) && all[1] == Spec(OTHER, 2) && all[2] == Spec(URGENT, 3) && all[3] == Spec(IDLE, 0);
    assert TasksOf(all) == {IDLE, HOLDER, OTHER, URGENT};
    assert k.prio.Keys == PRIORITIES.Keys;
    assert Get(k.prio, all[0].t) == 1 && Get(k.prio, all[1].t) == 2 && Get(k.prio, all[2].t) == 3 && Get(k.prio, all[3].t) == 0;
  }

  lemma FreshIsShown(w: World, n: nat, l: nat, sc: Scene)
    requires Fresh(w) && w.k.period == n && w.k.levels == l && w.k.idle == IDLE
    requires w.k.prio == PRIORITIES && sc == Scene(PRIORITIES, PRIORITIES, READY, [], w.k.current)
    ensures Shows(w, n, l, sc)
  {
    FreshlyPlaced(w, PRIORITIES);
    PlacedReady(w.k.gen.where);
  }

  lemma PlacedReady(where: map<Task, Place>)
    requires forall t :: t in where <==> t in PRIORITIES
    requires forall t :: t in PRIORITIES ==> where[t] == Ready(PRIORITIES[t])
    ensures where == READY
  {
  }

  lemma FirstScene(n: Period, l: Levels) returns (sc: Scene)
    requires l >= 4
    ensures sc == Scene(PRIORITIES, PRIORITIES, READY, [], Begin(n, l).k.current)
    ensures Shows(Begin(n, l), n, l, sc) && Orderly(Begin(n, l).k)
  {
    SpecsAreProper();
    StartedIsFresh(n, l, SPECS, IDLE);
    MadePriorities(Begin(n, l).k);
    sc := Scene(PRIORITIES, PRIORITIES, READY, [], Begin(n, l).k.current);
    FreshIsShown(Begin(n, l), n, l, sc);
  }

  lemma BeginUnheld(n: Period, l: Levels) returns (z: GoodMulti)
    ensures Fresh(Begin(n, l)) && z == Unheld(Begin(n, l))
    ensures z.s.w == Begin(n, l) && z.s.holder == map[]
  {
    SpecsAreProper();
    StartedIsFresh(n, l, SPECS, IDLE);
    z := Unheld(Begin(n, l));
  }

  // ---- A holder that waits for an event ----

  lemma GoesBehind(k: Kernel, l: nat, sc: Scene)
    requires Orderly(k) && k.prio == sc.prio && k.levels == l
    requires OTHER in sc.prio && HOLDER in sc.prio && sc.prio[HOLDER] < sc.prio[OTHER] <= l
    ensures InsertPos(Keys([OTHER], k.evVal), Get(k.evVal, HOLDER)) == 1
  {
    var keys := Keys([OTHER], k.evVal);
    assert keys[0] == l - sc.prio[OTHER] && Get(k.evVal, HOLDER) == l - sc.prio[HOLDER];
    assert Ascending(keys);
    InsertPosUnique(keys, Get(k.evVal, HOLDER), 1);
  }

  /** The urgent task runs first, goes to sleep, and the next one runs. */
  lemma UrgentSleeps(w: GoodWorld, n: nat, l: nat, a: Scene, b: Scene, c: Scene, d: Scene) returns (ops: seq<Op>, w': GoodWorld)
    requires Shows(w, n, l, a) && Orderly(w.k)
    requires Switches(a, URGENT, b)
    requires Sleeps(b, c)
    requires Switches(c, OTHER, d)
    ensures Leads(w, ops, w') && AllPlain(ops)
    ensures Shows(w', n, l, d)
    ensures Orderly(w'.k)
  {
    var w1 := Switched(w, n, l, a, URGENT, b);
    var w2 := Slept(w1, n, l, b, c);
    w' := Switched(w2, n, l, c, OTHER, d);
    First(w2, SwitchTask, w', [], w');
    First(w1, SuspendOther(URGENT), w2, [SwitchTask] + [], w');
    First(w, SwitchTask, w1, [SuspendOther(URGENT)] + ([SwitchTask] + []), w');
    ops := [SwitchTask] + ([SuspendOther(URGENT)] + ([SwitchTask] + []));
  }

  /** The task that runs comes to wait for event 0, and `t` runs. */
  lemma NextWaits(w: GoodWorld, n: nat, l: nat, sc: Scene, at: nat, sc1: Scene, t: Task, sc2: Scene) returns (ops: seq<Op>, w': GoodWorld)
    requires Shows(w, n, l, sc) && Orderly(w.k)
    requires Waits(sc, at, sc1)
    requires at == InsertPos(Keys(sc.waiting, w.k.evVal), Get(w.k.evVal, sc.current))
    requires Switches(sc1, t, sc2)
    ensures Leads(w, ops, w') && AllPlain(ops)
    ensures Shows(w', n, l, sc2)
    ensures Orderly(w'.k)
  {
    var w1 := Blocked(w, n, l, sc, at, sc1);
    w' := Switched(w1, n, l, sc1, t, sc2);
    First(w1, SwitchTask, w', [], w');
    First(w, BlockCurrent(0, n - 1), w1, [SwitchTask] + [], w');
    ops := [BlockCurrent(0, n - 1)] + ([SwitchTask] + []);
  }

  /** An interrupt wakes the urgent task, and it runs. */
  lemma UrgentWakes(w: GoodWorld, n: nat, l: nat, sc: Scene, sc1: Scene, sc2: Scene) returns (ops: seq<Op>, w': GoodWorld)
    requires Shows(w, n, l, sc) && Orderly(w.k)
    requires Wakes(sc, URGENT, sc1)
    requires Switches(sc1, URGENT, sc2)
    ensures Leads(w, ops, w') && AllPlain(ops)
    ensures Shows(w', n, l, sc2)
    ensures Orderly(w'.k)
  {
    var w1 := Woken(w, n, l, sc, URGENT, sc1);
    w' := Switched(w1, n, l, sc1, URGENT, sc2);
    First(w1, SwitchTask, w', [], w');
    First(w, ResumeOtherFromISR(URGENT), w1, [SwitchTask] + [], w');
    ops := [ResumeOtherFromISR(URGENT)] + ([SwitchTask] + []);
  }

  // ---- An event that wakes the wrong task ----

  lemma ScenesOfSleep(current: Task) returns (a: Scene, b: Scene, c: Scene, d: Scene)
    ensures a == Scene(PRIORITIES, PRIORITIES, READY, [], current)
    ensures Switches(a, URGENT, b) && Sleeps(b, c) && Switches(c, OTHER, d)
    ensures d == Scene(PRIORITIES, PRIORITIES, READY[URGENT := Suspended], [], OTHER)
  {
    a := Scene(PRIORITIES, PRIORITIES, READY, [], current);
    b := a.(current := URGENT);
    c := b.(place := READY[URGENT := Suspended]);
    d := c.(current := OTHER);
  }

  /** Both wait for event 0, the lower behind the higher, while the urgent task sleeps; and when it runs again. */
  const ALL_WAIT := Scene(PRIORITIES, PRIORITIES, READY[URGENT := Suspended][OTHER := Suspended][HOLDER := Suspended], [OTHER, HOLDER], HOLDER)
  const URGENT_RUNS := Scene(PRIORITIES, PRIORITIES, READY[OTHER := Suspended][HOLDER := Suspended], [OTHER, HOLDER], URGENT)

  lemma ScenesOfWaiting(d: Scene) returns (e: Scene, f: Scene, g: Scene)
    requires d == Scene(PRIORITIES, PRIORITIES, READY[URGENT := Suspended], [], OTHER)
    ensures Waits(d, 0, e) && Switches(e, HOLDER, f) && Waits(f, 1, g)
    ensures f.waiting == [OTHER] && f.prio == PRIORITIES && f.current == HOLDER
    ensures g == ALL_WAIT
  {
    e := d.(place := d.place[OTHER := Suspended], waiting := [OTHER]);
    f := e.(current := HOLDER);
    g := f.(place := f.place[HOLDER := Suspended], waiting := [OTHER, HOLDER]);
  }

  lemma ScenesOfWaking(g: Scene) returns (h: Scene, i: Scene, j: Scene)
    requires g == ALL_WAIT
    ensures Switches(g, IDLE, h) && Wakes(h, URGENT, i) && Switches(i, URGENT, j)
    ensures j == URGENT_RUNS
  {
    h := g.(current := IDLE);
    i := h.(place := h.place[URGENT := Ready(3)]);
    j := i.(current := URGENT);
    assert READY[URGENT := Suspended][OTHER := Suspended][HOLDER := Suspended][URGENT := Ready(3)]
        == READY[OTHER := Suspended][HOLDER := Suspended];
  }

  /** From the start there is a run after which the holder-to-be runs, while another task waits for event 0. */
  lemma OtherWaits(n: Period, l: Levels) returns (ops: seq<Op>, w: GoodWorld, f: Scene)
    requires l >= 4
    ensures Leads(Begin(n, l), ops, w) && AllPlain(ops)
    ensures Shows(w, n, l, f) && Orderly(w.k)
    ensures f.waiting == [OTHER] && f.prio == PRIORITIES && f.current == HOLDER
    ensures Waits(f, 1, ALL_WAIT)
  {
    var w0 := Begin(n, l);
    var a := FirstScene(n, l);
    var _, b, c, d := ScenesOfSleep(w0.k.current);
    var e, f', g := ScenesOfWaiting(d);
    f := f';
    var ops1, w1 := UrgentSleeps(w0, n, l, a, b, c, d);
    var ops2;
    ops2, w := NextWaits(w1, n, l, d, 0, e, HOLDER, f);
    ops := ops1 + ops2;
    Compose(w0, ops1, w1, ops2, w);
  }

  /** It comes to wait behind the other, and the urgent task is woken and runs. */
  lemma HolderWaits(w: GoodWorld, n: nat, l: nat, f: Scene) returns (ops: seq<Op>, w': GoodWorld, j: Scene)
    requires l >= 4 && Shows(w, n, l, f) && Orderly(w.k)
    requires f.waiting == [OTHER] && f.prio == PRIORITIES && f.current == HOLDER
    requires Waits(f, 1, ALL_WAIT)
    ensures Leads(w, ops, w') && AllPlain(ops)
    ensures j == URGENT_RUNS
    ensures Shows(w', n, l, j)
    ensures Orderly(w'.k)
  {
    var g := ALL_WAIT;
    var h, i, j' := ScenesOfWaking(g);
    j := j';
    GoesBehind(w.k, l, f);
    var ops1, w1 := NextWaits(w, n, l, f, 1, g, IDLE, h);
    var ops2;
    ops2, w' := UrgentWakes(w1, n, l, h, i, j);
    ops := ops1 + ops2;
    Compose(w, ops1, w1, ops2, w');
  }

  /** A task raised to priority 3 waits for event 0 behind one of priority 2. */
  ghost predicate WaitsBehind(w: World) {
    && w.k.ev.At(Event(0)) == [OTHER, HOLDER] && w.k.suspended == 0
    && HOLDER in w.k.prio && Get(w.k.prio, HOLDER) == 3 && Get(w.k.prio, OTHER) == 2
  }

  lemma UrgentWaits(z: GoodMulti, n: nat, l: nat, j: Scene) returns (z': GoodMulti)
    requires Shows(z.s.w, n, l, j) && 1 in z.s.holder && z.s.holder[1] == HOLDER
    requires j == URGENT_RUNS
    ensures LeadsAll(z, [I.Wait(1)] + [], z')
    ensures z'.s.holder == z.s.holder && WaitsBehind(z'.s.w) && Get(z'.s.w.k.base, HOLDER) == 1 && z'.s.w.k.current == URGENT
  {
    var w1 := Raised(z.s.w, n, l, j, HOLDER, j.(prio := PRIORITIES[HOLDER := 3]));
    z' := WaitAct(z, 1, w1);
    FirstAct(z, I.Wait(1), z', [], z');
  }

  /** From the start there is a run in which a task takes a mutex and then waits for event 0 behind another of higher
      priority, while an urgent one comes to wait for the mutex and raises it above that. */
  lemma HolderIsOvertaken(n: Period, l: Levels) returns (acts: seq<I.Act>, z0: GoodMulti, z: GoodMulti)
    requires l >= 4
    ensures Fresh(Begin(n, l)) && z0 == Unheld(Begin(n, l))
    ensures LeadsAll(z0, acts, z)
    ensures 1 in z.s.holder && z.s.holder[1] == HOLDER && z.s.w.k.current == URGENT
    ensures WaitsBehind(z.s.w) && Get(z.s.w.k.base, HOLDER) == 1
  {
    z0 := BeginUnheld(n, l);
    var ops1, w1, f := OtherWaits(n, l);
    var z1 := Lifted(z0, ops1, w1);
    var z2 := TakeAct(z1, 1);
    var ops2, w2, j := HolderWaits(w1, n, l, f);
    var z3 := Lifted(z2, ops2, w2);
    z := UrgentWaits(z3, n, l, j);
    var wait := [I.Wait(1)] + [];
    var rest := [I.Take(1)] + (Others(ops2) + wait);
    acts := Others(ops1) + rest;
    ComposeAll(z2, Others(ops2), z3, wait, z);
    FirstAct(z1, I.Take(1), z2, Others(ops2) + wait, z);
    ComposeAll(z0, Others(ops1), z1, rest, z);
  }

  lemma RepricedOnly(k: Kernel, t: Task, priority: nat)
    ensures var k' := SetPriority(k, t, priority);
      k' == k.(prio := k'.prio, base := k'.base, evVal := k'.evVal, gen := k'.gen, top := k'.top)
  {
  }

  lemma HolderIsRepriced(w: GoodWorld, n: nat, l: nat, j: Scene) returns (w': GoodWorld)
    requires l >= 4 && Shows(w, n, l, j)
    requires j == URGENT_RUNS
    ensures Allowed(w.k, Reprioritise(HOLDER, 3)) && w' == Next(w, Reprioritise(HOLDER, 3)) && WaitsBehind(w')
  {
    RepricedOnly(w.k, HOLDER, 3);
    w' := SetPriorityKeepsInv(w, HOLDER, 3);
    IsStep(w, Reprioritise(HOLDER, 3), w');
  }

  /** The same comes of vTaskPrioritySet, on a task that has inherited nothing. */
  lemma WaiterIsRepriced(n: Period, l: Levels) returns (ops: seq<Op>, w: GoodWorld, w': GoodWorld)
    requires l >= 4
    ensures Fresh(Begin(n, l)) && Leads(Begin(n, l), ops, w) && Orderly(w.k)
    ensures Allowed(w.k, Reprioritise(HOLDER, 3)) && w' == Next(w, Reprioritise(HOLDER, 3)) && WaitsBehind(w')
  {
    var z := BeginUnheld(n, l);
    var ops1, w1, f := OtherWaits(n, l);
    var ops2, j;
    ops2, w, j := HolderWaits(w1, n, l, f);
    w' := HolderIsRepriced(w, n, l, j);
    ops := ops1 + ops2;
    Compose(Begin(n, l), ops1, w1, ops2, w);
  }

  /** The list is then out of order. */
  lemma BehindIsOutOfOrder(w: World)
    requires Inv(w) && WaitsBehind(w)
    ensures !Orderly(w.k)
  {
    if Orderly(w.k) {
      var keys := Keys(w.k.ev.At(Event(0)), w.k.evVal);
      assert keys[0] <= keys[1];
      WaitersHavePriorities(w.k, 0, 0);
      WaitersHavePriorities(w.k, 0, 1);
    }
  }

  /** Event 0 readies `t` while `u`, which has a higher priority, goes on waiting for it. */
  ghost predicate Overtakes(w: GoodWorld, t: Task, u: Task) {
    Allowed(w.k, RaiseEvent(0)) &&
    var k := Next(w, RaiseEvent(0)).k;
    IsReady(k, t) && u in k.ev.where && k.ev.where[u] == Event(0) && Get(k.prio, t) < Get(k.prio, u)
  }

  lemma FirstIsWoken(w: GoodWorld, t: Task, u: Task)
    requires w.k.ev.At(Event(0)) == [t, u] && w.k.suspended == 0 && Get(w.k.prio, t) < Get(w.k.prio, u)
    ensures Overtakes(w, t, u)
  {
    TwoOnList(w.k, t, u);
    I.SignalKeepsPriorities(w.k, 0);
    var w' := SignalKeepsInv(w, 0);
    IsStep(w, RaiseEvent(0), w');
  }

  lemma TwoOnList(k: Kernel, t: Task, u: Task)
    requires Placed(k) && k.ev.At(Event(0)) == [t, u]
    ensures t != u && u in k.ev.where && k.ev.where[u] == Event(0)
  {
    var s := k.ev.At(Event(0));
    assert s[0] == t && s[1] == u && u in s;
  }

  /** The event then wakes the lower of the two, and the higher goes on waiting: after an inheritance. */
  lemma LowerIsWoken(n: Period, l: Levels) returns (acts: seq<I.Act>, z0: GoodMulti, z: GoodMulti)
    requires l >= 4
    ensures Fresh(Begin(n, l)) && z0 == Unheld(Begin(n, l)) && LeadsAll(z0, acts, z)
    ensures !Orderly(z.s.w.k) && Overtakes(z.s.w, OTHER, HOLDER)
  {
    acts, z0, z := HolderIsOvertaken(n, l);
    BehindIsOutOfOrder(z.s.w);
    FirstIsWoken(z.s.w, OTHER, HOLDER);
  }

  /** And after a vTaskPrioritySet. */
  lemma LowerIsWokenToo(n: Period, l: Levels) returns (ops: seq<Op>, w: GoodWorld, w': GoodWorld)
    requires l >= 4
    ensures Fresh(Begin(n, l)) && Leads(Begin(n, l), ops, w) && Orderly(w.k)
    ensures Allowed(w.k, Reprioritise(HOLDER, 3)) && w' == Next(w, Reprioritise(HOLDER, 3))
    ensures !Orderly(w'.k) && Overtakes(w', OTHER, HOLDER)
  {
    ops, w, w' := WaiterIsRepriced(n, l);
    BehindIsOutOfOrder(w');
    FirstIsWoken(w', OTHER, HOLDER);
  }

  lemma WaiterIsReadied(w: GoodWorld, t: Task, u: Task)
    requires w.k.ev.At(Event(0)) == [t, u] && u in w.k.prio && Get(w.k.prio, u) != Get(w.k.base, u)
    ensures !MayBeReadied(w.k, u) && !Inv(w.(k := Disinherit(w.k, u)))
  {
    assert w.k.ev.At(Event(0))[1] == u && u in w.k.ev.At(Event(0));
    I.GiveByOtherIsRightIff(w, u);
  }

  /** And if the task that came to wait for the mutex were to give it, its holder would be ready while it waits. */
  lemma GivenByOtherWhileWaiting(n: Period, l: Levels) returns (acts: seq<I.Act>, z0: GoodMulti, z: GoodMulti)
    requires l >= 4
    ensures Fresh(Begin(n, l)) && z0 == Unheld(Begin(n, l)) && LeadsAll(z0, acts, z)
    ensures 1 in z.s.holder && z.s.holder[1] == HOLDER != z.s.w.k.current && HOLDER in z.s.w.k.prio
    ensures !MayBeReadied(z.s.w.k, HOLDER) && !Inv(z.s.w.(k := Disinherit(z.s.w.k, HOLDER)))
  {
    acts, z0, z := HolderIsOvertaken(n, l);
    WaiterIsReadied(z.s.w, OTHER, HOLDER);
  }

  // ---- A holder of two mutexes ----

  ghost predicate HoldsBoth(s: I.System, t: Task) {
    1 in s.holder && 2 in s.holder && s.holder[1] == t && s.holder[2] == t
  }

  /** The task that runs takes two mutexes. */
  lemma TakesTwo(z: GoodMulti) returns (z': GoodMulti)
    requires 1 !in z.s.holder && 2 !in z.s.holder && z.s.w.k.current in z.s.w.k.prio
    ensures LeadsAll(z, [I.Take(1)] + ([I.Take(2)] + []), z')
    ensures z'.s.w == z.s.w
    ensures HoldsBoth(z'.s, z.s.w.k.current) && I.BlockedOn(z'.s, 2) == []
  {
    var z1 := TakeAct(z, 1);
    z' := TakeAct(z1, 2);
    FirstAct(z1, I.Take(2), z', [], z');
    FirstAct(z, I.Take(1), z1, [I.Take(2)] + [], z');
  }

  /** It comes to wait for the second mutex, and raises its holder. */
  lemma WaitRaises(z: GoodMulti, n: nat, l: nat, f: Scene, g: Scene) returns (z': GoodMulti)
    requires Shows(z.s.w, n, l, f) && Orderly(z.s.w.k)
    requires 2 in z.s.holder && z.s.holder[2] == OTHER && I.BlockedOn(z.s, 2) == []
    requires Raises(f, OTHER, g) && f.place[OTHER].Ready?
    ensures MayDo(z, I.Wait(2)) && z' == Do(z, I.Wait(2))
    ensures z'.s.holder == z.s.holder && I.BlockedOn(z'.s, 2) == [Get(f.prio, f.current)]
    ensures Shows(z'.s.w, n, l, g)
    ensures Orderly(z'.s.w.k)
  {
    var w1 := Raised(z.s.w, n, l, f, OTHER, g);
    ReadyWaitsNowhere(z.s.w.k, OTHER);
    PricesKeepOrder(z.s.w.k, OTHER, 0);
    z' := WaitAct(z, 2, w1);
  }

  /** A task that held both gave the first and holds the second. */
  ghost predicate GaveFirst(s: I.System, s': I.System, h: Task) {
    && 2 in s'.holder && s'.holder[2] == h && I.BlockedOn(s', 2) == I.BlockedOn(s, 2) && s'.w.k.base == s.w.k.base
    && h in s'.w.k.prio && h in s'.w.k.base && s'.w.k.prio[h] == s'.w.k.base[h]
  }

  lemma GivenFirst(s: I.System, s': I.System, h: Task)
    requires HoldsBoth(s, h) && s'.holder == s.holder - {1} && s'.blocked == s.blocked && s'.w.k.base == s.w.k.base
    requires h in s'.w.k.prio && h in s'.w.k.base && s'.w.k.prio[h] == s'.w.k.base[h]
    ensures GaveFirst(s, s', h)
  {
  }

  lemma GiveAct(z: GoodMulti, h: Task) returns (z': GoodMulti)
    requires MayDo(z, I.Give(1)) && h == z.s.w.k.current
    requires HoldsBoth(z.s, h)
    ensures z' == Do(z, I.Give(1))
    ensures GaveFirst(z.s, z'.s, h)
  {
    var y := GiveKeepsSound(z, 1);
    GivenFirst(z.s, y.s, h);
    z' := Do(z, I.Give(1));
  }

  lemma ScenesOfMutexes(d: Scene) returns (e: Scene, f: Scene, g: Scene, h: Scene, i: Scene)
    requires d == Scene(PRIORITIES, PRIORITIES, READY[URGENT := Suspended], [], OTHER)
    ensures Wakes(d, URGENT, e) && Switches(e, URGENT, f) && Raises(f, OTHER, g) && f.place[OTHER].Ready?
    ensures Waits(g, 0, h) && Switches(h, OTHER, i) && g.waiting == []
    ensures Get(f.prio, f.current) == 3 && i.current == OTHER && OTHER in i.place && i.place[OTHER].Ready? && Get(i.base, OTHER) == 2
  {
    e := d.(place := d.place[URGENT := Ready(3)]);
    f := e.(current := URGENT);
    g := f.(prio := f.prio[OTHER := 3], place := f.place[OTHER := Ready(3)]);
    h := g.(place := g.place[URGENT := Suspended], waiting := [URGENT]);
    i := h.(current := OTHER);
  }

  lemma BothAreTaken(z: GoodMulti, n: nat, l: nat, a: Scene, b: Scene, c: Scene, d: Scene) returns (acts: seq<I.Act>, z': GoodMulti)
    requires Shows(z.s.w, n, l, a) && Orderly(z.s.w.k) && z.s.holder == map[]
    requires Switches(a, URGENT, b)
    requires Sleeps(b, c)
    requires Switches(c, OTHER, d) && OTHER in d.prio
    ensures LeadsAll(z, acts, z')
    ensures Shows(z'.s.w, n, l, d)
    ensures Orderly(z'.s.w.k)
    ensures HoldsBoth(z'.s, OTHER) && I.BlockedOn(z'.s, 2) == []
  {
    var ops, w1 := UrgentSleeps(z.s.w, n, l, a, b, c, d);
    var z1 := Lifted(z, ops, w1);
    z' := TakesTwo(z1);
    acts := Others(ops) + ([I.Take(1)] + ([I.Take(2)] + []));
    ComposeAll(z, Others(ops), z1, [I.Take(1)] + ([I.Take(2)] + []), z');
  }

  lemma SecondIsWaitedFor(z: GoodMulti, n: nat, l: nat, f: Scene, g: Scene, h: Scene, i: Scene) returns (acts: seq<I.Act>, z': GoodMulti)
    requires 2 <= n && Shows(z.s.w, n, l, f) && Orderly(z.s.w.k)
    requires HoldsBoth(z.s, OTHER) && I.BlockedOn(z.s, 2) == []
    requires Raises(f, OTHER, g) && f.place[OTHER].Ready?
    requires Waits(g, 0, h) && g.waiting == []
    requires Switches(h, OTHER, i)
    ensures LeadsAll(z, acts, z')
    ensures Shows(z'.s.w, n, l, i)
    ensures HoldsBoth(z'.s, OTHER) && I.BlockedOn(z'.s, 2) == [Get(f.prio, f.current)]
  {
    var z1 := WaitRaises(z, n, l, f, g);
    var ops, w2 := NextWaits(z1.s.w, n, l, g, 0, h, OTHER, i);
    z' := Lifted(z1, ops, w2);
    acts := [I.Wait(2)] + Others(ops);
    FirstAct(z, I.Wait(2), z1, Others(ops), z');
  }

  lemma FirstIsGiven(z: GoodMulti, n: nat, l: nat, i: Scene) returns (z': GoodMulti)
    requires Shows(z.s.w, n, l, i) && i.current == OTHER && OTHER in i.place && i.place[OTHER].Ready?
    requires HoldsBoth(z.s, OTHER)
    ensures LeadsAll(z, [I.Give(1)] + [], z')
    ensures 2 in z'.s.holder && z'.s.holder[2] == OTHER && I.BlockedOn(z'.s, 2) == I.BlockedOn(z.s, 2)
    ensures OTHER in z'.s.w.k.prio && OTHER in z'.s.w.k.base && z'.s.w.k.prio[OTHER] == Get(i.base, OTHER) == z'.s.w.k.base[OTHER]
  {
    z' := GiveAct(z, OTHER);
    FirstAct(z, I.Give(1), z', [], z');
  }

  /** A task of priority 2 holds a mutex that one of priority 3 has blocked on, and goes on at its own. */
  ghost predicate Forgotten(s: I.System) {
    && 2 in s.holder && s.holder[2] == OTHER && I.BlockedOn(s, 2) == [3]
    && OTHER in s.w.k.prio && OTHER in s.w.k.base && s.w.k.prio[OTHER] == 2 == s.w.k.base[OTHER]
    && !RunsAsPromised(s, OTHER)
  }

  lemma PromiseIsBroken(s: I.System)
    requires 2 in s.holder && s.holder[2] == OTHER && I.BlockedOn(s, 2) == [3]
    requires OTHER in s.w.k.prio && OTHER in s.w.k.base && s.w.k.prio[OTHER] == 2 == s.w.k.base[OTHER]
    ensures Forgotten(s)
  {
    assert I.BlockedOn(s, 2)[0] == 3 && 3 in I.BlockedOn(s, 2);
  }

  lemma SecondIsForgotten(z: GoodMulti, n: nat, l: nat, d: Scene, e: Scene, f: Scene, g: Scene, h: Scene, i: Scene) returns (acts: seq<I.Act>, z': GoodMulti)
    requires 2 <= n && Shows(z.s.w, n, l, d) && Orderly(z.s.w.k)
    requires HoldsBoth(z.s, OTHER) && I.BlockedOn(z.s, 2) == []
    requires Wakes(d, URGENT, e)
    requires Switches(e, URGENT, f) && Get(f.prio, f.current) == 3
    requires Raises(f, OTHER, g) && f.place[OTHER].Ready?
    requires Waits(g, 0, h) && g.waiting == []
    requires Switches(h, OTHER, i) && Get(i.base, OTHER) == 2
    ensures LeadsAll(z, acts, z')
    ensures Forgotten(z'.s)
  {
    var ops, w1 := UrgentWakes(z.s.w, n, l, d, e, f);
    var z1 := Lifted(z, ops, w1);
    var acts1, z2 := SecondIsWaitedFor(z1, n, l, f, g, h, i);
    z' := FirstIsGiven(z2, n, l, i);
    PromiseIsBroken(z'.s);
    var give := [I.Give(1)] + [];
    acts := Others(ops) + (acts1 + give);
    ComposeAll(z1, acts1, z2, give, z');
    ComposeAll(z, Others(ops), z1, acts1 + give, z');
  }

  /** From the start there is a run in which a task gives one of two mutexes while a task of higher priority waits for
      the other: it goes on at its own priority, and not at the one inheritance promises. */
  lemma SecondMutexIsForgotten(n: Period, l: Levels) returns (acts: seq<I.Act>, z0: GoodMulti, z: GoodMulti)
    requires l >= 4
    ensures Fresh(Begin(n, l)) && z0 == Unheld(Begin(n, l))
    ensures LeadsAll(z0, acts, z)
    ensures Forgotten(z.s)
  {
    z0 := BeginUnheld(n, l);
    var a := FirstScene(n, l);
    var _, b, c, d := ScenesOfSleep(z0.s.w.k.current);
    var e, f, g, h, i := ScenesOfMutexes(d);
    var acts1, z1 := BothAreTaken(z0, n, l, a, b, c, d);
    var acts2;
    acts2, z := SecondIsForgotten(z1, n, l, d, e, f, g, h, i);
    acts := acts1 + acts2;
    ComposeAll(z0, acts1, z1, acts2, z);
  }
}
