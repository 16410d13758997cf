/** tasks.c: tasks of equal priority take turns. A task that stays ready at the highest ready level is chosen after
    no more switches than there were tasks ahead of it, and one, whoever joins or leaves meanwhile. */
module Fairness {
  import opened Sequences
  import opened Containers
  import opened Tasks
  import opened TaskInvariants
  import opened TaskSteps
  import opened TaskRuns

  // ---- Places in a queue ----

  /** `t` is in both queues, and no further back in the second. */
  ghost predicate NotBehind(q: seq<Task>, q': seq<Task>, t: Task) {
    t in q && t in q' && IndexOf(q', t) <= IndexOf(q, t)
  }

  lemma WithoutOther(q: seq<Task>, t: Task, u: Task)
    requires NoDup(q) && t in q && u in q && u != t
    ensures NotBehind(q, Without(q, u), t)
  {
    var i, j := IndexOf(q, u), IndexOf(q, t);
    WithoutMembers(q, u);
    var r := Without(q, u);
    var p := if j < i then j else j - 1;
    assert r[p] == t;
    IndexOfUnique(r, t, p);
  }

  lemma {:induction false} AppendedBehind(q: seq<Task>, t: Task, u: Task)
    requires t in q
    ensures NotBehind(q, q + [u], t)
  {
    assert (q + [u])[0] == q[0];
    if q[0] != t {
      assert (q + [u])[1..] == q[1..] + [u];
      AppendedBehind(q[1..], t, u);
    }
  }

  lemma RotatedAhead(q: seq<Task>, t: Task)
    requires NoDup(q) && t in q && q[0] != t
    ensures t in Rotate(q) && IndexOf(Rotate(q), t) == IndexOf(q, t) - 1
  {
    var j := IndexOf(q, t);
    RotateMembers(q);
    assert Rotate(q)[j - 1] == t;
    IndexOfUnique(Rotate(q), t, j - 1);
  }

  // ---- Steps keep a ready task's place ----

  /** `t` is no further back in ready list `l` of `k'` than in that of `k`. */
  ghost predicate KeepsPlace(k: Kernel, k': Kernel, l: nat, t: Task) {
    NotBehind(k.gen.At(Ready(l)), k'.gen.At(Ready(l)), t)
  }

  lemma KeepsPlaceComposes(k: Kernel, k1: Kernel, k2: Kernel, l: nat, t: Task)
    requires KeepsPlace(k, k1, l, t) && KeepsPlace(k1, k2, l, t)
    ensures KeepsPlace(k, k2, l, t)
  {
  }

  lemma UnlinkKeepsPlace(m: Lists<Place>, u: Task, l: nat, t: Task)
    requires Consistent(m) && u != t && t in m.At(Ready(l))
    ensures NotBehind(m.At(Ready(l)), Unlink(m, u).At(Ready(l)), t) && Consistent(Unlink(m, u))
  {
    UnlinkIsConsistent(m, u);
    if u in m.At(Ready(l)) {
      WithoutOther(m.At(Ready(l)), t, u);
    }
  }

  /** Another task goes from wherever it was to another list, or to the end of this one. */
  lemma MoveKeepsPlace(m: Lists<Place>, u: Task, place: Place, i: nat, l: nat, t: Task)
    requires Consistent(m) && u != t && t in m.At(Ready(l))
    requires i <= |Unlink(m, u).At(place)| && (place == Ready(l) ==> i == |Unlink(m, u).At(place)|)
    ensures NotBehind(m.At(Ready(l)), Put(Unlink(m, u), place, i, u).At(Ready(l)), t)
  {
    UnlinkKeepsPlace(m, u, l, t);
    if place == Ready(l) {
      AppendedBehind(Unlink(m, u).At(place), t, u);
    }
  }

  lemma ReadyKeepsPlace(k: Kernel, u: Task, l: nat, t: Task)
    requires Consistent(k.gen) && u != t && t in k.gen.At(Ready(l))
    ensures KeepsPlace(k, MoveToReady(k, u), l, t) && KeepsPlace(k, WakeTask(k, u), l, t)
  {
    var p := Ready(Get(k.prio, u));
    MoveKeepsPlace(k.gen, u, p, |Unlink(k.gen, u).At(p)|, l, t);
  }

  lemma MoveToKeepsPlace(k: Kernel, u: Task, place: Place, l: nat, t: Task)
    requires Consistent(k.gen) && u != t && t in k.gen.At(Ready(l))
    ensures KeepsPlace(k, MoveTo(k, u, place), l, t)
  {
    MoveKeepsPlace(k.gen, u, place, |Unlink(k.gen, u).At(place)|, l, t);
  }

  lemma DelayKeepsPlace(k: Kernel, v: nat, l: nat, t: Task) returns (k': Kernel)
    requires Consistent(k.gen) && k.current != t && t in k.gen.At(Ready(l))
    ensures k' == MoveToDelayed(k, v) && KeepsPlace(k, k', l, t)
  {
    k' := MoveToDelayed(k, v);
    var wake := k.wake[k.current := v];
    var gen := Unlink(k.gen, k.current);
    forall b: bool ensures NotBehind(k.gen.At(Ready(l)), PutSorted(gen, Delay(b), k.current, wake).At(Ready(l)), t) {
      MoveKeepsPlace(k.gen, k.current, Delay(b), InsertPos(Keys(gen.At(Delay(b)), wake), Get(wake, k.current)), l, t);
    }
  }

  lemma {:induction false} ScanKeepsPlace(k: Kernel, l: nat, t: Task)
    requires Consistent(k.gen) && t in k.gen.At(Ready(l))
    ensures KeepsPlace(k, Scan(k), l, t)
    decreases |Delayed(k)|
  {
    if Delayed(k) != [] && k.tick >= Get(k.wake, Delayed(k)[0]) {
      var u := Delayed(k)[0];
      assert u in Delayed(k);
      MovedIsConsistent(k.gen, u, Ready(Get(k.prio, u)), |Unlink(k.gen, u).At(Ready(Get(k.prio, u)))|);
      ReadyKeepsPlace(k, u, l, t);
      ScanKeepsPlace(WakeTask(k, u), l, t);
      KeepsPlaceComposes(k, WakeTask(k, u), Scan(k), l, t);
    }
  }

  lemma TickKeepsPlace(k: Kernel, l: nat, t: Task)
    requires Consistent(k.gen) && t in k.gen.At(Ready(l))
    ensures KeepsPlace(k, IncrementTick(k), l, t)
  {
    var a := AdvanceKeepsLists(k);
    if k.suspended == 0 && a.tick >= a.nextUnblock {
      ScanKeepsPlace(a, l, t);
    }
  }

  lemma AdvanceKeepsLists(k: Kernel) returns (a: Kernel)
    ensures a == Advance(k) && a.gen == k.gen
  {
    a := Advance(k);
  }

  lemma {:induction false} DrainKeepsPlace(k: Kernel, l: nat, t: Task)
    requires Consistent(k.gen) && Consistent(k.ev) && t in k.gen.At(Ready(l)) && t !in k.ev.where
    ensures KeepsPlace(k, DrainPending(k), l, t)
    decreases |k.ev.At(Pending)|
  {
    if k.ev.At(Pending) != [] {
      var u := k.ev.At(Pending)[0];
      assert u in k.ev.At(Pending);
      UnlinkIsConsistent(k.ev, u);
      MovedIsConsistent(k.gen, u, Ready(Get(k.prio, u)), |Unlink(k.gen, u).At(Ready(Get(k.prio, u)))|);
      ReadyKeepsPlace(k, u, l, t);
      DrainKeepsPlace(WakeTask(k, u), l, t);
      KeepsPlaceComposes(k, WakeTask(k, u), DrainPending(k), l, t);
    }
  }

  lemma {:induction false} ReplayKeepsPlace(k: Kernel, l: nat, t: Task)
    requires Consistent(k.gen) && k.suspended == 0 && t in k.gen.At(Ready(l))
    ensures KeepsPlace(k, ReplayTicks(k), l, t)
    decreases k.missed
  {
    if k.missed > 0 {
      var k1 := IncrementTick(k).(missed := k.missed - 1);
      TickKeepsCounters(k);
      TickKeepsPlace(k, l, t);
      ReplayKeepsPlace(k1, l, t);
      KeepsPlaceComposes(k, k1, ReplayTicks(k), l, t);
    }
  }

  lemma ResumeKeepsPlace(k: Kernel, l: nat, t: Task)
    requires Consistent(k.gen) && Consistent(k.ev) && k.suspended > 0 && t in k.gen.At(Ready(l)) && t !in k.ev.where
    ensures KeepsPlace(k, ResumeAll(k), l, t)
  {
    var k1 := k.(suspended := k.suspended - 1);
    if k1.suspended == 0 && k.tasks != 0 {
      DrainKeepsCounters(k1);
      DrainKeepsPlace(k1, l, t);
      ReplayKeepsPlace(DrainPending(k1), l, t);
      KeepsPlaceComposes(k1, DrainPending(k1), ReplayTicks(DrainPending(k1)), l, t);
    }
  }

  ghost predicate Reprices(op: Op, t: Task) {
    (op.InheritFrom? || op.DisinheritBy? || op.Reprioritise?) && op.t == t
  }

  lemma DelayForKeepsPlace(k: Kernel, k1: Kernel, ticks: nat, l: nat, t: Task)
    requires Consistent(k.gen) && k.current != t && t in k.gen.At(Ready(l)) && k1 == k.(ev := k1.ev)
    ensures KeepsPlace(k, DelayFor(k1, ticks), l, t)
  {
    var k' := DelayKeepsPlace(k1, (k.tick + ticks) % k.period, l, t);
    SameListsKeepPlace(k, k1, k', l, t);
    assert DelayFor(k1, ticks) == k';
  }

  lemma SameListsKeepPlace(k: Kernel, k1: Kernel, k2: Kernel, l: nat, t: Task)
    requires k1.gen == k.gen && KeepsPlace(k1, k2, l, t)
    ensures KeepsPlace(k, k2, l, t)
  {
  }

  lemma BlockKeepsPlace(k: Kernel, e: nat, ticks: nat, l: nat, t: Task)
    requires Consistent(k.gen) && k.current != t && t in k.gen.At(Ready(l))
    ensures KeepsPlace(k, PlaceOnEventList(k, e, ticks), l, t)
  {
    var k1 := k.(ev := PutSorted(k.ev, Event(e), k.current, k.evVal));
    if ticks == MaxDelay(k) {
      MoveToKeepsPlace(k1, k.current, Suspended, l, t);
    } else {
      DelayForKeepsPlace(k, k1, ticks, l, t);
    }
  }

  lemma WaitKeepsPlace(k: Kernel, op: Op, l: nat, t: Task)
    requires Placed(k) && Counted(k) && Allowed(k, op) && t in k.gen.At(Ready(l)) && !Handles(k, op, t)
    requires op.DelayCurrent? || op.BlockCurrent? || op.BlockRestricted?
    ensures KeepsPlace(k, Effect(k, op), l, t)
  {
    match op
    case DelayCurrent(ticks) => DelayForKeepsPlace(k, k, ticks, l, t);
    case BlockCurrent(e, ticks) => BlockKeepsPlace(k, e, ticks, l, t);
    case BlockRestricted(e, ticks, at) => DelayForKeepsPlace(k, k.(ev := Put(k.ev, Event(e), at, k.current)), ticks, l, t);
  }

  lemma EventKeepsPlace(k: Kernel, e: nat, l: nat, t: Task)
    requires Placed(k) && k.ev.At(Event(e)) != [] && t in k.gen.At(Ready(l)) && t != k.ev.At(Event(e))[0]
    ensures KeepsPlace(k, SignalEvent(k, e), l, t)
  {
    var u := k.ev.At(Event(e))[0];
    ReadyKeepsPlace(k.(ev := Unlink(k.ev, u)), u, l, t);
  }

  lemma TakenAwayKeepsPlace(k: Kernel, u: Task, l: nat, t: Task)
    requires Consistent(k.gen) && t in k.gen.At(Ready(l)) && u != t
    ensures KeepsPlace(k, SuspendTask(k, u), l, t) && KeepsPlace(k, Tasks.Delete(k, u), l, t)
  {
    MoveToKeepsPlace(k.(ev := Unlink(k.ev, u)), u, Suspended, l, t);
    MoveToKeepsPlace(k.(ev := Unlink(k.ev, u), deleted := k.deleted + 1), u, Terminating, l, t);
  }

  lemma ResumedKeepsPlace(k: Kernel, u: Task, l: nat, t: Task)
    requires Consistent(k.gen) && t in k.gen.At(Ready(l)) && u != t
    ensures KeepsPlace(k, ResumeTask(k, u), l, t) && KeepsPlace(k, ResumeFromISR(k, u), l, t)
  {
    ReadyKeepsPlace(k, u, l, t);
  }

  lemma CreateKeepsPlace(k: Kernel, u: Task, priority: nat, l: nat, t: Task)
    requires Consistent(k.gen) && t in k.gen.At(Ready(l)) && u != t
    ensures KeepsPlace(k, Create(k, u, priority), l, t)
  {
    var p := Cap(k, priority);
    ReadyKeepsPlace(k.(tasks := k.tasks + 1, prio := k.prio[u := p], base := k.base[u := p], evVal := k.evVal[u := EventValue(k, p)]), u, l, t);
  }

  lemma RepricingKeepsPlace(k: Kernel, u: Task, prio: map<Task, nat>, base: map<Task, nat>, evVal: map<Task, nat>, l: nat, t: Task)
    requires Consistent(k.gen) && t in k.gen.At(Ready(l)) && u != t
    ensures KeepsPlace(k, MoveToReady(k.(prio := prio, base := base, evVal := evVal), u), l, t)
  {
    ReadyKeepsPlace(k.(prio := prio, base := base, evVal := evVal), u, l, t);
  }

  lemma InheritKeepsPlace(k: Kernel, u: Task, l: nat, t: Task)
    requires Consistent(k.gen) && t in k.gen.At(Ready(l)) && u != t
    ensures KeepsPlace(k, Inherit(k, u), l, t)
  {
    var p := Get(k.prio, k.current);
    RepricingKeepsPlace(k, u, k.prio[u := p], k.base, k.evVal[u := EventValue(k, p)], l, t);
  }

  lemma DisinheritKeepsPlace(k: Kernel, u: Task, l: nat, t: Task)
    requires Consistent(k.gen) && t in k.gen.At(Ready(l)) && u != t
    ensures KeepsPlace(k, Disinherit(k, u), l, t)
  {
    var p := Get(k.base, u);
    RepricingKeepsPlace(k, u, k.prio[u := p], k.base, k.evVal[u := EventValue(k, p)], l, t);
  }

  lemma SetPriorityKeepsPlace(k: Kernel, u: Task, priority: nat, l: nat, t: Task)
    requires Consistent(k.gen) && t in k.gen.At(Ready(l)) && u != t
    ensures KeepsPlace(k, SetPriority(k, u, priority), l, t)
  {
    var p, was := Cap(k, priority), Get(k.base, u);
    RepricingKeepsPlace(k, u, if Get(k.prio, u) == was then k.prio[u := p] else k.prio, k.base[u := p], k.evVal[u := EventValue(k, p)], l, t);
  }

  lemma ReapKeepsPlace(k: Kernel, l: nat, t: Task)
    requires Consistent(k.gen) && t in k.gen.At(Ready(l)) && k.gen.At(Terminating) != [] && k.tasks > 0 && k.deleted > 0
    ensures KeepsPlace(k, Reap(k), l, t)
  {
    var u := k.gen.At(Terminating)[0];
    assert u in k.gen.At(Terminating) && k.gen.where[u] == Terminating && k.gen.where[t] == Ready(l);
    UnlinkKeepsPlace(k.gen, u, l, t);
  }

  lemma TaskControlKeepsPlace(k: Kernel, op: Op, l: nat, t: Task)
    requires Placed(k) && Counted(k) && Allowed(k, op) && t in k.gen.At(Ready(l)) && !Handles(k, op, t)
    requires op.SuspendOther? || op.ResumeOther? || op.ResumeOtherFromISR? || op.DeleteTask?
    ensures KeepsPlace(k, Effect(k, op), l, t)
  {
    if op.SuspendOther? || op.DeleteTask? {
      TakenAwayKeepsPlace(k, op.t, l, t);
    } else {
      ResumedKeepsPlace(k, op.t, l, t);
    }
  }

  lemma PopulationKeepsPlace(k: Kernel, op: Op, l: nat, t: Task)
    requires Placed(k) && Counted(k) && Allowed(k, op) && t in k.gen.At(Ready(l)) && t in k.gen.where && k.gen.where[t] == Ready(l)
    requires op.CreateTask? || op.ReapTask?
    ensures KeepsPlace(k, Effect(k, op), l, t)
  {
    match op
    case CreateTask(u, priority) => CreateKeepsPlace(k, u, priority, l, t);
    case ReapTask => TasksCounted(k); ReapKeepsPlace(k, l, t);
  }

  lemma PriorityStepKeepsPlace(k: Kernel, op: Op, l: nat, t: Task)
    requires Placed(k) && Counted(k) && Allowed(k, op) && t in k.gen.At(Ready(l)) && !Reprices(op, t)
    requires op.InheritFrom? || op.DisinheritBy? || op.Reprioritise?
    ensures KeepsPlace(k, Effect(k, op), l, t)
  {
    match op
    case InheritFrom(u) => InheritKeepsPlace(k, u, l, t);
    case DisinheritBy(u) => DisinheritKeepsPlace(k, u, l, t);
    case Reprioritise(u, priority) => SetPriorityKeepsPlace(k, u, priority, l, t);
  }

  lemma ClockStepKeepsPlace(k: Kernel, op: Op, l: nat, t: Task)
    requires Placed(k) && Counted(k) && Allowed(k, op) && t in k.gen.At(Ready(l)) && t in k.gen.where && k.gen.where[t] == Ready(l)
    requires op.TickInterrupt? || op.SuspendScheduler? || op.ResumeScheduler?
    ensures KeepsPlace(k, Effect(k, op), l, t)
  {
    match op
    case TickInterrupt => TickKeepsPlace(k, l, t);
    case SuspendScheduler =>
    case ResumeScheduler => ResumeKeepsPlace(k, l, t);
  }

  /** No step but a task switch moves a ready task back, unless it moves that task itself. */
  lemma StepKeepsPlace(k: Kernel, op: Op, l: nat, t: Task) returns (k': Kernel)
    requires Placed(k) && Counted(k) && Allowed(k, op) && t in k.gen.At(Ready(l))
    requires !op.SwitchTask? && !Handles(k, op, t) && !Reprices(op, t)
    ensures k' == Effect(k, op) && KeepsPlace(k, k', l, t)
  {
    assert t in k.gen.where && k.gen.where[t] == Ready(l);
    k' := Effect(k, op);
    if op.TickInterrupt? || op.SuspendScheduler? || op.ResumeScheduler? {
      ClockStepKeepsPlace(k, op, l, t);
    } else if op.DelayCurrent? || op.BlockCurrent? || op.BlockRestricted? {
      WaitKeepsPlace(k, op, l, t);
    } else if op.InheritFrom? || op.DisinheritBy? || op.Reprioritise? {
      PriorityStepKeepsPlace(k, op, l, t);
    } else if op.RaiseEvent? {
      EventKeepsPlace(k, op.e, l, t);
    } else if op.CreateTask? || op.ReapTask? {
      PopulationKeepsPlace(k, op, l, t);
    } else {
      TaskControlKeepsPlace(k, op, l, t);
    }
  }

  // ---- Turns ----

  /** A switch that chooses a task: the scheduler is not suspended. */
  ghost predicate Chooses(w: World, op: Op) {
    op.SwitchTask? && w.k.suspended == 0
  }

  /** Over the run, `t` stays on ready list `l`, and every choice finds `l` the highest level with a ready task. */
  ghost predicate StaysOnTop(w: GoodWorld, ops: seq<Op>, l: nat, t: Task)
    requires CanRun(w, ops)
    decreases |ops|
  {
    ops == [] ||
    (&& !Handles(w.k, ops[0], t) && !Reprices(ops[0], t)
     && (Chooses(w, ops[0]) ==> TopReady(w.k.gen, w.k.top) == l)
     && StaysOnTop(Next(w, ops[0]), ops[1..], l, t))
  }

  ghost function Choices(w: GoodWorld, ops: seq<Op>): nat
    requires CanRun(w, ops)
    decreases |ops|
  {
    if ops == [] then 0 else (if Chooses(w, ops[0]) then 1 else 0) + Choices(Next(w, ops[0]), ops[1..])
  }

  /** At some switch of the run `t` becomes the running task. */
  ghost predicate GetsChosen(w: GoodWorld, ops: seq<Op>, t: Task)
    requires CanRun(w, ops)
    decreases |ops|
  {
    ops != [] && ((Chooses(w, ops[0]) && Next(w, ops[0]).k.current == t) || GetsChosen(Next(w, ops[0]), ops[1..], t))
  }

  /** A switch that does not choose `t` moves it one place forward. */
  lemma SwitchAdvances(k: Kernel, l: nat, t: Task) returns (k': Kernel)
    requires Placed(k) && k.suspended == 0 && TopReady(k.gen, k.top) == l && t in k.gen.At(Ready(l))
    ensures k' == SwitchContext(k) && k'.current == k.gen.At(Ready(l))[0]
    ensures t in k'.gen.At(Ready(l))
    ensures k'.current != t ==> IndexOf(k'.gen.At(Ready(l)), t) == IndexOf(k.gen.At(Ready(l)), t) - 1
  {
    k' := SwitchContext(k);
    var q := k.gen.At(Ready(l));
    RotateMembers(q);
    if q[0] != t {
      RotatedAhead(q, t);
    }
  }

  lemma HeldSwitchKeepsPlace(k: Kernel, l: nat, t: Task)
    requires Placed(k) && k.suspended != 0 && t in k.gen.At(Ready(l))
    ensures KeepsPlace(k, SwitchContext(k), l, t)
  {
  }

  /** Tasks of a level take turns: if `t` stays ready at the top, more choices than there were tasks ahead of it
      include it, however many tasks joined or left the level, or were switched in and out, in between. */
  lemma {:induction false} EveryoneGetsATurn(w: GoodWorld, ops: seq<Op>, l: nat, t: Task)
    requires CanRun(w, ops) && t in w.k.gen.At(Ready(l)) && StaysOnTop(w, ops, l, t)
    requires Choices(w, ops) > IndexOf(w.k.gen.At(Ready(l)), t)
    ensures GetsChosen(w, ops, t)
    decreases |ops|
  {
    var op, w' := ops[0], Next(w, ops[0]);
    if Chooses(w, op) {
      var k' := SwitchAdvances(w.k, l, t);
      if k'.current != t {
        EveryoneGetsATurn(w', ops[1..], l, t);
      }
    } else {
      if op.SwitchTask? {
        HeldSwitchKeepsPlace(w.k, l, t);
      } else {
        var k' := StepKeepsPlace(w.k, op, l, t);
      }
      EveryoneGetsATurn(w', ops[1..], l, t);
    }
  }
}
