/** tasks.c: event lists are in priority order, so that the task an event wakes is one of highest priority. */
module EventOrder {
  import opened Sequences
  import opened Containers
  import opened Tasks
  import opened TaskInvariants
  import opened TaskSteps
  import opened TaskRuns

  ghost predicate InOrder(m: Lists<EventPlace>, value: map<Task, nat>) {
    forall e: nat :: Ascending(Keys(m.At(Event(e)), value))
  }

  /** Event values are the priorities, counted from the top. */
  ghost predicate Matched(k: Kernel) {
    forall t :: t in k.prio ==> t in k.evVal && k.evVal[t] == EventValue(k, k.prio[t])
  }

  ghost predicate Orderly(k: Kernel) {
    InOrder(k.ev, k.evVal) && Matched(k)
  }

  // ---- Changes of the event lists ----

  lemma UnlinkKeepsOrder(m: Lists<EventPlace>, t: Task, value: map<Task, nat>)
    requires Consistent(m) && InOrder(m, value)
    ensures Consistent(Unlink(m, t)) && InOrder(Unlink(m, t), value)
  {
    UnlinkIsConsistent(m, t);
    forall e: nat ensures Ascending(Keys(Unlink(m, t).At(Event(e)), value)) {
      if t in m.At(Event(e)) {
        WithoutKeepsOrder(m.At(Event(e)), t, value);
      }
    }
  }

  lemma PendKeepsOrder(m: Lists<EventPlace>, t: Task, value: map<Task, nat>)
    requires InOrder(m, value)
    ensures InOrder(PutEnd(m, Pending, t), value)
  {
    forall e: nat ensures Ascending(Keys(PutEnd(m, Pending, t).At(Event(e)), value)) {
      assert PutEnd(m, Pending, t).At(Event(e)) == m.At(Event(e));
    }
  }

  lemma SortedPutKeepsOrder(m: Lists<EventPlace>, e: nat, t: Task, value: map<Task, nat>)
    requires Consistent(m) && t !in m.where && InOrder(m, value)
    ensures InOrder(PutSorted(m, Event(e), t, value), value)
  {
    var m' := PutSorted(m, Event(e), t, value);
    var p := InsertPos(Keys(m.At(Event(e)), value), Get(value, t));
    PutIsConsistent(m, Event(e), p, t);
    InsertKeepsAscending(Keys(m.At(Event(e)), value), Get(value, t));
    KeysOfInsert(m.At(Event(e)), p, t, value);
    forall e': nat ensures Ascending(Keys(m'.At(Event(e')), value)) {
      assert e' != e ==> m'.At(Event(e')) == m.At(Event(e'));
    }
  }

  /** The restricted way of blocking appends, which is right for the one task that ever waits there. */
  lemma OnlyEntryIsInOrder(m: Lists<EventPlace>, e: nat, t: Task, value: map<Task, nat>)
    requires InOrder(m, value) && m.At(Event(e)) == []
    ensures InOrder(Put(m, Event(e), 0, t), value)
  {
    var m' := Put(m, Event(e), 0, t);
    forall e': nat ensures Ascending(Keys(m'.At(Event(e')), value)) {
      assert e' != e ==> m'.At(Event(e')) == m.At(Event(e'));
    }
  }

  /** The value of a task that waits nowhere, or has gone, is nobody's business. */
  lemma OtherValuesKeepOrder(m: Lists<EventPlace>, value: map<Task, nat>, value': map<Task, nat>)
    requires Consistent(m) && InOrder(m, value) && forall t :: t in m.where ==> Get(value', t) == Get(value, t)
    ensures InOrder(m, value')
  {
    forall e: nat ensures Ascending(Keys(m.At(Event(e)), value')) {
      var s := m.At(Event(e));
      forall i | 0 <= i < |s| ensures Keys(s, value')[i] == Keys(s, value)[i] {
        assert s[i] in s;
      }
      assert Keys(s, value') == Keys(s, value);
    }
  }

  // ---- Steps that only unlink ----

  ghost predicate SameValues(k: Kernel, k': Kernel) {
    k'.evVal == k.evVal && k'.prio == k.prio && k'.levels == k.levels
  }

  /** `k'` is orderly because `k` is and its event lists are still consistent and in order. */
  ghost predicate KeepsOrder(k: Kernel, k': Kernel) {
    SameValues(k, k') && Consistent(k'.ev) && InOrder(k'.ev, k'.evVal)
  }

  lemma KeptIsOrderly(k: Kernel, k': Kernel)
    requires Orderly(k) && KeepsOrder(k, k')
    ensures Orderly(k')
  {
  }

  lemma {:induction false} ScanKeepsOrder(k: Kernel)
    requires Consistent(k.gen) && Consistent(k.ev) && InOrder(k.ev, k.evVal)
    ensures KeepsOrder(k, Scan(k))
    decreases |Delayed(k)|
  {
    if Delayed(k) != [] && k.tick >= Get(k.wake, Delayed(k)[0]) {
      var t := Delayed(k)[0];
      MovedIsConsistent(k.gen, t, Ready(Get(k.prio, t)), |Unlink(k.gen, t).At(Ready(Get(k.prio, t)))|);
      UnlinkKeepsOrder(k.ev, t, k.evVal);
      ScanKeepsOrder(WakeTask(k, t));
    }
  }

  lemma AdvanceKeepsEvents(k: Kernel) returns (a: Kernel)
    ensures a == Advance(k) && a.gen == k.gen && a.ev == k.ev && SameValues(k, a)
  {
    a := Advance(k);
  }

  lemma TickKeepsOrder(k: Kernel)
    requires Consistent(k.gen) && Consistent(k.ev) && InOrder(k.ev, k.evVal)
    ensures KeepsOrder(k, IncrementTick(k))
  {
    var a := AdvanceKeepsEvents(k);
    if k.suspended == 0 && a.tick >= a.nextUnblock {
      ScanKeepsOrder(a);
    }
  }

  lemma {:induction false} DrainKeepsOrder(k: Kernel)
    requires Consistent(k.gen) && Consistent(k.ev) && InOrder(k.ev, k.evVal)
    ensures KeepsOrder(k, DrainPending(k))
    decreases |k.ev.At(Pending)|
  {
    if k.ev.At(Pending) != [] {
      var t := k.ev.At(Pending)[0];
      UnlinkKeepsOrder(k.ev, t, k.evVal);
      UnlinkIsConsistent(k.ev, t);
      MovedIsConsistent(k.gen, t, Ready(Get(k.prio, t)), |Unlink(k.gen, t).At(Ready(Get(k.prio, t)))|);
      DrainKeepsOrder(WakeTask(k, t));
    }
  }

  lemma {:induction false} ReplayKeepsOrder(k: Kernel)
    requires Consistent(k.gen) && Consistent(k.ev) && InOrder(k.ev, k.evVal) && k.suspended == 0
    ensures KeepsOrder(k, ReplayTicks(k))
    decreases k.missed
  {
    if k.missed > 0 {
      TickKeepsCounters(k);
      TickKeepsOrder(k);
      ReplayKeepsOrder(IncrementTick(k).(missed := k.missed - 1));
    }
  }

  lemma ResumeKeepsOrder(k: Kernel)
    requires Consistent(k.gen) && Consistent(k.ev) && InOrder(k.ev, k.evVal) && k.suspended > 0
    ensures KeepsOrder(k, ResumeAll(k))
  {
    var k1 := k.(suspended := k.suspended - 1);
    if k1.suspended == 0 && k.tasks != 0 {
      DrainKeepsCounters(k1);
      DrainKeepsOrder(k1);
      ReplayKeepsOrder(DrainPending(k1));
    }
  }

  // ---- The other steps ----

  lemma ReadyWaitsNowhere(k: Kernel, t: Task)
    requires Homed(k) && IsReady(k, t)
    ensures t !in k.ev.where
  {
  }

  lemma SameEventsStayOrderly(k: Kernel, k': Kernel, ev: Lists<EventPlace>)
    requires Orderly(k) && SameValues(k, k') && k'.ev == ev && InOrder(ev, k.evVal)
    ensures Orderly(k')
  {
  }

  lemma MovesKeepEvents(k: Kernel, t: Task, l: Place)
    ensures MoveTo(k, t, l).ev == k.ev && SameValues(k, MoveTo(k, t, l))
    ensures MoveToReady(k, t).ev == k.ev && SameValues(k, MoveToReady(k, t))
  {
  }

  lemma MoveToDelayedKeepsEvents(k: Kernel, v: nat) returns (d: Kernel)
    ensures d == MoveToDelayed(k, v) && d.ev == k.ev && d.evVal == k.evVal && d.prio == k.prio && d.levels == k.levels
  {
    d := MoveToDelayed(k, v);
  }

  lemma DelayForKeepsEvents(k: Kernel, ticks: nat) returns (d: Kernel)
    ensures d == DelayFor(k, ticks) && d.ev == k.ev && SameValues(k, d)
  {
    d := MoveToDelayedKeepsEvents(k, (k.tick + ticks) % k.period);
  }

  lemma BlockKeepsOrder(k: Kernel, e: nat, ticks: nat)
    requires Placed(k) && Orderly(k) && IsReady(k, k.current)
    ensures Orderly(PlaceOnEventList(k, e, ticks))
  {
    ReadyWaitsNowhere(k, k.current);
    SortedPutKeepsOrder(k.ev, e, k.current, k.evVal);
    var k1 := k.(ev := PutSorted(k.ev, Event(e), k.current, k.evVal));
    if ticks == MaxDelay(k) {
      MovesKeepEvents(k1, k.current, Suspended);
      SameEventsStayOrderly(k, MoveTo(k1, k.current, Suspended), k1.ev);
    } else {
      var d := DelayForKeepsEvents(k1, ticks);
      SameEventsStayOrderly(k, d, k1.ev);
    }
  }

  lemma RestrictedKeepsOrder(k: Kernel, e: nat, ticks: nat)
    requires Orderly(k) && k.ev.At(Event(e)) == []
    ensures Orderly(PlaceRestricted(k, e, ticks, 0))
  {
    OnlyEntryIsInOrder(k.ev, e, k.current, k.evVal);
    var k1 := k.(ev := Put(k.ev, Event(e), 0, k.current));
    var d := DelayForKeepsEvents(k1, ticks);
    SameEventsStayOrderly(k, d, k1.ev);
  }

  lemma SignalKeepsOrder(k: Kernel, e: nat)
    requires Placed(k) && Orderly(k) && k.ev.At(Event(e)) != []
    ensures Orderly(SignalEvent(k, e))
  {
    var t := k.ev.At(Event(e))[0];
    var k1 := k.(ev := Unlink(k.ev, t));
    UnlinkKeepsOrder(k.ev, t, k.evVal);
    if k.suspended == 0 {
      MovesKeepEvents(k1, t, Suspended);
      SameEventsStayOrderly(k, MoveToReady(k1, t), k1.ev);
    } else {
      PendKeepsOrder(k1.ev, t, k.evVal);
      SameEventsStayOrderly(k, k1.(ev := PutEnd(k1.ev, Pending, t)), PutEnd(k1.ev, Pending, t));
    }
  }

  lemma UnlistedKeepsOrder(k: Kernel, t: Task)
    requires Placed(k) && Orderly(k)
    ensures Orderly(SuspendTask(k, t)) && Orderly(Tasks.Delete(k, t))
  {
    UnlinkKeepsOrder(k.ev, t, k.evVal);
    var k1 := k.(ev := Unlink(k.ev, t));
    MovesKeepEvents(k1, t, Suspended);
    SameEventsStayOrderly(k, MoveTo(k1, t, Suspended), k1.ev);
    MovesKeepEvents(k1.(deleted := k.deleted + 1), t, Terminating);
    SameEventsStayOrderly(k, MoveTo(k1.(deleted := k.deleted + 1), t, Terminating), k1.ev);
  }

  lemma ResumedKeepsOrder(k: Kernel, t: Task)
    requires Placed(k) && Orderly(k)
    ensures Orderly(ResumeTask(k, t)) && Orderly(ResumeFromISR(k, t))
  {
    MovesKeepEvents(k, t, Suspended);
    SameEventsStayOrderly(k, MoveToReady(k, t), k.ev);
    PendKeepsOrder(k.ev, t, k.evVal);
    SameEventsStayOrderly(k, k.(ev := PutEnd(k.ev, Pending, t)), PutEnd(k.ev, Pending, t));
  }

  lemma CreateKeepsOrder(k: Kernel, t: Task, priority: nat)
    requires Placed(k) && Orderly(k) && t !in k.prio
    ensures Orderly(Create(k, t, priority))
  {
    OtherValuesKeepOrder(k.ev, k.evVal, k.evVal[t := EventValue(k, Cap(k, priority))]);
  }

  lemma ReapKeepsOrder(k: Kernel)
    requires Placed(k) && Orderly(k) && k.gen.At(Terminating) != [] && k.tasks > 0 && k.deleted > 0
    ensures Orderly(Reap(k))
  {
    var t := k.gen.At(Terminating)[0];
    assert t in k.gen.At(Terminating) && k.gen.where[t] == Terminating;
    OtherValuesKeepOrder(k.ev, k.evVal, k.evVal - {t});
  }

  /** Giving a task that waits nowhere a new priority, and its event item the value that goes with it. */
  lemma RepricedIsOrderly(k: Kernel, t: Task, p: nat, b: nat)
    requires Placed(k) && Orderly(k) && t !in k.ev.where
    ensures Orderly(Repriced(k, t, p, b, EventValue(k, p)))
  {
    var k1 := k.(prio := k.prio[t := p], base := k.base[t := b], evVal := k.evVal[t := EventValue(k, p)]);
    OtherValuesKeepOrder(k.ev, k.evVal, k1.evVal);
    assert Orderly(k1);
    MovesKeepEvents(k1, t, Suspended);
    SameEventsStayOrderly(k1, MoveToReady(k1, t), k.ev);
  }

  lemma LoweredIsOrderly(k: Kernel, t: Task)
    requires Placed(k) && Orderly(k) && t in k.prio && t !in k.ev.where
    ensures Orderly(Disinherit(k, t))
  {
    assert t in k.gen.where;
    var k1 := k.(prio := k.prio[t := k.base[t]], evVal := k.evVal[t := EventValue(k, k.base[t])]);
    OtherValuesKeepOrder(k.ev, k.evVal, k1.evVal);
    assert Orderly(k1);
    MovesKeepEvents(k1, t, Suspended);
    SameEventsStayOrderly(k1, MoveToReady(k1, t), k.ev);
  }

  lemma PricesKeepOrder(k: Kernel, t: Task, priority: nat)
    requires Placed(k) && Orderly(k) && t in k.prio && t !in k.ev.where
    ensures Orderly(Inherit(k, t))
    ensures Orderly(Disinherit(k, t))
    ensures k.prio[t] == k.base[t] ==> Orderly(SetPriority(k, t, priority))
  {
    assert t in k.gen.where;
    var p := Cap(k, priority);
    InheritIsRepriced(k, t);
    RepricedIsOrderly(k, t, Get(k.prio, k.current), k.base[t]);
    RepricedIsOrderly(k, t, p, p);
    LoweredIsOrderly(k, t);
    SetPriorityForms(k, t, priority, p, EventValue(k, p));
  }

  // ---- Every run ----

  /** Nobody changes the priority of a task that waits for an event, or sets that of one that has inherited; and the
      restricted way of blocking is used on lists of its own. */
  ghost predicate Respects(k: Kernel, op: Op) {
    match op
    case InheritFrom(t) => t !in k.ev.where
    case DisinheritBy(t) => t !in k.ev.where
    case Reprioritise(t, _) => t !in k.ev.where && (t in k.prio && t in k.base ==> k.prio[t] == k.base[t])
    case BlockRestricted(e, _, _) => k.ev.At(Event(e)) == []
    case _ => true
  }

  lemma SwitchKeepsOrder(k: Kernel)
    requires Placed(k) && Orderly(k)
    ensures k.suspended == 0 ==> k.gen.At(Ready(TopReady(k.gen, k.top))) != []
    ensures Orderly(SwitchContext(k))
  {
    SomeTaskIsReady(k);
    SameEventsStayOrderly(k, SwitchContext(k), k.ev);
  }

  lemma ClockKeepsOrder(k: Kernel, op: Op)
    requires Placed(k) && Counted(k) && Orderly(k) && Allowed(k, op)
    requires op.TickInterrupt? || op.SuspendScheduler? || op.ResumeScheduler? || op.SwitchTask? || op.DelayCurrent?
    ensures Orderly(Effect(k, op))
  {
    match op
    case TickInterrupt => TickKeepsOrder(k); KeptIsOrderly(k, IncrementTick(k));
    case SuspendScheduler => SameEventsStayOrderly(k, SuspendAll(k), k.ev);
    case ResumeScheduler => ResumeKeepsOrder(k); KeptIsOrderly(k, ResumeAll(k));
    case SwitchTask => SwitchKeepsOrder(k);
    case DelayCurrent(ticks) =>
      var d := DelayForKeepsEvents(k, ticks);
      SameEventsStayOrderly(k, d, k.ev);
  }

  lemma TaskControlKeepsOrder(k: Kernel, op: Op)
    requires Placed(k) && Counted(k) && Orderly(k) && Allowed(k, op)
    requires op.SuspendOther? || op.ResumeOther? || op.ResumeOtherFromISR? || op.DeleteTask? || op.CreateTask? || op.ReapTask?
    ensures Orderly(Effect(k, op))
  {
    match op
    case CreateTask(t, priority) => CreateKeepsOrder(k, t, priority);
    case SuspendOther(t) => UnlistedKeepsOrder(k, t);
    case ResumeOther(t) => ResumedKeepsOrder(k, t);
    case ResumeOtherFromISR(t) => ResumedKeepsOrder(k, t);
    case DeleteTask(t) => UnlistedKeepsOrder(k, t);
    case ReapTask => TasksCounted(k); ReapKeepsOrder(k);
  }

  lemma StepKeepsOrder(k: Kernel, op: Op)
    requires Placed(k) && Counted(k) && Orderly(k) && Allowed(k, op) && Respects(k, op)
    ensures Orderly(Effect(k, op))
  {
    match op
    case BlockCurrent(e, ticks) => BlockKeepsOrder(k, e, ticks);
    case BlockRestricted(e, ticks, at) => RestrictedKeepsOrder(k, e, ticks);
    case RaiseEvent(e) => SignalKeepsOrder(k, e);
    case InheritFrom(t) => PricesKeepOrder(k, t, 0);
    case DisinheritBy(t) => PricesKeepOrder(k, t, 0);
    case Reprioritise(t, priority) => assert t in k.gen.where; PricesKeepOrder(k, t, priority);
    case _ =>
      if op.TickInterrupt? || op.SuspendScheduler? || op.ResumeScheduler? || op.SwitchTask? || op.DelayCurrent? {
        ClockKeepsOrder(k, op);
      } else {
        TaskControlKeepsOrder(k, op);
      }
  }

  ghost predicate AllRespect(w: GoodWorld, ops: seq<Op>)
    requires CanRun(w, ops)
    decreases |ops|
  {
    ops == [] || (Respects(w.k, ops[0]) && AllRespect(Next(w, ops[0]), ops[1..]))
  }

  lemma {:induction false} RunKeepsOrder(w: GoodWorld, ops: seq<Op>)
    requires CanRun(w, ops) && AllRespect(w, ops) && Orderly(w.k)
    ensures Orderly(Run(w, ops).k)
    decreases |ops|
  {
    if ops != [] {
      StepKeepsOrder(w.k, ops[0]);
      RunKeepsOrder(Next(w, ops[0]), ops[1..]);
    }
  }

  /** In every run that keeps to these rules, the task that an event takes off its list has the highest priority of
      all that wait for the event. */
  lemma EventWakesHighest(w: GoodWorld, ops: seq<Op>, e: nat, t: Task)
    requires CanRun(w, ops) && AllRespect(w, ops) && Orderly(w.k)
    requires t in Run(w, ops).k.ev.At(Event(e))
    ensures var k := Run(w, ops).k;
      var head := k.ev.At(Event(e))[0];
      t in k.prio && head in k.prio && k.prio[t] <= k.prio[head] && head !in SignalEvent(k, e).ev.At(Event(e))
  {
    RunKeepsOrder(w, ops);
    HeadIsHighest(Run(w, ops).k, e, t);
    HeadLeaves(Run(w, ops).k, e);
  }

  lemma HeadLeaves(k: Kernel, e: nat)
    requires Placed(k) && k.ev.At(Event(e)) != []
    ensures k.ev.At(Event(e))[0] !in SignalEvent(k, e).ev.At(Event(e))
  {
    var s := k.ev.At(Event(e));
    UnlinkIsConsistent(k.ev, s[0]);
    WithoutMembers(s, s[0]);
  }

  lemma HeadIsHighest(k: Kernel, e: nat, t: Task)
    requires Placed(k) && Orderly(k) && t in k.ev.At(Event(e))
    ensures var head := k.ev.At(Event(e))[0]; t in k.prio && head in k.prio && k.prio[t] <= k.prio[head]
  {
    var s := k.ev.At(Event(e));
    var i := IndexOf(s, t);
    assert s[0] in s && s[0] in k.ev.where && t in k.ev.where;
    assert s[0] in k.gen.where && t in k.gen.where;
    assert Keys(s, k.evVal)[0] <= Keys(s, k.evVal)[i];
  }

  // ---- Outside those rules ----

  /** Rewriting the value of a waiting task, as inheritance and vTaskPrioritySet do, leaves its list in order iff the
      new value still lies between those of its neighbours. */
  lemma RevaluedKeepsOrderIff(s: seq<Task>, value: map<Task, nat>, i: nat, v: nat)
    requires NoDup(s) && i < |s| && Ascending(Keys(s, value))
    ensures Ascending(Keys(s, value[s[i] := v])) <==>
      (i > 0 ==> Get(value, s[i - 1]) <= v) && (i + 1 < |s| ==> v <= Get(value, s[i + 1]))
  {
    var was, now := Keys(s, value), Keys(s, value[s[i] := v]);
    assert forall j :: 0 <= j < |s| && j != i ==> now[j] == was[j];
    if (i > 0 ==> was[i - 1] <= v) && (i + 1 < |s| ==> v <= was[i + 1]) {
      forall a, b | 0 <= a < b < |s| ensures now[a] <= now[b] {
        if b == i {
          assert was[a] <= was[i - 1];
        } else if a == i {
          assert was[i + 1] <= was[b];
        }
      }
    } else if i > 0 && was[i - 1] > v {
      assert now[i - 1] > now[i];
    } else {
      assert now[i] > now[i + 1];
    }
  }

  /** `t` waits in place `i` of the list of event `e`. */
  ghost predicate WaitsAt(k: Kernel, t: Task, e: nat, i: nat) {
    i < |k.ev.At(Event(e))| && k.ev.At(Event(e))[i] == t
  }

  /** Nobody in front of place `i` has a lower priority than `p`, and nobody behind it a higher one. */
  ghost predicate Fits(k: Kernel, e: nat, i: nat, p: nat) {
    var s := k.ev.At(Event(e));
    && (0 < i <= |s| ==> p <= Get(k.prio, s[i - 1]))
    && (i + 1 < |s| ==> Get(k.prio, s[i + 1]) <= p)
  }

  lemma WaitersHavePriorities(k: Kernel, e: nat, i: nat)
    requires Placed(k) && Matched(k) && i < |k.ev.At(Event(e))|
    ensures var u := k.ev.At(Event(e))[i];
      u in k.prio && u in k.ev.where && k.ev.where[u] == Event(e) && Get(k.evVal, u) == k.levels - Get(k.prio, u) && k.prio[u] < k.levels
  {
    var u := k.ev.At(Event(e))[i];
    assert u in k.ev.At(Event(e));
    assert u in k.gen.where;
  }

  /** A new value for a waiting task keeps all lists in order iff it does so on the list it is on. */
  lemma RevaluedInOrderIff(k: Kernel, t: Task, e: nat, i: nat, v: nat)
    requires Placed(k) && Orderly(k) && WaitsAt(k, t, e, i)
    ensures InOrder(k.ev, k.evVal[t := v]) <==> Ascending(Keys(k.ev.At(Event(e)), k.evVal[t := v]))
  {
    assert t in k.ev.At(Event(e)) && k.ev.where[t] == Event(e);
    forall e': nat | e' != e ensures Ascending(Keys(k.ev.At(Event(e')), k.evVal[t := v])) {
      var s := k.ev.At(Event(e'));
      forall j | 0 <= j < |s| ensures Keys(s, k.evVal[t := v])[j] == Keys(s, k.evVal)[j] {
        assert s[j] in s && k.ev.where[s[j]] == Event(e');
      }
      assert Keys(s, k.evVal[t := v]) == Keys(s, k.evVal);
    }
  }

  lemma FitsIff(k: Kernel, t: Task, e: nat, i: nat, p: nat)
    requires Placed(k) && Orderly(k) && WaitsAt(k, t, e, i) && p < k.levels
    ensures InOrder(k.ev, k.evVal[t := EventValue(k, p)]) <==> Fits(k, e, i, p)
  {
    var s, v := k.ev.At(Event(e)), EventValue(k, p);
    RevaluedInOrderIff(k, t, e, i, v);
    RevaluedKeepsOrderIff(s, k.evVal, i, v);
    if i > 0 {
      WaitersHavePriorities(k, e, i - 1);
    }
    if i + 1 < |s| {
      WaitersHavePriorities(k, e, i + 1);
    }
  }

  /** If a task that waits for an event inherits, the event lists stay in order iff nobody in front of it has a lower
      priority than the one it inherits. */
  lemma InheritKeepsOrderIff(w: World, t: Task, e: nat, i: nat)
    requires Inv(w) && Orderly(w.k) && WaitsAt(w.k, t, e, i)
    requires Get(w.k.prio, w.k.current) > Get(w.k.prio, t)
    ensures Orderly(Inherit(w.k, t)) <==> Fits(w.k, e, i, Get(w.k.prio, w.k.current))
  {
    var k, p := w.k, Get(w.k.prio, w.k.current);
    WaitersHavePriorities(k, e, i);
    InheritIsRepriced(k, t);
    assert !IsReady(k, t) by { assert t in k.ev.At(Event(e)); }
    FitsIff(k, t, e, i, p);
    RepricedWaiter(k, Inherit(k, t), t, p);
  }

  lemma RepricedWaiter(k: Kernel, k': Kernel, t: Task, p: nat)
    requires Matched(k) && t in k.prio
    requires k'.ev == k.ev && k'.evVal == k.evVal[t := EventValue(k, p)] && k'.prio == k.prio[t := p] && k'.levels == k.levels
    ensures Orderly(k') <==> InOrder(k.ev, k.evVal[t := EventValue(k, p)])
  {
  }

  /** If the priority of a task that waits for an event is set, they stay in order, and the event values those of
      the priorities, iff it fits between its neighbours and the task had not inherited another. */
  lemma SetPriorityKeepsOrderIff(w: World, t: Task, priority: nat, e: nat, i: nat)
    requires Inv(w) && Orderly(w.k) && WaitsAt(w.k, t, e, i)
    requires Cap(w.k, priority) != Get(w.k.base, t)
    ensures Orderly(SetPriority(w.k, t, priority)) <==>
      && Fits(w.k, e, i, Cap(w.k, priority))
      && (Get(w.k.prio, t) == Get(w.k.base, t) || Get(w.k.prio, t) == Cap(w.k, priority))
  {
    var k, p := w.k, Cap(w.k, priority);
    WaitersHavePriorities(k, e, i);
    assert t in k.gen.where && t in k.ev.At(Event(e));
    SetPriorityForms(k, t, priority, p, EventValue(k, p));
    FitsIff(k, t, e, i, p);
    var k' := SetPriority(k, t, priority);
    if k.prio[t] == k.base[t] {
      RepricedWaiter(k, k', t, p);
    } else {
      InheritedWaiter(k, k', t, p);
    }
  }

  lemma InheritedWaiter(k: Kernel, k': Kernel, t: Task, p: nat)
    requires Matched(k) && t in k.prio && k.prio[t] < k.levels && p < k.levels
    requires k'.ev == k.ev && k'.evVal == k.evVal[t := EventValue(k, p)] && k'.prio == k.prio && k'.levels == k.levels
    ensures Orderly(k') <==> InOrder(k.ev, k.evVal[t := EventValue(k, p)]) && k.prio[t] == p
  {
  }
}
