/** queue.c: recursive mutexes. The holder and the nesting count live in pointer fields a mutex does not use as
    pointers; takes and gives by many tasks interleave between the steps of a call. */
module RecursiveMutex {
  import Q = QueueStore

  type Task = t: nat | t != 0 witness 1

  /** What a mutex consists of: the token, pxMutexHolder and uxRecursiveCallCount. */
  datatype Mutex = Mutex(messages: nat, holder: nat, count: int)

  /** Between calls; in a take that found another holder; in a take that has the token and has yet to count;
      in the give that counted down to zero and has yet to put the token back. */
  datatype Phase = Out | Trying | Acquired | Releasing

  /** `depth` is, for each task, its successful takes less its accepted gives. */
  datatype System = System(mutex: Mutex, phase: map<Task, Phase>, depth: map<Task, nat>)

  function PhaseOf(s: System, t: Task): Phase {
    if t in s.phase then s.phase[t] else Out
  }

  function Depth(s: System, t: Task): nat {
    if t in s.depth then s.depth[t] else 0
  }

  datatype Op =
    | Take(task: Task)       // xQueueTakeMutexRecursive up to the test of the holder
    | Acquire(task: Task)    // the critical section of its xQueueGenericReceive
    | GiveUp(task: Task)     // that call timing out
    | Count(task: Task)      // the count after it
    | Give(task: Task)       // xQueueGiveMutexRecursive up to the test of the count
    | Release(task: Task)    // its xQueueGenericSend

  function TakeMutex(m: Mutex, t: Task): Mutex {
    if m.holder == t then m.(count := m.count + 1) else m
  }

  function AcquireMutex(m: Mutex, t: Task): Mutex {
    if m.messages > 0 then m.(messages := m.messages - 1, holder := t) else m
  }

  function GiveMutex(m: Mutex, t: Task): Mutex {
    if m.holder == t then m.(count := m.count - 1) else m
  }

  function ReleaseMutex(m: Mutex): Mutex {
    if m.messages < 1 then m.(messages := m.messages + 1, holder := Q.NULL) else m
  }

  predicate Allowed(s: System, op: Op) {
    match op
    case Take(t) => PhaseOf(s, t).Out?
    case Acquire(t) => PhaseOf(s, t).Trying?
    case GiveUp(t) => PhaseOf(s, t).Trying?
    case Count(t) => PhaseOf(s, t).Acquired?
    case Give(t) => PhaseOf(s, t).Out?
    case Release(t) => PhaseOf(s, t).Releasing?
  }

  function Step(s: System, op: Op): System
    requires Allowed(s, op)
  {
    match op
    case Take(t) =>
      if s.mutex.holder == t then s.(mutex := TakeMutex(s.mutex, t), depth := s.depth[t := Depth(s, t) + 1])
      else s.(phase := s.phase[t := Trying])
    case Acquire(t) =>
      if s.mutex.messages > 0 then s.(mutex := AcquireMutex(s.mutex, t), phase := s.phase[t := Acquired]) else s
    case GiveUp(t) => s.(phase := s.phase[t := Out])
    case Count(t) =>
      System(s.mutex.(count := s.mutex.count + 1), s.phase[t := Out], s.depth[t := Depth(s, t) + 1])
    case Give(t) =>
      if s.mutex.holder != t then s
      else
        var m := GiveMutex(s.mutex, t);
        System(m, s.phase[t := if m.count == 0 then Releasing else Out], s.depth[t := if Depth(s, t) > 0 then Depth(s, t) - 1 else 0])
    case Release(t) => s.(mutex := ReleaseMutex(s.mutex), phase := s.phase[t := Out])
  }

  /** The holder's unmatched takes are counted, and it is mid-call iff the count is zero; nobody else has any
      and nobody else is past the token. */
  ghost predicate TaskInv(s: System, t: Task) {
    if t == s.mutex.holder then
      s.mutex.count == Depth(s, t) && !PhaseOf(s, t).Trying? && (s.mutex.count == 0 <==> !PhaseOf(s, t).Out?)
    else Depth(s, t) == 0 && !PhaseOf(s, t).Acquired? && !PhaseOf(s, t).Releasing?
  }

  ghost predicate Inv(s: System) {
    && s.mutex.messages <= 1 && (s.mutex.messages == 1 <==> s.mutex.holder == Q.NULL)
    && (s.mutex.holder == Q.NULL ==> s.mutex.count == 0)
    && forall t: Task :: TaskInv(s, t)
  }

  lemma StepKeepsInv(s: System, op: Op)
    requires Inv(s) && Allowed(s, op)
    ensures Inv(Step(s, op))
  {
    var s' := Step(s, op);
    assert TaskInv(s, op.task);
    forall t: Task ensures TaskInv(s', t) {
      assert TaskInv(s, t);
    }
  }

  ghost predicate CanRun(s: System, ops: seq<Op>)
    decreases |ops|
  {
    ops == [] || (Allowed(s, ops[0]) && CanRun(Step(s, ops[0]), ops[1..]))
  }

  ghost function Run(s: System, ops: seq<Op>): System
    requires CanRun(s, ops)
    decreases |ops|
  {
    if ops == [] then s else Run(Step(s, ops[0]), ops[1..])
  }

  lemma {:induction false} RunKeepsInv(s: System, ops: seq<Op>)
    requires Inv(s) && CanRun(s, ops)
    ensures Inv(Run(s, ops))
    decreases |ops|
  {
    if ops != [] {
      StepKeepsInv(s, ops[0]);
      RunKeepsInv(Step(s, ops[0]), ops[1..]);
    }
  }

  const CREATED := System(Mutex(1, Q.NULL, 0), map[], map[])

  /** In every run, whenever no take or give is half way, the mutex is free iff its count is zero, iff it has no
      holder; otherwise the count is the number of the holder's unmatched takes, and no other task has any. */
  lemma FreeIffCountIsZero(ops: seq<Op>)
    requires CanRun(CREATED, ops)
    ensures var s := Run(CREATED, ops);
      (forall t: Task :: !PhaseOf(s, t).Acquired? && !PhaseOf(s, t).Releasing?) ==>
        && (s.mutex.messages == 1 <==> s.mutex.count == 0) && (s.mutex.count == 0 <==> s.mutex.holder == Q.NULL)
        && forall t: Task :: Depth(s, t) == if s.mutex.holder == t then s.mutex.count else 0
  {
    RunKeepsInv(CREATED, ops);
    var s := Run(CREATED, ops);
    forall t: Task ensures Depth(s, t) == if s.mutex.holder == t then s.mutex.count else 0 {
      assert TaskInv(s, t);
    }
    if s.mutex.holder != Q.NULL {
      var h: Task := s.mutex.holder;
      assert TaskInv(s, h) && Depth(s, h) == s.mutex.count;
    }
  }

  /** Unmatched takes, or past the token. */
  predicate Busy(s: System, t: Task) {
    Depth(s, t) > 0 || PhaseOf(s, t).Acquired? || PhaseOf(s, t).Releasing?
  }

  /** At most one task is ever past the token, and it is the holder. */
  lemma OneOwner(ops: seq<Op>, t: Task)
    requires CanRun(CREATED, ops)
    ensures var s := Run(CREATED, ops);
      Busy(s, t) ==> s.mutex.holder == t && s.mutex.messages == 0
  {
    RunKeepsInv(CREATED, ops);
    assert TaskInv(Run(CREATED, ops), t);
  }

  /** A give is refused, and changes nothing, iff the task has no unmatched take; otherwise it counts down
      without underflow, and goes on to release the mutex iff it matches the first take. */
  lemma GiveReleasesIffLast(ops: seq<Op>, t: Task)
    requires CanRun(CREATED, ops) && PhaseOf(Run(CREATED, ops), t).Out?
    ensures var s := Run(CREATED, ops); var s' := Step(s, Give(t));
      && (Depth(s, t) == 0 <==> s.mutex.holder != t)
      && (Depth(s, t) == 0 ==> s' == s)
      && (Depth(s, t) > 0 ==> s.mutex.count == Depth(s, t) && s'.mutex.count == s.mutex.count - 1)
      && (PhaseOf(s', t).Releasing? <==> Depth(s, t) == 1)
      && (PhaseOf(s', t).Releasing? ==> Step(s', Release(t)).mutex == Mutex(1, Q.NULL, 0))
  {
    RunKeepsInv(CREATED, ops);
    assert TaskInv(Run(CREATED, ops), t);
  }

  /** A step that ends a take of task `t` with success: at once for the holder, else by the count after the receive. */
  predicate Takes(s: System, op: Op, t: Task) {
    (op == Take(t) && s.mutex.holder == t) || op == Count(t)
  }

  /** A give of task `t` that is accepted. */
  predicate Gives(s: System, op: Op, t: Task) {
    op == Give(t) && s.mutex.holder == t
  }

  ghost function Unmatched(s: System, ops: seq<Op>, t: Task): int
    requires CanRun(s, ops)
    decreases |ops|
  {
    if ops == [] then 0
    else (if Takes(s, ops[0], t) then 1 else if Gives(s, ops[0], t) then -1 else 0) + Unmatched(Step(s, ops[0]), ops[1..], t)
  }

  lemma StepMatches(s: System, op: Op, t: Task)
    requires Inv(s) && Allowed(s, op)
    ensures Depth(Step(s, op), t) == Depth(s, t) + if Takes(s, op, t) then 1 else if Gives(s, op, t) then -1 else 0
  {
    assert TaskInv(s, t);
  }

  lemma {:induction false} RunMatches(s: System, ops: seq<Op>, t: Task)
    requires Inv(s) && CanRun(s, ops)
    ensures Depth(Run(s, ops), t) == Depth(s, t) + Unmatched(s, ops, t)
    decreases |ops|
  {
    if ops != [] {
      StepKeepsInv(s, ops[0]);
      StepMatches(s, ops[0], t);
      RunMatches(Step(s, ops[0]), ops[1..], t);
    }
  }

  /** In every run a task has as many unmatched takes as takes of it succeeded more than gives of it were accepted; so
      between calls that is the count, if it is the holder. */
  lemma DepthIsUnmatched(ops: seq<Op>, t: Task)
    requires CanRun(CREATED, ops)
    ensures Depth(Run(CREATED, ops), t) == Unmatched(CREATED, ops, t)
    ensures Run(CREATED, ops).mutex.holder == t ==> Run(CREATED, ops).mutex.count == Unmatched(CREATED, ops, t)
  {
    RunMatches(CREATED, ops, t);
    RunKeepsInv(CREATED, ops);
    assert TaskInv(Run(CREATED, ops), t);
  }

  /** What each step means for the caller, in every reachable state, told by the takes and gives before it: a take ends
      at once iff the task has unmatched takes, the receive gets the token iff nobody has any and nobody is past the
      token, and a call that is over is over. No step moves another task's call. */
  lemma CallsGoOn(ops: seq<Op>, op: Op)
    requires CanRun(CREATED, ops) && Allowed(Run(CREATED, ops), op)
    ensures var s := Run(CREATED, ops); var s' := Step(s, op); var t := op.task;
      && (forall u: Task :: u != t ==> PhaseOf(s', u) == PhaseOf(s, u))
      && match op
         case Take(_) => PhaseOf(s', t) == (if Unmatched(CREATED, ops, t) > 0 then Out else Trying)
         case Acquire(_) => PhaseOf(s', t) == if s.mutex.messages == 1 then Acquired else Trying
         case Give(_) => PhaseOf(s', t) == if Unmatched(CREATED, ops, t) == 1 then Releasing else Out
         case _ => PhaseOf(s', t) == Out
    ensures op.Acquire? ==> (Run(CREATED, ops).mutex.messages == 0 <==> exists u: Task :: Busy(Run(CREATED, ops), u))
  {
    RunKeepsInv(CREATED, ops);
    var s := Run(CREATED, ops);
    DepthIsUnmatched(ops, op.task);
    assert TaskInv(s, op.task);
    if s.mutex.messages == 0 {
      var h: Task := s.mutex.holder;
      assert TaskInv(s, h) && Busy(s, h);
    } else {
      forall u: Task ensures !Busy(s, u) {
        assert TaskInv(s, u);
      }
    }
  }

  // ---- On the queue object ----

  /** A mutex read out of the queue fields it overlays. */
  ghost function View(q: Q.Queue): Mutex
    reads q
  {
    Mutex(q.messages, q.tail, q.readFrom)
  }

  /** The start of xQueueTakeMutexRecursive. */
  method TakeStep(q: Q.Queue, current: Task) returns (taken: bool)
    requires q.Valid() && q.storage == null
    modifies q`readFrom
    ensures q.Valid() && View(q) == TakeMutex(old(View(q)), current) && (taken <==> q.tail == current)
  {
    taken := q.tail == current;
    if taken {
      q.readFrom := q.readFrom + 1;
    }
  }

  /** Its receive, at the critical section, and the count that follows. The routine that copies data out of a
      queue leaves the count alone. */
  method AcquireStep(q: Q.Queue, current: Task) returns (acquired: bool)
    requires q.Valid() && q.storage == null
    modifies q
    ensures q.Valid() && View(q) == AcquireMutex(old(View(q)), current) && (acquired <==> old(q.messages) > 0)
  {
    acquired := q.messages > 0;
    if acquired {
      var item := q.Receive(current);
    }
  }

  /** The start of xQueueGiveMutexRecursive. */
  method GiveStep(q: Q.Queue, current: Task) returns (accepted: bool, last: bool)
    requires q.Valid() && q.storage == null && (q.tail == current ==> q.readFrom > 0)
    modifies q`readFrom
    ensures q.Valid() && View(q) == GiveMutex(old(View(q)), current)
    ensures (accepted <==> q.tail == current) && (last <==> accepted && q.readFrom == 0)
  {
    accepted, last := q.tail == current, false;
    if accepted {
      q.readFrom := q.readFrom - 1;
      last := q.readFrom == 0;
    }
  }

  /** Its send. The routine that copies data into a queue clears the holder and leaves the count alone. */
  method ReleaseStep(q: Q.Queue) returns (sent: bool)
    requires q.Valid() && q.storage == null
    modifies q
    ensures q.Valid() && View(q) == ReleaseMutex(old(View(q))) && (sent <==> old(q.messages) < 1)
  {
    sent := q.messages < q.length;
    if sent {
      var disinherit := q.CopyDataToQueue([], Q.Back);
    }
  }
}
