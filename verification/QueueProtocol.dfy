/** queue.c: how tasks and interrupts share a queue. One state per critical section; tasks that wait, tasks that
    were woken and have not tried again, and the two lock counts. No interleaving loses a wake-up. */
module QueueProtocol {
  import opened Sequences
  import opened Containers

  const UNLOCKED := -1

  /** One side of a queue. For receivers `lock` is xTxLock, for senders xRxLock: each counts what interrupts did
      for this side while the queue was locked. */
  datatype Side = Side(
    waiting: seq<Task>,   // xTasksWaitingToReceive or xTasksWaitingToSend
    woken: set<Task>,     // taken off that list by a send, receive, peek or unlock, and yet to try again
    failed: set<Task>,    // found nothing and are about to suspend the scheduler and lock the queue
    lock: int)

  datatype End = Receiving | Sending

  /** How far the one task has got that holds the queue locked, with the scheduler suspended. */
  datatype Stage = Locked | Checked | Settled | HalfUnlocked

  datatype Holder = Nobody | Held(task: Task, end: End, stage: Stage)

  datatype Queue = Queue(messages: nat, length: nat, value: map<Task, nat>, receivers: Side, senders: Side, holder: Holder)

  // ---- One side ----

  function Positive(lock: int): nat {
    if lock > 0 then lock else 0
  }

  /** While anyone waits, each unit there is to take has a task already woken for it or a count in the lock. */
  ghost predicate Covered(s: Side, units: int) {
    s.waiting != [] ==> units <= |s.woken| + Positive(s.lock)
  }

  /** A task is in one place at a time. */
  ghost predicate Apart(s: Side) {
    && NoDup(s.waiting)
    && (forall t :: t in s.waiting ==> t !in s.woken && t !in s.failed)
    && (forall t :: t in s.woken ==> t !in s.failed)
  }

  predicate Idle(s: Side, t: Task) {
    t !in s.waiting && t !in s.woken && t !in s.failed
  }

  /** xTaskRemoveFromEventList, if anyone waits. */
  function WakeHead(s: Side): Side {
    if s.waiting == [] then s else s.(waiting := s.waiting[1..], woken := s.woken + {s.waiting[0]})
  }

  /** What an interrupt does for the other side after moving an item. */
  function Announce(s: Side): Side {
    if s.lock == UNLOCKED then WakeHead(s) else s.(lock := s.lock + 1)
  }

  function LockSide(s: Side): Side {
    if s.lock == UNLOCKED then s.(lock := 0) else s
  }

  /** One of the two loops of prvUnlockQueue. */
  function UnlockSide(s: Side): Side
    decreases Positive(s.lock)
  {
    if s.lock > 0 && s.waiting != [] then UnlockSide(WakeHead(s).(lock := s.lock - 1)) else s.(lock := UNLOCKED)
  }

  /** vTaskPlaceOnEventList: by event value, which is the lower the higher the priority. */
  function Enqueue(s: Side, t: Task, value: map<Task, nat>): Side {
    s.(waiting := InsertAt(s.waiting, InsertPos(Keys(s.waiting, value), Get(value, t)), t))
  }

  function Leave(s: Side, t: Task): Side {
    s.(waiting := if t in s.waiting then Without(s.waiting, t) else s.waiting)
  }

  function Retry(s: Side, t: Task): Side {
    s.(woken := s.woken - {t})
  }

  // ---- Steps ----

  function OfEnd(q: Queue, end: End): Side {
    if end.Receiving? then q.receivers else q.senders
  }

  function WithEnd(q: Queue, end: End, s: Side): Queue {
    if end.Receiving? then q.(receivers := s) else q.(senders := s)
  }

  /** What a side waits for: items for receivers, free places for senders. */
  function Units(q: Queue, end: End): int {
    if end.Receiving? then q.messages else q.length - q.messages
  }

  datatype Op =
    | Receive(task: Task, blocks: bool)         // the critical section at the top of xQueueGenericReceive
    | Peek(task: Task, blocks: bool)
    | Send(task: Task, blocks: bool)            // that of xQueueGenericSend
    | SendFromISR
    | ReceiveFromISR
    | Lock(task: Task, end: End)                // vTaskSuspendAll and prvLockQueue
    | LockToWait(task: Task)                    // the start of vQueueWaitForMessageRestricted, which does not try first
    | Check(expired: bool)                      // xTaskCheckForTimeOut and prvIsQueueEmpty or prvIsQueueFull
    | Place                                     // vTaskPlaceOnEventList
    | UnlockFirst                               // the two critical sections of prvUnlockQueue
    | UnlockSecond
    | GiveUpWaiting(task: Task)                 // a time-out, vTaskSuspend or vTaskDelete takes a waiting task off its list
    | DeleteWoken(task: Task, end: End)         // vTaskDelete of a task that was woken and has not tried again

  predicate Running(q: Queue, t: Task) {
    q.holder.Nobody? && t !in q.receivers.waiting && t !in q.senders.waiting && t !in q.receivers.failed && t !in q.senders.failed
  }

  predicate Allowed(q: Queue, op: Op) {
    match op
    case Receive(t, _) => Running(q, t) && t !in q.senders.woken
    case Peek(t, _) => Running(q, t) && t !in q.senders.woken
    case Send(t, _) => Running(q, t) && t !in q.receivers.woken
    case SendFromISR => true
    case ReceiveFromISR => true
    case Lock(t, end) => q.holder.Nobody? && t in OfEnd(q, end).failed
    case LockToWait(t) => Running(q, t) && t !in q.receivers.woken && t !in q.senders.woken
    case Check(_) => q.holder.Held? && q.holder.stage.Locked?
    case Place => q.holder.Held? && q.holder.stage.Checked?
    case UnlockFirst => q.holder.Held? && q.holder.stage.Settled?
    case UnlockSecond => q.holder.Held? && q.holder.stage.HalfUnlocked?
    case GiveUpWaiting(t) => q.holder.Nobody? && (t in q.receivers.waiting || t in q.senders.waiting)
    case DeleteWoken(t, end) => q.holder.Nobody? && t in OfEnd(q, end).woken
  }

  /** A try that finds nothing: the task returns, or goes on to block. */
  function Fail(s: Side, t: Task, blocks: bool): Side {
    var s1 := Retry(s, t);
    if blocks then s1.(failed := s.failed + {t}) else s1
  }

  function TryReceive(q: Queue, t: Task, blocks: bool, peek: bool): Queue {
    if q.messages == 0 then q.(receivers := Fail(q.receivers, t, blocks))
    else if peek then q.(receivers := WakeHead(Retry(q.receivers, t)))
    else q.(messages := q.messages - 1, receivers := Retry(q.receivers, t), senders := WakeHead(q.senders))
  }

  function TrySend(q: Queue, t: Task, blocks: bool): Queue {
    if q.messages >= q.length then q.(senders := Fail(q.senders, t, blocks))
    else q.(messages := q.messages + 1, senders := Retry(q.senders, t), receivers := WakeHead(q.receivers))
  }

  function InterruptSend(q: Queue): Queue {
    if q.messages >= q.length then q else q.(messages := q.messages + 1, receivers := Announce(q.receivers))
  }

  function InterruptReceive(q: Queue): Queue {
    if q.messages == 0 then q else q.(messages := q.messages - 1, senders := Announce(q.senders))
  }

  function LockQueue(q: Queue, t: Task, end: End): Queue {
    var s := OfEnd(q, end);
    var q1 := WithEnd(q, end, s.(failed := s.failed - {t}));
    q1.(receivers := LockSide(q1.receivers), senders := LockSide(q1.senders), holder := Held(t, end, Locked))
  }

  function CheckQueue(q: Queue, expired: bool): Queue
    requires q.holder.Held?
  {
    q.(holder := q.holder.(stage := if !expired && Units(q, q.holder.end) == 0 then Checked else Settled))
  }

  function PlaceTask(q: Queue): Queue
    requires q.holder.Held?
  {
    WithEnd(q, q.holder.end, Enqueue(OfEnd(q, q.holder.end), q.holder.task, q.value)).(holder := q.holder.(stage := Settled))
  }

  function Step(q: Queue, op: Op): Queue
    requires Allowed(q, op)
  {
    match op
    case Receive(t, blocks) => TryReceive(q, t, blocks, false)
    case Peek(t, blocks) => TryReceive(q, t, blocks, true)
    case Send(t, blocks) => TrySend(q, t, blocks)
    case SendFromISR => InterruptSend(q)
    case ReceiveFromISR => InterruptReceive(q)
    case Lock(t, end) => LockQueue(q, t, end)
    case LockToWait(t) => LockQueue(q, t, Receiving)
    case Check(expired) => CheckQueue(q, expired)
    case Place => PlaceTask(q)
    case UnlockFirst => q.(receivers := UnlockSide(q.receivers), holder := q.holder.(stage := HalfUnlocked))
    case UnlockSecond => q.(senders := UnlockSide(q.senders), holder := Nobody)
    case GiveUpWaiting(t) => q.(receivers := Leave(q.receivers, t), senders := Leave(q.senders, t))
    case DeleteWoken(t, end) => WithEnd(q, end, Retry(OfEnd(q, end), t))
  }

  // ---- The invariant ----

  /** A waiting list is in order of event value. */
  ghost predicate InOrder(s: Side, value: map<Task, nat>) {
    Ascending(Keys(s.waiting, value))
  }

  ghost predicate Good(s: Side, units: int, value: map<Task, nat>) {
    Apart(s) && Covered(s, units) && InOrder(s, value)
  }

  /** The lock counts are in use exactly while a task holds the queue, and what a task saw before it goes on
      the list has changed since then only by what the lock counts. */
  ghost predicate LocksMatch(q: Queue) {
    match q.holder
    case Nobody => q.receivers.lock == UNLOCKED && q.senders.lock == UNLOCKED
    case Held(t, end, stage) =>
      && (if stage.HalfUnlocked? then q.receivers.lock == UNLOCKED else q.receivers.lock >= 0) && q.senders.lock >= 0
      && (stage.Locked? || stage.Checked? ==> Idle(OfEnd(q, end), t))
      && (stage.Checked? ==> Units(q, end) <= OfEnd(q, end).lock)
  }

  /** How many tasks of each side were woken and then deleted, so that what they were woken for is nobody's. */
  datatype Lost = Lost(receivers: nat, senders: nat)

  const NOBODY_LOST := Lost(0, 0)

  ghost predicate Inv(q: Queue, lost: Lost) {
    && q.messages <= q.length
    && Good(q.receivers, Units(q, Receiving) - lost.receivers, q.value)
    && Good(q.senders, Units(q, Sending) - lost.senders, q.value)
    && LocksMatch(q)
  }

  function LostBy(lost: Lost, op: Op): Lost {
    match op
    case DeleteWoken(_, Receiving) => lost.(receivers := lost.receivers + 1)
    case DeleteWoken(_, Sending) => lost.(senders := lost.senders + 1)
    case _ => lost
  }

  // ---- What each change of a side keeps ----

  lemma WakeKeepsGood(s: Side, units: int, value: map<Task, nat>)
    requires Good(s, units, value)
    ensures Good(WakeHead(s), units + 1, value) && WakeHead(s).lock == s.lock
    ensures s.waiting != [] ==> |WakeHead(s).woken| == |s.woken| + 1
  {
    if s.waiting != [] {
      assert Keys(s.waiting[1..], value) == Keys(s.waiting, value)[1..];
      assert s.waiting[0] in s.waiting;
    }
  }

  lemma AnnounceKeepsGood(s: Side, units: int, value: map<Task, nat>)
    requires Good(s, units, value) && s.lock >= UNLOCKED
    ensures Good(Announce(s), units + 1, value)
    ensures Announce(s).lock == if s.lock == UNLOCKED then UNLOCKED else s.lock + 1
  {
    WakeKeepsGood(s, units, value);
  }

  lemma RetryKeepsGood(s: Side, units: int, value: map<Task, nat>, t: Task)
    requires Good(s, units, value)
    ensures Good(Retry(s, t), units - 1, value)
    ensures Good(WakeHead(Retry(s, t)), units, value)
  {
    var s' := Retry(s, t);
    assert t in s.woken ==> |s'.woken| == |s.woken| - 1;
    assert t !in s.woken ==> s'.woken == s.woken;
    WakeKeepsGood(s', units - 1, value);
  }

  lemma {:induction false} UnlockKeepsGood(s: Side, units: int, value: map<Task, nat>)
    requires Good(s, units, value) && s.lock >= 0
    ensures Good(UnlockSide(s), units, value) && UnlockSide(s).lock == UNLOCKED
    decreases Positive(s.lock)
  {
    if s.lock > 0 && s.waiting != [] {
      WakeKeepsGood(s, units, value);
      UnlockKeepsGood(WakeHead(s).(lock := s.lock - 1), units, value);
    }
  }

  lemma EnqueueKeepsGood(s: Side, units: int, value: map<Task, nat>, t: Task)
    requires Good(s, units, value) && Idle(s, t) && units <= s.lock
    ensures Good(Enqueue(s, t, value), units, value)
  {
    var v := Get(value, t);
    var p := InsertPos(Keys(s.waiting, value), v);
    InsertMembers(s.waiting, p, t);
    InsertKeepsAscending(Keys(s.waiting, value), v);
    KeysOfInsert(s.waiting, p, t, value);
  }

  lemma LeaveKeepsGood(s: Side, units: int, value: map<Task, nat>, t: Task)
    requires Good(s, units, value)
    ensures Good(Leave(s, t), units, value)
  {
    if t in s.waiting {
      var i := IndexOf(s.waiting, t);
      WithoutMembers(s.waiting, t);
      WithoutAscending(Keys(s.waiting, value), i);
      KeysOfWithout(s.waiting, t, value);
    }
  }

  // ---- Every step keeps it ----

  /** New sides on a queue that nobody holds. */
  lemma SidesKeepInv(q: Queue, lost: Lost, messages: nat, receivers: Side, senders: Side)
    requires LocksMatch(q) && q.holder.Nobody? && messages <= q.length
    requires receivers.lock == q.receivers.lock && senders.lock == q.senders.lock
    requires Good(receivers, messages - lost.receivers, q.value)
    requires Good(senders, q.length - messages - lost.senders, q.value)
    ensures Inv(q.(messages := messages, receivers := receivers, senders := senders), lost)
  {
  }

  lemma FailKeepsGood(s: Side, units: int, value: map<Task, nat>, t: Task, blocks: bool)
    requires Good(s, units, value) && t !in s.waiting && units <= 0
    ensures Good(Fail(s, t, blocks), units, value)
  {
  }

  lemma TryReceiveKeepsInv(q: Queue, lost: Lost, t: Task, blocks: bool, peek: bool)
    requires Inv(q, lost) && Running(q, t) && t !in q.senders.woken
    ensures Inv(TryReceive(q, t, blocks, peek), lost)
  {
    var units := q.messages - lost.receivers;
    if q.messages == 0 {
      FailKeepsGood(q.receivers, units, q.value, t, blocks);
      SidesKeepInv(q, lost, 0, Fail(q.receivers, t, blocks), q.senders);
    } else if peek {
      RetryKeepsGood(q.receivers, units, q.value, t);
      SidesKeepInv(q, lost, q.messages, WakeHead(Retry(q.receivers, t)), q.senders);
    } else {
      RetryKeepsGood(q.receivers, units, q.value, t);
      WakeKeepsGood(q.senders, q.length - q.messages - lost.senders, q.value);
      SidesKeepInv(q, lost, q.messages - 1, Retry(q.receivers, t), WakeHead(q.senders));
    }
  }

  lemma TrySendKeepsInv(q: Queue, lost: Lost, t: Task, blocks: bool)
    requires Inv(q, lost) && Running(q, t) && t !in q.receivers.woken
    ensures Inv(TrySend(q, t, blocks), lost)
  {
    var units := q.length - q.messages - lost.senders;
    if q.messages >= q.length {
      FailKeepsGood(q.senders, units, q.value, t, blocks);
      SidesKeepInv(q, lost, q.messages, q.receivers, Fail(q.senders, t, blocks));
    } else {
      RetryKeepsGood(q.senders, units, q.value, t);
      WakeKeepsGood(q.receivers, q.messages - lost.receivers, q.value);
      SidesKeepInv(q, lost, q.messages + 1, WakeHead(q.receivers), Retry(q.senders, t));
    }
  }

  lemma InterruptsKeepInv(q: Queue, lost: Lost)
    requires Inv(q, lost)
    ensures Inv(InterruptSend(q), lost) && Inv(InterruptReceive(q), lost)
  {
    AnnounceKeepsGood(q.receivers, q.messages - lost.receivers, q.value);
    AnnounceKeepsGood(q.senders, q.length - q.messages - lost.senders, q.value);
  }

  lemma LockKeepsInv(q: Queue, lost: Lost, t: Task, end: End)
    requires Inv(q, lost) && q.holder.Nobody? && t !in OfEnd(q, end).waiting && t !in OfEnd(q, end).woken
    ensures Inv(LockQueue(q, t, end), lost)
  {
  }

  lemma PlaceKeepsInv(q: Queue, lost: Lost)
    requires Inv(q, lost) && q.holder.Held? && q.holder.stage.Checked?
    ensures Inv(PlaceTask(q), lost)
  {
    var gone := if q.holder.end.Receiving? then lost.receivers else lost.senders;
    EnqueueKeepsGood(OfEnd(q, q.holder.end), Units(q, q.holder.end) - gone, q.value, q.holder.task);
  }

  lemma DeletionKeepsInv(q: Queue, lost: Lost, t: Task, end: End)
    requires Inv(q, lost) && q.holder.Nobody? && t in OfEnd(q, end).woken
    ensures Inv(WithEnd(q, end, Retry(OfEnd(q, end), t)), LostBy(lost, DeleteWoken(t, end)))
  {
    var gone := if end.Receiving? then lost.receivers else lost.senders;
    RetryKeepsGood(OfEnd(q, end), Units(q, end) - gone, q.value, t);
  }

  lemma StepKeepsInv(q: Queue, lost: Lost, op: Op)
    requires Inv(q, lost) && Allowed(q, op)
    ensures Inv(Step(q, op), LostBy(lost, op))
  {
    match op
    case Receive(t, blocks) => TryReceiveKeepsInv(q, lost, t, blocks, false);
    case Peek(t, blocks) => TryReceiveKeepsInv(q, lost, t, blocks, true);
    case Send(t, blocks) => TrySendKeepsInv(q, lost, t, blocks);
    case SendFromISR => InterruptsKeepInv(q, lost);
    case ReceiveFromISR => InterruptsKeepInv(q, lost);
    case Lock(t, end) => LockKeepsInv(q, lost, t, end);
    case LockToWait(t) => LockKeepsInv(q, lost, t, Receiving);
    case Check(_) =>
    case Place => PlaceKeepsInv(q, lost);
    case UnlockFirst => UnlockKeepsGood(q.receivers, q.messages - lost.receivers, q.value);
    case UnlockSecond => UnlockKeepsGood(q.senders, q.length - q.messages - lost.senders, q.value);
    case GiveUpWaiting(t) =>
      LeaveKeepsGood(q.receivers, q.messages - lost.receivers, q.value, t);
      LeaveKeepsGood(q.senders, q.length - q.messages - lost.senders, q.value, t);
    case DeleteWoken(t, end) => DeletionKeepsInv(q, lost, t, end);
  }

  // ---- Every run ----

  ghost predicate CanRun(q: Queue, ops: seq<Op>)
    decreases |ops|
  {
    ops == [] || (Allowed(q, ops[0]) && CanRun(Step(q, ops[0]), ops[1..]))
  }

  ghost function Run(q: Queue, ops: seq<Op>): Queue
    requires CanRun(q, ops)
    decreases |ops|
  {
    if ops == [] then q else Run(Step(q, ops[0]), ops[1..])
  }

  /** The deletions of a run, by side. */
  function Deletions(lost: Lost, ops: seq<Op>): Lost
    decreases |ops|
  {
    if ops == [] then lost else Deletions(LostBy(lost, ops[0]), ops[1..])
  }

  lemma {:induction false} RunKeepsInv(q: Queue, lost: Lost, ops: seq<Op>)
    requires Inv(q, lost) && CanRun(q, ops)
    ensures Inv(Run(q, ops), Deletions(lost, ops)) && Run(q, ops).length == q.length && Run(q, ops).value == q.value
    decreases |ops|
  {
    if ops != [] {
      StepKeepsInv(q, lost, ops[0]);
      RunKeepsInv(Step(q, ops[0]), LostBy(lost, ops[0]), ops[1..]);
    }
  }

  /** xQueueCreate */
  function Created(length: nat, value: map<Task, nat>): Queue {
    var side := Side([], {}, {}, UNLOCKED);
    Queue(0, length, value, side, side, Nobody)
  }

  /** No wake-up is lost, in any interleaving of tasks and interrupts. While a receiver waits, there are no more
      messages than receivers woken and yet to try, counts in the lock, and receivers deleted after they were woken;
      and likewise for senders and free places. */
  lemma NoLostWakeUp(length: nat, value: map<Task, nat>, ops: seq<Op>)
    requires CanRun(Created(length, value), ops)
    ensures var q, lost := Run(Created(length, value), ops), Deletions(NOBODY_LOST, ops);
      && (q.receivers.waiting != [] ==> q.messages <= |q.receivers.woken| + Positive(q.receivers.lock) + lost.receivers)
      && (q.senders.waiting != [] ==> q.length - q.messages <= |q.senders.woken| + Positive(q.senders.lock) + lost.senders)
  {
    assert Keys([], value) == [];
    RunKeepsInv(Created(length, value), NOBODY_LOST, ops);
  }

  /** So if no woken task was deleted, then once the queue is unlocked and the woken have tried, receivers wait only on
      an empty queue and senders only on a full one, and never both. */
  lemma NobodyWaitsInVain(length: nat, value: map<Task, nat>, ops: seq<Op>)
    requires CanRun(Created(length, value), ops) && Deletions(NOBODY_LOST, ops) == NOBODY_LOST
    ensures var q := Run(Created(length, value), ops);
      && (q.holder.Nobody? && q.receivers.waiting != [] && q.receivers.woken == {} ==> q.messages == 0)
      && (q.holder.Nobody? && q.senders.waiting != [] && q.senders.woken == {} ==> q.messages == length)
      && (q.holder.Nobody? && q.receivers.woken == q.senders.woken == {} && 0 < length ==> q.receivers.waiting == [] || q.senders.waiting == [])
  {
    assert Keys([], value) == [];
    RunKeepsInv(Created(length, value), NOBODY_LOST, ops);
  }

  /** Whoever is woken has the highest priority of those waiting, and has waited longest among its equals. */
  lemma WokenIsFirst(q: Queue, lost: Lost, end: End, t: Task)
    requires Inv(q, lost) && OfEnd(q, end).waiting != [] && t in OfEnd(q, end).waiting
    ensures var s := OfEnd(q, end); Keys(s.waiting, q.value)[0] <= Get(q.value, t)
    ensures forall u :: u in WakeHead(OfEnd(q, end)).woken && u !in OfEnd(q, end).woken ==> u == OfEnd(q, end).waiting[0]
  {
    var s := OfEnd(q, end);
    var i := IndexOf(s.waiting, t);
    assert Keys(s.waiting, q.value)[i] == Get(q.value, t);
  }

  /** A newcomer goes behind everyone of its priority or higher, and before the others. */
  lemma NewcomerGoesLast(s: Side, t: Task, value: map<Task, nat>, i: nat)
    requires InOrder(s, value) && i < |s.waiting|
    ensures var p := InsertPos(Keys(s.waiting, value), Get(value, t));
      && Enqueue(s, t, value).waiting == InsertAt(s.waiting, p, t)
      && (i < p <==> Keys(s.waiting, value)[i] <= Get(value, t))
  {
    InsertKeepsAscending(Keys(s.waiting, value), Get(value, t));
  }

  // ---- A blocking receive on its own, and a woken task that never tries ----

  lemma Then(q: Queue, op: Op, q': Queue, rest: seq<Op>)
    requires Allowed(q, op) && Step(q, op) == q' && CanRun(q', rest)
    ensures CanRun(q, [op] + rest) && Run(q, [op] + rest) == Run(q', rest)
  {
    assert ([op] + rest)[1..] == rest;
  }

  /** The rest of a blocking receive whose first try failed. */
  const BLOCK: seq<Op> := [Check(false)] + ([Place] + ([UnlockFirst] + ([UnlockSecond] + [])))

  lemma BlockWaits(q: Queue, t: Task, q': Queue)
    requires q.holder == Held(t, Receiving, Locked) && q.messages == 0 && q.receivers.lock == q.senders.lock == 0
    requires q' == q.(receivers := Enqueue(q.receivers, t, q.value).(lock := UNLOCKED), senders := q.senders.(lock := UNLOCKED), holder := Nobody)
    ensures CanRun(q, BLOCK) && Run(q, BLOCK) == q'
  {
    var q1 := q.(holder := Held(t, Receiving, Checked));
    var q2 := q.(receivers := Enqueue(q.receivers, t, q.value), holder := Held(t, Receiving, Settled));
    var q3 := q2.(receivers := q2.receivers.(lock := UNLOCKED), holder := Held(t, Receiving, HalfUnlocked));
    Then(q3, UnlockSecond, q', []);
    Then(q2, UnlockFirst, q3, [UnlockSecond] + []);
    Then(q1, Place, q2, [UnlockFirst] + ([UnlockSecond] + []));
    Then(q, Check(false), q1, [Place] + ([UnlockFirst] + ([UnlockSecond] + [])));
  }

  function BlockingReceive(t: Task): seq<Op> {
    [Receive(t, true)] + ([Lock(t, Receiving)] + BLOCK)
  }

  /** A receive on an empty queue, not interrupted, leaves the task waiting and the queue unlocked. */
  lemma BlockingReceiveWaits(q: Queue, t: Task)
    requires LocksMatch(q) && q.messages == 0 && Running(q, t) && Idle(q.receivers, t) && Idle(q.senders, t)
    ensures CanRun(q, BlockingReceive(t)) && Run(q, BlockingReceive(t)) == q.(receivers := Enqueue(q.receivers, t, q.value))
  {
    var q1 := q.(receivers := q.receivers.(failed := q.receivers.failed + {t}));
    var q2 := q.(receivers := q.receivers.(lock := 0), senders := q.senders.(lock := 0), holder := Held(t, Receiving, Locked));
    var q' := q.(receivers := Enqueue(q.receivers, t, q.value));
    assert q.receivers.woken - {t} == q.receivers.woken;
    assert q.receivers.failed + {t} - {t} == q.receivers.failed;
    BlockWaits(q2, t, q');
    Then(q1, Lock(t, Receiving), q2, BLOCK);
    Then(q, Receive(t, true), q1, [Lock(t, Receiving)] + BLOCK);
  }

  lemma {:induction false} RunAppend(q: Queue, a: seq<Op>, b: seq<Op>)
    requires CanRun(q, a) && CanRun(Run(q, a), b)
    ensures CanRun(q, a + b) && Run(q, a + b) == Run(Run(q, a), b)
    decreases |a|
  {
    if a == [] {
      assert a + b == b;
    } else {
      RunAppend(Step(q, a[0]), a[1..], b);
      Then(q, a[0], Step(q, a[0]), a[1..] + b);
      assert [a[0]] + (a[1..] + b) == a + b;
    }
  }

  /** And a deletion does lose one: two tasks wait, a message wakes the first, which is then deleted. The second waits
      on with a message in the queue, which is unlocked, and nobody left to wake it. */
  lemma DeletingWokenStrands(length: nat, value: map<Task, nat>) returns (ops: seq<Op>, first: Task, second: Task)
    requires 0 < length
    ensures CanRun(Created(length, value), ops + [DeleteWoken(first, Receiving)])
    ensures var q := Run(Created(length, value), ops + [DeleteWoken(first, Receiving)]);
      q.receivers.waiting == [second] && q.receivers.woken == {} && q.holder.Nobody? && q.messages == 1
  {
    var q := Created(length, value);
    BlockingReceiveWaits(q, 1);
    var q1 := Run(q, BlockingReceive(1));
    assert q1.receivers.waiting == [1];
    BlockingReceiveWaits(q1, 2);
    var q2 := Run(q1, BlockingReceive(2));
    assert |q2.receivers.waiting| == 2;
    RunAppend(q, BlockingReceive(1), BlockingReceive(2));
    var both := BlockingReceive(1) + BlockingReceive(2);
    var q3 := Step(q2, SendFromISR);
    first, second := q2.receivers.waiting[0], q2.receivers.waiting[1];
    ops := both + ([SendFromISR] + []);
    Then(q2, SendFromISR, q3, []);
    RunAppend(q, both, [SendFromISR] + []);
    SecondIsStranded(q3, first, second);
    RunAppend(q, ops, [DeleteWoken(first, Receiving)]);
  }

  lemma SecondIsStranded(q: Queue, first: Task, second: Task)
    requires q.receivers.waiting == [second] && q.receivers.woken == {first} && q.holder.Nobody? && q.messages == 1
    ensures CanRun(q, [DeleteWoken(first, Receiving)])
    ensures var q' := Run(q, [DeleteWoken(first, Receiving)]);
      q'.receivers.waiting == [second] && q'.receivers.woken == {} && q'.holder.Nobody? && q'.messages == 1
  {
    var delete := DeleteWoken(first, Receiving);
    Then(q, delete, Step(q, delete), []);
    assert [delete] + [] == [delete];
  }
}
