/** queue.c as it runs: the counters, lock counts and waiting lists of one queue, updated in place. Each critical
    section is a method proved against the step of QueueProtocol that specifies it. */
module QueueControl {
  import opened Sequences
  import opened Containers
  import opened QueueProtocol
  import opened QueueTraffic

  class Control {
    const length: nat
    const value: map<Task, nat>           // the tasks' event item values
    var messages: nat                     // uxMessagesWaiting
    var waitingToReceive: seq<Task>
    var waitingToSend: seq<Task>
    var txLock: int
    var rxLock: int
    // where the tasks that are on neither list have got to
    ghost var wokenReceivers: set<Task>
    ghost var wokenSenders: set<Task>
    ghost var failedReceivers: set<Task>
    ghost var failedSenders: set<Task>
    ghost var holder: Holder
    ghost var lost: Lost

    ghost function State(): Queue
      reads this
    {
      Queue(messages, length, value, Side(waitingToReceive, wokenReceivers, failedReceivers, txLock),
            Side(waitingToSend, wokenSenders, failedSenders, rxLock), holder)
    }

    /** No wake-up is lost, both lists are in order, and the lock counts are in use iff somebody holds the queue. */
    ghost predicate Valid()
      reads this
    {
      Inv(State(), lost)
    }

    /** Those a method woke come before everyone who goes on waiting. */
    twostate predicate WokeHighest()
      reads this
    {
      WokenFirst(old(State()), State())
    }

    /** xQueueCreate */
    constructor (queueLength: nat, eventValues: map<Task, nat>)
      ensures Valid() && State() == Created(queueLength, eventValues)
    {
      length, value, messages := queueLength, eventValues, 0;
      waitingToReceive, waitingToSend, txLock, rxLock := [], [], UNLOCKED, UNLOCKED;
      wokenReceivers, wokenSenders, failedReceivers, failedSenders, holder, lost := {}, {}, {}, {}, Nobody, NOBODY_LOST;
      new;
      assert Keys([], value) == [];
    }

    /** xTaskRemoveFromEventList on the receivers' list, if anyone is on it. */
    method WakeReceiver()
      modifies `waitingToReceive, `wokenReceivers
      ensures State() == old(State().(receivers := WakeHead(State().receivers)))
    {
      if waitingToReceive != [] {
        wokenReceivers := wokenReceivers + {waitingToReceive[0]};
        waitingToReceive := waitingToReceive[1..];
      }
    }

    method WakeSender()
      modifies `waitingToSend, `wokenSenders
      ensures State() == old(State().(senders := WakeHead(State().senders)))
    {
      if waitingToSend != [] {
        wokenSenders := wokenSenders + {waitingToSend[0]};
        waitingToSend := waitingToSend[1..];
      }
    }

    method Get(t: Task, ticksToWait: nat, peek: bool) returns (received: bool)
      modifies `messages, `waitingToReceive, `waitingToSend, `wokenReceivers, `wokenSenders, `failedReceivers
      ensures State() == QueueProtocol.TryReceive(old(State()), t, ticksToWait != 0, peek)
      ensures received <==> old(messages) > 0
    {
      received := messages > 0;
      wokenReceivers := wokenReceivers - {t};
      if received {
        if peek {
          WakeReceiver();
        } else {
          messages := messages - 1;
          WakeSender();
        }
      } else if ticksToWait != 0 {
        failedReceivers := failedReceivers + {t};
      }
    }

    /** One pass through the first critical section of xQueueGenericReceive, for task `t`: it succeeds iff there is a
        message, takes it out unless it peeks, and wakes the first sender, or receiver if it peeks. */
    method TryReceive(t: Task, ticksToWait: nat, peek: bool) returns (received: bool)
      requires Valid() && Running(State(), t) && t !in wokenSenders
      modifies this
      ensures State() == QueueProtocol.TryReceive(old(State()), t, ticksToWait != 0, peek)
      ensures Valid() && WokeHighest() && (received <==> old(messages) > 0)
      ensures messages == old(messages) - if received && !peek then 1 else 0
      ensures Tried(old(State()).receivers, State().receivers, t, received, ticksToWait != 0)
      ensures if received && peek then HeadWoken(old(State()).receivers, State().receivers, {t})
        else NobodyWoken(old(State()).receivers, State().receivers, {t})
      ensures if received && !peek then HeadWoken(old(State()).senders, State().senders, {})
        else NobodyWoken(old(State()).senders, State().senders, {})
    {
      ReceiveIsRight(State(), lost, t, ticksToWait != 0, peek);
      received := Get(t, ticksToWait, peek);
    }

    method Put(t: Task, ticksToWait: nat) returns (sent: bool)
      modifies `messages, `waitingToReceive, `wokenReceivers, `wokenSenders, `failedSenders
      ensures State() == QueueProtocol.TrySend(old(State()), t, ticksToWait != 0)
      ensures sent <==> old(messages) < length
    {
      sent := messages < length;
      wokenSenders := wokenSenders - {t};
      if sent {
        messages := messages + 1;
        WakeReceiver();
      } else if ticksToWait != 0 {
        failedSenders := failedSenders + {t};
      }
    }

    /** One pass through the first critical section of xQueueGenericSend: it succeeds iff there is a place, fills it and
        wakes the first receiver. */
    method TrySend(t: Task, ticksToWait: nat) returns (sent: bool)
      requires Valid() && Running(State(), t) && t !in wokenReceivers
      modifies this
      ensures State() == QueueProtocol.TrySend(old(State()), t, ticksToWait != 0)
      ensures Valid() && WokeHighest() && (sent <==> old(messages) < length)
      ensures messages == old(messages) + if sent then 1 else 0
      ensures Tried(old(State()).senders, State().senders, t, sent, ticksToWait != 0)
      ensures NobodyWoken(old(State()).senders, State().senders, {t})
      ensures if sent then HeadWoken(old(State()).receivers, State().receivers, {})
        else NobodyWoken(old(State()).receivers, State().receivers, {})
    {
      SendIsRight(State(), lost, t, ticksToWait != 0);
      sent := Put(t, ticksToWait);
    }

    /** xQueueGenericSendFromISR */
    method SendFromISR() returns (sent: bool)
      requires Valid()
      modifies this
      ensures State() == InterruptSend(old(State()))
      ensures Valid() && WokeHighest() && (sent <==> old(messages) < length)
      ensures messages == (old(messages) + if sent then 1 else 0) && State().senders == old(State()).senders
      ensures if sent then Announced(old(State()).receivers, State().receivers) else State() == old(State())
    {
      InterruptsMove(State());
      InterruptsKeepInv(State(), lost);
      HeadsComeFirst(State(), lost);
      sent := messages < length;
      if sent {
        messages := messages + 1;
        if txLock == UNLOCKED {
          WakeReceiver();
        } else {
          txLock := txLock + 1;
        }
      }
    }

    /** xQueueReceiveFromISR */
    method ReceiveFromISR() returns (received: bool)
      requires Valid()
      modifies this
      ensures State() == InterruptReceive(old(State()))
      ensures Valid() && WokeHighest() && (received <==> old(messages) > 0)
      ensures messages == (old(messages) - if received then 1 else 0) && State().receivers == old(State()).receivers
      ensures if received then Announced(old(State()).senders, State().senders) else State() == old(State())
    {
      InterruptsMove(State());
      InterruptsKeepInv(State(), lost);
      HeadsComeFirst(State(), lost);
      received := messages > 0;
      if received {
        messages := messages - 1;
        if rxLock == UNLOCKED {
          WakeSender();
        } else {
          rxLock := rxLock + 1;
        }
      }
    }

    /** prvLockQueue, by task `t` with the scheduler suspended: from here on both counts start from zero. */
    method Lock(t: Task, end: End)
      requires Valid() && holder.Nobody? && t !in OfEnd(State(), end).waiting && t !in OfEnd(State(), end).woken
      modifies this
      ensures State() == LockQueue(old(State()), t, end)
      ensures Valid() && txLock == rxLock == 0
    {
      LockKeepsInv(State(), lost, t, end);
      if rxLock == UNLOCKED {
        rxLock := 0;
      }
      if txLock == UNLOCKED {
        txLock := 0;
      }
      if end.Receiving? {
        failedReceivers := failedReceivers - {t};
      } else {
        failedSenders := failedSenders - {t};
      }
      holder := Held(t, end, QueueProtocol.Locked);
    }

    /** The wait of a blocking call: unless it timed out or there is something to take by now, the task is to go
        on the waiting list. */
    method Check(t: Task, end: End, expired: bool) returns (place: bool)
      requires Valid() && holder == Held(t, end, QueueProtocol.Locked)
      modifies `holder
      ensures State() == CheckQueue(old(State()), expired) && holder == Held(t, end, if place then Checked else Settled)
      ensures Valid() && (place <==> !expired && Units(State(), end) == 0)
    {
      place := !expired && if end.Receiving? then messages == 0 else messages == length;
      holder := Held(t, end, if place then Checked else Settled);
    }

    /** vTaskPlaceOnEventList: the task waits, in order, and what interrupts did since the check is accounted for. */
    method Place(t: Task, end: End)
      requires Valid() && holder == Held(t, end, Checked)
      modifies this
      ensures State() == PlaceTask(old(State()))
      ensures Valid() && t in OfEnd(State(), end).waiting
    {
      ghost var q := State();
      PlaceIsRight(q, lost, t, end);
      if end.Receiving? {
        waitingToReceive := Enqueue(Side(waitingToReceive, {}, {}, txLock), t, value).waiting;
      } else {
        waitingToSend := Enqueue(Side(waitingToSend, {}, {}, rxLock), t, value).waiting;
      }
      holder := Held(t, end, Settled);
      assert State() == PlaceTask(q);
    }

    /** The first critical section of prvUnlockQueue: a receiver is woken for each message that interrupts sent
        meanwhile, as long as any wait. */
    method UnlockTx()
      requires Valid() && holder.Held? && holder.stage.Settled?
      modifies this
      ensures Valid()
      ensures State() == old(State()).(receivers := UnlockSide(old(State().receivers)), holder := holder)
      ensures holder == old(holder).(stage := HalfUnlocked)
    {
      UnlockKeepsGood(State().receivers, messages - lost.receivers, value);
      ghost var goal := UnlockSide(State().receivers);
      ghost var rest := State();
      while txLock > 0
        invariant UnlockSide(State().receivers) == goal
        invariant State() == rest.(receivers := State().receivers) && lost == old(lost)
        decreases txLock
      {
        if waitingToReceive == [] {
          break;
        }
        WakeReceiver();
        txLock := txLock - 1;
      }
      txLock := UNLOCKED;
      holder := holder.(stage := HalfUnlocked);
    }

    /** The second one, for senders. */
    method UnlockRx()
      requires Valid() && holder.Held? && holder.stage.HalfUnlocked?
      modifies this
      ensures Valid()
      ensures State() == old(State()).(senders := UnlockSide(old(State().senders)), holder := Nobody)
    {
      UnlockKeepsGood(State().senders, length - messages - lost.senders, value);
      ghost var goal := UnlockSide(State().senders);
      ghost var rest := State();
      while rxLock > 0
        invariant UnlockSide(State().senders) == goal
        invariant State() == rest.(senders := State().senders) && lost == old(lost)
        decreases rxLock
      {
        if waitingToSend == [] {
          break;
        }
        WakeSender();
        rxLock := rxLock - 1;
      }
      rxLock := UNLOCKED;
      holder := Nobody;
    }

    /** A waiting task is taken off its list by a time-out, a suspend or a delete. */
    method Abandon(t: Task)
      requires Valid() && holder.Nobody?
      modifies `waitingToReceive, `waitingToSend
      ensures Valid() && t !in waitingToReceive && t !in waitingToSend
      ensures State() == old(State().(receivers := Leave(State().receivers, t), senders := Leave(State().senders, t)))
    {
      AbandonedByAll(State(), lost, t);
      if t in waitingToReceive {
        waitingToReceive := Without(waitingToReceive, t);
      }
      if t in waitingToSend {
        waitingToSend := Without(waitingToSend, t);
      }
    }

    /** vTaskDelete of a task that was woken and has not tried again. */
    ghost method Delete(t: Task, end: End)
      requires Valid() && holder.Nobody? && t in OfEnd(State(), end).woken
      modifies `wokenReceivers, `wokenSenders, `lost
      ensures State() == WithEnd(old(State()), end, Retry(OfEnd(old(State()), end), t)) && lost == LostBy(old(lost), DeleteWoken(t, end))
      ensures Valid()
    {
      DeletionKeepsInv(State(), lost, t, end);
      if end.Receiving? {
        wokenReceivers := wokenReceivers - {t};
      } else {
        wokenSenders := wokenSenders - {t};
      }
      lost := LostBy(lost, DeleteWoken(t, end));
    }
  }

  /** Those that a step wakes come before everyone who goes on waiting. */
  ghost predicate WokenFirst(q: Queue, q': Queue) {
    FirstOfSide(q.receivers, q'.receivers, q.value) && FirstOfSide(q.senders, q'.senders, q.value)
  }

  ghost predicate FirstOfSide(s: Side, s': Side, value: map<Task, nat>) {
    forall u, v :: u in s'.woken && u !in s.woken && v in s'.waiting ==> Get(value, u) <= Get(value, v)
  }

  lemma WokenHeadIsFirst(s: Side, s': Side, value: map<Task, nat>, gone: set<Task>)
    requires InOrder(s, value) && (HeadWoken(s, s', gone) || NobodyWoken(s, s', gone))
    ensures FirstOfSide(s, s', value)
  {
    HeadComesFirst(s, value);
    assert forall v :: v in s'.waiting ==> v in s.waiting;
  }

  lemma ReceiveIsRight(q: Queue, lost: Lost, t: Task, blocks: bool, peek: bool)
    requires Inv(q, lost) && Running(q, t) && t !in q.senders.woken
    ensures var q' := QueueProtocol.TryReceive(q, t, blocks, peek);
      var received := q.messages > 0;
      && Inv(q', lost) && WokenFirst(q, q') && q'.messages == q.messages - (if received && !peek then 1 else 0)
      && Tried(q.receivers, q'.receivers, t, received, blocks)
      && (if received && peek then HeadWoken(q.receivers, q'.receivers, {t}) else NobodyWoken(q.receivers, q'.receivers, {t}))
      && (if received && !peek then HeadWoken(q.senders, q'.senders, {}) else NobodyWoken(q.senders, q'.senders, {}))
  {
    var q' := QueueProtocol.TryReceive(q, t, blocks, peek);
    TryReceiveKeepsInv(q, lost, t, blocks, peek);
    if peek {
      PeekMoves(q, lost, t, blocks);
    } else {
      ReceiveMoves(q, lost, t, blocks);
    }
    WokenHeadIsFirst(q.receivers, q'.receivers, q.value, {t});
    WokenHeadIsFirst(q.senders, q'.senders, q.value, {});
  }

  lemma SendIsRight(q: Queue, lost: Lost, t: Task, blocks: bool)
    requires Inv(q, lost) && Running(q, t) && t !in q.receivers.woken
    ensures var q' := QueueProtocol.TrySend(q, t, blocks);
      var sent := q.messages < q.length;
      && Inv(q', lost) && WokenFirst(q, q') && q'.messages == q.messages + (if sent then 1 else 0)
      && Tried(q.senders, q'.senders, t, sent, blocks) && NobodyWoken(q.senders, q'.senders, {t})
      && (if sent then HeadWoken(q.receivers, q'.receivers, {}) else NobodyWoken(q.receivers, q'.receivers, {}))
  {
    var q' := QueueProtocol.TrySend(q, t, blocks);
    TrySendKeepsInv(q, lost, t, blocks);
    SendMoves(q, lost, t, blocks);
    WokenHeadIsFirst(q.receivers, q'.receivers, q.value, {});
    WokenHeadIsFirst(q.senders, q'.senders, q.value, {t});
  }

  /** The head of a waiting list comes before all that wait with it. */
  lemma HeadsComeFirst(q: Queue, lost: Lost)
    requires Inv(q, lost)
    ensures forall u :: u in q.receivers.waiting ==> Get(q.value, q.receivers.waiting[0]) <= Get(q.value, u)
    ensures forall u :: u in q.senders.waiting ==> Get(q.value, q.senders.waiting[0]) <= Get(q.value, u)
  {
    HeadComesFirst(q.receivers, q.value);
    HeadComesFirst(q.senders, q.value);
  }

  lemma HeadComesFirst(s: Side, value: map<Task, nat>)
    requires InOrder(s, value)
    ensures forall u :: u in s.waiting ==> Get(value, s.waiting[0]) <= Get(value, u)
  {
    forall u | u in s.waiting ensures Get(value, s.waiting[0]) <= Get(value, u) {
      var i :| 0 <= i < |s.waiting| && s.waiting[i] == u;
      assert Keys(s.waiting, value)[0] <= Keys(s.waiting, value)[i];
    }
  }

  lemma ListedAfterPlace(s: Side, t: Task, value: map<Task, nat>)
    ensures t in Enqueue(s, t, value).waiting
  {
    InsertedEntries(s.waiting, InsertPos(Keys(s.waiting, value), Get(value, t)), t);
  }

  lemma PlaceIsRight(q: Queue, lost: Lost, t: Task, end: End)
    requires Inv(q, lost) && q.holder == Held(t, end, Checked)
    ensures Inv(PlaceTask(q), lost) && t in OfEnd(PlaceTask(q), end).waiting
  {
    PlaceKeepsInv(q, lost);
    ListedAfterPlace(OfEnd(q, end), t, q.value);
  }

  lemma AbandonedByAll(q: Queue, lost: Lost, t: Task)
    requires Inv(q, lost) && q.holder.Nobody?
    ensures var q' := q.(receivers := Leave(q.receivers, t), senders := Leave(q.senders, t));
      Inv(q', lost) && t !in q'.receivers.waiting && t !in q'.senders.waiting
  {
    LeaveKeepsGood(q.receivers, q.messages - lost.receivers, q.value, t);
    LeaveKeepsGood(q.senders, q.length - q.messages - lost.senders, q.value, t);
    if t in q.receivers.waiting {
      WithoutMembers(q.receivers.waiting, t);
    }
    if t in q.senders.waiting {
      WithoutMembers(q.senders.waiting, t);
    }
  }
}
