/** queue.c over whole runs: how many messages there are, told by the calls made, and whom each call wakes. */
module QueueTraffic {
  import opened Sequences
  import opened Containers
  import opened QueueProtocol

  // ---- A bounded counter ----

  predicate Sends(op: Op) {
    op.Send? || op.SendFromISR?
  }

  /** Takes a message out, which a peek does not. */
  predicate Takes(op: Op) {
    op.Receive? || op.ReceiveFromISR?
  }

  /** Whether a call gets through, with `n` messages in a queue of this length. */
  predicate GetsThrough(n: nat, length: nat, op: Op) {
    (Sends(op) && n < length) || ((Takes(op) || op.Peek?) && n > 0)
  }

  function NextCount(n: nat, length: nat, op: Op): nat {
    if !GetsThrough(n, length, op) then n else if Sends(op) then n + 1 else if Takes(op) then n - 1 else n
  }

  /** The sends of a run that get through. */
  function Sent(n: nat, length: nat, ops: seq<Op>): nat
    decreases |ops|
  {
    if ops == [] then 0
    else (if Sends(ops[0]) && GetsThrough(n, length, ops[0]) then 1 else 0) + Sent(NextCount(n, length, ops[0]), length, ops[1..])
  }

  /** The receives of a run that get through. */
  function Taken(n: nat, length: nat, ops: seq<Op>): nat
    decreases |ops|
  {
    if ops == [] then 0
    else (if Takes(ops[0]) && GetsThrough(n, length, ops[0]) then 1 else 0) + Taken(NextCount(n, length, ops[0]), length, ops[1..])
  }

  // ---- Who is woken ----

  /** The first of those waiting, if anyone waits, is woken, and `gone` is woken no longer. */
  ghost predicate HeadWoken(s: Side, s': Side, gone: set<Task>) {
    if s.waiting == [] then s'.waiting == [] && s'.woken == s.woken - gone
    else s'.waiting == s.waiting[1..] && s'.woken == s.woken - gone + {s.waiting[0]}
  }

  ghost predicate NobodyWoken(s: Side, s': Side, gone: set<Task>) {
    s'.waiting == s.waiting && s'.woken == s.woken - gone
  }

  /** The side of the task that tries: it is woken no longer, and about to block iff it found nothing and may. */
  ghost predicate Tried(s: Side, s': Side, t: Task, through: bool, blocks: bool) {
    t !in s'.woken && s'.lock == s.lock && s'.failed == s.failed + if !through && blocks then {t} else {}
  }

  lemma ReceiveMoves(q: Queue, lost: Lost, t: Task, blocks: bool)
    requires Inv(q, lost) && Allowed(q, Receive(t, blocks))
    ensures var q' := Step(q, Receive(t, blocks));
      && q'.messages == q.messages - (if q.messages > 0 then 1 else 0)
      && Tried(q.receivers, q'.receivers, t, q.messages > 0, blocks) && NobodyWoken(q.receivers, q'.receivers, {t})
      && (if q.messages > 0 then HeadWoken(q.senders, q'.senders, {}) else NobodyWoken(q.senders, q'.senders, {}))
  {
  }

  lemma PeekMoves(q: Queue, lost: Lost, t: Task, blocks: bool)
    requires Inv(q, lost) && Allowed(q, Peek(t, blocks))
    ensures var q' := Step(q, Peek(t, blocks));
      && q'.messages == q.messages && q'.senders == q.senders
      && Tried(q.receivers, q'.receivers, t, q.messages > 0, blocks)
      && (if q.messages > 0 then HeadWoken(q.receivers, q'.receivers, {t}) else NobodyWoken(q.receivers, q'.receivers, {t}))
  {
    assert q.receivers.waiting != [] ==> q.receivers.waiting[0] in q.receivers.waiting;
  }

  lemma SendMoves(q: Queue, lost: Lost, t: Task, blocks: bool)
    requires Inv(q, lost) && Allowed(q, Send(t, blocks))
    ensures var q' := Step(q, Send(t, blocks));
      && q'.messages == q.messages + (if q.messages < q.length then 1 else 0)
      && Tried(q.senders, q'.senders, t, q.messages < q.length, blocks) && NobodyWoken(q.senders, q'.senders, {t})
      && (if q.messages < q.length then HeadWoken(q.receivers, q'.receivers, {}) else NobodyWoken(q.receivers, q'.receivers, {}))
  {
  }

  /** What an interrupt does for the other side: it wakes the first, or counts if the queue is locked. */
  ghost predicate Announced(s: Side, s': Side) {
    && s'.failed == s.failed
    && if s.lock == UNLOCKED then HeadWoken(s, s', {}) && s'.lock == s.lock else NobodyWoken(s, s', {}) && s'.lock == s.lock + 1
  }

  lemma InterruptsMove(q: Queue)
    ensures var q' := Step(q, SendFromISR);
      if q.messages < q.length then q' == q.(messages := q.messages + 1, receivers := q'.receivers) && Announced(q.receivers, q'.receivers)
      else q' == q
    ensures var q' := Step(q, ReceiveFromISR);
      if q.messages > 0 then q' == q.(messages := q.messages - 1, senders := q'.senders) && Announced(q.senders, q'.senders)
      else q' == q
  {
  }

  /** Others keep their places when a task leaves a list. */
  ghost predicate LeftAlone(w: seq<Task>, w': seq<Task>, t: Task) {
    if t in w then exists i :: 0 <= i < |w| && w[i] == t && w' == w[..i] + w[i + 1..] else w' == w
  }

  /** A task that gives up waiting waits on neither side any more, wherever it stood, and nothing else changes. */
  lemma GivingUpMoves(q: Queue, lost: Lost, t: Task)
    requires Inv(q, lost) && Allowed(q, GiveUpWaiting(t))
    ensures var q' := Step(q, GiveUpWaiting(t));
      && q' == q.(receivers := q.receivers.(waiting := q'.receivers.waiting), senders := q.senders.(waiting := q'.senders.waiting))
      && t !in q'.receivers.waiting && t !in q'.senders.waiting
      && LeftAlone(q.receivers.waiting, q'.receivers.waiting, t) && LeftAlone(q.senders.waiting, q'.senders.waiting, t)
  {
    if t in q.receivers.waiting {
      WithoutMembers(q.receivers.waiting, t);
    }
    if t in q.senders.waiting {
      WithoutMembers(q.senders.waiting, t);
    }
  }

  function Front(w: seq<Task>, k: nat): set<Task>
    requires k <= |w|
  {
    set i | 0 <= i < k :: w[i]
  }

  lemma FrontIsHeadAndRest(w: seq<Task>, k: nat)
    requires 0 < k <= |w|
    ensures Front(w, k) == {w[0]} + Front(w[1..], k - 1)
  {
    forall t | t in Front(w, k) ensures t in {w[0]} + Front(w[1..], k - 1) {
      var i :| 0 <= i < k && t == w[i];
      assert i > 0 ==> w[1..][i - 1] == t;
    }
    forall t | t in Front(w[1..], k - 1) ensures t in Front(w, k) {
      var i :| 0 <= i < k - 1 && t == w[1..][i];
      assert w[i + 1] == t;
    }
  }

  /** An unlock wakes as many as its count says, the first of those waiting, or all if there are fewer. */
  lemma {:induction false} UnlockWakes(s: Side)
    requires s.lock >= 0
    ensures var k := Least(s.lock, |s.waiting|);
      && UnlockSide(s).waiting == s.waiting[k..] && UnlockSide(s).lock == UNLOCKED && UnlockSide(s).failed == s.failed
      && UnlockSide(s).woken == s.woken + Front(s.waiting, k)
    decreases s.lock
  {
    var k := Least(s.lock, |s.waiting|);
    if s.lock > 0 && s.waiting != [] {
      var s1 := WakeHead(s).(lock := s.lock - 1);
      UnlockWakes(s1);
      assert s1.waiting[k - 1..] == s.waiting[k..];
      FrontIsHeadAndRest(s.waiting, k);
    }
  }

  // ---- Every run ----

  lemma CallCounts(q: Queue, lost: Lost, op: Op)
    requires Inv(q, lost) && Allowed(q, op) && (Sends(op) || Takes(op) || op.Peek?)
    ensures Step(q, op).messages == NextCount(q.messages, q.length, op) && Step(q, op).length == q.length
  {
  }

  lemma OthersCountNothing(q: Queue, op: Op)
    requires Allowed(q, op) && !Sends(op) && !Takes(op) && !op.Peek?
    ensures Step(q, op).messages == q.messages && Step(q, op).length == q.length
  {
  }

  lemma StepCounts(q: Queue, lost: Lost, op: Op)
    requires Inv(q, lost) && Allowed(q, op)
    ensures Step(q, op).messages == NextCount(q.messages, q.length, op) && Step(q, op).length == q.length
  {
    if Sends(op) || Takes(op) || op.Peek? {
      CallCounts(q, lost, op);
    } else {
      OthersCountNothing(q, op);
    }
  }

  lemma {:induction false} RunCounts(q: Queue, lost: Lost, ops: seq<Op>)
    requires Inv(q, lost) && CanRun(q, ops)
    ensures Run(q, ops).messages == q.messages + Sent(q.messages, q.length, ops) - Taken(q.messages, q.length, ops)
    decreases |ops|
  {
    if ops != [] {
      StepKeepsInv(q, lost, ops[0]);
      StepCounts(q, lost, ops[0]);
      RunCounts(Step(q, ops[0]), LostBy(lost, ops[0]), ops[1..]);
    }
  }

  /** In every run the queue holds the messages of the sends that got through, less those the receives that got through
      took out, and peeks took none. */
  lemma MessagesAreCounted(length: nat, value: map<Task, nat>, ops: seq<Op>)
    requires CanRun(Created(length, value), ops)
    ensures Run(Created(length, value), ops).messages == Sent(0, length, ops) - Taken(0, length, ops)
  {
    assert Keys([], value) == [];
    RunCounts(Created(length, value), NOBODY_LOST, ops);
  }
}
