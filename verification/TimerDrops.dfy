/** timers.c: a run in which an auto-reload timer falls silent. The daemon gets to it so late that its next expiry has
    passed as well, sends itself a command to reload it, and finds the queue full. */
module TimerDrops {
  import opened Sequences
  import opened Ticks
  import opened Timers
  import opened TimerRuns

  /** A queue for one command, and in it the one that starts timer `t` at time 0. */
  function Started(n: Period, p: nat, t: Timer, u: Timer): Daemon {
    Daemon(n, [], [], map[], map[t := p, u := p], {t}, 0, 0, [Message(Start, 0, t, 0)], 1, [])
  }

  function ForOther(p: nat, u: Timer): Message {
    Message(Start, 2 * p, u, 2 * p)
  }

  /** It is received; two periods later the daemon samples the time; before it gets to `t` a command for `u` is sent. */
  function Late(p: nat, u: Timer): seq<Op> {
    [ReceiveNext(false)] + ([SampleTime(2 * p)] + ([PostCommand(ForOther(p, u))] + ([ProcessHead] + [])))
  }

  lemma OneListed(t: Timer, v: nat)
    ensures InsertSorted([], t, map[t := v]) == [t]
  {
  }

  lemma StartedIsTracked(n: Period, p: nat, t: Timer, u: Timer)
    requires 0 < p < n && u != t
    ensures WellFormed(Started(n, p, t, u)) && Tracked(Started(n, p, t, u), t, 0)
    ensures LogOf(Started(n, p, t, u).callbacks, t) == []
  {
    var d := Started(n, p, t, u);
    assert d.queue[..0] == [];
    assert Mine(d.queue, t) == Mine([], t) + [d.queue[0]];
  }

  lemma IsListed(n: Period, p: nat, t: Timer, u: Timer) returns (d: Daemon)
    requires 0 < p < n && u != t
    ensures WellFormed(Started(n, p, t, u)) && d == Step(Started(n, p, t, u), ReceiveNext(false))
    ensures d == Started(n, p, t, u).(value := map[t := p], current := [t], queue := [])
  {
    StartedIsTracked(n, p, t, u);
    OneListed(t, p);
    var d1, expiry := ReceiveStartForms(Started(n, p, t, u));
    d := Step(Started(n, p, t, u), ReceiveNext(false));
    assert d1 == Started(n, p, t, u).(queue := []);
    assert map[][t := p] == map[t := p];
  }

  /** The daemon, two periods later, with `t` at the head of its list and the queue full. */
  function Full(n: Period, p: nat, t: Timer, u: Timer): Daemon {
    Started(n, p, t, u).(value := map[t := p], current := [t], queue := [ForOther(p, u)], lastTime := 2 * p)
  }

  lemma IsFull(d: Daemon, n: Period, p: nat, t: Timer, u: Timer)
    requires 0 < p && 2 * p < n && u != t && WellFormed(d)
    requires d == Started(n, p, t, u).(value := map[t := p], current := [t], queue := [])
    ensures Allowed(d, SampleTime(2 * p)) && WellFormed(Step(d, SampleTime(2 * p)))
    ensures Step(d, SampleTime(2 * p)) == d.(lastTime := 2 * p)
    ensures Step(d.(lastTime := 2 * p), PostCommand(ForOther(p, u))) == Full(n, p, t, u) && WellFormed(Full(n, p, t, u))
  {
    ModBelow(2 * p, n);
    StepKeepsWellFormed(d, SampleTime(2 * p));
    var d1 := d.(lastTime := 2 * p);
    assert [] + [ForOther(p, u)] == [ForOther(p, u)];
    PostKeepsWellFormed(d1, ForOther(p, u));
  }

  lemma ExpiredTwice(d: Daemon, p: nat, t: Timer)
    requires 0 < p && 2 * p < d.n && d.lastTime == 2 * p && Get(d.period, t) == p
    ensures PlaceOf(d, t, WrapAdd(p, p, d.n), p).ProcessNow?
  {
  }

  /** What processing the head amounts to when its own command does not get through. */
  lemma LostHead(d: Daemon, t: Timer, p: nat) returns (d': Daemon)
    requires d.current == [t] && d.lastTime < d.n && Get(d.value, t) == p < d.n && Get(d.period, t) == p
    requires t in d.autoReload && |d.queue| == d.room && d.epoch == 0
    requires PlaceOf(d, t, WrapAdd(p, p, d.n), p).ProcessNow?
    ensures d' == ProcessExpired(d) && d'.callbacks == d.callbacks + [Callback(t, p)]
    ensures d'.epoch == d.epoch && d'.lastTime == d.lastTime && !ProcessHasRoom(d, t)
  {
    var d1, v, expiry := ProcessForms(d);
    d' := ProcessExpired(d);
  }

  /** Its callback runs, and the command to reload it does not get through. */
  lemma HeadIsLost(d: Daemon, n: Period, p: nat, t: Timer, u: Timer) returns (d': Daemon)
    requires 0 < p && 2 * p < n && u != t && d == Full(n, p, t, u) && WellFormed(d)
    ensures Allowed(d, ProcessHead) && !RoomFor(d, ProcessHead, t)
    ensures d' == Step(d, ProcessHead) && LogOf(d'.callbacks, t) == [p] && Now(d') == 2 * p
  {
    ExpiredTwice(d, p, t);
    d' := LostHead(d, t, p);
    LogOfAppend([], Callback(t, p), t);
    assert [] + [Callback(t, p)] == d'.callbacks;
  }

  lemma First(d: Daemon, op: Op, d': Daemon, rest: seq<Op>, t: Timer)
    requires WellFormed(d) && Allowed(d, op) && LeavesTo(d, op, t) && d' == Step(d, op)
    requires WellFormed(d') && CanRun(d', rest, t)
    ensures CanRun(d, [op] + rest, t) && Run(d, [op] + rest, t) == Run(d', rest, t)
    ensures RoomThroughout(d, [op] + rest, t) <==> RoomFor(d, op, t) && RoomThroughout(d', rest, t)
  {
    assert ([op] + rest)[1..] == rest;
  }

  /** The callback for the first period has run, two have passed, and by DroppedForGood there will be no other. */
  lemma ReloadIsDropped(n: Period, p: nat, t: Timer, u: Timer)
    requires 0 < p && 2 * p < n && u != t
    ensures var d, ops := Started(n, p, t, u), Late(p, u);
      && WellFormed(d) && Tracked(d, t, 0) && LogOf(d.callbacks, t) == []
      && CanRun(d, ops, t) && !RoomThroughout(d, ops, t)
      && LogOf(Run(d, ops, t).callbacks, t) == [p] && Now(Run(d, ops, t)) == 2 * p
  {
    var d0 := Started(n, p, t, u);
    StartedIsTracked(n, p, t, u);
    var d1 := IsListed(n, p, t, u);
    StepKeepsWellFormed(d0, ReceiveNext(false));
    var d2, d3 := d1.(lastTime := 2 * p), Full(n, p, t, u);
    IsFull(d1, n, p, t, u);
    var d4 := HeadIsLost(d3, n, p, t, u);
    StepKeepsWellFormed(d3, ProcessHead);
    First(d3, ProcessHead, d4, [], t);
    First(d2, PostCommand(ForOther(p, u)), d3, [ProcessHead] + [], t);
    First(d1, SampleTime(2 * p), d2, [PostCommand(ForOther(p, u))] + ([ProcessHead] + []), t);
    First(d0, ReceiveNext(false), d1, [SampleTime(2 * p)] + ([PostCommand(ForOther(p, u))] + ([ProcessHead] + [])), t);
  }
}
