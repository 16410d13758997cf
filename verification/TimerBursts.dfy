/** timers.c: how many callbacks one pass of prvProcessReceivedCommands runs for an auto-reload timer. All commands,
    those it sends itself included, are weighed against the one time it sampled. */
module TimerBursts {
  import opened Sequences
  import opened Ticks
  import opened Timers
  import opened TimerRuns
  import opened TimerService

  ghost predicate OneStart(d: Daemon, t: Timer, m: Message) {
    Mine(d.queue, t) == [m] && m.command.Start? && m.timer == t
  }

  /** How old the command looks to the daemon, on the wrapped clock. */
  function Age(d: Daemon, m: Message): nat
    requires d.lastTime < d.n && m.value < d.n
  {
    WrapSub(d.lastTime, m.value, d.n)
  }

  /** What stays as it is while the queue is drained. */
  ghost predicate SameTimer(d: Daemon, d': Daemon, t: Timer) {
    && d'.n == d.n && d'.lastTime == d.lastTime && d'.autoReload == d.autoReload && Get(d'.period, t) == Get(d.period, t)
  }

  lemma MineIsQueued(q: seq<Message>, t: Timer, m: Message)
    requires m in Mine(q, t)
    ensures m in q && m.timer == t
  {
    if q[|q| - 1] != m {
      MineIsQueued(q[..|q| - 1], t, m);
    }
  }

  lemma StartIsBelow(d: Daemon, t: Timer, m: Message)
    requires Drainable(d) && OneStart(d, t, m)
    ensures m.value < d.n && 0 < Get(d.period, t) < d.n
  {
    assert Mine(d.queue, t)[0] == m;
    MineIsQueued(d.queue, t, m);
  }

  lemma HeadIsOwn(d: Daemon, t: Timer, m: Message)
    requires d.queue != [] && d.queue[0].timer == t && Mine(d.queue, t) == [m]
    ensures d.queue[0] == m && Mine(d.queue[1..], t) == []
  {
    MinePop(d.queue, t);
    assert Mine(d.queue, t)[0] == d.queue[0];
  }

  lemma EnlistFrame(d: Daemon, t: Timer, expiry: nat, command: nat)
    requires d.lastTime < d.n && command < d.n
    ensures var d' := Enlist(d, t, expiry, command);
      d'.queue == d.queue && d'.room == d.room && d'.callbacks == d.callbacks && SameTimer(d, d', t)
  {
  }

  /** `d'` is one turn of the drain further. */
  ghost predicate Turned(d: Daemon, d': Daemon, t: Timer)
    requires Drainable(d)
  {
    && Drainable(d') && SameTimer(d, d', t) && Drain(d') == Drain(d)
    && Work(d'.queue, d.lastTime, d.n) < Work(d.queue, d.lastTime, d.n)
  }

  lemma IsTurned(d: Daemon, t: Timer) returns (d': Daemon)
    requires Drainable(d) && d.queue != []
    ensures d.queue[0].value < d.n && d' == ReceiveCommand(d)
    ensures SameTimer(d, d', t) ==> Turned(d, d', t)
  {
    ReceiveAdvances(d);
    d' := ReceiveCommand(d);
  }

  /** The timer's own command: if it is a period old its callback runs and it is sent on a period younger. */
  lemma OwnStart(d: Daemon, t: Timer, m: Message) returns (d': Daemon, next: Message)
    requires Drainable(d) && t in d.autoReload && OneStart(d, t, m) && d.queue[0].timer == t
    ensures m.value < d.n && 0 < Get(d.period, t) < d.n
    ensures d' == ReceiveCommand(d) && SameTimer(d, d', t)
    ensures var p := Get(d.period, t);
      if Age(d, m) >= p then
        && |LogOf(d'.callbacks, t)| == |LogOf(d.callbacks, t)| + 1
        && OneStart(d', t, next) && next.value < d.n && Age(d', next) == Age(d, m) - p
      else LogOf(d'.callbacks, t) == LogOf(d.callbacks, t) && Mine(d'.queue, t) == []
  {
    StartIsBelow(d, t, m);
    HeadIsOwn(d, t, m);
    var d1, expiry := ReceiveStartForms(d);
    var p := Get(d.period, t);
    next := Message(Start, expiry, t, m.at + p);
    d' := ReceiveCommand(d);
    EnlistFrame(d1, t, expiry, m.value);
    ProcessedIffAged(d.lastTime, m.value, p, d.n);
    if Age(d, m) >= p {
      ChainedAge(d.lastTime, m.value, p, d.n);
      LogOfAppend(d.callbacks, Callback(t, m.at + p), t);
      MineAppend(d.queue[1..], next, t);
    }
  }

  /** For a command that looks `age` ticks old, to a timer of period `p`. */
  ghost predicate Waits(d: Daemon, t: Timer, m: Message, p: nat, age: nat) {
    && d.lastTime < d.n && m.value < d.n && 0 < p == Get(d.period, t) && age == Age(d, m)
    && t in d.autoReload && OneStart(d, t, m)
  }

  lemma OwnTurn(d: Daemon, t: Timer, m: Message, p: nat, age: nat) returns (d': Daemon, next: Message)
    requires Drainable(d) && Waits(d, t, m, p, age) && d.queue[0].timer == t
    ensures Turned(d, d', t)
    ensures if age >= p then |LogOf(d'.callbacks, t)| == |LogOf(d.callbacks, t)| + 1 && Waits(d', t, next, p, age - p)
      else LogOf(d'.callbacks, t) == LogOf(d.callbacks, t) && Mine(d'.queue, t) == []
  {
    d', next := OwnStart(d, t, m);
    var d1 := IsTurned(d, t);
  }

  lemma AnotherCommand(d: Daemon, t: Timer) returns (d': Daemon)
    requires Drainable(d) && d.queue != [] && d.queue[0].timer != t
    ensures Turned(d, d', t)
    ensures LogOf(d'.callbacks, t) == LogOf(d.callbacks, t) && Mine(d'.queue, t) == Mine(d.queue, t)
  {
    d' := ReceiveOther(d, t);
    ReceiveAdvances(d);
    var d1 := IsTurned(d, t);
  }

  /** A timer that has no command queued is left alone by a drain. */
  lemma {:induction false} DrainLeavesOthers(d: Daemon, t: Timer)
    requires Drainable(d) && Mine(d.queue, t) == []
    ensures LogOf(Drain(d).callbacks, t) == LogOf(d.callbacks, t)
    decreases Work(d.queue, d.lastTime, d.n)
  {
    if d.queue != [] {
      if d.queue[0].timer == t {
        MinePop(d.queue, t);
        assert false;
      }
      var d' := AnotherCommand(d, t);
      DrainLeavesOthers(d', t);
    }
  }

  /** How many whole periods there are in an age, without dividing. */
  function Periods(age: nat, p: nat): nat
    requires 0 < p
  {
    if age < p then 0 else Periods(age - p, p) + 1
  }

  lemma {:induction false} PeriodsIsQuotient(age: nat, p: nat)
    requires 0 < p
    ensures Periods(age, p) == age / p
  {
    if age < p {
      DivModUnique(age, p, 0, age);
    } else {
      PeriodsIsQuotient(age - p, p);
      var q, r := (age - p) / p, (age - p) % p;
      assert p * (q + 1) == p * q + p;
      DivModUnique(age, p, q + 1, r);
    }
  }

  /** Its only command stays where it is while the commands in front of it are received. */
  lemma {:induction false} OwnIsReached(d: Daemon, t: Timer, m: Message, p: nat, age: nat) returns (d': Daemon)
    requires Drainable(d) && Waits(d, t, m, p, age)
    ensures Drainable(d') && Waits(d', t, m, p, age) && d'.queue[0].timer == t && Drain(d') == Drain(d)
    ensures LogOf(d'.callbacks, t) == LogOf(d.callbacks, t)
    decreases Work(d.queue, d.lastTime, d.n)
  {
    if d.queue[0].timer == t {
      d' := d;
    } else {
      var d1 := AnotherCommand(d, t);
      d' := OwnIsReached(d1, t, m, p, age);
    }
  }

  lemma OwnIsReceived(d: Daemon, t: Timer, m: Message, p: nat, age: nat) returns (d': Daemon, next: Message)
    requires Drainable(d) && Waits(d, t, m, p, age)
    ensures Drainable(d') && Drain(d') == Drain(d)
    ensures if age >= p then |LogOf(d'.callbacks, t)| == |LogOf(d.callbacks, t)| + 1 && Waits(d', t, next, p, age - p)
      else LogOf(d'.callbacks, t) == LogOf(d.callbacks, t) && Mine(d'.queue, t) == []
  {
    var d1 := OwnIsReached(d, t, m, p, age);
    d', next := OwnTurn(d1, t, m, p, age);
  }

  lemma {:induction false} DrainRunsPeriods(d: Daemon, t: Timer, m: Message, p: nat, age: nat)
    requires Drainable(d) && Waits(d, t, m, p, age)
    ensures |LogOf(Drain(d).callbacks, t)| == |LogOf(d.callbacks, t)| + Periods(age, p)
    decreases age
  {
    var d', next := OwnIsReceived(d, t, m, p, age);
    if age >= p {
      DrainRunsPeriods(d', t, next, p, age - p);
    } else {
      DrainLeavesOthers(d', t);
    }
  }

  /** A drain that finds one start command of an auto-reload timer runs its callback once for each period in the
      wrapped age of the command. */
  lemma DrainRunsAgeOverPeriod(d: Daemon, t: Timer, m: Message)
    requires Drainable(d) && t in d.autoReload && OneStart(d, t, m)
    ensures m.value < d.n && 0 < Get(d.period, t)
    ensures |LogOf(Drain(d).callbacks, t)| == |LogOf(d.callbacks, t)| + Age(d, m) / Get(d.period, t)
  {
    StartIsBelow(d, t, m);
    DrainRunsPeriods(d, t, m, Get(d.period, t), Age(d, m));
    PeriodsIsQuotient(Age(d, m), Get(d.period, t));
  }

  // ---- A command that is younger than the sample ----

  /** A daemon that has just started, with one auto-reload timer. */
  function Fresh(n: Period, room: nat, t: Timer, p: nat): Daemon {
    Daemon(n, [], [], map[], map[t := p], {t}, 0, 0, [], room, [])
  }

  /** It samples the time, the counter goes on by one, and the timer is started before the queue is looked at. */
  ghost function LateCommand(n: Period, room: nat, t: Timer, p: nat, now: nat): Daemon
    requires p < n && now < n
  {
    Post(Sample(Fresh(n, room, t, p), now), Message(Start, (now + 1) % n, t, now + 1))
  }

  /** Those are steps the daemon and the task can take. */
  lemma LateCommandIsReached(n: Period, room: nat, t: Timer, p: nat, now: nat)
    requires 0 < p < n && now < n && 0 < room
    ensures var d := Fresh(n, room, t, p);
      && WellFormed(d) && Allowed(d, SampleTime(now))
      && WellFormed(Step(d, SampleTime(now)))
      && var m := Message(Start, (now + 1) % n, t, now + 1);
      && Allowed(Step(d, SampleTime(now)), PostCommand(m))
      && Step(Step(d, SampleTime(now)), PostCommand(m)) == LateCommand(n, room, t, p, now)
    ensures Drainable(LateCommand(n, room, t, p, now))
  {
    var d := Fresh(n, room, t, p);
    assert InTimeOrder([], map[], n);
    assert WellFormed(d);
    SampleKeepsWellFormed(d, now);
    ModBelow(now, n);
  }

  /** The drain then runs the callback (n - 1) / p times, though not a period has passed since the command. */
  lemma LateCommandBursts(n: Period, room: nat, t: Timer, p: nat, now: nat)
    requires 0 < p < n && now < n && 0 < room
    ensures Drainable(LateCommand(n, room, t, p, now))
    ensures |LogOf(Drain(LateCommand(n, room, t, p, now)).callbacks, t)| == (n - 1) / p
  {
    var d := LateCommand(n, room, t, p, now);
    var m := Message(Start, (now + 1) % n, t, now + 1);
    LateCommandIsReached(n, room, t, p, now);
    MineAppend([], m, t);
    ModBelow(now, n);
    EpochGap(now, now + 1, n);
    DrainRunsAgeOverPeriod(d, t, m);
  }
}
