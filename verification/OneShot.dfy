/** timers.c: a timer that does not reload itself runs its callback once, for the time it was started for. */
module OneShot {
  import opened Sequences
  import opened Ticks
  import opened Timers
  import opened TimerRuns

  /** Started at `start` and still to expire: its command is queued, or it is listed for `start` and a period. */
  ghost predicate Armed(d: Daemon, t: Timer, start: nat) {
    && LogOf(d.callbacks, t) == []
    && if Listed(d, t) then Mine(d.queue, t) == [] && DueOf(d, t) == start + Get(d.period, t)
       else Mine(d.queue, t) == [Message(Start, start % d.n, t, start)]
  }

  ghost predicate Spent(d: Daemon, t: Timer, start: nat) {
    LogOf(d.callbacks, t) == [start + Get(d.period, t)] && !Listed(d, t) && Mine(d.queue, t) == []
  }

  ghost predicate Once(d: Daemon, t: Timer, start: nat) {
    0 < Get(d.period, t) < d.n && t !in d.autoReload && (Armed(d, t, start) || Spent(d, t, start))
  }

  lemma IgnoredStaysOnce(d: Daemon, d': Daemon, t: Timer, start: nat)
    requires Once(d, t, start) && Ignores(d, d', t)
    ensures Once(d', t, start) && LogsUpTo(d, d', t, 0)
  {
  }

  /** Its callback runs, and it is on no list and in no command. */
  lemma FiredIsSpent(d: Daemon, h: Daemon, t: Timer, start: nat, d': Daemon, bound: nat)
    requires Once(d, t, start) && Armed(d, t, start)
    requires h.callbacks == d.callbacks && h.autoReload == d.autoReload && Get(h.period, t) == Get(d.period, t) && h.n == d.n
    requires !Listed(h, t) && Mine(h.queue, t) == [] && d' == Fire(h, t, start + Get(d.period, t))
    requires start + Get(d.period, t) <= bound
    ensures Once(d', t, start) && LogsUpTo(d, d', t, bound)
  {
    LogOfAppend(d.callbacks, Callback(t, start + Get(d.period, t)), t);
  }

  /** It is at the head of the current list. */
  lemma HeadIsArmed(d: Daemon, t: Timer, start: nat) returns (h: Daemon, v: nat)
    requires WellFormed(d) && Once(d, t, start) && d.current != [] && d.current[0] == t
    ensures h == d.(current := d.current[1..]) && !Listed(h, t) && v == Get(d.value, t) < d.n
    ensures Armed(d, t, start) && Mine(d.queue, t) == [] && d.epoch + v == start + Get(d.period, t)
  {
    h := HeadRemoved(d);
    v := Get(d.value, t);
    assert t in d.current;
  }

  lemma ProcessOnce(d: Daemon, t: Timer, start: nat)
    requires WellFormed(d) && Once(d, t, start) && d.current != [] && Get(d.value, d.current[0]) <= d.lastTime
    ensures Get(d.value, d.current[0]) < d.n && Get(d.period, d.current[0]) < d.n
    ensures Once(ProcessExpired(d), t, start) && LogsUpTo(d, ProcessExpired(d), t, Now(d))
  {
    if d.current[0] == t {
      var h, v := HeadIsArmed(d, t, start);
      var d1, v', expiry := ProcessForms(d);
      FiredIsSpent(d, h, t, start, ProcessExpired(d), Now(d));
    } else {
      var d' := ProcessOther(d, t);
      IgnoredStaysOnce(d, d', t, start);
    }
  }

  lemma FlushHeadOnce(d: Daemon, t: Timer, start: nat) returns (d': Daemon)
    requires WellFormed(d) && Once(d, t, start) && d.current != []
    ensures Get(d.value, d.current[0]) < d.n && Get(d.period, d.current[0]) < d.n
    ensures d' == FlushHead(d) && Once(d', t, start) && LogsUpTo(d, d', t, d.epoch + d.n)
  {
    if d.current[0] == t {
      var h, v := HeadIsArmed(d, t, start);
      var f, v', reload := FlushHeadForms(d);
      d' := FlushHead(d);
      FiredIsSpent(d, h, t, start, d', d.epoch + d.n);
    } else {
      d' := FlushHeadOther(d, t);
      IgnoredStaysOnce(d, d', t, start);
    }
  }

  lemma {:induction false} FlushOnce(d: Daemon, t: Timer, start: nat)
    requires WellFormed(d) && Once(d, t, start)
    ensures Once(Flush(d), t, start) && LogsUpTo(d, Flush(d), t, d.epoch + d.n)
    decreases Shortfall(d.current, d.value, d.n)
  {
    if d.current != [] {
      FlushHeadAdvances(d);
      var d1 := FlushHeadOnce(d, t, start);
      FlushHeadKeepsWellFormed(d);
      FlushHeadFrame(d);
      FlushOnce(d1, t, start);
      LogsUpToComposes(d, d1, Flush(d1), t, d.epoch + d.n);
    }
  }

  lemma SwitchKeepsOnce(f: Daemon, d': Daemon, t: Timer, start: nat)
    requires Once(f, t, start) && f.current == []
    requires d' == f.(current := f.overflow, overflow := f.current, epoch := f.epoch + f.n, lastTime := d'.lastTime)
    ensures Once(d', t, start) && LogOf(d'.callbacks, t) == LogOf(f.callbacks, t)
  {
  }

  lemma SampleOnce(d: Daemon, now: nat, t: Timer, start: nat)
    requires WellFormed(d) && Once(d, t, start) && Now(d) <= now < Now(d) + d.n
    ensures Once(Sample(d, now), t, start) && LogsUpTo(d, Sample(d, now), t, now)
  {
    if now % d.n < d.lastTime {
      SampledNow(d, now);
      FlushOnce(d, t, start);
      FlushKeepsWellFormed(d);
      SwitchKeepsOnce(Flush(d), Sample(d, now), t, start);
    }
  }

  lemma OnlyCommand(d: Daemon, t: Timer, start: nat) returns (h: Daemon)
    requires WellFormed(d) && Once(d, t, start) && d.queue != [] && d.queue[0].timer == t
    ensures Armed(d, t, start) && d.queue[0] == Message(Start, start % d.n, t, start)
    ensures h == Unlist(d.(queue := d.queue[1..]), t) && WellFormed(h) && !Listed(h, t) && Mine(h.queue, t) == []
  {
    MinePop(d.queue, t);
    assert Mine(d.queue, t)[0] == d.queue[0];
    var d0 := Popped(d);
    h := UnlistKeepsWellFormed(d0, t);
  }

  lemma ReceiveOnce(d: Daemon, t: Timer, start: nat, crowded: bool)
    requires WellFormed(d) && Once(d, t, start) && d.queue != []
    requires d.queue[0].timer == t ==> d.queue[0].at <= Now(d) < d.queue[0].at + d.n
    ensures d.queue[0].value < d.n && Get(d.period, d.queue[0].timer) < d.n
    ensures Once(Received(d, crowded), t, start) && LogsUpTo(d, Received(d, crowded), t, Now(d))
  {
    if d.queue[0].timer == t {
      var h := OnlyCommand(d, t, start);
      var d2, now := EnlistedAt(h, t, start, start % d.n);
      var d1, expiry := ReceiveStartForms(d);
      if now {
        FiredIsSpent(d, d2, t, start, Received(d, crowded), Now(d));
      }
    } else {
      var d' := ReceivedOther(d, t, crowded);
      IgnoredStaysOnce(d, d', t, start);
    }
  }

  // ---- Every run ----

  lemma StepOnce(d: Daemon, op: Op, t: Timer, start: nat)
    requires WellFormed(d) && Once(d, t, start) && Allowed(d, op) && LeavesTo(d, op, t)
    ensures Once(Step(d, op), t, start) && LogsUpTo(d, Step(d, op), t, Now(Step(d, op)))
  {
    StepClock(d, op);
    match op
    case PostCommand(m) =>
      PostOther(d, m, t);
      IgnoredStaysOnce(d, Post(d, m), t, start);
    case SampleTime(now) =>
      SampledNow(d, now);
      SampleOnce(d, now, t, start);
    case ProcessHead => ProcessOnce(d, t, start);
    case ReceiveNext(crowded) => ReceiveOnce(d, t, start, crowded);
  }

  lemma {:induction false} RunStaysOnce(d: Daemon, ops: seq<Op>, t: Timer, start: nat)
    requires WellFormed(d) && CanRun(d, ops, t) && Once(d, t, start) && NoneEarly(d, t)
    ensures Once(Run(d, ops, t), t, start) && NoneEarly(Run(d, ops, t), t)
    decreases |ops|
  {
    if ops != [] {
      var d1 := Step(d, ops[0]);
      StepKeepsWellFormed(d, ops[0]);
      StepClock(d, ops[0]);
      StepOnce(d, ops[0], t, start);
      NoneEarlyStep(d, d1, t);
      RunStaysOnce(d1, ops[1..], t, start);
    }
  }

  /** In every run the callback of a one-shot timer runs at most once, for the time it was started for and not before;
      and whenever the daemon may block it has run iff that time has come. */
  lemma FiresExactlyOnce(d: Daemon, ops: seq<Op>, t: Timer, start: nat)
    requires WellFormed(d) && CanRun(d, ops, t) && Once(d, t, start) && Armed(d, t, start)
    ensures var d' := Run(d, ops, t);
      var log, due := LogOf(d'.callbacks, t), start + Get(d'.period, t);
      && (log == [] || (log == [due] && due <= Now(d')))
      && (MayBlock(d') ==> (log == [due] <==> due <= Now(d')))
  {
    RunStaysOnce(d, ops, t, start);
    var d' := Run(d, ops, t);
    if Listed(d', t) && MayBlock(d') {
      IdleListsAreAhead(d', t);
    }
    assert LogOf(d'.callbacks, t) != [] ==> LogOf(d'.callbacks, t)[0] <= Now(d');
  }

  /** A start command for an idle one-shot timer is where such a run begins. */
  lemma StartIsArmed(d: Daemon, t: Timer, start: nat)
    requires 0 < Get(d.period, t) < d.n && t !in d.autoReload && LogOf(d.callbacks, t) == []
    requires !Listed(d, t) && Mine(d.queue, t) == [] && |d.queue| < d.room
    ensures var d' := Post(d, Message(Start, start % d.n, t, start)); Once(d', t, start) && Armed(d', t, start)
  {
    MineAppend(d.queue, Message(Start, start % d.n, t, start), t);
  }
}
