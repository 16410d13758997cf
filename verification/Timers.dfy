/** timers.c: the timer daemon's two lists, its command queue, and when callbacks run. */
module Timers {
  import opened Sequences
  import opened Ticks

  type Timer = nat

  datatype Command = Start | Stop | ChangePeriod | Delete

  /** xTIMER_MESSAGE. `at` is the unwrapped time a start command's wrapped `value` stands for. */
  datatype Message = Message(command: Command, value: nat, timer: Timer, at: nat)

  /** A callback that ran, and the unwrapped expiry it ran for. */
  datatype Callback = Callback(timer: Timer, due: nat)

  /** The daemon's state. `lastTime` is the tick count it sampled last and `epoch` the unwrapped time at which
      the counter had last been zero then; `callbacks` is the history of callbacks. */
  datatype Daemon = Daemon(
    n: Period,
    current: seq<Timer>,
    overflow: seq<Timer>,
    value: map<Timer, nat>,         // xItemValue of the timers' list items
    period: map<Timer, nat>,
    autoReload: set<Timer>,
    lastTime: nat,
    epoch: nat,
    queue: seq<Message>,
    room: nat,                      // configTIMER_QUEUE_LENGTH
    callbacks: seq<Callback>)

  /** vListInsert on a timer list. */
  function InsertSorted(s: seq<Timer>, t: Timer, value: map<Timer, nat>): (r: seq<Timer>)
    ensures |r| == |s| + 1
  {
    InsertAt(s, InsertPos(Keys(s, value), Get(value, t)), t)
  }

  function Drop(s: seq<Timer>, t: Timer): seq<Timer> {
    if t in s then Without(s, t) else s
  }

  // ---- prvInsertTimerInActiveList ----

  datatype Placement = ProcessNow | InCurrent | InOverflow

  /** Where a timer goes that expires at `expiry` and was commanded at `command`, all on wrapped clocks. */
  function Place(expiry: nat, now: nat, command: nat, period: nat, n: nat): Placement
    requires now < n && command < n
  {
    if expiry <= now then
      if WrapSub(now, command, n) >= period then ProcessNow else InOverflow
    else if now < command && expiry >= command then ProcessNow
    else InCurrent
  }

  /** The unwrapped expiry a placement amounts to, for a clock at unwrapped time `now`. */
  function PlacedAt(p: Placement, expiry: nat, now: nat, n: nat): nat
    requires 0 < n
  {
    (now - now % n) + expiry + if p.InOverflow? then n else 0
  }

  /** A placement is right if it processes now exactly the expiries that have passed, and lists the others
      under the epoch they fall in. */
  predicate PlacedRight(p: Placement, expiry: nat, due: nat, now: nat, n: nat)
    requires 0 < n
  {
    if p.ProcessNow? then due <= now else now < due && PlacedAt(p, expiry, now, n) == due
  }

  /** Placed right, for a command and a clock at these unwrapped times. */
  predicate RightFor(command: nat, period: nat, now: nat, n: nat)
    requires period < n
  {
    var expiry := WrapAdd(command % n, period, n);
    PlacedRight(Place(expiry, now % n, command % n, period, n), expiry, command + period, now, n)
  }

  /** Whatever the clocks, the timer is processed at once iff the wrapped age of the command is a period or more. */
  lemma ProcessedIffAged(now: nat, command: nat, period: nat, n: nat)
    requires now < n && command < n && 0 < period < n
    ensures Place(WrapAdd(command, period, n), now, command, period, n).ProcessNow? <==> WrapSub(now, command, n) >= period
  {
  }

  /** A command no older than a wrap is placed right. */
  lemma PastCommandPlacedRight(now: nat, command: nat, period: nat, n: nat)
    requires 0 < period < n && command <= now < command + n
    ensures RightFor(command, period, now, n)
  {
    EpochGap(command, now, n);
    EpochGap(command, command + period, n);
    EpochStart(command, n);
    EpochStart(now, n);
    EpochStart(command + period, n);
    NextEpochStart(command, n);
  }

  /** A command stamped after the daemon sampled the time is always placed wrong. */
  lemma FutureCommandPlacedWrong(now: nat, command: nat, period: nat, n: nat)
    requires 0 < period < n && now < command < now + n
    ensures !RightFor(command, period, now, n)
  {
    EpochGap(now, command, n);
    EpochGap(command, command + period, n);
    EpochStart(command, n);
    EpochStart(now, n);
    EpochStart(command + period, n);
    NextEpochStart(now, n);
    NextEpochStart(command, n);
  }

  /** The daemon samples the time once and then drains its queue, so a command can be younger than the
      sample. Among commands less than a wrap away, the placement is right iff the command is not. */
  lemma PlacedRightIffPast(now: nat, command: nat, period: nat, n: nat)
    requires 0 < period < n && command < now + n && now < command + n
    ensures RightFor(command, period, now, n)
      <==> command <= now
  {
    if command <= now {
      PastCommandPlacedRight(now, command, period, n);
    } else {
      FutureCommandPlacedWrong(now, command, period, n);
    }
  }

  lemma EpochStart(t: nat, n: nat)
    requires 0 < n
    ensures t - t % n == n * (t / n)
  {
  }

  lemma NextEpochStart(t: nat, n: nat)
    requires 0 < n
    ensures n * (t / n + 1) == n * (t / n) + n
  {
  }

  /** The next period of a command that was processed at once is as much younger. */
  lemma ChainedAge(now: nat, command: nat, period: nat, n: nat)
    requires now < n && command < n && 0 < period < n
    requires Place(WrapAdd(command, period, n), now, command, period, n).ProcessNow?
    ensures WrapSub(now, WrapAdd(command, period, n), n) == WrapSub(now, command, n) - period
  {
    ProcessedIffAged(now, command, period, n);
  }

  // ---- Steps of the daemon ----

  function Now(d: Daemon): nat {
    d.epoch + d.lastTime
  }

  /** The unwrapped expiry of a listed timer. */
  function DueOf(d: Daemon, t: Timer): nat {
    d.epoch + Get(d.value, t) + if t in d.overflow then d.n else 0
  }

  predicate Listed(d: Daemon, t: Timer) {
    t in d.current || t in d.overflow
  }

  /** A non-blocking xTimerGenericCommand. */
  function Post(d: Daemon, m: Message): Daemon {
    if |d.queue| < d.room then d.(queue := d.queue + [m]) else d
  }

  function Fire(d: Daemon, t: Timer, due: nat): Daemon {
    d.(callbacks := d.callbacks + [Callback(t, due)])
  }

  function PlaceOf(d: Daemon, t: Timer, expiry: nat, command: nat): Placement
    requires d.lastTime < d.n && command < d.n
  {
    Place(expiry, d.lastTime, command, Get(d.period, t), d.n)
  }

  /** prvInsertTimerInActiveList */
  function Enlist(d: Daemon, t: Timer, expiry: nat, command: nat): Daemon
    requires d.lastTime < d.n && command < d.n
  {
    var value := d.value[t := expiry];
    match PlaceOf(d, t, expiry, command)
    case ProcessNow => d.(value := value)
    case InCurrent => d.(value := value, current := InsertSorted(d.current, t, value))
    case InOverflow => d.(value := value, overflow := InsertSorted(d.overflow, t, value))
  }

  /** prvProcessExpiredTimer, on the head of the current list. */
  function ProcessExpired(d: Daemon): Daemon
    requires d.current != [] && d.lastTime < d.n && Get(d.value, d.current[0]) < d.n && Get(d.period, d.current[0]) < d.n
  {
    var t := d.current[0];
    var v := Get(d.value, t);
    var expiry := WrapAdd(v, Get(d.period, t), d.n);
    var d1 := d.(current := d.current[1..]);
    var d2 :=
      if t !in d.autoReload then d1
      else if PlaceOf(d1, t, expiry, v).ProcessNow? then Post(Enlist(d1, t, expiry, v), Message(Start, v, t, d.epoch + v))
      else Enlist(d1, t, expiry, v);
    Fire(d2, t, d.epoch + v)
  }

  function Unlist(d: Daemon, t: Timer): Daemon {
    d.(current := Drop(d.current, t), overflow := Drop(d.overflow, t))
  }

  /** A start command for a timer already unlinked. */
  function StartReceived(d: Daemon, m: Message): Daemon
    requires d.lastTime < d.n && m.value < d.n && Get(d.period, m.timer) < d.n
  {
    var t, p := m.timer, Get(d.period, m.timer);
    var expiry := WrapAdd(m.value, p, d.n);
    var d2 := Enlist(d, t, expiry, m.value);
    if !PlaceOf(d, t, expiry, m.value).ProcessNow? then d2
    else
      var d3 := Fire(d2, t, m.at + p);
      if t in d.autoReload then Post(d3, Message(Start, expiry, t, m.at + p)) else d3
  }

  /** One turn of the loop of prvProcessReceivedCommands. */
  function ReceiveCommand(d: Daemon): Daemon
    requires d.queue != [] && d.lastTime < d.n && d.queue[0].value < d.n && Get(d.period, d.queue[0].timer) < d.n
  {
    var m := d.queue[0];
    var d1 := Unlist(d.(queue := d.queue[1..]), m.timer);
    match m.command
    case Start => StartReceived(d1, m)
    case ChangePeriod =>
      Enlist(d1.(period := d.period[m.timer := m.value]), m.timer, WrapAdd(d.lastTime, m.value, d.n), d.lastTime)
    case Stop => d1
    case Delete => d1
  }

  // ---- prvSwitchTimerLists ----

  /** The time the timers of a list are short of the end of the epoch, in all. */
  ghost function Shortfall(s: seq<Timer>, value: map<Timer, nat>, n: nat): nat
    requires forall t :: t in s ==> Get(value, t) < n
  {
    if s == [] then 0 else (n - Get(value, s[0])) + Shortfall(s[1..], value, n)
  }

  predicate ValuesBelow(s: seq<Timer>, value: map<Timer, nat>, n: nat) {
    forall t :: t in s ==> Get(value, t) < n
  }

  lemma {:induction false} ShortfallOfInsert(s: seq<Timer>, i: nat, t: Timer, value: map<Timer, nat>, n: nat)
    requires i <= |s| && ValuesBelow(s, value, n) && Get(value, t) < n
    ensures ValuesBelow(InsertAt(s, i, t), value, n)
    ensures Shortfall(InsertAt(s, i, t), value, n) == Shortfall(s, value, n) + (n - Get(value, t))
  {
    var r := InsertAt(s, i, t);
    if i == 0 {
      assert r[1..] == s;
    } else {
      assert r[0] == s[0] && r[1..] == InsertAt(s[1..], i - 1, t);
      ShortfallOfInsert(s[1..], i - 1, t, value, n);
    }
  }

  lemma {:induction false} ShortfallElsewhere(s: seq<Timer>, value: map<Timer, nat>, t: Timer, v: nat, n: nat)
    requires t !in s && ValuesBelow(s, value, n)
    ensures ValuesBelow(s, value[t := v], n) && Shortfall(s, value[t := v], n) == Shortfall(s, value, n)
  {
    if s != [] {
      ShortfallElsewhere(s[1..], value, t, v, n);
    }
  }

  ghost predicate Flushable(d: Daemon) {
    NoDup(d.current) && ValuesBelow(d.current, d.value, d.n) && forall t :: t in d.period ==> d.period[t] < d.n
  }

  function Relist(d: Daemon, t: Timer, expiry: nat): Daemon {
    d.(value := d.value[t := expiry], current := InsertSorted(d.current, t, d.value[t := expiry]))
  }

  /** One turn of the loop of prvSwitchTimerLists. */
  function FlushHead(d: Daemon): Daemon
    requires d.current != [] && Get(d.value, d.current[0]) < d.n && Get(d.period, d.current[0]) < d.n
  {
    var t := d.current[0];
    var v := Get(d.value, t);
    var reload := WrapAdd(v, Get(d.period, t), d.n);
    var d1 := Fire(d.(current := d.current[1..]), t, d.epoch + v);
    if t !in d.autoReload then d1
    else if reload > v then Relist(d1, t, reload)
    else Post(d1, Message(Start, v, t, d.epoch + v))
  }

  lemma RelistedTimer(s: seq<Timer>, value: map<Timer, nat>, t: Timer, v: nat, n: nat) returns (r: seq<Timer>)
    requires t !in s && NoDup(s) && ValuesBelow(s, value, n) && v < n
    ensures r == InsertSorted(s, t, value[t := v]) && NoDup(r) && ValuesBelow(r, value[t := v], n)
    ensures forall u :: u in r <==> u in s || u == t
    ensures Shortfall(r, value[t := v], n) == Shortfall(s, value, n) + (n - v)
  {
    var value' := value[t := v];
    var i := InsertPos(Keys(s, value'), v);
    ShortfallElsewhere(s, value, t, v, n);
    ShortfallOfInsert(s, i, t, value', n);
    InsertMembers(s, i, t);
    r := InsertSorted(s, t, value');
  }

  lemma FlushHeadAdvances(d: Daemon)
    requires d.current != [] && Flushable(d)
    ensures Get(d.value, d.current[0]) < d.n && Get(d.period, d.current[0]) < d.n
    ensures Flushable(FlushHead(d))
    ensures Shortfall(FlushHead(d).current, FlushHead(d).value, d.n) < Shortfall(d.current, d.value, d.n)
  {
    var t, rest := d.current[0], d.current[1..];
    assert t !in rest && ValuesBelow(rest, d.value, d.n) && t in d.current;
    var r := RelistedTimer(rest, d.value, t, WrapAdd(Get(d.value, t), Get(d.period, t), d.n), d.n);
  }

  /** The loop of prvSwitchTimerLists ends: every turn brings its timers nearer the end of the epoch. */
  ghost function Flush(d: Daemon): Daemon
    requires Flushable(d)
    decreases Shortfall(d.current, d.value, d.n)
  {
    if d.current == [] then d
    else
      FlushHeadAdvances(d);
      Flush(FlushHead(d))
  }

  /** prvSwitchTimerLists */
  ghost function Switched(d: Daemon): Daemon
    requires Flushable(d)
  {
    var f := Flush(d);
    f.(current := f.overflow, overflow := f.current, epoch := d.epoch + d.n)
  }

  /** prvSampleTimeNow, at unwrapped time `now`. */
  ghost function Sample(d: Daemon, now: nat): Daemon
    requires Flushable(d)
  {
    var tick := now % d.n;
    if tick < d.lastTime then Switched(d).(lastTime := tick) else d.(lastTime := tick)
  }
}
