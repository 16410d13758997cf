/** Every run of the timer daemon: its lists stay in order, and an auto-reload timer's callbacks run once for
    each multiple of its period, at no drift, never early, however late the daemon gets to them. */
module TimerRuns {
  import opened Sequences
  import opened Ticks
  import opened Timers

  // ---- What every step keeps ----

  ghost predicate InTimeOrder(s: seq<Timer>, value: map<Timer, nat>, n: nat) {
    NoDup(s) && ValuesBelow(s, value, n) && Ascending(Keys(s, value))
  }

  ghost predicate WellFormed(d: Daemon) {
    && InTimeOrder(d.current, d.value, d.n) && InTimeOrder(d.overflow, d.value, d.n)
    && (forall t :: t in d.current ==> t !in d.overflow)
    && (forall t :: t in d.period ==> d.period[t] < d.n)
    && (forall m :: m in d.queue ==> m.value < d.n)
    && |d.queue| <= d.room
    && d.lastTime < d.n && AtWrap(d.epoch, d.n)
  }

  /** A time at which the tick counter is zero: a multiple of `n`, said without multiplying. */
  predicate AtWrap(epoch: nat, n: Period) {
    epoch == 0 || (epoch >= n && AtWrap(epoch - n, n))
  }

  lemma {:induction false} WrappedNow(epoch: nat, tick: nat, n: Period)
    requires AtWrap(epoch, n) && tick < n
    ensures (epoch + tick) % n == tick
  {
    if epoch == 0 {
      ModBelow(tick, n);
    } else {
      WrappedNow(epoch - n, tick, n);
      ModShift(epoch - n + tick, n);
    }
  }

  /** A turn of the loop of prvProcessReceivedCommands. If it is `crowded`, commands sent meanwhile have taken the place
      that the received one left, and the daemon's own finds none; they count as sent after the turn. */
  function Received(d: Daemon, crowded: bool): Daemon
    requires d.queue != [] && d.lastTime < d.n && d.queue[0].value < d.n && Get(d.period, d.queue[0].timer) < d.n
  {
    if crowded then ReceiveCommand(d).(queue := d.queue[1..]) else ReceiveCommand(d)
  }

  datatype Op =
    | PostCommand(m: Message)
    | SampleTime(now: nat)
    | ProcessHead
    | ReceiveNext(crowded: bool)

  ghost predicate Allowed(d: Daemon, op: Op) {
    match op
    case PostCommand(m) => m.value < d.n
    case SampleTime(now) => Now(d) <= now < Now(d) + d.n
    case ProcessHead => d.current != [] && Get(d.value, d.current[0]) <= d.lastTime
    case ReceiveNext(_) => d.queue != []
  }

  ghost function Step(d: Daemon, op: Op): Daemon
    requires WellFormed(d) && Allowed(d, op)
  {
    match op
    case PostCommand(m) => Post(d, m)
    case SampleTime(now) => Sample(d, now)
    case ProcessHead => ProcessExpired(d)
    case ReceiveNext(crowded) => assert d.queue[0] in d.queue; Received(d, crowded)
  }

  lemma RestInOrder(s: seq<Timer>, value: map<Timer, nat>, n: nat)
    requires s != [] && InTimeOrder(s, value, n)
    ensures InTimeOrder(s[1..], value, n) && s[0] !in s[1..]
    ensures forall t :: t in s <==> t == s[0] || t in s[1..]
  {
    assert Keys(s[1..], value) == Keys(s, value)[1..];
  }

  lemma DropInOrder(s: seq<Timer>, t: Timer, value: map<Timer, nat>, n: nat)
    requires InTimeOrder(s, value, n)
    ensures InTimeOrder(Drop(s, t), value, n)
    ensures forall u :: u in Drop(s, t) <==> u in s && u != t
  {
    if t in s {
      var i := IndexOf(s, t);
      WithoutMembers(s, t);
      WithoutAscending(Keys(s, value), i);
      KeysOfWithout(s, t, value);
    }
  }

  lemma OtherValueInOrder(s: seq<Timer>, value: map<Timer, nat>, t: Timer, v: nat, n: nat)
    requires InTimeOrder(s, value, n) && t !in s
    ensures InTimeOrder(s, value[t := v], n)
  {
    assert Keys(s, value[t := v]) == Keys(s, value);
  }

  lemma InsertInOrder(s: seq<Timer>, value: map<Timer, nat>, t: Timer, v: nat, n: nat)
    requires InTimeOrder(s, value, n) && t !in s && v < n
    ensures InTimeOrder(InsertSorted(s, t, value[t := v]), value[t := v], n)
    ensures forall u :: u in InsertSorted(s, t, value[t := v]) <==> u in s || u == t
  {
    var value' := value[t := v];
    OtherValueInOrder(s, value, t, v, n);
    var p := InsertPos(Keys(s, value'), v);
    InsertKeepsAscending(Keys(s, value'), v);
    InsertMembers(s, p, t);
    KeysOfInsert(s, p, t, value');
  }

  lemma EnlistKeepsWellFormed(d: Daemon, t: Timer, expiry: nat, command: nat) returns (d': Daemon)
    requires WellFormed(d) && !Listed(d, t) && expiry < d.n && command < d.n
    ensures d' == Enlist(d, t, expiry, command) && WellFormed(d')
    ensures d' == d.(value := d.value[t := expiry], current := d'.current, overflow := d'.overflow)
    ensures forall u :: u in d'.current <==> u in d.current || (u == t && PlaceOf(d, t, expiry, command).InCurrent?)
    ensures forall u :: u in d'.overflow <==> u in d.overflow || (u == t && PlaceOf(d, t, expiry, command).InOverflow?)
  {
    d' := Enlist(d, t, expiry, command);
    OtherValueInOrder(d.current, d.value, t, expiry, d.n);
    OtherValueInOrder(d.overflow, d.value, t, expiry, d.n);
    match PlaceOf(d, t, expiry, command)
    case ProcessNow =>
    case InCurrent => InsertInOrder(d.current, d.value, t, expiry, d.n);
    case InOverflow => InsertInOrder(d.overflow, d.value, t, expiry, d.n);
  }

  lemma PostKeepsWellFormed(d: Daemon, m: Message)
    requires WellFormed(d) && m.value < d.n
    ensures WellFormed(Post(d, m))
  {
  }

  lemma HeadRemoved(d: Daemon) returns (d1: Daemon)
    requires WellFormed(d) && d.current != []
    ensures d1 == d.(current := d.current[1..]) && WellFormed(d1) && !Listed(d1, d.current[0])
    ensures Get(d.value, d.current[0]) < d.n
    ensures forall u :: u in d.current <==> u == d.current[0] || u in d1.current
  {
    RestInOrder(d.current, d.value, d.n);
    assert d.current[0] in d.current;
    d1 := d.(current := d.current[1..]);
  }

  lemma FlushHeadKeepsWellFormed(d: Daemon)
    requires WellFormed(d) && d.current != []
    ensures Get(d.value, d.current[0]) < d.n && Get(d.period, d.current[0]) < d.n && WellFormed(FlushHead(d))
  {
    var t := d.current[0];
    var d1 := HeadRemoved(d);
    var v := Get(d.value, t);
    var reload := WrapAdd(v, Get(d.period, t), d.n);
    if t in d.autoReload && reload > v {
      InsertInOrder(d1.current, d.value, t, reload, d.n);
      OtherValueInOrder(d.overflow, d.value, t, reload, d.n);
    }
  }

  lemma {:induction false} FlushKeepsWellFormed(d: Daemon)
    requires WellFormed(d)
    ensures WellFormed(Flush(d)) && Flush(d).current == [] && Flush(d).overflow == d.overflow
    ensures Flush(d).epoch == d.epoch && Flush(d).n == d.n && Flush(d).lastTime == d.lastTime
    decreases Shortfall(d.current, d.value, d.n)
  {
    if d.current != [] {
      FlushHeadAdvances(d);
      FlushHeadKeepsWellFormed(d);
      FlushKeepsWellFormed(FlushHead(d));
    }
  }

  lemma SampleKeepsWellFormed(d: Daemon, now: nat)
    requires WellFormed(d)
    ensures WellFormed(Sample(d, now))
  {
    if now % d.n < d.lastTime {
      FlushKeepsWellFormed(d);
    }
  }

  lemma ProcessKeepsWellFormed(d: Daemon)
    requires WellFormed(d) && d.current != []
    ensures Get(d.value, d.current[0]) < d.n && Get(d.period, d.current[0]) < d.n && WellFormed(ProcessExpired(d))
  {
    var t := d.current[0];
    var d1 := HeadRemoved(d);
    var v := Get(d.value, t);
    var d2 := EnlistKeepsWellFormed(d1, t, WrapAdd(v, Get(d.period, t), d.n), v);
    PostKeepsWellFormed(d2, Message(Start, v, t, d.epoch + v));
  }

  lemma UnlistKeepsWellFormed(d: Daemon, t: Timer) returns (d1: Daemon)
    requires WellFormed(d)
    ensures d1 == Unlist(d, t) && WellFormed(d1) && !Listed(d1, t)
    ensures forall u :: u != t ==> (u in d1.current <==> u in d.current) && (u in d1.overflow <==> u in d.overflow)
  {
    DropInOrder(d.current, t, d.value, d.n);
    DropInOrder(d.overflow, t, d.value, d.n);
    d1 := Unlist(d, t);
  }

  lemma Popped(d: Daemon) returns (d1: Daemon)
    requires WellFormed(d) && d.queue != []
    ensures d1 == d.(queue := d.queue[1..]) && WellFormed(d1) && d.queue[0].value < d.n
  {
    assert d.queue[0] in d.queue;
    d1 := d.(queue := d.queue[1..]);
  }

  lemma ReceiveStartKeepsWellFormed(d1: Daemon, m: Message)
    requires WellFormed(d1) && !Listed(d1, m.timer) && m.value < d1.n
    ensures Get(d1.period, m.timer) < d1.n && WellFormed(StartReceived(d1, m))
  {
    var p := Get(d1.period, m.timer);
    var expiry := WrapAdd(m.value, p, d1.n);
    var d2 := EnlistKeepsWellFormed(d1, m.timer, expiry, m.value);
    PostKeepsWellFormed(Fire(d2, m.timer, m.at + p), Message(Start, expiry, m.timer, m.at + p));
  }

  lemma ChangePeriodKeepsWellFormed(d1: Daemon, t: Timer, period: nat)
    requires WellFormed(d1) && !Listed(d1, t) && period < d1.n
    ensures WellFormed(Enlist(d1.(period := d1.period[t := period]), t, WrapAdd(d1.lastTime, period, d1.n), d1.lastTime))
  {
    var d2 := EnlistKeepsWellFormed(d1.(period := d1.period[t := period]), t, WrapAdd(d1.lastTime, period, d1.n), d1.lastTime);
  }

  /** What a received command comes to, its timer unlinked. */
  lemma ReceiveForms(d: Daemon) returns (d1: Daemon)
    requires d.queue != [] && d.lastTime < d.n && d.queue[0].value < d.n && Get(d.period, d.queue[0].timer) < d.n
    ensures d1 == Unlist(d.(queue := d.queue[1..]), d.queue[0].timer)
    ensures var m := d.queue[0];
      ReceiveCommand(d) ==
        if m.command.Start? then StartReceived(d1, m)
        else if m.command.ChangePeriod? then Enlist(d1.(period := d1.period[m.timer := m.value]), m.timer, WrapAdd(d1.lastTime, m.value, d1.n), d1.lastTime)
        else d1
  {
    d1 := Unlist(d.(queue := d.queue[1..]), d.queue[0].timer);
  }

  lemma ReceiveKeepsWellFormed(d: Daemon)
    requires WellFormed(d) && d.queue != []
    ensures d.queue[0].value < d.n && WellFormed(ReceiveCommand(d))
    ensures ReceiveCommand(d).n == d.n && ReceiveCommand(d).room == d.room
  {
    var m := d.queue[0];
    var d0 := Popped(d);
    var r := UnlistKeepsWellFormed(d0, m.timer);
    var d1 := ReceiveForms(d);
    if m.command.Start? {
      ReceiveStartKeepsWellFormed(d1, m);
    } else if m.command.ChangePeriod? {
      ChangePeriodKeepsWellFormed(d1, m.timer, m.value);
    }
  }

  lemma CrowdedKeepsWellFormed(d: Daemon, d': Daemon, crowded: bool)
    requires WellFormed(d) && WellFormed(d') && d'.n == d.n && d'.room == d.room && d.queue != []
    ensures WellFormed(if crowded then d'.(queue := d.queue[1..]) else d')
  {
  }

  lemma StepKeepsWellFormed(d: Daemon, op: Op)
    requires WellFormed(d) && Allowed(d, op)
    ensures WellFormed(Step(d, op))
  {
    match op
    case PostCommand(m) => PostKeepsWellFormed(d, m);
    case SampleTime(now) => SampleKeepsWellFormed(d, now);
    case ProcessHead => ProcessKeepsWellFormed(d);
    case ReceiveNext(crowded) =>
      ReceiveKeepsWellFormed(d);
      CrowdedKeepsWellFormed(d, ReceiveCommand(d), crowded);
  }

  // ---- One auto-reload timer ----

  /** The expiries a timer's callbacks ran for, in order. */
  function LogOf(cs: seq<Callback>, t: Timer): seq<nat> {
    if cs == [] then []
    else LogOf(cs[..|cs| - 1], t) + if cs[|cs| - 1].timer == t then [cs[|cs| - 1].due] else []
  }

  /** The commands for a timer that are still queued, in order. */
  function Mine(q: seq<Message>, t: Timer): seq<Message> {
    if q == [] then []
    else Mine(q[..|q| - 1], t) + if q[|q| - 1].timer == t then [q[|q| - 1]] else []
  }

  lemma LogOfAppend(cs: seq<Callback>, c: Callback, t: Timer)
    ensures LogOf(cs + [c], t) == LogOf(cs, t) + if c.timer == t then [c.due] else []
  {
    assert (cs + [c])[..|cs|] == cs;
  }

  lemma MineAppend(q: seq<Message>, m: Message, t: Timer)
    ensures Mine(q + [m], t) == Mine(q, t) + if m.timer == t then [m] else []
  {
    assert (q + [m])[..|q|] == q;
  }

  lemma {:induction false} MinePop(q: seq<Message>, t: Timer)
    requires q != []
    ensures Mine(q, t) == (if q[0].timer == t then [q[0]] else []) + Mine(q[1..], t)
  {
    if |q| > 1 {
      MinePop(q[..|q| - 1], t);
      assert q[..|q| - 1][1..] == q[1..][..|q| - 2];
    }
  }

  function Last(log: seq<nat>, start: nat): nat {
    if log == [] then start else log[|log| - 1]
  }

  /** Each expiry is one period after the one before it, the first one after `start`. */
  ghost predicate Chained(log: seq<nat>, start: nat, p: nat) {
    log == [] || (log[|log| - 1] == Last(log[..|log| - 1], start) + p && Chained(log[..|log| - 1], start, p))
  }

  /** Timer `t`, started at `start`: its callbacks ran for start + p, start + 2p and so on, and the next one
      is either listed under its expiry or waits in the one queued command, stamped with the last expiry. */
  ghost predicate Tracked(d: Daemon, t: Timer, start: nat) {
    var p, log := Get(d.period, t), LogOf(d.callbacks, t);
    && 0 < p < d.n && t in d.autoReload && Chained(log, start, p)
    && if Listed(d, t) then Mine(d.queue, t) == [] && DueOf(d, t) == Last(log, start) + p
       else Mine(d.queue, t) == [Message(Start, Last(log, start) % d.n, t, Last(log, start))]
  }

  /** A step on other timers. */
  ghost predicate Ignores(d: Daemon, d': Daemon, t: Timer) {
    && (t in d'.current <==> t in d.current) && (t in d'.overflow <==> t in d.overflow)
    && Get(d'.value, t) == Get(d.value, t) && Get(d'.period, t) == Get(d.period, t)
    && d'.autoReload == d.autoReload && d'.epoch == d.epoch && d'.n == d.n
    && LogOf(d'.callbacks, t) == LogOf(d.callbacks, t) && Mine(d'.queue, t) == Mine(d.queue, t)
  }

  lemma PostOther(d: Daemon, m: Message, t: Timer)
    requires m.timer != t
    ensures Ignores(d, Post(d, m), t)
  {
    MineAppend(d.queue, m, t);
  }

  lemma FireOther(d: Daemon, u: Timer, due: nat, t: Timer)
    requires u != t
    ensures Ignores(d, Fire(d, u, due), t)
  {
    LogOfAppend(d.callbacks, Callback(u, due), t);
  }

  lemma IgnoresComposes(d: Daemon, d1: Daemon, d2: Daemon, t: Timer)
    requires Ignores(d, d1, t) && Ignores(d1, d2, t)
    ensures Ignores(d, d2, t)
  {
  }

  // ---- Other timers' steps ----

  lemma EnlistOther(d: Daemon, u: Timer, expiry: nat, command: nat, t: Timer) returns (d': Daemon)
    requires WellFormed(d) && !Listed(d, u) && expiry < d.n && command < d.n && u != t
    ensures d' == Enlist(d, u, expiry, command) && WellFormed(d') && Ignores(d, d', t)
  {
    d' := EnlistKeepsWellFormed(d, u, expiry, command);
  }

  lemma HeadRemovedOther(d: Daemon, t: Timer) returns (d1: Daemon)
    requires WellFormed(d) && d.current != [] && d.current[0] != t
    ensures d1 == d.(current := d.current[1..]) && WellFormed(d1) && !Listed(d1, d.current[0]) && Ignores(d, d1, t)
    ensures Get(d.value, d.current[0]) < d.n
  {
    d1 := HeadRemoved(d);
  }

  lemma PoppedOther(d: Daemon, t: Timer) returns (d1: Daemon)
    requires WellFormed(d) && d.queue != [] && d.queue[0].timer != t
    ensures d1 == Unlist(d.(queue := d.queue[1..]), d.queue[0].timer) && WellFormed(d1) && d.queue[0].value < d.n
    ensures !Listed(d1, d.queue[0].timer) && Ignores(d, d1, t)
  {
    MinePop(d.queue, t);
    var d0 := Popped(d);
    d1 := UnlistKeepsWellFormed(d0, d.queue[0].timer);
  }

  lemma FirePostOther(d: Daemon, u: Timer, due: nat, m: Message, t: Timer)
    requires u != t && m.timer == u
    ensures Ignores(d, Fire(d, u, due), t) && Ignores(d, Post(Fire(d, u, due), m), t)
    ensures Ignores(d, Fire(Post(d, m), u, due), t)
  {
    FireOther(d, u, due, t);
    PostOther(Fire(d, u, due), m, t);
    PostOther(d, m, t);
    FireOther(Post(d, m), u, due, t);
  }

  /** The three ways prvProcessExpiredTimer can go. */
  lemma ProcessForms(d: Daemon) returns (d1: Daemon, v: nat, expiry: nat)
    requires d.current != [] && d.lastTime < d.n && Get(d.value, d.current[0]) < d.n && Get(d.period, d.current[0]) < d.n
    ensures d1 == d.(current := d.current[1..]) && v == Get(d.value, d.current[0])
    ensures expiry == WrapAdd(v, Get(d.period, d.current[0]), d.n)
    ensures var u := d.current[0];
      ProcessExpired(d) ==
        if u !in d.autoReload then Fire(d1, u, d.epoch + v)
        else if PlaceOf(d1, u, expiry, v).ProcessNow? then Fire(Post(Enlist(d1, u, expiry, v), Message(Start, v, u, d.epoch + v)), u, d.epoch + v)
        else Fire(Enlist(d1, u, expiry, v), u, d.epoch + v)
  {
    v := Get(d.value, d.current[0]);
    expiry := WrapAdd(v, Get(d.period, d.current[0]), d.n);
    d1 := d.(current := d.current[1..]);
  }

  lemma ProcessIsOneOf(d: Daemon, u: Timer, v: nat, m: Message, d1: Daemon, d2: Daemon, idle: Daemon, listed: Daemon, posted: Daemon)
      returns (d': Daemon)
    requires d.current != [] && d.lastTime < d.n && u == d.current[0] && v == Get(d.value, u) < d.n && Get(d.period, u) < d.n
    requires d1 == d.(current := d.current[1..])
    requires d2 == Enlist(d1, u, WrapAdd(v, Get(d.period, u), d.n), v)
    requires m == Message(Start, v, u, d.epoch + v)
    requires idle == Fire(d1, u, d.epoch + v)
    requires listed == Fire(d2, u, d.epoch + v)
    requires posted == Fire(Post(d2, m), u, d.epoch + v)
    ensures d' == ProcessExpired(d) && (d' == idle || d' == listed || d' == posted)
  {
    var d0, w, expiry := ProcessForms(d);
    d' := ProcessExpired(d);
  }

  lemma ProcessFormsOther(d1: Daemon, d2: Daemon, u: Timer, due: nat, m: Message, t: Timer)
      returns (idle: Daemon, listed: Daemon, posted: Daemon)
    requires u != t && m.timer == u && Ignores(d1, d2, t)
    ensures idle == Fire(d1, u, due) && Ignores(d1, idle, t)
    ensures listed == Fire(d2, u, due) && Ignores(d1, listed, t)
    ensures posted == Fire(Post(d2, m), u, due) && Ignores(d1, posted, t)
  {
    idle, listed, posted := Fire(d1, u, due), Fire(d2, u, due), Fire(Post(d2, m), u, due);
    FireOther(d1, u, due, t);
    FirePostOther(d2, u, due, m, t);
    IgnoresComposes(d1, d2, listed, t);
    IgnoresComposes(d1, d2, posted, t);
  }

  lemma ProcessOther(d: Daemon, t: Timer) returns (d': Daemon)
    requires WellFormed(d) && d.current != [] && d.current[0] != t
    ensures Get(d.value, d.current[0]) < d.n && Get(d.period, d.current[0]) < d.n
    ensures d' == ProcessExpired(d) && Ignores(d, d', t)
  {
    var u, v := d.current[0], Get(d.value, d.current[0]);
    var d1 := HeadRemovedOther(d, t);
    var d2 := EnlistOther(d1, u, WrapAdd(v, Get(d.period, u), d.n), v, t);
    var m := Message(Start, v, u, d.epoch + v);
    var idle, listed, posted := ProcessFormsOther(d1, d2, u, d.epoch + v, m, t);
    d' := ProcessIsOneOf(d, u, v, m, d1, d2, idle, listed, posted);
    IgnoresComposes(d, d1, d', t);
  }

  /** The three ways a start command can be received. */
  lemma ReceiveStartForms(d: Daemon) returns (d1: Daemon, expiry: nat)
    requires d.queue != [] && d.lastTime < d.n && d.queue[0].value < d.n && Get(d.period, d.queue[0].timer) < d.n
    requires d.queue[0].command.Start?
    ensures var m, u, p := d.queue[0], d.queue[0].timer, Get(d.period, d.queue[0].timer);
      && d1 == Unlist(d.(queue := d.queue[1..]), u) && expiry == WrapAdd(m.value, p, d.n)
      && ReceiveCommand(d) ==
           if !PlaceOf(d1, u, expiry, m.value).ProcessNow? then Enlist(d1, u, expiry, m.value)
           else if u in d.autoReload then Post(Fire(Enlist(d1, u, expiry, m.value), u, m.at + p), Message(Start, expiry, u, m.at + p))
           else Fire(Enlist(d1, u, expiry, m.value), u, m.at + p)
  {
    d1 := Unlist(d.(queue := d.queue[1..]), d.queue[0].timer);
    expiry := WrapAdd(d.queue[0].value, Get(d.period, d.queue[0].timer), d.n);
  }

  lemma StartFormsOther(d2: Daemon, u: Timer, due: nat, m: Message, t: Timer) returns (fired: Daemon, posted: Daemon)
    requires u != t && m.timer == u
    ensures fired == Fire(d2, u, due) && Ignores(d2, fired, t)
    ensures posted == Post(fired, m) && Ignores(d2, posted, t)
  {
    fired := Fire(d2, u, due);
    posted := Post(fired, m);
    FirePostOther(d2, u, due, m, t);
  }

  lemma ReceiveStartOther(d: Daemon, t: Timer) returns (d': Daemon)
    requires WellFormed(d) && d.queue != [] && d.queue[0].timer != t && d.queue[0].command.Start?
    ensures d.queue[0].value < d.n && Get(d.period, d.queue[0].timer) < d.n
    ensures d' == ReceiveCommand(d) && Ignores(d, d', t)
  {
    var m, u, p := d.queue[0], d.queue[0].timer, Get(d.period, d.queue[0].timer);
    var r := PoppedOther(d, t);
    var d1, expiry := ReceiveStartForms(d);
    var d2 := EnlistOther(d1, u, expiry, m.value, t);
    var fired, posted := StartFormsOther(d2, u, m.at + p, Message(Start, expiry, u, m.at + p), t);
    IgnoresComposes(d, d1, d2, t);
    IgnoresComposes(d, d2, fired, t);
    IgnoresComposes(d, d2, posted, t);
    d' := if !PlaceOf(d1, u, expiry, m.value).ProcessNow? then d2 else if u in d.autoReload then posted else fired;
  }

  lemma ReceiveOther(d: Daemon, t: Timer) returns (d': Daemon)
    requires WellFormed(d) && d.queue != [] && d.queue[0].timer != t
    ensures d.queue[0].value < d.n && Get(d.period, d.queue[0].timer) < d.n
    ensures d' == ReceiveCommand(d) && Ignores(d, d', t)
  {
    var m, u := d.queue[0], d.queue[0].timer;
    if m.command.Start? {
      d' := ReceiveStartOther(d, t);
    } else {
      d' := PoppedOther(d, t);
      if m.command.ChangePeriod? {
        var dp := d'.(period := d.period[u := m.value]);
        d' := EnlistOther(dp, u, WrapAdd(d.lastTime, m.value, d.n), d.lastTime, t);
        IgnoresComposes(d, dp, d', t);
      }
    }
  }

  lemma CrowdedOther(d: Daemon, d': Daemon, t: Timer)
    requires d.queue != [] && d.queue[0].timer != t && Ignores(d, d', t)
    ensures Ignores(d, d'.(queue := d.queue[1..]), t)
  {
    MinePop(d.queue, t);
  }

  lemma ReceivedOther(d: Daemon, t: Timer, crowded: bool) returns (d': Daemon)
    requires WellFormed(d) && d.queue != [] && d.queue[0].timer != t
    ensures d.queue[0].value < d.n && Get(d.period, d.queue[0].timer) < d.n
    ensures d' == Received(d, crowded) && Ignores(d, d', t)
  {
    d' := ReceiveOther(d, t);
    if crowded {
      CrowdedOther(d, d', t);
      d' := d'.(queue := d.queue[1..]);
    }
  }

  lemma RelistOther(d: Daemon, u: Timer, expiry: nat, t: Timer)
    requires WellFormed(d) && !Listed(d, u) && u != t && expiry < d.n
    ensures Ignores(d, Relist(d, u, expiry), t)
  {
    InsertInOrder(d.current, d.value, u, expiry, d.n);
  }

  /** The three ways a turn of the loop of prvSwitchTimerLists can go. */
  lemma FlushHeadForms(d: Daemon) returns (f: Daemon, v: nat, reload: nat)
    requires d.current != [] && Get(d.value, d.current[0]) < d.n && Get(d.period, d.current[0]) < d.n
    ensures v == Get(d.value, d.current[0]) && reload == WrapAdd(v, Get(d.period, d.current[0]), d.n)
    ensures f == Fire(d.(current := d.current[1..]), d.current[0], d.epoch + v)
    ensures FlushHead(d) ==
      if d.current[0] !in d.autoReload then f
      else if reload > v then Relist(f, d.current[0], reload)
      else Post(f, Message(Start, v, d.current[0], d.epoch + v))
  {
    v := Get(d.value, d.current[0]);
    reload := WrapAdd(v, Get(d.period, d.current[0]), d.n);
    f := Fire(d.(current := d.current[1..]), d.current[0], d.epoch + v);
  }

  lemma FlushFormsOther(d1: Daemon, u: Timer, v: nat, reload: nat, due: nat, t: Timer)
      returns (idle: Daemon, listed: Daemon, posted: Daemon)
    requires WellFormed(d1) && !Listed(d1, u) && u != t && reload < d1.n
    ensures idle == Fire(d1, u, due) && Ignores(d1, idle, t)
    ensures listed == Relist(idle, u, reload) && Ignores(d1, listed, t)
    ensures posted == Post(idle, Message(Start, v, u, due)) && Ignores(d1, posted, t)
  {
    idle := Fire(d1, u, due);
    listed, posted := Relist(idle, u, reload), Post(idle, Message(Start, v, u, due));
    FirePostOther(d1, u, due, Message(Start, v, u, due), t);
    RelistOther(idle, u, reload, t);
    IgnoresComposes(d1, idle, listed, t);
  }

  /** FlushHead is one of the three, whichever the timer. */
  lemma FlushHeadIsOneOf(d: Daemon, u: Timer, v: nat, m: Message, d1: Daemon, idle: Daemon, listed: Daemon, posted: Daemon)
      returns (d': Daemon)
    requires d.current != [] && u == d.current[0] && v == Get(d.value, u) < d.n && Get(d.period, u) < d.n
    requires d1 == d.(current := d.current[1..])
    requires m == Message(Start, v, u, d.epoch + v)
    requires idle == Fire(d1, u, d.epoch + v)
    requires listed == Relist(idle, u, WrapAdd(v, Get(d.period, u), d.n))
    requires posted == Post(idle, m)
    ensures d' == FlushHead(d) && (d' == idle || d' == listed || d' == posted)
  {
    d' := FlushHead(d);
  }

  /** The head has been taken off, and these are its value and the one it is reloaded with. */
  lemma FlushedHead(d: Daemon, t: Timer) returns (d1: Daemon, v: nat, reload: nat)
    requires WellFormed(d) && d.current != [] && d.current[0] != t
    ensures d1 == d.(current := d.current[1..]) && WellFormed(d1) && !Listed(d1, d.current[0]) && Ignores(d, d1, t)
    ensures v == Get(d.value, d.current[0]) < d.n && Get(d.period, d.current[0]) < d.n
    ensures reload == WrapAdd(v, Get(d.period, d.current[0]), d.n) && reload < d1.n
  {
    d1 := HeadRemovedOther(d, t);
    v := Get(d.value, d.current[0]);
    reload := WrapAdd(v, Get(d.period, d.current[0]), d.n);
  }

  lemma FlushHeadOther(d: Daemon, t: Timer) returns (d': Daemon)
    requires WellFormed(d) && d.current != [] && d.current[0] != t
    ensures Get(d.value, d.current[0]) < d.n && Get(d.period, d.current[0]) < d.n
    ensures d' == FlushHead(d) && Ignores(d, d', t)
  {
    var u := d.current[0];
    var d1, v, reload := FlushedHead(d, t);
    var idle, listed, posted := FlushFormsOther(d1, u, v, reload, d.epoch + v, t);
    d' := FlushHeadIsOneOf(d, u, v, Message(Start, v, u, d.epoch + v), d1, idle, listed, posted);
    IgnoresComposes(d, d1, d', t);
  }

  // ---- The timer's own steps ----

  /** The expiries logged for `t` only grow, and no new one is after `bound`. */
  ghost predicate LogsUpTo(d: Daemon, d': Daemon, t: Timer, bound: nat) {
    var log, log' := LogOf(d.callbacks, t), LogOf(d'.callbacks, t);
    log <= log' && forall i :: |log| <= i < |log'| ==> log'[i] <= bound
  }

  lemma LogsUpToComposes(d: Daemon, d1: Daemon, d2: Daemon, t: Timer, bound: nat)
    requires LogsUpTo(d, d1, t, bound) && LogsUpTo(d1, d2, t, bound)
    ensures LogsUpTo(d, d2, t, bound)
  {
    var log, log1, log2 := LogOf(d.callbacks, t), LogOf(d1.callbacks, t), LogOf(d2.callbacks, t);
    forall i | |log| <= i < |log2| ensures log2[i] <= bound {
      if i < |log1| {
        assert log2[i] == log1[i];
      }
    }
  }

  /** After the callback for the expiry that follows the last one, the chain is one longer. */
  lemma ChainGrows(log: seq<nat>, start: nat, p: nat) returns (log': seq<nat>)
    requires Chained(log, start, p)
    ensures log' == log + [Last(log, start) + p]
    ensures Chained(log', start, p) && Last(log', start) == Last(log, start) + p
  {
    log' := log + [Last(log, start) + p];
    assert log'[..|log|] == log;
  }

  /** Tracked, for a state described part by part. */
  ghost predicate Follows(d: Daemon, d': Daemon, t: Timer, start: nat) {
    && d'.n == d.n && d'.autoReload == d.autoReload && Get(d'.period, t) == Get(d.period, t)
    && d'.callbacks == d.callbacks + [Callback(t, Last(LogOf(d.callbacks, t), start) + Get(d.period, t))]
  }

  lemma FollowerLogs(d: Daemon, d': Daemon, t: Timer, start: nat) returns (at: nat)
    requires Tracked(d, t, start) && Follows(d, d', t, start)
    ensures at == Last(LogOf(d.callbacks, t), start) + Get(d.period, t) == Last(LogOf(d'.callbacks, t), start)
    ensures Chained(LogOf(d'.callbacks, t), start, Get(d'.period, t)) && LogsUpTo(d, d', t, at)
  {
    at := Last(LogOf(d.callbacks, t), start) + Get(d.period, t);
    var log' := ChainGrows(LogOf(d.callbacks, t), start, Get(d.period, t));
    LogOfAppend(d.callbacks, Callback(t, at), t);
  }

  lemma FollowerListed(d: Daemon, d': Daemon, t: Timer, start: nat, bound: nat)
    requires Tracked(d, t, start) && Follows(d, d', t, start)
    requires Last(LogOf(d.callbacks, t), start) + Get(d.period, t) <= bound
    requires Listed(d', t) && Mine(d'.queue, t) == []
    requires DueOf(d', t) == Last(LogOf(d.callbacks, t), start) + Get(d.period, t) + Get(d.period, t)
    ensures Tracked(d', t, start) && LogsUpTo(d, d', t, bound)
  {
    var at := FollowerLogs(d, d', t, start);
  }

  lemma FollowerQueued(d: Daemon, d': Daemon, t: Timer, start: nat, bound: nat)
    requires Tracked(d, t, start) && Follows(d, d', t, start)
    requires Last(LogOf(d.callbacks, t), start) + Get(d.period, t) <= bound
    requires !Listed(d', t)
    requires var at := Last(LogOf(d.callbacks, t), start) + Get(d.period, t);
      Mine(d'.queue, t) == [Message(Start, at % d.n, t, at)]
    ensures Tracked(d', t, start) && LogsUpTo(d, d', t, bound)
  {
    var at := FollowerLogs(d, d', t, start);
  }

  // A timer's own steps need room in the queue only where the daemon sends a command for it.

  /** A turn of the loop of prvSwitchTimerLists that sends a command for `t` finds room for it. */
  ghost predicate TurnHasRoom(d: Daemon, t: Timer)
    requires d.current != [] && Get(d.value, d.current[0]) < d.n && Get(d.period, d.current[0]) < d.n
  {
    d.current[0] == t && WrapAdd(Get(d.value, t), Get(d.period, t), d.n) <= Get(d.value, t) ==> |d.queue| < d.room
  }

  /** So does the loop. */
  ghost predicate FlushHasRoom(d: Daemon, t: Timer)
    requires Flushable(d)
    decreases Shortfall(d.current, d.value, d.n)
  {
    d.current == [] || (FlushHeadAdvances(d); TurnHasRoom(d, t) && FlushHasRoom(FlushHead(d), t))
  }

  /** So does prvProcessExpiredTimer. */
  ghost predicate ProcessHasRoom(d: Daemon, t: Timer)
    requires d.current != [] && d.lastTime < d.n && Get(d.value, d.current[0]) < d.n && Get(d.period, d.current[0]) < d.n
  {
    var v := Get(d.value, d.current[0]);
    d.current[0] == t && PlaceOf(d, t, WrapAdd(v, Get(d.period, t), d.n), v).ProcessNow? ==> |d.queue| < d.room
  }

  /** So does a turn of the loop of prvProcessReceivedCommands. */
  ghost predicate ReceiveHasRoom(d: Daemon, t: Timer, crowded: bool)
    requires d.queue != [] && d.lastTime < d.n && d.queue[0].value < d.n && Get(d.period, d.queue[0].timer) < d.n
  {
    var v := d.queue[0].value;
    d.queue[0].timer == t && PlaceOf(d, t, WrapAdd(v, Get(d.period, t), d.n), v).ProcessNow? ==> !crowded
  }

  /** A timer enlisted by a command no younger than the clock is listed under the right expiry. */
  lemma EnlistedAt(d: Daemon, t: Timer, command: nat, wrapped: nat) returns (d': Daemon, now: bool)
    requires WellFormed(d) && !Listed(d, t) && 0 < Get(d.period, t) < d.n && command <= Now(d) < command + d.n
    requires wrapped == command % d.n
    ensures wrapped < d.n && d' == Enlist(d, t, WrapAdd(wrapped, Get(d.period, t), d.n), wrapped)
    ensures d' == d.(value := d'.value, current := d'.current, overflow := d'.overflow)
    ensures PlaceOf(d, t, WrapAdd(wrapped, Get(d.period, t), d.n), wrapped).ProcessNow? == now == (command + Get(d.period, t) <= Now(d))
    ensures if now then !Listed(d', t) else Listed(d', t) && DueOf(d', t) == command + Get(d.period, t)
  {
    var p := Get(d.period, t);
    now := command + p <= Now(d);
    d' := EnlistKeepsWellFormed(d, t, WrapAdd(wrapped, p, d.n), wrapped);
    WrappedNow(d.epoch, d.lastTime, d.n);
    PastCommandPlacedRight(Now(d), command, p, d.n);
  }

  lemma HeadTracked(d: Daemon, t: Timer, start: nat) returns (d1: Daemon, v: nat)
    requires WellFormed(d) && Tracked(d, t, start) && d.current != [] && d.current[0] == t
    ensures d1 == d.(current := d.current[1..]) && WellFormed(d1) && !Listed(d1, t)
    ensures v == Get(d.value, t) < d.n && Mine(d.queue, t) == []
    ensures d.epoch + v == Last(LogOf(d.callbacks, t), start) + Get(d.period, t) && (d.epoch + v) % d.n == v
  {
    d1 := HeadRemoved(d);
    v := Get(d.value, t);
    assert t in d.current;
    WrappedNow(d.epoch, v, d.n);
  }

  /** A state in which `t` has been taken off its list or the queue and its callback is still to run. */
  ghost predicate Pending(d: Daemon, d2: Daemon, t: Timer) {
    && d2.n == d.n && d2.autoReload == d.autoReload && Get(d2.period, t) == Get(d.period, t)
    && d2.callbacks == d.callbacks && Mine(d2.queue, t) == []
  }

  lemma FireListed(d: Daemon, d2: Daemon, t: Timer, start: nat, due: nat, bound: nat, d': Daemon)
    requires d' == Fire(d2, t, due) && Tracked(d, t, start) && Pending(d, d2, t) && Listed(d2, t)
    requires due == Last(LogOf(d.callbacks, t), start) + Get(d.period, t) <= bound
    requires DueOf(d2, t) == due + Get(d.period, t)
    ensures Tracked(d', t, start) && LogsUpTo(d, d', t, bound)
  {
    FollowerListed(d, d', t, start, bound);
  }

  lemma FirePosted(d: Daemon, d2: Daemon, t: Timer, start: nat, due: nat, m: Message, bound: nat, d': Daemon)
    requires d' == Post(Fire(d2, t, due), m) || d' == Fire(Post(d2, m), t, due)
    requires Tracked(d, t, start) && Pending(d, d2, t) && !Listed(d2, t) && |d2.queue| < d2.room
    requires due == Last(LogOf(d.callbacks, t), start) + Get(d.period, t) <= bound
    requires m == Message(Start, due % d.n, t, due)
    ensures Tracked(d', t, start) && LogsUpTo(d, d', t, bound)
  {
    MineAppend(d2.queue, m, t);
    FollowerQueued(d, d', t, start, bound);
  }

  /** What prvProcessExpiredTimer does with an auto-reload timer, given the daemon `d2` with it enlisted again. */
  lemma ProcessReloads(d: Daemon, h: Daemon, d2: Daemon, v: nat, now: bool) returns (d': Daemon)
    requires d.current != [] && d.lastTime < d.n && v == Get(d.value, d.current[0]) < d.n && Get(d.period, d.current[0]) < d.n
    requires h == d.(current := d.current[1..]) && d.current[0] in d.autoReload
    requires d2 == Enlist(h, d.current[0], WrapAdd(v, Get(d.period, d.current[0]), d.n), v)
    requires PlaceOf(h, d.current[0], WrapAdd(v, Get(d.period, d.current[0]), d.n), v).ProcessNow? == now
    ensures d' == ProcessExpired(d)
    ensures var t, due := d.current[0], d.epoch + v;
      d' == if now then Fire(Post(d2, Message(Start, v, t, due)), t, due) else Fire(d2, t, due)
  {
    var d1, v', expiry := ProcessForms(d);
    d' := ProcessExpired(d);
  }

  lemma ProcessOwn(d: Daemon, t: Timer, start: nat) returns (d': Daemon)
    requires WellFormed(d) && Tracked(d, t, start) && d.current != [] && d.current[0] == t
    requires Get(d.value, t) <= d.lastTime
    requires Get(d.value, t) < d.n && Get(d.period, t) < d.n && ProcessHasRoom(d, t)
    ensures d' == ProcessExpired(d) && Tracked(d', t, start) && LogsUpTo(d, d', t, Now(d))
  {
    var h, v := HeadTracked(d, t, start);
    var due := d.epoch + v;
    var d2, now := EnlistedAt(h, t, due, v);
    d' := ProcessReloads(d, h, d2, v, now);
    if now {
      FirePosted(d, d2, t, start, due, Message(Start, v, t, due), Now(d), d');
    } else {
      FireListed(d, d2, t, start, due, Now(d), d');
    }
  }

  /** The queued command of a tracked timer is the only one for it. */
  lemma OwnCommand(d: Daemon, t: Timer, start: nat) returns (d1: Daemon, at: nat)
    requires WellFormed(d) && Tracked(d, t, start) && d.queue != [] && d.queue[0].timer == t
    ensures at == Last(LogOf(d.callbacks, t), start) && d.queue[0] == Message(Start, at % d.n, t, at)
    ensures d1 == Unlist(d.(queue := d.queue[1..]), t) && WellFormed(d1) && !Listed(d1, t) && Mine(d1.queue, t) == []
  {
    MinePop(d.queue, t);
    assert Mine(d.queue, t)[0] == d.queue[0];
    at := Last(LogOf(d.callbacks, t), start);
    var d0 := Popped(d);
    d1 := UnlistKeepsWellFormed(d0, t);
  }

  /** What receiving the start command of an auto-reload timer does, given the daemon `d2` with it enlisted. */
  lemma ReceiveRestarts(d: Daemon, h: Daemon, d2: Daemon, expiry: nat, now: bool, crowded: bool) returns (d': Daemon)
    requires d.queue != [] && d.lastTime < d.n && d.queue[0].value < d.n && Get(d.period, d.queue[0].timer) < d.n
    requires d.queue[0].command.Start? && d.queue[0].timer in d.autoReload
    requires h == Unlist(d.(queue := d.queue[1..]), d.queue[0].timer) && d2 == h.(value := d2.value, current := d2.current, overflow := d2.overflow)
    requires expiry == WrapAdd(d.queue[0].value, Get(d.period, d.queue[0].timer), d.n)
    requires d2 == Enlist(h, d.queue[0].timer, expiry, d.queue[0].value)
    requires PlaceOf(h, d.queue[0].timer, expiry, d.queue[0].value).ProcessNow? == now
    ensures d' == Received(d, crowded) && ReceiveHasRoom(d, d.queue[0].timer, crowded) == (now ==> !crowded)
    ensures var t := d.queue[0].timer; var due := d.queue[0].at + Get(d.period, t);
      d' == if !now then d2 else if crowded then Fire(d2, t, due) else Post(Fire(d2, t, due), Message(Start, expiry, t, due))
  {
    var d1, e := ReceiveStartForms(d);
    d' := Received(d, crowded);
  }

  /** Its command came in time, and it is listed for the next expiry. */
  lemma RestartedListed(d: Daemon, h: Daemon, t: Timer, start: nat, at: nat, d': Daemon)
    requires Tracked(d, t, start) && Pending(d, h, t) && at == Last(LogOf(d.callbacks, t), start)
    requires d' == h.(value := d'.value, current := d'.current, overflow := d'.overflow)
    requires Listed(d', t) && DueOf(d', t) == at + Get(d.period, t)
    ensures Tracked(d', t, start) && LogsUpTo(d, d', t, 0)
  {
  }

  /** Or it came a period late: the callback runs, and there is room for the next command where this one was. */
  lemma RestartedPosted(d: Daemon, h: Daemon, d2: Daemon, t: Timer, start: nat, at: nat, due: nat, d': Daemon)
    requires Tracked(d, t, start) && Pending(d, h, t) && at == Last(LogOf(d.callbacks, t), start)
    requires d2 == h.(value := d2.value, current := d2.current, overflow := d2.overflow)
    requires !Listed(d2, t) && |h.queue| < h.room
    requires due == at + Get(d.period, t) <= Now(d)
    requires d' == Post(Fire(d2, t, due), Message(Start, due % d.n, t, due))
    ensures Tracked(d', t, start) && LogsUpTo(d, d', t, Now(d))
  {
    FirePosted(d, d2, t, start, due, Message(Start, due % d.n, t, due), Now(d), d');
  }

  lemma ReceiveOwn(d: Daemon, t: Timer, start: nat, crowded: bool) returns (d': Daemon)
    requires WellFormed(d) && Tracked(d, t, start) && d.queue != [] && d.queue[0].timer == t
    requires d.queue[0].at <= Now(d) < d.queue[0].at + d.n
    requires d.queue[0].value < d.n && Get(d.period, t) < d.n && ReceiveHasRoom(d, t, crowded)
    ensures d' == Received(d, crowded) && Tracked(d', t, start) && LogsUpTo(d, d', t, Now(d))
  {
    var h, at := OwnCommand(d, t, start);
    var due := at + Get(d.period, t);
    var d2, now := EnlistedAt(h, t, at, d.queue[0].value);
    WrapAddIsSum(at, Get(d.period, t), d.n);
    d' := ReceiveRestarts(d, h, d2, due % d.n, now, crowded);
    if now {
      RestartedPosted(d, h, d2, t, start, at, due, d');
    } else {
      RestartedListed(d, h, t, start, at, d');
    }
  }

  lemma RelistOwn(d: Daemon, h: Daemon, t: Timer, start: nat, reload: nat, due: nat, d': Daemon)
    requires d' == Relist(Fire(h, t, due), t, reload)
    requires Tracked(d, t, start) && Pending(d, h, t) && WellFormed(h) && !Listed(h, t) && reload < h.n
    requires due == Last(LogOf(d.callbacks, t), start) + Get(d.period, t) <= d.epoch + d.n
    requires h.epoch + reload == due + Get(d.period, t)
    ensures Tracked(d', t, start) && LogsUpTo(d, d', t, d.epoch + d.n)
  {
    InsertInOrder(h.current, h.value, t, reload, h.n);
    FireListed(d, Relist(h, t, reload), t, start, due, d.epoch + d.n, d');
  }

  /** What a turn of the loop of prvSwitchTimerLists does with an auto-reload timer. */
  lemma FlushReloads(d: Daemon, h: Daemon, v: nat) returns (d': Daemon)
    requires d.current != [] && v == Get(d.value, d.current[0]) < d.n && Get(d.period, d.current[0]) < d.n
    requires h == d.(current := d.current[1..]) && d.current[0] in d.autoReload
    ensures d' == FlushHead(d)
    ensures var t, due, reload := d.current[0], d.epoch + v, WrapAdd(v, Get(d.period, d.current[0]), d.n);
      d' == if reload > v then Relist(Fire(h, t, due), t, reload) else Post(Fire(h, t, due), Message(Start, v, t, due))
  {
    var f, v', reload := FlushHeadForms(d);
    d' := FlushHead(d);
  }

  lemma FlushedRelisted(d: Daemon, h: Daemon, t: Timer, start: nat, v: nat, d': Daemon)
    requires Tracked(d, t, start) && Pending(d, h, t) && WellFormed(h) && !Listed(h, t)
    requires d.epoch + v == Last(LogOf(d.callbacks, t), start) + Get(d.period, t) && h.epoch == d.epoch
    requires v < d.n && WrapAdd(v, Get(d.period, t), d.n) > v
    requires d' == Relist(Fire(h, t, d.epoch + v), t, WrapAdd(v, Get(d.period, t), d.n))
    ensures Tracked(d', t, start) && LogsUpTo(d, d', t, d.epoch + d.n)
  {
    RelistOwn(d, h, t, start, WrapAdd(v, Get(d.period, t), d.n), d.epoch + v, d');
  }

  lemma FlushHeadOwn(d: Daemon, t: Timer, start: nat) returns (d': Daemon)
    requires WellFormed(d) && Tracked(d, t, start) && d.current != [] && d.current[0] == t
    requires Get(d.value, t) < d.n && Get(d.period, t) < d.n && TurnHasRoom(d, t)
    ensures d' == FlushHead(d) && Tracked(d', t, start) && LogsUpTo(d, d', t, d.epoch + d.n)
  {
    var h, v := HeadTracked(d, t, start);
    d' := FlushReloads(d, h, v);
    if WrapAdd(v, Get(d.period, t), d.n) > v {
      FlushedRelisted(d, h, t, start, v, d');
    } else {
      FirePosted(d, h, t, start, d.epoch + v, Message(Start, v, t, d.epoch + v), d.epoch + d.n, d');
    }
  }

  // ---- A reload that meets a full queue ----

  /** Its callbacks have run in step so far, but it is on no list and in no command. */
  ghost predicate Dropped(d: Daemon, t: Timer, start: nat) {
    var p, log := Get(d.period, t), LogOf(d.callbacks, t);
    0 < p < d.n && t in d.autoReload && Chained(log, start, p) && !Listed(d, t) && Mine(d.queue, t) == []
  }

  ghost predicate InStep(d: Daemon, t: Timer, start: nat) {
    Tracked(d, t, start) || Dropped(d, t, start)
  }

  /** The timer stays in step, no callback runs for an expiry after `bound`, and it goes on iff there is `room` for its
      own command; one that was dropped before stays so, and silent. */
  ghost predicate Keeps(d: Daemon, d': Daemon, t: Timer, start: nat, bound: nat, room: bool) {
    && InStep(d', t, start) && (Tracked(d', t, start) <==> Tracked(d, t, start) && room)
    && LogsUpTo(d, d', t, bound) && (Dropped(d, t, start) ==> LogOf(d'.callbacks, t) == LogOf(d.callbacks, t))
  }

  lemma TrackedIsKept(d: Daemon, d': Daemon, t: Timer, start: nat, bound: nat, room: bool)
    requires Tracked(d, t, start) && LogsUpTo(d, d', t, bound)
    requires if room then Tracked(d', t, start) else Dropped(d', t, start)
    ensures Keeps(d, d', t, start, bound, room)
  {
  }

  lemma IgnoredIsKept(d: Daemon, d': Daemon, t: Timer, start: nat, bound: nat, room: bool)
    requires InStep(d, t, start) && Ignores(d, d', t) && room
    ensures Keeps(d, d', t, start, bound, room)
  {
  }

  lemma KeepsComposes(d: Daemon, d1: Daemon, d2: Daemon, t: Timer, start: nat, bound: nat, room1: bool, room2: bool)
    requires Keeps(d, d1, t, start, bound, room1)
    requires Keeps(d1, d2, t, start, bound, room2)
    ensures Keeps(d, d2, t, start, bound, room1 && room2)
  {
    LogsUpToComposes(d, d1, d2, t, bound);
  }

  lemma FireDropped(d: Daemon, d2: Daemon, t: Timer, start: nat, due: nat, bound: nat, d': Daemon)
    requires d' == Fire(d2, t, due) && Tracked(d, t, start) && Pending(d, d2, t) && !Listed(d2, t)
    requires due == Last(LogOf(d.callbacks, t), start) + Get(d.period, t) <= bound
    ensures Dropped(d', t, start) && LogsUpTo(d, d', t, bound)
  {
    var at := FollowerLogs(d, d', t, start);
  }

  lemma FlushHeadDrops(d: Daemon, t: Timer, start: nat) returns (d': Daemon)
    requires WellFormed(d) && Tracked(d, t, start) && d.current != [] && d.current[0] == t
    requires Get(d.value, t) < d.n && Get(d.period, t) < d.n && !TurnHasRoom(d, t)
    ensures d' == FlushHead(d) && Dropped(d', t, start) && LogsUpTo(d, d', t, d.epoch + d.n)
  {
    var h, v := HeadTracked(d, t, start);
    d' := FlushReloads(d, h, v);
    FireDropped(d, h, t, start, d.epoch + v, d.epoch + d.n, d');
  }

  lemma ProcessDrops(d: Daemon, t: Timer, start: nat) returns (d': Daemon)
    requires WellFormed(d) && Tracked(d, t, start) && d.current != [] && d.current[0] == t
    requires Get(d.value, t) <= d.lastTime
    requires Get(d.value, t) < d.n && Get(d.period, t) < d.n && !ProcessHasRoom(d, t)
    ensures d' == ProcessExpired(d) && Dropped(d', t, start) && LogsUpTo(d, d', t, Now(d))
  {
    var h, v := HeadTracked(d, t, start);
    var due := d.epoch + v;
    var d2, now := EnlistedAt(h, t, due, v);
    d' := ProcessReloads(d, h, d2, v, now);
    FireDropped(d, d2, t, start, due, Now(d), d');
  }

  lemma ReceiveDrops(d: Daemon, t: Timer, start: nat, crowded: bool) returns (d': Daemon)
    requires WellFormed(d) && Tracked(d, t, start) && d.queue != [] && d.queue[0].timer == t
    requires d.queue[0].at <= Now(d) < d.queue[0].at + d.n
    requires d.queue[0].value < d.n && Get(d.period, t) < d.n && !ReceiveHasRoom(d, t, crowded)
    ensures d' == Received(d, crowded) && Dropped(d', t, start) && LogsUpTo(d, d', t, Now(d))
  {
    var h, at := OwnCommand(d, t, start);
    var due := at + Get(d.period, t);
    var d2, now := EnlistedAt(h, t, at, d.queue[0].value);
    WrapAddIsSum(at, Get(d.period, t), d.n);
    d' := ReceiveRestarts(d, h, d2, due % d.n, now, crowded);
    FireDropped(d, d2, t, start, due, Now(d), d');
  }

  // ---- Time samples ----

  lemma FlushHeadFrame(d: Daemon)
    requires d.current != [] && Get(d.value, d.current[0]) < d.n && Get(d.period, d.current[0]) < d.n
    ensures FlushHead(d).epoch == d.epoch && FlushHead(d).n == d.n
  {
  }

  lemma FlushHeadInStep(d: Daemon, t: Timer, start: nat) returns (d': Daemon)
    requires WellFormed(d) && InStep(d, t, start) && d.current != []
    ensures Get(d.value, d.current[0]) < d.n && Get(d.period, d.current[0]) < d.n
    ensures d' == FlushHead(d) && Keeps(d, d', t, start, d.epoch + d.n, TurnHasRoom(d, t))
  {
    FlushHeadAdvances(d);
    if d.current[0] != t {
      d' := FlushHeadOther(d, t);
      IgnoredIsKept(d, d', t, start, d.epoch + d.n, TurnHasRoom(d, t));
    } else {
      if TurnHasRoom(d, t) {
        d' := FlushHeadOwn(d, t, start);
      } else {
        d' := FlushHeadDrops(d, t, start);
      }
      TrackedIsKept(d, d', t, start, d.epoch + d.n, TurnHasRoom(d, t));
    }
  }

  /** A list switch runs one callback for each expiry of the ended epoch and leaves the next one in a command, and the
      timer goes on iff the queue had room for the command it sent. */
  lemma {:induction false} FlushInStep(d: Daemon, t: Timer, start: nat)
    requires WellFormed(d) && InStep(d, t, start)
    ensures Keeps(d, Flush(d), t, start, d.epoch + d.n, FlushHasRoom(d, t))
    decreases Shortfall(d.current, d.value, d.n)
  {
    if d.current != [] {
      FlushHeadAdvances(d);
      var d1 := FlushHeadInStep(d, t, start);
      FlushHeadKeepsWellFormed(d);
      FlushHeadFrame(d);
      FlushInStep(d1, t, start);
      KeepsComposes(d, d1, Flush(d1), t, start, d.epoch + d.n, TurnHasRoom(d, t), FlushHasRoom(d1, t));
    }
  }

  /** The expiry after the last one a callback of `t` ran for. */
  function NextDue(d: Daemon, t: Timer, start: nat): nat {
    Last(LogOf(d.callbacks, t), start) + Get(d.period, t)
  }

  /** `t` is still to be run in this epoch, or has been run up to the end of it. */
  ghost predicate RunOut(d: Daemon, t: Timer, start: nat) {
    t in d.current || (t !in d.overflow && d.epoch + d.n <= NextDue(d, t, start))
  }

  lemma FlushHeadRunsOut(d: Daemon, t: Timer, start: nat)
    requires WellFormed(d) && InStep(d, t, start) && d.current != [] && RunOut(d, t, start)
    ensures Get(d.value, d.current[0]) < d.n && Get(d.period, d.current[0]) < d.n && RunOut(FlushHead(d), t, start)
  {
    if d.current[0] == t {
      var h, v := HeadTracked(d, t, start);
      var d' := FlushReloads(d, h, v);
      var reload := WrapAdd(v, Get(d.period, t), d.n);
      LogOfAppend(d.callbacks, Callback(t, d.epoch + v), t);
      if reload > v {
        InsertInOrder(h.current, h.value, t, reload, h.n);
      }
    } else {
      var d' := FlushHeadOther(d, t);
    }
  }

  /** A list switch leaves no expiry of the ended epoch behind, room or not: the next one of every timer that was
      listed for it is in the next epoch. */
  lemma {:induction false} FlushRunsOut(d: Daemon, t: Timer, start: nat)
    requires WellFormed(d) && InStep(d, t, start) && RunOut(d, t, start)
    ensures RunOut(Flush(d), t, start) && d.epoch + d.n <= NextDue(Flush(d), t, start)
    decreases Shortfall(d.current, d.value, d.n)
  {
    FlushKeepsWellFormed(d);
    if d.current != [] {
      FlushHeadAdvances(d);
      var d1 := FlushHeadInStep(d, t, start);
      FlushHeadKeepsWellFormed(d);
      FlushHeadFrame(d);
      FlushHeadRunsOut(d, t, start);
      FlushRunsOut(d1, t, start);
    }
  }

  /** After a sample the daemon's clock is the sampled one, whether or not the counter wrapped in between. */
  lemma SampledNow(d: Daemon, now: nat)
    requires WellFormed(d) && Now(d) <= now < Now(d) + d.n
    ensures Now(Sample(d, now)) == now && Sample(d, now).n == d.n
    ensures now % d.n < d.lastTime ==> d.epoch + d.n <= now
  {
    WrappedNow(d.epoch, d.lastTime, d.n);
    EpochGap(Now(d), now, d.n);
    if now % d.n < d.lastTime {
      FlushKeepsWellFormed(d);
    }
  }

  /** Switching the two lists at the wrap keeps the unwrapped expiry of every timer. */
  lemma SwitchKeepsDue(f: Daemon, d': Daemon, t: Timer, start: nat)
    requires f.current == []
    requires d' == f.(current := f.overflow, overflow := f.current, epoch := f.epoch + f.n, lastTime := d'.lastTime)
    ensures (Tracked(d', t, start) <==> Tracked(f, t, start)) && (Dropped(d', t, start) <==> Dropped(f, t, start))
    ensures LogOf(d'.callbacks, t) == LogOf(f.callbacks, t)
  {
  }

  lemma SwitchedIsKept(d: Daemon, f: Daemon, d': Daemon, t: Timer, start: nat, bound: nat, now: nat, room: bool)
    requires Keeps(d, f, t, start, bound, room) && bound <= now && f.current == []
    requires d' == f.(current := f.overflow, overflow := f.current, epoch := f.epoch + f.n, lastTime := d'.lastTime)
    ensures Keeps(d, d', t, start, now, room)
  {
    SwitchKeepsDue(f, d', t, start);
  }

  lemma WrappedSample(d: Daemon, now: nat) returns (f: Daemon, d': Daemon)
    requires WellFormed(d) && now % d.n < d.lastTime
    ensures f == Flush(d) && f.current == []
    ensures d' == Sample(d, now) == f.(current := f.overflow, overflow := f.current, epoch := f.epoch + f.n, lastTime := d'.lastTime)
  {
    FlushKeepsWellFormed(d);
    f, d' := Flush(d), Sample(d, now);
  }

  lemma SampleInStep(d: Daemon, now: nat, t: Timer, start: nat)
    requires WellFormed(d) && InStep(d, t, start) && Allowed(d, SampleTime(now))
    ensures Keeps(d, Sample(d, now), t, start, now, RoomFor(d, SampleTime(now), t))
  {
    if now % d.n < d.lastTime {
      SampledNow(d, now);
      FlushInStep(d, t, start);
      var f, d' := WrappedSample(d, now);
      SwitchedIsKept(d, f, d', t, start, d.epoch + d.n, now, FlushHasRoom(d, t));
    }
  }

  // ---- Every run ----

  /** What the steps of a run are asked for the sake of timer `t`: nobody else commands it, and its own command is
      received within a wrap of the time it is stamped with, not before. */
  ghost predicate LeavesTo(d: Daemon, op: Op, t: Timer)
    requires WellFormed(d) && Allowed(d, op)
  {
    match op
    case PostCommand(m) => m.timer != t
    case ReceiveNext(_) => d.queue[0].timer == t ==> d.queue[0].at <= Now(d) < d.queue[0].at + d.n
    case _ => true
  }

  /** A step that sends a command to reload `t` finds room for it. */
  ghost predicate RoomFor(d: Daemon, op: Op, t: Timer)
    requires WellFormed(d) && Allowed(d, op)
  {
    match op
    case SampleTime(now) => now % d.n < d.lastTime ==> FlushHasRoom(d, t)
    case ProcessHead => assert d.current[0] in d.current; ProcessHasRoom(d, t)
    case ReceiveNext(crowded) => assert d.queue[0] in d.queue; ReceiveHasRoom(d, t, crowded)
    case PostCommand(_) => true
  }

  lemma ReceiveClock(d: Daemon)
    requires WellFormed(d) && d.queue != []
    ensures d.queue[0].value < d.n && Now(ReceiveCommand(d)) == Now(d) && ReceiveCommand(d).n == d.n
  {
    var d0 := Popped(d);
    if d.queue[0].command.Start? {
      var d1, expiry := ReceiveStartForms(d);
    }
  }

  lemma StepClock(d: Daemon, op: Op)
    requires WellFormed(d) && Allowed(d, op)
    ensures Now(d) <= Now(Step(d, op)) && Step(d, op).n == d.n
  {
    match op
    case PostCommand(m) =>
    case SampleTime(now) => SampledNow(d, now);
    case ProcessHead => var d1, v, expiry := ProcessForms(d);
    case ReceiveNext(_) => ReceiveClock(d);
  }

  lemma ProcessInStep(d: Daemon, t: Timer, start: nat)
    requires WellFormed(d) && InStep(d, t, start) && Allowed(d, ProcessHead)
    ensures Keeps(d, Step(d, ProcessHead), t, start, Now(d), RoomFor(d, ProcessHead, t))
  {
    var d' := Step(d, ProcessHead);
    if d.current[0] != t {
      d' := ProcessOther(d, t);
      IgnoredIsKept(d, d', t, start, Now(d), true);
    } else {
      assert d.current[0] in d.current;
      if ProcessHasRoom(d, t) {
        d' := ProcessOwn(d, t, start);
      } else {
        d' := ProcessDrops(d, t, start);
      }
      TrackedIsKept(d, d', t, start, Now(d), ProcessHasRoom(d, t));
    }
  }

  lemma DroppedHasNoCommand(d: Daemon, t: Timer, start: nat)
    requires Dropped(d, t, start) && d.queue != []
    ensures d.queue[0].timer != t
  {
    MinePop(d.queue, t);
  }

  lemma ReceiveInStep(d: Daemon, crowded: bool, t: Timer, start: nat)
    requires WellFormed(d) && InStep(d, t, start) && Allowed(d, ReceiveNext(crowded)) && LeavesTo(d, ReceiveNext(crowded), t)
    ensures Keeps(d, Step(d, ReceiveNext(crowded)), t, start, Now(d), RoomFor(d, ReceiveNext(crowded), t))
  {
    var d' := Step(d, ReceiveNext(crowded));
    assert d.queue[0] in d.queue;
    if d.queue[0].timer != t {
      d' := ReceivedOther(d, t, crowded);
      IgnoredIsKept(d, d', t, start, Now(d), true);
    } else if Dropped(d, t, start) {
      DroppedHasNoCommand(d, t, start);
    } else {
      if ReceiveHasRoom(d, t, crowded) {
        d' := ReceiveOwn(d, t, start, crowded);
      } else {
        d' := ReceiveDrops(d, t, start, crowded);
      }
      TrackedIsKept(d, d', t, start, Now(d), ReceiveHasRoom(d, t, crowded));
    }
  }

  /** Every step keeps the timer's chain of expiries unbroken and runs no callback early, and the timer goes on iff
      the step has room for the command that reloads it. */
  lemma StepInStep(d: Daemon, op: Op, t: Timer, start: nat)
    requires WellFormed(d) && InStep(d, t, start) && Allowed(d, op) && LeavesTo(d, op, t)
    ensures Keeps(d, Step(d, op), t, start, Now(Step(d, op)), RoomFor(d, op, t))
  {
    StepClock(d, op);
    match op
    case PostCommand(m) =>
      PostOther(d, m, t);
      IgnoredIsKept(d, Post(d, m), t, start, Now(d), true);
    case SampleTime(now) =>
      SampledNow(d, now);
      SampleInStep(d, now, t, start);
    case ProcessHead => ProcessInStep(d, t, start);
    case ReceiveNext(crowded) => ReceiveInStep(d, crowded, t, start);
  }

  ghost predicate CanRun(d: Daemon, ops: seq<Op>, t: Timer)
    requires WellFormed(d)
    decreases |ops|
  {
    ops == [] || (Allowed(d, ops[0]) && LeavesTo(d, ops[0], t) && (StepKeepsWellFormed(d, ops[0]); CanRun(Step(d, ops[0]), ops[1..], t)))
  }

  ghost function Run(d: Daemon, ops: seq<Op>, t: Timer): (d': Daemon)
    requires WellFormed(d) && CanRun(d, ops, t)
    ensures WellFormed(d')
    decreases |ops|
  {
    if ops == [] then d else StepKeepsWellFormed(d, ops[0]); Run(Step(d, ops[0]), ops[1..], t)
  }

  /** Whenever the daemon sends a command to reload `t`, the queue has room for it. */
  ghost predicate RoomThroughout(d: Daemon, ops: seq<Op>, t: Timer)
    requires WellFormed(d) && CanRun(d, ops, t)
    decreases |ops|
  {
    ops == [] || (RoomFor(d, ops[0], t) && (StepKeepsWellFormed(d, ops[0]); RoomThroughout(Step(d, ops[0]), ops[1..], t)))
  }

  /** The callbacks so far are for expiries the clock has reached. */
  ghost predicate NoneEarly(d: Daemon, t: Timer) {
    forall i :: 0 <= i < |LogOf(d.callbacks, t)| ==> LogOf(d.callbacks, t)[i] <= Now(d)
  }

  lemma NoneEarlyStep(d: Daemon, d': Daemon, t: Timer)
    requires NoneEarly(d, t) && Now(d) <= Now(d') && LogsUpTo(d, d', t, Now(d'))
    ensures NoneEarly(d', t)
  {
  }

  /** The end of a run for timer `t`. */
  ghost predicate EndsUp(d: Daemon, d': Daemon, t: Timer, start: nat, room: bool) {
    && InStep(d', t, start) && NoneEarly(d', t) && (Tracked(d', t, start) <==> Tracked(d, t, start) && room)
    && (Dropped(d, t, start) ==> LogOf(d'.callbacks, t) == LogOf(d.callbacks, t))
  }

  lemma {:induction false} RunInStep(d: Daemon, ops: seq<Op>, t: Timer, start: nat)
    requires WellFormed(d) && CanRun(d, ops, t) && InStep(d, t, start) && NoneEarly(d, t)
    ensures EndsUp(d, Run(d, ops, t), t, start, RoomThroughout(d, ops, t))
    decreases |ops|
  {
    if ops != [] {
      var d1 := Step(d, ops[0]);
      StepKeepsWellFormed(d, ops[0]);
      StepClock(d, ops[0]);
      StepInStep(d, ops[0], t, start);
      NoneEarlyStep(d, d1, t);
      RunInStep(d1, ops[1..], t, start);
    }
  }

  lemma {:induction false} ChainIsArithmetic(log: seq<nat>, start: nat, p: nat)
    requires Chained(log, start, p)
    ensures Last(log, start) == start + |log| * p
    ensures forall i :: 0 <= i < |log| ==> log[i] == start + (i + 1) * p
  {
    if log != [] {
      var front := log[..|log| - 1];
      ChainIsArithmetic(front, start, p);
      assert |log| * p == |front| * p + p;
      forall i | 0 <= i < |log| ensures log[i] == start + (i + 1) * p {
        assert i < |front| ==> front[i] == log[i];
      }
    }
  }

  /** Callbacks up to now, one a period: they are as many as periods have passed iff the next is still to come. */
  lemma RunsSinceStart(log: seq<nat>, start: nat, p: nat, now: nat)
    requires Chained(log, start, p) && 0 < p && start <= now && forall i :: 0 <= i < |log| ==> log[i] <= now
    ensures |log| == (now - start) / p <==> now < start + (|log| + 1) * p
  {
    ChainIsArithmetic(log, start, p);
    var k, e := |log|, now - start;
    assert (k + 1) * p == k * p + p && k * p == p * k;
    assert log != [] ==> log[k - 1] <= now;
    if e < k * p + p {
      DivModUnique(e, p, k, e - p * k);
    }
    assert e == p * (e / p) + e % p;
  }

  /** In every run, the k-th callback of an auto-reload timer is for start + k * period, however late the
      daemon ran it and however often the counter wrapped, and none ran before its time, whether or not the queue was
      ever full. Whenever the timer is listed under an expiry still to come, exactly the callbacks for the periods
      that have passed have run. */
  lemma CallbacksAreExact(d: Daemon, ops: seq<Op>, t: Timer, start: nat)
    requires WellFormed(d) && CanRun(d, ops, t) && Tracked(d, t, start) && LogOf(d.callbacks, t) == []
    ensures var d', p := Run(d, ops, t), Get(Run(d, ops, t).period, t);
      var log := LogOf(d'.callbacks, t);
      && (forall i :: 0 <= i < |log| ==> log[i] == start + (i + 1) * p && log[i] <= Now(d'))
      && (Listed(d', t) && start <= Now(d') < DueOf(d', t) ==> 0 < p && |log| == (Now(d') - start) / p)
  {
    RunInStep(d, ops, t, start);
    var d', p := Run(d, ops, t), Get(Run(d, ops, t).period, t);
    var log := LogOf(d'.callbacks, t);
    ChainIsArithmetic(log, start, p);
    if Listed(d', t) && start <= Now(d') < DueOf(d', t) {
      assert |log| * p == p * |log|;
      DivModUnique(Now(d') - start, p, |log|, Now(d') - start - p * |log|);
    }
  }

  /** In every run the timer is still listed or commanded iff the queue had room whenever the daemon sent the command
      that reloads it. */
  lemma GoesOnIffRoom(d: Daemon, ops: seq<Op>, t: Timer, start: nat)
    requires WellFormed(d) && CanRun(d, ops, t) && Tracked(d, t, start) && NoneEarly(d, t)
    ensures var d' := Run(d, ops, t); Listed(d', t) || Mine(d'.queue, t) != [] <==> RoomThroughout(d, ops, t)
  {
    RunInStep(d, ops, t, start);
  }

  /** If it had not, no callback of the timer ever runs again, unless somebody sends another command for it. */
  lemma DroppedForGood(d: Daemon, ops: seq<Op>, more: seq<Op>, t: Timer, start: nat)
    requires WellFormed(d) && CanRun(d, ops, t) && Tracked(d, t, start) && NoneEarly(d, t)
    requires !RoomThroughout(d, ops, t) && CanRun(Run(d, ops, t), more, t)
    ensures var d' := Run(d, ops, t);
      var d'' := Run(d', more, t);
      LogOf(d''.callbacks, t) == LogOf(d'.callbacks, t) && !Listed(d'', t) && Mine(d''.queue, t) == []
  {
    RunInStep(d, ops, t, start);
    RunInStep(Run(d, ops, t), more, t, start);
  }

  /** A start command for an idle timer that nobody else commands is where such a run begins. */
  lemma StartIsTracked(d: Daemon, t: Timer, start: nat)
    requires 0 < Get(d.period, t) < d.n && t in d.autoReload && LogOf(d.callbacks, t) == []
    requires !Listed(d, t) && Mine(d.queue, t) == [] && |d.queue| < d.room
    ensures Tracked(Post(d, Message(Start, start % d.n, t, start)), t, start)
  {
    MineAppend(d.queue, Message(Start, start % d.n, t, start), t);
  }

  /** The daemon may block: its queue is empty and its first timer not due. */
  ghost predicate MayBlock(d: Daemon) {
    d.queue == [] && (d.current != [] ==> d.lastTime < Get(d.value, d.current[0]))
  }

  /** Then every timer that is listed is listed for a time still to come. */
  lemma IdleListsAreAhead(d: Daemon, t: Timer)
    requires WellFormed(d) && Listed(d, t) && MayBlock(d)
    ensures Now(d) < DueOf(d, t)
  {
    if t in d.current {
      var i := IndexOf(d.current, t);
      assert Keys(d.current, d.value)[0] <= Keys(d.current, d.value)[i];
    }
  }

  /** So whenever the daemon may block, the timer is listed iff its commands found room, and then exactly the callbacks
      for the periods that have passed have run; without room it falls behind with the first expiry it misses. */
  lemma BlockedIsCaughtUp(d: Daemon, ops: seq<Op>, t: Timer, start: nat)
    requires WellFormed(d) && CanRun(d, ops, t) && Tracked(d, t, start) && LogOf(d.callbacks, t) == []
    requires start <= Now(Run(d, ops, t)) && MayBlock(Run(d, ops, t))
    ensures var d', p := Run(d, ops, t), Get(Run(d, ops, t).period, t);
      var log := LogOf(d'.callbacks, t);
      && 0 < p && (Listed(d', t) <==> RoomThroughout(d, ops, t))
      && (|log| == (Now(d') - start) / p <==> RoomThroughout(d, ops, t) || Now(d') < start + (|log| + 1) * p)
  {
    RunInStep(d, ops, t, start);
    var d', p := Run(d, ops, t), Get(Run(d, ops, t).period, t);
    if Listed(d', t) {
      IdleListsAreAhead(d', t);
    }
    CallbacksAreExact(d, ops, t, start);
    RunsSinceStart(LogOf(d'.callbacks, t), start, p, Now(d'));
  }
}
