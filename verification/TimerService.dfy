/** timers.c as code: the daemon's lists, item values and command queue updated in place, each method proved
    against the step function of Timers that specifies it. */
module TimerService {
  import opened Sequences
  import opened Ticks
  import opened Timers
  import opened TimerRuns

  // ---- prvProcessReceivedCommands, as a whole ----

  /** Every period is positive, as xTimerCreate and a period change assert. */
  ghost predicate PositivePeriods(d: Daemon) {
    && (forall t :: t in d.period ==> 0 < d.period[t])
    && (forall t :: t in d.autoReload ==> t in d.period)
    && (forall m :: m in d.queue && m.command.Start? ==> m.timer in d.period)
    && (forall m :: m in d.queue && m.command.ChangePeriod? ==> 0 < m.value)
  }

  /** How much a command can make the drain do: one turn for itself and, for a start command, at most one
      for every tick it is old. */
  ghost function WorkOf(m: Message, now: nat, n: nat): nat
    requires now < n && m.value < n
  {
    if m.command.Start? then 1 + WrapSub(now, m.value, n) else 1
  }

  ghost function Work(q: seq<Message>, now: nat, n: nat): nat
    requires now < n && forall m :: m in q ==> m.value < n
  {
    if q == [] then 0 else Work(q[..|q| - 1], now, n) + WorkOf(q[|q| - 1], now, n)
  }

  lemma WorkOfAppend(q: seq<Message>, m: Message, now: nat, n: nat)
    requires now < n && m.value < n && forall m :: m in q ==> m.value < n
    ensures Work(q + [m], now, n) == Work(q, now, n) + WorkOf(m, now, n)
  {
    assert (q + [m])[..|q|] == q;
  }

  lemma {:induction false} WorkOfRest(q: seq<Message>, now: nat, n: nat)
    requires q != [] && now < n && forall m :: m in q ==> m.value < n
    ensures forall m :: m in q[1..] ==> m.value < n
    ensures Work(q, now, n) == WorkOf(q[0], now, n) + Work(q[1..], now, n)
  {
    var front := q[..|q| - 1];
    if |q| > 1 {
      WorkOfRest(front, now, n);
      assert front[1..] == q[1..][..|q| - 2];
    }
  }

  ghost predicate Drainable(d: Daemon) {
    WellFormed(d) && PositivePeriods(d)
  }

  /** What a received command leaves in the queue: nothing new, or the command for the next period. */
  lemma ReceivedQueue(d: Daemon) returns (expiry: nat)
    requires Drainable(d) && d.queue != []
    ensures d.queue[0].value < d.n && Get(d.period, d.queue[0].timer) < d.n
    ensures expiry == WrapAdd(d.queue[0].value, Get(d.period, d.queue[0].timer), d.n)
    ensures var d', m := ReceiveCommand(d), d.queue[0];
      && d'.n == d.n && d'.lastTime == d.lastTime
      && (d'.queue == d.queue[1..] || (d'.queue == d.queue[1..] + [Message(Start, expiry, m.timer, m.at + Get(d.period, m.timer))]
            && m.command.Start? && WrapSub(d.lastTime, m.value, d.n) >= Get(d.period, m.timer) > 0))
      && d'.period == (if m.command.ChangePeriod? then d.period[m.timer := m.value] else d.period)
  {
    assert d.queue[0] in d.queue;
    expiry := WrapAdd(d.queue[0].value, Get(d.period, d.queue[0].timer), d.n);
    if d.queue[0].command.Start? {
      var d1, e := ReceiveStartForms(d);
      ProcessedIffAged(d.lastTime, d.queue[0].value, Get(d.period, d.queue[0].timer), d.n);
    }
  }

  /** The command for the next period is less work than the one it replaces. */
  lemma LessWork(q: seq<Message>, q': seq<Message>, next: Message, now: nat, n: nat)
    requires q != [] && now < n && (forall m :: m in q ==> m.value < n) && next.value < n
    requires q' == q[1..] || (q' == q[1..] + [next] && WorkOf(next, now, n) < WorkOf(q[0], now, n))
    ensures (forall m :: m in q' ==> m.value < n) && Work(q', now, n) < Work(q, now, n)
  {
    WorkOfRest(q, now, n);
    if q' != q[1..] {
      WorkOfAppend(q[1..], next, now, n);
    }
  }

  lemma ReceiveAdvances(d: Daemon)
    requires Drainable(d) && d.queue != []
    ensures d.queue[0].value < d.n && Drainable(ReceiveCommand(d))
    ensures ReceiveCommand(d).n == d.n && ReceiveCommand(d).lastTime == d.lastTime
    ensures Work(ReceiveCommand(d).queue, d.lastTime, d.n) < Work(d.queue, d.lastTime, d.n)
  {
    ReceiveKeepsWellFormed(d);
    ReceiveKeepsPositive(d);
    var m := d.queue[0];
    var expiry := ReceivedQueue(d);
    LessWork(d.queue, ReceiveCommand(d).queue, Message(Start, expiry, m.timer, m.at + Get(d.period, m.timer)), d.lastTime, d.n);
  }

  lemma ReceiveKeepsPositive(d: Daemon)
    requires Drainable(d) && d.queue != []
    ensures d.queue[0].value < d.n && PositivePeriods(ReceiveCommand(d))
  {
    assert d.queue[0] in d.queue;
    var expiry := ReceivedQueue(d);
    SameTimersReload(d);
  }

  lemma SameTimersReload(d: Daemon)
    requires Drainable(d) && d.queue != []
    ensures d.queue[0].value < d.n && ReceiveCommand(d).autoReload == d.autoReload
  {
    assert d.queue[0] in d.queue;
    var d1 := ReceiveForms(d);
  }

  /** The drain ends, even though it sends commands to the queue it empties: each is a period younger. */
  ghost function Drain(d: Daemon): (r: Daemon)
    requires Drainable(d)
    ensures Drainable(r) && r.queue == []
    decreases Work(d.queue, d.lastTime, d.n)
  {
    if d.queue == [] then d
    else
      ReceiveAdvances(d);
      Drain(ReceiveCommand(d))
  }

  /** Commands that other tasks may send: of known timers, with periods as xTimerCreate and a period change assert. */
  ghost predicate MaySend(d: Daemon, m: Message) {
    m.value < d.n && (m.command.Start? ==> m.timer in d.period) && (m.command.ChangePeriod? ==> 0 < m.value)
  }

  ghost predicate MaySendAll(d: Daemon, posts: seq<seq<Message>>) {
    forall i, m :: 0 <= i < |posts| && m in posts[i] ==> MaySend(d, m)
  }

  function PostAll(d: Daemon, ms: seq<Message>): Daemon
    decreases |ms|
  {
    if ms == [] then d else PostAll(Post(d, ms[0]), ms[1..])
  }

  lemma {:induction false} PostsKeepDrainable(d: Daemon, ms: seq<Message>)
    requires Drainable(d) && (forall m :: m in ms ==> MaySend(d, m))
    ensures Drainable(PostAll(d, ms)) && PostAll(d, ms).period == d.period && PostAll(d, ms).n == d.n
    decreases |ms|
  {
    if ms != [] {
      assert MaySend(d, ms[0]);
      PostKeepsWellFormed(d, ms[0]);
      assert PositivePeriods(Post(d, ms[0]));
      assert forall m :: m in ms[1..] ==> MaySend(d, m);
      PostsKeepDrainable(Post(d, ms[0]), ms[1..]);
    }
  }

  lemma ReceiveKeepsTimers(d: Daemon, posts: seq<seq<Message>>)
    requires Drainable(d) && d.queue != [] && MaySendAll(d, posts)
    ensures d.queue[0].value < d.n && MaySendAll(ReceiveCommand(d), posts)
  {
    var expiry := ReceivedQueue(d);
    forall i, m | 0 <= i < |posts| && m in posts[i] ensures MaySend(ReceiveCommand(d), m) {
      assert MaySend(d, m);
    }
  }

  lemma RestMaySend(d: Daemon, d1: Daemon, posts: seq<seq<Message>>)
    requires posts != [] && MaySendAll(d, posts) && d1.period == d.period && d1.n == d.n
    ensures (forall m :: m in posts[0] ==> MaySend(d, m)) && MaySendAll(d1, posts[1..])
  {
    forall i, m | 0 <= i < |posts[1..]| && m in posts[1..][i] ensures MaySend(d1, m) {
      assert m in posts[i + 1] && MaySend(d, m);
    }
  }

  /** The drain with what other tasks send before each of its turns; it ends when it finds the queue empty. */
  ghost function DrainWith(d: Daemon, posts: seq<seq<Message>>): (r: Daemon)
    requires Drainable(d) && MaySendAll(d, posts)
    ensures Drainable(r) && r.queue == []
    decreases |posts|, Work(d.queue, d.lastTime, d.n)
  {
    if posts == [] then Drain(d)
    else
      RestMaySend(d, d, posts);
      PostsKeepDrainable(d, posts[0]);
      var d1 := PostAll(d, posts[0]);
      if d1.queue == [] then d1
      else
        ReceiveAdvances(d1);
        RestMaySend(d, d1, posts);
        ReceiveKeepsTimers(d1, posts[1..]);
        DrainWith(ReceiveCommand(d1), posts[1..])
  }

  lemma {:induction false} FlushKeepsPositive(d: Daemon)
    requires Drainable(d)
    ensures PositivePeriods(Flush(d))
    decreases Shortfall(d.current, d.value, d.n)
  {
    if d.current != [] {
      FlushHeadAdvances(d);
      FlushHeadKeepsWellFormed(d);
      FlushKeepsPositive(FlushHead(d));
    }
  }

  lemma {:induction false} FlushKeepsPeriods(d: Daemon)
    requires Flushable(d)
    ensures Flush(d).period == d.period && Flush(d).n == d.n
    decreases Shortfall(d.current, d.value, d.n)
  {
    if d.current != [] {
      FlushHeadAdvances(d);
      FlushKeepsPeriods(FlushHead(d));
    }
  }

  lemma SampleKeepsDrainable(d: Daemon, now: nat)
    requires Drainable(d)
    ensures Drainable(Sample(d, now)) && Sample(d, now).period == d.period && Sample(d, now).n == d.n
  {
    SampleKeepsWellFormed(d, now);
    if now % d.n < d.lastTime {
      FlushKeepsPositive(d);
      FlushKeepsPeriods(d);
    }
  }

  lemma EnlistedIsDrainable(d: Daemon, t: Timer, expiry: nat, command: nat)
    requires Drainable(d) && !Listed(d, t) && expiry < d.n && command < d.n
    ensures Drainable(Enlist(d, t, expiry, command))
  {
    var d' := EnlistKeepsWellFormed(d, t, expiry, command);
  }

  lemma OthersIgnore(d: Daemon)
    requires Drainable(d) && d.queue != []
    ensures d.queue[0].value < d.n && Get(d.period, d.queue[0].timer) < d.n
    ensures forall t :: t != d.queue[0].timer ==> Ignores(d, ReceiveCommand(d), t)
  {
    assert d.queue[0] in d.queue;
    forall t | t != d.queue[0].timer ensures Ignores(d, ReceiveCommand(d), t) {
      var d' := ReceiveOther(d, t);
    }
  }

  // ---- The daemon ----

  class Service {
    const n: Period
    const room: nat
    var current: seq<Timer>
    var overflow: seq<Timer>
    var value: map<Timer, nat>
    var period: map<Timer, nat>
    var autoReload: set<Timer>
    var lastTime: nat
    var queue: seq<Message>
    var epoch: nat                    // not in the code: what the wrapped times are relative to
    var callbacks: seq<Callback>      // the calls made, in order

    ghost function State(): Daemon
      reads this
    {
      Daemon(n, current, overflow, value, period, autoReload, lastTime, epoch, queue, room, callbacks)
    }

    /** The lists are in time order, every listed value and queued time is below the period, and all that can reload or
        be started has a period. */
    ghost predicate Valid()
      reads this
    {
      Drainable(State())
    }

    method Send(m: Message) returns (sent: bool)
      modifies `queue
      ensures State() == Post(old(State()), m) && (sent <==> old(|queue|) < room)
    {
      sent := |queue| < room;
      if sent {
        queue := queue + [m];
      }
    }

    /** xTimerGenericCommand, without blocking: the command goes behind those there are for its timer, or a full queue
        loses it. */
    method GenericCommand(m: Message) returns (sent: bool)
      requires Valid() && MaySend(State(), m)
      modifies `queue
      ensures Valid() && (sent <==> old(|queue|) < room)
      ensures Mine(queue, m.timer) == old(Mine(queue, m.timer)) + if sent then [m] else []
      ensures forall t :: t != m.timer ==> Mine(queue, t) == old(Mine(queue, t))
    {
      ghost var q := queue;
      sent := Send(m);
      forall t ensures Mine(q + [m], t) == Mine(q, t) + if m.timer == t then [m] else [] {
        MineAppend(q, m, t);
      }
    }

    method CallBack(t: Timer, due: nat)
      modifies `callbacks
      ensures State() == Fire(old(State()), t, due)
    {
      callbacks := callbacks + [Callback(t, due)];
    }

    method Insert(t: Timer, expiry: nat, command: nat) returns (processNow: bool)
      requires lastTime < n && command < n
      modifies `value, `current, `overflow
      ensures State() == Enlist(old(State()), t, expiry, command)
      ensures processNow <==> PlaceOf(old(State()), t, expiry, command).ProcessNow?
    {
      value := value[t := expiry];
      processNow := false;
      if expiry <= lastTime {
        if WrapSub(lastTime, command, n) >= Get(period, t) {
          processNow := true;
        } else {
          overflow := InsertSorted(overflow, t, value);
        }
      } else if lastTime < command && expiry >= command {
        processNow := true;
      } else {
        current := InsertSorted(current, t, value);
      }
    }

    /** prvInsertTimerInActiveList, for a command given at unwrapped time `at`, not in the future and less than a wrap
        ago: the timer is due now or listed for exactly a period after it. */
    method InsertTimerInActiveList(t: Timer, expiry: nat, command: nat, ghost at: nat) returns (processNow: bool)
      requires Valid() && !Listed(State(), t) && 0 < Get(period, t) < n
      requires at <= Now(State()) < at + n && command == at % n && expiry == WrapAdd(command, Get(period, t), n)
      modifies `value, `current, `overflow
      ensures Valid() && (processNow <==> at + Get(period, t) <= Now(State()))
      ensures if processNow then !Listed(State(), t) else Listed(State(), t) && DueOf(State(), t) == at + Get(period, t)
    {
      ghost var d := State();
      EnlistedIsDrainable(d, t, expiry, command);
      ghost var d', now := EnlistedAt(d, t, at, command);
      processNow := Insert(t, expiry, command);
    }

    method FlushFirst()
      requires current != [] && Get(value, current[0]) < n && Get(period, current[0]) < n
      modifies `current, `value, `queue, `callbacks
      ensures State() == FlushHead(old(State()))
    {
      var t := current[0];
      var v := Get(value, t);
      current := current[1..];
      CallBack(t, epoch + v);
      if t in autoReload {
        var reload := WrapAdd(v, Get(period, t), n);
        if reload > v {
          value := value[t := reload];
          current := InsertSorted(current, t, value);
        } else {
          var sent := Send(Message(Start, v, t, epoch + v));
        }
      }
    }

    /** The body of the loop of prvSwitchTimerLists: the callback of the first timer runs, for the time it was listed
        for, and the list comes nearer to the end of the epoch. */
    method ExpireHead()
      requires current != [] && Flushable(State())
      modifies `current, `value, `queue, `callbacks
      ensures State() == FlushHead(old(State()))
      ensures Flushable(State()) && Shortfall(current, value, n) < old(Shortfall(current, value, n))
      ensures var t := old(current[0]); LogOf(callbacks, t) == old(LogOf(callbacks, t)) + [epoch + old(Get(value, current[0]))]
    {
      FlushHeadAdvances(State());
      LogOfAppend(callbacks, Callback(current[0], epoch + Get(value, current[0])), current[0]);
      ghost var f, v, reload := FlushHeadForms(State());
      FlushFirst();
    }

    /** prvSwitchTimerLists */
    method SwitchTimerLists()
      requires Flushable(State())
      modifies `current, `overflow, `value, `queue, `callbacks, `epoch
      ensures State() == Switched(old(State()))
    {
      ghost var goal := Flush(State());
      while current != []
        invariant Flushable(State()) && Flush(State()) == goal && epoch == old(epoch)
        decreases Shortfall(current, value, n)
      {
        FlushHeadAdvances(State());
        ExpireHead();
      }
      current, overflow := overflow, current;
      epoch := epoch + n;
    }

    /** prvSampleTimeNow, with the tick count it reads. */
    method SampleTimeNow(ghost now: nat, tick: nat) returns (switched: bool)
      requires tick == now % n && Flushable(State())
      modifies `current, `overflow, `value, `queue, `callbacks, `epoch, `lastTime
      ensures State() == Sample(old(State()), now) && (switched <==> tick < old(lastTime))
    {
      switched := tick < lastTime;
      if switched {
        SwitchTimerLists();
      }
      lastTime := tick;
    }

    method Expire()
      requires current != [] && lastTime < n && Get(value, current[0]) < n && Get(period, current[0]) < n
      modifies `current, `overflow, `value, `queue, `callbacks
      ensures State() == ProcessExpired(old(State()))
    {
      var t := current[0];
      var v := Get(value, t);
      current := current[1..];
      if t in autoReload {
        var processNow := Insert(t, WrapAdd(v, Get(period, t), n), v);
        if processNow {
          var sent := Send(Message(Start, v, t, epoch + v));
        }
      }
      CallBack(t, epoch + v);
    }

    /** prvProcessExpiredTimer: the callback of the first timer runs, for the time it was listed for. */
    method ProcessExpiredTimer()
      requires WellFormed(State()) && current != []
      modifies `current, `overflow, `value, `queue, `callbacks
      ensures State() == ProcessExpired(old(State())) && WellFormed(State())
      ensures var t := old(current[0]); LogOf(callbacks, t) == old(LogOf(callbacks, t)) + [old(DueOf(State(), current[0]))]
    {
      HeadIsBelow(State());
      ProcessKeepsWellFormed(State());
      ghost var d1, v, expiry := ProcessForms(State());
      LogOfAppend(callbacks, Callback(current[0], epoch + v), current[0]);
      Expire();
    }

    /** The start command of prvProcessReceivedCommands, for a timer already unlinked. */
    method StartTimer(m: Message)
      requires lastTime < n && m.value < n && Get(period, m.timer) < n
      modifies `current, `overflow, `value, `queue, `callbacks
      ensures State() == old(StartReceived(State(), m))
    {
      var expiry := WrapAdd(m.value, Get(period, m.timer), n);
      var processNow := Insert(m.timer, expiry, m.value);
      if processNow {
        CallBack(m.timer, m.at + Get(period, m.timer));
        if m.timer in autoReload {
          var sent := Send(Message(Start, expiry, m.timer, m.at + Get(period, m.timer)));
        }
      }
    }

    method Obey()
      requires queue != [] && lastTime < n && queue[0].value < n && Get(period, queue[0].timer) < n
      modifies `current, `overflow, `value, `period, `queue, `callbacks
      ensures State() == ReceiveCommand(old(State()))
    {
      var m := queue[0];
      queue := queue[1..];
      current, overflow := Drop(current, m.timer), Drop(overflow, m.timer);
      match m.command
      case Start => StartTimer(m);
      case Stop =>
      case ChangePeriod =>
        period := period[m.timer := m.value];
        var processNow := Insert(m.timer, WrapAdd(lastTime, m.value, n), lastTime);
      case Delete =>
    }

    /** The body of the loop of prvProcessReceivedCommands: there is less left to do in the queue, and no other timer
        has noticed. */
    method ProcessCommand()
      requires Valid() && queue != []
      modifies `current, `overflow, `value, `period, `queue, `callbacks
      ensures old(queue[0].value < n) && State() == ReceiveCommand(old(State()))
      ensures Valid() && lastTime == old(lastTime) && Work(queue, lastTime, n) < old(Work(queue, lastTime, n))
      ensures forall t :: t != old(queue[0].timer) ==> Ignores(old(State()), State(), t)
    {
      ReceiveAdvances(State());
      OthersIgnore(State());
      assert queue[0] in queue;
      Obey();
    }

    /** What other tasks send. */
    method Receive(ms: seq<Message>)
      modifies `queue
      ensures State() == PostAll(old(State()), ms)
    {
      var i := 0;
      while i < |ms|
        invariant 0 <= i <= |ms| && PostAll(State(), ms[i..]) == PostAll(old(State()), ms)
      {
        var sent := Send(ms[i]);
        assert ms[i..][1..] == ms[i + 1..];
        i := i + 1;
      }
    }

    /** prvProcessReceivedCommands: one time sample, then the queue against it until it is found empty, whatever other
        tasks send meanwhile. */
    method ProcessReceivedCommands(ghost now: nat, tick: nat, posts: seq<seq<Message>>)
      requires tick == now % n && Drainable(State()) && MaySendAll(State(), posts)
      modifies this
      ensures old(Drainable(Sample(State(), now)) && MaySendAll(Sample(State(), now), posts))
      ensures State() == old(DrainWith(Sample(State(), now), posts)) && Drainable(State()) && queue == []
    {
      SampleKeepsDrainable(State(), now);
      assert MaySendAll(Sample(State(), now), posts) by {
        forall i, m | 0 <= i < |posts| && m in posts[i] ensures MaySend(Sample(State(), now), m) {
          assert MaySend(State(), m);
        }
      }
      var switched := SampleTimeNow(now, tick);
      ghost var goal := DrainWith(State(), posts);
      var i, done := 0, false;
      while !done
        invariant 0 <= i <= |posts| && Drainable(State()) && MaySendAll(State(), posts[i..])
        invariant if done then State() == goal else DrainWith(State(), posts[i..]) == goal
        decreases !done, |posts| - i, Work(queue, lastTime, n)
      {
        var more := if i < |posts| then posts[i] else [];
        done := Turn(more, posts[i..]);
        i := if i < |posts| then i + 1 else i;
      }
    }

    /** One turn of its loop, after other tasks have sent `more`. */
    method Turn(more: seq<Message>, ghost posts: seq<seq<Message>>) returns (done: bool)
      requires Drainable(State()) && MaySendAll(State(), posts) && more == if posts == [] then [] else posts[0]
      modifies this
      ensures Drainable(State()) && lastTime == old(lastTime)
      ensures MaySendAll(State(), if posts == [] then [] else posts[1..])
      ensures if done then State() == old(DrainWith(State(), posts))
        else DrainWith(State(), if posts == [] then [] else posts[1..]) == old(DrainWith(State(), posts))
      ensures !done && posts == [] ==> Work(queue, lastTime, n) < old(Work(queue, lastTime, n))
    {
      ghost var d := State();
      if posts != [] {
        RestMaySend(d, d, posts);
      }
      PostsKeepDrainable(d, more);
      Receive(more);
      if posts != [] {
        RestMaySend(d, State(), posts);
      }
      done := queue == [];
      if !done {
        ReceiveAdvances(State());
        ReceiveKeepsTimers(State(), if posts == [] then [] else posts[1..]);
        assert queue[0] in queue;
        ProcessCommand();
      }
    }

    /** prvGetNextExpireTime: the earliest expiry listed for this epoch, or the wrap. */
    method GetNextExpireTime() returns (next: nat, listWasEmpty: bool)
      requires WellFormed(State())
      ensures listWasEmpty <==> current == []
      ensures if listWasEmpty then next == 0 else next < n && next == Get(value, current[0]) && forall t :: t in current ==> next <= Get(value, t)
    {
      listWasEmpty, next := current == [], 0;
      if !listWasEmpty {
        assert current[0] in current;
        next := Get(value, current[0]);
        forall t | t in current ensures next <= Get(value, t) {
          var i := IndexOf(current, t);
          assert Keys(current, value)[0] <= Keys(current, value)[i];
        }
      }
    }

    /** prvProcessTimerOrBlockTask, with what prvGetNextExpireTime just said. The daemon processes the head timer if it
        is due, and otherwise blocks exactly until it is, or until the counter wraps if no timer is listed before. */
    method ProcessTimerOrBlock(ghost now: nat, tick: nat, next: nat, listWasEmpty: bool) returns (block: Option<nat>)
      requires tick == now % n && WellFormed(State()) && Now(State()) <= now < Now(State()) + n
      requires (listWasEmpty <==> current == []) && next == (if listWasEmpty then 0 else Get(value, current[0]))
      modifies this
      ensures var d := old(State());
        if tick < d.lastTime then State() == Sample(d, now) && block.None?
        else if d.current != [] && next <= tick then
          && Sample(d, now) == d.(lastTime := tick) && next < n && Get(d.period, d.current[0]) < n
          && State() == ProcessExpired(d.(lastTime := tick)) && block.None?
        else
          && State() == Sample(d, now) && block.Some? && block.value < n
          && if d.current != [] then now + block.value == DueOf(d, d.current[0]) else now + block.value == WrapAfter(now, n)
    {
      SampledNow(State(), now);
      HeadIsBelow(State());
      var switched := SampleTimeNow(now, tick);
      block := None;
      if !switched {
        if !listWasEmpty && next <= tick {
          Expire();
        } else {
          block := Some(WrapSub(next, tick, n));
        }
      }
    }
  }

  /** The first time not before `now` at which the tick counter is zero. */
  function WrapAfter(now: nat, n: Period): nat {
    if now % n == 0 then now else now - now % n + n
  }

  lemma HeadIsBelow(d: Daemon)
    requires WellFormed(d)
    ensures d.current != [] ==> d.current[0] !in d.overflow && Get(d.value, d.current[0]) < d.n && Get(d.period, d.current[0]) < d.n
  {
    assert d.current != [] ==> d.current[0] in d.current;
  }
}
