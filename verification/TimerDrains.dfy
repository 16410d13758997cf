/** timers.c: a pass of prvProcessReceivedCommands is a run of the daemon, made of what other tasks send meanwhile and of
    receiving one command after the other. So what is proved of runs holds of it. */
module TimerDrains {
  import opened Sequences
  import opened Ticks
  import opened Timers
  import opened TimerRuns
  import opened OneShot
  import opened TimerService

  // ---- Runs, whichever the timer ----

  ghost predicate CanDo(d: Daemon, ops: seq<Op>)
    requires WellFormed(d)
    decreases |ops|
  {
    ops == [] || (Allowed(d, ops[0]) && (StepKeepsWellFormed(d, ops[0]); CanDo(Step(d, ops[0]), ops[1..])))
  }

  ghost function Done(d: Daemon, ops: seq<Op>): (d': Daemon)
    requires WellFormed(d) && CanDo(d, ops)
    ensures WellFormed(d')
    decreases |ops|
  {
    if ops == [] then d else StepKeepsWellFormed(d, ops[0]); Done(Step(d, ops[0]), ops[1..])
  }

  lemma First(d: Daemon, op: Op, d': Daemon, rest: seq<Op>)
    requires WellFormed(d) && Allowed(d, op) && d' == Step(d, op) && WellFormed(d')
    requires CanDo(d', rest)
    ensures CanDo(d, [op] + rest) && Done(d, [op] + rest) == Done(d', rest)
  {
    assert ([op] + rest)[1..] == rest;
  }

  /** Other tasks send and the daemon receives, and nothing else happens. */
  predicate Drains(ops: seq<Op>) {
    forall i :: 0 <= i < |ops| ==> ops[i].PostCommand? || ops[i] == ReceiveNext(false)
  }

  /** What is sent in a run, in order. */
  function SentIn(ops: seq<Op>): seq<Message> {
    if ops == [] then [] else (if ops[0].PostCommand? then [ops[0].m] else []) + SentIn(ops[1..])
  }

  function Concat(posts: seq<seq<Message>>): seq<Message> {
    if posts == [] then [] else posts[0] + Concat(posts[1..])
  }

  // ---- A drain is such a run ----

  lemma FirstDrains(op: Op, rest: seq<Op>)
    requires (op.PostCommand? || op == ReceiveNext(false)) && Drains(rest)
    ensures Drains([op] + rest) && SentIn([op] + rest) == (if op.PostCommand? then [op.m] else []) + SentIn(rest)
  {
    assert ([op] + rest)[1..] == rest;
  }

  /** What a run of sends and receives leaves, and what was sent in it. */
  ghost predicate Leads(d: Daemon, ops: seq<Op>, d': Daemon, sent: seq<Message>) {
    WellFormed(d) && CanDo(d, ops) && Done(d, ops) == d' && Drains(ops) && SentIn(ops) == sent
  }

  lemma Receives(d: Daemon, rest: seq<Op>, d': Daemon, sent: seq<Message>) returns (ops: seq<Op>)
    requires Drainable(d) && d.queue != [] && d.queue[0].value < d.n && Get(d.period, d.queue[0].timer) < d.n
    requires Leads(ReceiveCommand(d), rest, d', sent)
    ensures ops == [ReceiveNext(false)] + rest && Leads(d, ops, d', sent)
  {
    ops := [ReceiveNext(false)] + rest;
    First(d, ReceiveNext(false), ReceiveCommand(d), rest);
    FirstDrains(ReceiveNext(false), rest);
    assert [] + sent == sent;
  }

  lemma Sends(d: Daemon, m: Message, rest: seq<Op>, d': Daemon, sent: seq<Message>) returns (ops: seq<Op>)
    requires WellFormed(d) && m.value < d.n
    requires Leads(Post(d, m), rest, d', sent)
    ensures ops == [PostCommand(m)] + rest && Leads(d, ops, d', [m] + sent)
  {
    ops := [PostCommand(m)] + rest;
    First(d, PostCommand(m), Post(d, m), rest);
    FirstDrains(PostCommand(m), rest);
  }

  lemma Regrouped<T>(s: seq<T>, rest: seq<T>)
    requires s != []
    ensures [s[0]] + (s[1..] + rest) == s + rest
  {
  }

  lemma PostsOneByOne(d: Daemon, ms: seq<Message>)
    requires WellFormed(d) && ms != [] && ms[0].value < d.n
    ensures PostAll(d, ms) == PostAll(Post(d, ms[0]), ms[1..]) && WellFormed(Post(d, ms[0])) && Post(d, ms[0]).n == d.n
  {
    PostKeepsWellFormed(d, ms[0]);
  }

  predicate Below(ms: seq<Message>, n: nat) {
    forall i :: 0 <= i < |ms| ==> ms[i].value < n
  }

  lemma {:induction false} SendsAll(d: Daemon, ms: seq<Message>, rest: seq<Op>, d': Daemon, sent: seq<Message>) returns (ops: seq<Op>)
    requires WellFormed(d) && Below(ms, d.n)
    requires Leads(PostAll(d, ms), rest, d', sent)
    ensures Leads(d, ops, d', ms + sent)
    decreases |ms|
  {
    if ms == [] {
      ops := rest;
      assert ms + sent == sent;
    } else {
      PostsOneByOne(d, ms);
      var later := SendsAll(Post(d, ms[0]), ms[1..], rest, d', sent);
      ops := Sends(d, ms[0], later, d', ms[1..] + sent);
      Regrouped(ms, sent);
    }
  }

  lemma NothingLeads(d: Daemon)
    requires WellFormed(d)
    ensures Leads(d, [], d, [])
  {
  }

  /** Draining is receiving until the queue is empty. */
  lemma {:induction false} DrainIsRun(d: Daemon) returns (ops: seq<Op>)
    requires Drainable(d)
    ensures Leads(d, ops, Drain(d), [])
    decreases Work(d.queue, d.lastTime, d.n)
  {
    if d.queue == [] {
      ops := [];
      NothingLeads(d);
    } else {
      ReceiveAdvances(d);
      var rest := DrainIsRun(ReceiveCommand(d));
      ops := Receives(d, rest, Drain(d), []);
    }
  }

  /** With other tasks sending meanwhile it is that and what they send, in order, as far as they get before it ends. */
  lemma {:induction false} DrainWithIsRun(d: Daemon, posts: seq<seq<Message>>) returns (ops: seq<Op>, sent: seq<Message>)
    requires Drainable(d) && MaySendAll(d, posts)
    ensures Leads(d, ops, DrainWith(d, posts), sent) && sent <= Concat(posts)
    decreases |posts|
  {
    if posts == [] {
      ops := DrainIsRun(d);
      sent := [];
    } else {
      var d1 := PostAll(d, posts[0]);
      RestMaySend(d, d, posts);
      PostsKeepDrainable(d, posts[0]);
      var rest, later := [], [];
      if d1.queue == [] {
        NothingLeads(d1);
      } else {
        ReceiveAdvances(d1);
        RestMaySend(d, d1, posts);
        ReceiveKeepsTimers(d1, posts[1..]);
        rest, later := DrainWithIsRun(ReceiveCommand(d1), posts[1..]);
        rest := Receives(d1, rest, DrainWith(d, posts), later);
      }
      assert forall i :: 0 <= i < |posts[0]| ==> MaySend(d, posts[0][i]);
      ops := SendsAll(d, posts[0], rest, DrainWith(d, posts), later);
      sent := posts[0] + later;
    }
  }

  // ---- What it does with a timer ----

  /** Nobody sends a command for `t` in the run. */
  predicate Spares(ops: seq<Op>, t: Timer) {
    forall i :: 0 <= i < |ops| && ops[i].PostCommand? ==> ops[i].m.timer != t
  }

  /** The queued commands for `t` are not of the future, and less than a wrap old. */
  ghost predicate Timely(d: Daemon, t: Timer) {
    forall i :: 0 <= i < |Mine(d.queue, t)| ==> Mine(d.queue, t)[i].at <= Now(d) < Mine(d.queue, t)[i].at + d.n
  }

  lemma HeadIsTimely(d: Daemon, t: Timer)
    requires Timely(d, t) && d.queue != [] && d.queue[0].timer == t
    ensures d.queue[0].at <= Now(d) < d.queue[0].at + d.n
  {
    MinePop(d.queue, t);
    assert Mine(d.queue, t)[0] == d.queue[0];
  }

  /** The last callback ran no earlier than the one before. */
  lemma LastGrows(log: seq<nat>, log': seq<nat>, start: nat, p: nat)
    requires Chained(log, start, p) && Chained(log', start, p) && log <= log'
    ensures Last(log, start) <= Last(log', start)
  {
    ChainIsArithmetic(log, start, p);
    ChainIsArithmetic(log', start, p);
    assert |log| * p <= |log'| * p;
  }

  lemma OwnCommandStaysTimely(d: Daemon, d': Daemon, t: Timer, start: nat)
    requires Tracked(d, t, start) && InStep(d', t, start) && LogsUpTo(d, d', t, Now(d))
    requires Now(d') == Now(d) && d'.n == d.n && Get(d'.period, t) == Get(d.period, t)
    requires Last(LogOf(d.callbacks, t), start) <= Now(d) < Last(LogOf(d.callbacks, t), start) + d.n
    ensures Timely(d', t)
  {
    var log, log' := LogOf(d.callbacks, t), LogOf(d'.callbacks, t);
    LastGrows(log, log', start, Get(d.period, t));
    if |log'| > |log| {
      assert log'[|log'| - 1] <= Now(d);
    } else {
      assert log' == log;
    }
  }

  lemma StartFrame(d: Daemon)
    requires WellFormed(d) && d.queue != [] && d.queue[0].command.Start?
    ensures d.queue[0].value < d.n && ReceiveCommand(d).period == d.period && ReceiveCommand(d).n == d.n
    ensures Now(ReceiveCommand(d)) == Now(d)
  {
    assert d.queue[0] in d.queue;
    var d1, expiry := ReceiveStartForms(d);
  }

  lemma OtherStaysTimely(d: Daemon, op: Op, t: Timer)
    requires WellFormed(d) && Allowed(d, op) && Timely(d, t)
    requires (op.PostCommand? && op.m.timer != t) || (op == ReceiveNext(false) && d.queue[0].timer != t)
    ensures LeavesTo(d, op, t) && Timely(Step(d, op), t)
  {
    StepClock(d, op);
    if op.PostCommand? {
      PostOther(d, op.m, t);
    } else {
      var d' := ReceivedOther(d, t, false);
      ReceiveClock(d);
    }
  }

  lemma OwnStaysTimely(d: Daemon, t: Timer, start: nat)
    requires WellFormed(d) && Tracked(d, t, start) && Timely(d, t) && d.queue != [] && d.queue[0].timer == t
    ensures LeavesTo(d, ReceiveNext(false), t) && Timely(Step(d, ReceiveNext(false)), t)
  {
    var h, at := OwnCommand(d, t, start);
    HeadIsTimely(d, t);
    StartFrame(d);
    StepInStep(d, ReceiveNext(false), t, start);
    OwnCommandStaysTimely(d, Step(d, ReceiveNext(false)), t, start);
  }

  lemma DrainStepStaysTimely(d: Daemon, op: Op, t: Timer, start: nat)
    requires WellFormed(d) && InStep(d, t, start) && Allowed(d, op) && Timely(d, t)
    requires Drains([op]) && Spares([op], t)
    ensures LeavesTo(d, op, t) && Timely(Step(d, op), t) && InStep(Step(d, op), t, start)
  {
    assert [op][0] == op;
    if op == ReceiveNext(false) && d.queue[0].timer == t {
      if Dropped(d, t, start) {
        DroppedHasNoCommand(d, t, start);
      }
      OwnStaysTimely(d, t, start);
    } else {
      OtherStaysTimely(d, op, t);
    }
    StepInStep(d, op, t, start);
  }

  lemma TailOf(ops: seq<Op>, t: Timer)
    requires ops != [] && Drains(ops) && Spares(ops, t)
    ensures Drains([ops[0]]) && Spares([ops[0]], t) && Drains(ops[1..]) && Spares(ops[1..], t)
  {
  }

  /** So a drain is a run for the sake of an auto-reload timer, if its queued command is timely and nobody else commands
      it meanwhile; CallbacksAreExact and GoesOnIffRoom hold of it. */
  lemma {:induction false} DrainLeavesTo(d: Daemon, ops: seq<Op>, t: Timer, start: nat)
    requires WellFormed(d) && InStep(d, t, start) && Timely(d, t)
    requires CanDo(d, ops) && Drains(ops) && Spares(ops, t)
    ensures CanRun(d, ops, t) && Run(d, ops, t) == Done(d, ops)
    decreases |ops|
  {
    if ops != [] {
      TailOf(ops, t);
      StepKeepsWellFormed(d, ops[0]);
      DrainStepStaysTimely(d, ops[0], t, start);
      DrainLeavesTo(Step(d, ops[0]), ops[1..], t, start);
    }
  }

  lemma DrainStepStaysTimelyOnce(d: Daemon, op: Op, t: Timer, start: nat)
    requires WellFormed(d) && Once(d, t, start) && Allowed(d, op) && Timely(d, t)
    requires Drains([op]) && Spares([op], t)
    ensures LeavesTo(d, op, t) && Timely(Step(d, op), t) && Once(Step(d, op), t, start)
  {
    assert [op][0] == op;
    if op == ReceiveNext(false) && d.queue[0].timer == t {
      HeadIsTimely(d, t);
      OnlyCommandIsTaken(d, t, start);
    } else {
      OtherStaysTimely(d, op, t);
    }
    StepOnce(d, op, t, start);
  }

  lemma OnlyCommandIsTaken(d: Daemon, t: Timer, start: nat)
    requires WellFormed(d) && Once(d, t, start) && d.queue != [] && d.queue[0].timer == t
    requires d.queue[0].at <= Now(d) < d.queue[0].at + d.n
    ensures d.queue[0].value < d.n && Mine(ReceiveCommand(d).queue, t) == []
  {
    var h := OnlyCommand(d, t, start);
    var d2, now := EnlistedAt(h, t, start, start % d.n);
    var d1, expiry := ReceiveStartForms(d);
  }

  /** And for the sake of a one-shot timer, so FiresExactlyOnce does. */
  lemma {:induction false} DrainLeavesToOnce(d: Daemon, ops: seq<Op>, t: Timer, start: nat)
    requires WellFormed(d) && Once(d, t, start) && Timely(d, t)
    requires CanDo(d, ops) && Drains(ops) && Spares(ops, t)
    ensures CanRun(d, ops, t) && Run(d, ops, t) == Done(d, ops)
    decreases |ops|
  {
    if ops != [] {
      TailOf(ops, t);
      StepKeepsWellFormed(d, ops[0]);
      DrainStepStaysTimelyOnce(d, ops[0], t, start);
      DrainLeavesToOnce(Step(d, ops[0]), ops[1..], t, start);
    }
  }

  predicate SparesAll(ms: seq<Message>, t: Timer) {
    forall i :: 0 <= i < |ms| ==> ms[i].timer != t
  }

  lemma {:induction false} SentSpares(ops: seq<Op>, t: Timer)
    requires SparesAll(SentIn(ops), t)
    ensures Spares(ops, t)
  {
    if ops != [] {
      var head := if ops[0].PostCommand? then [ops[0].m] else [];
      assert SentIn(ops) == head + SentIn(ops[1..]);
      assert forall i :: 0 <= i < |SentIn(ops[1..])| ==> SentIn(ops[1..])[i] == SentIn(ops)[|head| + i];
      assert ops[0].PostCommand? ==> SentIn(ops)[0] == ops[0].m;
      SentSpares(ops[1..], t);
      assert forall i :: 0 < i < |ops| ==> ops[i] == ops[1..][i - 1];
    }
  }

  lemma SampleMaySend(d: Daemon, now: nat, posts: seq<seq<Message>>)
    requires Drainable(d) && MaySendAll(d, posts)
    ensures Drainable(Sample(d, now)) && MaySendAll(Sample(d, now), posts)
  {
    SampleKeepsDrainable(d, now);
    forall i, m | 0 <= i < |posts| && m in posts[i] ensures MaySend(Sample(d, now), m) {
      assert MaySend(d, m);
    }
  }

  /** prvProcessReceivedCommands, sample and all, is a run for the sake of any timer in step that nobody else commands
      meanwhile. */
  lemma ProcessingIsRun(d: Daemon, now: nat, posts: seq<seq<Message>>, t: Timer, start: nat) returns (ops: seq<Op>)
    requires Drainable(d) && Allowed(d, SampleTime(now)) && MaySendAll(d, posts)
    requires InStep(d, t, start) && Timely(Sample(d, now), t) && SparesAll(Concat(posts), t)
    ensures ops != [] && ops[0] == SampleTime(now) && Drains(ops[1..]) && SentIn(ops[1..]) <= Concat(posts)
    ensures Drainable(Sample(d, now)) && MaySendAll(Sample(d, now), posts)
    ensures CanRun(d, ops, t) && Run(d, ops, t) == DrainWith(Sample(d, now), posts)
  {
    var d1 := Sample(d, now);
    SampleMaySend(d, now, posts);
    var rest, sent := DrainWithIsRun(d1, posts);
    SentSpares(rest, t);
    StepInStep(d, SampleTime(now), t, start);
    DrainLeavesTo(d1, rest, t, start);
    ops := [SampleTime(now)] + rest;
    assert ops[1..] == rest;
  }

  lemma ProcessingIsRunOnce(d: Daemon, now: nat, posts: seq<seq<Message>>, t: Timer, start: nat) returns (ops: seq<Op>)
    requires Drainable(d) && Allowed(d, SampleTime(now)) && MaySendAll(d, posts)
    requires Once(d, t, start) && Timely(Sample(d, now), t) && SparesAll(Concat(posts), t)
    ensures ops != [] && ops[0] == SampleTime(now) && Drains(ops[1..]) && SentIn(ops[1..]) <= Concat(posts)
    ensures Drainable(Sample(d, now)) && MaySendAll(Sample(d, now), posts)
    ensures CanRun(d, ops, t) && Run(d, ops, t) == DrainWith(Sample(d, now), posts)
  {
    var d1 := Sample(d, now);
    SampleMaySend(d, now, posts);
    var rest, sent := DrainWithIsRun(d1, posts);
    SentSpares(rest, t);
    StepOnce(d, SampleTime(now), t, start);
    DrainLeavesToOnce(d1, rest, t, start);
    ops := [SampleTime(now)] + rest;
    assert ops[1..] == rest;
  }

  // ---- A timer that is started during a drain ----

  /** It is on no list and in no command. */
  predicate Quiet(d: Daemon, t: Timer) {
    !Listed(d, t) && Mine(d.queue, t) == []
  }

  /** A start command waits, or the timer is listed a period after it, or its callback for then has run. */
  ghost predicate Served(d: Daemon, t: Timer, m: Message, p: nat, log: seq<nat>) {
    || (Mine(d.queue, t) == [m] && !Listed(d, t) && LogOf(d.callbacks, t) == log && Get(d.period, t) == p)
    || (Mine(d.queue, t) == [] && Listed(d, t) && DueOf(d, t) == m.at + p && Now(d) < m.at + p && LogOf(d.callbacks, t) == log)
    || (m.at + p <= Now(d) && log + [m.at + p] <= LogOf(d.callbacks, t))
  }

  lemma {:induction false} LogOfLonger(cs: seq<Callback>, cs': seq<Callback>, t: Timer)
    requires cs <= cs'
    ensures LogOf(cs, t) <= LogOf(cs', t)
    decreases |cs'|
  {
    if |cs'| > |cs| {
      LogOfLonger(cs, cs'[..|cs'| - 1], t);
    } else {
      assert cs == cs';
    }
  }

  lemma CallbacksStay(d: Daemon)
    requires WellFormed(d) && d.queue != []
    ensures d.queue[0].value < d.n && d.callbacks <= ReceiveCommand(d).callbacks
  {
    assert d.queue[0] in d.queue;
    var d1 := ReceiveForms(d);
  }

  lemma OtherStaysServed(d: Daemon, op: Op, t: Timer, m: Message, p: nat, log: seq<nat>)
    requires WellFormed(d) && Allowed(d, op) && Served(d, t, m, p, log)
    requires (op.PostCommand? && op.m.timer != t) || (op == ReceiveNext(false) && d.queue[0].timer != t)
    ensures Served(Step(d, op), t, m, p, log)
  {
    StepClock(d, op);
    if op.PostCommand? {
      PostOther(d, op.m, t);
    } else {
      var d' := ReceivedOther(d, t, false);
      ReceiveClock(d);
    }
  }

  lemma StartIsObeyed(d: Daemon, t: Timer, m: Message, p: nat, log: seq<nat>)
    requires WellFormed(d) && d.queue != [] && Mine(d.queue, t) == [m] && d.queue[0].timer == t && !Listed(d, t)
    requires LogOf(d.callbacks, t) == log && Get(d.period, t) == p && 0 < p < d.n
    requires m.command.Start? && m.value == m.at % d.n && m.at <= Now(d) < m.at + d.n
    ensures d.queue[0].value < d.n && Served(ReceiveCommand(d), t, m, p, log)
  {
    MinePop(d.queue, t);
    assert Mine(d.queue, t)[0] == d.queue[0];
    var d0 := Popped(d);
    var h := UnlistKeepsWellFormed(d0, t);
    var d2, now := EnlistedAt(h, t, m.at, m.value);
    var d1, expiry := ReceiveStartForms(d);
    ReceiveClock(d);
    LogOfAppend(d.callbacks, Callback(t, m.at + p), t);
  }

  lemma DrainStepServes(d: Daemon, op: Op, t: Timer, m: Message, p: nat, log: seq<nat>)
    requires WellFormed(d) && Allowed(d, op) && Served(d, t, m, p, log) && Drains([op]) && Spares([op], t) && 0 < p < d.n
    requires m.command.Start? && m.value == m.at % d.n && m.at <= Now(d) < m.at + d.n
    ensures Served(Step(d, op), t, m, p, log)
  {
    assert [op][0] == op;
    if op.PostCommand? || d.queue[0].timer != t {
      OtherStaysServed(d, op, t, m, p, log);
    } else if Mine(d.queue, t) == [m] && !Listed(d, t) && LogOf(d.callbacks, t) == log && Get(d.period, t) == p {
      StartIsObeyed(d, t, m, p, log);
    } else {
      MinePop(d.queue, t);
      CallbacksStay(d);
      ReceiveClock(d);
      LogOfLonger(d.callbacks, Step(d, op).callbacks, t);
    }
  }

  lemma {:induction false} RunServes(d: Daemon, ops: seq<Op>, t: Timer, m: Message, p: nat, log: seq<nat>)
    requires WellFormed(d) && CanDo(d, ops) && Drains(ops) && Spares(ops, t) && Served(d, t, m, p, log) && 0 < p < d.n
    requires m.command.Start? && m.value == m.at % d.n && m.at <= Now(d) < m.at + d.n
    ensures Served(Done(d, ops), t, m, p, log)
    decreases |ops|
  {
    if ops != [] {
      TailOf(ops, t);
      StepKeepsWellFormed(d, ops[0]);
      DrainStepServes(d, ops[0], t, m, p, log);
      DrainStepClock(d, ops[0]);
      RunServes(Step(d, ops[0]), ops[1..], t, m, p, log);
    }
  }

  lemma DrainStepClock(d: Daemon, op: Op)
    requires WellFormed(d) && Allowed(d, op) && Drains([op])
    ensures Now(Step(d, op)) == Now(d) && Step(d, op).n == d.n && Step(d, op).room == d.room
  {
    assert [op][0] == op;
    if op == ReceiveNext(false) {
      ReceiveClock(d);
      ReceiveKeepsWellFormed(d);
    }
  }

  /** A step that leaves a quiet timer alone. */
  lemma StaysQuiet(d: Daemon, op: Op, t: Timer)
    requires WellFormed(d) && Allowed(d, op) && Quiet(d, t) && LeavesTo(d, op, t)
    ensures var d' := Step(d, op); Quiet(d', t) && LogOf(d'.callbacks, t) == LogOf(d.callbacks, t) && Get(d'.period, t) == Get(d.period, t)
  {
    match op
    case PostCommand(m) => PostOther(d, m, t);
    case SampleTime(now) => SampleStaysQuiet(d, now, t);
    case ProcessHead =>
      assert d.current[0] in d.current;
      var d' := ProcessOther(d, t);
    case ReceiveNext(crowded) =>
      MinePop(d.queue, t);
      var d' := ReceivedOther(d, t, crowded);
  }

  lemma {:induction false} FlushStaysQuiet(d: Daemon, t: Timer)
    requires WellFormed(d) && t !in d.current
    ensures t !in Flush(d).current && Flush(d).overflow == d.overflow && Mine(Flush(d).queue, t) == Mine(d.queue, t)
    ensures LogOf(Flush(d).callbacks, t) == LogOf(d.callbacks, t) && Get(Flush(d).period, t) == Get(d.period, t)
    decreases Shortfall(d.current, d.value, d.n)
  {
    if d.current != [] {
      FlushHeadAdvances(d);
      var d1 := FlushHeadOther(d, t);
      FlushHeadKeepsWellFormed(d);
      FlushKeepsWellFormed(d);
      FlushStaysQuiet(d1, t);
    }
  }

  lemma SampleStaysQuiet(d: Daemon, now: nat, t: Timer)
    requires WellFormed(d) && Quiet(d, t)
    ensures var d' := Sample(d, now); Quiet(d', t) && LogOf(d'.callbacks, t) == LogOf(d.callbacks, t) && Get(d'.period, t) == Get(d.period, t)
  {
    if now % d.n < d.lastTime {
      FlushStaysQuiet(d, t);
      FlushKeepsWellFormed(d);
    }
  }

  lemma {:induction false} DoneInTwo(d: Daemon, a: seq<Op>, b: seq<Op>)
    requires WellFormed(d) && CanDo(d, a + b)
    ensures CanDo(d, a) && CanDo(Done(d, a), b) && Done(d, a + b) == Done(Done(d, a), b)
    decreases |a|
  {
    if a == [] {
      assert a + b == b;
    } else {
      Regrouped(a, b);
      assert (a + b)[1..] == a[1..] + b && (a + b)[0] == a[0];
      StepKeepsWellFormed(d, a[0]);
      DoneInTwo(Step(d, a[0]), a[1..], b);
    }
  }

  lemma QuietReceives(d: Daemon, op: Op, t: Timer)
    requires WellFormed(d) && Allowed(d, op) && Quiet(d, t) && (op.PostCommand? ==> op.m.timer != t)
    ensures LeavesTo(d, op, t)
  {
    if op.ReceiveNext? {
      MinePop(d.queue, t);
    }
  }

  lemma {:induction false} DrainStaysQuiet(d: Daemon, ops: seq<Op>, t: Timer)
    requires WellFormed(d) && CanDo(d, ops) && Drains(ops) && Spares(ops, t) && Quiet(d, t)
    ensures var d' := Done(d, ops);
      && Quiet(d', t) && LogOf(d'.callbacks, t) == LogOf(d.callbacks, t) && Get(d'.period, t) == Get(d.period, t)
      && Now(d') == Now(d) && d'.n == d.n && d'.room == d.room
    decreases |ops|
  {
    if ops != [] {
      TailOf(ops, t);
      StepKeepsWellFormed(d, ops[0]);
      QuietReceives(d, ops[0], t);
      StaysQuiet(d, ops[0], t);
      DrainStepClock(d, ops[0]);
      DrainStaysQuiet(Step(d, ops[0]), ops[1..], t);
    }
  }

  /** A start command of the last wrap, for a timer of period `p`. */
  ghost predicate Starts(d: Daemon, m: Message, t: Timer, p: nat) {
    && m.timer == t && m.command.Start? && m.value == m.at % d.n && m.at <= Now(d) < m.at + d.n
    && Get(d.period, t) == p && 0 < p < d.n
  }

  lemma StartIsSent(d: Daemon, m: Message, after: seq<Op>, t: Timer, p: nat, d': Daemon)
    requires WellFormed(d) && Quiet(d, t) && Starts(d, m, t, p) && |d.queue| < d.room
    requires CanDo(d, [PostCommand(m)] + after) && Drains(after) && Spares(after, t) && d' == Done(d, [PostCommand(m)] + after)
    ensures Served(d', t, m, p, LogOf(d.callbacks, t))
  {
    PostKeepsWellFormed(d, m);
    assert ([PostCommand(m)] + after)[1..] == after;
    MineAppend(d.queue, m, t);
    RunServes(Post(d, m), after, t, m, p, LogOf(d.callbacks, t));
  }

  /** A start that is sent to an idle timer during a drain and finds room ends as it should: the timer is listed for
      exactly a period after it, or, if that has passed, its callback for then has run. */
  lemma StartIsServed(d: Daemon, before: seq<Op>, m: Message, after: seq<Op>, t: Timer, p: nat, d': Daemon)
    requires WellFormed(d) && Quiet(d, t) && Starts(d, m, t, p)
    requires Drains(before) && Drains(after) && Spares(before, t) && Spares(after, t)
    requires CanDo(d, before + ([PostCommand(m)] + after)) && d' == Done(d, before + ([PostCommand(m)] + after)) && d'.queue == []
    requires CanDo(d, before) && |Done(d, before).queue| < d.room
    ensures var due, log := m.at + p, LogOf(d.callbacks, t);
      || (Now(d') < due && Listed(d', t) && DueOf(d', t) == due && LogOf(d'.callbacks, t) == log)
      || (due <= Now(d') && log + [due] <= LogOf(d'.callbacks, t))
  {
    DoneInTwo(d, before, [PostCommand(m)] + after);
    DrainStaysQuiet(d, before, t);
    StartIsSent(Done(d, before), m, after, t, p, d');
  }

  // ---- The other commands ----

  /** A stop or delete that is the last command for its timer takes it off its list, */
  lemma StoppedIsQuiet(d: Daemon, t: Timer)
    requires WellFormed(d) && d.queue != [] && Mine(d.queue, t) == [d.queue[0]] && d.queue[0].timer == t
    requires d.queue[0].command.Stop? || d.queue[0].command.Delete?
    ensures d.queue[0].value < d.n && Quiet(ReceiveCommand(d), t)
    ensures LogOf(ReceiveCommand(d).callbacks, t) == LogOf(d.callbacks, t)
  {
    MinePop(d.queue, t);
    var d0 := Popped(d);
    var h := UnlistKeepsWellFormed(d0, t);
    var d1 := ReceiveForms(d);
  }

  /** and no callback of it runs until somebody commands it again. */
  lemma {:induction false} QuietForGood(d: Daemon, ops: seq<Op>, t: Timer)
    requires WellFormed(d) && CanRun(d, ops, t) && Quiet(d, t)
    ensures Quiet(Run(d, ops, t), t) && LogOf(Run(d, ops, t).callbacks, t) == LogOf(d.callbacks, t)
    decreases |ops|
  {
    if ops != [] {
      StepKeepsWellFormed(d, ops[0]);
      StaysQuiet(d, ops[0], t);
      QuietForGood(Step(d, ops[0]), ops[1..], t);
    }
  }

  /** A change of period that is the last command for its timer lists it for the new period from now. */
  lemma ChangedPeriodIsListed(d: Daemon, t: Timer)
    requires WellFormed(d) && d.queue != [] && Mine(d.queue, t) == [d.queue[0]] && d.queue[0].timer == t
    requires d.queue[0].command.ChangePeriod? && 0 < d.queue[0].value
    ensures var d' := ReceiveCommand(d);
      && Get(d'.period, t) == d.queue[0].value && Now(d') == Now(d) && Mine(d'.queue, t) == []
      && Listed(d', t) && DueOf(d', t) == Now(d) + d.queue[0].value
      && d'.callbacks == d.callbacks && d'.autoReload == d.autoReload && d'.n == d.n
  {
    var p := d.queue[0].value;
    MinePop(d.queue, t);
    var d0 := Popped(d);
    var h := UnlistKeepsWellFormed(d0, t);
    var d1 := ReceiveForms(d);
    var h' := h.(period := h.period[t := p]);
    WrappedNow(d.epoch, d.lastTime, d.n);
    var d2, now := EnlistedAt(h', t, Now(d), d.lastTime);
  }

  /** So it is in step from there on, if its callback has not run before. */
  lemma ChangedPeriodIsInStep(d: Daemon, t: Timer)
    requires WellFormed(d) && d.queue != [] && Mine(d.queue, t) == [d.queue[0]] && d.queue[0].timer == t
    requires d.queue[0].command.ChangePeriod? && 0 < d.queue[0].value && LogOf(d.callbacks, t) == []
    ensures d.queue[0].value < d.n
    ensures if t in d.autoReload then Tracked(ReceiveCommand(d), t, Now(d)) else Once(ReceiveCommand(d), t, Now(d))
  {
    assert d.queue[0] in d.queue;
    ChangedPeriodIsListed(d, t);
  }
}
