/** sockets.c: data that arrives on an accepted connection before lwip_accept has given it a socket. Until then its
    receive events are counted in the netconn's own socket field, downwards from -1. */
module Accept {

  const NO_SOCKET := -1

  datatype Event = RcvPlus | RcvMinus

  /** lwip_accept, before alloc_socket, after it, and after the counts have been handed over. */
  datatype Phase = Waiting | Allocated | Done

  /** An event_callback that has read conn->socket and has yet to enter its protected section. */
  datatype Call = Call(event: Event, seen: int)

  /** `socket` is conn->socket, `rcvevent` that of the new socket. */
  datatype State = State(newsock: nat, socket: int, rcvevent: int, phase: Phase, calls: map<nat, Call>)

  datatype Op =
    | Begin(id: nat, event: Event)   // event_callback reads conn->socket
    | Apply(id: nat)                 // its protected section
    | Allocate(garbage: int)         // alloc_socket clears a slot that held anything
    | HandOver                       // the protected section of lwip_accept

  /** What an s16_t makes of a value. */
  function S16(x: int): int {
    (x + 0x8000) % 0x10000 - 0x8000
  }

  predicate Allowed(st: State, op: Op) {
    match op
    case Begin(id, _) => id !in st.calls
    case Apply(id) => id in st.calls
    case Allocate(_) => st.phase.Waiting?
    case HandOver => st.phase.Allocated?
  }

  /** An event for a netconn that has its socket. */
  function ToSocket(st: State, e: Event): State {
    st.(rcvevent := S16(if e.RcvPlus? then st.rcvevent + 1 else st.rcvevent - 1))
  }

  /** An event for one that has not: arrivals are counted down, removals are not counted. */
  function ToNetconn(st: State, e: Event): State {
    if e.RcvPlus? then st.(socket := st.socket - 1) else st
  }

  function Step(st: State, op: Op): State
    requires Allowed(st, op)
  {
    match op
    case Begin(id, e) => st.(calls := st.calls[id := Call(e, st.socket)])
    case Apply(id) =>
      var c := st.calls[id];
      var st1 := st.(calls := st.calls - {id});
      if c.seen < 0 && st.socket < 0 then ToNetconn(st1, c.event) else ToSocket(st1, c.event)
    case Allocate(_) => st.(rcvevent := 0, phase := Allocated)
    case HandOver => st.(rcvevent := S16(st.rcvevent + S16(-1 - st.socket)), socket := st.newsock, phase := Done)
  }

  ghost predicate CanRun(st: State, ops: seq<Op>)
    decreases |ops|
  {
    ops == [] || (Allowed(st, ops[0]) && CanRun(Step(st, ops[0]), ops[1..]))
  }

  ghost function Run(st: State, ops: seq<Op>): State
    requires CanRun(st, ops)
    decreases |ops|
  {
    if ops == [] then st else Run(Step(st, ops[0]), ops[1..])
  }

  /** A netconn made by accept_function, whose future socket slot holds anything. */
  function Accepted(newsock: nat, garbage: int): State {
    State(newsock, NO_SOCKET, garbage, Waiting, map[])
  }

  // ---- The events of a run, told from its steps alone ----

  /** The calls under way after a step, with their events. */
  function Under(begun: map<nat, Event>, op: Op): map<nat, Event> {
    match op
    case Begin(id, e) => begun[id := e]
    case Apply(id) => begun - {id}
    case _ => begun
  }

  function Applies(begun: map<nat, Event>, op: Op, e: Event): nat {
    if op.Apply? && op.id in begun && begun[op.id] == e then 1 else 0
  }

  /** How many events of one kind are applied. */
  function Events(begun: map<nat, Event>, ops: seq<Op>, e: Event): nat
    decreases |ops|
  {
    if ops == [] then 0 else Applies(begun, ops[0], e) + Events(Under(begun, ops[0]), ops[1..], e)
  }

  /** How many removals are applied before the hand-over. */
  function EarlyRemovals(begun: map<nat, Event>, ops: seq<Op>): nat
    decreases |ops|
  {
    if ops == [] || ops[0].HandOver? then 0
    else Applies(begun, ops[0], RcvMinus) + EarlyRemovals(Under(begun, ops[0]), ops[1..])
  }

  /** Whether a removal is under way before the hand-over. */
  predicate RemovesEarly(ops: seq<Op>) {
    ops != [] && !ops[0].HandOver? && ((ops[0].Begin? && ops[0].event.RcvMinus?) || RemovesEarly(ops[1..]))
  }

  // ---- Conservation ----

  /** What the counts add up to: those of the netconn until the hand-over, the socket's from then on. */
  ghost function Counted(st: State): int {
    if st.phase.Done? then st.rcvevent else NO_SOCKET - st.socket
  }

  ghost predicate Inv(st: State, begun: map<nat, Event>) {
    && (if st.phase.Done? then st.socket == st.newsock && S16(st.rcvevent) == st.rcvevent
        else st.socket <= NO_SOCKET && (st.phase.Allocated? ==> st.rcvevent == 0))
    && begun.Keys == st.calls.Keys
    && (forall id :: id in st.calls ==> st.calls[id].event == begun[id] && (st.calls[id].seen >= 0 ==> st.phase.Done?))
  }

  lemma S16OfSum(x: int, y: int)
    ensures S16(S16(x) + y) == S16(x + y)
  {
  }

  lemma StepKeepsInv(st: State, begun: map<nat, Event>, op: Op)
    requires Inv(st, begun) && Allowed(st, op)
    ensures Inv(Step(st, op), Under(begun, op)) && Step(st, op).newsock == st.newsock
    ensures st.phase.Done? ==> Step(st, op).phase.Done?
  {
  }

  /** One step counts its arrival, and its removal once there is a socket. */
  lemma StepCounts(st: State, begun: map<nat, Event>, op: Op)
    requires Inv(st, begun) && Allowed(st, op)
    ensures var removed := if st.phase.Done? then Applies(begun, op, RcvMinus) else 0;
      S16(Counted(Step(st, op))) == S16(Counted(st) + Applies(begun, op, RcvPlus) - removed)
  {
  }

  lemma {:induction false} RunCounts(st: State, begun: map<nat, Event>, ops: seq<Op>)
    requires Inv(st, begun) && CanRun(st, ops)
    ensures var early := if st.phase.Done? then 0 else EarlyRemovals(begun, ops);
      S16(Counted(Run(st, ops))) == S16(Counted(st) + Events(begun, ops, RcvPlus) - Events(begun, ops, RcvMinus) + early)
    ensures Run(st, ops).phase.Done? ==> Run(st, ops).socket == st.newsock && S16(Run(st, ops).rcvevent) == Run(st, ops).rcvevent
    decreases |ops|
  {
    if ops != [] {
      StepKeepsInv(st, begun, ops[0]);
      StepCounts(st, begun, ops[0]);
      var st', begun', rest := Step(st, ops[0]), Under(begun, ops[0]), ops[1..];
      RunCounts(st', begun', rest);
      var early := if st'.phase.Done? then 0 else EarlyRemovals(begun', rest);
      var more := Events(begun', rest, RcvPlus) - Events(begun', rest, RcvMinus) + early;
      S16OfSum(Counted(st'), more);
      S16OfSum(Counted(st) + Applies(begun, ops[0], RcvPlus)
        - if st.phase.Done? then Applies(begun, ops[0], RcvMinus) else 0, more);
    }
  }

  /** However receive events and the steps of lwip_accept interleave, once the counts are handed over the new
      socket's rcvevent is, in 16 bits, the arrivals less the removals applied since. */
  lemma EventsAreConserved(newsock: nat, garbage: int, ops: seq<Op>)
    requires CanRun(Accepted(newsock, garbage), ops)
    ensures var st := Run(Accepted(newsock, garbage), ops);
      st.phase.Done? ==> && st.socket == newsock
                         && st.rcvevent == S16(Events(map[], ops, RcvPlus) - Events(map[], ops, RcvMinus) + EarlyRemovals(map[], ops))
  {
    RunCounts(Accepted(newsock, garbage), map[], ops);
  }

  lemma S16EqualIff(x: int, y: nat)
    ensures S16(x + y) == S16(x) <==> y % 0x10000 == 0
  {
    var a, b := x + 0x8000, 0x10000;
    assert (a + y) % b == (a % b + y % b) % b;
  }

  /** So it is exact, arrivals less removals, iff the removals applied before the hand-over are none, or a multiple
      of 65536. */
  lemma ExactIffNoneRemovedEarly(newsock: nat, garbage: int, ops: seq<Op>)
    requires CanRun(Accepted(newsock, garbage), ops) && Run(Accepted(newsock, garbage), ops).phase.Done?
    ensures Run(Accepted(newsock, garbage), ops).rcvevent == S16(Events(map[], ops, RcvPlus) - Events(map[], ops, RcvMinus))
       <==> EarlyRemovals(map[], ops) % 0x10000 == 0
  {
    EventsAreConserved(newsock, garbage, ops);
    S16EqualIff(Events(map[], ops, RcvPlus) - Events(map[], ops, RcvMinus), EarlyRemovals(map[], ops));
  }

  /** Removals are announced by the application, which has no socket to read from before the hand-over. */
  lemma {:induction false} NoneBegunNoneApplied(begun: map<nat, Event>, ops: seq<Op>)
    requires !RemovesEarly(ops) && forall id :: id in begun ==> begun[id].RcvPlus?
    ensures EarlyRemovals(begun, ops) == 0
    decreases |ops|
  {
    if ops != [] && !ops[0].HandOver? {
      NoneBegunNoneApplied(Under(begun, ops[0]), ops[1..]);
    }
  }

  /** In every run of that kind nothing is lost. */
  lemma NothingIsLost(newsock: nat, garbage: int, ops: seq<Op>)
    requires CanRun(Accepted(newsock, garbage), ops) && Run(Accepted(newsock, garbage), ops).phase.Done? && !RemovesEarly(ops)
    ensures Run(Accepted(newsock, garbage), ops).rcvevent == S16(Events(map[], ops, RcvPlus) - Events(map[], ops, RcvMinus))
  {
    NoneBegunNoneApplied(map[], ops);
    ExactIffNoneRemovedEarly(newsock, garbage, ops);
  }

  const EARLY_REMOVAL := [Begin(0, RcvPlus), Apply(0), Begin(0, RcvMinus), Apply(0), Allocate(7), HandOver]

  /** One removal in time would be enough: something came and was taken, and the socket still counts it. No call of the
      API makes one, as nobody has the new netconn to read from before lwip_accept returns. */
  lemma EarlyRemovalIsLost(newsock: nat)
    ensures CanRun(Accepted(newsock, 7), EARLY_REMOVAL)
    ensures Run(Accepted(newsock, 7), EARLY_REMOVAL).rcvevent == 1
    ensures Events(map[], EARLY_REMOVAL, RcvPlus) == Events(map[], EARLY_REMOVAL, RcvMinus) == 1
    ensures EarlyRemovals(map[], EARLY_REMOVAL) == 1
  {
    var st0 := Accepted(newsock, 7);
    var st1 := st0.(calls := map[0 := Call(RcvPlus, -1)]);
    var st2 := st0.(socket := -2);
    var st3 := st2.(calls := map[0 := Call(RcvMinus, -2)]);
    var st4 := st2.(rcvevent := 0, phase := Allocated);
    assert Step(st0, EARLY_REMOVAL[0]) == st1 && Step(st1, EARLY_REMOVAL[1]) == st2;
    assert Step(st2, EARLY_REMOVAL[2]) == st3 && Step(st3, EARLY_REMOVAL[3]) == st2;
    assert Step(st2, EARLY_REMOVAL[4]) == st4;
    assert Run(Step(st4, HandOver), EARLY_REMOVAL[6..]).rcvevent == 1;
    EarlyEvents(RcvPlus);
    EarlyEvents(RcvMinus);
  }

  lemma EarlyEvents(e: Event)
    ensures Events(map[], EARLY_REMOVAL, e) == 1
    ensures EarlyRemovals(map[], EARLY_REMOVAL) == 1
  {
    var end := [Allocate(7), HandOver];
    NextEvents(map[], end[0], end[1..], e);
    assert Events(map[], end[1..], e) == 0;
    assert map[0 := RcvMinus] - {0} == map[] && map[0 := RcvPlus] - {0} == map[];
    NextEvents(map[0 := RcvMinus], Apply(0), end, e);
    NextEvents(map[], Begin(0, RcvMinus), [Apply(0)] + end, e);
    AfterArrival([Begin(0, RcvMinus)] + ([Apply(0)] + end), e);
    assert EARLY_REMOVAL == [Begin(0, RcvPlus)] + ([Apply(0)] + ([Begin(0, RcvMinus)] + ([Apply(0)] + end)));
  }

  lemma AfterArrival(ops: seq<Op>, e: Event)
    ensures var all := [Begin(0, RcvPlus)] + ([Apply(0)] + ops);
      && Events(map[], all, e) == Events(map[], ops, e) + (if e.RcvPlus? then 1 else 0)
      && EarlyRemovals(map[], all) == EarlyRemovals(map[], ops)
  {
    assert map[0 := RcvPlus] - {0} == map[];
    NextEvents(map[0 := RcvPlus], Apply(0), ops, e);
    NextEvents(map[], Begin(0, RcvPlus), [Apply(0)] + ops, e);
  }

  lemma NextEvents(begun: map<nat, Event>, op: Op, ops: seq<Op>, e: Event)
    requires !op.HandOver?
    ensures Events(begun, [op] + ops, e) == Applies(begun, op, e) + Events(Under(begun, op), ops, e)
    ensures EarlyRemovals(begun, [op] + ops) == Applies(begun, op, RcvMinus) + EarlyRemovals(Under(begun, op), ops)
  {
    assert ([op] + ops)[1..] == ops;
  }
}
