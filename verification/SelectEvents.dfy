/** sockets.c: what the events and the selectors' own steps make of the fields, told over whole runs by the steps alone. */
module SelectEvents {
  import opened Sequences
  import opened Select

  /** What event_callback does to the socket of an event. */
  predicate EventIsSet(k: Socket, k': Socket, e: Event) {
    && k'.rcvevent == k.rcvevent + (if e.RcvPlus? then 1 else if e.RcvMinus? then -1 else 0)
    && (k'.sendevent <==> e.SendPlus? || (k.sendevent && !e.SendMinus?))
    && (k'.errevent <==> e.Error? || k.errevent)
    && k'.lastdata == k.lastdata && k'.waiting == k.waiting
  }

  lemma EventSets(k: Socket, e: Event)
    ensures EventIsSet(k, SetEvent(k, e), e)
  {
  }

  /** The callback of an event on socket `s`, or of another one. */
  predicate Comes(op: Op, s: nat, e: Event) {
    op.Notify? && op.s == s && op.e == e
  }

  function Arrivals(ops: seq<Op>, s: nat, e: Event): nat {
    if ops == [] then 0 else (if Comes(ops[0], s, e) then 1 else 0) + Arrivals(ops[1..], s, e)
  }

  /** Whether the last of two opposite kinds of step was of the first kind; if there was none, as it was. */
  function LastIs(ops: seq<Op>, on: Op -> bool, off: Op -> bool, was: bool): bool {
    if ops == [] then was else LastIs(ops[1..], on, off, if on(ops[0]) then true else if off(ops[0]) then false else was)
  }

  function Writable(ops: seq<Op>, s: nat, was: bool): bool {
    LastIs(ops, op => Comes(op, s, SendPlus), op => Comes(op, s, SendMinus), was)
  }

  function LeftOver(ops: seq<Op>, s: nat, was: bool): bool {
    LastIs(ops, op => op == LeaveData(s), op => op == TakeData(s), was)
  }

  lemma StepSets(st: State, op: Op, s: nat)
    requires Allowed(st, op) && s < |st.sockets|
    ensures |Step(st, op).sockets| == |st.sockets|
    ensures var k, k' := st.sockets[s], Step(st, op).sockets[s];
      && (op.Notify? && op.s == s ==> EventIsSet(k, k', op.e))
      && (!(op.Notify? && op.s == s) ==> SameEvents(k, k'))
      && (k'.lastdata <==> op == LeaveData(s) || (k.lastdata && op != TakeData(s)))
  {
  }

  /** In every run rcvevent has counted the events, up and down, sendevent is what the last event about sending said,
      errevent tells whether an error came, and lastdata whether the last read left something over. */
  lemma {:induction false} EventsAreThoseThatCame(st: State, ops: seq<Op>, s: nat)
    requires CanRun(st, ops) && s < |st.sockets|
    ensures |Run(st, ops).sockets| == |st.sockets|
    ensures var k, k' := st.sockets[s], Run(st, ops).sockets[s];
      && k'.rcvevent == k.rcvevent + Arrivals(ops, s, RcvPlus) - Arrivals(ops, s, RcvMinus)
      && (k'.sendevent <==> Writable(ops, s, k.sendevent))
      && (k'.errevent <==> k.errevent || Arrivals(ops, s, Error) > 0)
      && (k'.lastdata <==> LeftOver(ops, s, k.lastdata))
    decreases |ops|
  {
    if ops != [] {
      StepSets(st, ops[0], s);
      EventsAreThoseThatCame(Step(st, ops[0]), ops[1..], s);
    }
  }

  // ---- Selectors ----

  datatype Wish = Wish(forRead: set<nat>, forWrite: set<nat>, forError: set<nat>)

  function WishOf(q: Selector): Wish {
    Wish(q.forRead, q.forWrite, q.forError)
  }

  /** What a thread that is in lwip_select asked for. */
  function Asked(ops: seq<Op>, t: Thread, was: Option<Wish>): Option<Wish> {
    if ops == [] then was
    else Asked(ops[1..], t,
               match ops[0]
               case Enlist(u, r, w, x) => if u == t then Some(Wish(r, w, x)) else was
               case Delist(u) => if u == t then None else was
               case _ => was)
  }

  ghost function Asking(st: State, t: Thread): Option<Wish> {
    if t in st.selectors then Some(WishOf(st.selectors[t])) else None
  }

  lemma StepKeepsWish(st: State, op: Op, t: Thread)
    requires Allowed(st, op)
    ensures Asking(Step(st, op), t) == Asked([op], t, Asking(st, t))
  {
    assert [op][1..] == [];
  }

  /** In every run a selector is listed with the sets it asked for, from its Enlist to its Delist. */
  lemma {:induction false} WishesAreKept(st: State, ops: seq<Op>, t: Thread)
    requires CanRun(st, ops)
    ensures Asking(Run(st, ops), t) == Asked(ops, t, Asking(st, t))
    decreases |ops|
  {
    if ops != [] {
      StepKeepsWish(st, ops[0], t);
      assert [ops[0]][1..] == [];
      WishesAreKept(Step(st, ops[0]), ops[1..], t);
    }
  }

  /** The socket a callback is for. */
  ghost predicate WalksFor(st: State, op: Op, s: nat) {
    (op.Notify? && op.s == s) || (op.Proceed? && op.w in st.walkers && st.walkers[op.w].socket == s)
  }

  /** Nobody is signalled but by a callback for a socket that is then ready for it, and nobody is unsignalled. */
  lemma SignalMeansReady(st: State, op: Op, t: Thread)
    requires Allowed(st, op) && t in st.selectors && t in Step(st, op).selectors
    ensures st.selectors[t].signalled ==> Step(st, op).selectors[t].signalled
    ensures Step(st, op).selectors[t].signalled && !st.selectors[t].signalled ==>
      exists s :: 0 <= s < |Step(st, op).sockets| && WalksFor(st, op, s) && Ready(Step(st, op).sockets[s], s, st.selectors[t])
  {
    if op.Notify? {
      assert WalksFor(st, op, op.s);
    } else if op.Proceed? {
      assert WalksFor(st, op, st.walkers[op.w].socket);
    }
  }

  /** The second scan finds a socket iff it is ready, and is done with it iff not. */
  lemma ScanFindsReady(st: State, t: Thread, s: nat)
    requires Allowed(st, Scan(t, s))
    ensures var q, q' := st.selectors[t], Step(st, Scan(t, s)).selectors[t];
      && (q'.found <==> q.found || ScanReady(st.sockets[s], s, q))
      && q'.scanned == q.scanned + (if ScanReady(st.sockets[s], s, q) then {} else {s})
      && q'.counted == q.counted && q'.signalled == q.signalled && q'.phase.Scanning?
  {
  }
}
