/** sockets.c: lwip_select against event_callback, at the grain of the protected sections. Selectors list
    themselves, count themselves on the sockets they watch, scan again and sleep; callbacks walk the list
    unprotected between entries and start over when it has changed. */
module Select {
  import opened Sequences

  type Thread = nat
  type Walk = nat

  /** The part of struct lwip_sock that select looks at. */
  datatype Socket = Socket(rcvevent: int, sendevent: bool, errevent: bool, lastdata: bool, waiting: int)

  /** Where lwip_select has got to: listed and counting itself on its sockets, scanning for the second time,
      waiting on its semaphore, or on its way out. */
  datatype Phase = Counting | Scanning | Asleep | Leaving

  /** struct lwip_select_cb, and the progress of the thread it belongs to. */
  datatype Selector = Selector(
    forRead: set<nat>, forWrite: set<nat>, forError: set<nat>,
    signalled: bool,
    phase: Phase,
    counted: set<nat>,    // the sockets whose select_waiting includes it
    scanned: set<nat>,    // the sockets its second scan has found nothing on
    found: bool)

  /** An event_callback that has set its event: it has visited the first `visited` entries of the list that had
      change count `changes`. */
  datatype Walker = Walker(socket: nat, visited: nat, changes: nat)

  datatype State = State(
    sockets: seq<Socket>,
    list: seq<Thread>,             // select_cb_list
    changes: nat,                  // select_cb_ctr
    selectors: map<Thread, Selector>,
    walkers: map<Walk, Walker>)

  datatype Event = RcvPlus | RcvMinus | SendPlus | SendMinus | Error

  function Watched(q: Selector): set<nat> {
    q.forRead + q.forWrite + q.forError
  }

  /** What event_callback tests for a selector. */
  predicate Ready(k: Socket, s: nat, q: Selector) {
    (k.rcvevent > 0 && s in q.forRead) || (k.sendevent && s in q.forWrite) || (k.errevent && s in q.forError)
  }

  /** What lwip_selscan tests. */
  predicate ScanReady(k: Socket, s: nat, q: Selector) {
    Ready(k, s, q) || (k.lastdata && s in q.forRead)
  }

  function SetEvent(k: Socket, e: Event): Socket {
    match e
    case RcvPlus => k.(rcvevent := k.rcvevent + 1)
    case RcvMinus => k.(rcvevent := k.rcvevent - 1)
    case SendPlus => k.(sendevent := true)
    case SendMinus => k.(sendevent := false)
    case Error => k.(errevent := true)
  }

  // ---- event_callback ----

  /** The body of the loop, for one list entry. */
  function Visit(st: State, s: nat, t: Thread): State
    requires s < |st.sockets|
  {
    if t in st.selectors && !st.selectors[t].signalled && Ready(st.sockets[s], s, st.selectors[t])
    then st.(selectors := st.selectors[t := st.selectors[t].(signalled := true)])
    else st
  }

  /** One protected stretch of the loop: visit entry `i` if there is one, else finish. */
  function WalkFrom(st: State, w: Walk, s: nat, i: nat): State
    requires s < |st.sockets|
  {
    if i < |st.list| then Visit(st, s, st.list[i]).(walkers := st.walkers[w := Walker(s, i + 1, st.changes)])
    else st.(walkers := st.walkers - {w})
  }

  /** The first protected stretch: the event, the test for waiting selectors, and the first list entry. */
  function Callback(st: State, w: Walk, s: nat, e: Event): State
    requires s < |st.sockets|
  {
    var st1 := st.(sockets := st.sockets[s := SetEvent(st.sockets[s], e)]);
    if st1.sockets[s].waiting == 0 then st1 else WalkFrom(st1, w, s, 0)
  }

  /** The next one: from the next entry, or from the start if the list has changed. */
  function Continue(st: State, w: Walk): State
    requires w in st.walkers && st.walkers[w].socket < |st.sockets|
  {
    var k := st.walkers[w];
    WalkFrom(st, w, k.socket, if k.changes == st.changes then k.visited else 0)
  }

  // ---- lwip_select ----

  function AddWaiting(st: State, s: nat, d: int): State
    requires s < |st.sockets|
  {
    st.(sockets := st.sockets[s := st.sockets[s].(waiting := st.sockets[s].waiting + d)])
  }

  function Update(st: State, t: Thread, q: Selector): State {
    st.(selectors := st.selectors[t := q])
  }

  datatype Op =
    | Enlist(t: Thread, forRead: set<nat>, forWrite: set<nat>, forError: set<nat>)
    | Count(t: Thread, s: nat)
    | Scan(t: Thread, s: nat)
    | Sleep(t: Thread)
    | Wake(t: Thread)                    // signalled, timed out, or the second scan found something
    | Uncount(t: Thread, s: nat)
    | Delist(t: Thread)
    | Notify(w: Walk, s: nat, e: Event)  // event_callback is called
    | Proceed(w: Walk)                   // and goes on
    | LeaveData(s: nat)                  // another thread reads part of a buffer
    | TakeData(s: nat)

  predicate Allowed(st: State, op: Op) {
    match op
    case Enlist(t, r, wr, x) => t !in st.selectors && t !in st.list && forall s :: s in r + wr + x ==> s < |st.sockets|
    case Count(t, s) => t in st.selectors && var q := st.selectors[t]; q.phase.Counting? && s in Watched(q) && s !in q.counted && s < |st.sockets|
    case Scan(t, s) =>
      && t in st.selectors && s < |st.sockets|
      && var q := st.selectors[t]; (q.phase.Scanning? || (q.phase.Counting? && q.counted == Watched(q))) && s in Watched(q)
    case Sleep(t) => t in st.selectors && var q := st.selectors[t]; q.phase.Scanning? && !q.found && q.scanned == Watched(q)
    case Wake(t) => t in st.selectors && var q := st.selectors[t]; q.phase.Asleep? || (q.phase.Scanning? && q.found)
    case Uncount(t, s) => t in st.selectors && st.selectors[t].phase.Leaving? && s in st.selectors[t].counted && s < |st.sockets|
    case Delist(t) => t in st.selectors && t in st.list && st.selectors[t].phase.Leaving? && st.selectors[t].counted == {}
    case Notify(w, s, _) => w !in st.walkers && s < |st.sockets|
    case Proceed(w) => w in st.walkers && st.walkers[w].socket < |st.sockets|
    case LeaveData(s) => s < |st.sockets|
    case TakeData(s) => s < |st.sockets|
  }

  function Step(st: State, op: Op): State
    requires Allowed(st, op)
  {
    match op
    case Enlist(t, r, wr, x) =>
      st.(list := [t] + st.list, changes := st.changes + 1,
          selectors := st.selectors[t := Selector(r, wr, x, false, Counting, {}, {}, false)])
    case Count(t, s) => AddWaiting(Update(st, t, st.selectors[t].(counted := st.selectors[t].counted + {s})), s, 1)
    case Scan(t, s) =>
      var q := st.selectors[t].(phase := Scanning);
      Update(st, t, if ScanReady(st.sockets[s], s, q) then q.(found := true) else q.(scanned := q.scanned + {s}))
    case Sleep(t) => Update(st, t, st.selectors[t].(phase := Asleep))
    case Wake(t) => Update(st, t, st.selectors[t].(phase := Leaving))
    case Uncount(t, s) => AddWaiting(Update(st, t, st.selectors[t].(counted := st.selectors[t].counted - {s})), s, -1)
    case Delist(t) => st.(list := Without(st.list, t), changes := st.changes + 1, selectors := st.selectors - {t})
    case Notify(w, s, e) => Callback(st, w, s, e)
    case Proceed(w) => Continue(st, w)
    case LeaveData(s) => st.(sockets := st.sockets[s := st.sockets[s].(lastdata := true)])
    case TakeData(s) => st.(sockets := st.sockets[s := st.sockets[s].(lastdata := false)])
  }

  // ---- The invariant ----

  /** The walker is yet to visit `t`, or will start over. */
  ghost predicate Coming(st: State, k: Walker, t: Thread) {
    k.changes != st.changes || t !in st.list[..if k.visited <= |st.list| then k.visited else |st.list|]
  }

  /** Whatever `t` has scanned in vain and is ready now, a walker will tell it about, or it has been told. */
  ghost predicate Told(st: State, t: Thread, s: nat)
    requires t in st.selectors && s < |st.sockets|
  {
    Ready(st.sockets[s], s, st.selectors[t]) && !st.selectors[t].signalled ==>
      exists w :: w in st.walkers && st.walkers[w].socket == s && Coming(st, st.walkers[w], t)
  }

  ghost predicate Sound(st: State, t: Thread)
    requires t in st.selectors
  {
    var q := st.selectors[t];
    && t in st.list
    && q.counted <= Watched(q) && q.scanned <= Watched(q)
    && (forall s :: s in Watched(q) ==> s < |st.sockets|)
    && (q.phase.Counting? ==> q.scanned == {})
    && (q.phase.Scanning? || q.phase.Asleep? ==> q.counted == Watched(q))
    && (q.phase.Asleep? ==> q.scanned == Watched(q))
    && (!q.phase.Leaving? ==> forall s :: s in q.scanned ==> Told(st, t, s))
  }

  ghost function Counters(st: State, s: nat): set<Thread> {
    set t | t in st.selectors && s in st.selectors[t].counted
  }

  ghost predicate Inv(st: State) {
    && (forall t :: t in st.selectors ==> Sound(st, t))
    && NoDup(st.list) && (forall t :: t in st.list ==> t in st.selectors)
    && (forall s :: 0 <= s < |st.sockets| ==> st.sockets[s].waiting == |Counters(st, s)|)
    && (forall w :: w in st.walkers ==> st.walkers[w].socket < |st.sockets| && st.walkers[w].changes <= st.changes)
  }

  // ---- What each step keeps ----

  /** A step that leaves the readiness of the sockets, the walkers and selector `t`'s findings alone. */
  ghost predicate Undisturbed(st: State, st': State, t: Thread) {
    && t in st.selectors && t in st'.selectors
    && |st'.sockets| == |st.sockets|
    && (forall s :: 0 <= s < |st.sockets| ==> SameEvents(st.sockets[s], st'.sockets[s]))
    && (forall w :: w in st.walkers ==> w in st'.walkers && st'.walkers[w] == st.walkers[w])
    && (forall w :: w in st.walkers && Coming(st, st.walkers[w], t) ==> Coming(st', st.walkers[w], t))
    && SameSets(st.selectors[t], st'.selectors[t])
  }

  predicate SameEvents(k: Socket, k': Socket) {
    k'.rcvevent == k.rcvevent && k'.sendevent == k.sendevent && k'.errevent == k.errevent
  }

  predicate SameSets(q: Selector, q': Selector) {
    q'.forRead == q.forRead && q'.forWrite == q.forWrite && q'.forError == q.forError && (q.signalled ==> q'.signalled)
  }

  lemma UndisturbedStaysTold(st: State, st': State, t: Thread, s: nat)
    requires Undisturbed(st, st', t) && s < |st.sockets| && Told(st, t, s)
    ensures Told(st', t, s)
  {
    if Ready(st'.sockets[s], s, st'.selectors[t]) && !st'.selectors[t].signalled {
      assert SameEvents(st.sockets[s], st'.sockets[s]);
      var w :| w in st.walkers && st.walkers[w].socket == s && Coming(st, st.walkers[w], t);
      assert w in st'.walkers && st'.walkers[w].socket == s && Coming(st', st'.walkers[w], t);
    }
  }

  /** Selectors a step does not touch stay sound. */
  lemma BystanderStaysSound(st: State, st': State, t: Thread)
    requires Undisturbed(st, st', t) && Sound(st, t) && t in st'.list
    requires st'.selectors[t] == st.selectors[t].(signalled := st'.selectors[t].signalled)
    ensures Sound(st', t)
  {
    forall s | s in st'.selectors[t].scanned && !st'.selectors[t].phase.Leaving? ensures Told(st', t, s) {
      UndisturbedStaysTold(st, st', t, s);
    }
  }

  lemma SameCounters(st: State, st': State, s: nat)
    requires forall t :: t in st.selectors && s in st.selectors[t].counted <==> t in st'.selectors && s in st'.selectors[t].counted
    ensures Counters(st', s) == Counters(st, s)
  {
  }

  /** A selector that adds itself to the list disturbs nobody: every walker will start over. */
  lemma EnlistKeepsInv(st: State, op: Op)
    requires Inv(st) && Allowed(st, op) && op.Enlist?
    ensures Inv(Step(st, op))
  {
    var st' := Step(st, op);
    forall t | t in st'.selectors ensures Sound(st', t) {
      if t != op.t {
        assert Sound(st, t);
        BystanderStaysSound(st, st', t);
      }
    }
    forall s | 0 <= s < |st.sockets| ensures st'.sockets[s].waiting == |Counters(st', s)| {
      SameCounters(st, st', s);
    }
  }

  lemma DelistKeepsInv(st: State, t0: Thread)
    requires Inv(st) && Allowed(st, Delist(t0))
    ensures Inv(Step(st, Delist(t0)))
  {
    var st' := Step(st, Delist(t0));
    WithoutMembers(st.list, t0);
    forall t | t in st'.selectors ensures Sound(st', t) {
      assert Sound(st, t);
      BystanderStaysSound(st, st', t);
    }
    forall s | 0 <= s < |st.sockets| ensures st'.sockets[s].waiting == |Counters(st', s)| {
      SameCounters(st, st', s);
    }
  }

  /** Counting in and out keeps select_waiting the number of selectors counted. */
  lemma CountersAfter(st: State, t0: Thread, s0: nat, c: set<nat>, d: int, s: nat)
    requires t0 in st.selectors && s0 < |st.sockets| && s < |st.sockets| && st.sockets[s].waiting == |Counters(st, s)|
    requires if d == 1 then s0 !in st.selectors[t0].counted && c == st.selectors[t0].counted + {s0}
             else d == -1 && s0 in st.selectors[t0].counted && c == st.selectors[t0].counted - {s0}
    ensures var st' := AddWaiting(Update(st, t0, st.selectors[t0].(counted := c)), s0, d);
      st'.sockets[s].waiting == |Counters(st', s)|
  {
    var st' := AddWaiting(Update(st, t0, st.selectors[t0].(counted := c)), s0, d);
    if s != s0 {
      SameCounters(st, st', s);
    } else if d == 1 {
      assert Counters(st', s) == Counters(st, s) + {t0} && t0 !in Counters(st, s);
    } else {
      assert Counters(st', s) == Counters(st, s) - {t0} && t0 in Counters(st, s);
    }
  }

  lemma CountKeepsInv(st: State, t0: Thread, s0: nat, c: set<nat>, d: int)
    requires Inv(st) && t0 in st.selectors && s0 < |st.sockets|
    requires if d == 1 then s0 !in st.selectors[t0].counted && c == st.selectors[t0].counted + {s0} && s0 in Watched(st.selectors[t0]) && st.selectors[t0].phase.Counting?
             else d == -1 && s0 in st.selectors[t0].counted && c == st.selectors[t0].counted - {s0} && st.selectors[t0].phase.Leaving?
    ensures Inv(AddWaiting(Update(st, t0, st.selectors[t0].(counted := c)), s0, d))
  {
    var st' := AddWaiting(Update(st, t0, st.selectors[t0].(counted := c)), s0, d);
    forall t | t in st'.selectors ensures Sound(st', t) {
      assert Sound(st, t);
      if t != t0 {
        BystanderStaysSound(st, st', t);
      }
    }
    forall s | 0 <= s < |st.sockets| ensures st'.sockets[s].waiting == |Counters(st', s)| {
      CountersAfter(st, t0, s0, c, d, s);
    }
  }

  /** The selector's own steps that change neither list, sockets nor walkers. */
  lemma OwnStepKeepsInv(st: State, t0: Thread, q: Selector)
    requires Inv(st) && t0 in st.selectors && q.counted == st.selectors[t0].counted && Sound(Update(st, t0, q), t0)
    ensures Inv(Update(st, t0, q))
  {
    var st' := Update(st, t0, q);
    forall t | t in st'.selectors ensures Sound(st', t) {
      if t != t0 {
        assert Sound(st, t);
        BystanderStaysSound(st, st', t);
      }
    }
    forall s | 0 <= s < |st.sockets| ensures st'.sockets[s].waiting == |Counters(st', s)| {
      SameCounters(st, st', s);
    }
  }

  lemma OwnStaysTold(st: State, t: Thread, q: Selector, s: nat)
    requires t in st.selectors && SameSets(st.selectors[t], q) && s < |st.sockets| && Told(st, t, s)
    ensures Told(Update(st, t, q), t, s)
  {
    UndisturbedStaysTold(st, Update(st, t, q), t, s);
  }

  lemma ScanKeepsInv(st: State, t: Thread, s: nat)
    requires Inv(st) && Allowed(st, Scan(t, s))
    ensures Inv(Step(st, Scan(t, s)))
  {
    assert Sound(st, t);
    var q := Step(st, Scan(t, s)).selectors[t];
    forall s' | s' in q.scanned ensures Told(Update(st, t, q), t, s') {
      if s' in st.selectors[t].scanned {
        OwnStaysTold(st, t, q, s');
      }
    }
    OwnStepKeepsInv(st, t, q);
  }

  lemma PhaseKeepsInv(st: State, t: Thread, phase: Phase)
    requires Inv(st) && t in st.selectors
    requires phase.Asleep? ==> st.selectors[t].phase.Scanning? && st.selectors[t].scanned == Watched(st.selectors[t])
    requires phase.Asleep? || phase.Leaving?
    ensures Inv(Update(st, t, st.selectors[t].(phase := phase)))
  {
    assert Sound(st, t);
    var q := st.selectors[t].(phase := phase);
    forall s | s in q.scanned && !phase.Leaving? ensures Told(Update(st, t, q), t, s) {
      OwnStaysTold(st, t, q, s);
    }
    OwnStepKeepsInv(st, t, q);
  }

  lemma DataKeepsInv(st: State, s0: nat, data: bool)
    requires Inv(st) && s0 < |st.sockets|
    ensures Inv(st.(sockets := st.sockets[s0 := st.sockets[s0].(lastdata := data)]))
  {
    var st' := st.(sockets := st.sockets[s0 := st.sockets[s0].(lastdata := data)]);
    forall t | t in st'.selectors ensures Sound(st', t) {
      assert Sound(st, t);
      BystanderStaysSound(st, st', t);
    }
    forall s | 0 <= s < |st.sockets| ensures st'.sockets[s].waiting == |Counters(st', s)| {
      SameCounters(st, st', s);
    }
  }

  // ---- Walking the list ----

  /** Told, for a state in which walker `w` is about to visit entry `i` on behalf of socket `s0`. */
  ghost predicate Owed(st: State, t: Thread, s: nat, w: Walk, s0: nat, i: nat)
    requires t in st.selectors && s < |st.sockets|
  {
    Ready(st.sockets[s], s, st.selectors[t]) && !st.selectors[t].signalled ==>
      || (s == s0 && i <= |st.list| && t !in st.list[..i])
      || exists w' :: w' != w && w' in st.walkers && st.walkers[w'].socket == s && Coming(st, st.walkers[w'], t)
  }

  lemma WalkTells(st: State, w: Walk, s0: nat, i: nat, t: Thread, s: nat)
    requires t in st.selectors && t in st.list && s < |st.sockets| && s0 < |st.sockets| && Owed(st, t, s, w, s0, i)
    ensures t in WalkFrom(st, w, s0, i).selectors && Told(WalkFrom(st, w, s0, i), t, s)
  {
    var st' := WalkFrom(st, w, s0, i);
    if Ready(st.sockets[s], s, st.selectors[t]) && !st'.selectors[t].signalled {
      if s == s0 && i <= |st.list| && t !in st.list[..i] {
        var j := IndexOf(st.list, t);
        assert i <= j < |st.list|;
        assert st.list[..i + 1] == st.list[..i] + [st.list[i]];
        assert Coming(st', st'.walkers[w], t);
      } else {
        var w' :| w' != w && w' in st.walkers && st.walkers[w'].socket == s && Coming(st, st.walkers[w'], t);
        assert w' in st'.walkers && st'.walkers[w'].socket == s && Coming(st', st'.walkers[w'], t);
      }
    }
  }

  /** All of the invariant, with one walker's next visit still owed. */
  ghost predicate Owing(st: State, w: Walk, s0: nat, i: nat) {
    && s0 < |st.sockets|
    && (forall t :: t in st.selectors ==> SoundOwing(st, t, w, s0, i))
    && NoDup(st.list) && (forall t :: t in st.list ==> t in st.selectors)
    && (forall s :: 0 <= s < |st.sockets| ==> st.sockets[s].waiting == |Counters(st, s)|)
    && (forall w :: w in st.walkers ==> st.walkers[w].socket < |st.sockets| && st.walkers[w].changes <= st.changes)
  }

  ghost predicate SoundOwing(st: State, t: Thread, w: Walk, s0: nat, i: nat)
    requires t in st.selectors
  {
    var q := st.selectors[t];
    && t in st.list
    && q.counted <= Watched(q) && q.scanned <= Watched(q)
    && (forall s :: s in Watched(q) ==> s < |st.sockets|)
    && (q.phase.Counting? ==> q.scanned == {})
    && (q.phase.Scanning? || q.phase.Asleep? ==> q.counted == Watched(q))
    && (q.phase.Asleep? ==> q.scanned == Watched(q))
    && (!q.phase.Leaving? ==> forall s :: s in q.scanned ==> Owed(st, t, s, w, s0, i))
  }

  lemma WalkKeepsSound(st: State, w: Walk, s0: nat, i: nat, t: Thread)
    requires t in st.selectors && s0 < |st.sockets| && SoundOwing(st, t, w, s0, i)
    ensures t in WalkFrom(st, w, s0, i).selectors && Sound(WalkFrom(st, w, s0, i), t)
  {
    var st' := WalkFrom(st, w, s0, i);
    forall s | s in st'.selectors[t].scanned && !st'.selectors[t].phase.Leaving? ensures Told(st', t, s) {
      WalkTells(st, w, s0, i, t, s);
    }
  }

  lemma WalkKeepsInv(st: State, w: Walk, s0: nat, i: nat)
    requires Owing(st, w, s0, i)
    ensures Inv(WalkFrom(st, w, s0, i))
  {
    var st' := WalkFrom(st, w, s0, i);
    forall t | t in st'.selectors ensures Sound(st', t) {
      WalkKeepsSound(st, w, s0, i, t);
    }
    forall s | 0 <= s < |st.sockets| ensures st'.sockets[s].waiting == |Counters(st', s)| {
      SameCounters(st, st', s);
    }
  }

  lemma ToldIsOwed(st: State, w: Walk, t: Thread, s: nat)
    requires w in st.walkers && t in st.selectors && s < |st.sockets| && Told(st, t, s) && t in st.list
    ensures var k := st.walkers[w]; Owed(st, t, s, w, k.socket, if k.changes == st.changes then k.visited else 0)
  {
    var k := st.walkers[w];
    assert st.list[..|st.list|] == st.list;
    if Ready(st.sockets[s], s, st.selectors[t]) && !st.selectors[t].signalled {
      var w' :| w' in st.walkers && st.walkers[w'].socket == s && Coming(st, st.walkers[w'], t);
    }
  }

  lemma ProceedKeepsInv(st: State, w: Walk)
    requires Inv(st) && Allowed(st, Proceed(w))
    ensures Inv(Step(st, Proceed(w)))
  {
    var k := st.walkers[w];
    var i := if k.changes == st.changes then k.visited else 0;
    forall t | t in st.selectors ensures SoundOwing(st, t, w, k.socket, i) {
      assert Sound(st, t);
      forall s | s in st.selectors[t].scanned && !st.selectors[t].phase.Leaving? ensures Owed(st, t, s, w, k.socket, i) {
        ToldIsOwed(st, w, t, s);
      }
    }
    WalkKeepsInv(st, w, k.socket, i);
  }

  /** An event on a socket makes its own callback owe every selector a visit. */
  lemma EventIsOwed(st: State, st1: State, w: Walk, s0: nat, t: Thread)
    requires w !in st.walkers && t in st.selectors && Sound(st, t) && s0 < |st.sockets| == |st1.sockets|
    requires st1 == st.(sockets := st1.sockets) && forall s :: 0 <= s < |st.sockets| && s != s0 ==> st1.sockets[s] == st.sockets[s]
    ensures SoundOwing(st1, t, w, s0, 0)
  {
    forall s | s in st.selectors[t].scanned && !st.selectors[t].phase.Leaving? ensures Owed(st1, t, s, w, s0, 0) {
      if s != s0 && Ready(st.sockets[s], s, st.selectors[t]) && !st.selectors[t].signalled {
        assert Told(st, t, s);
        var w' :| w' in st.walkers && st.walkers[w'].socket == s && Coming(st, st.walkers[w'], t);
        assert w' != w && w' in st1.walkers && Coming(st1, st1.walkers[w'], t);
      }
    }
  }

  /** Nobody has counted itself on the socket, so nobody has scanned it in vain. */
  lemma UnwatchedEvent(st: State, st1: State, s0: nat, t: Thread)
    requires t in st.selectors && Sound(st, t) && s0 < |st.sockets| == |st1.sockets| && s0 !in st.selectors[t].counted
    requires st1 == st.(sockets := st1.sockets) && forall s :: 0 <= s < |st.sockets| && s != s0 ==> st1.sockets[s] == st.sockets[s]
    ensures Sound(st1, t)
  {
    forall s | s in st.selectors[t].scanned && !st.selectors[t].phase.Leaving? ensures Told(st1, t, s) {
      assert Told(st, t, s) && s != s0;
      if Ready(st1.sockets[s], s, st.selectors[t]) && !st.selectors[t].signalled {
        var w :| w in st.walkers && st.walkers[w].socket == s && Coming(st, st.walkers[w], t);
        assert w in st1.walkers && Coming(st1, st1.walkers[w], t);
      }
    }
  }

  lemma NotifyKeepsInv(st: State, w: Walk, s0: nat, e: Event)
    requires Inv(st) && Allowed(st, Notify(w, s0, e))
    ensures Inv(Step(st, Notify(w, s0, e)))
  {
    var st1 := st.(sockets := st.sockets[s0 := SetEvent(st.sockets[s0], e)]);
    forall s | 0 <= s < |st.sockets| ensures st1.sockets[s].waiting == |Counters(st1, s)| {
      SameCounters(st, st1, s);
    }
    if st1.sockets[s0].waiting == 0 {
      assert Counters(st, s0) == {};
      forall t | t in st1.selectors ensures Sound(st1, t) {
        assert Sound(st, t) && t !in Counters(st, s0);
        UnwatchedEvent(st, st1, s0, t);
      }
    } else {
      forall t | t in st1.selectors ensures SoundOwing(st1, t, w, s0, 0) {
        assert Sound(st, t);
        EventIsOwed(st, st1, w, s0, t);
      }
      WalkKeepsInv(st1, w, s0, 0);
    }
  }

  lemma StepKeepsInv(st: State, op: Op)
    requires Inv(st) && Allowed(st, op)
    ensures Inv(Step(st, op)) && |Step(st, op).sockets| == |st.sockets|
  {
    match op
    case Enlist(_, _, _, _) => EnlistKeepsInv(st, op);
    case Count(t, s) => CountKeepsInv(st, t, s, st.selectors[t].counted + {s}, 1);
    case Scan(t, s) => ScanKeepsInv(st, t, s);
    case Sleep(t) => PhaseKeepsInv(st, t, Asleep);
    case Wake(t) => PhaseKeepsInv(st, t, Leaving);
    case Uncount(t, s) => CountKeepsInv(st, t, s, st.selectors[t].counted - {s}, -1);
    case Delist(t) => DelistKeepsInv(st, t);
    case Notify(w, s, e) => NotifyKeepsInv(st, w, s, e);
    case Proceed(w) => ProceedKeepsInv(st, w);
    case LeaveData(s) => DataKeepsInv(st, s, true);
    case TakeData(s) => DataKeepsInv(st, s, false);
  }

  // ---- Every run ----

  ghost predicate CanRun(st: State, ops: seq<Op>)
    decreases |ops|
  {
    ops == [] || (Allowed(st, ops[0]) && CanRun(Step(st, ops[0]), ops[1..]))
  }

  ghost function Run(st: State, ops: seq<Op>): State
    requires CanRun(st, ops)
    decreases |ops|
  {
    if ops == [] then st else Run(Step(st, ops[0]), ops[1..])
  }

  lemma {:induction false} RunKeepsInv(st: State, ops: seq<Op>)
    requires Inv(st) && CanRun(st, ops)
    ensures Inv(Run(st, ops)) && |Run(st, ops).sockets| == |st.sockets|
    decreases |ops|
  {
    if ops != [] {
      StepKeepsInv(st, ops[0]);
      RunKeepsInv(Step(st, ops[0]), ops[1..]);
    }
  }

  /** Sockets in any condition, and nobody in select or event_callback. */
  ghost predicate Fresh(st: State) {
    st.list == [] && st.selectors == map[] && st.walkers == map[] && forall s :: 0 <= s < |st.sockets| ==> st.sockets[s].waiting == 0
  }

  lemma FreshIsSound(st: State)
    requires Fresh(st)
    ensures Inv(st)
  {
    forall s | 0 <= s < |st.sockets| ensures st.sockets[s].waiting == |Counters(st, s)| {
      assert Counters(st, s) == {};
    }
  }

  ghost predicate SleepsOn(st: State, t: Thread, s: nat) {
    t in st.selectors && st.selectors[t].phase.Asleep? && !st.selectors[t].signalled && s in Watched(st.selectors[t]) && s < |st.sockets|
  }

  /** No select wake-up is lost, in any interleaving of selectors and callbacks. If a selector sleeps unsignalled
      while a socket it watches has an event for it, an event_callback for that socket is still under way and
      has yet to visit it, or is about to start over because the list has changed. */
  lemma NoLostSelect(st0: State, ops: seq<Op>, t: Thread, s: nat)
    requires Fresh(st0) && CanRun(st0, ops) && SleepsOn(Run(st0, ops), t, s)
    requires Ready(Run(st0, ops).sockets[s], s, Run(st0, ops).selectors[t])
    ensures var st := Run(st0, ops);
      exists w :: w in st.walkers && st.walkers[w].socket == s && Coming(st, st.walkers[w], t)
  {
    FreshIsSound(st0);
    RunKeepsInv(st0, ops);
    var st := Run(st0, ops);
    assert Sound(st, t);
    assert Told(st, t, s);
  }

  /** So once the callbacks have ended, the one thing a sleeping selector may have missed is data that another
      thread left over from a read: a third scan would find such a socket, and nothing else, ready. */
  lemma OnlyLeftoverDataIsMissed(st0: State, ops: seq<Op>, t: Thread, s: nat)
    requires Fresh(st0) && CanRun(st0, ops) && SleepsOn(Run(st0, ops), t, s)
    requires forall w :: w in Run(st0, ops).walkers ==> Run(st0, ops).walkers[w].socket != s
    ensures var st := Run(st0, ops);
      ScanReady(st.sockets[s], s, st.selectors[t]) <==> st.sockets[s].lastdata && s in st.selectors[t].forRead
  {
    var st := Run(st0, ops);
    if Ready(st.sockets[s], s, st.selectors[t]) {
      NoLostSelect(st0, ops, t, s);
    }
  }

  /** A callback ends: every step brings it nearer the end of the list, unless a change sends it back. */
  ghost function Remaining(st: State, w: Walk): nat
    requires w in st.walkers
  {
    var k := st.walkers[w];
    if k.changes == st.changes then (if k.visited <= |st.list| then |st.list| - k.visited else 0) else |st.list| + 1
  }

  lemma CallbackEnds(st: State, w: Walk)
    requires Inv(st) && Allowed(st, Proceed(w))
    ensures var st' := Step(st, Proceed(w));
      && st'.changes == st.changes && st'.list == st.list
      && (w in st'.walkers ==> Remaining(st', w) < Remaining(st, w))
      && (Remaining(st, w) == 0 ==> w !in st'.walkers)
  {
  }

  lemma Then(st: State, op: Op, st1: State, rest: seq<Op>)
    requires Allowed(st, op) && Step(st, op) == st1 && CanRun(st1, rest)
    ensures CanRun(st, [op] + rest) && Run(st, [op] + rest) == Run(st1, rest)
  {
    assert ([op] + rest)[1..] == rest;
  }

  /** And that is missed. A message comes in and another thread takes it out of the mailbox; then a selector finds
      the socket idle and goes to sleep; then the other thread leaves part of the message over. */
  lemma LeftoverDataIsMissed() returns (st0: State, ops: seq<Op>)
    ensures Fresh(st0) && CanRun(st0, ops) && SleepsOn(Run(st0, ops), 0, 0) && Run(st0, ops).walkers == map[]
    ensures ScanReady(Run(st0, ops).sockets[0], 0, Run(st0, ops).selectors[0])
  {
    var k := Socket(0, false, false, false, 0);
    st0 := State([k], [], 0, map[], map[]);
    var st1 := State([k.(rcvevent := 1)], [], 0, map[], map[]);
    var asleep := LoneSelectorSleeps(st0, k);
    var last := asleep.(sockets := [k.(waiting := 1, lastdata := true)]);
    Then(asleep, LeaveData(0), last, []);
    RunAppend(st0, SLEEP, [LeaveData(0)] + []);
    var rest := SLEEP + ([LeaveData(0)] + []);
    Then(st1, Notify(0, 0, RcvMinus), st0, rest);
    Then(st0, Notify(0, 0, RcvPlus), st1, [Notify(0, 0, RcvMinus)] + rest);
    ops := [Notify(0, 0, RcvPlus)] + ([Notify(0, 0, RcvMinus)] + rest);
  }

  const SLEEP: seq<Op> := [Enlist(0, {0}, {}, {})] + ([Op.Count(0, 0)] + ([Scan(0, 0)] + ([Sleep(0)] + [])))

  lemma LoneSelectorSleeps(st0: State, k: Socket) returns (st: State)
    requires st0 == State([k], [], 0, map[], map[]) && k == Socket(0, false, false, false, 0)
    ensures CanRun(st0, SLEEP) && Run(st0, SLEEP) == st && SleepsOn(st, 0, 0)
    ensures st.sockets == [k.(waiting := 1)] && st.walkers == map[] && st.selectors.Keys == {0} && st.selectors[0].forRead == {0}
  {
    var q := Selector({0}, {}, {}, false, Counting, {}, {}, false);
    var st1 := State([k], [0], 1, map[0 := q], map[]);
    var st2 := State([k.(waiting := 1)], [0], 1, map[0 := q.(counted := {0})], map[]);
    var st3 := st2.(selectors := map[0 := q.(counted := {0}, phase := Scanning, scanned := {0})]);
    st := st2.(selectors := map[0 := q.(counted := {0}, phase := Asleep, scanned := {0})]);
    assert Watched(q) == {0};
    assert {} + {0} == {0};
    Then(st3, Sleep(0), st, []);
    Then(st2, Scan(0, 0), st3, [Sleep(0)] + []);
    Then(st1, Op.Count(0, 0), st2, [Scan(0, 0)] + ([Sleep(0)] + []));
    Then(st0, Enlist(0, {0}, {}, {}), st1, [Op.Count(0, 0)] + ([Scan(0, 0)] + ([Sleep(0)] + [])));
  }

  lemma {:induction false} RunAppend(st: State, a: seq<Op>, b: seq<Op>)
    requires CanRun(st, a) && CanRun(Run(st, a), b)
    ensures CanRun(st, a + b) && Run(st, a + b) == Run(Run(st, a), b)
    decreases |a|
  {
    if a == [] {
      assert a + b == b;
    } else {
      RunAppend(Step(st, a[0]), a[1..], b);
      Then(st, a[0], Step(st, a[0]), a[1..] + b);
      assert [a[0]] + (a[1..] + b) == a + b;
    }
  }
}
