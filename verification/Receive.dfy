/** sockets.c: lwip_recvfrom on a TCP socket. Whatever the stream is cut into, whatever lengths are read and whatever
    the stack does meanwhile, the bytes come out once and in order, and it is known how far the window is opened. */
module Receive {
  import opened Sequences

  /** A chain of pbufs as TCP hands it over; `push` is PBUF_FLAG_PUSH. */
  datatype Pbuf = Pbuf(data: seq<byte>, push: bool)

  /** What the mailbox holds: data, or the null pointer that ends the stream or wakes a reader after an error. */
  datatype Mail = Chunk(pbuf: Pbuf) | Null

  /** The last two are the fatal ones, ERR_CLSD and ERR_ABRT or ERR_RST. */
  datatype Error = WouldBlock | TimedOut | Closed | Aborted

  type Fatal = e: Error | e.Closed? || e.Aborted? witness Closed

  /** What the stack does: recv_tcp posts data or the end of the stream and counts it in sock->rcvevent after that;
      err_tcp takes the pcb away and posts if the mailbox has room. */
  datatype Event =
    | Data(pbuf: Pbuf)
    | Fin
    | Failure(error: Fatal, room: bool)
    | Counted

  /** `arrived` is all the data TCP has handed over, `owed` the events posted and not counted yet, and `credited` how
      far the calls of tcp_recved opened the window. */
  datatype Stream = Stream(mailbox: seq<Mail>, lastErr: Option<Fatal>, pcb: bool, owed: nat, rcvevent: int,
                           lastdata: Option<Pbuf>, lastoffset: nat, arrived: seq<byte>, credited: nat)

  const NEW := Stream([], None, true, 0, 0, None, 0, [], 0)

  /** What the stack does in one turn of the loop of lwip_recvfrom: before the test of rcvevent, before that of
      last_err, in the wait for mail, and until rcvevent is tested again. */
  datatype Turn = Turn(before: seq<Event>, checked: seq<Event>, waiting: seq<Event>, fetched: seq<Event>)

  const QUIET := Turn([], [], [], [])

  /** `waits` is neither MSG_DONTWAIT nor a non-blocking netconn; `last` is what the stack does before the window is
      opened at the end of the call. A wait that finds the mailbox empty is one that timed out. */
  datatype Call = Call(length: nat, peek: bool, waits: bool, turns: seq<Turn>, last: seq<Event>)

  datatype Answer = Answer(mem: seq<byte>, peek: bool, error: Option<Error>)

  /** What lwip_recvfrom returns: -1 is None. */
  function Count(a: Answer): Option<nat> {
    if a.mem != [] || a.error.None? || a.error.value.Closed? then Some(|a.mem|) else None
  }

  // ---- The stack ----

  function Occur(st: Stream, e: Event): Stream {
    match e
    case Data(p) => st.(mailbox := st.mailbox + [Chunk(p)], owed := st.owed + 1, arrived := st.arrived + p.data)
    case Fin => st.(mailbox := st.mailbox + [Null], owed := st.owed + 1)
    case Failure(error, room) =>
      st.(pcb := false, lastErr := Some(error), owed := st.owed + 1, mailbox := if room then st.mailbox + [Null] else st.mailbox)
    case Counted => if st.owed > 0 then st.(owed := st.owed - 1, rcvevent := st.rcvevent + 1) else st
  }

  function Occurs(st: Stream, events: seq<Event>): (r: Stream)
    ensures r.lastdata == st.lastdata && r.lastoffset == st.lastoffset
    ensures r.pcb ==> st.pcb && r.lastErr == st.lastErr
    decreases |events|
  {
    if events == [] then st else Occurs(Occur(st, events[0]), events[1..])
  }

  /** Each event's mail; an error finds room for its null pointer or leaves no mail. */
  function Mails(events: seq<Event>): seq<Mail> {
    if events == [] then []
    else
      (match events[0]
       case Data(p) => [Chunk(p)]
       case Fin => [Null]
       case Failure(_, room) => if room then [Null] else []
       case Counted => []) + Mails(events[1..])
  }

  function LastFailure(events: seq<Event>): Option<Fatal> {
    if events == [] then None
    else if LastFailure(events[1..]).Some? then LastFailure(events[1..])
    else if events[0].Failure? then Some(events[0].error) else None
  }

  /** What the stack did is in the mailbox in order, the last error is that of its last failure, the pcb is there iff
      none came, and each event but the counting adds one to what rcvevent shows or is still to show. */
  lemma {:induction false} EventsAreThoseThatCame(st: Stream, events: seq<Event>)
    ensures var st' := Occurs(st, events); var failed := LastFailure(events);
      && st'.mailbox == st.mailbox + Mails(events)
      && st'.lastErr == (if failed.Some? then failed else st.lastErr)
      && st'.pcb == (st.pcb && failed.None?)
      && st'.rcvevent + st'.owed == st.rcvevent + st.owed + |events| - Countings(events)
      && st'.rcvevent >= st.rcvevent && st'.credited == st.credited
    decreases |events|
  {
    if events != [] {
      EventsAreThoseThatCame(Occur(st, events[0]), events[1..]);
    }
  }

  function Countings(events: seq<Event>): nat {
    if events == [] then 0 else (if events[0].Counted? then 1 else 0) + Countings(events[1..])
  }

  /** netconn_recved and do_recv. */
  function Recved(st: Stream, length: nat): Stream {
    if st.pcb then st.(credited := st.credited + length) else st
  }

  // ---- lwip_recvfrom ----

  /** The end of netconn_recv_data: the mail is counted off, and a null pointer is acknowledged to the stack and
      becomes the last error unless there is one. */
  function Take(st: Stream, fetched: seq<Event>): (Stream, Option<Error>)
    requires st.mailbox != []
  {
    var st1 := st.(mailbox := st.mailbox[1..], rcvevent := st.rcvevent - 1);
    match st.mailbox[0]
    case Chunk(p) => (Occurs(st1.(lastdata := Some(p)), fetched), None)
    case Null =>
      var st2 := Occurs(st1, fetched);
      (Recved(st2, 1).(lastErr := if st2.lastErr.Some? then st2.lastErr else Some(Closed)), Some(Closed))
  }

  /** netconn_recv_data. */
  function Fetch(st: Stream, turn: Turn): (Stream, Option<Error>) {
    var st1 := Occurs(st, turn.checked);
    if st1.lastErr.Some? then (st1, st1.lastErr) else
    var st2 := Occurs(st1, turn.waiting);
    if st2.mailbox == [] then (st2, Some(TimedOut)) else Take(st2, turn.fetched)
  }

  /** Making sure there is a buffer to copy from: the one left over or the next from the mailbox. */
  function Refill(st: Stream, waits: bool, turn: Turn): (r: (Stream, Option<Error>))
    ensures r.1.None? ==> r.0.lastdata.Some?
  {
    var st1 := Occurs(st, turn.before);
    if st1.lastdata.Some? then (Occurs(st1, turn.fetched), None)
    else if !waits && st1.rcvevent <= 0 then (st1, Some(WouldBlock))
    else Fetch(st1, turn)
  }

  function Left(st: Stream): seq<byte> {
    if st.lastdata.Some? && st.lastoffset <= |st.lastdata.value.data| then st.lastdata.value.data[st.lastoffset..] else []
  }

  /** Copying out of the buffer; unless the call peeks, what was copied is dropped, and the buffer with its last byte. */
  function Copy(st: Stream, room: nat, peek: bool): (Stream, seq<byte>)
    requires st.lastdata.Some?
  {
    var chunk := Left(st)[..Least(room, |Left(st)|)];
    (if peek then st
     else if |Left(st)| > |chunk| then st.(lastoffset := st.lastoffset + |chunk|)
     else st.(lastdata := None, lastoffset := 0), chunk)
  }

  /** What a turn of the loop leaves: the state, the bytes copied so far, whether it was the last, and its error. */
  datatype Turned = Turned(st: Stream, mem: seq<byte>, done: bool, error: Option<Error>)

  function TurnOf(st: Stream, call: Call, mem: seq<byte>, turn: Turn): Turned
    requires |mem| <= call.length
  {
    var (st1, error) := Refill(st, call.waits, turn);
    if error.Some? then Turned(st1, mem, true, error) else
    var (st2, chunk) := Copy(st1, call.length - |mem|, call.peek);
    var mem' := mem + chunk;
    Turned(st2, mem', |mem'| >= call.length || st1.lastdata.value.push || st1.rcvevent <= 0 || call.peek, None)
  }

  function First(turns: seq<Turn>): Turn {
    if turns == [] then QUIET else turns[0]
  }

  function Rest(turns: seq<Turn>): seq<Turn> {
    if turns == [] then [] else turns[1..]
  }

  function Buffers(st: Stream): nat {
    |st.mailbox| + if st.lastdata.Some? then 1 else 0
  }

  /** A turn without events uses up a buffer or is the last. */
  lemma QuietTurnEnds(st: Stream, call: Call, mem: seq<byte>)
    requires |mem| <= call.length
    ensures var t := TurnOf(st, call, mem, QUIET); |t.mem| <= call.length && (t.done || Buffers(t.st) < Buffers(st))
  {
  }

  lemma TurnFits(st: Stream, call: Call, mem: seq<byte>, turn: Turn)
    requires |mem| <= call.length
    ensures |TurnOf(st, call, mem, turn).mem| <= call.length
  {
  }

  /** The loop of lwip_recvfrom from one of its turns on. */
  function Loop(st: Stream, call: Call, turns: seq<Turn>, mem: seq<byte>): (Stream, Answer)
    requires |mem| <= call.length
    decreases |turns|, Buffers(st)
  {
    QuietTurnEnds(st, call, mem);
    TurnFits(st, call, mem, First(turns));
    var t := TurnOf(st, call, mem, First(turns));
    if t.done then (t.st, Answer(t.mem, call.peek, t.error)) else Loop(t.st, call, Rest(turns), t.mem)
  }

  /** The end of a call that has copied something. */
  function Conclude(st: Stream, mem: seq<byte>): Stream {
    if mem != [] then Recved(st, |mem|) else st
  }

  /** lwip_recvfrom */
  function Receive(st: Stream, call: Call): (Stream, Answer) {
    var (st1, a) := Loop(st, call, call.turns, []);
    var st2 := Occurs(st1, call.last);
    (Conclude(st2, a.mem), a)
  }

  // ---- What a call keeps ----

  function BytesOf(mail: Mail): seq<byte> {
    if mail.Chunk? then mail.pbuf.data else []
  }

  function Bytes(mails: seq<Mail>): seq<byte> {
    if mails == [] then [] else BytesOf(mails[0]) + Bytes(mails[1..])
  }

  /** What is still to be read. */
  function Pending(st: Stream): seq<byte> {
    Left(st) + Bytes(st.mailbox)
  }

  lemma Associative(a: seq<byte>, b: seq<byte>, c: seq<byte>)
    ensures a + (b + c) == a + b + c
  {
  }

  lemma {:induction false} BytesOfOneMore(mails: seq<Mail>, mail: Mail)
    ensures Bytes(mails + [mail]) == Bytes(mails) + BytesOf(mail)
  {
    if mails == [] {
      assert [mail][1..] == [];
    } else {
      var rest := mails[1..];
      BytesOfOneMore(rest, mail);
      assert (mails + [mail])[1..] == rest + [mail];
      Associative(BytesOf(mails[0]), Bytes(rest), BytesOf(mail));
    }
  }

  /** A left-over buffer is read up to a place in it. */
  predicate Tidy(st: Stream) {
    if st.lastdata.Some? then st.lastoffset <= |st.lastdata.value.data| else st.lastoffset == 0
  }

  /** While there is a pcb rcvevent is the number of mails, less those not counted yet, and the end of the stream the
      only error; the pcb goes with an error. */
  predicate Tied(st: Stream) {
    && (st.pcb ==> st.rcvevent + st.owed == |st.mailbox| && st.lastErr != Some(Aborted))
    && (st.lastErr.None? ==> st.pcb)
  }

  /** While there is a pcb the window was opened by the bytes read, and one more once the end of the stream was taken. */
  predicate Windowed(st: Stream, read: nat) {
    st.pcb ==> st.credited == read + if st.lastErr.Some? then 1 else 0
  }

  /** The bytes in the middle of a call: those of earlier calls, those copied and those pending make up all that
      arrived; in a peek the copied ones are the front of the pending ones. */
  ghost predicate Balanced(front: seq<byte>, mem: seq<byte>, peek: bool, pending: seq<byte>, arrived: seq<byte>) {
    if peek then front + pending == arrived && mem <= pending else front + (mem + pending) == arrived
  }

  ghost predicate InCall(st: Stream, front: seq<byte>, mem: seq<byte>, peek: bool, read: nat) {
    && Tidy(st) && Tied(st) && Windowed(st, read)
    && Balanced(front, mem, peek, Pending(st), st.arrived)
  }

  lemma MoreArrived(front: seq<byte>, mem: seq<byte>, peek: bool, pending: seq<byte>, arrived: seq<byte>, more: seq<byte>)
    requires Balanced(front, mem, peek, pending, arrived)
    ensures Balanced(front, mem, peek, pending + more, arrived + more)
  {
    assert mem + (pending + more) == mem + pending + more;
    assert front + (mem + pending + more) == front + (mem + pending) + more;
    assert front + (pending + more) == front + pending + more;
  }

  lemma OccurKeepsCall(st: Stream, e: Event, front: seq<byte>, mem: seq<byte>, peek: bool, read: nat)
    requires InCall(st, front, mem, peek, read)
    ensures InCall(Occur(st, e), front, mem, peek, read)
  {
    if e.Data? || e.Fin? || (e.Failure? && e.room) {
      var mail := if e.Data? then Chunk(e.pbuf) else Null;
      BytesOfOneMore(st.mailbox, mail);
      MoreArrived(front, mem, peek, Pending(st), st.arrived, BytesOf(mail));
      assert Left(st) + (Bytes(st.mailbox) + BytesOf(mail)) == Pending(st) + BytesOf(mail);
      assert st.arrived + [] == st.arrived;
    }
  }

  lemma {:induction false} OccursKeepsCall(st: Stream, events: seq<Event>, front: seq<byte>, mem: seq<byte>, peek: bool, read: nat)
    requires InCall(st, front, mem, peek, read)
    ensures InCall(Occurs(st, events), front, mem, peek, read)
    decreases |events|
  {
    if events != [] {
      OccurKeepsCall(st, events[0], front, mem, peek, read);
      OccursKeepsCall(Occur(st, events[0]), events[1..], front, mem, peek, read);
    }
  }

  lemma TakeKeepsCall(st: Stream, fetched: seq<Event>, front: seq<byte>, mem: seq<byte>, peek: bool, read: nat)
    requires InCall(st, front, mem, peek, read) && st.mailbox != [] && st.lastdata.None? && (st.pcb ==> st.lastErr.None?)
    ensures InCall(Take(st, fetched).0, front, mem, peek, read)
  {
    var st1 := st.(mailbox := st.mailbox[1..], rcvevent := st.rcvevent - 1);
    if st.mailbox[0].Chunk? {
      var p := st.mailbox[0].pbuf;
      assert p.data[0..] == p.data;
      assert Pending(st1.(lastdata := Some(p))) == Pending(st);
      OccursKeepsCall(st1.(lastdata := Some(p)), fetched, front, mem, peek, read);
    } else {
      assert Pending(st1) == Pending(st);
      OccursKeepsCall(st1, fetched, front, mem, peek, read);
      var st2 := Occurs(st1, fetched);
      var st3 := Recved(st2, 1).(lastErr := if st2.lastErr.Some? then st2.lastErr else Some(Closed));
      assert Pending(st3) == Pending(st2);
    }
  }

  lemma FetchKeepsCall(st: Stream, turn: Turn, front: seq<byte>, mem: seq<byte>, peek: bool, read: nat)
    requires InCall(st, front, mem, peek, read) && st.lastdata.None?
    ensures InCall(Fetch(st, turn).0, front, mem, peek, read)
  {
    OccursKeepsCall(st, turn.checked, front, mem, peek, read);
    var st1 := Occurs(st, turn.checked);
    if st1.lastErr.None? {
      OccursKeepsCall(st1, turn.waiting, front, mem, peek, read);
      var st2 := Occurs(st1, turn.waiting);
      if st2.mailbox != [] {
        TakeKeepsCall(st2, turn.fetched, front, mem, peek, read);
      }
    }
  }

  lemma RefillKeepsCall(st: Stream, waits: bool, turn: Turn, front: seq<byte>, mem: seq<byte>, peek: bool, read: nat)
    requires InCall(st, front, mem, peek, read)
    ensures InCall(Refill(st, waits, turn).0, front, mem, peek, read)
  {
    OccursKeepsCall(st, turn.before, front, mem, peek, read);
    var st1 := Occurs(st, turn.before);
    if st1.lastdata.Some? {
      OccursKeepsCall(st1, turn.fetched, front, mem, peek, read);
    } else {
      FetchKeepsCall(st1, turn, front, mem, peek, read);
    }
  }

  /** The next bytes of the buffer are the next of the stream. */
  lemma CopiedIsNext(front: seq<byte>, mem: seq<byte>, peek: bool, left: seq<byte>, rest: seq<byte>, n: nat, arrived: seq<byte>)
    requires Balanced(front, mem, peek, left + rest, arrived) && n <= |left| && (peek ==> mem == [])
    ensures Balanced(front, mem + left[..n], peek, if peek then left + rest else left[n..] + rest, arrived)
  {
    assert left + rest == left[..n] + (left[n..] + rest);
    if peek {
      assert mem + left[..n] == left[..n];
    } else {
      assert mem + left[..n] + (left[n..] + rest) == mem + (left + rest);
    }
  }

  lemma CopyKeepsCall(st: Stream, room: nat, front: seq<byte>, mem: seq<byte>, peek: bool, read: nat)
    requires InCall(st, front, mem, peek, read) && st.lastdata.Some? && (peek ==> mem == [])
    ensures var (st', chunk) := Copy(st, room, peek); InCall(st', front, mem + chunk, peek, read)
  {
    var (st', chunk) := Copy(st, room, peek);
    CopiedIsNext(front, mem, peek, Left(st), Bytes(st.mailbox), |chunk|, st.arrived);
    if !peek {
      assert Left(st') == Left(st)[|chunk|..];
    }
  }

  lemma TurnKeepsCall(st: Stream, call: Call, mem: seq<byte>, turn: Turn, front: seq<byte>, read: nat)
    requires InCall(st, front, mem, call.peek, read) && |mem| <= call.length && (call.peek ==> mem == [])
    ensures var t := TurnOf(st, call, mem, turn);
      InCall(t.st, front, t.mem, call.peek, read) && (t.done || !call.peek)
  {
    RefillKeepsCall(st, call.waits, turn, front, mem, call.peek, read);
    var (st1, error) := Refill(st, call.waits, turn);
    if error.None? {
      CopyKeepsCall(st1, call.length - |mem|, front, mem, call.peek, read);
      CopyingTurn(st, call, mem, turn);
    }
  }

  lemma CopyingTurn(st: Stream, call: Call, mem: seq<byte>, turn: Turn)
    requires |mem| <= call.length && Refill(st, call.waits, turn).1.None?
    ensures var t := TurnOf(st, call, mem, turn);
      var (st', chunk) := Copy(Refill(st, call.waits, turn).0, call.length - |mem|, call.peek);
      t.st == st' && t.mem == mem + chunk && (call.peek ==> t.done)
  {
  }

  lemma {:induction false} LoopKeepsCall(st: Stream, call: Call, turns: seq<Turn>, mem: seq<byte>, front: seq<byte>, read: nat)
    requires InCall(st, front, mem, call.peek, read) && |mem| <= call.length && (call.peek ==> mem == [])
    ensures var (st', a) := Loop(st, call, turns, mem);
      InCall(st', front, a.mem, call.peek, read) && |a.mem| <= call.length && a.peek == call.peek
    decreases |turns|, Buffers(st)
  {
    QuietTurnEnds(st, call, mem);
    TurnFits(st, call, mem, First(turns));
    TurnKeepsCall(st, call, mem, First(turns), front, read);
    var t := TurnOf(st, call, mem, First(turns));
    if !t.done {
      LoopKeepsCall(t.st, call, Rest(turns), t.mem, front, read);
    }
  }

  // ---- Every run of calls ----

  /** What happens to a socket: something in the stack between calls, or a call with all that happens during it. */
  datatype Act = Stack(event: Event) | Read(call: Call)

  datatype History = History(st: Stream, answers: seq<Answer>)

  function Do(h: History, act: Act): History {
    match act
    case Stack(e) => h.(st := Occur(h.st, e))
    case Read(call) => var (st, a) := Receive(h.st, call); History(st, h.answers + [a])
  }

  function Run(h: History, acts: seq<Act>): History
    decreases |acts|
  {
    if acts == [] then h else Run(Do(h, acts[0]), acts[1..])
  }

  const START := History(NEW, [])

  /** The bytes that calls without MSG_PEEK returned, and how many calls with it did. */
  function Returned(answers: seq<Answer>): seq<byte> {
    if answers == [] then [] else
    var a := answers[|answers| - 1];
    Returned(answers[..|answers| - 1]) + if a.peek then [] else a.mem
  }

  function Peeked(answers: seq<Answer>): nat {
    if answers == [] then 0 else
    var a := answers[|answers| - 1];
    Peeked(answers[..|answers| - 1]) + if a.peek then |a.mem| else 0
  }

  ghost predicate Inv(h: History) {
    InCall(h.st, Returned(h.answers), [], false, |Returned(h.answers)| + Peeked(h.answers))
  }

  /** A call begins with nothing copied, whether it peeks or not. */
  lemma CallBegins(st: Stream, front: seq<byte>, peek: bool, read: nat)
    requires InCall(st, front, [], false, read)
    ensures InCall(st, front, [], peek, read)
  {
    assert [] + Pending(st) == Pending(st);
  }

  lemma CopiedIsReturned(front: seq<byte>, mem: seq<byte>, peek: bool, pending: seq<byte>, arrived: seq<byte>)
    requires Balanced(front, mem, peek, pending, arrived)
    ensures Balanced(if peek then front else front + mem, [], false, pending, arrived)
    ensures peek ==> mem <= pending
  {
    assert [] + pending == pending;
    assert front + (mem + pending) == front + mem + pending;
  }

  /** At its end the window is opened by what was copied, and unless it peeked that is now part of what was returned. */
  lemma CallEnds(st: Stream, mem: seq<byte>, front: seq<byte>, peek: bool, read: nat)
    requires InCall(st, front, mem, peek, read)
    ensures var st' := Conclude(st, mem);
      && InCall(st', if peek then front else front + mem, [], false, read + |mem|)
      && (peek ==> mem <= Pending(st'))
  {
    var st' := Conclude(st, mem);
    assert st'.mailbox == st.mailbox && Left(st') == Left(st);
    CopiedIsReturned(front, mem, peek, Pending(st), st.arrived);
  }

  /** A call keeps the stream whole, and one that peeks is shown the next of it. */
  lemma ReceiveKeepsCall(st: Stream, call: Call, front: seq<byte>, read: nat)
    requires InCall(st, front, [], false, read)
    ensures var (st', a) := Receive(st, call);
      && a.peek == call.peek && |a.mem| <= call.length
      && InCall(st', if call.peek then front else front + a.mem, [], false, read + |a.mem|)
      && (call.peek ==> a.mem <= Pending(st'))
  {
    CallBegins(st, front, call.peek, read);
    LoopKeepsCall(st, call, call.turns, [], front, read);
    var (st1, a) := Loop(st, call, call.turns, []);
    OccursKeepsCall(st1, call.last, front, a.mem, call.peek, read);
    CallEnds(Occurs(st1, call.last), a.mem, front, call.peek, read);
  }

  lemma DoKeepsInv(h: History, act: Act)
    requires Inv(h)
    ensures Inv(Do(h, act))
  {
    match act
    case Stack(e) => OccurKeepsCall(h.st, e, Returned(h.answers), [], false, |Returned(h.answers)| + Peeked(h.answers));
    case Read(call) =>
      ReceiveKeepsCall(h.st, call, Returned(h.answers), |Returned(h.answers)| + Peeked(h.answers));
      var (_, a) := Receive(h.st, call);
      assert (h.answers + [a])[..|h.answers|] == h.answers;
  }

  lemma {:induction false} RunKeepsInv(h: History, acts: seq<Act>)
    requires Inv(h)
    ensures Inv(Run(h, acts))
    decreases |acts|
  {
    if acts != [] {
      DoKeepsInv(h, acts[0]);
      RunKeepsInv(Do(h, acts[0]), acts[1..]);
    }
  }

  lemma StartIsInv()
    ensures Inv(START)
  {
    assert Pending(NEW) == [] && Returned([]) == [] && Peeked([]) == 0;
  }

  lemma Reachable(acts: seq<Act>)
    ensures Inv(Run(START, acts))
  {
    StartIsInv();
    RunKeepsInv(START, acts);
  }

  /** In every run, all that arrived is what was returned and then what is pending: nothing is lost, doubled or moved. */
  lemma StreamIsPreserved(acts: seq<Act>)
    ensures var h := Run(START, acts); Returned(h.answers) + Pending(h.st) == h.st.arrived
  {
    Reachable(acts);
    var h := Run(START, acts);
    assert [] + Pending(h.st) == Pending(h.st);
  }

  /** While there is a pcb the window was opened by what was returned, once more by what was peeked at, and by one
      more once the end of the stream was taken. So it is the bytes returned iff neither has happened. */
  lemma WindowIsExactIff(acts: seq<Act>)
    requires Run(START, acts).st.pcb
    ensures var h := Run(START, acts);
      && h.st.credited == |Returned(h.answers)| + Peeked(h.answers) + (if h.st.lastErr.Some? then 1 else 0)
      && (h.st.credited == |Returned(h.answers)| <==> Peeked(h.answers) == 0 && h.st.lastErr.None?)
  {
    Reachable(acts);
  }

  /** What a peek shows is the next to be read after it. */
  lemma PeekShowsNext(h: History, call: Call)
    requires Inv(h) && call.peek
    ensures var (st', a) := Receive(h.st, call); a.mem <= Pending(st') && |a.mem| <= call.length
  {
    ReceiveKeepsCall(h.st, call, Returned(h.answers), |Returned(h.answers)| + Peeked(h.answers));
  }

  lemma {:induction false} OccursFrozen(st: Stream, events: seq<Event>)
    ensures Occurs(st, events).credited == st.credited
    decreases |events|
  {
    if events != [] {
      OccursFrozen(Occur(st, events[0]), events[1..]);
    }
  }

  /** Without a pcb no turn opens the window. */
  lemma TurnFrozen(st: Stream, call: Call, mem: seq<byte>, turn: Turn)
    requires !st.pcb && |mem| <= call.length
    ensures var t := TurnOf(st, call, mem, turn); !t.st.pcb && t.st.credited == st.credited
  {
    var st1 := Occurs(st, turn.before);
    var st2 := Occurs(st1, turn.checked);
    var st3 := Occurs(st2, turn.waiting);
    OccursFrozen(st, turn.before);
    OccursFrozen(st1, turn.fetched);
    OccursFrozen(st1, turn.checked);
    OccursFrozen(st2, turn.waiting);
    if st1.lastdata.None? && st3.mailbox != [] {
      TakeFrozen(st3, turn.fetched);
    }
  }

  lemma TakeFrozen(st: Stream, fetched: seq<Event>)
    requires !st.pcb && st.mailbox != []
    ensures var st' := Take(st, fetched).0; !st'.pcb && st'.credited == st.credited
  {
    var st1 := st.(mailbox := st.mailbox[1..], rcvevent := st.rcvevent - 1);
    OccursFrozen(st1, fetched);
    if st.mailbox[0].Chunk? {
      OccursFrozen(st1.(lastdata := Some(st.mailbox[0].pbuf)), fetched);
    }
  }

  lemma {:induction false} LoopFrozen(st: Stream, call: Call, turns: seq<Turn>, mem: seq<byte>)
    requires !st.pcb && |mem| <= call.length
    ensures var st' := Loop(st, call, turns, mem).0; !st'.pcb && st'.credited == st.credited
    decreases |turns|, Buffers(st)
  {
    QuietTurnEnds(st, call, mem);
    TurnFits(st, call, mem, First(turns));
    TurnFrozen(st, call, mem, First(turns));
    var t := TurnOf(st, call, mem, First(turns));
    if !t.done {
      LoopFrozen(t.st, call, Rest(turns), t.mem);
    }
  }

  /** Once err_tcp has taken the pcb away nothing opens the window, whatever is still read. */
  lemma {:induction false} NothingOpenedAfterFailure(h: History, acts: seq<Act>)
    requires !h.st.pcb
    ensures Run(h, acts).st.credited == h.st.credited && !Run(h, acts).st.pcb
    decreases |acts|
  {
    if acts != [] {
      if acts[0].Read? {
        var call := acts[0].call;
        LoopFrozen(h.st, call, call.turns, []);
        OccursFrozen(Loop(h.st, call, call.turns, []).0, call.last);
      }
      NothingOpenedAfterFailure(Do(h, acts[0]), acts[1..]);
    }
  }

  // ---- Where the window is not what was read ----

  lemma NextAct(h: History, act: Act, h': History, rest: seq<Act>)
    requires Do(h, act) == h'
    ensures Run(h, [act] + rest) == Run(h', rest)
  {
    assert ([act] + rest)[1..] == rest;
  }

  lemma NextCall(h: History, call: Call, st: Stream, a: Answer, rest: seq<Act>)
    requires Receive(h.st, call) == (st, a)
    ensures Run(h, [Read(call)] + rest) == Run(History(st, h.answers + [a]), rest)
  {
    NextAct(h, Read(call), History(st, h.answers + [a]), rest);
  }

  lemma FirstCall(st: Stream, call: Call, st': Stream, a: Answer, rest: seq<Act>)
    requires Receive(st, call) == (st', a)
    ensures Run(History(st, []), [Read(call)] + rest) == Run(History(st', [a]), rest)
  {
    NextCall(History(st, []), call, st', a, rest);
    assert [] + [a] == [a];
  }

  lemma NextTwo(h: History, first: Act, second: Act, h': History, rest: seq<Act>)
    requires Do(Do(h, first), second) == h'
    ensures Run(h, [first, second] + rest) == Run(h', rest)
  {
    assert [first, second] + rest == [first] + ([second] + rest);
    NextAct(h, first, Do(h, first), [second] + rest);
    NextAct(Do(h, first), second, h', rest);
  }

  /** A mail is posted and counted. */
  lemma Posted(h: History, e: Event, mail: Mail, rest: seq<Act>)
    requires e.Data? || e.Fin?
    requires mail == if e.Data? then Chunk(e.pbuf) else Null
    requires h.st.owed == 0
    ensures Run(h, [Stack(e), Stack(Counted)] + rest)
         == Run(h.(st := h.st.(mailbox := h.st.mailbox + [mail], rcvevent := h.st.rcvevent + 1, arrived := h.st.arrived + BytesOf(mail))), rest)
  {
    assert h.st.arrived + [] == h.st.arrived;
    var st' := h.st.(mailbox := h.st.mailbox + [mail], rcvevent := h.st.rcvevent + 1, arrived := h.st.arrived + BytesOf(mail));
    NextTwo(h, Stack(e), Stack(Counted), h.(st := st'), rest);
  }

  /** A call with nothing going on in the stack. */
  function QuietCall(length: nat, waits: bool): Call {
    Call(length, false, waits, [], [])
  }

  /** Such a call is over when its first turn is. */
  lemma QuietAnswer(st: Stream, call: Call)
    requires call.turns == [] && call.last == [] && TurnOf(st, call, [], QUIET).done
    ensures var t := TurnOf(st, call, [], QUIET); Receive(st, call) == (Conclude(t.st, t.mem), Answer(t.mem, call.peek, t.error))
  {
  }

  /** One that reads the one mail there is. */
  lemma ReadsChunk(st: Stream, p: Pbuf, rest: seq<Mail>, length: nat, waits: bool)
    requires st.mailbox == [Chunk(p)] + rest && st.lastErr.None? && st.lastdata.None? && st.lastoffset == 0 && st.rcvevent > 0
    requires p.push && 0 < |p.data| <= length
    ensures Receive(st, QuietCall(length, waits))
         == (Recved(st.(mailbox := rest, rcvevent := st.rcvevent - 1), |p.data|), Answer(p.data, false, None))
  {
    assert p.data[0..] == p.data && p.data[..|p.data|] == p.data && [] + p.data == p.data;
    QuietAnswer(st, QuietCall(length, waits));
  }

  lemma ReadsNull(st: Stream, rest: seq<Mail>, length: nat, waits: bool)
    requires st.mailbox == [Null] + rest && st.lastErr.None? && st.lastdata.None? && st.rcvevent > 0
    ensures Receive(st, QuietCall(length, waits))
         == (Recved(st.(mailbox := rest, rcvevent := st.rcvevent - 1, lastErr := Some(Closed)), 1), Answer([], false, Some(Closed)))
  {
    QuietAnswer(st, QuietCall(length, waits));
  }

  const TWO := Pbuf([0, 0], true)
  const WAITS := Read(QuietCall(9, true))

  const TO_THE_END := [Stack(Data(TWO)), Stack(Counted)] + ([Stack(Fin), Stack(Counted)] + ([WAITS] + ([WAITS] + [])))

  /** What one pbuf and the end of the stream leave behind. */
  function Arrived(p: Pbuf): Stream {
    NEW.(mailbox := [Chunk(p), Null], rcvevent := 2, arrived := p.data)
  }

  lemma AllArrives(p: Pbuf, rest: seq<Act>)
    ensures Run(START, [Stack(Data(p)), Stack(Counted)] + ([Stack(Fin), Stack(Counted)] + rest)) == Run(History(Arrived(p), []), rest)
  {
    var st1 := NEW.(mailbox := [Chunk(p)], rcvevent := 1, arrived := p.data);
    Posted(START, Data(p), Chunk(p), [Stack(Fin), Stack(Counted)] + rest);
    assert [] + [Chunk(p)] == [Chunk(p)] && [] + p.data == p.data;
    Posted(History(st1, []), Fin, Null, rest);
    assert [Chunk(p)] + [Null] == [Chunk(p), Null] && p.data + [] == p.data;
  }

  /** Two bytes and the end of the stream, read to the end: two bytes are returned and the window opens by three. */
  lemma EndOpensOneMore()
    ensures var h := Run(START, TO_THE_END);
      h.answers == [Answer([0, 0], false, None), Answer([], false, Some(Closed))] && h.st.pcb && h.st.credited == 3
  {
    AllArrives(TWO, [WAITS] + ([WAITS] + []));
    ReadToTheEnd(WAITS.call, Answer([0, 0], false, None), Answer([], false, Some(Closed)));
  }

  lemma ReadToTheEnd(call: Call, first: Answer, second: Answer)
    requires call == QuietCall(9, true) && first == Answer([0, 0], false, None) && second == Answer([], false, Some(Closed))
    ensures var h := Run(History(Arrived(TWO), []), [Read(call)] + ([Read(call)] + []));
      h.answers == [first, second] && h.st.pcb && h.st.credited == 3
  {
    var st1 := Arrived(TWO).(mailbox := [Null], rcvevent := 1, credited := 2);
    FirstAnswer(call, first, st1);
    FirstCall(Arrived(TWO), call, st1, first, [Read(call)] + []);
    SecondIsRead(call, first, second, st1);
  }

  lemma FirstAnswer(call: Call, first: Answer, st: Stream)
    requires call == QuietCall(9, true) && first == Answer([0, 0], false, None)
    requires st == Arrived(TWO).(mailbox := [Null], rcvevent := 1, credited := 2)
    ensures Receive(Arrived(TWO), call) == (st, first)
  {
    assert [Chunk(TWO), Null] == [Chunk(TWO)] + [Null];
    ReadsChunk(Arrived(TWO), TWO, [Null], call.length, true);
  }

  lemma SecondIsRead(call: Call, first: Answer, second: Answer, st: Stream)
    requires call == QuietCall(9, true) && second == Answer([], false, Some(Closed))
    requires st.mailbox == [Null] && st.lastErr.None? && st.lastdata.None? && st.rcvevent > 0
    ensures var h := Run(History(st, [first]), [Read(call)] + []);
      h.answers == [first, second] && h.st.pcb == st.pcb && (st.pcb ==> h.st.credited == st.credited + 1)
  {
    assert [first] + [second] == [first, second];
    assert [Null] + [] == [Null];
    ReadsNull(st, [], call.length, true);
    NextCall(History(st, [first]), call, Receive(st, call).0, second, []);
  }

  /** One that reads a part of the one buffer, which is in the mailbox or left over. */
  lemma ReadsPart(st: Stream, p: Pbuf, length: nat, waits: bool)
    requires st.mailbox == [Chunk(p)] && st.lastErr.None? && st.lastdata.None? && st.lastoffset == 0 && st.rcvevent > 0 && st.pcb
    requires 0 < length < |p.data|
    ensures Receive(st, QuietCall(length, waits))
         == (st.(mailbox := [], rcvevent := st.rcvevent - 1, lastdata := Some(p), lastoffset := length, credited := st.credited + length),
             Answer(p.data[..length], false, None))
  {
    assert p.data[0..] == p.data && [] + p.data[..length] == p.data[..length];
    QuietAnswer(st, QuietCall(length, waits));
  }

  lemma ReadsRest(st: Stream, p: Pbuf, length: nat, waits: bool)
    requires st.lastdata == Some(p) && p.push && st.lastoffset < |p.data| <= length
    ensures var rest := p.data[st.lastoffset..];
      Receive(st, QuietCall(length, waits)) == (Recved(st.(lastdata := None, lastoffset := 0), |rest|), Answer(rest, false, None))
  {
    var rest := p.data[st.lastoffset..];
    assert rest[..|rest|] == rest && [] + rest == rest;
    QuietAnswer(st, QuietCall(length, waits));
  }

  const ACROSS_A_FAILURE := [Stack(Data(TWO)), Stack(Counted)] + ([Read(QuietCall(1, true))]
                             + ([Stack(Failure(Aborted, true))] + ([WAITS] + [])))

  lemma RestAfterFailure(st: Stream, one: Answer)
    requires one == Answer([0], false, None)
    requires st.lastdata == Some(TWO) && st.lastoffset == 1
    ensures var h := Run(History(st, [one]), [Stack(Failure(Aborted, true))] + ([WAITS] + []));
      h.answers == [one, one] && h.st.credited == st.credited
  {
    var st1 := Occur(st, Failure(Aborted, true));
    assert TWO.data[1..] == [0];
    NextAct(History(st, [one]), Stack(Failure(Aborted, true)), History(st1, [one]), [WAITS] + []);
    ReadsRest(st1, TWO, 9, true);
    NextAct(History(st1, [one]), WAITS, Do(History(st1, [one]), WAITS), []);
    assert [one] + [one] == [one, one];
  }

  const ONE_LEFT := NEW.(lastdata := Some(TWO), lastoffset := 1, arrived := [0, 0], credited := 1)

  const HALF_ARRIVED := NEW.(mailbox := [Chunk(TWO)], rcvevent := 1, arrived := [0, 0])

  lemma DataArrives(rest: seq<Act>)
    ensures Run(START, [Stack(Data(TWO)), Stack(Counted)] + rest) == Run(History(HALF_ARRIVED, []), rest)
  {
    Posted(START, Data(TWO), Chunk(TWO), rest);
    assert [] + [Chunk(TWO)] == [Chunk(TWO)] && [] + TWO.data == [0, 0];
  }

  lemma OneByteIsRead(call: Call, one: Answer, rest: seq<Act>)
    requires call == QuietCall(1, true) && one == Answer([0], false, None)
    ensures Run(START, [Stack(Data(TWO)), Stack(Counted)] + ([Read(call)] + rest)) == Run(History(ONE_LEFT, [one]), rest)
  {
    DataArrives([Read(call)] + rest);
    OneByteOfTwo(HALF_ARRIVED, call);
    FirstCall(HALF_ARRIVED, call, ONE_LEFT, one, rest);
  }

  lemma OneByteOfTwo(st: Stream, call: Call)
    requires st == HALF_ARRIVED && call == QuietCall(1, true)
    ensures Receive(st, call) == (ONE_LEFT, Answer([0], false, None))
  {
    assert TWO.data[..1] == [0];
    ReadsPart(st, TWO, call.length, true);
  }

  /** Two bytes read one before and one after err_tcp: both are returned and the window opens by one. */
  lemma FailureOpensLess()
    ensures var h := Run(START, ACROSS_A_FAILURE);
      h.answers == [Answer([0], false, None), Answer([0], false, None)] && h.st.credited == 1
  {
    OneByteIsRead(QuietCall(1, true), Answer([0], false, None), [Stack(Failure(Aborted, true))] + ([WAITS] + []));
    RestAfterFailure(ONE_LEFT, Answer([0], false, None));
  }

  // ---- Calls that may not block ----

  lemma {:induction false} OccursCountsUp(st: Stream, events: seq<Event>)
    ensures Occurs(st, events).rcvevent >= st.rcvevent && |Occurs(st, events).mailbox| >= |st.mailbox|
    decreases |events|
  {
    if events != [] {
      OccursCountsUp(Occur(st, events[0]), events[1..]);
    }
  }

  lemma {:induction false} OccursKeepsTied(st: Stream, events: seq<Event>)
    requires Tied(st)
    ensures Tied(Occurs(st, events))
    decreases |events|
  {
    if events != [] {
      OccursKeepsTied(Occur(st, events[0]), events[1..]);
    }
  }

  /** With an event counted there is an error or mail, so the wait for mail is none. */
  lemma CountedIsThere(st: Stream, turn: Turn)
    requires Tied(st) && st.rcvevent > 0
    ensures Fetch(st, turn).1 != Some(TimedOut) && Fetch(st, turn).1 != Some(WouldBlock)
  {
    var st1 := Occurs(st, turn.checked);
    OccursKeepsTied(st, turn.checked);
    OccursCountsUp(st, turn.checked);
    OccursCountsUp(st1, turn.waiting);
  }

  /** What a turn does that may not block: it fails at once iff nothing is left over and no event counted, and it
      never waits for mail in vain. */
  lemma UnblockingTurn(st: Stream, call: Call, mem: seq<byte>, turn: Turn)
    requires Tied(st) && !call.waits && |mem| <= call.length
    ensures var t := TurnOf(st, call, mem, turn);
      && t.error != Some(TimedOut)
      && (t.error == Some(WouldBlock) <==> st.lastdata.None? && Occurs(st, turn.before).rcvevent <= 0)
      && (!t.done ==> t.st.rcvevent > 0)
  {
    OccursKeepsTied(st, turn.before);
    var st1 := Occurs(st, turn.before);
    if st1.rcvevent > 0 {
      CountedIsThere(st1, turn);
    }
  }

  /** Once a turn has not been the last there is more, so no later one fails that way. */
  lemma {:induction false} LaterTurnsGoOn(st: Stream, call: Call, turns: seq<Turn>, mem: seq<byte>, front: seq<byte>, read: nat)
    requires InCall(st, front, mem, call.peek, read) && !call.waits && |mem| <= call.length && (call.peek ==> mem == [])
    requires st.rcvevent > 0
    ensures var error := Loop(st, call, turns, mem).1.error; error != Some(WouldBlock) && error != Some(TimedOut)
    decreases |turns|, Buffers(st)
  {
    QuietTurnEnds(st, call, mem);
    TurnFits(st, call, mem, First(turns));
    TurnKeepsCall(st, call, mem, First(turns), front, read);
    UnblockingTurn(st, call, mem, First(turns));
    OccursCountsUp(st, First(turns).before);
    var t := TurnOf(st, call, mem, First(turns));
    if !t.done {
      LaterTurnsGoOn(t.st, call, Rest(turns), t.mem, front, read);
    }
  }

  lemma UnblockingReceive(st: Stream, call: Call, front: seq<byte>, read: nat)
    requires InCall(st, front, [], false, read) && !call.waits
    ensures var a := Receive(st, call).1;
      && a.error != Some(TimedOut)
      && (a.error == Some(WouldBlock) <==> st.lastdata.None? && Occurs(st, First(call.turns).before).rcvevent <= 0)
      && (a.error == Some(WouldBlock) ==> a.mem == [])
  {
    var turn := First(call.turns);
    CallBegins(st, front, call.peek, read);
    QuietTurnEnds(st, call, []);
    TurnKeepsCall(st, call, [], turn, front, read);
    UnblockingTurn(st, call, [], turn);
    var t := TurnOf(st, call, [], turn);
    if !t.done {
      LaterTurnsGoOn(t.st, call, Rest(call.turns), t.mem, front, read);
    }
  }

  lemma UnblockingRead(h: History, call: Call)
    requires Inv(h) && !call.waits
    ensures var st1 := Occurs(h.st, First(call.turns).before);
      var error := Receive(h.st, call).1.error;
      && error != Some(TimedOut)
      && (error == Some(WouldBlock) <==> st1.lastdata.None? && st1.rcvevent <= 0)
      && (st1.pcb && st1.owed == 0 ==> (error == Some(WouldBlock) <==> st1.lastdata.None? && st1.mailbox == []))
  {
    UnblockingReceive(h.st, call, Returned(h.answers), |Returned(h.answers)| + Peeked(h.answers));
    OccursKeepsTied(h.st, First(call.turns).before);
  }

  /** In every run a call that may not block never waits, and it fails with EWOULDBLOCK iff nothing is left over and
      rcvevent says there is nothing; while the connection stands and all that is posted has been counted, iff
      nothing is there. */
  lemma WouldBlockIffNothingThere(acts: seq<Act>, call: Call)
    requires !call.waits
    ensures var st := Run(START, acts).st;
      var st1 := Occurs(st, First(call.turns).before);
      var error := Receive(st, call).1.error;
      && error != Some(TimedOut)
      && (error == Some(WouldBlock) <==> st1.lastdata.None? && st1.rcvevent <= 0)
      && (st1.pcb && st1.owed == 0 ==> (error == Some(WouldBlock) <==> st1.lastdata.None? && st1.mailbox == []))
  {
    Reachable(acts);
    UnblockingRead(Run(START, acts), call);
  }

  // ---- The end of the stream ----

  /** The end of the stream has been taken, or the connection has failed, and no buffer is left over. */
  predicate Ended(st: Stream) {
    st.lastErr.Some? && st.lastdata.None?
  }

  lemma {:induction false} OccursKeepsError(st: Stream, events: seq<Event>)
    requires st.lastErr.Some?
    ensures Occurs(st, events).lastErr.Some?
    decreases |events|
  {
    if events != [] {
      OccursKeepsError(Occur(st, events[0]), events[1..]);
    }
  }

  /** What a call is told then: it takes nothing, whatever is in the mailbox. */
  function ToldAtEnd(st: Stream, call: Call): Error
    requires Ended(st)
  {
    var st1 := Occurs(st, First(call.turns).before);
    var st2 := Occurs(st1, First(call.turns).checked);
    if !call.waits && st1.rcvevent <= 0 then WouldBlock
    else
      OccursKeepsError(st, First(call.turns).before);
      OccursKeepsError(st1, First(call.turns).checked);
      st2.lastErr.value
  }

  lemma EndedTurn(st: Stream, call: Call)
    requires Ended(st)
    ensures var t := TurnOf(st, call, [], First(call.turns));
      t.done && t.mem == [] && t.error == Some(ToldAtEnd(st, call)) && Ended(t.st)
  {
    OccursKeepsError(st, First(call.turns).before);
    OccursKeepsError(Occurs(st, First(call.turns).before), First(call.turns).checked);
  }

  lemma EndedRead(st: Stream, call: Call)
    requires Ended(st)
    ensures var (st', a) := Receive(st, call);
      a == Answer([], call.peek, Some(ToldAtEnd(st, call))) && Ended(st')
  {
    QuietTurnEnds(st, call, []);
    TurnFits(st, call, [], First(call.turns));
    EndedTurn(st, call);
    OccursKeepsError(TurnOf(st, call, [], First(call.turns)).st, call.last);
  }

  /** After that nothing is ever read again, though there may be data in the mailbox. */
  lemma {:induction false} EndedForGood(h: History, acts: seq<Act>)
    requires Ended(h.st)
    ensures Ended(Run(h, acts).st) && Returned(Run(h, acts).answers) == Returned(h.answers)
    decreases |acts|
  {
    if acts != [] {
      var h1 := Do(h, acts[0]);
      if acts[0].Read? {
        EndedRead(h.st, acts[0].call);
        var a := Receive(h.st, acts[0].call).1;
        assert (h.answers + [a])[..|h.answers|] == h.answers;
      }
      EndedForGood(h1, acts[1..]);
    }
  }

  lemma {:induction false} RunsOn(h: History, acts: seq<Act>, more: seq<Act>)
    ensures Run(h, acts + more) == Run(Run(h, acts), more)
    decreases |acts|
  {
    if acts == [] {
      assert acts + more == more;
    } else {
      assert (acts + more)[1..] == acts[1..] + more;
      RunsOn(Do(h, acts[0]), acts[1..], more);
    }
  }

  const CUT_OFF := [Stack(Data(TWO))] + ([Stack(Failure(Aborted, true))] + [])

  /** Two bytes that have arrived when the connection fails are never read, whatever calls are made. */
  lemma FailureCutsOff(more: seq<Act>)
    ensures Pending(Run(START, CUT_OFF).st) == [0, 0] && Returned(Run(START, CUT_OFF + more).answers) == []
  {
    var st1 := Occur(NEW, Data(TWO));
    NextAct(START, Stack(Data(TWO)), History(st1, []), [Stack(Failure(Aborted, true))] + []);
    NextAct(History(st1, []), Stack(Failure(Aborted, true)), History(Occur(st1, Failure(Aborted, true)), []), []);
    BytesOfOneMore([], Chunk(TWO));
    BytesOfOneMore(st1.mailbox, Null);
    RunsOn(START, CUT_OFF, more);
    EndedForGood(Run(START, CUT_OFF), more);
  }

  lemma ToldOfEndIff(st: Stream, call: Call)
    requires Ended(st)
    ensures var st1 := Occurs(st, First(call.turns).before);
      var failed := Occurs(st1, First(call.turns).checked).lastErr == Some(Aborted);
      && (Count(Answer([], call.peek, Some(ToldAtEnd(st, call)))) == Some(0) <==> (call.waits || st1.rcvevent > 0) && !failed)
      && (ToldAtEnd(st, call) == WouldBlock <==> !call.waits && st1.rcvevent <= 0)
  {
    var st1 := Occurs(st, First(call.turns).before);
    var last := Occurs(st1, First(call.turns).checked).lastErr;
    OccursKeepsError(st, First(call.turns).before);
    OccursKeepsError(st1, First(call.turns).checked);
    assert last == Some(Aborted) || last == Some(Closed);
  }

  lemma AnswerOnceEnded(st: Stream, call: Call)
    requires Ended(st) && Tied(st)
    ensures var st1 := Occurs(st, First(call.turns).before);
      var failed := Occurs(st1, First(call.turns).checked).lastErr == Some(Aborted);
      var a := Receive(st, call).1;
      && a.mem == []
      && (Count(a) == Some(0) <==> (call.waits || st1.rcvevent > 0) && !failed)
      && (a.error == Some(WouldBlock) <==> !call.waits && st1.rcvevent <= 0)
      && (st1.pcb ==> st1.rcvevent == |st1.mailbox| - st1.owed)
  {
    ToldOfEndIff(st, call);
    EndedRead(st, call);
    OccursKeepsTied(st, First(call.turns).before);
  }

  /** In every run, once the end of the stream was taken and nothing is left over, and ever after, whatever the stack
      does before, between and during the calls: a call that may block is told of the end again, unless the connection
      has failed, and one that may not iff rcvevent is positive. So while there is a pcb, iff something was posted after
      the end and has been counted. */
  lemma EndIsRepeatedIff(acts: seq<Act>, more: seq<Act>, call: Call)
    requires Ended(Run(START, acts).st)
    ensures var st := Run(START, acts + more).st;
      var st1 := Occurs(st, First(call.turns).before);
      var failed := Occurs(st1, First(call.turns).checked).lastErr == Some(Aborted);
      var a := Receive(st, call).1;
      && a.mem == []
      && (Count(a) == Some(0) <==> (call.waits || st1.rcvevent > 0) && !failed)
      && (a.error == Some(WouldBlock) <==> !call.waits && st1.rcvevent <= 0)
      && (st1.pcb ==> st1.rcvevent == |st1.mailbox| - st1.owed)
  {
    RunsOn(START, acts, more);
    EndedForGood(Run(START, acts), more);
    Reachable(acts + more);
    AnswerOnceEnded(Run(START, acts + more).st, call);
  }

  const OPEN := Pbuf([0, 0], false)

  /** Two bytes without a push flag and the end of the stream: one call takes both. */
  lemma TakesTheEndToo(call: Call)
    requires call == QuietCall(9, false)
    ensures Receive(Arrived(OPEN), call)
         == (Arrived(OPEN).(mailbox := [], rcvevent := 0, credited := 3, lastErr := Some(Closed)), Answer([0, 0], false, Some(Closed)))
  {
    var st := Arrived(OPEN).(mailbox := [Null], rcvevent := 1);
    assert OPEN.data[0..] == [0, 0] && OPEN.data[..2] == [0, 0] && [] + [0, 0] == [0, 0];
    assert Arrived(OPEN).mailbox[1..] == [Null];
    assert TurnOf(Arrived(OPEN), call, [], QUIET) == Turned(st, [0, 0], false, None);
    var end := st.(mailbox := [], rcvevent := 0, credited := 1, lastErr := Some(Closed));
    assert TurnOf(st, call, [0, 0], QUIET) == Turned(end, [0, 0], true, Some(Closed));
    assert Loop(Arrived(OPEN), call, [], []) == Loop(st, call, [], [0, 0]);
  }

  /** So a reader that never blocks may never be told: the call that took the end returned the two bytes, and a later one
      says EWOULDBLOCK unless something more is posted and counted, though there is nothing to come. */
  lemma EndIsSwallowed(acts: seq<Act>, call: Call)
    requires acts == [Stack(Data(OPEN)), Stack(Counted)] + ([Stack(Fin), Stack(Counted)] + ([Read(QuietCall(9, false))] + []))
    requires First(call.turns).before == [] && !call.waits
    ensures var h := Run(START, acts);
      && h.answers == [Answer([0, 0], false, Some(Closed))] && Ended(h.st) && h.st.pcb
      && Receive(h.st, call).1.error == Some(WouldBlock)
  {
    var read, a := QuietCall(9, false), Answer([0, 0], false, Some(Closed));
    var st := Arrived(OPEN).(mailbox := [], rcvevent := 0, credited := 3, lastErr := Some(Closed));
    AllArrives(OPEN, [Read(read)] + []);
    TakesTheEndToo(read);
    FirstCall(Arrived(OPEN), read, st, a, []);
    EndedRead(st, call);
  }

  // ---- What a call returns ----

  lemma {:induction false} LoopGrows(st: Stream, call: Call, turns: seq<Turn>, mem: seq<byte>)
    requires |mem| <= call.length
    ensures |Loop(st, call, turns, mem).1.mem| >= |mem|
    decreases |turns|, Buffers(st)
  {
    QuietTurnEnds(st, call, mem);
    TurnFits(st, call, mem, First(turns));
    var t := TurnOf(st, call, mem, First(turns));
    if !t.done {
      LoopGrows(t.st, call, Rest(turns), t.mem);
    }
  }

  /** What was left over is returned whatever happens, as far as it fits. */
  lemma LeftoverIsReturned(st: Stream, call: Call)
    requires st.lastdata.Some?
    ensures |Receive(st, call).1.mem| >= Least(call.length, |Left(st)|)
  {
    QuietTurnEnds(st, call, []);
    TurnFits(st, call, [], First(call.turns));
    var t := TurnOf(st, call, [], First(call.turns));
    assert |t.mem| == Least(call.length, |Left(st)|);
    if !t.done {
      LoopGrows(t.st, call, Rest(call.turns), t.mem);
    }
  }

  /** TCP never hands over an empty pbuf. */
  ghost predicate Full(events: seq<Event>) {
    forall i :: 0 <= i < |events| && events[i].Data? ==> events[i].pbuf.data != []
  }

  ghost predicate FullTurns(turns: seq<Turn>) {
    forall i :: 0 <= i < |turns| ==> FullTurn(turns[i])
  }

  ghost predicate FullTurn(turn: Turn) {
    Full(turn.before) && Full(turn.checked) && Full(turn.waiting) && Full(turn.fetched)
  }

  /** So every buffer has something to copy. */
  ghost predicate Fed(st: Stream) {
    && (forall i :: 0 <= i < |st.mailbox| && st.mailbox[i].Chunk? ==> st.mailbox[i].pbuf.data != [])
    && (if st.lastdata.Some? then st.lastoffset < |st.lastdata.value.data| else st.lastoffset == 0)
  }

  lemma {:induction false} OccursFed(st: Stream, events: seq<Event>)
    requires Fed(st) && Full(events)
    ensures Fed(Occurs(st, events))
    decreases |events|
  {
    if events != [] {
      OccursFed(Occur(st, events[0]), events[1..]);
    }
  }

  lemma FetchFed(st: Stream, turn: Turn)
    requires Fed(st) && FullTurn(turn) && st.lastdata.None?
    ensures Fed(Fetch(st, turn).0)
  {
    OccursFed(st, turn.checked);
    var st1 := Occurs(st, turn.checked);
    OccursFed(st1, turn.waiting);
    var st2 := Occurs(st1, turn.waiting);
    if st1.lastErr.None? && st2.mailbox != [] {
      var st3 := st2.(mailbox := st2.mailbox[1..], rcvevent := st2.rcvevent - 1);
      OccursFed(st3, turn.fetched);
      if st2.mailbox[0].Chunk? {
        OccursFed(st3.(lastdata := Some(st2.mailbox[0].pbuf)), turn.fetched);
      }
    }
  }

  lemma TurnFed(st: Stream, call: Call, mem: seq<byte>, turn: Turn)
    requires Fed(st) && FullTurn(turn) && |mem| <= call.length
    ensures var t := TurnOf(st, call, mem, turn);
      Fed(t.st) && (t.error.None? && |mem| < call.length ==> t.mem != [])
  {
    OccursFed(st, turn.before);
    var st1 := Occurs(st, turn.before);
    if st1.lastdata.Some? {
      OccursFed(st1, turn.fetched);
    } else {
      FetchFed(st1, turn);
    }
  }

  /** The last error is that of the answer once it says the stream has ended. */
  lemma ClosedTurn(st: Stream, call: Call, mem: seq<byte>, turn: Turn)
    requires |mem| <= call.length
    ensures var t := TurnOf(st, call, mem, turn); t.error == Some(Closed) ==> t.st.lastErr.Some?
  {
  }

  lemma {:induction false} LoopFed(st: Stream, call: Call, turns: seq<Turn>, mem: seq<byte>)
    requires Fed(st) && FullTurns(turns) && |mem| <= call.length
    ensures var (st', a) := Loop(st, call, turns, mem);
      Fed(st') && ((mem != [] || call.length > 0) && Count(a) == Some(0) ==> st'.lastErr.Some?)
    decreases |turns|, Buffers(st)
  {
    QuietTurnEnds(st, call, mem);
    TurnFits(st, call, mem, First(turns));
    TurnFed(st, call, mem, First(turns));
    ClosedTurn(st, call, mem, First(turns));
    var t := TurnOf(st, call, mem, First(turns));
    if !t.done {
      LoopFed(t.st, call, Rest(turns), t.mem);
    }
  }

  ghost predicate FullAct(act: Act) {
    match act
    case Stack(e) => e.Data? ==> e.pbuf.data != []
    case Read(call) => FullTurns(call.turns) && Full(call.last)
  }

  lemma ReceiveFed(st: Stream, call: Call)
    requires Fed(st) && FullAct(Read(call))
    ensures var (st', a) := Receive(st, call);
      Fed(st') && (call.length > 0 && Count(a) == Some(0) ==> st'.lastErr.Some?)
  {
    LoopFed(st, call, call.turns, []);
    var (st1, a) := Loop(st, call, call.turns, []);
    OccursFed(st1, call.last);
    if st1.lastErr.Some? {
      OccursKeepsError(st1, call.last);
    }
  }

  lemma {:induction false} RunFed(h: History, acts: seq<Act>)
    requires Fed(h.st) && forall i :: 0 <= i < |acts| ==> FullAct(acts[i])
    ensures Fed(Run(h, acts).st)
    decreases |acts|
  {
    if acts != [] {
      if acts[0].Read? {
        ReceiveFed(h.st, acts[0].call);
      }
      RunFed(Do(h, acts[0]), acts[1..]);
    }
  }

  /** In every run in which TCP hands over no empty pbuf, a call that asks for something and returns 0 does so after
      the end of the stream or an error, and not for want of data. */
  lemma ZeroMeansEnd(acts: seq<Act>, call: Call)
    requires forall i :: 0 <= i < |acts| ==> FullAct(acts[i])
    requires FullAct(Read(call)) && call.length > 0
    ensures var (st', a) := Receive(Run(START, acts).st, call);
      Count(a) == Some(0) ==> st'.lastErr.Some?
  {
    RunFed(START, acts);
    ReceiveFed(Run(START, acts).st, call);
  }
}
