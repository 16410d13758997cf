/** api_msg.c: writing, closing and connecting a TCP netconn. A request may finish at once or be resumed from
    callbacks; either way its caller is signalled exactly once, and knows what became of its bytes. */
module Netconn {
  import opened Sequences

  /** conn->state */
  datatype Phase = Resting | Writing | Listening | Connecting | Closing

  datatype Error = Ok | WouldBlock | InProgress | IsConn | Val | NotConnected | Clsd | Refused | Fatal

  /** An api_msg, numbered in the order the application makes its calls. */
  datatype Request =
    | WriteRequest(id: nat, data: seq<byte>, dontBlock: bool)
    | CloseRequest(id: nat, both: bool)
    | ConnectRequest(id: nat)
    | ListenRequest(id: nat)

  /** A signal on op_completed: the request it ends, its result and how much of a write TCP accepted. `begun` tells
      a request that was started from one refused outright; `atomic` a write that may not block. */
  datatype Reply = Reply(request: Request, error: Error, accepted: seq<byte>, begun: bool, atomic: bool)

  datatype Conn = Conn(
    state: Phase,
    current: Option<Request>,   // current_msg
    offset: nat,                // write_offset
    pcb: bool,                  // whether pcb.tcp is not NULL
    nonblocking: bool,
    connecting: bool,           // IN_NONBLOCKING_CONNECT
    sofar: seq<byte>,           // accepted from the write in progress
    stream: seq<byte>,          // all that tcp_write has accepted
    replies: seq<Reply>)        // the signals so far

  /** What TCP has room for and does with a tcp_write. */
  datatype WriteResult = Accepted | NoMemory | Rejected
  datatype Space = Space(available: nat, result: WriteResult)

  /** Signalling the caller of a request that was never begun. */
  function Acknowledge(c: Conn, r: Request, e: Error): Conn {
    c.(replies := c.replies + [Reply(r, e, [], false, false)])
  }

  /** Ending the current request. */
  function Finish(c: Conn, e: Error): Conn
    requires c.current.Some?
  {
    var r := c.current.value;
    c.(current := None, state := Resting, sofar := [],
       replies := c.replies + [Reply(r, e, c.sofar, true, r.WriteRequest? && (c.nonblocking || r.dontBlock))])
  }

  // ---- Writing ----

  predicate WriteGoing(c: Conn) {
    c.state.Writing? && c.current.Some? && c.current.value.WriteRequest? && c.pcb && c.offset < |c.current.value.data|
  }

  function Chunk(c: Conn, s: Space): nat
    requires WriteGoing(c)
  {
    Least(Least(|c.current.value.data| - c.offset, 0xffff), s.available)
  }

  /** do_writemore */
  function WriteMore(c: Conn, s: Space): Conn
    requires WriteGoing(c)
  {
    var data, len := c.current.value.data, Chunk(c, s);
    var dontBlock := c.nonblocking || c.current.value.dontBlock;
    if dontBlock && (len < |data| || s.result.NoMemory?) then Finish(c, WouldBlock)
    else
      match s.result
      case Accepted =>
        var chunk := data[c.offset..c.offset + len];
        var c1 := c.(offset := c.offset + len, sofar := c.sofar + chunk, stream := c.stream + chunk);
        if c1.offset == |data| then Finish(c1, Ok).(offset := 0) else c1
      case NoMemory => c
      case Rejected => Finish(c, Refused)
  }

  /** do_write; `fatal` is whether last_err is. */
  function DoWrite(c: Conn, r: Request, fatal: bool, s: Space): Conn
    requires r.WriteRequest? && r.data != []
  {
    if fatal then Acknowledge(c, r, Fatal)
    else if !c.state.Resting? then Acknowledge(c, r, InProgress)
    else if !c.pcb then Acknowledge(c, r, NotConnected)
    else WriteMore(c.(state := Writing, current := Some(r), offset := 0, sofar := []), s)
  }

  // ---- Closing ----

  predicate CloseGoing(c: Conn) {
    c.state.Closing? && c.current.Some? && c.current.value.CloseRequest? && c.pcb
  }

  /** do_close_internal; `closed` is whether tcp_close or tcp_shutdown succeeds. */
  function CloseMore(c: Conn, closed: bool): Conn
    requires CloseGoing(c)
  {
    if closed then Finish(c, Ok).(pcb := false) else c
  }

  /** do_close */
  function DoClose(c: Conn, r: Request, closed: bool): Conn
    requires r.CloseRequest?
  {
    if !c.state.Resting? && !c.state.Listening? then Acknowledge(c, r, InProgress)
    else if !c.pcb then Acknowledge(c, r, Val)
    else if !r.both && c.state.Listening? then Acknowledge(c, r, NotConnected)
    else CloseMore(c.(state := Closing, current := Some(r)), closed)
  }

  /** do_delconn, which may interrupt a connect that did not block. */
  function DoDelete(c: Conn, r: Request, closed: bool): Conn
    requires r.CloseRequest?
  {
    if !c.state.Resting? && !c.state.Listening? && !c.state.Connecting? then Acknowledge(c, r, InProgress)
    else if !c.pcb then Acknowledge(c, r, Ok)
    else CloseMore(c.(state := Closing, current := Some(r)), closed)
  }

  // ---- Connecting ----

  /** do_connect; `started` is whether tcp_connect succeeds. */
  function DoConnect(c: Conn, r: Request, started: bool): Conn
    requires r.ConnectRequest?
  {
    if !c.pcb then Acknowledge(c, r, Clsd)
    else if !c.state.Resting? then Acknowledge(c, r, IsConn)
    else if !started then Acknowledge(c, r, Refused)
    else
      var c1 := c.(state := Connecting, connecting := c.nonblocking);
      if c.nonblocking then Acknowledge(c1, r, InProgress) else c1.(current := Some(r))
  }

  /** do_connected */
  function Connected(c: Conn, e: Error): Conn
    requires c.state.Connecting? && (c.current.Some? || c.connecting)
  {
    if c.connecting then c.(connecting := false, current := None, state := Resting)
    else Finish(c, e)
  }

  function DoListen(c: Conn, r: Request, fatal: bool): Conn
    requires r.ListenRequest?
  {
    if fatal then Acknowledge(c, r, Fatal)
    else if !c.pcb || !c.state.Resting? then Acknowledge(c, r, NotConnected)
    else Acknowledge(c, r, Ok).(state := Listening)
  }

  // ---- Callbacks ----

  /** The common part of sent_tcp and poll_tcp. */
  function Resume(c: Conn, s: Space, closed: bool): Conn
    requires c.state.Writing? ==> WriteGoing(c)
    requires c.state.Closing? ==> CloseGoing(c)
  {
    if c.state.Writing? then WriteMore(c, s) else if c.state.Closing? then CloseMore(c, closed) else c
  }

  predicate Engaged(c: Conn) {
    c.state.Writing? || c.state.Closing? || c.state.Connecting?
  }

  /** err_tcp */
  function ErrTcp(c: Conn): Conn
    requires Engaged(c) && !c.connecting ==> c.current.Some?
  {
    if !Engaged(c) then c.(pcb := false, state := Resting)
    else if c.connecting then c.(pcb := false, state := Resting, connecting := false)
    else Finish(c, Fatal).(pcb := false)
  }

  // ---- Steps ----

  datatype Op =
    | Write(data: seq<byte>, dontBlock: bool, fatal: bool, space: Space)
    | Close(both: bool, closed: bool)
    | Delete(closed: bool)
    | Connect(started: bool)
    | Listen(fatal: bool)
    | SetNonblocking(on: bool)
    | SentOrPoll(space: Space, closed: bool)
    | ConnectDone(error: Error)
    | Failure

  /** The application makes one call at a time. TCP reports a connection only for a netconn that is connecting, and
      never fails to close one that is. */
  ghost predicate Allowed(c: Conn, op: Op) {
    match op
    case Write(data, _, _, _) => c.current.None? && data != []
    case Close(_, _) => c.current.None?
    case Delete(closed) => c.current.None? && (c.connecting ==> closed)
    case Connect(_) => c.current.None?
    case Listen(_) => c.current.None?
    case SetNonblocking(_) => c.current.None?
    case ConnectDone(_) => c.state.Connecting?
    case SentOrPoll(_, _) => true
    case Failure => true
  }

  /** The number of calls made: each is answered, but for the one being served. */
  function Calls(c: Conn): nat {
    |c.replies| + if c.current.Some? then 1 else 0
  }

  ghost function Step(c: Conn, op: Op): Conn
    requires Inv(c) && Allowed(c, op)
  {
    var id := Calls(c);
    match op
    case Write(data, dontBlock, fatal, space) => DoWrite(c, WriteRequest(id, data, dontBlock), fatal, space)
    case Close(both, closed) => DoClose(c, CloseRequest(id, both), closed)
    case Delete(closed) => DoDelete(c, CloseRequest(id, true), closed)
    case Connect(started) => DoConnect(c, ConnectRequest(id), started)
    case Listen(fatal) => DoListen(c, ListenRequest(id), fatal)
    case SetNonblocking(on) => c.(nonblocking := on)
    case SentOrPoll(space, closed) => Resume(c, space, closed)
    case ConnectDone(e) => Connected(c, e)
    case Failure => ErrTcp(c)
  }

  // ---- The invariant ----

  /** The current request fits the state, and nothing else is under way. */
  ghost predicate Serving(c: Conn) {
    match c.state
    case Resting => c.current.None? && (c.connecting ==> !c.pcb)
    case Listening => c.current.None? && (c.connecting ==> !c.pcb)
    case Writing => WriteGoing(c) && !c.connecting && !c.nonblocking && !c.current.value.dontBlock
    case Closing => CloseGoing(c) && !c.connecting
    case Connecting => if c.connecting then c.current.None? else c.current.Some? && c.current.value.ConnectRequest?
  }

  /** What TCP has of the write in progress is its first write_offset bytes. */
  ghost predicate Progress(c: Conn) {
    if c.state.Writing? && c.current.Some? && c.current.value.WriteRequest?
    then c.offset <= |c.current.value.data| && c.sofar == c.current.value.data[..c.offset]
    else c.sofar == []
  }

  /** A write succeeds iff TCP has all of it, otherwise TCP has the front of it, and nothing of one that may not block. */
  ghost predicate Honest(r: Reply) {
    r.request.WriteRequest? ==>
      && r.accepted <= r.request.data
      && (r.error.Ok? <==> r.accepted == r.request.data)
      && (r.atomic && !r.error.Ok? ==> r.accepted == [])
  }

  ghost predicate InTurn(c: Conn) {
    && (forall i :: 0 <= i < |c.replies| ==> c.replies[i].request.id == i && Honest(c.replies[i]))
    && (c.current.Some? ==> c.current.value.id == |c.replies|)
  }

  function AcceptedIn(replies: seq<Reply>): seq<byte> {
    if replies == [] then [] else AcceptedIn(replies[..|replies| - 1]) + replies[|replies| - 1].accepted
  }

  /** What the last write that was begun left in write_offset. */
  function LeftOffset(replies: seq<Reply>): nat {
    if replies == [] then 0
    else
      var last := replies[|replies| - 1];
      if last.begun && last.request.WriteRequest? then (if last.error.Ok? then 0 else |last.accepted|)
      else LeftOffset(replies[..|replies| - 1])
  }

  ghost predicate Accounted(c: Conn) {
    && c.stream == AcceptedIn(c.replies) + c.sofar
    && (!c.state.Writing? ==> c.offset == LeftOffset(c.replies))
  }

  ghost predicate Inv(c: Conn) {
    Serving(c) && Progress(c) && InTurn(c) && Accounted(c)
  }

  // ---- What ending a request keeps ----

  lemma Appended(replies: seq<Reply>, r: Reply)
    ensures AcceptedIn(replies + [r]) == AcceptedIn(replies) + r.accepted
    ensures LeftOffset(replies + [r]) ==
      if r.begun && r.request.WriteRequest? then (if r.error.Ok? then 0 else |r.accepted|) else LeftOffset(replies)
  {
    assert (replies + [r])[..|replies|] == replies;
  }

  lemma AcknowledgeKeepsInv(c: Conn, r: Request, e: Error)
    requires Inv(c) && c.current.None? && r.id == |c.replies| && (r.WriteRequest? ==> !e.Ok? && r.data != [])
    ensures Inv(Acknowledge(c, r, e))
  {
    Appended(c.replies, Reply(r, e, [], false, false));
    assert AcceptedIn(c.replies) + [] == AcceptedIn(c.replies);
  }

  /** Finishing the current request, whose caller may then be told `e`. */
  lemma FinishKeepsInv(c: Conn, e: Error)
    requires c.current.Some? && Progress(c) && InTurn(c) && c.stream == AcceptedIn(c.replies) + c.sofar
    requires c.current.value.WriteRequest? <==> c.state.Writing?
    requires !c.state.Writing? ==> c.offset == LeftOffset(c.replies)
    requires c.state.Writing? ==> (e.Ok? <==> c.offset == |c.current.value.data|)
    requires c.state.Writing? && (c.nonblocking || c.current.value.dontBlock) && !e.Ok? ==> c.offset == 0
    ensures var c' := Finish(c, e);
      && Progress(c') && InTurn(c') && c'.stream == AcceptedIn(c'.replies) + c'.sofar
      && LeftOffset(c'.replies) == (if c.state.Writing? && e.Ok? then 0 else c.offset)
  {
    var r := c.current.value;
    var reply := Reply(r, e, c.sofar, true, r.WriteRequest? && (c.nonblocking || r.dontBlock));
    Appended(c.replies, reply);
    FinalReplyIsHonest(c, e, reply);
    assert c.stream + [] == c.stream;
  }

  lemma FinalReplyIsHonest(c: Conn, e: Error, reply: Reply)
    requires c.current.Some? && Progress(c) && (c.current.value.WriteRequest? <==> c.state.Writing?)
    requires c.state.Writing? ==> (e.Ok? <==> c.offset == |c.current.value.data|)
    requires c.state.Writing? && (c.nonblocking || c.current.value.dontBlock) && !e.Ok? ==> c.offset == 0
    requires reply.request == c.current.value && reply.error == e && reply.accepted == c.sofar
    requires reply.atomic ==> c.nonblocking || (c.current.value.WriteRequest? && c.current.value.dontBlock)
    ensures Honest(reply)
  {
    if c.state.Writing? && c.offset == |c.current.value.data| {
      assert c.sofar == c.current.value.data;
    }
  }

  /** A write that is under way, or is just being begun by a caller that may not block. */
  ghost predicate WriteInv(c: Conn) {
    && WriteGoing(c) && !c.connecting && Progress(c) && InTurn(c) && c.stream == AcceptedIn(c.replies) + c.sofar
    && (c.nonblocking || c.current.value.dontBlock ==> c.offset == 0)
  }

  lemma ChunkKeepsProgress(c: Conn, len: nat) returns (c1: Conn)
    requires WriteInv(c) && c.offset + len <= |c.current.value.data|
    ensures var chunk := c.current.value.data[c.offset..c.offset + len];
      c1 == c.(offset := c.offset + len, sofar := c.sofar + chunk, stream := c.stream + chunk)
    ensures Progress(c1) && InTurn(c1) && c1.stream == AcceptedIn(c1.replies) + c1.sofar
  {
    var chunk := c.current.value.data[c.offset..c.offset + len];
    c1 := c.(offset := c.offset + len, sofar := c.sofar + chunk, stream := c.stream + chunk);
    assert AcceptedIn(c.replies) + (c.sofar + chunk) == AcceptedIn(c.replies) + c.sofar + chunk;
  }

  lemma EndedWriteIsInv(c: Conn, e: Error)
    requires WriteInv(c) && !e.Ok?
    ensures Inv(Finish(c, e))
  {
    FinishKeepsInv(c, e);
  }

  lemma DoneWriteIsInv(c: Conn)
    requires c.state.Writing? && c.current.Some? && c.current.value.WriteRequest? && c.pcb && !c.connecting
    requires Progress(c) && InTurn(c) && c.stream == AcceptedIn(c.replies) + c.sofar && c.offset == |c.current.value.data|
    ensures Inv(Finish(c, Ok).(offset := 0))
  {
    FinishKeepsInv(c, Ok);
  }

  lemma WriteMoreKeepsInv(c: Conn, s: Space)
    requires WriteInv(c)
    ensures Inv(WriteMore(c, s))
  {
    var data, len := c.current.value.data, Chunk(c, s);
    if (c.nonblocking || c.current.value.dontBlock) && (len < |data| || s.result.NoMemory?) {
      EndedWriteIsInv(c, WouldBlock);
    } else {
      match s.result
      case Accepted =>
        var c1 := ChunkKeepsProgress(c, len);
        if c1.offset == |data| {
          DoneWriteIsInv(c1);
        }
      case NoMemory =>
      case Rejected => EndedWriteIsInv(c, Refused);
    }
  }

  lemma DoWriteKeepsInv(c: Conn, r: Request, fatal: bool, s: Space)
    requires Inv(c) && c.current.None? && r.WriteRequest? && r.data != [] && r.id == |c.replies|
    ensures Inv(DoWrite(c, r, fatal, s))
  {
    if !fatal && c.state.Resting? && c.pcb {
      WriteMoreKeepsInv(c.(state := Writing, current := Some(r), offset := 0, sofar := []), s);
    } else {
      AcknowledgeKeepsInv(c, r, if fatal then Fatal else if !c.state.Resting? then InProgress else NotConnected);
    }
  }

  /** A close that is under way or just begun. */
  lemma CloseMoreKeepsInv(c: Conn, closed: bool)
    requires CloseGoing(c) && Progress(c) && InTurn(c) && Accounted(c) && (c.connecting ==> closed)
    ensures Inv(CloseMore(c, closed))
  {
    FinishKeepsInv(c, Ok);
  }

  lemma DoCloseKeepsInv(c: Conn, r: Request, closed: bool)
    requires Inv(c) && c.current.None? && r.CloseRequest? && r.id == |c.replies|
    ensures Inv(DoClose(c, r, closed))
  {
    forall e: Error ensures Inv(Acknowledge(c, r, e)) {
      AcknowledgeKeepsInv(c, r, e);
    }
    if c.pcb && (c.state.Resting? || c.state.Listening?) {
      CloseMoreKeepsInv(c.(state := Closing, current := Some(r)), closed);
    }
  }

  lemma DoDeleteKeepsInv(c: Conn, r: Request, closed: bool)
    requires Inv(c) && c.current.None? && r.CloseRequest? && r.id == |c.replies| && (c.connecting ==> closed)
    ensures Inv(DoDelete(c, r, closed))
  {
    forall e: Error ensures Inv(Acknowledge(c, r, e)) {
      AcknowledgeKeepsInv(c, r, e);
    }
    if c.pcb {
      CloseMoreKeepsInv(c.(state := Closing, current := Some(r)), closed);
    }
  }

  lemma DoConnectKeepsInv(c: Conn, r: Request, started: bool)
    requires Inv(c) && c.current.None? && r.ConnectRequest? && r.id == |c.replies|
    ensures Inv(DoConnect(c, r, started))
  {
    forall e: Error ensures Inv(Acknowledge(c, r, e)) {
      AcknowledgeKeepsInv(c, r, e);
    }
  }

  lemma DoListenKeepsInv(c: Conn, r: Request, fatal: bool)
    requires Inv(c) && c.current.None? && r.ListenRequest? && r.id == |c.replies|
    ensures Inv(DoListen(c, r, fatal))
  {
    forall e: Error ensures Inv(Acknowledge(c, r, e)) {
      AcknowledgeKeepsInv(c, r, e);
    }
  }

  lemma ConnectedKeepsInv(c: Conn, e: Error)
    requires Inv(c) && c.state.Connecting?
    ensures Inv(Connected(c, e))
  {
    if !c.connecting {
      FinishKeepsInv(c, e);
    }
  }

  lemma ErrTcpKeepsInv(c: Conn)
    requires Inv(c)
    ensures Inv(ErrTcp(c))
  {
    if Engaged(c) && !c.connecting {
      FinishKeepsInv(c, Fatal);
    }
  }

  lemma ResumeKeepsInv(c: Conn, s: Space, closed: bool)
    requires Inv(c)
    ensures Inv(Resume(c, s, closed))
  {
    if c.state.Writing? {
      WriteMoreKeepsInv(c, s);
    } else if c.state.Closing? {
      CloseMoreKeepsInv(c, closed);
    }
  }

  lemma StepKeepsInv(c: Conn, op: Op)
    requires Inv(c) && Allowed(c, op)
    ensures Inv(Step(c, op))
  {
    var id := Calls(c);
    match op
    case Write(data, dontBlock, fatal, space) => DoWriteKeepsInv(c, WriteRequest(id, data, dontBlock), fatal, space);
    case Close(both, closed) => DoCloseKeepsInv(c, CloseRequest(id, both), closed);
    case Delete(closed) => DoDeleteKeepsInv(c, CloseRequest(id, true), closed);
    case Connect(started) => DoConnectKeepsInv(c, ConnectRequest(id), started);
    case Listen(fatal) => DoListenKeepsInv(c, ListenRequest(id), fatal);
    case SetNonblocking(on) =>
    case SentOrPoll(space, closed) => ResumeKeepsInv(c, space, closed);
    case ConnectDone(e) => ConnectedKeepsInv(c, e);
    case Failure => ErrTcpKeepsInv(c);
  }

  // ---- Every run ----

  ghost predicate CanRun(c: Conn, ops: seq<Op>)
    requires Inv(c)
    decreases |ops|
  {
    ops == [] || (Allowed(c, ops[0]) && (StepKeepsInv(c, ops[0]); CanRun(Step(c, ops[0]), ops[1..])))
  }

  ghost function Run(c: Conn, ops: seq<Op>): Conn
    requires Inv(c) && CanRun(c, ops)
    decreases |ops|
  {
    if ops == [] then c else StepKeepsInv(c, ops[0]); Run(Step(c, ops[0]), ops[1..])
  }

  /** A step that is a call of the application, and not the stack's. */
  predicate IsCall(op: Op) {
    !(op.SentOrPoll? || op.ConnectDone? || op.Failure? || op.SetNonblocking?)
  }

  function CallsIn(ops: seq<Op>): nat {
    if ops == [] then 0 else CallsIn(ops[1..]) + if IsCall(ops[0]) then 1 else 0
  }

  lemma {:induction false} RunKeepsInv(c: Conn, ops: seq<Op>)
    requires Inv(c) && CanRun(c, ops)
    ensures Inv(Run(c, ops)) && Calls(Run(c, ops)) == Calls(c) + CallsIn(ops)
    decreases |ops|
  {
    if ops != [] {
      StepKeepsInv(c, ops[0]);
      StepCountsCalls(c, ops[0]);
      RunKeepsInv(Step(c, ops[0]), ops[1..]);
    }
  }

  /** A call is answered, or it is in progress. */
  lemma WriteCounts(c: Conn, r: Request, fatal: bool, s: Space)
    requires c.current.None? && r.WriteRequest? && r.data != []
    ensures Calls(DoWrite(c, r, fatal, s)) == Calls(c) + 1
  {
  }

  lemma CloseCounts(c: Conn, r: Request, closed: bool)
    requires c.current.None? && r.CloseRequest?
    ensures Calls(DoClose(c, r, closed)) == Calls(c) + 1 && Calls(DoDelete(c, r, closed)) == Calls(c) + 1
  {
  }

  /** What the stack does answers the call in progress or leaves it in progress. */
  lemma ResumeCounts(c: Conn, s: Space, closed: bool)
    requires Inv(c)
    ensures Calls(Resume(c, s, closed)) == Calls(c)
  {
  }

  lemma StepCountsCalls(c: Conn, op: Op)
    requires Inv(c) && Allowed(c, op)
    ensures Calls(Step(c, op)) == Calls(c) + if IsCall(op) then 1 else 0
  {
    var id := Calls(c);
    match op
    case Write(data, dontBlock, fatal, space) => WriteCounts(c, WriteRequest(id, data, dontBlock), fatal, space);
    case Close(both, closed) => CloseCounts(c, CloseRequest(id, both), closed);
    case Delete(closed) => CloseCounts(c, CloseRequest(id, true), closed);
    case SentOrPoll(space, closed) => ResumeCounts(c, space, closed);
    case _ =>
  }

  /** netconn_alloc and do_newconn. */
  const NEW := Conn(Resting, None, 0, true, false, false, [], [], [])

  /** In every run, whatever TCP does and whenever the connection fails, each call of write, close, delete, connect
      and listen is signalled exactly once, in the order of the calls, except the one in progress, if there is one. */
  lemma EveryCallIsAnsweredOnce(ops: seq<Op>)
    requires CanRun(NEW, ops)
    ensures var c := Run(NEW, ops);
      && (forall i :: 0 <= i < |c.replies| ==> c.replies[i].request.id == i)
      && |c.replies| == CallsIn(ops) - (if c.current.Some? then 1 else 0)
      && (c.current.Some? ==> c.current.value.id == |c.replies|)
  {
    RunKeepsInv(NEW, ops);
  }

  /** The bytes TCP accepted are, in order, those of the writes answered so far and the first write_offset bytes of
      the one in progress. A write is answered ERR_OK iff TCP has all of it; if it fails TCP has only the front of
      it, and if it may not block either all or nothing. */
  lemma WritesAreHonest(ops: seq<Op>)
    requires CanRun(NEW, ops)
    ensures var c := Run(NEW, ops);
      && c.stream == AcceptedIn(c.replies) + (if c.state.Writing? && WriteGoing(c) then c.current.value.data[..c.offset] else [])
      && (forall i :: 0 <= i < |c.replies| ==> Honest(c.replies[i]))
  {
    RunKeepsInv(NEW, ops);
  }

  /** A write that may not block succeeds iff TCP takes it in one piece, which it cannot be if it is over 65535 bytes. */
  lemma UnblockingWriteSucceedsIff(c: Conn, r: Request, s: Space)
    requires c.state.Resting? && c.pcb && r.WriteRequest? && r.data != [] && (c.nonblocking || r.dontBlock)
    ensures var c' := DoWrite(c, r, false, s);
      && |c'.replies| == |c.replies| + 1
      && (c'.replies[|c.replies|].error.Ok? <==> |r.data| <= s.available && |r.data| <= 0xffff && s.result.Accepted?)
  {
  }
}
