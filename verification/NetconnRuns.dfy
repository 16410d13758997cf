/** api_msg.c over whole runs: when write_offset is not what the assertions say, how a resumed write ends, and when a
    caller would be left waiting. */
module NetconnRuns {
  import opened Sequences
  import opened Netconn

  // ---- What a write leaves in write_offset ----

  predicate BeginsWrite(c: Conn, op: Op) {
    op.Write? && !op.fatal && c.state.Resting? && c.pcb
  }

  /** A write that TCP has the front of is ended by a tcp_write it rejects or by err_tcp. */
  predicate BreaksWrite(c: Conn, op: Op) {
    c.state.Writing? && c.sofar != [] && (op.Failure? || (op.SentOrPoll? && op.space.result.Rejected?))
  }

  /** Whether the last write that was begun was broken off half-way; `half` is whether that was so at first. */
  ghost predicate HalfWritten(c: Conn, ops: seq<Op>, half: bool)
    requires Inv(c) && CanRun(c, ops)
    decreases |ops|
  {
    if ops == [] then half
    else
      StepKeepsInv(c, ops[0]);
      HalfWritten(Step(c, ops[0]), ops[1..], !BeginsWrite(c, ops[0]) && (half || BreaksWrite(c, ops[0])))
  }

  /** Between writes write_offset is not zero iff that is so; no write in progress is broken off. */
  ghost predicate OffsetTells(c: Conn, half: bool) {
    if c.state.Writing? then !half else (c.offset != 0 <==> half)
  }

  lemma WriteMoreTells(c: Conn, s: Space)
    requires Inv(c) && c.state.Writing?
    ensures OffsetTells(WriteMore(c, s), s.result.Rejected? && c.sofar != [])
  {
    assert |c.sofar| == c.offset;
  }

  lemma FirstWriteTells(c: Conn, s: Space)
    requires WriteGoing(c) && c.offset == 0
    ensures OffsetTells(WriteMore(c, s), false)
  {
  }

  lemma StepTells(c: Conn, op: Op, half: bool)
    requires Inv(c) && Allowed(c, op) && OffsetTells(c, half)
    ensures OffsetTells(Step(c, op), !BeginsWrite(c, op) && (half || BreaksWrite(c, op)))
  {
    if BeginsWrite(c, op) {
      var r := WriteRequest(Calls(c), op.data, op.dontBlock);
      FirstWriteTells(c.(state := Writing, current := Some(r), offset := 0, sofar := []), op.space);
    } else if c.state.Writing? && op.SentOrPoll? {
      WriteMoreTells(c, op.space);
    } else if c.state.Writing? && op.Failure? {
      assert |c.sofar| == c.offset;
    }
  }

  lemma {:induction false} RunTells(c: Conn, ops: seq<Op>, half: bool)
    requires Inv(c) && CanRun(c, ops) && OffsetTells(c, half)
    ensures OffsetTells(Run(c, ops), HalfWritten(c, ops, half))
    decreases |ops|
  {
    if ops != [] {
      StepKeepsInv(c, ops[0]);
      StepTells(c, ops[0], half);
      RunTells(Step(c, ops[0]), ops[1..], !BeginsWrite(c, ops[0]) && (half || BreaksWrite(c, ops[0])));
    }
  }

  /** In every run, between writes, write_offset is zero iff the last write that was begun was not broken off
      half-way by a tcp_write that failed or by the end of the connection. */
  lemma OffsetIsZeroIff(ops: seq<Op>)
    requires CanRun(NEW, ops) && !Run(NEW, ops).state.Writing?
    ensures Run(NEW, ops).offset == 0 <==> !HalfWritten(NEW, ops, false)
  {
    RunTells(NEW, ops, false);
  }

  /** Whether a request comes to the assertion that nothing is being written or closed. */
  predicate Asserts(c: Conn, op: Op) {
    match op
    case Write(_, _, fatal, _) => !fatal && c.state.Resting? && c.pcb
    case Close(both, _) => c.pcb && (c.state.Resting? || (c.state.Listening? && both))
    case Delete(_) => c.pcb && (c.state.Resting? || c.state.Listening? || c.state.Connecting?)
    case _ => false
  }

  /** In every run, do_write, do_close and do_delconn find what they assert iff that is so. */
  lemma AssertionHoldsIff(ops: seq<Op>, op: Op)
    requires CanRun(NEW, ops) && Allowed(Run(NEW, ops), op) && Asserts(Run(NEW, ops), op)
    ensures var c := Run(NEW, ops);
      c.current.None? && c.offset == 0 <==> !HalfWritten(NEW, ops, false)
  {
    RunTells(NEW, ops, false);
    RunKeepsInv(NEW, ops);
  }

  lemma Next(c: Conn, op: Op, c': Conn, rest: seq<Op>, half: bool)
    requires Inv(c) && Allowed(c, op) && c' == Step(c, op) && Inv(c')
    requires CanRun(c', rest)
    ensures CanRun(c, [op] + rest) && Run(c, [op] + rest) == Run(c', rest)
    ensures HalfWritten(c, [op] + rest, half) == HalfWritten(c', rest, !BeginsWrite(c, op) && (half || BreaksWrite(c, op)))
  {
    assert ([op] + rest)[1..] == rest;
  }

  const BROKEN_OFF := [Write([0, 0], false, false, Space(1, Accepted))] + ([SentOrPoll(Space(1, Rejected), false)] + [])

  /** A write of two bytes of which TCP has one. */
  function HalfWay(data: seq<byte>): Conn
    requires |data| == 2
  {
    NEW.(state := Writing, current := Some(WriteRequest(0, data, false)), offset := 1, sofar := data[..1], stream := data[..1])
  }

  lemma FirstByte(data: seq<byte>, op: Op)
    requires |data| == 2 && op == Write(data, false, false, Space(1, Accepted))
    ensures Inv(NEW) && Step(NEW, op) == HalfWay(data) && Inv(HalfWay(data))
  {
    assert data[0..1] == data[..1] && [] + data[..1] == data[..1];
    StepKeepsInv(NEW, op);
  }

  lemma SecondByte(data: seq<byte>, op: Op, c: Conn)
    requires |data| == 2 && op == SentOrPoll(Space(1, Rejected), false)
    requires c == HalfWay(data).(state := Resting, current := None, sofar := [],
                                 replies := [Reply(WriteRequest(0, data, false), Refused, data[..1], true, false)])
    requires Inv(HalfWay(data))
    ensures Step(HalfWay(data), op) == c && Inv(c)
  {
    assert [] + c.replies == c.replies;
    StepKeepsInv(HalfWay(data), op);
  }

  /** One byte is accepted and the next rejected: the caller is told, may close, and the assertion fails. */
  lemma AssertionFails(both: bool, closed: bool)
    ensures CanRun(NEW, BROKEN_OFF) && HalfWritten(NEW, BROKEN_OFF, false)
    ensures var c := Run(NEW, BROKEN_OFF);
      c.offset == 1 && Asserts(c, Close(both, closed)) && Allowed(c, Close(both, closed)) && Asserts(c, Delete(closed))
  {
    var data: seq<byte> := [0, 0];
    var write, poll := Write(data, false, false, Space(1, Accepted)), SentOrPoll(Space(1, Rejected), false);
    var c := HalfWay(data).(state := Resting, current := None, sofar := [],
                            replies := [Reply(WriteRequest(0, data, false), Refused, data[..1], true, false)]);
    FirstByte(data, write);
    SecondByte(data, poll, c);
    Next(HalfWay(data), poll, c, [], false);
    Next(NEW, write, HalfWay(data), [poll] + [], false);
  }

  // ---- A write that is resumed often enough ends well ----

  predicate HasRoom(op: Op) {
    op.SentOrPoll? && op.space.available > 0 && op.space.result.Accepted?
  }

  ghost predicate Roomy(ops: seq<Op>) {
    forall i :: 0 <= i < |ops| ==> HasRoom(ops[i])
  }

  /** Each time, it ends or there is less of it left. */
  lemma ResumedWriteAdvances(c: Conn, op: Op)
    requires Inv(c) && c.state.Writing? && HasRoom(op)
    ensures var c' := Step(c, op);
      if c'.state.Writing? then c'.current == c.current && c.offset < c'.offset && c'.replies == c.replies
      else c'.state.Resting? && c'.replies == c.replies + [Reply(c.current.value, Ok, c.current.value.data, true, false)]
  {
    StepKeepsInv(c, op);
    var len := Chunk(c, op.space);
    var data := c.current.value.data;
    if c.offset + len == |data| {
      assert c.sofar + data[c.offset..] == data;
    }
  }

  /** After the end, nothing more is signalled. */
  lemma {:induction false} NothingToResume(c: Conn, ops: seq<Op>)
    requires Inv(c) && CanRun(c, ops) && Roomy(ops) && c.state.Resting?
    ensures Run(c, ops) == c
    decreases |ops|
  {
    if ops != [] {
      assert Step(c, ops[0]) == c;
      NothingToResume(c, ops[1..]);
    }
  }

  /** However little room there is each time, as many resumptions as there are bytes left end a write with ERR_OK. */
  lemma {:induction false} ResumedWriteEnds(c: Conn, ops: seq<Op>)
    requires Inv(c) && c.state.Writing? && CanRun(c, ops) && Roomy(ops)
    requires |ops| >= |c.current.value.data| - c.offset
    ensures var c' := Run(c, ops);
      c'.state.Resting? && c'.replies == c.replies + [Reply(c.current.value, Ok, c.current.value.data, true, false)]
    decreases |ops|
  {
    StepKeepsInv(c, ops[0]);
    ResumedWriteAdvances(c, ops[0]);
    var c1 := Step(c, ops[0]);
    if c1.state.Writing? {
      ResumedWriteEnds(c1, ops[1..]);
    } else {
      NothingToResume(c1, ops[1..]);
    }
  }

  // ---- If closing a netconn that is still connecting could fail ----

  /** The application's calls; it waits for the signal of each. */
  predicate IsCall(op: Op) {
    !op.SentOrPoll? && !op.ConnectDone? && !op.Failure?
  }

  /** As in Netconn, but for that premise; `made` calls were made that wait for a signal. */
  ghost predicate LaxAllowed(c: Conn, made: nat, op: Op) {
    && (IsCall(op) ==> made == |c.replies|)
    && (op.Write? ==> op.data != [])
    && (op.ConnectDone? ==> c.state.Connecting?)
  }

  ghost predicate LaxInv(c: Conn, made: nat) {
    && |c.replies| <= made <= |c.replies| + 1
    && (c.current.Some? ==> made == |c.replies| + 1)
    && match c.state
       case Resting => c.connecting ==> !c.pcb
       case Listening => c.connecting ==> !c.pcb
       case Writing => WriteGoing(c) && !c.connecting
       case Closing => CloseGoing(c)
       case Connecting => if c.connecting then c.current.None? && made == |c.replies| else c.current.Some?
  }

  ghost function LaxStep(c: Conn, made: nat, op: Op): Conn
    requires LaxInv(c, made) && LaxAllowed(c, made, op)
  {
    match op
    case Write(data, dontBlock, fatal, space) => DoWrite(c, WriteRequest(made, data, dontBlock), fatal, space)
    case Close(both, closed) => DoClose(c, CloseRequest(made, both), closed)
    case Delete(closed) => DoDelete(c, CloseRequest(made, true), closed)
    case Connect(started) => DoConnect(c, ConnectRequest(made), started)
    case Listen(fatal) => DoListen(c, ListenRequest(made), fatal)
    case SetNonblocking(on) => c.(nonblocking := on)
    case SentOrPoll(space, closed) => Resume(c, space, closed)
    case ConnectDone(e) => Connected(c, e)
    case Failure => ErrTcp(c)
  }

  function MadeBy(made: nat, op: Op): nat {
    if IsCall(op) && !op.SetNonblocking? then made + 1 else made
  }

  /** Somebody waits for a signal, and nothing is under way that would give it. */
  predicate Stranded(c: Conn, made: nat) {
    made > |c.replies| && !Engaged(c)
  }

  /** The connection fails that is both connecting and being closed. */
  predicate Strands(c: Conn, op: Op) {
    op.Failure? && c.state.Closing? && c.connecting
  }

  lemma LaxCallKeepsInv(c: Conn, made: nat, op: Op)
    requires LaxInv(c, made) && LaxAllowed(c, made, op) && IsCall(op)
    ensures LaxInv(LaxStep(c, made, op), MadeBy(made, op))
    ensures !Stranded(LaxStep(c, made, op), MadeBy(made, op)) && !Stranded(c, made)
  {
  }

  lemma LaxCallbackKeepsInv(c: Conn, made: nat, op: Op)
    requires LaxInv(c, made) && LaxAllowed(c, made, op) && !IsCall(op)
    ensures LaxInv(LaxStep(c, made, op), made)
    ensures Stranded(LaxStep(c, made, op), made) <==> Stranded(c, made) || Strands(c, op)
  {
  }

  lemma LaxStepKeepsInv(c: Conn, made: nat, op: Op)
    requires LaxInv(c, made) && LaxAllowed(c, made, op)
    ensures LaxInv(LaxStep(c, made, op), MadeBy(made, op))
    ensures Stranded(LaxStep(c, made, op), MadeBy(made, op)) <==> Stranded(c, made) || Strands(c, op)
  {
    if IsCall(op) {
      LaxCallKeepsInv(c, made, op);
    } else {
      LaxCallbackKeepsInv(c, made, op);
    }
  }

  ghost predicate CanRunLax(c: Conn, made: nat, ops: seq<Op>)
    requires LaxInv(c, made)
    decreases |ops|
  {
    ops == [] || (LaxAllowed(c, made, ops[0]) && (LaxStepKeepsInv(c, made, ops[0]); CanRunLax(LaxStep(c, made, ops[0]), MadeBy(made, ops[0]), ops[1..])))
  }

  ghost function RunLax(c: Conn, made: nat, ops: seq<Op>): (Conn, nat)
    requires LaxInv(c, made) && CanRunLax(c, made, ops)
    decreases |ops|
  {
    if ops == [] then (c, made)
    else LaxStepKeepsInv(c, made, ops[0]); RunLax(LaxStep(c, made, ops[0]), MadeBy(made, ops[0]), ops[1..])
  }

  ghost predicate EverStrands(c: Conn, made: nat, ops: seq<Op>)
    requires LaxInv(c, made) && CanRunLax(c, made, ops)
    decreases |ops|
  {
    ops != [] && (LaxStepKeepsInv(c, made, ops[0]);
                  Strands(c, ops[0]) || EverStrands(LaxStep(c, made, ops[0]), MadeBy(made, ops[0]), ops[1..]))
  }

  lemma {:induction false} LaxRunStrandsIff(c: Conn, made: nat, ops: seq<Op>)
    requires LaxInv(c, made) && CanRunLax(c, made, ops)
    ensures var (c', made') := RunLax(c, made, ops);
      Stranded(c', made') <==> Stranded(c, made) || EverStrands(c, made, ops)
    decreases |ops|
  {
    if ops != [] {
      LaxStepKeepsInv(c, made, ops[0]);
      LaxRunStrandsIff(LaxStep(c, made, ops[0]), MadeBy(made, ops[0]), ops[1..]);
    }
  }

  /** Without that premise, a caller is left waiting for ever iff err_tcp comes to a netconn that is being closed and
      was connecting without blocking. */
  lemma CallerIsStrandedIff(ops: seq<Op>)
    requires CanRunLax(NEW, 0, ops)
    ensures var (c, made) := RunLax(NEW, 0, ops);
      Stranded(c, made) <==> EverStrands(NEW, 0, ops)
  {
    LaxRunStrandsIff(NEW, 0, ops);
  }

  lemma NextLax(c: Conn, made: nat, op: Op, c': Conn, rest: seq<Op>)
    requires LaxInv(c, made) && LaxAllowed(c, made, op) && c' == LaxStep(c, made, op) && LaxInv(c', MadeBy(made, op))
    requires CanRunLax(c', MadeBy(made, op), rest)
    ensures CanRunLax(c, made, [op] + rest) && RunLax(c, made, [op] + rest) == RunLax(c', MadeBy(made, op), rest)
  {
    assert ([op] + rest)[1..] == rest;
  }

  const CLOSE_FAILS := [SetNonblocking(true)] + ([Connect(true)] + ([Delete(false)] + ([Failure] + [])))

  /** One tcp_close would have to fail: the caller of netconn_delete would never return. */
  lemma CloserIsStranded()
    ensures CanRunLax(NEW, 0, CLOSE_FAILS)
    ensures var (c, made) := RunLax(NEW, 0, CLOSE_FAILS);
      Stranded(c, made) && made == 2 && |c.replies| == 1 && c.replies[0].request.ConnectRequest?
  {
    var reply := Reply(ConnectRequest(0), InProgress, [], false, false);
    var c1 := NEW.(nonblocking := true);
    var c2 := c1.(state := Connecting, connecting := true, replies := [reply]);
    var c3 := c2.(state := Closing, current := Some(CloseRequest(1, true)));
    var c4 := c3.(pcb := false, state := Resting, connecting := false);
    assert [] + [reply] == [reply];
    NextLax(c3, 2, Failure, c4, []);
    NextLax(c2, 1, Delete(false), c3, [Failure] + []);
    NextLax(c1, 0, Connect(true), c2, [Delete(false)] + ([Failure] + []));
    NextLax(NEW, 0, SetNonblocking(true), c1, [Connect(true)] + ([Delete(false)] + ([Failure] + [])));
  }
}
