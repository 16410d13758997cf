/** api_msg.c over whole runs: what each caller is told. A result is read off the event that ends the request and the
    fields it finds, and so are the pcb and the flags. */
module NetconnReplies {
  import opened Sequences
  import opened Netconn

  /** What a write that is answered at once may say. */
  predicate WriteAnswer(c: Conn, data: seq<byte>, dontBlock: bool, fatal: bool, s: Space, e: Error) {
    var begins := !fatal && c.state.Resting? && c.pcb;
    var fits := |data| <= 0xffff && |data| <= s.available;
    && (e.Fatal? <==> fatal)
    && (e.InProgress? <==> !fatal && !c.state.Resting?)
    && (e.NotConnected? <==> !fatal && c.state.Resting? && !c.pcb)
    && (e.Ok? <==> begins && fits && s.result.Accepted?)
    && (e.Refused? <==> begins && s.result.Rejected? && (fits || !(c.nonblocking || dontBlock)))
    && (e.WouldBlock? <==> begins && (c.nonblocking || dontBlock) && (!fits || s.result.NoMemory?))
  }

  predicate CloseAnswer(c: Conn, both: bool, closed: bool, e: Error) {
    var idle := c.state.Resting? || c.state.Listening?;
    && (e.InProgress? <==> !idle) && (e.Val? <==> idle && !c.pcb)
    && (e.NotConnected? <==> c.state.Listening? && c.pcb && !both)
    && (e.Ok? <==> idle && c.pcb && (both || c.state.Resting?) && closed)
  }

  /** A delete finds nothing being written or closed, as the application makes one call at a time. */
  predicate DeleteAnswer(c: Conn, closed: bool, e: Error) {
    (c.state.Resting? || c.state.Listening? || c.state.Connecting?) && (e.Ok? <==> closed || !c.pcb)
  }

  /** A connect that is answered at once is never a success. */
  predicate ConnectAnswer(c: Conn, started: bool, e: Error) {
    && (e.Clsd? <==> !c.pcb) && (e.IsConn? <==> c.pcb && !c.state.Resting?)
    && (e.Refused? <==> c.pcb && c.state.Resting? && !started)
    && (e.InProgress? <==> c.pcb && c.state.Resting? && started && c.nonblocking)
    && (e.Clsd? || e.IsConn? || e.Refused? || e.InProgress?)
  }

  predicate ListenAnswer(c: Conn, c': Conn, fatal: bool, e: Error) {
    && (e.Fatal? <==> fatal) && (e.NotConnected? <==> !fatal && (!c.pcb || !c.state.Resting?))
    && (e.Ok? <==> c'.state.Listening? && !c.state.Listening?)
  }

  /** The event `op`, which makes `c'` of `c`, ends a request with this reply. */
  ghost predicate Right(c: Conn, op: Op, c': Conn, r: Reply) {
    match op
    case Write(data, dontBlock, fatal, s) =>
      r.request.WriteRequest? && r.request.data == data && WriteAnswer(c, data, dontBlock, fatal, s, r.error)
    case Close(both, closed) => r.request.CloseRequest? && r.request.both == both && CloseAnswer(c, both, closed, r.error)
    case Delete(closed) => r.request.CloseRequest? && DeleteAnswer(c, closed, r.error)
    case Connect(started) => r.request.ConnectRequest? && ConnectAnswer(c, started, r.error)
    case Listen(fatal) => r.request.ListenRequest? && ListenAnswer(c, c', fatal, r.error)
    case SetNonblocking(_) => false
    case SentOrPoll(s, closed) =>
      && c.current == Some(r.request)
      && (r.request.CloseRequest? ==> r.error.Ok? && closed)
      && (r.request.WriteRequest? ==> (r.error.Ok? <==> s.result.Accepted?) && (r.error.Refused? <==> s.result.Rejected?))
      && (r.request.CloseRequest? || r.request.WriteRequest?)
    case ConnectDone(e) => c.current == Some(r.request) && r.request.ConnectRequest? && r.error == e
    case Failure => c.current == Some(r.request) && !r.request.ListenRequest? && r.error.Fatal?
  }

  /** Whether a write of which `rest` bytes are left goes on after TCP was tried. */
  predicate WriteGoesOn(rest: nat, s: Space) {
    s.result.NoMemory? || (s.result.Accepted? && (rest > 0xffff || rest > s.available))
  }

  /** Whether `op` ends a request: all calls are answered at once but a write, close or connect that may block and was
      begun without getting through. */
  predicate Ends(c: Conn, op: Op) {
    match op
    case Write(data, dontBlock, fatal, s) =>
      fatal || !c.state.Resting? || !c.pcb || c.nonblocking || dontBlock || !WriteGoesOn(|data|, s)
    case Close(both, closed) => closed || !c.pcb || !(c.state.Resting? || (c.state.Listening? && both))
    case Delete(closed) => closed || !c.pcb || !(c.state.Resting? || c.state.Listening? || c.state.Connecting?)
    case Connect(started) => !started || !c.pcb || !c.state.Resting? || c.nonblocking
    case Listen(_) => true
    case SetNonblocking(_) => false
    case SentOrPoll(s, closed) =>
      && c.current.Some?
      && (if c.current.value.WriteRequest? then !WriteGoesOn(if c.offset <= |c.current.value.data| then |c.current.value.data| - c.offset else 0, s)
          else c.current.value.CloseRequest? && closed)
    case ConnectDone(_) => c.current.Some?
    case Failure => c.current.Some?
  }

  /** An event ends one request, and rightly, or none. */
  ghost predicate EndsRight(c: Conn, op: Op, c': Conn) {
    if Ends(c, op) then
      |c'.replies| == |c.replies| + 1 && c'.replies[..|c.replies|] == c.replies && Right(c, op, c', c'.replies[|c.replies|])
    else c'.replies == c.replies
  }

  lemma WriteEndsRight(c: Conn, op: Op)
    requires Inv(c) && Allowed(c, op) && op.Write?
    ensures EndsRight(c, op, Step(c, op))
  {
  }

  lemma ResumeEndsRight(c: Conn, op: Op)
    requires Inv(c) && Allowed(c, op) && op.SentOrPoll?
    ensures EndsRight(c, op, Step(c, op))
  {
  }

  lemma CloseEndsRight(c: Conn, op: Op)
    requires Inv(c) && Allowed(c, op) && (op.Close? || op.Delete?)
    ensures EndsRight(c, op, Step(c, op))
  {
  }

  lemma OpenEndsRight(c: Conn, op: Op)
    requires Inv(c) && Allowed(c, op) && (op.Connect? || op.Listen?)
    ensures EndsRight(c, op, Step(c, op))
  {
  }

  lemma StackEndsRight(c: Conn, op: Op)
    requires Inv(c) && Allowed(c, op) && (op.ConnectDone? || op.Failure? || op.SetNonblocking?)
    ensures EndsRight(c, op, Step(c, op))
  {
  }

  /** Every event tells whom it should what it should, and nobody else anything. */
  lemma StepEndsRight(c: Conn, op: Op)
    requires Inv(c) && Allowed(c, op)
    ensures EndsRight(c, op, Step(c, op))
  {
    if op.Write? {
      WriteEndsRight(c, op);
    } else if op.SentOrPoll? {
      ResumeEndsRight(c, op);
    } else if op.Close? || op.Delete? {
      CloseEndsRight(c, op);
    } else if op.Connect? || op.Listen? {
      OpenEndsRight(c, op);
    } else {
      StackEndsRight(c, op);
    }
  }

  // ---- Every run ----

  /** The events of a run that end a request, in order, with what they find and leave. */
  datatype Ending = Ending(before: Conn, op: Op, after: Conn)

  ghost function Endings(c: Conn, ops: seq<Op>): seq<Ending>
    requires Inv(c) && CanRun(c, ops)
    decreases |ops|
  {
    if ops == [] then []
    else
      StepKeepsInv(c, ops[0]);
      (if Ends(c, ops[0]) then [Ending(c, ops[0], Step(c, ops[0]))] else []) + Endings(Step(c, ops[0]), ops[1..])
  }

  ghost predicate EndRight(e: Ending, r: Reply) {
    Right(e.before, e.op, e.after, r)
  }

  ghost predicate AllRight(ends: seq<Ending>, replies: seq<Reply>) {
    |ends| == |replies| && forall i :: 0 <= i < |ends| ==> EndRight(ends[i], replies[i])
  }

  lemma OneMoreRight(e: Ending, r: Reply, ends: seq<Ending>, replies: seq<Reply>)
    requires EndRight(e, r) && AllRight(ends, replies)
    ensures AllRight([e] + ends, [r] + replies)
  {
  }

  lemma {:induction false} RunEndsRight(c: Conn, ops: seq<Op>)
    requires Inv(c) && CanRun(c, ops)
    ensures var c' := Run(c, ops); c.replies <= c'.replies && AllRight(Endings(c, ops), c'.replies[|c.replies|..])
    decreases |ops|
  {
    if ops != [] {
      var c1 := Step(c, ops[0]);
      StepKeepsInv(c, ops[0]);
      StepEndsRight(c, ops[0]);
      RunEndsRight(c1, ops[1..]);
      var more := Run(c, ops).replies[|c1.replies|..];
      if Ends(c, ops[0]) {
        OneMoreRight(Ending(c, ops[0], c1), c1.replies[|c.replies|], Endings(c1, ops[1..]), more);
        assert Run(c, ops).replies[|c.replies|..] == [c1.replies[|c.replies|]] + more;
      } else {
        assert [] + Endings(c1, ops[1..]) == Endings(c1, ops[1..]);
      }
    }
  }

  /** In every run each reply is the right one for the event that gave it. */
  lemma ResultsAreRight(ops: seq<Op>)
    requires CanRun(NEW, ops)
    ensures AllRight(Endings(NEW, ops), Run(NEW, ops).replies)
  {
    RunEndsRight(NEW, ops);
    assert Run(NEW, ops).replies[0..] == Run(NEW, ops).replies;
  }

  /** So a connect succeeds iff TCP reports that it did, and a close or delete iff TCP closes, now or later, or there
      was nothing to close. */
  lemma SuccessIff(ops: seq<Op>, i: nat)
    requires CanRun(NEW, ops) && i < |Run(NEW, ops).replies|
    ensures |Endings(NEW, ops)| == |Run(NEW, ops).replies|
    ensures var r, e := Run(NEW, ops).replies[i], Endings(NEW, ops)[i];
      && (r.request.ConnectRequest? ==> (r.error.Ok? <==> e.op == ConnectDone(Ok)))
      && (r.request.CloseRequest? ==>
            (r.error.Ok? <==>
               match e.op
               case Close(both, closed) => closed && e.before.pcb && (e.before.state.Resting? || (e.before.state.Listening? && both))
               case Delete(closed) => closed || !e.before.pcb
               case SentOrPoll(_, closed) => closed
               case _ => false))
      && (r.request.ListenRequest? ==> (r.error.Ok? <==> e.after.state.Listening? && !e.before.state.Listening?))
  {
    ResultsAreRight(ops);
    assert EndRight(Endings(NEW, ops)[i], Run(NEW, ops).replies[i]);
  }

  // ---- The pcb and the mode ----

  /** A close that TCP carries out. */
  predicate Closed(r: Reply) {
    r.request.CloseRequest? && r.error.Ok?
  }

  predicate AnyClosed(replies: seq<Reply>) {
    exists i :: 0 <= i < |replies| && Closed(replies[i])
  }

  predicate Fails(ops: seq<Op>) {
    exists i :: 0 <= i < |ops| && ops[i].Failure?
  }

  /** The mode the application asked for last. */
  function Mode(ops: seq<Op>, on: bool): bool {
    if ops == [] then on else Mode(ops[1..], if ops[0].SetNonblocking? then ops[0].on else on)
  }

  lemma StepMovesFlags(c: Conn, op: Op)
    requires Inv(c) && Allowed(c, op)
    ensures var c' := Step(c, op);
      && c'.nonblocking == (if op.SetNonblocking? then op.on else c.nonblocking)
      && (c'.pcb <==> c.pcb && !op.Failure? && !(|c'.replies| > |c.replies| && Closed(c'.replies[|c.replies|])))
  {
    StepEndsRight(c, op);
    if op.Write? {
      assert Step(c, op).pcb == c.pcb;
    } else if op.SentOrPoll? {
      assert Step(c, op).pcb == (c.pcb && !(c.state.Closing? && op.closed));
    } else if op.Close? {
      assert Step(c, op).pcb == (c.pcb && !(Ends(c, op) && CloseAnswer(c, op.both, op.closed, Ok)));
    } else if op.Delete? {
      assert Step(c, op).pcb == (c.pcb && !(Ends(c, op) && DeleteAnswer(c, op.closed, Ok)));
    }
  }

  lemma {:induction false} RunMovesFlags(c: Conn, ops: seq<Op>)
    requires Inv(c) && CanRun(c, ops) && (c.pcb ==> !AnyClosed(c.replies))
    ensures var c' := Run(c, ops);
      && c'.nonblocking == Mode(ops, c.nonblocking)
      && (c'.pcb <==> c.pcb && !Fails(ops) && !AnyClosed(c'.replies))
    decreases |ops|
  {
    if ops != [] {
      var c1 := Step(c, ops[0]);
      StepKeepsInv(c, ops[0]);
      StepEndsRight(c, ops[0]);
      StepMovesFlags(c, ops[0]);
      RunEndsRight(c1, ops[1..]);
      RunMovesFlags(c1, ops[1..]);
    }
  }

  /** In every run the pcb is there until the connection fails or a close or delete succeeds, and the mode is the one
      asked for last. */
  lemma PcbIsThereIff(ops: seq<Op>)
    requires CanRun(NEW, ops)
    ensures var c := Run(NEW, ops);
      (c.pcb <==> !Fails(ops) && !AnyClosed(c.replies)) && c.nonblocking == Mode(ops, false)
  {
    RunMovesFlags(NEW, ops);
  }
}
