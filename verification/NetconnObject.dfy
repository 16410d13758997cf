/** api_msg.c as it runs: a netconn whose fields the requests and callbacks update in place, each method proved
    against the step of Netconn that specifies it. */
module NetconnObject {
  import opened Sequences
  import opened Netconn
  import opened NetconnReplies

  class TcpNetconn {
    var state: Phase
    var current: Option<Request>
    var offset: nat
    var pcb: bool
    var nonblocking: bool
    var connecting: bool
    ghost var sofar: seq<byte>       // accepted from the write in progress
    ghost var stream: seq<byte>      // all that tcp_write has accepted
    ghost var replies: seq<Reply>    // the signals on op_completed

    ghost function State(): Conn
      reads this
    {
      Conn(state, current, offset, pcb, nonblocking, connecting, sofar, stream, replies)
    }

    /** The netconn is in the state its current request needs, and TCP has what the offset says. */
    ghost predicate Valid()
      reads this
    {
      Inv(State())
    }

    /** A request is in progress and its caller waits, or it has been signalled, and nobody else has. */
    twostate predicate Served(r: Request)
      reads this
    {
      if current.Some? then current == Some(r) && replies == old(replies)
      else |replies| == |old(replies)| + 1 && replies[..|old(replies)|] == old(replies) && replies[|old(replies)|].request == r
    }

    /** netconn_alloc and do_newconn */
    constructor ()
      ensures Valid() && State() == NEW
    {
      state, current, offset, pcb, nonblocking, connecting := Resting, None, 0, true, false, false;
      sofar, stream, replies := [], [], [];
    }

    /** TCPIP_APIMSG_ACK */
    method Acknowledge(r: Request, e: Error)
      modifies `replies
      ensures State() == Netconn.Acknowledge(old(State()), r, e)
    {
      replies := replies + [Reply(r, e, [], false, false)];
    }

    /** Setting the result of the current request and signalling its caller. */
    method Finish(e: Error)
      requires current.Some?
      modifies `state, `current, `sofar, `replies
      ensures State() == Netconn.Finish(old(State()), e)
    {
      ghost var r := current.value;
      replies := replies + [Reply(r, e, sofar, true, r.WriteRequest? && (nonblocking || r.dontBlock))];
      current, state, sofar := None, Resting, [];
    }

    /** do_writemore: the write goes on or is over, and it has succeeded iff TCP has all of it. */
    method WriteMore(s: Space)
      requires WriteInv(State())
      modifies `state, `current, `offset, `sofar, `stream, `replies
      ensures State() == Netconn.WriteMore(old(State()), s)
      ensures Valid() && Served(old(current).value)
    {
      ghost var c := State();
      var data := current.value.data;
      var dontBlock := nonblocking || current.value.dontBlock;
      var len: nat := if |data| - offset > 0xffff then 0xffff else |data| - offset;
      if s.available < len {
        len := s.available;
      }
      if dontBlock && len < |data| {
        Finish(WouldBlock);
      } else {
        match s.result
        case Accepted =>
          sofar, stream := sofar + data[offset..offset + len], stream + data[offset..offset + len];
          offset := offset + len;
          if offset == |data| {
            Finish(Ok);
            offset := 0;
          }
        case NoMemory =>
          if dontBlock {
            Finish(WouldBlock);
          }
        case Rejected => Finish(Refused);
      }
      assert State() == Netconn.WriteMore(c, s);
      WriteMoreKeepsInv(c, s);
    }

    /** A write that TCP is to be tried with. */
    method BeginWrite(r: Request, s: Space)
      requires Valid() && current.None? && r.WriteRequest? && r.data != [] && r.id == |replies| && state.Resting? && pcb
      modifies this
      ensures State() == Netconn.DoWrite(old(State()), r, false, s) && Served(r)
    {
      ghost var c := State().(state := Writing, current := Some(r), offset := 0, sofar := []);
      state, current, offset, sofar := Writing, Some(r), 0, [];
      assert State() == c;
      WriteMore(s);
    }

    /** The caller is told at once, and what it should be, unless it may block and TCP did not take all. */
    method DoWrite(r: Request, fatal: bool, s: Space)
      requires Valid() && current.None? && r.WriteRequest? && r.data != [] && r.id == |replies|
      modifies this
      ensures State() == Netconn.DoWrite(old(State()), r, fatal, s)
      ensures Valid() && Served(r) && (nonblocking || r.dontBlock ==> current.None?)
      ensures current.None? ==> WriteAnswer(old(State()), r.data, r.dontBlock, fatal, s, replies[|old(replies)|].error)
    {
      ghost var c := State();
      WriteAnswered(c, r, fatal, s);
      if fatal {
        Acknowledge(r, Fatal);
      } else if state != Resting {
        Acknowledge(r, InProgress);
      } else if pcb {
        BeginWrite(r, s);
      } else {
        Acknowledge(r, NotConnected);
      }
      assert State() == Netconn.DoWrite(c, r, fatal, s);
    }

    /** do_close_internal: the caller is signalled iff the close succeeds, and then the pcb is gone. */
    method CloseMore(closed: bool)
      requires CloseGoing(State())
      modifies `state, `current, `pcb, `sofar, `replies
      ensures State() == Netconn.CloseMore(old(State()), closed)
      ensures old(CloseInv(State(), closed)) ==> Valid()
      ensures Served(old(current).value) && (current.None? <==> closed) && pcb == !closed
      ensures closed ==> state.Resting? && replies[|old(replies)|].error.Ok?
    {
      if CloseInv(State(), closed) {
        CloseMoreKeepsInv(State(), closed);
      }
      if closed {
        Finish(Ok);
        pcb := false;
      }
    }

    /** do_close: the caller waits for a close that was begun and did not succeed, and is else told what it should be. */
    method DoClose(r: Request, closed: bool)
      requires Valid() && current.None? && r.CloseRequest? && r.id == |replies|
      modifies this
      ensures State() == Netconn.DoClose(old(State()), r, closed)
      ensures Valid() && Served(r) && (current.Some? ==> state.Closing? && pcb && !closed)
      ensures current.None? ==> CloseAnswer(old(State()), r.both, closed, replies[|old(replies)|].error)
    {
      DoCloseKeepsInv(State(), r, closed);
      if state != Resting && state != Listening {
        Acknowledge(r, InProgress);
      } else if pcb {
        if !r.both && state == Listening {
          Acknowledge(r, NotConnected);
        } else {
          state, current := Closing, Some(r);
          CloseMore(closed);
        }
      } else {
        Acknowledge(r, Val);
      }
    }

    /** do_delconn */
    method DoDelete(r: Request, closed: bool)
      requires r.CloseRequest? && (connecting ==> closed)
      modifies this
      ensures State() == Netconn.DoDelete(old(State()), r, closed)
      ensures old(Valid() && current.None? && r.id == |replies|) ==> Valid() && Served(r) && (current.None? ==> !pcb)
      ensures old(Valid() && current.None?) && current.None? ==> DeleteAnswer(old(State()), closed, replies[|old(replies)|].error)
    {
      if Valid() && current.None? && r.id == |replies| {
        DoDeleteKeepsInv(State(), r, closed);
      }
      if state != Resting && state != Listening && state != Connecting {
        Acknowledge(r, InProgress);
      } else if pcb {
        state, current := Closing, Some(r);
        CloseMore(closed);
      } else {
        Acknowledge(r, Ok);
      }
    }

    /** Waits for the connection iff it was started and may block; is else told at once what became of it. */
    method DoConnect(r: Request, started: bool)
      requires Valid() && current.None? && r.ConnectRequest? && r.id == |replies|
      modifies this
      ensures State() == Netconn.DoConnect(old(State()), r, started)
      ensures Valid() && Served(r) && (current.Some? <==> old(pcb && state.Resting? && !nonblocking) && started)
      ensures state.Connecting? <==> old(state.Connecting?) || (old(pcb && state.Resting?) && started)
      ensures current.None? ==> ConnectAnswer(old(State()), started, replies[|old(replies)|].error)
    {
      DoConnectKeepsInv(State(), r, started);
      if !pcb {
        Acknowledge(r, Clsd);
      } else if state != Resting {
        Acknowledge(r, IsConn);
      } else if started {
        state, connecting := Connecting, nonblocking;
        if nonblocking {
          Acknowledge(r, InProgress);
        } else {
          current := Some(r);
        }
      } else {
        Acknowledge(r, Refused);
      }
    }

    /** do_listen: the netconn listens iff the caller is told ERR_OK, or if it did before. */
    method DoListen(r: Request, fatal: bool)
      requires Valid() && current.None? && r.ListenRequest? && r.id == |replies|
      modifies this
      ensures State() == Netconn.DoListen(old(State()), r, fatal)
      ensures Valid() && Served(r) && current.None? && ListenAnswer(old(State()), State(), fatal, replies[|old(replies)|].error)
    {
      DoListenKeepsInv(State(), r, fatal);
      if fatal {
        Acknowledge(r, Fatal);
      } else if pcb && state == Resting {
        state := Listening;
        Acknowledge(r, Ok);
      } else {
        Acknowledge(r, NotConnected);
      }
    }

    /** do_connected: whoever waited for the connection is told how it ended, and nobody else anything. */
    method Connected(e: Error)
      requires Valid() && state.Connecting?
      modifies this
      ensures State() == Netconn.Connected(old(State()), e)
      ensures Valid() && state.Resting? && current.None? && !connecting
      ensures if old(current).Some? then Served(old(current).value) && replies[|old(replies)|].error == e else replies == old(replies)
    {
      ConnectedKeepsInv(State(), e);
      var wasBlocking := !connecting;
      connecting := false;
      if wasBlocking {
        Finish(e);
      } else {
        current, state := None, Resting;
      }
    }

    /** The common part of sent_tcp and poll_tcp: whatever was in progress goes on or is signalled. */
    method Resume(s: Space, closed: bool)
      requires Valid()
      modifies this
      ensures State() == Netconn.Resume(old(State()), s, closed)
      ensures Valid()
      ensures if old(current).Some? then Served(old(current).value) else replies == old(replies) && current.None?
    {
      ResumeKeepsInv(State(), s, closed);
      if state == Writing {
        WriteMore(s);
      } else if state == Closing {
        CloseMore(closed);
      }
    }

    /** err_tcp: nobody is left waiting, and whoever was is told of the failure. */
    method ErrTcp()
      requires Valid()
      modifies this
      ensures State() == Netconn.ErrTcp(old(State()))
      ensures Valid() && !pcb && state.Resting? && current.None?
      ensures if old(current).Some? then Served(old(current).value) && replies[|old(replies)|].error == Fatal else replies == old(replies)
    {
      ErrTcpKeepsInv(State());
      pcb := false;
      var oldState := state;
      state := Resting;
      if oldState == Writing || oldState == Closing || oldState == Connecting {
        var wasNonblocking := connecting;
        connecting := false;
        if !wasNonblocking {
          Finish(Fatal);
        }
      }
    }
  }

  /** A close that is under way or just begun. */
  ghost predicate CloseInv(c: Conn, closed: bool) {
    CloseGoing(c) && Progress(c) && InTurn(c) && Accounted(c) && (c.connecting ==> closed)
  }

  lemma WriteAnswered(c: Conn, r: Request, fatal: bool, s: Space)
    requires Inv(c) && c.current.None? && r.WriteRequest? && r.data != [] && r.id == |c.replies|
    ensures var c' := Netconn.DoWrite(c, r, fatal, s);
      && Inv(c') && (c'.nonblocking || r.dontBlock ==> c'.current.None?)
      && (c'.current.Some? ==> c'.current == Some(r) && c'.replies == c.replies)
      && (c'.current.None? ==> |c'.replies| == |c.replies| + 1 && c'.replies[..|c.replies|] == c.replies)
      && (c'.current.None? ==>
            c'.replies[|c.replies|].request == r && WriteAnswer(c, r.data, r.dontBlock, fatal, s, c'.replies[|c.replies|].error))
  {
    DoWriteKeepsInv(c, r, fatal, s);
  }

  /** What a resumption adds to what TCP has accepted is the next of the write's bytes. */
  lemma NextBytesPassed(c: Conn, s: Space)
    requires WriteGoing(c) && |c.sofar| == c.offset
    ensures var c' := Netconn.WriteMore(c, s);
      && (if c'.current.Some? then c'.current == c.current && c'.replies == c.replies
          else |c'.replies| == |c.replies| + 1 && c'.replies[..|c.replies|] == c.replies && c'.replies[|c.replies|].request == c.current.value)
      && var n := if c'.current.Some? then c'.offset else |c'.replies[|c.replies|].accepted|;
      c.offset <= n <= |c.current.value.data| && c'.stream == c.stream + c.current.value.data[c.offset..n]
  {
    assert c.stream + c.current.value.data[c.offset..c.offset] == c.stream;
  }
}
