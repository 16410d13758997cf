/** sockets.c and api_lib.c as they run: a TCP socket whose fields lwip_recvfrom updates in place. */
module StreamSocket {
  import opened Sequences
  import opened Receive

  class Socket {
    var mailbox: seq<Mail>             // conn->recvmbox
    var lastErr: Option<Fatal>         // conn->last_err, if it is fatal
    var pcb: bool
    var rcvevent: int
    var lastdata: Option<Pbuf>
    var lastoffset: nat
    var owed: nat
    ghost var arrived: seq<byte>
    ghost var credited: nat
    ghost var answers: seq<Answer>     // of all calls so far

    ghost function State(): Stream
      reads this
    {
      Stream(mailbox, lastErr, pcb, owed, rcvevent, lastdata, lastoffset, arrived, credited)
    }

    /** The stream is whole and the window as far open as was read. */
    ghost predicate Valid()
      reads this
    {
      Inv(History(State(), answers))
    }

    constructor ()
      ensures Valid() && State() == NEW && answers == []
    {
      mailbox, lastErr, pcb, rcvevent, lastdata, lastoffset, owed := [], None, true, 0, None, 0, 0;
      arrived, credited, answers := [], 0, [];
      new;
      assert History(State(), answers) == START;
      StartIsInv();
    }

    /** recv_tcp and err_tcp, at any time. */
    method Happen(events: seq<Event>)
      modifies `mailbox, `lastErr, `pcb, `rcvevent, `owed, `arrived
      ensures State() == Occurs(old(State()), events)
    {
      var i := 0;
      while i < |events|
        invariant 0 <= i <= |events|
        invariant Occurs(State(), events[i..]) == Occurs(old(State()), events)
      {
        match events[i] {
          case Data(p) => mailbox, owed, arrived := mailbox + [Chunk(p)], owed + 1, arrived + p.data;
          case Fin => mailbox, owed := mailbox + [Null], owed + 1;
          case Failure(error, room) =>
            pcb, lastErr, owed := false, Some(error), owed + 1;
            if room {
              mailbox := mailbox + [Null];
            }
          case Counted =>
            if owed > 0 {
              owed, rcvevent := owed - 1, rcvevent + 1;
            }
        }
        assert events[i..][1..] == events[i + 1..];
        i := i + 1;
      }
    }

    /** netconn_recved and do_recv: the window opens in steps the 16-bit interface can take, if there is a pcb. */
    method Recved(length: nat) returns (steps: seq<nat>)
      modifies `credited
      ensures State() == Receive.Recved(old(State()), length)
      ensures Sum(steps) == (if pcb then length else 0) && forall i :: 0 <= i < |steps| ==> steps[i] <= 0xffff
    {
      steps := [];
      if pcb {
        var remaining: nat, recved: nat := length, 0;
        while true
          invariant Sum(steps) + remaining == length && credited == old(credited) + Sum(steps)
          invariant forall i :: 0 <= i < |steps| ==> steps[i] <= 0xffff
          decreases remaining
        {
          recved := if remaining > 0xffff then 0xffff else remaining;
          assert (steps + [recved])[..|steps|] == steps;
          steps, credited := steps + [recved], credited + recved;
          remaining := remaining - recved;
          if remaining == 0 {
            break;
          }
        }
      }
    }

    /** netconn_recv_tcp_pbuf into lastdata. An empty mailbox at the end of the wait is a time-out. */
    method Fetch(turn: Turn) returns (error: Option<Error>)
      modifies this
      ensures (State(), error) == Receive.Fetch(old(State()), turn) && answers == old(answers)
    {
      Happen(turn.checked);
      if lastErr.Some? {
        return lastErr;
      }
      Happen(turn.waiting);
      if mailbox == [] {
        return Some(TimedOut);
      }
      var mail := mailbox[0];
      mailbox, rcvevent := mailbox[1..], rcvevent - 1;
      if mail.Chunk? {
        lastdata, error := Some(mail.pbuf), None;
        Happen(turn.fetched);
      } else {
        Happen(turn.fetched);
        var steps := Recved(1);
        if lastErr.None? {
          lastErr := Some(Closed);
        }
        error := Some(Closed);
      }
    }

    /** Copying out of the buffer; what is left of it is kept for the next call. */
    method CopyOut(room: nat, peek: bool) returns (chunk: seq<byte>)
      requires lastdata.Some? && lastoffset <= |lastdata.value.data|
      modifies `lastdata, `lastoffset
      ensures (State(), chunk) == Copy(old(State()), room, peek)
    {
      var buflen := |lastdata.value.data| - lastoffset;
      var copylen := if room > buflen then buflen else room;
      chunk := lastdata.value.data[lastoffset..lastoffset + copylen];
      assert chunk == Left(State())[..Least(room, |Left(State())|)];
      if !peek {
        if buflen - copylen > 0 {
          lastoffset := lastoffset + copylen;
        } else {
          lastdata, lastoffset := None, 0;
        }
      }
    }

    /** lwip_recvfrom. The stream stays whole, and the window opens by what it returns. */
    method RecvFrom(call: Call) returns (count: Option<nat>, mem: seq<byte>)
      requires Valid()
      modifies this
      ensures Valid() && |answers| == |old(answers)| + 1
      ensures var (st, a) := Receive.Receive(old(State()), call);
        State() == st && answers == old(answers) + [a] && mem == a.mem && count == Count(a)
    {
      ghost var st0 := State();
      var error: Option<Error>;
      mem, error := Loop(call);
      Happen(call.last);
      if mem != [] {
        var steps := Recved(|mem|);
      }
      answers := answers + [Answer(mem, call.peek, error)];
      count := if mem != [] || error.None? || error.value.Closed? then Some(|mem|) else None;
      DoKeepsInv(History(st0, old(answers)), Read(call));
    }

    /** Its loop. */
    method Loop(call: Call) returns (mem: seq<byte>, error: Option<Error>)
      requires Valid()
      modifies this
      ensures (State(), Answer(mem, call.peek, error)) == Receive.Loop(old(State()), call, call.turns, [])
      ensures answers == old(answers)
    {
      var taken, done := 0, false;
      mem, error := [], None;
      while !done
        invariant taken <= |call.turns| && |mem| <= call.length && answers == old(answers) && Tidy(State())
        invariant if done then (State(), Answer(mem, call.peek, error)) == Receive.Loop(old(State()), call, call.turns, [])
                  else Receive.Loop(State(), call, call.turns[taken..], mem) == Receive.Loop(old(State()), call, call.turns, [])
        decreases !done, |call.turns| - taken, Buffers(State())
      {
        var turn := if taken < |call.turns| then call.turns[taken] else QUIET;
        mem, done, error := Turn(call, mem, turn);
        taken := if taken < |call.turns| then taken + 1 else taken;
      }
    }

    /** Making sure there is a buffer to copy from: the one left over or the next from the mailbox. */
    method Refill(waits: bool, turn: Turn) returns (error: Option<Error>)
      requires Tidy(State())
      modifies this
      ensures (State(), error) == Receive.Refill(old(State()), waits, turn)
      ensures Tidy(State()) && answers == old(answers)
    {
      Happen(turn.before);
      error := None;
      if lastdata.Some? {
        Happen(turn.fetched);
      } else if !waits && rcvevent <= 0 {
        error := Some(WouldBlock);
      } else {
        error := Fetch(turn);
      }
    }

    method Turn(call: Call, mem: seq<byte>, turn: Turn) returns (mem': seq<byte>, done: bool, error: Option<Error>)
      requires |mem| <= call.length && Tidy(State())
      modifies this
      ensures Turned(State(), mem', done, error) == TurnOf(old(State()), call, mem, turn)
      ensures Tidy(State()) && answers == old(answers)
    {
      error := Refill(call.waits, turn);
      mem', done := mem, true;
      if error.None? {
        var push := lastdata.value.push;
        var chunk := CopyOut(call.length - |mem|, call.peek);
        mem' := mem + chunk;
        done := |mem'| >= call.length || push || rcvevent <= 0 || call.peek;
      }
    }
  }

  function Sum(s: seq<nat>): nat {
    if s == [] then 0 else Sum(s[..|s| - 1]) + s[|s| - 1]
  }
}
