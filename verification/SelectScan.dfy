/** sockets.c: lwip_selscan, the scan that lwip_select runs before and after it puts itself on the list. */
module SelectScan {
  import opened Sequences
  import opened Select

  /** The status a scan sees for index `i`: nothing for an index without an open socket. */
  function Status(sockets: seq<Option<Socket>>, i: nat): Socket {
    if i < |sockets| && sockets[i].Some? then sockets[i].value else Socket(0, false, false, false, 0)
  }

  ghost function Readable(sockets: seq<Option<Socket>>, n: nat, from: set<nat>): set<nat> {
    set i | i in from && i < n && (Status(sockets, i).lastdata || Status(sockets, i).rcvevent > 0)
  }

  ghost function Writable(sockets: seq<Option<Socket>>, n: nat, from: set<nat>): set<nat> {
    set i | i in from && i < n && Status(sockets, i).sendevent
  }

  ghost function InError(sockets: seq<Option<Socket>>, n: nat, from: set<nat>): set<nat> {
    set i | i in from && i < n && Status(sockets, i).errevent
  }

  /** One more index adds itself to each set, if it is asked about and ready, and it was in none before. */
  lemma OneMore(sockets: seq<Option<Socket>>, i: nat, r: set<nat>, w: set<nat>, e: set<nat>)
    ensures i !in Readable(sockets, i, r) && i !in Writable(sockets, i, w) && i !in InError(sockets, i, e)
    ensures Readable(sockets, i + 1, r) == Readable(sockets, i, r) + Only(i, i in r && (Status(sockets, i).lastdata || Status(sockets, i).rcvevent > 0))
    ensures Writable(sockets, i + 1, w) == Writable(sockets, i, w) + Only(i, i in w && Status(sockets, i).sendevent)
    ensures InError(sockets, i + 1, e) == InError(sockets, i, e) + Only(i, i in e && Status(sockets, i).errevent)
  {
  }

  function Only(i: nat, b: bool): set<nat> {
    if b then {i} else {}
  }

  lemma AddedOne(a: set<nat>, i: nat, b: bool)
    requires i !in a
    ensures |a + Only(i, b)| == |a| + (if b then 1 else 0)
    ensures a + {} == a
  {
  }

  /** lwip_selscan: exactly the sockets asked about that are ready, and how many they are in the three sets together. */
  method SelScan(maxfdp1: nat, forRead: set<nat>, forWrite: set<nat>, forError: set<nat>, sockets: seq<Option<Socket>>)
    returns (nready: nat, read: set<nat>, write: set<nat>, error: set<nat>)
    ensures read == Readable(sockets, maxfdp1, forRead)
    ensures write == Writable(sockets, maxfdp1, forWrite)
    ensures error == InError(sockets, maxfdp1, forError)
    ensures nready == |read| + |write| + |error|
  {
    nready, read, write, error := 0, {}, {}, {};
    for i := 0 to maxfdp1
      invariant read == Readable(sockets, i, forRead)
      invariant write == Writable(sockets, i, forWrite)
      invariant error == InError(sockets, i, forError)
      invariant nready == |read| + |write| + |error|
    {
      var k := Status(sockets, i);
      OneMore(sockets, i, forRead, forWrite, forError);
      AddedOne(read, i, i in forRead && (k.lastdata || k.rcvevent > 0));
      AddedOne(write, i, i in forWrite && k.sendevent);
      AddedOne(error, i, i in forError && k.errevent);
      if i in forRead && (k.lastdata || k.rcvevent > 0) {
        read, nready := read + {i}, nready + 1;
      }
      if i in forWrite && k.sendevent {
        write, nready := write + {i}, nready + 1;
      }
      if i in forError && k.errevent {
        error, nready := error + {i}, nready + 1;
      }
    }
  }

  /** A scan for a selector comes out empty iff none of the sockets it watches is ready for it. */
  lemma EmptyScanIff(sockets: seq<Option<Socket>>, n: nat, q: Selector)
    ensures |Readable(sockets, n, q.forRead)| + |Writable(sockets, n, q.forWrite)| + |InError(sockets, n, q.forError)| == 0
      <==> forall i :: 0 <= i < n ==> !ScanReady(Status(sockets, i), i, q)
  {
    var r, w, e := Readable(sockets, n, q.forRead), Writable(sockets, n, q.forWrite), InError(sockets, n, q.forError);
    if |r| + |w| + |e| == 0 {
      forall i | 0 <= i < n ensures !ScanReady(Status(sockets, i), i, q) {
        assert i !in r && i !in w && i !in e;
      }
    } else {
      var i: nat :| i in r + w + e;
      assert ScanReady(Status(sockets, i), i, q);
    }
  }
}
