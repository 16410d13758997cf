/** sockets.c as it runs: the socket table and the list of selecting threads, updated in place. Each protected section
    is a method proved against the step of Select that specifies it. */
module SocketLayer {
  import opened Sequences
  import opened Select
  import opened SelectEvents

  class Sockets {
    var sockets: seq<Socket>
    var list: seq<Thread>                  // select_cb_list
    var changes: nat                       // select_cb_ctr
    var selectors: map<Thread, Selector>
    ghost var walkers: map<Walk, Walker>   // the event_callbacks between two sections

    ghost function State(): Select.State
      reads this
    {
      Select.State(sockets, list, changes, selectors, walkers)
    }

    /** Every selector's sets and counts are in step with the list and the sockets, and whoever scanned a socket in
        vain that is ready now has been told or will be by a callback under way. */
    ghost predicate Valid()
      reads this
    {
      Inv(State())
    }

    /** Every callback that is between two sections will start over. */
    ghost predicate AllStartOver()
      reads this
    {
      forall w :: w in walkers ==> walkers[w].changes != changes
    }

    /** With no callback under way, every sleeper that an event on socket `s` is for has been signalled. */
    ghost predicate NobodyMissed(s: nat)
      reads this
    {
      walkers == map[] && s < |sockets| ==>
        forall t :: t in selectors && selectors[t].phase.Asleep? && Ready(sockets[s], s, selectors[t]) ==> selectors[t].signalled
    }

    /** lwip_select puts itself at the head of the list. */
    method Enlist(t: Thread, forRead: set<nat>, forWrite: set<nat>, forError: set<nat>)
      requires Valid() && Allowed(State(), Op.Enlist(t, forRead, forWrite, forError))
      modifies `list, `changes, `selectors
      ensures State() == Step(old(State()), Op.Enlist(t, forRead, forWrite, forError))
      ensures Valid() && AllStartOver() && t in selectors && !selectors[t].signalled
      ensures WishOf(selectors[t]) == Wish(forRead, forWrite, forError) && list == [t] + old(list)
    {
      Select.StepKeepsInv(State(), Op.Enlist(t, forRead, forWrite, forError));
      selectors := selectors[t := Selector(forRead, forWrite, forError, false, Counting, {}, {}, false)];
      list := [t] + list;
      changes := changes + 1;
    }

    /** It counts itself on a socket, */
    method Count(t: Thread, s: nat)
      requires Valid() && Allowed(State(), Op.Count(t, s))
      modifies `sockets, `selectors
      ensures State() == Step(old(State()), Op.Count(t, s))
      ensures Valid() && t in Counters(State(), s) && sockets[s].waiting == old(sockets)[s].waiting + 1 == |Counters(State(), s)|
    {
      Select.StepKeepsInv(State(), Op.Count(t, s));
      selectors := selectors[t := selectors[t].(counted := selectors[t].counted + {s})];
      sockets := sockets[s := sockets[s].(waiting := sockets[s].waiting + 1)];
    }

    /** and off it again, */
    method Uncount(t: Thread, s: nat)
      requires Valid() && Allowed(State(), Op.Uncount(t, s))
      modifies `sockets, `selectors
      ensures State() == Step(old(State()), Op.Uncount(t, s))
      ensures Valid() && t !in Counters(State(), s) && sockets[s].waiting == old(sockets)[s].waiting - 1 == |Counters(State(), s)|
    {
      Select.StepKeepsInv(State(), Op.Uncount(t, s));
      selectors := selectors[t := selectors[t].(counted := selectors[t].counted - {s})];
      sockets := sockets[s := sockets[s].(waiting := sockets[s].waiting - 1)];
    }

    /** and takes itself off the list. */
    method Delist(t: Thread)
      requires Valid() && Allowed(State(), Op.Delist(t))
      modifies `list, `changes, `selectors
      ensures State() == Step(old(State()), Op.Delist(t))
      ensures Valid() && AllStartOver() && t !in selectors
    {
      Select.StepKeepsInv(State(), Op.Delist(t));
      list := Without(list, t);
      selectors := selectors - {t};
      changes := changes + 1;
    }

    /** The body of the loop of event_callback, for one list entry. */
    method Visit(s: nat, t: Thread)
      requires s < |sockets|
      modifies `selectors
      ensures State() == Select.Visit(old(State()), s, t)
    {
      if t in selectors && !selectors[t].signalled {
        var q, k := selectors[t], sockets[s];
        var doSignal := k.rcvevent > 0 && s in q.forRead;
        if k.sendevent && !doSignal && s in q.forWrite {
          doSignal := true;
        }
        if k.errevent && !doSignal && s in q.forError {
          doSignal := true;
        }
        if doSignal {
          selectors := selectors[t := q.(signalled := true)];
        }
      }
    }

    /** event_callback up to where it first lets others in: the event is set on its socket and on no other. `walking` is
        whether it goes on. */
    method Notify(w: Walk, s: nat, e: Event) returns (walking: bool)
      requires Valid() && Allowed(State(), Op.Notify(w, s, e))
      modifies `sockets, `selectors, `walkers
      ensures State() == Step(old(State()), Op.Notify(w, s, e)) && (walking <==> w in walkers)
      ensures Valid() && NobodyMissed(s)
      ensures s < |sockets| == |old(sockets)| && EventIsSet(old(sockets)[s], sockets[s], e)
      ensures forall i :: 0 <= i < |sockets| && i != s ==> sockets[i] == old(sockets)[i]
    {
      Select.StepKeepsInv(State(), Op.Notify(w, s, e));
      SleepersAreTold(Step(State(), Op.Notify(w, s, e)), s);
      sockets := sockets[s := SetEvent(sockets[s], e)];
      walking := sockets[s].waiting != 0 && list != [];
      if walking {
        Visit(s, list[0]);
        walkers := walkers[w := Walker(s, 1, changes)];
      } else {
        assert walkers - {w} == walkers;
      }
    }

    /** The next stretch of the loop, for a callback that has visited `visited` entries of the list as of `changed`. */
    method Proceed(w: Walk, s: nat, visited: nat, changed: nat) returns (walking: bool)
      requires Valid() && w in walkers && walkers[w] == Walker(s, visited, changed) && s < |sockets|
      modifies `selectors, `walkers
      ensures State() == Step(old(State()), Op.Proceed(w)) && (walking <==> w in walkers)
      ensures Valid() && NobodyMissed(s)
    {
      Select.StepKeepsInv(State(), Op.Proceed(w));
      SleepersAreTold(Step(State(), Op.Proceed(w)), s);
      var i := if changed == changes then visited else 0;
      walking := i < |list|;
      if walking {
        Visit(s, list[i]);
        walkers := walkers[w := Walker(s, i + 1, changes)];
      } else {
        walkers := walkers - {w};
      }
    }

    /** A whole event_callback that nobody interrupts: the event is set on its socket and on no other, and exactly the
        listed selectors it is for are signalled. */
    method EventCallback(s: nat, e: Event)
      requires s < |sockets| && NoDup(list) && forall t :: t in list ==> t in selectors
      modifies `sockets, `selectors
      ensures sockets == old(sockets)[s := SetEvent(old(sockets[s]), e)] && selectors.Keys == old(selectors).Keys
      ensures EventIsSet(old(sockets)[s], sockets[s], e)
      ensures forall t :: t in selectors ==>
        selectors[t] == old(selectors)[t].(signalled := old(selectors)[t].signalled ||
          (sockets[s].waiting != 0 && t in list && Ready(sockets[s], s, old(selectors)[t])))
    {
      sockets := sockets[s := SetEvent(sockets[s], e)];
      if sockets[s].waiting == 0 {
        return;
      }
      for i := 0 to |list|
        invariant sockets == old(sockets)[s := SetEvent(old(sockets[s]), e)] && selectors.Keys == old(selectors).Keys
        invariant forall t :: t in selectors ==>
          selectors[t] == old(selectors)[t].(signalled := old(selectors)[t].signalled ||
            (t in list[..i] && Ready(sockets[s], s, old(selectors)[t])))
      {
        assert list[..i + 1] == list[..i] + [list[i]];
        Visit(s, list[i]);
      }
      assert list[..|list|] == list;
    }
  }

  lemma SleepersAreTold(st: Select.State, s: nat)
    requires Inv(st) && s < |st.sockets|
    ensures st.walkers == map[] ==> forall t :: t in st.selectors && st.selectors[t].phase.Asleep? && Ready(st.sockets[s], s, st.selectors[t]) ==> st.selectors[t].signalled
  {
    forall t | st.walkers == map[] && t in st.selectors && st.selectors[t].phase.Asleep? && Ready(st.sockets[s], s, st.selectors[t])
      ensures st.selectors[t].signalled
    {
      assert Sound(st, t) && s in st.selectors[t].scanned && Told(st, t, s);
    }
  }
}
