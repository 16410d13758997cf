/** tasks.c and queue.c: what priority inheritance comes to when tasks hold several mutexes at once. A give drops all
    that was inherited, so a task runs at the highest priority that has blocked on its mutexes since its last give. */
module ManyMutexes {
  import opened Sequences
  import opened Containers
  import opened Tasks
  import opened TaskInvariants
  import opened TaskSteps
  import opened TaskRuns
  import opened Inheritance

  /** `recent` holds, for each task, the priorities that have blocked on its mutexes since its last give. */
  datatype Multi = Multi(s: System, recent: map<Task, seq<nat>>)

  /** As in Inheritance, but a task may take a mutex while it holds others. */
  ghost predicate MayDo(z: Multi, act: Act) {
    var k := z.s.w.k;
    match act
    case Take(m) => m !in z.s.holder && k.current in k.prio
    case _ => Inheritance.Allowed(z.s, act)
  }

  ghost function Recent(z: Multi, t: Task): seq<nat> {
    if t in z.recent then z.recent[t] else []
  }

  ghost function After(z: Multi, act: Act): Multi
    requires Inv(z.s.w) && MayDo(z, act)
  {
    var k := z.s.w.k;
    match act
    case Other(op) =>
      Multi(z.s.(w := TaskRuns.Step(z.s.w, op)), if op.CreateTask? then z.recent[op.t := []] else z.recent)
    case Take(m) => z.(s := z.s.(holder := z.s.holder[m := k.current], blocked := z.s.blocked[m := []]))
    case Wait(m) =>
      var h := z.s.holder[m];
      Multi(Inheritance.Step(z.s, act), z.recent[h := Recent(z, h) + [Get(k.prio, k.current)]])
    case Give(m) => Multi(Inheritance.Step(z.s, act), z.recent[k.current := []])
  }

  // ---- What every act keeps ----

  ghost predicate AtRecent(z: Multi, t: Task) {
    t in z.s.w.k.prio ==> t in z.s.w.k.base && z.s.w.k.prio[t] == MaxOf(z.s.w.k.base[t], Recent(z, t))
  }

  /** What blocked recently has blocked on a mutex that is still held. */
  ghost predicate StillOwed(z: Multi, t: Task) {
    forall i :: 0 <= i < |Recent(z, t)| ==> Owes(z.s, t, Recent(z, t)[i])
  }

  ghost predicate Owes(s: System, t: Task, p: nat) {
    exists m :: m in s.holder && s.holder[m] == t && p in BlockedOn(s, m)
  }

  ghost predicate Sound(z: Multi) {
    && (forall t :: AtRecent(z, t) && StillOwed(z, t))
    && (forall m :: m in z.s.holder ==> z.s.holder[m] in z.s.w.k.prio)
  }

  lemma OwedOnMore(s: System, s': System, t: Task, p: nat)
    requires Owes(s, t, p)
    requires forall m :: m in s.holder && s.holder[m] == t ==> m in s'.holder && s'.holder[m] == t && BlockedOn(s, m) <= BlockedOn(s', m)
    ensures Owes(s', t, p)
  {
    var m :| m in s.holder && s.holder[m] == t && p in BlockedOn(s, m);
    assert p in BlockedOn(s', m);
  }

  /** A task whose recent waiters and mutexes are as before. */
  lemma SameOwed(z: Multi, z': Multi, t: Task)
    requires StillOwed(z, t) && Recent(z', t) == Recent(z, t)
    requires forall m :: m in z.s.holder && z.s.holder[m] == t ==>
      m in z'.s.holder && z'.s.holder[m] == t && BlockedOn(z.s, m) <= BlockedOn(z'.s, m)
    ensures StillOwed(z', t)
  {
    forall i | 0 <= i < |Recent(z', t)| ensures Owes(z'.s, t, Recent(z', t)[i]) {
      OwedOnMore(z.s, z'.s, t, Recent(z', t)[i]);
    }
  }

  lemma NothingOwed(z: Multi, t: Task)
    requires Recent(z, t) == []
    ensures StillOwed(z, t)
  {
  }

  lemma TakeKeepsSound(z: Multi, m: Mutex) returns (z': Multi)
    requires Inv(z.s.w) && Sound(z) && MayDo(z, Take(m))
    ensures z' == After(z, Take(m)) && Inv(z'.s.w) && Sound(z')
  {
    z' := After(z, Take(m));
    forall t ensures AtRecent(z', t) && StillOwed(z', t) {
      assert AtRecent(z, t) && StillOwed(z, t);
      SameOwed(z, z', t);
    }
  }

  /** The holder of `m` may have been raised to `p`, which now waits for it. */
  lemma WaitedKeepsSound(z: Multi, z': Multi, m: Mutex, p: nat)
    requires Sound(z) && m in z.s.holder
    requires z'.s.holder == z.s.holder && z'.s.blocked == z.s.blocked[m := BlockedOn(z.s, m) + [p]]
    requires z'.recent == z.recent[z.s.holder[m] := Recent(z, z.s.holder[m]) + [p]]
    requires z'.s.w.k.base == z.s.w.k.base
    requires var h := z.s.holder[m]; z'.s.w.k.prio == z.s.w.k.prio[h := if p > z.s.w.k.prio[h] then p else z.s.w.k.prio[h]]
    ensures Sound(z')
  {
    var h := z.s.holder[m];
    var r := Recent(z, h);
    assert (r + [p])[..|r|] == r;
    forall t ensures AtRecent(z', t) && StillOwed(z', t) {
      assert AtRecent(z, t) && StillOwed(z, t);
      if t != h {
        SameOwed(z, z', t);
      } else {
        forall i | 0 <= i < |Recent(z', h)| ensures Owes(z'.s, h, Recent(z', h)[i]) {
          if i < |r| {
            OwedOnMore(z.s, z'.s, h, r[i]);
          } else {
            assert p in BlockedOn(z'.s, m);
          }
        }
      }
    }
  }

  lemma WaitKeepsSound(z: Multi, m: Mutex) returns (z': Multi)
    requires Inv(z.s.w) && Sound(z) && MayDo(z, Wait(m))
    ensures z' == After(z, Wait(m)) && Inv(z'.s.w) && Sound(z')
  {
    z' := After(z, Wait(m));
    var w' := InheritKeepsInv(z.s.w, z.s.holder[m]);
    BasesStay(z.s.w.k, z.s.holder[m]);
    WaitedKeepsSound(z, z', m, Get(z.s.w.k.prio, z.s.w.k.current));
  }

  lemma GivenKeepsSound(z: Multi, z': Multi, m: Mutex)
    requires Sound(z) && m in z.s.holder
    requires z'.s.holder == z.s.holder - {m} && z'.s.blocked == z.s.blocked && z'.recent == z.recent[z.s.holder[m] := []]
    requires z'.s.w.k.base == z.s.w.k.base && z.s.holder[m] in z.s.w.k.base
    requires z'.s.w.k.prio == z.s.w.k.prio[z.s.holder[m] := z.s.w.k.base[z.s.holder[m]]]
    ensures Sound(z')
  {
    var h := z.s.holder[m];
    forall t ensures AtRecent(z', t) && StillOwed(z', t) {
      assert AtRecent(z, t) && StillOwed(z, t);
      if t == h {
        NothingOwed(z', t);
      } else {
        SameOwed(z, z', t);
      }
    }
  }

  lemma GiveKeepsSound(z: Multi, m: Mutex) returns (z': Multi)
    requires Inv(z.s.w) && Sound(z) && MayDo(z, Give(m))
    ensures z' == After(z, Give(m)) && Inv(z'.s.w) && Sound(z')
    ensures var h := z.s.w.k.current; h in z'.s.w.k.base && h in z'.s.w.k.prio && z'.s.w.k.prio[h] == z'.s.w.k.base[h]
    ensures z'.s.w.k.base == z.s.w.k.base && z'.s.holder == z.s.holder - {m} && z'.s.blocked == z.s.blocked
  {
    assert AtRecent(z, z.s.holder[m]);
    z' := After(z, Give(m));
    var w' := DisinheritKeepsInv(z.s.w, z.s.holder[m]);
    BasesStay(z.s.w.k, z.s.holder[m]);
    GivenKeepsSound(z, z', m);
  }

  lemma CreatedKeepsSound(z: Multi, z': Multi, t: Task, p: nat)
    requires Sound(z) && z'.s == z.s.(w := z'.s.w) && t !in z.s.w.k.prio && z'.recent == z.recent[t := []]
    requires z'.s.w.k.prio == z.s.w.k.prio[t := p] && z'.s.w.k.base == z.s.w.k.base[t := p]
    ensures Sound(z')
  {
    forall u ensures AtRecent(z', u) && StillOwed(z', u) {
      assert AtRecent(z, u) && StillOwed(z, u);
      if u == t {
        NothingOwed(z', u);
      } else {
        SameOwed(z, z', u);
      }
    }
  }

  /** Steps after which the tasks have the priorities they had, but for one that is gone and held nothing. */
  lemma FewerKeepSound(z: Multi, z': Multi, gone: set<Task>)
    requires Sound(z) && z' == z.(s := z.s.(w := z'.s.w)) && forall t :: t in gone ==> !Holds(z.s, t)
    requires z'.s.w.k.prio == z.s.w.k.prio - gone && z'.s.w.k.base == z.s.w.k.base - gone
    ensures Sound(z')
  {
    forall u ensures AtRecent(z', u) && StillOwed(z', u) {
      assert AtRecent(z, u) && StillOwed(z, u);
      SameOwed(z, z', u);
    }
  }

  lemma PlainKeepsSound(z: Multi, op: TaskRuns.Op, z': Multi)
    requires Inv(z.s.w) && Sound(z) && MayDo(z, Other(op)) && !op.CreateTask? && !op.ReapTask?
    requires z' == z.(s := z.s.(w := TaskRuns.Step(z.s.w, op)))
    ensures Sound(z')
  {
    var k' := EffectKeepsPriorities(z.s.w.k, op);
    assert z'.s.w.k.prio == z.s.w.k.prio - {} && z'.s.w.k.base == z.s.w.k.base - {};
    FewerKeepSound(z, z', {});
  }

  lemma ReapedKeepsSound(z: Multi, z': Multi)
    requires Inv(z.s.w) && Sound(z) && MayDo(z, Other(ReapTask))
    requires z' == z.(s := z.s.(w := TaskRuns.Step(z.s.w, ReapTask)))
    ensures Sound(z')
  {
    FewerKeepSound(z, z', {z.s.w.k.gen.At(Terminating)[0]});
  }

  lemma NewKeepsSound(z: Multi, t: Task, priority: nat, z': Multi)
    requires Inv(z.s.w) && Sound(z) && MayDo(z, Other(CreateTask(t, priority)))
    requires z' == Multi(z.s.(w := TaskRuns.Step(z.s.w, CreateTask(t, priority))), z.recent[t := []])
    ensures Sound(z')
  {
    CreatedKeepsSound(z, z', t, Cap(z.s.w.k, priority));
  }

  lemma OtherKeepsSound(z: Multi, op: TaskRuns.Op) returns (z': Multi)
    requires Inv(z.s.w) && Sound(z) && MayDo(z, Other(op))
    ensures z' == After(z, Other(op)) && Inv(z'.s.w) && Sound(z')
  {
    z' := After(z, Other(op));
    if op.CreateTask? {
      NewKeepsSound(z, op.t, op.priority, z');
    } else if op.ReapTask? {
      ReapedKeepsSound(z, z');
    } else {
      PlainKeepsSound(z, op, z');
    }
    StepIsGood(z.s.w, op);
  }

  lemma ActKeepsSound(z: Multi, act: Act) returns (z': Multi)
    requires Inv(z.s.w) && Sound(z) && MayDo(z, act)
    ensures z' == After(z, act) && Inv(z'.s.w) && Sound(z')
  {
    match act
    case Other(op) => z' := OtherKeepsSound(z, op);
    case Take(m) => z' := TakeKeepsSound(z, m);
    case Wait(m) => z' := WaitKeepsSound(z, m);
    case Give(m) => z' := GiveKeepsSound(z, m);
  }

  // ---- Runs ----

  type GoodMulti = z: Multi | Inv(z.s.w) && Sound(z) ghost witness Unheld(InitialWorld())

  ghost function Do(z: GoodMulti, act: Act): GoodMulti
    requires MayDo(z, act)
  {
    ActIsGood(z, act);
    After(z, act)
  }

  lemma ActIsGood(z: GoodMulti, act: Act)
    requires MayDo(z, act)
    ensures Inv(After(z, act).s.w) && Sound(After(z, act))
  {
    var z' := ActKeepsSound(z, act);
  }

  ghost predicate MayRun(z: GoodMulti, acts: seq<Act>)
    decreases |acts|
  {
    acts == [] || (MayDo(z, acts[0]) && MayRun(Do(z, acts[0]), acts[1..]))
  }

  ghost function RunAll(z: GoodMulti, acts: seq<Act>): GoodMulti
    requires MayRun(z, acts)
    decreases |acts|
  {
    if acts == [] then z else RunAll(Do(z, acts[0]), acts[1..])
  }

  /** No mutex is held. */
  ghost function Unheld(w: World): (z: Multi)
    requires Inv(w) && w.k.prio == w.k.base
    ensures Inv(z.s.w) && Sound(z)
  {
    UnheldIsSound(w);
    Multi(System(w, map[], map[]), map[])
  }

  lemma UnheldIsSound(w: World)
    requires w.k.prio == w.k.base
    ensures Sound(Multi(System(w, map[], map[]), map[]))
  {
    var z := Multi(System(w, map[], map[]), map[]);
    forall t ensures AtRecent(z, t) && StillOwed(z, t) {
      NothingOwed(z, t);
    }
  }

  /** In every run, each task runs at the highest of its base priority and those that have blocked on mutexes it holds
      since it last gave one. */
  lemma PriorityIsMostRecent(w: World, acts: seq<Act>, t: Task)
    requires Inv(w) && w.k.prio == w.k.base && MayRun(Unheld(w), acts) && t in RunAll(Unheld(w), acts).s.w.k.prio
    ensures var z := RunAll(Unheld(w), acts);
      && t in z.s.w.k.base && z.s.w.k.prio[t] == MaxOf(z.s.w.k.base[t], Recent(z, t))
      && forall i :: 0 <= i < |Recent(z, t)| ==> Owes(z.s, t, Recent(z, t)[i])
  {
    var z := RunAll(Unheld(w), acts);
    assert AtRecent(z, t) && StillOwed(z, t);
  }

  /** The priority inheritance promises: the highest of its own and of all that have blocked on any mutex it holds. */
  ghost predicate RunsAsPromised(s: System, t: Task)
    requires t in s.w.k.prio && t in s.w.k.base
  {
    && s.w.k.base[t] <= s.w.k.prio[t]
    && (forall m, p :: m in s.holder && s.holder[m] == t && p in BlockedOn(s, m) ==> p <= s.w.k.prio[t])
    && (s.w.k.prio[t] == s.w.k.base[t] || Owes(s, t, s.w.k.prio[t]))
  }

  /** In every run a give leaves the task at the priority inheritance promises iff nobody above its base priority has
      blocked on a mutex it still holds. */
  lemma GiveIsRightIff(w: World, acts: seq<Act>, m: Mutex)
    requires Inv(w) && w.k.prio == w.k.base && MayRun(Unheld(w), acts) && MayDo(RunAll(Unheld(w), acts), Give(m))
    ensures var h := RunAll(Unheld(w), acts).s.w.k.current;
      var s := Do(RunAll(Unheld(w), acts), Give(m)).s;
      && h in s.w.k.prio && h in s.w.k.base
      && (RunsAsPromised(s, h) <==> forall m', p :: m' in s.holder && s.holder[m'] == h && p in BlockedOn(s, m') ==> p <= s.w.k.base[h])
  {
    var z := RunAll(Unheld(w), acts);
    var z' := GiveKeepsSound(z, m);
  }
}
