/** queue.c and tasks.c: who holds each mutex and who has blocked on it, told over whole runs by the acts alone. What
    Inheritance and ManyMutexes say of priorities is said of these. */
module MutexHistory {
  import opened Sequences
  import opened Tasks
  import opened TaskInvariants
  import TaskRuns
  import opened Inheritance
  import M = ManyMutexes

  /** The holder of a mutex, and the priorities that have blocked on it since it was last taken. */
  datatype Record = Record(holder: Option<nat>, waiters: seq<nat>)

  ghost function RecordOf(s: System, m: Mutex): Record {
    Record(if m in s.holder then Some(s.holder[m]) else None, BlockedOn(s, m))
  }

  /** A take by the running task `t` begins a new record, a give ends it, and a task that is to wait adds its priority. */
  function Recorded(r: Record, act: Act, m: Mutex, t: nat, priority: nat): Record {
    match act
    case Other(_) => r
    case Take(m') => if m' == m then Record(Some(t), []) else r
    case Wait(m') => if m' == m then r.(waiters := r.waiters + [priority]) else r
    case Give(m') => if m' == m then r.(holder := None) else r
  }

  lemma StepIsRecorded(s: System, act: Act, m: Mutex)
    requires Inv(s.w) && Allowed(s, act)
    ensures RecordOf(Step(s, act), m) == Recorded(RecordOf(s, m), act, m, s.w.k.current, Get(s.w.k.prio, s.w.k.current))
  {
  }

  ghost function RecordIn(s: System, acts: seq<Act>, m: Mutex, r: Record): Record
    requires Inv(s.w) && Exact(s) && CanRun(s, acts)
    decreases |acts|
  {
    if acts == [] then r
    else
      StepKeepsExact(s, acts[0]);
      RecordIn(Step(s, acts[0]), acts[1..], m, Recorded(r, acts[0], m, s.w.k.current, Get(s.w.k.prio, s.w.k.current)))
  }

  /** In every run a mutex is held by the task that took it last, unless it has been given since, and has been waited
      for at exactly the priorities of the tasks that came to wait since. */
  lemma {:induction false} RunIsRecorded(s: System, acts: seq<Act>, m: Mutex)
    requires Inv(s.w) && Exact(s) && CanRun(s, acts)
    ensures RecordOf(Run(s, acts), m) == RecordIn(s, acts, m, RecordOf(s, m))
    decreases |acts|
  {
    if acts != [] {
      StepKeepsExact(s, acts[0]);
      StepIsRecorded(s, acts[0], m);
      RunIsRecorded(Step(s, acts[0]), acts[1..], m);
    }
  }

  // ---- With several mutexes per task ----

  lemma ActIsRecorded(z: M.Multi, act: Act, m: Mutex)
    requires Inv(z.s.w) && M.MayDo(z, act)
    ensures RecordOf(M.After(z, act).s, m) == Recorded(RecordOf(z.s, m), act, m, z.s.w.k.current, Get(z.s.w.k.prio, z.s.w.k.current))
  {
  }

  /** What has blocked on a task's mutexes since its last give. */
  ghost function Urged(recent: seq<nat>, z: M.Multi, act: Act, t: nat): seq<nat> {
    match act
    case Other(op) => if op.CreateTask? && op.t == t then [] else recent
    case Take(_) => recent
    case Wait(m) => if m in z.s.holder && z.s.holder[m] == t then recent + [Get(z.s.w.k.prio, z.s.w.k.current)] else recent
    case Give(_) => if z.s.w.k.current == t then [] else recent
  }

  lemma ActUrges(z: M.Multi, act: Act, t: nat)
    requires Inv(z.s.w) && M.MayDo(z, act)
    ensures M.Recent(M.After(z, act), t) == Urged(M.Recent(z, t), z, act, t)
  {
  }

  ghost function RecordAll(z: M.GoodMulti, acts: seq<Act>, m: Mutex, r: Record): Record
    requires M.MayRun(z, acts)
    decreases |acts|
  {
    if acts == [] then r
    else RecordAll(M.Do(z, acts[0]), acts[1..], m, Recorded(r, acts[0], m, z.s.w.k.current, Get(z.s.w.k.prio, z.s.w.k.current)))
  }

  ghost function UrgedAll(z: M.GoodMulti, acts: seq<Act>, t: nat, recent: seq<nat>): seq<nat>
    requires M.MayRun(z, acts)
    decreases |acts|
  {
    if acts == [] then recent else UrgedAll(M.Do(z, acts[0]), acts[1..], t, Urged(recent, z, acts[0], t))
  }

  /** The same with several mutexes per task, and what counts as recent for a task is what came to wait for its mutexes
      since it last gave one. */
  lemma {:induction false} AllIsRecorded(z: M.GoodMulti, acts: seq<Act>, m: Mutex, t: nat)
    requires M.MayRun(z, acts)
    ensures RecordOf(M.RunAll(z, acts).s, m) == RecordAll(z, acts, m, RecordOf(z.s, m))
    ensures M.Recent(M.RunAll(z, acts), t) == UrgedAll(z, acts, t, M.Recent(z, t))
    decreases |acts|
  {
    if acts != [] {
      ActIsRecorded(z, acts[0], m);
      ActUrges(z, acts[0], t);
      AllIsRecorded(M.Do(z, acts[0]), acts[1..], m, t);
    }
  }
}
