/** A family of lists together with the container pointer of every item on them.
    The lists are values here; IntrusiveList shows that the linked lists behave this way. */
module Containers {
  import opened Sequences

  type Task = nat

  datatype Lists<!L(==)> = Lists(seqs: map<L, seq<Task>>, where: map<Task, L>) {
    function At(l: L): seq<Task> {
      if l in seqs then seqs[l] else []
    }
  }

  /** Each item is on the one list its container names, once, and on no other. */
  ghost predicate Consistent<L(!new)>(m: Lists<L>) {
    && (forall l :: NoDup(m.At(l)))
    && (forall t, l :: t in m.At(l) <==> t in m.where && m.where[t] == l)
  }

  /** vListRemove, skipped for an item that is on no list. */
  function Unlink<L(==)>(m: Lists<L>, t: Task): Lists<L> {
    if t in m.where && t in m.At(m.where[t]) then
      Lists(m.seqs[m.where[t] := Without(m.At(m.where[t]), t)], m.where - {t})
    else
      m
  }

  /** An insertion at position `i` of list `l`. */
  function Put<L(==)>(m: Lists<L>, l: L, i: nat, t: Task): Lists<L>
    requires i <= |m.At(l)|
  {
    Lists(m.seqs[l := InsertAt(m.At(l), i, t)], m.where[t := l])
  }

  /** vListInsertEnd on a list whose cursor is its last item, or on a ready list in cursor order. */
  function PutEnd<L(==)>(m: Lists<L>, l: L, t: Task): Lists<L> {
    Put(m, l, |m.At(l)|, t)
  }

  lemma UnlinkIsConsistent<L(!new)>(m: Lists<L>, t: Task)
    requires Consistent(m)
    ensures Consistent(Unlink(m, t))
    ensures Unlink(m, t).where == m.where - {t}
    ensures forall l :: Unlink(m, t).At(l) == if t in m.At(l) then Without(m.At(l), t) else m.At(l)
  {
    if t in m.where {
      var l := m.where[t];
      assert t in m.At(l);
      WithoutMembers(m.At(l), t);
      var m' := Unlink(m, t);
      assert forall l' :: m'.At(l') == if l' == l then Without(m.At(l), t) else m.At(l');
      forall u, l' ensures u in m'.At(l') <==> u in m'.where && m'.where[u] == l' {
        assert u in m.At(l') <==> u in m.where && m.where[u] == l';
      }
    } else {
      assert m.where - {t} == m.where;
    }
  }

  lemma PutIsConsistent<L(!new)>(m: Lists<L>, l: L, i: nat, t: Task)
    requires Consistent(m) && t !in m.where && i <= |m.At(l)|
    ensures Consistent(Put(m, l, i, t))
    ensures forall l' :: l' != l ==> Put(m, l, i, t).At(l') == m.At(l')
    ensures Put(m, l, i, t).At(l) == InsertAt(m.At(l), i, t)
  {
    InsertMembers(m.At(l), i, t);
    assert forall l' :: l' != l ==> Put(m, l, i, t).At(l') == m.At(l');
  }
}
