/** list.c and list.h: circular doubly linked lists closed by a sentinel, with a walking cursor. */
module IntrusiveList {
  import opened Sequences

  /** xLIST_ITEM. `owner` stands for the object pvOwner points at. */
  class Item {
    var value: nat
    var next: Item?
    var prev: Item?
    var container: List?
    const owner: nat

    /** vListInitialiseItem: the new item is on no list. */
    constructor (owner: nat, value: nat)
      ensures container == null && this.owner == owner && this.value == value
    {
      this.owner := owner;
      this.value := value;
      next, prev, container := null, null, null;
    }
  }

  /** The item values of a chain of items. */
  ghost function Values(items: seq<Item>): (vals: seq<int>)
    reads items
    ensures |vals| == |items|
    ensures forall i :: 0 <= i < |items| ==> vals[i] == items[i].value
  {
    seq(|items|, i requires 0 <= i < |items| reads items => items[i].value)
  }

  /** Ascending item values, as vListInsert maintains them. */
  ghost predicate InOrder(items: seq<Item>)
    reads items
  {
    forall i, j :: 0 <= i < j < |items| ==> items[i].value <= items[j].value
  }

  /** Gap `p` is where a stable insertion of value `v` belongs. */
  ghost predicate IsGap(items: seq<Item>, v: nat, p: nat)
    reads items
  {
    && p <= |items|
    && (forall i :: 0 <= i < p ==> items[i].value <= v)
    && (p < |items| ==> v < items[p].value)
  }

  /** Relinking items does not disturb their order, as it leaves their values alone. */
  twostate lemma StillInOrder(items: seq<Item>)
    requires forall y :: y in items ==> y.value == old(y.value)
    ensures old(InOrder(items)) ==> InOrder(items)
  {
    if old(InOrder(items)) {
      forall i, j | 0 <= i < j < |items| ensures items[i].value <= items[j].value {
        assert items[i] in items && items[j] in items;
      }
    }
  }

  lemma InOrderAfterInsert(items: seq<Item>, x: Item, p: nat)
    requires IsGap(items, x.value, p)
    ensures InOrder(items) ==> InOrder(InsertAt(items, p, x))
  {
    assert InOrder(items) ==> forall i :: p < i < |items| ==> items[p].value <= items[i].value;
  }

  lemma InOrderAfterRemove(items: seq<Item>, x: Item)
    requires x in items
    ensures InOrder(items) ==> InOrder(Without(items, x))
  {
  }

  // ---- The ring of pointers: node 0 and node |items| + 1 are both the sentinel ----

  ghost function Node(end: Item, items: seq<Item>, i: int): Item
    requires 0 <= i <= |items| + 1
  {
    if 0 < i <= |items| then items[i - 1] else end
  }

  ghost predicate Linked(end: Item, items: seq<Item>)
    reads end, items
  {
    && NoDup(items) && end !in items
    && (forall i {:trigger Node(end, items, i).next} :: 0 <= i <= |items| ==>
          Node(end, items, i).next == Node(end, items, i + 1))
    && (forall i {:trigger Node(end, items, i).prev} :: 1 <= i <= |items| + 1 ==>
          Node(end, items, i).prev == Node(end, items, i - 1))
  }

  lemma NodeWithout(end: Item, items: seq<Item>, x: Item, i: nat)
    requires x in items && i <= |items|
    ensures Node(end, Without(items, x), i) == Node(end, items, if i <= IndexOf(items, x) then i else i + 1)
  {
  }

  lemma NodeInsert(end: Item, items: seq<Item>, p: nat, x: Item, c: nat)
    requires p <= |items| && c <= |items|
    ensures Node(end, InsertAt(items, p, x), if p < c then c + 1 else c) == Node(end, items, c)
  {
  }

  /** The pointer surgery both insertions share: `x` goes between `it` and its successor. */
  method LinkAfter(it: Item, x: Item, end: Item, ghost items: seq<Item>, ghost p: nat)
    requires Linked(end, items) && p <= |items| && it == Node(end, items, p) && x !in items && x != end
    modifies end, items, x
    ensures Linked(end, InsertAt(items, p, x))
    ensures forall y: Item :: y == end || y in items || y == x ==> y.value == old(y.value) && y.container == old(y.container)
  {
    ghost var after := InsertAt(items, p, x);
    ghost var b := Node(end, items, p + 1);
    assert it.next == b && b.prev == it;
    x.next := it.next;
    x.next.prev := x;
    x.prev := it;
    it.next := x;
    InsertMembers(items, p, x);
    forall i | 0 <= i <= |after| ensures Node(end, after, i).next == Node(end, after, i + 1) {
      if i != p && i != p + 1 {
        var j := if i < p then i else i - 1;
        assert Node(end, items, j) == Node(end, after, i) != it;
        assert old(Node(end, items, j).next) == Node(end, items, j + 1);
      }
    }
    forall i | 1 <= i <= |after| + 1 ensures Node(end, after, i).prev == Node(end, after, i - 1) {
      if i != p + 1 && i != p + 2 {
        var j := if i <= p then i else i - 1;
        assert Node(end, items, j) == Node(end, after, i) != b;
        assert old(Node(end, items, j).prev) == Node(end, items, j - 1);
      }
    }
  }

  method Unlink(x: Item, end: Item, ghost items: seq<Item>)
    requires Linked(end, items) && x in items
    modifies end, items
    ensures Linked(end, Without(items, x))
    ensures x.prev == old(x.prev) == Node(end, items, IndexOf(items, x))
    ensures forall y: Item :: y == end || y in items ==> y.value == old(y.value) && y.container == old(y.container)
  {
    ghost var k := IndexOf(items, x);
    ghost var after := Without(items, x);
    ghost var a, b := Node(end, items, k), Node(end, items, k + 2);
    assert Node(end, items, k + 1) == x;
    assert x.prev == a && x.next == b;
    x.next.prev := x.prev;
    x.prev.next := x.next;
    WithoutMembers(items, x);
    forall i | 0 <= i <= |after| ensures Node(end, after, i).next == Node(end, after, i + 1) {
      if i != k {
        var j := if i < k then i else i + 1;
        assert Node(end, items, j) == Node(end, after, i) != a;
        assert old(Node(end, items, j).next) == Node(end, items, j + 1);
      }
    }
    forall i | 1 <= i <= |after| + 1 ensures Node(end, after, i).prev == Node(end, after, i - 1) {
      if i != k + 1 {
        var j := if i <= k then i else i + 1;
        NodeWithout(end, items, x, i);
        assert Node(end, items, j) == Node(end, after, i) != b;
        assert old(Node(end, items, j).prev) == Node(end, items, j - 1);
      }
    }
  }

  /** xLIST. `items` is the chain between the two visits to the sentinel, and `cursor` says how many
      of those items lie at or before pxIndex, so that 0 means pxIndex is the sentinel. */
  class List {
    var count: nat
    var index: Item
    const end: Item
    const maxDelay: nat
    ghost var items: seq<Item>
    ghost var cursor: nat

    ghost predicate Valid()
      reads this, end, items
    {
      && Linked(end, items)
      && (forall x :: x in items ==> x.container == this && x.value <= maxDelay)
      && end.value == maxDelay
      && count == |items|
      && cursor <= |items| && index == Node(end, items, cursor)
    }

    /** The items in the order listGET_OWNER_OF_NEXT_ENTRY visits them. */
    ghost function Queue(): (q: seq<Item>)
      requires Valid()
      reads this, end, items
    {
      CursorOrder(items, cursor)
    }

    /** vListInitialise */
    constructor (maxDelay: nat)
      ensures Valid() && fresh(end) && items == [] && cursor == 0 && this.maxDelay == maxDelay
    {
      var e := new Item(0, maxDelay);
      this.maxDelay := maxDelay;
      end := e;
      index := e;
      count := 0;
      items := [];
      cursor := 0;
      new;
      end.next := end;
      end.prev := end;
    }

    /** vListInsertEnd: the new item becomes the last one the cursor will reach. */
    method InsertEnd(x: Item)
      requires Valid() && x !in items && x != end && x.value <= maxDelay
      modifies this, end, items, x
      ensures Valid()
      ensures items == InsertAt(old(items), old(cursor), x) && cursor == old(cursor) + 1
      ensures Queue() == old(Queue()) + [x]
      ensures forall y :: y in items ==> y.value == old(y.value)
    {
      LinkAfter(index, x, end, items, cursor);
      Adopt(x, cursor);
      index := x;
      cursor := cursor + 1;
    }

    /** The search loop of vListInsert: it ends at the first gap that `v` fits. */
    method FindGap(v: nat) returns (it: Item, ghost p: nat)
      requires Valid() && v <= maxDelay
      ensures p <= |items| && it == Node(end, items, p)
      ensures p == InsertPos(Values(items), v) && IsGap(items, v, p)
    {
      ghost var vals := Values(items);
      assert Node(end, items, 0).next == Node(end, items, 1);
      assert Node(end, items, |items| + 1).prev == Node(end, items, |items|);
      if v == maxDelay {
        it, p := end.prev, |items|;
      } else {
        it, p := end, 0;
        while it.next.value <= v
          invariant p <= |items| && it == Node(end, items, p) && it.next == Node(end, items, p + 1)
          invariant forall i :: 0 <= i < p ==> vals[i] <= v
          decreases |items| - p
        {
          assert Node(end, items, p + 1).next == Node(end, items, p + 2);
          it := it.next;
          p := p + 1;
        }
      }
      InsertPosUnique(vals, v, p);
    }

    /** What both insertions record once the item is linked in. */
    method Adopt(x: Item, ghost p: nat)
      requires p <= |items| && x !in items && Linked(end, InsertAt(items, p, x)) && x != end && x.value <= maxDelay
      requires forall y :: y in items ==> y.container == this && y.value <= maxDelay
      requires end.value == maxDelay && count == |items| && cursor <= |items| && index == Node(end, items, cursor)
      modifies this, x`container
      ensures Valid() && items == InsertAt(old(items), p, x)
      ensures cursor == if p < old(cursor) then old(cursor) + 1 else old(cursor)
    {
      NodeInsert(end, items, p, x, cursor);
      x.container := this;
      count := count + 1;
      cursor := if p < cursor then cursor + 1 else cursor;
      items := InsertAt(items, p, x);
    }

    /** The body of vListInsert. */
    method InsertAtGap(x: Item) returns (ghost p: nat)
      requires Valid() && x !in items && x != end && x.value <= maxDelay
      modifies this, end, items, x
      ensures Valid()
      ensures p == InsertPos(old(Values(items)), x.value) && items == InsertAt(old(items), p, x)
      ensures x.value == old(x.value) && forall y :: y in old(items) ==> y.value == old(y.value)
    {
      var it;
      it, p := FindGap(x.value);
      LinkAfter(it, x, end, items, p);
      Adopt(x, p);
    }

    /** vListInsert: a stable insertion in item-value order. */
    method Insert(x: Item) returns (ghost p: nat)
      requires Valid() && x !in items && x != end && x.value <= maxDelay
      modifies this, end, items, x
      ensures Valid()
      ensures p == InsertPos(old(Values(items)), x.value) && items == InsertAt(old(items), p, x)
      ensures old(InOrder(items)) ==> InOrder(items)
      ensures forall y :: y in items ==> y.value == old(y.value)
    {
      ghost var was := items;
      p := InsertAtGap(x);
      StillInOrder(was);
      InOrderAfterInsert(was, x, p);
    }

    /** listGET_OWNER_OF_NEXT_ENTRY: steps the cursor, over the sentinel if need be. */
    method OwnerOfNextEntry() returns (owner: nat)
      requires Valid() && items != []
      modifies this
      ensures Valid() && items == old(items)
      ensures owner == old(Queue()[0].owner)
      ensures Queue() == Rotate(old(Queue()))
    {
      assert Node(end, items, cursor).next == Node(end, items, cursor + 1);
      assert Node(end, items, 0).next == items[0];
      index := index.next;
      cursor := cursor + 1;
      if index == end {
        index := index.next;
        cursor := 1;
      }
      owner := index.owner;
    }

    method IsEmpty() returns (empty: bool)
      requires Valid()
      ensures empty <==> items == []
    {
      empty := count == 0;
    }

    /** listGET_OWNER_OF_HEAD_ENTRY and listGET_ITEM_VALUE_OF_HEAD_ENTRY: the minimum of a sorted list. */
    method Head() returns (owner: nat, value: nat)
      requires Valid() && items != []
      ensures owner == items[0].owner && value == items[0].value
      ensures InOrder(items) ==> forall y :: y in items ==> value <= y.value
    {
      assert Node(end, items, 0).next == items[0];
      owner := end.next.owner;
      value := end.next.value;
    }

    /** What removal records once the item is unlinked and pxIndex no longer names it. */
    method Release(x: Item)
      requires x in items && x != end && NoDup(items) && Linked(end, Without(items, x))
      requires forall y :: y in items ==> y.container == this && y.value <= maxDelay
      requires end.value == maxDelay && count == |items| && cursor <= |items|
      requires index == Node(end, items, if cursor == IndexOf(items, x) + 1 then cursor - 1 else cursor)
      modifies this, x`container
      ensures x.container == null && Valid()
      ensures items == Without(old(items), x) && Queue() == Without(CursorOrder(old(items), old(cursor)), x)
    {
      ghost var rest := Without(items, x);
      ghost var c := if IndexOf(items, x) < cursor then cursor - 1 else cursor;
      QueueAfterRemoval(items, cursor, x);
      WithoutMembers(items, x);
      NodeWithout(end, items, x, c);
      assert index == Node(end, rest, c) && x !in rest;
      x.container := null;
      count := count - 1;
      cursor, items := c, rest;
    }
  }

  /** The body of vListRemove. */
  method Detach(x: Item)
    requires x.container != null && x.container.Valid() && x in x.container.items
    modifies x, x.container, x.container.end, x.container.items
    ensures x.container == null
    ensures var list := old(x.container);
      list.Valid() && list.items == Without(old(list.items), x) && list.Queue() == Without(old(list.Queue()), x)
    ensures forall y :: y in old(x.container.items) ==> y.value == old(y.value)
  {
    var list := x.container;
    ghost var was, k := list.items, IndexOf(list.items, x);
    assert forall c :: 0 <= c <= |was| && Node(list.end, was, c) == x ==> c == k + 1;
    Unlink(x, list.end, list.items);
    if list.index == x {
      list.index := x.prev;
    }
    list.Release(x);
  }

  /** vListRemove: the item leaves the list its container names. */
  method Remove(x: Item)
    requires x.container != null && x.container.Valid() && x in x.container.items
    modifies x, x.container, x.container.end, x.container.items
    ensures x.container == null
    ensures var list := old(x.container);
      && list.Valid()
      && list.items == Without(old(list.items), x)
      && list.Queue() == Without(old(list.Queue()), x)
      && (old(InOrder(list.items)) ==> InOrder(list.items))
  {
    ghost var was := x.container.items;
    Detach(x);
    StillInOrder(was);
    InOrderAfterRemove(was, x);
  }
}
