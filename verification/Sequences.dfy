/** Facts about finite sequences shared by the list, scheduler, queue and timer models. */
module Sequences {

  datatype Option<+T> = None | Some(value: T)

  newtype byte = x: int | 0 <= x < 256

  ghost predicate NoDup<T>(s: seq<T>) {
    forall i, j :: 0 <= i < j < |s| ==> s[i] != s[j]
  }

  /** The position of the first occurrence of `x`. */
  function IndexOf<T(==)>(s: seq<T>, x: T): (i: nat)
    requires x in s
    ensures i < |s| && s[i] == x
    ensures x !in s[..i]
  {
    if s[0] == x then 0
    else
      var i := 1 + IndexOf(s[1..], x);
      assert s[..i] == [s[0]] + s[1..][..i - 1];
      i
  }

  /** `s` with the first occurrence of `x` unlinked. */
  function Without<T(==)>(s: seq<T>, x: T): (r: seq<T>)
    requires x in s
    ensures |r| == |s| - 1
  {
    var i := IndexOf(s, x);
    s[..i] + s[i + 1..]
  }

  function InsertAt<T>(s: seq<T>, i: nat, x: T): (r: seq<T>)
    requires i <= |s|
    ensures |r| == |s| + 1
  {
    s[..i] + [x] + s[i..]
  }

  lemma WithoutMembers<T>(s: seq<T>, x: T)
    requires x in s && NoDup(s)
    ensures NoDup(Without(s, x))
    ensures forall y :: y in Without(s, x) <==> y in s && y != x
  {
    var i := IndexOf(s, x);
    var r := Without(s, x);
    forall y | y in s && y != x ensures y in r {
      var j :| 0 <= j < |s| && s[j] == y;
      assert r[if j < i then j else j - 1] == y;
    }
    forall y | y in r ensures y in s && y != x {
      var j :| 0 <= j < |r| && r[j] == y;
      assert y == s[if j < i then j else j + 1];
    }
  }

  lemma InsertMembers<T>(s: seq<T>, i: nat, x: T)
    requires i <= |s| && x !in s && NoDup(s)
    ensures NoDup(InsertAt(s, i, x))
    ensures forall y :: y in InsertAt(s, i, x) <==> y in s || y == x
  {
    var r := InsertAt(s, i, x);
    InsertedEntries(s, i, x);
    forall y | y in s ensures y in r {
      var j :| 0 <= j < |s| && s[j] == y;
      assert r[if j < i then j else j + 1] == y;
    }
    forall a, b | 0 <= a < b < |r| ensures r[a] != r[b] {
      assert a != i ==> r[a] == s[if a < i then a else a - 1];
      assert b != i ==> r[b] == s[if b < i then b else b - 1];
    }
  }

  lemma InsertedEntries<T>(s: seq<T>, i: nat, x: T)
    requires i <= |s|
    ensures InsertAt(s, i, x)[i] == x
    ensures forall j :: 0 <= j < |s| + 1 && j != i ==> InsertAt(s, i, x)[j] == s[if j < i then j else j - 1]
  {
  }

  lemma NoDupSet<T>(s: seq<T>)
    requires NoDup(s)
    ensures |(set x | x in s)| == |s|
  {
    if s == [] {
      assert (set x | x in s) == {};
    } else {
      NoDupSet(s[1..]);
      assert (set x | x in s) == {s[0]} + (set x | x in s[1..]);
      assert s[0] !in s[1..];
    }
  }

  // ---- Item values ----

  /** The value a map gives an item, zero if none was set. */
  function Get(m: map<nat, nat>, t: nat): nat {
    if t in m then m[t] else 0
  }

  /** The item values along a list. */
  function Keys(s: seq<nat>, m: map<nat, nat>): (keys: seq<int>)
    ensures |keys| == |s|
    ensures forall i :: 0 <= i < |s| ==> keys[i] == Get(m, s[i])
  {
    seq(|s|, i requires 0 <= i < |s| => Get(m, s[i]))
  }

  function Least(a: nat, b: nat): nat {
    if a < b then a else b
  }

  // ---- Sorted insertion, as vListInsert performs it ----

  ghost predicate Ascending(vals: seq<int>) {
    forall i, j :: 0 <= i < j < |vals| ==> vals[i] <= vals[j]
  }

  /** How many leading entries the search loop of vListInsert steps over. */
  function InsertPos(vals: seq<int>, v: int): (p: nat)
    ensures p <= |vals|
    ensures forall i :: 0 <= i < p ==> vals[i] <= v
    ensures p < |vals| ==> v < vals[p]
  {
    if vals == [] || v < vals[0] then 0 else 1 + InsertPos(vals[1..], v)
  }

  /** The search position is the only split between "not after v" and "after v". */
  lemma InsertPosUnique(vals: seq<int>, v: int, p: nat)
    requires p <= |vals|
    requires forall i :: 0 <= i < p ==> vals[i] <= v
    requires p < |vals| ==> v < vals[p]
    ensures p == InsertPos(vals, v)
  {
  }

  /** Insertion keeps an ascending list ascending and puts `v` behind its equals. */
  lemma InsertKeepsAscending(vals: seq<int>, v: int)
    requires Ascending(vals)
    ensures Ascending(InsertAt(vals, InsertPos(vals, v), v))
    ensures forall i :: InsertPos(vals, v) <= i < |vals| ==> v < vals[i]
  {
    var p := InsertPos(vals, v);
    forall i | p <= i < |vals| ensures v < vals[i] {
      assert vals[p] <= vals[i];
    }
    var r := InsertAt(vals, p, v);
    forall i, j | 0 <= i < j < |r| ensures r[i] <= r[j] {
    }
  }

  lemma WithoutAscending(vals: seq<int>, k: nat)
    requires k < |vals| && Ascending(vals)
    ensures Ascending(vals[..k] + vals[k + 1..])
  {
  }

  lemma KeysOfInsert(s: seq<nat>, i: nat, t: nat, m: map<nat, nat>)
    requires i <= |s|
    ensures Keys(InsertAt(s, i, t), m) == InsertAt(Keys(s, m), i, Get(m, t))
  {
  }

  lemma KeysOfWithout(s: seq<nat>, t: nat, m: map<nat, nat>)
    requires t in s
    ensures var i := IndexOf(s, t); Keys(Without(s, t), m) == Keys(s, m)[..i] + Keys(s, m)[i + 1..]
  {
  }

  // ---- The rotation queue seen through the cursor of an intrusive list ----

  /** The items in the order the walking cursor will visit them. */
  function CursorOrder<T>(s: seq<T>, c: nat): (r: seq<T>)
    requires c <= |s|
    ensures |r| == |s|
  {
    s[c..] + s[..c]
  }

  function Rotate<T>(s: seq<T>): (r: seq<T>)
    requires s != []
  {
    s[1..] + [s[0]]
  }

  lemma RotateMembers<T>(s: seq<T>)
    requires s != [] && NoDup(s)
    ensures NoDup(Rotate(s))
    ensures forall y :: y in Rotate(s) <==> y in s
  {
    var r := Rotate(s);
    forall y | y in s ensures y in r {
      var j :| 0 <= j < |s| && s[j] == y;
      assert r[if j == 0 then |s| - 1 else j - 1] == y;
    }
  }

  lemma IndexOfUnique<T>(s: seq<T>, x: T, i: nat)
    requires i < |s| && s[i] == x && NoDup(s)
    ensures IndexOf(s, x) == i
  {
  }

  lemma CursorOrderNoDup<T>(s: seq<T>, c: nat)
    requires NoDup(s) && c <= |s|
    ensures NoDup(CursorOrder(s, c))
  {
  }

  lemma CursorOrderDrop<T>(s: seq<T>, c: nat, k: nat)
    requires c <= |s| && k < |s|
    ensures var q, i := CursorOrder(s, c), if k < c then |s| - c + k else k - c;
      q[i] == s[k] && q[..i] + q[i + 1..] == CursorOrder(s[..k] + s[k + 1..], if k < c then c - 1 else c)
  {
    if k < c {
      DropBehindCursor(s, c, k);
    } else {
      DropAheadOfCursor(s, c, k);
    }
  }

  lemma DropBehindCursor<T>(s: seq<T>, c: nat, k: nat)
    requires k < c <= |s|
    ensures var q, i := CursorOrder(s, c), |s| - c + k;
      q[i] == s[k] && q[..i] + q[i + 1..] == CursorOrder(s[..k] + s[k + 1..], c - 1)
  {
    var q, d, i := CursorOrder(s, c), s[..k] + s[k + 1..], |s| - c + k;
    assert d[c - 1..] == s[c..] && d[..c - 1] == s[..k] + s[k + 1..c];
    assert q[..i] == s[c..] + s[..k] && q[i + 1..] == s[k + 1..c];
  }

  lemma DropAheadOfCursor<T>(s: seq<T>, c: nat, k: nat)
    requires c <= k < |s|
    ensures var q, i := CursorOrder(s, c), k - c;
      q[i] == s[k] && q[..i] + q[i + 1..] == CursorOrder(s[..k] + s[k + 1..], c)
  {
    var q, d, i := CursorOrder(s, c), s[..k] + s[k + 1..], k - c;
    assert d[c..] == s[c..k] + s[k + 1..] && d[..c] == s[..c];
    assert q[..i] == s[c..k] && q[i + 1..] == s[k + 1..] + s[..c];
  }

  /** Unlinking an item takes it out of the cursor order, whichever side of the cursor it is on. */
  lemma QueueAfterRemoval<T>(s: seq<T>, c: nat, x: T)
    requires NoDup(s) && x in s && c <= |s|
    ensures var k := IndexOf(s, x);
      x in CursorOrder(s, c) && Without(CursorOrder(s, c), x) == CursorOrder(Without(s, x), if k < c then c - 1 else c)
  {
    var k := IndexOf(s, x);
    CursorOrderDrop(s, c, k);
    CursorOrderNoDup(s, c);
    IndexOfUnique(CursorOrder(s, c), x, if k < c then |s| - c + k else k - c);
  }
}
