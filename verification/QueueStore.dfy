/** queue.c: the storage of a queue, a byte ring with compare-and-wrap pointers, and what a mutex keeps in the
    same fields. */
module QueueStore {
  import opened Sequences
  import opened Ticks

  datatype Position = Back | Front

  // ---- Slots and offsets ----

  /** The slot of the item `i` places behind the front, for a queue last read at slot `r`. */
  function Slot(r: nat, i: nat, length: nat): (s: nat)
    requires r < length && i <= length
    ensures s < length
  {
    var x := r + 1 + i;
    if x < length then x else if x < 2 * length then x - length else x - 2 * length
  }

  function SlotBefore(r: nat, length: nat): (s: nat)
    requires r < length
    ensures s < length
  {
    if r == 0 then length - 1 else r - 1
  }

  lemma SlotIsModulo(r: nat, i: nat, length: nat)
    requires r < length && i <= length
    ensures Slot(r, i, length) == (r + 1 + i) % length
  {
    var x := r + 1 + i;
    DivModUnique(x, length, if x < length then 0 else if x < 2 * length then 1 else 2, Slot(r, i, length));
  }

  /** No two of the items share a slot, and the slot after the last is free unless the queue is full. */
  lemma SlotsDiffer(r: nat, i: nat, j: nat, length: nat)
    requires r < length && i < j <= length
    ensures Slot(r, i, length) == Slot(r, j, length) <==> i == 0 && j == length
  {
  }

  function Offset(slot: nat, size: nat): nat {
    slot * size
  }

  lemma OffsetsApart(s: nat, s': nat, size: nat)
    requires s < s'
    ensures Offset(s, size) + size <= Offset(s', size)
  {
    assert s' * size == s * size + (s' - s) * size;
    assert (s' - s) * size == (s' - s - 1) * size + size;
  }

  /** Stepping a pointer by one item and wrapping it at the tail is stepping to the next slot. */
  lemma StepForward(s: nat, size: nat, length: nat)
    requires s < length
    ensures var off := Offset(s, size) + size;
      (if off >= Offset(length, size) then 0 else off) == Offset(Slot(s, 0, length), size)
  {
    assert Offset(s, size) + size == Offset(s + 1, size);
    if s + 1 < length {
      OffsetsApart(s + 1, length, size);
    }
  }

  /** Stepping it back, and from the head to the last item, is stepping to the slot before. */
  lemma StepBack(s: nat, size: nat, length: nat)
    requires s < length
    ensures var off := Offset(s, size) - size;
      (if off < 0 then Offset(length, size) - size else off) == Offset(SlotBefore(s, length), size)
  {
    if s > 0 {
      assert Offset(s - 1, size) + size == Offset(s, size);
    } else {
      assert Offset(length - 1, size) + size == Offset(length, size);
    }
  }

  predicate Apart(a: nat, b: nat, size: nat) {
    a + size <= b || b + size <= a
  }

  lemma SlotsApart(s: nat, s': nat, size: nat)
    requires s != s'
    ensures Apart(Offset(s, size), Offset(s', size), size)
  {
    OffsetsApart(if s < s' then s else s', if s < s' then s' else s, size);
  }

  /** The items in queue order, read out of the bytes. */
  ghost function Items(bytes: seq<byte>, r: nat, count: nat, size: nat, length: nat): (items: seq<seq<byte>>)
    requires r < length && count <= length && |bytes| == Offset(length, size) + 1
    ensures |items| == count
  {
    seq(count, i requires 0 <= i < count => ItemAt(bytes, Slot(r, i, length), size, length))
  }

  ghost function ItemAt(bytes: seq<byte>, slot: nat, size: nat, length: nat): (item: seq<byte>)
    requires slot < length && |bytes| == Offset(length, size) + 1
    ensures |item| == size
  {
    OffsetsApart(slot, length, size);
    bytes[Offset(slot, size)..Offset(slot, size) + size]
  }

  /** A write to one slot leaves the items in the others as they were. */
  lemma OtherItems(bytes: seq<byte>, bytes': seq<byte>, slot: nat, s: nat, size: nat, length: nat)
    requires slot < length && s < length && s != slot && |bytes| == |bytes'| == Offset(length, size) + 1
    requires forall i :: 0 <= i < |bytes| && !(Offset(slot, size) <= i < Offset(slot, size) + size) ==> bytes'[i] == bytes[i]
    ensures ItemAt(bytes', s, size, length) == ItemAt(bytes, s, size, length)
  {
    SlotsApart(s, slot, size);
    OffsetsApart(s, length, size);
  }

  lemma AppendedItems(bytes: seq<byte>, bytes': seq<byte>, r: nat, count: nat, item: seq<byte>, size: nat, length: nat)
    requires r < length && count < length && |bytes| == |bytes'| == Offset(length, size) + 1 && |item| == size
    requires ItemAt(bytes', Slot(r, count, length), size, length) == item
    requires var off := Offset(Slot(r, count, length), size);
      forall i :: 0 <= i < |bytes| && !(off <= i < off + size) ==> bytes'[i] == bytes[i]
    ensures Items(bytes', r, count + 1, size, length) == Items(bytes, r, count, size, length) + [item]
  {
    forall i | 0 <= i < count ensures Items(bytes', r, count + 1, size, length)[i] == Items(bytes, r, count, size, length)[i] {
      SlotsDiffer(r, i, count, length);
      OtherItems(bytes, bytes', Slot(r, count, length), Slot(r, i, length), size, length);
    }
  }

  lemma PrependedItems(bytes: seq<byte>, bytes': seq<byte>, r: nat, count: nat, item: seq<byte>, size: nat, length: nat)
    requires r < length && count < length && |bytes| == |bytes'| == Offset(length, size) + 1 && |item| == size
    requires ItemAt(bytes', r, size, length) == item
    requires forall i :: 0 <= i < |bytes| && !(Offset(r, size) <= i < Offset(r, size) + size) ==> bytes'[i] == bytes[i]
    ensures Items(bytes', SlotBefore(r, length), count + 1, size, length) == [item] + Items(bytes, r, count, size, length)
  {
    var l, r' := Items(bytes', SlotBefore(r, length), count + 1, size, length), [item] + Items(bytes, r, count, size, length);
    assert Slot(SlotBefore(r, length), 0, length) == r;
    forall i | 1 <= i < count + 1 ensures l[i] == r'[i] {
      assert Slot(SlotBefore(r, length), i, length) == Slot(r, i - 1, length) != r;
      OtherItems(bytes, bytes', r, Slot(r, i - 1, length), size, length);
    }
  }

  lemma RemainingItems(bytes: seq<byte>, r: nat, count: nat, size: nat, length: nat)
    requires r < length && 0 < count <= length && |bytes| == Offset(length, size) + 1
    ensures Items(bytes, Slot(r, 0, length), count - 1, size, length) == Items(bytes, r, count, size, length)[1..]
  {
    var l, r' := Items(bytes, Slot(r, 0, length), count - 1, size, length), Items(bytes, r, count, size, length)[1..];
    forall i | 0 <= i < count - 1 ensures l[i] == r'[i] {
      assert Slot(Slot(r, 0, length), i, length) == Slot(r, i + 1, length);
    }
  }

  // ---- The queue object ----

  const NULL := 0

  /** The data part of xQUEUE. Pointers are offsets from pcHead. A mutex has no storage (pcHead is NULL), keeps
      its holder in pcTail and the recursive call count in pcReadFrom. */
  class Queue {
    const storage: array?<byte>
    const length: nat
    const itemSize: nat
    var tail: nat            // pcTail, also pxMutexHolder
    var writeTo: nat
    var readFrom: nat        // pcReadFrom, also uxRecursiveCallCount
    var messages: nat        // uxMessagesWaiting
    ghost var readSlot: nat  // the slot pcReadFrom points to

    ghost predicate Valid()
      reads this, storage
    {
      && messages <= length
      && (storage == null ==> length == 1 && itemSize == 0)
      && (storage != null ==>
            && readSlot < length && storage.Length == Offset(length, itemSize) + 1 && tail == Offset(length, itemSize)
            && readFrom == Offset(readSlot, itemSize) && writeTo == Offset(Slot(readSlot, messages, length), itemSize))
    }

    /** The items, front first. A mutex holds tokens without bytes. */
    ghost function Contents(): (items: seq<seq<byte>>)
      requires Valid()
      reads this, storage
      ensures |items| == messages
    {
      if storage == null then seq(messages, i => []) else Items(storage[..], readSlot, messages, itemSize, length)
    }

    /** The queue structure and its storage, as xQueueCreate sets them up. */
    constructor (queueLength: nat, size: nat)
      requires 0 < queueLength
      ensures Valid() && storage != null && fresh(storage) && length == queueLength && itemSize == size && Contents() == []
    {
      storage := new byte[queueLength * size + 1];
      length, itemSize := queueLength, size;
      tail := queueLength * size;
      messages, writeTo := 0, 0;
      readFrom := (queueLength - 1) * size;
      readSlot := queueLength - 1;
    }

    /** xQueueCreateMutex, up to the send that makes it available. */
    constructor Mutex()
      ensures Valid() && storage == null && messages == 0 && tail == NULL && readFrom == 0
    {
      storage := null;
      length, itemSize := 1, 0;
      tail, writeTo, readFrom, messages := NULL, 0, 0, 0;
      readSlot := 0;
    }

    /** memcpy into the storage. */
    method CopyIn(at: nat, item: seq<byte>)
      requires storage != null && at + |item| <= storage.Length
      modifies storage
      ensures storage[at..at + |item|] == item
      ensures forall i :: 0 <= i < storage.Length && !(at <= i < at + |item|) ==> storage[i] == old(storage[i])
    {
      forall i | 0 <= i < |item| {
        storage[at + i] := item[i];
      }
    }

    /** prvCopyDataToQueue to the back of a queue with storage. */
    method CopyToBack(item: seq<byte>)
      requires Valid() && storage != null && messages < length && |item| == itemSize
      modifies `writeTo, `messages, storage
      ensures Valid() && Contents() == old(Contents()) + [item]
    {
      ghost var bytes, slot := storage[..], Slot(readSlot, messages, length);
      StepForward(slot, itemSize, length);
      OffsetsApart(slot, length, itemSize);
      if itemSize != 0 {
        CopyIn(writeTo, item);
        writeTo := writeTo + itemSize;
        if writeTo >= tail {
          writeTo := 0;
        }
      }
      messages := messages + 1;
      AppendedItems(bytes, storage[..], readSlot, old(messages), item, itemSize, length);
    }

    /** prvCopyDataToQueue to the front. */
    method CopyToFront(item: seq<byte>)
      requires Valid() && storage != null && messages < length && |item| == itemSize
      modifies `readFrom, `readSlot, `messages, storage
      ensures Valid() && Contents() == [item] + old(Contents())
    {
      ghost var bytes, slot := storage[..], readSlot;
      StepBack(slot, itemSize, length);
      OffsetsApart(slot, length, itemSize);
      if itemSize != 0 {
        CopyIn(readFrom, item);
        if readFrom < itemSize {
          readFrom := tail - itemSize;
        } else {
          readFrom := readFrom - itemSize;
        }
      }
      readSlot := SlotBefore(slot, length);
      messages := messages + 1;
      PrependedItems(bytes, storage[..], slot, old(messages), item, itemSize, length);
    }

    /** prvCopyDataToQueue. On a mutex it drops the holder, whose inherited priority is then given up, and
        leaves the recursive call count alone. */
    method CopyDataToQueue(item: seq<byte>, position: Position) returns (disinherit: nat)
      requires Valid() && messages < length && |item| == itemSize
      modifies this, storage
      ensures Valid() && Contents() == if position.Back? then old(Contents()) + [item] else [item] + old(Contents())
      ensures if storage == null then disinherit == old(tail) && tail == NULL && readFrom == old(readFrom) else disinherit == NULL
    {
      disinherit := NULL;
      if storage == null {
        disinherit := tail;
        tail := NULL;
        messages := messages + 1;
      } else {
        match position
        case Back => CopyToBack(item);
        case Front => CopyToFront(item);
      }
    }

    /** prvCopyDataFromQueue: steps the read pointer, except on a mutex, and copies what it then points to. */
    method CopyDataFromQueue() returns (item: seq<byte>)
      requires Valid() && 0 < messages
      modifies `readFrom
      ensures item == old(Contents()[0])
      ensures readFrom == if storage == null then old(readFrom) else Offset(Slot(readSlot, 0, length), itemSize)
    {
      item := [];
      if storage != null {
        StepForward(readSlot, itemSize, length);
        OffsetsApart(Slot(readSlot, 0, length), length, itemSize);
        readFrom := readFrom + itemSize;
        if readFrom >= tail {
          readFrom := 0;
        }
        item := storage[readFrom..readFrom + itemSize];
      }
    }

    /** The data part of a receive. A mutex records the task that takes it. */
    method Receive(current: nat) returns (item: seq<byte>)
      requires Valid() && 0 < messages
      modifies this
      ensures Valid() && [item] + Contents() == old(Contents())
      ensures storage == null ==> tail == current && readFrom == old(readFrom)
    {
      ghost var bytes := if storage == null then [] else storage[..];
      item := CopyDataFromQueue();
      messages := messages - 1;
      if storage == null {
        tail := current;
      } else {
        readSlot := Slot(readSlot, 0, length);
        RemainingItems(bytes, old(readSlot), old(messages), itemSize, length);
      }
    }

    /** The data part of a peek: the read pointer is put back. */
    method Peek() returns (item: seq<byte>)
      requires Valid() && 0 < messages
      modifies `readFrom
      ensures Valid() && Contents() == old(Contents()) && item == Contents()[0] && readFrom == old(readFrom)
    {
      var original := readFrom;
      item := CopyDataFromQueue();
      readFrom := original;
    }

    /** The write index is always (read index + 1 + count) mod length. */
    lemma WriteIndex()
      requires Valid() && storage != null
      ensures writeTo == Offset((readSlot + 1 + messages) % length, itemSize)
    {
      SlotIsModulo(readSlot, messages, length);
    }
  }

  /** xQueueCreate: no queue of length zero is made, nor one there is no memory for. */
  method Create(queueLength: nat, size: nat, memory: bool) returns (q: Queue?)
    ensures q == null <==> queueLength == 0 || !memory
    ensures q != null ==> fresh(q) && q.Valid() && q.storage != null && q.Contents() == []
    ensures q != null ==> q.length == queueLength && q.itemSize == size
  {
    q := null;
    if queueLength > 0 {
      if memory {
        q := new Queue(queueLength, size);
      }
    }
  }

  /** xQueueCreateCountingSemaphore: a queue of items without bytes that starts with `initial` of them. Nothing keeps
      the initial count to the maximum: what is made is a sound semaphore iff the caller does. */
  method CreateCountingSemaphore(maximum: nat, initial: nat, memory: bool) returns (q: Queue?)
    ensures q == null <==> maximum == 0 || !memory
    ensures q != null ==> fresh(q) && q.length == maximum && q.itemSize == 0 && q.messages == initial
    ensures q != null ==> (q.Valid() <==> initial <= maximum) && (q.Valid() ==> |q.Contents()| == initial)
  {
    q := Create(maximum, 0, memory);
    if q != null {
      q.messages := initial;
    }
  }
}
