/** The storage of a queue, from queue.c: `length` slots of `itemSize` bytes used as a
    ring, with one pointer to the slot that is written next and one to the slot that
    was read last.  Pointers are byte offsets from pcHead here.

    The class is proved to be a bounded sequence of items for every length and item
    size, without ever leaving its storage. */
module QueueRing {

  type Byte = b: int | 0 <= b < 256 witness 0
  type Item = seq<Byte>

  // ---------------------------------------------------------------- slots

  /** Where slot `i` begins. */
  function Offset(i: nat, z: nat): (r: nat)
    ensures i == 0 ==> r == 0
  {
    i * z
  }

  lemma Offsets(i: nat, j: nat, z: nat)
    ensures Offset(i + 1, z) == Offset(i, z) + z
    ensures i < j ==> Offset(i, z) + z <= Offset(j, z)
    ensures i <= j ==> Offset(i, z) <= Offset(j, z)
    ensures z > 0 && Offset(i, z) >= Offset(j, z) ==> i >= j
  {
  }

  /** The bytes of slot `i`; nothing if the queue keeps no data. */
  function Slot(b: seq<Byte>, z: nat, i: nat): Item {
    if Offset(i, z) + z <= |b| then b[Offset(i, z)..Offset(i, z) + z] else []
  }

  /** The slot behind, and the slot in front of, slot `i`. */
  function Next(i: nat, n: nat): nat {
    if i + 1 >= n then 0 else i + 1
  }

  function Prev(i: nat, n: nat): nat
    requires n > 0
  {
    if i == 0 then n - 1 else i - 1
  }

  /** The slot `k` places behind slot `i`. */
  function Behind(i: nat, k: nat, n: nat): nat
    requires n > 0
  {
    if i + k >= n then (if i + k >= 2 * n then 0 else i + k - n) else i + k
  }

  /** What `count` slots from slot `first` on hold. */
  function Items(b: seq<Byte>, z: nat, n: nat, first: nat, count: nat): (r: seq<Item>)
    requires n > 0
    ensures |r| == count && forall k | 0 <= k < count :: r[k] == Slot(b, z, Behind(first, k, n))
  {
    seq(count, k requires 0 <= k < count => Slot(b, z, Behind(first, k, n)))
  }

  /** `b'` is `b` with an item in slot `i`. */
  ghost predicate Stored(b: seq<Byte>, b': seq<Byte>, z: nat, n: nat, i: nat, x: Item) {
    && |b'| == |b|
    && forall j | 0 <= j < n :: Slot(b', z, j) == if j == i then x else Slot(b, z, j)
  }

  /** Storing behind the last item adds it at the back. */
  lemma ToBack(b: seq<Byte>, b': seq<Byte>, z: nat, n: nat, first: nat, count: nat, x: Item)
    requires first < n && count < n && Stored(b, b', z, n, Behind(first, count, n), x)
    ensures Items(b', z, n, first, count + 1) == Items(b, z, n, first, count) + [x]
    ensures Next(Behind(first, count, n), n) == Behind(first, count + 1, n)
  {
    hide Slot;
    forall k | 0 <= k < count + 1
      ensures Slot(b', z, Behind(first, k, n)) == (Items(b, z, n, first, count) + [x])[k]
    {
      assert k < count ==> Behind(first, k, n) != Behind(first, count, n);
    }
  }

  /** Storing in front of the first adds it at the front. */
  lemma ToFront(b: seq<Byte>, b': seq<Byte>, z: nat, n: nat, first: nat, count: nat, x: Item)
    requires first < n && count < n && Stored(b, b', z, n, Prev(first, n), x)
    ensures Items(b', z, n, Prev(first, n), count + 1) == [x] + Items(b, z, n, first, count)
    ensures Behind(Prev(first, n), count + 1, n) == Behind(first, count, n)
  {
    hide Slot;
    forall k | 0 <= k < count + 1
      ensures Slot(b', z, Behind(Prev(first, n), k, n)) == ([x] + Items(b, z, n, first, count))[k]
    {
      if k > 0 {
        assert Behind(Prev(first, n), k, n) == Behind(first, k - 1, n) != Prev(first, n);
      }
    }
  }

  /** Moving on by one slot leaves out the first item. */
  lemma Taken(b: seq<Byte>, z: nat, n: nat, first: nat, count: nat)
    requires first < n && 0 < count <= n
    ensures Items(b, z, n, Next(first, n), count - 1) == Items(b, z, n, first, count)[1..]
    ensures Slot(b, z, first) == Items(b, z, n, first, count)[0]
    ensures Behind(Next(first, n), count - 1, n) == Behind(first, count, n)
  {
    hide Slot;
    forall k | 0 <= k < count - 1
      ensures Behind(Next(first, n), k, n) == Behind(first, k + 1, n)
    {
    }
  }

  /** Writing the bytes of one slot leaves the others alone. */
  lemma SlotWritten(b: seq<Byte>, b': seq<Byte>, z: nat, n: nat, i: nat, x: Item)
    requires |b'| == |b| == Offset(n, z) && i < n && |x| == z
    requires Offset(i, z) + z <= |b|
    requires forall p | 0 <= p < |b| :: b'[p] == if Offset(i, z) <= p < Offset(i, z) + z then x[p - Offset(i, z)] else b[p]
    ensures Stored(b, b', z, n, i, x)
  {
    hide Offset;
    forall j | 0 <= j < n
      ensures Slot(b', z, j) == if j == i then x else Slot(b, z, j)
    {
      Offsets(i, j, z);
      Offsets(j, i, z);
      Offsets(j, n, z);
    }
  }

  // ---------------------------------------------------------------- the queue

  datatype Position = ToTheBack | ToTheFront | Overwriting

  class Queue {
    const storage: array<Byte>
    const length: nat
    const itemSize: nat
    var messagesWaiting: nat
    /** pcWriteTo and pcReadFrom */
    var writeTo: int
    var readFrom: int
    /** The slots they point to, when there is storage. */
    ghost var writeSlot: nat
    ghost var readSlot: nat

    ghost predicate Valid()
      reads this
    {
      && length > 0 && storage.Length == Offset(length, itemSize) && messagesWaiting <= length
      && readSlot < length && writeSlot == Behind(Next(readSlot, length), messagesWaiting, length)
      && (itemSize > 0 ==> writeTo == Offset(writeSlot, itemSize) && readFrom == Offset(readSlot, itemSize))
    }

    /** The items in the queue, the next to be received first. */
    ghost function Contents(): (r: seq<Item>)
      requires Valid()
      reads this, storage
      ensures |r| == messagesWaiting
    {
      Items(storage[..], itemSize, length, Next(readSlot, length), messagesWaiting)
    }

    constructor (length: nat, itemSize: nat)
      requires length > 0
      ensures Valid() && Contents() == [] && this.length == length && this.itemSize == itemSize && fresh(storage)
    {
      this.length, this.itemSize := length, itemSize;
      storage := new Byte[Offset(length, itemSize)](_ => 0);
      messagesWaiting, writeTo, readFrom := 0, 0, Offset(length - 1, itemSize);
      writeSlot, readSlot := 0, length - 1;
    }

    /** xQueueGenericReset */
    method Reset()
      requires Valid()
      modifies this
      ensures Valid() && Contents() == []
    {
      messagesWaiting := 0;
      writeTo := 0;
      readFrom := (length - 1) * itemSize;
      writeSlot, readSlot := 0, length - 1;
    }

    /** memcpy of an item into the slot at an offset */
    method CopyIn(item: Item, at: nat, ghost slot: nat)
      requires Valid() && slot < length && at == Offset(slot, itemSize) && |item| == itemSize
      modifies storage
      ensures Stored(old(storage[..]), storage[..], itemSize, length, slot, item)
    {
      Offsets(slot, length, itemSize);
      hide Offset;
      var k := 0;
      while k < itemSize
        invariant k <= itemSize
        invariant forall p | 0 <= p < storage.Length ::
                    storage[p] == if at <= p < at + k then item[p - at] else old(storage[p])
      {
        storage[at + k] := item[k];
        k := k + 1;
      }
      SlotWritten(old(storage[..]), storage[..], itemSize, length, slot, item);
    }

    /** What the code asks for before it copies an item in. */
    predicate MaySend(position: Position)
      reads this
    {
      (position == Overwriting ==> length == 1) && (messagesWaiting < length || position == Overwriting)
    }

    /** Its branch for the back of the queue, and the one for the front. */
    method CopyToBack(item: Item)
      requires Valid() && |item| == itemSize > 0 && messagesWaiting < length
      modifies this, storage
      ensures Valid() && Contents() == old(Contents()) + [item] && messagesWaiting == old(messagesWaiting) + 1
    {
      ghost var first, b := Next(readSlot, length), storage[..];
      CopyIn(item, writeTo, writeSlot);
      ToBack(b, storage[..], itemSize, length, first, messagesWaiting, item);
      Offsets(writeSlot, length, itemSize);
      Offsets(writeSlot + 1, length, itemSize);
      Offsets(length, writeSlot + 1, itemSize);
      hide Offset, Items;
      writeTo := writeTo + itemSize;
      if writeTo >= storage.Length {
        writeTo := 0;
      }
      writeSlot := Next(writeSlot, length);
      messagesWaiting := messagesWaiting + 1;
      OffsetZero(itemSize);
    }

    method CopyToFront(item: Item, waiting: nat)
      requires Valid() && |item| == itemSize > 0 && waiting < length
      requires waiting == messagesWaiting || (length == 1 && waiting < messagesWaiting)
      modifies this, storage
      ensures Valid() && messagesWaiting == waiting + 1
      ensures Contents() == [item] + old(Contents())[..waiting]
    {
      ghost var first, b := Next(readSlot, length), storage[..];
      CopyIn(item, readFrom, readSlot);
      ToFront(b, storage[..], itemSize, length, first, waiting, item);
      FewerItems(b, itemSize, length, first, messagesWaiting, waiting);
      assert Prev(first, length) == readSlot;
      assert Next(Prev(readSlot, length), length) == readSlot;
      if readSlot > 0 {
        Offsets(readSlot - 1, length, itemSize);
      }
      Offsets(length - 1, length, itemSize);
      OffsetZero(itemSize);
      hide Offset, Items;
      readFrom := readFrom - itemSize;
      if readFrom < 0 {
        readFrom := storage.Length - itemSize;
      }
      readSlot := Prev(readSlot, length);
      messagesWaiting := waiting + 1;
    }

    /** Its branch for items without data: only the count changes. */
    method CopyNothing(item: Item)
      requires Valid() && |item| == itemSize == 0
      modifies this`messagesWaiting, this`writeSlot
      ensures messagesWaiting == old(messagesWaiting) + 1
      ensures Valid() <==> old(messagesWaiting) < length
      ensures Valid() ==> Contents() == old(Contents()) + [item] == [item] + old(Contents())
    {
      ghost var first := Next(readSlot, length);
      NoData(storage[..], length, first, messagesWaiting, item);
      messagesWaiting := messagesWaiting + 1;
      writeSlot := Behind(first, messagesWaiting, length);
    }

    /** prvCopyDataToQueue, of a queue that is not a mutex.  One case goes wrong: an
        overwrite of a full queue whose items have no data counts one item too many. */
    method CopyDataToQueue(item: Item, position: Position)
      requires Valid() && |item| == itemSize && MaySend(position)
      modifies this, storage
      ensures messagesWaiting == CountAfter(old(messagesWaiting), itemSize, position)
      ensures Valid() <==> !(itemSize == 0 && position == Overwriting && old(messagesWaiting) == length)
      ensures Valid() ==> Contents() == match position
                                        case ToTheBack => old(Contents()) + [item]
                                        case ToTheFront => [item] + old(Contents())
                                        case Overwriting => [item]
    {
      hide Items, Offset, Behind;
      if itemSize == 0 {
        CopyNothing(item);
        assert old(Contents()) == [] ==> [] + [item] == [item];
      } else if position == ToTheBack {
        CopyToBack(item);
      } else {
        var waiting := messagesWaiting;
        if position == Overwriting {
          if waiting > 0 {
            waiting := waiting - 1;
          }
        }
        CopyToFront(item, waiting);
      }
    }

    /** prvCopyDataFromQueue */
    method CopyDataFromQueue() returns (item: Item)
      requires Valid() && messagesWaiting > 0
      modifies this`readFrom, this`readSlot
      ensures item == old(Contents())[0] && readSlot == Next(old(readSlot), length)
      ensures itemSize > 0 ==> readFrom == Offset(readSlot, itemSize)
    {
      Taken(storage[..], itemSize, length, Next(readSlot, length), messagesWaiting);
      item := [];
      Offsets(readSlot, length, itemSize);
      Offsets(readSlot + 1, length, itemSize);
      Offsets(length, readSlot + 1, itemSize);
      Offsets(Next(readSlot, length), length, itemSize);
      OffsetZero(itemSize);
      hide Offset, Items;
      if itemSize != 0 {
        readFrom := readFrom + itemSize;
        if readFrom >= storage.Length {
          readFrom := 0;
        }
        item := storage[readFrom..readFrom + itemSize];
      }
      readSlot := Next(readSlot, length);
    }

    /** The part of xQueueReceive and xQueueSemaphoreTake that takes an item */
    method Receive() returns (received: bool, item: Item)
      requires Valid()
      modifies this
      ensures Valid()
      ensures received <==> old(Contents()) != []
      ensures received ==> item == old(Contents())[0] && Contents() == old(Contents())[1..]
      ensures !received ==> Contents() == old(Contents())
    {
      received, item := false, [];
      if messagesWaiting > 0 {
        Taken(storage[..], itemSize, length, Next(readSlot, length), messagesWaiting);
        item := CopyDataFromQueue();
        messagesWaiting := messagesWaiting - 1;
        received := true;
      }
    }

    /** The part of xQueuePeek that looks at an item: the read pointer is put back. */
    method Peek() returns (found: bool, item: Item)
      requires Valid()
      modifies this
      ensures Valid() && Contents() == old(Contents())
      ensures found <==> Contents() != []
      ensures found ==> item == Contents()[0]
    {
      found, item := false, [];
      if messagesWaiting > 0 {
        var original := readFrom;
        ghost var slot := readSlot;
        item := CopyDataFromQueue();
        readFrom := original;
        readSlot := slot;
        found := true;
      }
    }
  }

  /** What prvCopyDataToQueue makes of uxMessagesWaiting. */
  function CountAfter(count: nat, itemSize: nat, position: Position): nat {
    if itemSize > 0 && position == Overwriting && count > 0 then count else count + 1
  }

  /** That case: a queue of one item without data, sent to and then overwritten. */
  method OverwriteWithoutData() returns (q: Queue)
    ensures q.length == 1 && q.itemSize == 0 && q.messagesWaiting == 2 && !q.Valid()
  {
    q := new Queue(1, 0);
    q.CopyDataToQueue([], ToTheBack);
    q.CopyDataToQueue([], Overwriting);
  }

  lemma OffsetZero(z: nat)
    ensures Offset(0, z) == 0
  {
  }

  lemma FewerItems(b: seq<Byte>, z: nat, n: nat, first: nat, count: nat, fewer: nat)
    requires n > 0 && fewer <= count
    ensures Items(b, z, n, first, fewer) == Items(b, z, n, first, count)[..fewer]
  {
  }

  /** Items without data are all the same. */
  lemma NoData(b: seq<Byte>, n: nat, first: nat, count: nat, x: Item)
    requires n > 0 && x == []
    ensures Items(b, 0, n, first, count + 1) == Items(b, 0, n, first, count) + [x]
    ensures Items(b, 0, n, first, count + 1) == [x] + Items(b, 0, n, first, count)
  {
  }
}
