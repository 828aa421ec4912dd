/** The intrusive doubly linked lists of list.c, on the heap.

    A list is a ring of items through a sentinel (`end`) that belongs to the
    list.  `ring` is the sequence the ring stands for, sentinel first; `Valid`
    ties the links, the count, the containers and the moving index to it. */
module Lists {
  import opened ListSpec

  class ListItem {
    var value: nat
    var next: ListItem?
    var prev: ListItem?
    var container: List?

    /** vListInitialiseItem, with the value the owner stores next. */
    constructor (v: nat)
      ensures value == v && container == null
    {
      value, next, prev, container := v, null, null, null;
    }
  }

  /** `r` is a ring: distinct nodes, links mutually inverse, closed at the ends. */
  ghost predicate Linked(r: seq<ListItem>, nodes: set<ListItem>)
    reads nodes
  {
    && LinkedBut(r, nodes, |r|)
    && r[|r| - 1].next == r[0] && r[0].prev == r[|r| - 1]
  }

  /** The same, open between positions `k - 1` and `k`. */
  ghost predicate LinkedBut(r: seq<ListItem>, nodes: set<ListItem>, k: nat)
    reads nodes
  {
    && 0 < k <= |r|
    && (forall i | 0 <= i < |r| :: r[i] in nodes)
    && (forall i, j | 0 <= i < j < |r| :: r[i] != r[j])
    && (forall i, j | 0 <= i && j == i + 1 < |r| && j != k :: r[i].next == r[j] && r[j].prev == r[i])
    && (k < |r| ==> r[|r| - 1].next == r[0] && r[0].prev == r[|r| - 1])
  }

  /** A new item between two neighbours closes the ring again. */
  lemma InsertMends(r: seq<ListItem>, nodes: set<ListItem>, item: ListItem, k: nat, r': seq<ListItem>)
    requires LinkedBut(r, nodes, k) && item !in nodes
    requires r' == r[..k] + [item] + r[k..]
    requires r[k - 1].next == item && item.prev == r[k - 1]
    requires var b := if k < |r| then r[k] else r[0]; item.next == b && b.prev == item
    ensures Linked(r', nodes + {item})
  {
  }

  /** So does joining the neighbours of a removed one. */
  lemma RemoveMends(r: seq<ListItem>, nodes: set<ListItem>, k: nat, r': seq<ListItem>)
    requires 0 < k < |r| && r' == r[..k] + r[k + 1..]
    requires LinkedBut(r', nodes, k)
    requires var b := if k + 1 < |r| then r[k + 1] else r[0]; r[k - 1].next == b && b.prev == r[k - 1]
    requires r[k] !in r'
    ensures Linked(r', nodes - {r[k]})
  {
  }

  class List {
    var count: nat
    var index: ListItem
    const end: ListItem
    ghost var nodes: set<ListItem>
    ghost var ring: seq<ListItem>
    ghost var pos: nat

    ghost predicate Valid()
      reads this, nodes
    {
      && Linked(ring, nodes)
      && (forall i | 1 <= i < |ring| :: ring[i].container == this && ring[i].value <= MAX_DELAY)
      && ring[0] == end && end.value == MAX_DELAY && end.container == null
      && count == |ring| - 1
      && pos < |ring| && index == ring[pos]
    }

    /** The entries as module `ListSpec` sees them. */
    ghost function Entries(): (s: seq<Entry<ListItem>>)
      requires Valid()
      reads this, nodes
      ensures |s| == |ring| - 1
    {
      seq(|ring| - 1, i requires 0 <= i < |ring| - 1 && Valid() reads this, nodes => Entry(ring[i + 1], ring[i + 1].value))
    }

    /** vListInitialise */
    constructor ()
      ensures Valid() && ring == [end] && nodes == {end} && pos == 0 && fresh(end)
    {
      var e := new ListItem(MAX_DELAY);
      end, index, count := e, e, 0;
      ring, nodes, pos := [e], {e}, 0;
      new;
      e.next, e.prev := e, e;
    }

    /** The four link updates both insertions make, and the container and count. */
    method Splice(item: ListItem, a: ListItem, b: ListItem, ghost k: nat)
      requires Valid() && item.container == null && item !in nodes
      requires 0 < k <= |ring| && a == ring[k - 1] && b == if k < |ring| then ring[k] else end
      modifies this`count, this`ring, this`nodes, nodes`next, nodes`prev, item`next, item`prev, item`container
      ensures ring == old(ring)[..k] + [item] + old(ring)[k..] && nodes == old(nodes) + {item}
      ensures Linked(ring, nodes)
      ensures count == old(count) + 1 && item.container == this
    {
      ghost var r := ring;
      item.next := b;
      b.prev := item;
      item.prev := a;
      a.next := item;
      item.container := this;
      count := count + 1;
      ring := r[..k] + [item] + r[k..];
      InsertMends(r, nodes, item, k, ring);
      nodes := nodes + {item};
    }

    /** vListInsertEnd: the item goes just in front of the index. */
    method InsertEnd(item: ListItem)
      requires Valid()
      requires item.container == null && item !in nodes && item.value <= MAX_DELAY
      modifies this, nodes`next, nodes`prev, item`next, item`prev, item`container
      ensures Valid() && nodes == old(nodes) + {item}
      ensures var at := if old(pos) == 0 then |old(ring)| else old(pos);
              ring == old(ring)[..at] + [item] + old(ring)[at..]
      ensures index == old(index) && item.container == this
    {
      ghost var at := if pos == 0 then |ring| else pos;
      var idx := index;
      assert idx.prev == ring[at - 1];
      Splice(item, idx.prev, idx, at);
      pos := if pos == 0 then 0 else pos + 1;
    }

    /** vListInsert: ordered by value, behind equal values.  The scan stops at
        the sentinel, whose value is larger than any value scanned for. */
    method Insert(item: ListItem)
      requires Valid()
      requires item.container == null && item !in nodes && item.value <= MAX_DELAY
      modifies this, nodes`next, nodes`prev, item`next, item`prev, item`container
      ensures Valid() && nodes == old(nodes) + {item}
      ensures Entries() == ListSpec.Insert(old(Entries()), Entry(item, item.value))
      ensures index == old(index) && item.container == this
    {
      var it, k := Scan(item.value);
      InsertBehind(item, it, k);
    }

    /** The second half of vListInsert. */
    method InsertBehind(item: ListItem, it: ListItem, ghost k: nat)
      requires Valid()
      requires item.container == null && item !in nodes && item.value <= MAX_DELAY
      requires 0 < k <= |ring| && it == ring[k - 1]
      modifies this, nodes`next, nodes`prev, item`next, item`prev, item`container
      ensures Valid() && nodes == old(nodes) + {item}
      ensures Entries() == old(Entries())[..k - 1] + [Entry(item, item.value)] + old(Entries())[k - 1..]
      ensures index == old(index) && item.container == this
    {
      assert k < |ring| ==> it.next == ring[k];
      Splice(item, it, it.next, k);
      pos := if pos < k then pos else pos + 1;
    }

    /** The link updates of uxListRemove, and the container and count. */
    method Unsplice(item: ListItem, a: ListItem, b: ListItem, ghost k: nat)
      requires Valid() && 0 < k < |ring| && ring[k] == item
      requires a == ring[k - 1] && b == if k + 1 < |ring| then ring[k + 1] else end
      modifies this`count, this`ring, this`nodes, nodes`next, nodes`prev, item`container
      ensures ring == old(ring)[..k] + old(ring)[k + 1..] && nodes == old(nodes) - {item}
      ensures Linked(ring, nodes)
      ensures count == old(count) - 1 && item.container == null
      ensures item.prev == old(item.prev)
    {
      ghost var r := ring;
      b.prev := a;
      a.next := b;
      item.container := null;
      count := count - 1;
      ring := r[..k] + r[k + 1..];
      RemoveMends(r, nodes, k, ring);
      nodes := nodes - {item};
    }

    /** The search of vListInsert: the node to insert behind, and (as a proof
        aid) its position plus one. */
    method Scan(v: nat) returns (it: ListItem, ghost k: nat)
      requires Valid() && v <= MAX_DELAY
      ensures 0 < k <= |ring| && it == ring[k - 1]
      ensures it.next == if k < |ring| then ring[k] else end
      ensures k == InsertPos(Entries(), v) + 1
    {
      if v == MAX_DELAY {
        it, k := end.prev, |ring|;
      } else {
        it, k := end, 1;
        assert |ring| > 1 ==> it.next == ring[1];
        while it.next.value <= v
          invariant 0 < k <= |ring| && it == ring[k - 1]
          invariant it.next == if k < |ring| then ring[k] else end
          invariant forall i | 1 <= i < k :: ring[i].value <= v
          decreases |ring| - k
        {
          it, k := it.next, k + 1;
          assert k < |ring| ==> it.next == ring[k];
        }
      }
      InsertPosUnique(Entries(), v, k - 1);
    }
  }

  /** uxListRemove: the item finds its list through its container. */
  method Remove(item: ListItem) returns (n: nat)
    requires item.container != null && item.container.Valid() && item in item.container.ring
    modifies item.container, item.container.nodes`next, item.container.nodes`prev, item`container
    ensures item.container == null
    ensures var l := old(item.container); l.Valid() && n == l.count && l.nodes == old(l.nodes) - {item}
    ensures var l := old(item.container);
            exists k :: 0 < k < |old(l.ring)| && old(l.ring)[k] == item && l.ring == old(l.ring)[..k] + old(l.ring)[k + 1..]
    ensures var l := old(item.container); l.index == if old(l.index) == item then old(item.prev) else old(l.index)
  {
    var l := item.container;
    ghost var k :| 0 <= k < |l.ring| && l.ring[k] == item;
    ghost var r := l.ring;
    assert item.prev == r[k - 1];
    assert k + 1 < |r| ==> item.next == r[k + 1];
    l.Unsplice(item, item.prev, item.next, k);
    l.pos := if l.pos < k then l.pos else l.pos - 1;
    if l.index == item {
      l.index := item.prev;
    }
    n := l.count;
  }
}
