/** The value of a kernel list: its entries in traversal order, head first.

    list.c links the entries in a ring through a sentinel whose value is the
    largest tick value; here a list is the sequence the ring stands for.  The
    ring itself, and the proof that the pointer code computes these functions,
    is in module `Lists`. */
module ListSpec {

  /** portMAX_DELAY for a 32-bit tick, also the value of every list's sentinel. */
  const MAX_DELAY: nat := 0xFFFF_FFFF

  datatype Entry<T> = Entry(owner: T, value: nat)

  ghost predicate Sorted<T>(s: seq<Entry<T>>) {
    forall i, j | 0 <= i < j < |s| :: s[i].value <= s[j].value
  }

  /** Where `vListInsert` puts a new entry: in front of the first larger value. */
  function InsertPos<T>(s: seq<Entry<T>>, v: nat): (p: nat)
    ensures p <= |s|
    ensures forall i | 0 <= i < p :: s[i].value <= v
    ensures p < |s| ==> s[p].value > v
  {
    if s == [] || s[0].value > v then 0 else 1 + InsertPos(s[1..], v)
  }

  /** Only one place is behind everything not larger. */
  lemma InsertPosUnique<T>(s: seq<Entry<T>>, v: nat, k: nat)
    requires k <= |s| && (forall i | 0 <= i < k :: s[i].value <= v)
    requires k < |s| ==> s[k].value > v
    ensures k == InsertPos(s, v)
  {
  }

  function Insert<T>(s: seq<Entry<T>>, e: Entry<T>): seq<Entry<T>> {
    var p := InsertPos(s, e.value);
    s[..p] + [e] + s[p..]
  }

  /** `e` sits in `r` behind every entry it does not precede by value, and
      dropping it from `r` gives back `s`. */
  ghost predicate StableInsertion<T>(s: seq<Entry<T>>, e: Entry<T>, r: seq<Entry<T>>, p: nat) {
    && p <= |s|
    && r == s[..p] + [e] + s[p..]
    && forall i | p <= i < |s| :: s[i].value != e.value
  }

  /** Ordered insertion keeps the order, keeps the other entries as they were
      and goes behind its equals. */
  lemma InsertSorts<T>(s: seq<Entry<T>>, e: Entry<T>)
    requires Sorted(s)
    ensures Sorted(Insert(s, e))
    ensures StableInsertion(s, e, Insert(s, e), InsertPos(s, e.value))
    ensures multiset(Insert(s, e)) == multiset(s) + multiset{e}
  {
    InsertCounts(s, e);
    hide InsertPos, Insert;
    InsertOrdered(s, e);
  }

  lemma InsertCounts<T>(s: seq<Entry<T>>, e: Entry<T>)
    ensures multiset(Insert(s, e)) == multiset(s) + multiset{e}
  {
    hide InsertPos;
    var p := InsertPos(s, e.value);
    assert s == s[..p] + s[p..];
  }

  lemma InsertOrdered<T>(s: seq<Entry<T>>, e: Entry<T>)
    requires Sorted(s)
    ensures Sorted(Insert(s, e))
    ensures StableInsertion(s, e, Insert(s, e), InsertPos(s, e.value))
  {
  }

  /** Those three facts leave only one list. */
  lemma InsertUnique<T>(s: seq<Entry<T>>, e: Entry<T>, r: seq<Entry<T>>, p: nat)
    requires Sorted(s) && Sorted(r) && StableInsertion(s, e, r, p)
    ensures r == Insert(s, e)
  {
    hide InsertPos;
    var q := InsertPos(s, e.value);
    assert r[p] == e;
    var atP := if p < |s| then s[p].value else 0;
    assert forall i | 0 <= i < |s| :: i < p ==> r[i] == s[i];
    assert forall i | 0 <= i < |s| :: p <= i ==> r[i + 1] == s[i];
  }

  ghost predicate Distinct<T>(s: seq<Entry<T>>) {
    forall i, j | 0 <= i < j < |s| :: s[i].owner != s[j].owner
  }

  /** The list without the entries of `t`. */
  function Without<T(==)>(s: seq<Entry<T>>, t: T): seq<Entry<T>> {
    if s == [] then [] else if s[0].owner == t then Without(s[1..], t) else [s[0]] + Without(s[1..], t)
  }

  /** Taking an owner off a list keeps the order of the others. */
  lemma {:induction false} WithoutKeeps<T>(s: seq<Entry<T>>, t: T)
    ensures forall i | 0 <= i < |Without(s, t)| :: Without(s, t)[i] in s && Without(s, t)[i].owner != t
    ensures Sorted(s) ==> Sorted(Without(s, t))
    ensures Distinct(s) ==> Distinct(Without(s, t))
  {
    if s != [] {
      var w, rest := Without(s[1..], t), s[1..];
      assert s == [s[0]] + rest;
      WithoutKeeps(rest, t);
      forall i | 0 <= i < |w|
        ensures w[i] in s
        ensures Sorted(s) ==> s[0].value <= w[i].value
        ensures Distinct(s) ==> s[0].owner != w[i].owner
      {
        var j :| 0 <= j < |rest| && rest[j] == w[i];
        assert s[j + 1] == w[i];
      }
      hide Without;
      Cons(s[0], w);
      Tail(s);
    }
  }

  /** An entry in front of a list it fits. */
  lemma Cons<T>(e: Entry<T>, s: seq<Entry<T>>)
    ensures Sorted(s) && (forall i | 0 <= i < |s| :: e.value <= s[i].value) ==> Sorted([e] + s)
    ensures Distinct(s) && (forall i | 0 <= i < |s| :: e.owner != s[i].owner) ==> Distinct([e] + s)
  {
  }

  lemma Tail<T>(s: seq<Entry<T>>)
    requires s != []
    ensures Sorted(s) ==> Sorted(s[1..])
    ensures Distinct(s) ==> Distinct(s[1..])
  {
  }

  /** The order in which repeated use of the list's index visits the entries,
      when the index stands just behind position `k` (0 is the sentinel). */
  function FromIndex<T>(s: seq<T>, k: nat): seq<T>
    requires k <= |s|
  {
    s[k..] + s[..k]
  }

  /** Insertion just in front of the index makes the new entry the last one the
      index will reach, whatever the index points at. */
  lemma InsertEndIsVisitedLast<T>(s: seq<T>, k: nat, x: T)
    requires k <= |s|
    ensures var at := if k == 0 then |s| else k - 1;
            var s' := s[..at] + [x] + s[at..];
            var k' := if k == 0 then 0 else k + 1;
            var cur := if k == 0 then [] else [s[k - 1]];
            // the entry the index stands on keeps its turn at the very end
            FromIndex(s', k') == FromIndex(s, k)[..|s| - |cur|] + [x] + cur
  {
    var at := if k == 0 then |s| else k - 1;
    var s' := s[..at] + [x] + s[at..];
    var k' := if k == 0 then 0 else k + 1;
    if k == 0 {
      assert s' == s + [x];
    } else {
      assert s'[k'..] == s[k..];
      assert s'[..k'] == s[..k - 1] + [x] + [s[k - 1]];
      assert s[..k] == s[..k - 1] + [s[k - 1]];
    }
  }
}
