/** The priority queue of one build: a binary heap on NodeAge, kept in a list
    with the operations of container/heap. */
module GameServerHeap {

  datatype Entry = Entry(name: string, namespace: string, buildID: string, nodeAge: int, resourceVersion: nat)

  function Parent(i: nat): nat
    requires 0 < i
  {
    (i - 1) / 2
  }

  ghost predicate HeapAt(s: seq<Entry>, i: nat)
    requires i < |s|
  {
    0 < i ==> s[Parent(i)].nodeAge <= s[i].nodeAge
  }

  ghost predicate IsHeap(s: seq<Entry>) {
    forall i :: 0 <= i < |s| ==> HeapAt(s, i)
  }

  /** The root of a heap is its youngest node. */
  lemma {:induction false} RootIsMinimum(s: seq<Entry>, i: nat)
    requires IsHeap(s) && i < |s|
    ensures s[0].nodeAge <= s[i].nodeAge
    decreases i
  {
    if 0 < i {
      RootIsMinimum(s, Parent(i));
      assert HeapAt(s, i);
    }
  }

  function Swapped(s: seq<Entry>, i: nat, j: nat): (r: seq<Entry>)
    requires i < |s| && j < |s|
  {
    s[i := s[j]][j := s[i]]
  }

  lemma SwappedKeepsAll(s: seq<Entry>, i: nat, j: nat)
    requires i < |s| && j < |s|
    ensures multiset(Swapped(s, i, j)) == multiset(s)
  {
  }

  // The children of hole are above the parent of hole.
  ghost predicate Bridged(s: seq<Entry>, n: nat, hole: nat)
    requires hole < n <= |s|
  {
    forall i :: 0 < i < n && Parent(i) == hole && 0 < hole ==> s[Parent(hole)].nodeAge <= s[i].nodeAge
  }

  // Only hole may be below its parent.
  ghost predicate HeapButUp(s: seq<Entry>, hole: nat)
    requires hole < |s|
  {
    (forall i :: 0 <= i < |s| && i != hole ==> HeapAt(s, i)) && Bridged(s, |s|, hole)
  }

  // Within the first n places only hole may be out of order, either way.
  ghost predicate HeapButAt(s: seq<Entry>, n: nat, hole: nat)
    requires hole < n <= |s|
  {
    (forall i :: 0 < i < n && i != hole && Parent(i) != hole ==> HeapAt(s, i)) && Bridged(s, n, hole)
  }

  lemma UpStep(s: seq<Entry>, j: nat)
    requires 0 < j < |s| && HeapButUp(s, j) && s[j].nodeAge < s[Parent(j)].nodeAge
    ensures HeapButUp(Swapped(s, Parent(j), j), Parent(j))
  {
    var p := Parent(j);
    var t := Swapped(s, p, j);
    forall i | 0 <= i < |t| && i != p
      ensures HeapAt(t, i)
    {
      assert i != j ==> HeapAt(s, i);
    }
    assert HeapAt(s, p);
    forall i | 0 < i < |t| && Parent(i) == p && 0 < p
      ensures t[Parent(p)].nodeAge <= t[i].nodeAge
    {
      assert i != j ==> HeapAt(s, i);
    }
  }

  predicate IsSmallerChild(s: seq<Entry>, n: nat, i: nat, j: nat)
    requires n <= |s|
  {
    && i < j < n && Parent(j) == i
    && (forall k :: 0 < k < n && Parent(k) == i ==> s[j].nodeAge <= s[k].nodeAge)
  }

  lemma DownStep(s: seq<Entry>, n: nat, i: nat, j: nat)
    requires i < n <= |s| && HeapButAt(s, n, i) && IsSmallerChild(s, n, i, j) && s[j].nodeAge < s[i].nodeAge
    ensures var t := Swapped(s, i, j);
            HeapButAt(t, n, j) && HeapAt(t, j)
  {
    var t := Swapped(s, i, j);
    forall k | 0 < k < n && Parent(k) != j
      ensures HeapAt(t, k)
    {
      assert k != i && Parent(k) != i ==> HeapAt(s, k);
    }
    forall k | 0 < k < n && Parent(k) == j
      ensures t[Parent(j)].nodeAge <= t[k].nodeAge
    {
      assert HeapAt(s, k);
    }
  }

  class GameServerQueue {
    var items: seq<Entry>
    ghost const build: string   // the build it serves: queues of different builds are different objects

    constructor (ghost build: string)
      ensures items == [] && this.build == build
    {
      items, this.build := [], build;
    }

    predicate Less(i: nat, j: nat)
      requires i < |items| && j < |items|
      reads this
    {
      items[i].nodeAge < items[j].nodeAge
    }

    method Swap(i: nat, j: nat)
      requires i < |items| && j < |items|
      modifies this
      ensures items == Swapped(old(items), i, j)
    {
      items := items[i := items[j]][j := items[i]];
    }

    // container/heap: sift up
    method Up(start: nat)
      requires start < |items| && HeapButUp(items, start)
      modifies this
      ensures IsHeap(items) && multiset(items) == multiset(old(items)) && |items| == |old(items)|
    {
      var j: nat := start;
      while 0 < j && Less(j, Parent(j))
        invariant j < |items| && HeapButUp(items, j)
        invariant multiset(items) == multiset(old(items)) && |items| == |old(items)|
        decreases j
      {
        SwappedKeepsAll(items, Parent(j), j);
        UpStep(items, j);
        Swap(Parent(j), j);
        j := Parent(j);
      }
    }

    // The child of i that sift down compares with, if i has one.
    function ChildOf(i: nat, n: nat): (j: nat)
      requires n <= |items| && 2 * i + 1 < n
      reads this
      ensures IsSmallerChild(items, n, i, j)
    {
      var j1 := 2 * i + 1;
      if j1 + 1 < n && Less(j1 + 1, j1) then j1 + 1 else j1
    }

    // container/heap: sift down within the first n places
    method Down(start: nat, n: nat) returns (moved: bool)
      requires start < n <= |items| && HeapButAt(items, n, start)
      modifies this
      ensures |items| == |old(items)| && multiset(items) == multiset(old(items))
      ensures forall k :: n <= k < |items| ==> items[k] == old(items)[k]
      ensures forall i :: 0 < i < n && (i != start || moved) ==> HeapAt(items, i)
      ensures !moved ==> items == old(items)
    {
      var i := start;
      while 2 * i + 1 < n && Less(ChildOf(i, n), i)
        invariant start <= i < n <= |items| == |old(items)| && HeapButAt(items, n, i)
        invariant multiset(items) == multiset(old(items))
        invariant forall k :: n <= k < |items| ==> items[k] == old(items)[k]
        invariant if i == start then items == old(items) else HeapAt(items, i)
        decreases n - i
      {
        var j := ChildOf(i, n);
        SwappedKeepsAll(items, i, j);
        DownStep(items, n, i, j);
        Swap(i, j);
        i := j;
      }
      moved := start < i;
    }

    /** heap.Push: the new entry joins, and the heap stays a heap. */
    method PushToQueue(e: Entry)
      requires IsHeap(items)
      modifies this
      ensures IsHeap(items) && multiset(items) == multiset(old(items)) + multiset{e}
    {
      items := items + [e];
      assert forall i :: 0 <= i < |old(items)| ==> HeapAt(old(items), i) ==> HeapAt(items, i);
      Up(|items| - 1);
    }

    // Replaces entry i by the last one, sifts that down, and cuts the list. The
    // source cuts after sifting up, which never looks past i.
    method Replace(i: nat) returns (e: Entry, moved: bool)
      requires IsHeap(items) && i < |items| - 1
      modifies this
      ensures i < |items| && if moved then IsHeap(items) else HeapButUp(items, i)
      ensures e == old(items)[i] && multiset(items) == multiset(old(items)) - multiset{e}
    {
      hide IsHeap, HeapAt, HeapButUp, Bridged;
      var n := |items| - 1;
      e := items[i];
      SwappedKeepsAll(items, i, n);
      SwapOut(items, i);
      Swap(i, n);
      moved := Down(i, n);
      ghost var sifted := items;
      DropLast(sifted, old(items), e);
      Cut(sifted, i, moved);
      items := items[..n];
      assert items == sifted[..|sifted| - 1];
    }

    // The common part of heap.Pop and heap.Remove.
    method TakeOut(i: nat) returns (e: Entry)
      requires IsHeap(items) && i < |items| - 1
      modifies this
      ensures IsHeap(items) && e == old(items)[i]
      ensures multiset(items) == multiset(old(items)) - multiset{e}
    {
      var moved;
      e, moved := Replace(i);
      if !moved {
        Up(i);
      }
    }

    /** heap.Pop: takes out an entry on the youngest node. */
    method PopFromQueue() returns (e: Entry)
      requires IsHeap(items) && items != []
      modifies this
      ensures IsHeap(items) && multiset(items) == multiset(old(items)) - multiset{e}
      ensures e in old(items) && forall x :: x in old(items) ==> e.nodeAge <= x.nodeAge
    {
      forall i | 0 <= i < |items|
        ensures items[0].nodeAge <= items[i].nodeAge
      {
        RootIsMinimum(items, i);
      }
      e := RemoveAt(0);
    }

    /** heap.Remove: takes out exactly the entry at index i. */
    method RemoveAt(i: nat) returns (e: Entry)
      requires IsHeap(items) && i < |items|
      modifies this
      ensures IsHeap(items) && e == old(items)[i]
      ensures multiset(items) == multiset(old(items)) - multiset{e}
    {
      if i < |items| - 1 {
        e := TakeOut(i);
      } else {
        e := items[i];
        DropLast(items, items, e);
        PrefixIsHeap(items, i);
        items := items[..i];
      }
    }
  }

  // After sifting down, cutting the last place leaves a heap, or one that is
  // out of order at i only.
  lemma Cut(s: seq<Entry>, i: nat, moved: bool)
    requires i < |s| - 1
    requires forall k :: 0 < k < |s| - 1 && (k != i || moved) ==> HeapAt(s, k)
    requires !moved ==> Bridged(s, |s| - 1, i)
    ensures var t := s[..|s| - 1]; if moved then IsHeap(t) else HeapButUp(t, i)
  {
    var t := s[..|s| - 1];
    forall k | 0 <= k < |t| && (k != i || moved)
      ensures HeapAt(t, k)
    {
      assert 0 < k ==> HeapAt(s, k);
    }
  }

  lemma PrefixIsHeap(s: seq<Entry>, n: nat)
    requires IsHeap(s) && n <= |s|
    ensures IsHeap(s[..n])
  {
    forall k | 0 <= k < n
      ensures HeapAt(s[..n], k)
    {
      assert HeapAt(s, k);
    }
  }

  lemma DropLast(s: seq<Entry>, before: seq<Entry>, e: Entry)
    requires s != [] && s[|s| - 1] == e && multiset(s) == multiset(before)
    ensures multiset(s[..|s| - 1]) == multiset(before) - multiset{e}
  {
    assert s == s[..|s| - 1] + [e];
  }

  // Bringing the last entry to place i of a heap disturbs place i only.
  lemma SwapOut(s: seq<Entry>, i: nat)
    requires IsHeap(s) && i < |s| - 1
    ensures HeapButAt(Swapped(s, i, |s| - 1), |s| - 1, i)
  {
    var n := |s| - 1;
    var t := Swapped(s, i, n);
    forall k | 0 < k < n && k != i && Parent(k) != i
      ensures HeapAt(t, k)
    {
      assert HeapAt(s, k);
    }
    forall k | 0 < k < n && Parent(k) == i && 0 < i
      ensures t[Parent(i)].nodeAge <= t[k].nodeAge
    {
      assert HeapAt(s, k) && HeapAt(s, i);
    }
  }
}
