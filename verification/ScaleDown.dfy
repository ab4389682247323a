/** Which servers scale-down deletes. */
module ScaleDown {
  import opened GameServers
  import opened ReconcilePlan

  lemma {:induction false} FilterSorted(s: seq<GameServer>, p: GameServer -> bool)
    requires forall i, j :: 0 <= i < j < |s| ==> Rank(s[i]) <= Rank(s[j])
    ensures forall i, j :: 0 <= i < j < |Filter(s, p)| ==> Rank(Filter(s, p)[i]) <= Rank(Filter(s, p)[j])
  {
    if s != [] {
      var init, last := s[..|s| - 1], s[|s| - 1];
      FilterSorted(init, p);
      var kept := Filter(init, p);
      forall i | 0 <= i < |kept|
        ensures Rank(kept[i]) <= Rank(last)
      {
        assert kept[i] in init;
      }
    }
  }

  // The servers of the list that scale-down could take but does not.
  function Spared(sorted: seq<GameServer>, budget: int): seq<GameServer> {
    Filter(sorted, IsTrimmable)[|Chosen(sorted, budget)|..]
  }

  lemma ChosenAndSpared(sorted: seq<GameServer>, budget: int)
    ensures Filter(sorted, IsTrimmable) == Chosen(sorted, budget) + Spared(sorted, budget)
  {
  }

  lemma ChosenBelowSpared(sorted: seq<GameServer>, items: seq<GameServer>, budget: int, a: GameServer, b: GameServer)
    requires SortedByState(sorted, items)
    requires a in Chosen(sorted, budget) && b in Spared(sorted, budget)
    ensures Rank(a) <= Rank(b)
  {
    FilterSorted(sorted, IsTrimmable);
    ChosenAndSpared(sorted, budget);
    hide Chosen, Spared, Filter, IsTrimmable, SortedByState;
    FirstBelowLast(Chosen(sorted, budget), Spared(sorted, budget), a, b);
  }

  lemma FirstBelowLast(first: seq<GameServer>, last: seq<GameServer>, a: GameServer, b: GameServer)
    requires forall i, j :: 0 <= i < j < |first + last| ==> Rank((first + last)[i]) <= Rank((first + last)[j])
    requires a in first && b in last
    ensures Rank(a) <= Rank(b)
  {
    hide Rank;
    var i :| 0 <= i < |first| && first[i] == a;
    var j :| 0 <= j < |last| && last[j] == b;
    assert (first + last)[i] == a && (first + last)[|first| + j] == b;
  }

  lemma SparesNoEarlier(sorted: seq<GameServer>, items: seq<GameServer>, budget: int, a: GameServer, b: GameServer)
    requires SortedByState(sorted, items)
    requires a in Chosen(sorted, budget) && b in Spared(sorted, budget)
    ensures a.state in {Unset, Initializing, StandingBy}
    ensures b.state == Unset ==> a.state == Unset
    ensures b.state == Initializing ==> a.state != StandingBy
  {
    hide Chosen, Spared, SortedByState;
    ChosenBelowSpared(sorted, items, budget, a, b);
  }

  lemma ChosenSize(sorted: seq<GameServer>, budget: int)
    ensures |Chosen(sorted, budget)| == if budget <= 0 then 0 else Min(budget, |Filter(sorted, IsTrimmable)|)
  {
    hide Filter;
  }

  /** Scale-down takes min(budget, candidates) of the servers that are not
      active; it spares no pending server for one of another state, and no
      initializing one for one standing by. */
  lemma ChosenRankLowest(sorted: seq<GameServer>, items: seq<GameServer>, budget: int)
    requires SortedByState(sorted, items)
    ensures var chosen, spared := Chosen(sorted, budget), Spared(sorted, budget);
            && multiset(chosen) + multiset(spared) == multiset(Filter(items, IsTrimmable))
            && |chosen| == (if budget <= 0 then 0 else Min(budget, |Filter(items, IsTrimmable)|))
            && (forall a, b :: a in chosen && b in spared ==>
                  && a.state in {Unset, Initializing, StandingBy}
                  && (b.state == Unset ==> a.state == Unset)
                  && (b.state == Initializing ==> a.state != StandingBy))
  {
    hide Chosen, Spared, Filter, IsTrimmable;
    ChosenAndSpared(sorted, budget);
    ChosenSize(sorted, budget);
    FilterPermuted(sorted, items, IsTrimmable);
    forall a, b | a in Chosen(sorted, budget) && b in Spared(sorted, budget)
      ensures a.state in {Unset, Initializing, StandingBy} && (b.state == Unset ==> a.state == Unset)
      ensures b.state == Initializing ==> a.state != StandingBy
    {
      SparesNoEarlier(sorted, items, budget, a, b);
    }
  }

  // How many of each state

  predicate IsUnset(g: GameServer) {
    g.state == Unset
  }

  predicate IsInitializing(g: GameServer) {
    g.state == Initializing
  }

  predicate IsStandingBy(g: GameServer) {
    g.state == StandingBy
  }

  predicate GoesFirst(g: GameServer) {
    g.state == Unset || g.state == Initializing
  }

  lemma {:induction false} StatesSplit(s: seq<GameServer>)
    ensures |Filter(s, IsTrimmable)| == |Filter(s, GoesFirst)| + |Filter(s, IsStandingBy)|
    ensures |Filter(s, GoesFirst)| == |Filter(s, IsUnset)| + |Filter(s, IsInitializing)|
  {
    if s != [] {
      StatesSplit(s[..|s| - 1]);
      FilterStep(s, IsTrimmable);
      FilterStep(s, GoesFirst);
      FilterStep(s, IsStandingBy);
      FilterStep(s, IsUnset);
      FilterStep(s, IsInitializing);
      hide Filter;
    }
  }

  lemma {:induction false} FilterNested(s: seq<GameServer>, p: GameServer -> bool, q: GameServer -> bool)
    requires forall g :: q(g) ==> p(g)
    ensures Filter(Filter(s, p), q) == Filter(s, q)
  {
    if s != [] {
      var init, last := s[..|s| - 1], s[|s| - 1];
      FilterNested(init, p, q);
      if p(last) {
        FilterSplit(Filter(init, p), [last], q);
        FilterOne(last, q);
      }
    }
  }

  // Those states whose servers scale-down prefers to all others.
  ghost predicate Preferred(early: GameServer -> bool) {
    && (forall g :: early(g) ==> IsTrimmable(g))
    && (forall a, b :: early(a) && !early(b) ==> Rank(a) < Rank(b))
  }

  lemma EarlyOnes(sorted: seq<GameServer>, items: seq<GameServer>, budget: int, early: GameServer -> bool)
    requires SortedByState(sorted, items) && Preferred(early)
    ensures |Filter(Chosen(sorted, budget), early)| + |Filter(Spared(sorted, budget), early)| == |Filter(items, early)|
  {
    hide Filter, Chosen, Spared;
    ChosenAndSpared(sorted, budget);
    FilterNested(sorted, IsTrimmable, early);
    FilterSplit(Chosen(sorted, budget), Spared(sorted, budget), early);
    FilterPermuted(sorted, items, early);
  }

  // If scale-down takes any other server, it spares no early one.
  lemma NoEarlySpared(sorted: seq<GameServer>, items: seq<GameServer>, budget: int, early: GameServer -> bool)
    requires SortedByState(sorted, items) && Preferred(early)
    requires exists a :: a in Chosen(sorted, budget) && !early(a)
    ensures Filter(Spared(sorted, budget), early) == []
  {
    var a :| a in Chosen(sorted, budget) && !early(a);
    forall b | b in Spared(sorted, budget)
      ensures !early(b)
    {
      ChosenBelowSpared(sorted, items, budget, a, b);
    }
    FilterNone(Spared(sorted, budget), early);
  }

  lemma TakesEarlyFirst(sorted: seq<GameServer>, items: seq<GameServer>, budget: int, early: GameServer -> bool)
    requires SortedByState(sorted, items) && Preferred(early)
    ensures |Filter(Chosen(sorted, budget), early)| == Min(|Chosen(sorted, budget)|, |Filter(items, early)|)
  {
    var chosen := Chosen(sorted, budget);
    EarlyOnes(sorted, items, budget, early);
    if a :| a in chosen && !early(a) {
      NoEarlySpared(sorted, items, budget, early);
    } else {
      FilterAll(chosen, early);
    }
  }

  lemma PreferredStates()
    ensures Preferred(IsUnset) && Preferred(GoesFirst)
  {
  }

  lemma CandidatesBefore(sorted: seq<GameServer>, items: seq<GameServer>)
    requires SortedByState(sorted, items)
    ensures |Filter(sorted, IsTrimmable)| == |Filter(items, IsTrimmable)|
  {
    FilterPermuted(sorted, items, IsTrimmable);
  }

  // Servers of the three states scale-down looks at.
  function StateCounts(s: seq<GameServer>): (nat, nat, nat) {
    (|Filter(s, IsUnset)|, |Filter(s, IsInitializing)|, |Filter(s, IsStandingBy)|)
  }

  /** Exactly how many of each state are taken: first the pending servers, with
      what is left of the budget the initializing ones, then those standing by. */
  lemma ChosenByState(sorted: seq<GameServer>, items: seq<GameServer>, budget: int)
    requires SortedByState(sorted, items)
    ensures var (pending, initializing, standingBy) := StateCounts(items);
            var n := if budget <= 0 then 0 else Min(budget, pending + initializing + standingBy);
            var first := Min(n, pending);
            var second := Min(n - first, initializing);
            StateCounts(Chosen(sorted, budget)) == (first, second, n - first - second)
            && |Chosen(sorted, budget)| == n
  {
    hide Filter, Chosen, SortedByState, Preferred;
    var chosen := Chosen(sorted, budget);
    ChosenSize(sorted, budget);
    PreferredStates();
    TakesEarlyFirst(sorted, items, budget, IsUnset);
    TakesEarlyFirst(sorted, items, budget, GoesFirst);
    CandidatesBefore(sorted, items);
    StatesSplit(items);
    StatesSplit(chosen);
    FilterAll(chosen, IsTrimmable);
  }

  // ByState: the sort of the list, in place

  predicate Less(a: array<GameServer>, i: nat, j: nat)
    requires i < a.Length && j < a.Length
    reads a
  {
    Rank(a[i]) < Rank(a[j])
  }

  method Swap(a: array<GameServer>, i: nat, j: nat)
    requires i < a.Length && j < a.Length
    modifies a
    ensures a[..] == old(a[..])[i := old(a[j])][j := old(a[i])]
    ensures multiset(a[..]) == multiset(old(a[..]))
  {
    a[i], a[j] := a[j], a[i];
  }

  ghost predicate RanksUpTo(s: seq<GameServer>, n: int)
    requires n <= |s|
  {
    forall i, j :: 0 <= i < j < n ==> Rank(s[i]) <= Rank(s[j])
  }

  /** Any in-place sort built from Less and Swap will do; this is insertion. */
  method SortByState(a: array<GameServer>)
    modifies a
    ensures SortedByState(a[..], old(a[..]))
  {
    var n := 0;
    while n < a.Length
      invariant n <= a.Length
      invariant multiset(a[..]) == multiset(old(a[..]))
      invariant RanksUpTo(a[..], n)
    {
      var j := n;
      while 0 < j && Less(a, j, j - 1)
        invariant j <= n < a.Length
        invariant multiset(a[..]) == multiset(old(a[..]))
        invariant forall i, k :: 0 <= i < k <= n && k != j ==> Rank(a[..][i]) <= Rank(a[..][k])
      {
        Swap(a, j - 1, j);
        j := j - 1;
      }
      n := n + 1;
    }
  }
}
