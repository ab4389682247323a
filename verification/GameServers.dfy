/** The GameServer resource as the build controller, the allocator and the
    node agent see it: a state, a health and a resource version. */
module GameServers {

  // Unset is the empty string: a server whose pod has not reported yet.
  datatype State = Unset | Initializing | StandingBy | Active | Crashed | GameCompleted

  // Unknown is the empty string.
  datatype Health = Unknown | Healthy | Unhealthy

  datatype GameServer = GameServer(name: string, state: State, health: Health, version: nat)

  // The branch the counting loop of the build controller takes for a server.
  datatype Branch =
    | CountPending
    | CountInitializing
    | CountStandingBy
    | CountActive
    | DeleteCompleted
    | DeleteCrashed
    | DeleteUnhealthy
    | NoBranch

  function BranchOf(g: GameServer): Branch {
    if g.state == Unset && g.health != Unhealthy then CountPending
    else if g.state == Initializing && g.health == Healthy then CountInitializing
    else if g.state == StandingBy && g.health == Healthy then CountStandingBy
    else if g.state == Active && g.health == Healthy then CountActive
    else if g.state == GameCompleted && g.health == Healthy then DeleteCompleted
    else if g.state == Crashed then DeleteCrashed
    else if g.health == Unhealthy then DeleteUnhealthy
    else NoBranch
  }

  predicate IsCounted(g: GameServer) {
    BranchOf(g) in {CountPending, CountInitializing, CountStandingBy, CountActive}
  }

  predicate IsDoomed(g: GameServer) {
    BranchOf(g) in {DeleteCompleted, DeleteCrashed, DeleteUnhealthy}
  }

  predicate IsCrash(g: GameServer) {
    BranchOf(g) in {DeleteCrashed, DeleteUnhealthy}
  }

  // Neither counted nor deleted by the build controller.
  predicate IsUnmatched(g: GameServer) {
    BranchOf(g) == NoBranch
  }

  // The scale-down loop looks at the state alone.
  predicate IsTrimmable(g: GameServer) {
    g.state == Unset || g.state == Initializing || g.state == StandingBy
  }

  // getValueByState: the order in which scale-down deletes.
  function Rank(g: GameServer): nat {
    match g.state
    case Unset => 0
    case Initializing => 1
    case StandingBy => 2
    case _ => 3
  }

  /** Keeps the elements that satisfy p, in order. */
  function Filter<T(!new)>(s: seq<T>, p: T -> bool): (r: seq<T>)
    ensures |r| <= |s|
    ensures forall x :: x in r <==> x in s && p(x)
  {
    if s == [] then []
    else
      var init, last := s[..|s| - 1], s[|s| - 1];
      assert s == init + [last];
      if p(last) then Filter(init, p) + [last] else Filter(init, p)
  }

  lemma {:induction false} FilterSplit<T(!new)>(s: seq<T>, t: seq<T>, p: T -> bool)
    ensures Filter(s + t, p) == Filter(s, p) + Filter(t, p)
  {
    if t == [] {
      assert s + t == s;
    } else {
      var init := t[..|t| - 1];
      assert (s + t)[..|s + t| - 1] == s + init;
      FilterSplit(s, init, p);
    }
  }

  lemma FilterNext<T(!new)>(s: seq<T>, i: nat, p: T -> bool)
    requires i < |s|
    ensures Filter(s[..i + 1], p) == Filter(s[..i], p) + if p(s[i]) then [s[i]] else []
  {
    assert s[..i + 1][..i] == s[..i];
  }

  lemma FilterTake<T(!new)>(s: seq<T>, i: nat, p: T -> bool)
    requires i <= |s|
    ensures Filter(s[..i], p) <= Filter(s, p)
  {
    assert s == s[..i] + s[i..];
    FilterSplit(s[..i], s[i..], p);
  }

  lemma FilterPrefix<T(!new)>(s: seq<T>, i: nat, p: T -> bool)
    requires i <= |s|
    ensures Filter(s[..i], p) <= Filter(s, p)
    ensures i < |s| && p(s[i]) ==> |Filter(s[..i], p)| < |Filter(s, p)| && Filter(s, p)[|Filter(s[..i], p)|] == s[i]
    ensures i < |s| ==> Filter(s[..i + 1], p) == Filter(s[..i], p) + (if p(s[i]) then [s[i]] else [])
  {
    hide Filter;
    FilterTake(s, i, p);
    if i < |s| {
      FilterNext(s, i, p);
      FilterTake(s, i + 1, p);
    }
  }

  lemma FilterOne<T(!new)>(x: T, p: T -> bool)
    ensures Filter([x], p) == if p(x) then [x] else []
  {
    assert [x][..0] == [];
  }

  lemma {:induction false} FilterNone<T(!new)>(s: seq<T>, p: T -> bool)
    requires forall x :: x in s ==> !p(x)
    ensures Filter(s, p) == []
  {
    if s != [] {
      FilterNone(s[..|s| - 1], p);
    }
  }

  lemma {:induction false} FilterAll<T(!new)>(s: seq<T>, p: T -> bool)
    requires forall x :: x in s ==> p(x)
    ensures Filter(s, p) == s
  {
    if s != [] {
      FilterAll(s[..|s| - 1], p);
      assert s == s[..|s| - 1] + [s[|s| - 1]];
    }
  }

  lemma {:induction false} FilterMultiset<T(!new)>(s: seq<T>, p: T -> bool, x: T)
    ensures multiset(Filter(s, p))[x] == if p(x) then multiset(s)[x] else 0
  {
    if s != [] {
      var init := s[..|s| - 1];
      assert s == init + [s[|s| - 1]];
      FilterMultiset(init, p, x);
    }
  }

  // Rearranging a list does not change how many of its elements satisfy p.
  lemma FilterPermuted<T(!new)>(a: seq<T>, b: seq<T>, p: T -> bool)
    requires multiset(a) == multiset(b)
    ensures multiset(Filter(a, p)) == multiset(Filter(b, p))
    ensures |Filter(a, p)| == |Filter(b, p)|
  {
    forall x: T
      ensures multiset(Filter(a, p))[x] == multiset(Filter(b, p))[x]
    {
      FilterMultiset(a, p, x);
      FilterMultiset(b, p, x);
    }
    assert multiset(Filter(a, p)) == multiset(Filter(b, p));
    assert |multiset(Filter(a, p))| == |Filter(a, p)|;
  }

  lemma CardinalityOfSubset<T>(a: set<T>, b: set<T>)
    requires a <= b
    ensures |a| <= |b|
    ensures |a| == |b| ==> a == b
  {
    assert b == a + (b - a);
    assert |b| == |a| + |b - a|;
  }
}
