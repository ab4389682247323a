/** The creation and deletion expectations of the build controller. */
module Expectations {
  import opened Options
  import opened ApiStore
  import opened ReconcilePlan
  import opened ClusterRuns

  // What the cache answers when asked for a server.
  datatype Lookup = Found | NotFound | ReadError

  datatype GateResult = Open | Closed | Broken

  class GameServerExpectations {
    var underCreation: map<string, set<string>>
    var underDeletion: map<string, set<string>>

    constructor ()
      ensures underCreation == map[] && underDeletion == map[]
    {
      underCreation, underDeletion := map[], map[];
    }

    function Creating(build: string): set<string>
      reads this
    {
      if build in underCreation then underCreation[build] else {}
    }

    function Deleting(build: string): set<string>
      reads this
    {
      if build in underDeletion then underDeletion[build] else {}
    }

    // What is expected of the other builds.
    function OtherDeletions(build: string): map<string, set<string>>
      reads this
    {
      underDeletion - {build}
    }

    function OtherCreations(build: string): map<string, set<string>>
      reads this
    {
      underCreation - {build}
    }

    method AddGameServerToUnderDeletionMap(build: string, name: string)
      modifies this`underDeletion
      ensures underDeletion == old(underDeletion)[build := old(Deleting(build)) + {name}]
      ensures OtherDeletions(build) == old(OtherDeletions(build))
    {
      if build !in underDeletion {
        underDeletion := underDeletion[build := {}];
      }
      underDeletion := underDeletion[build := underDeletion[build] + {name}];
    }

    method AddGameServerToUnderCreationMap(build: string, name: string)
      modifies this`underCreation
      ensures underCreation == old(underCreation)[build := old(Creating(build)) + {name}]
      ensures OtherCreations(build) == old(OtherCreations(build))
    {
      if build !in underCreation {
        underCreation := underCreation[build := {}];
      }
      underCreation := underCreation[build := underCreation[build] + {name}];
    }

    /** Open exactly when the cache misses every server expected to go; names the
        cache misses are forgotten one by one, also when the gate stays closed. */
    method GameServersUnderDeletionWereDeleted(build: string, cache: string -> Lookup) returns (r: GateResult)
      modifies this`underDeletion
      ensures r == Open <==> forall n :: n in old(Deleting(build)) ==> cache(n) == NotFound
      ensures r == Broken ==> exists n :: n in old(Deleting(build)) && cache(n) == ReadError
      ensures r == Closed ==> forall n :: n in old(Deleting(build)) ==> cache(n) != ReadError
      ensures Deleting(build) <= old(Deleting(build))
      ensures forall n :: n in old(Deleting(build)) - Deleting(build) ==> cache(n) == NotFound
      ensures r == Closed ==> forall n :: n in Deleting(build) ==> cache(n) == Found
      ensures r == Open ==> build !in underDeletion
      ensures OtherDeletions(build) == old(OtherDeletions(build))
    {
      if build !in underDeletion {
        return Open;
      }
      ghost var expected := underDeletion[build];
      var unvisited := underDeletion[build];
      while unvisited != {}
        invariant build in underDeletion && build in old(underDeletion)
        invariant unvisited <= underDeletion[build] <= expected
        invariant forall n :: n in underDeletion[build] - unvisited ==> cache(n) == Found
        invariant forall n :: n in expected - underDeletion[build] ==> cache(n) == NotFound
        invariant OtherDeletions(build) == old(OtherDeletions(build))
        decreases |unvisited|
      {
        var k :| k in unvisited;
        match cache(k) {
          case NotFound =>
            underDeletion := underDeletion[build := underDeletion[build] - {k}];
          case ReadError =>
            return Broken;
          case Found =>
        }
        unvisited := unvisited - {k};
      }
      if underDeletion[build] == {} {
        underDeletion := underDeletion - {build};
        return Open;
      }
      r := Closed;
      ghost var some :| some in underDeletion[build];
      assert some in expected && cache(some) == Found;
    }

    /** Open exactly when the cache holds every server expected to appear; the
        first one missing closes the gate, and those found before are forgotten. */
    method GameServersUnderCreationWereCreated(build: string, cache: string -> Lookup) returns (r: GateResult)
      modifies this`underCreation
      ensures r == Open <==> forall n :: n in old(Creating(build)) ==> cache(n) == Found
      ensures r == Closed ==> exists n :: n in old(Creating(build)) && cache(n) == NotFound
      ensures r == Broken ==> exists n :: n in old(Creating(build)) && cache(n) == ReadError
      ensures Creating(build) <= old(Creating(build))
      ensures forall n :: n in old(Creating(build)) - Creating(build) ==> cache(n) == Found
      ensures r == Open ==> build !in underCreation
      ensures OtherCreations(build) == old(OtherCreations(build))
    {
      if build !in underCreation {
        return Open;
      }
      ghost var expected := underCreation[build];
      var unvisited := underCreation[build];
      while unvisited != {}
        invariant build in underCreation && build in old(underCreation)
        invariant unvisited == underCreation[build] <= expected
        invariant forall n :: n in expected - unvisited ==> cache(n) == Found
        invariant OtherCreations(build) == old(OtherCreations(build))
        decreases |unvisited|
      {
        var k :| k in unvisited;
        match cache(k) {
          case NotFound =>
            return Closed;
          case ReadError =>
            return Broken;
          case Found =>
            underCreation := underCreation[build := underCreation[build] - {k}];
        }
        unvisited := unvisited - {k};
      }
      underCreation := underCreation - {build};
      r := Open;
    }
  }

  /** What a gate forgets in one call, the cluster forgets in single steps. */
  lemma {:induction false} ForgetDeletedMany(s: System, gone: set<string>) returns (r: Run)
    requires s.ctl.Idle? && gone <= s.deleting
    requires forall n :: n in gone ==> Cached(s.store, n).None?
    ensures IsRunFrom(s, r) && r.states[|r.events|] == s.(deleting := s.deleting - gone)
    ensures forall i :: 0 <= i < |r.events| ==> r.events[i].ForgetDeleted?
    decreases gone
  {
    if gone == {} {
      r := Run([s], []);
      assert s.deleting - gone == s.deleting;
    } else {
      var n :| n in gone;
      var rest := gone - {n};
      var q := ForgetDeletedMany(s, rest);
      var last := s.(deleting := s.deleting - gone);
      assert s.deleting - rest - {n} == s.deleting - gone;
      r := Run(q.states + [last], q.events + [ForgetDeleted(n)]);
    }
  }

  lemma {:induction false} ForgetCreatedMany(s: System, seen: set<string>) returns (r: Run)
    requires s.ctl.Idle? && seen <= s.creating
    requires forall n :: n in seen ==> Cached(s.store, n).Some?
    ensures IsRunFrom(s, r) && r.states[|r.events|] == s.(creating := s.creating - seen)
    ensures forall i :: 0 <= i < |r.events| ==> r.events[i].ForgetCreated?
    decreases seen
  {
    if seen == {} {
      r := Run([s], []);
      assert s.creating - seen == s.creating;
    } else {
      var n :| n in seen;
      var rest := seen - {n};
      var q := ForgetCreatedMany(s, rest);
      var last := s.(creating := s.creating - seen);
      assert s.creating - rest - {n} == s.creating - seen;
      r := Run(q.states + [last], q.events + [ForgetCreated(n)]);
    }
  }

  /** A reconciliation without a pass, as the cluster sees it: what its gates
      forget is met in the cache, so forgetting it is a run. */
  lemma GatesAreRun(s: System, cache: string -> Lookup, deleting: set<string>, creating: set<string>) returns (r: Run)
    requires s.ctl.Idle? && deleting <= s.deleting && creating <= s.creating
    requires forall n :: cache(n) != ReadError ==> (cache(n) == Found <==> Cached(s.store, n).Some?)
    requires forall n :: n in s.deleting - deleting ==> cache(n) == NotFound
    requires forall n :: n in s.creating - creating ==> cache(n) == Found
    ensures IsRunFrom(s, r) && r.states[|r.events|] == s.(deleting := deleting, creating := creating)
    ensures forall i :: 0 <= i < |r.events| ==> r.events[i].ForgetDeleted? || r.events[i].ForgetCreated?
  {
    var d := ForgetDeletedMany(s, s.deleting - deleting);
    assert s.deleting - (s.deleting - deleting) == deleting;
    var t := s.(deleting := deleting);
    var c := ForgetCreatedMany(t, s.creating - creating);
    assert s.creating - (s.creating - creating) == creating;
    r := Joined(s, d, c);
  }

  lemma Joined(s: System, a: Run, b: Run) returns (r: Run)
    requires IsRunFrom(s, a) && IsRunFrom(a.states[|a.events|], b)
    ensures IsRunFrom(s, r) && r.events == a.events + b.events && r.states[|r.events|] == b.states[|b.events|]
  {
    hide Step;
    r := Run(a.states[..|a.events|] + b.states, a.events + b.events);
  }
}
