/** The build controller's Reconcile, call by call. */
module BuildReconciler {
  import opened Options
  import opened GameServers
  import opened ReconcilePlan
  import opened ScaleDown
  import opened PassTranscripts
  import opened Expectations

  datatype BuildHealth = HealthUnset | BuildHealthy | BuildUnhealthy

  datatype BuildStatus = BuildStatus(
    pending: nat, initializing: nat, standingBy: nat, active: nat, crashesCount: nat, health: BuildHealth)

  datatype Build = Build(
    namespace: string, name: string,
    standingBy: int, max: int, crashesToMarkUnhealthy: Option<int>,
    status: BuildStatus)

  // What reading the build from the cache gives.
  datatype Fetched = Present(build: Build) | Missing | Unreadable

  datatype Result =
    | Skipped          // nothing to do, or a gate is closed
    | Completed        // the pass reached updateStatus
    | ReadFailed       // the cache could not be read
    | PassFailed       // an API call of the pass failed
    | StatusFailed     // the status patch failed

  /** The API server, as far as one pass can tell: any call may fail. */
  class GameServerApi {
    var log: seq<ApiCall>

    method Delete(name: string) returns (ok: bool)
      modifies this
      ensures log == old(log) + [Remove(name, ok)]
    {
      ok := *;
      log := log + [Remove(name, ok)];
    }

    method DeleteGameServer(g: GameServer) returns (outcome: Outcome)
      modifies this
      ensures log == old(log) + [RemoveIf(g, outcome)]
    {
      outcome := *;
      log := log + [RemoveIf(g, outcome)];
    }

    method Create() returns (name: string, ok: bool)
      modifies this
      ensures log == old(log) + [Add(name, ok)]
    {
      name, ok := *, *;
      log := log + [Add(name, ok)];
    }
  }

  function CrashKey(namespace: string, name: string): string {
    namespace + "/" + name
  }

  predicate StatusDiffers(s: BuildStatus, c: Counts) {
    s.pending != c.pending || s.initializing != c.initializing || s.active != c.active ||
    s.standingBy != c.standingBy || c.crashes > 0
  }

  lemma BrokenSweepIsPass(list: seq<GameServer>, spec: BuildSpec, calls: seq<ApiCall>)
    requires BrokenSweep(list, calls)
    ensures IsPass(list, spec, calls, false) && AddedNames(calls) == {}
  {
    var sorted := Arrangement(list);
    var plan := MakePlan(list, sorted, spec);
    var init := calls[..|calls| - 1];
    SweepFails(plan, init);
    assert calls == init + [Remove(plan.doomed[|init|].name, false)];
  }

  lemma SweptWhole(list: seq<GameServer>, counts: Counts, sweep: seq<ApiCall>)
    requires Swept(list, |list|, counts, sweep)
    ensures counts == CountsOf(list) && IsSweep(Filter(list, IsDoomed), sweep) && |sweep| == |Filter(list, IsDoomed)|
    ensures AddedNames(sweep) == {}
  {
    assert list[..|list|] == list;
  }

  // The scale-down calls of a pass, which makes none when its budget is empty.
  ghost predicate TrimOf(sorted: seq<GameServer>, budget: int, trim: seq<ApiCall>) {
    IsTrim(Chosen(sorted, budget), trim) && |trim| == |Chosen(sorted, budget)|
  }

  // Scale-down and creation as a pass makes them; a failed scale-down is the end.
  ghost predicate Adjusted(sorted: seq<GameServer>, spec: BuildSpec, counts: Counts,
                           trim: seq<ApiCall>, grow: seq<ApiCall>, ok: bool) {
    var want := CreateBudget(counts.NonActive(), counts.active, spec);
    && TrimOf(sorted, DeleteBudget(counts.NonActive(), counts.active, spec), trim)
    && (if TrimFailed(trim) then !ok && grow == []
        else IsGrow(want, grow) && |grow| == want && ok == !GrowFailed(grow))
  }

  // The calls of a pass by phase, and the order its scale-down used.
  datatype Parts = Parts(sorted: seq<GameServer>, sweep: seq<ApiCall>, trim: seq<ApiCall>, grow: seq<ApiCall>) {
    function Calls(): seq<ApiCall> {
      sweep + (trim + grow)
    }
  }

  ghost predicate PassMade(list: seq<GameServer>, spec: BuildSpec, counts: Counts, parts: Parts, ok: bool) {
    || (!ok && BrokenSweep(list, parts.sweep) && parts.trim + parts.grow == [])
    || (&& SortedByState(parts.sorted, list)
        && Swept(list, |list|, counts, parts.sweep)
        && Adjusted(parts.sorted, spec, counts, parts.trim, parts.grow, ok))
  }

  lemma PassMadeIsPass(list: seq<GameServer>, spec: BuildSpec, counts: Counts, parts: Parts, ok: bool)
    requires PassMade(list, spec, counts, parts, ok)
    ensures IsPass(list, spec, parts.Calls(), ok)
    ensures ok ==> counts == CountsOf(list)
  {
    if !ok && BrokenSweep(list, parts.sweep) && parts.trim + parts.grow == [] {
      assert parts.Calls() == parts.sweep;
      BrokenSweepIsPass(list, spec, parts.sweep);
    } else {
      AdjustedIsPass(list, spec, counts, parts, ok);
      SweptWhole(list, counts, parts.sweep);
    }
  }

  // Calls that lead through a plan for the list make a pass over it.
  lemma FollowsToPass(list: seq<GameServer>, spec: BuildSpec, sorted: seq<GameServer>, calls: seq<ApiCall>, ok: bool)
    requires SortedByState(sorted, list)
    requires IsPassOf(MakePlan(list, sorted, spec), calls, ok)
    ensures IsPass(list, spec, calls, ok)
  {
    hide SortedByState, IsPassOf, MakePlan;
  }

  // The plan of the pass, as its phases went through it.
  lemma PlanOfParts(list: seq<GameServer>, spec: BuildSpec, counts: Counts, parts: Parts, ok: bool)
    requires Swept(list, |list|, counts, parts.sweep)
    requires Adjusted(parts.sorted, spec, counts, parts.trim, parts.grow, ok)
    ensures var plan := MakePlan(list, parts.sorted, spec);
            && IsSweep(plan.doomed, parts.sweep) && |parts.sweep| == |plan.doomed|
            && IsTrim(plan.targets, parts.trim) && |parts.trim| == |plan.targets|
            && (if TrimFailed(parts.trim) then !ok && parts.grow == []
                else IsGrow(plan.want, parts.grow) && |parts.grow| == plan.want && ok == !GrowFailed(parts.grow))
  {
    SweptWhole(list, counts, parts.sweep);
    hide Swept, CountsOf, Filter, Chosen, DeleteBudget, CreateBudget, IsSweep, IsTrim, IsGrow, TrimFailed, GrowFailed;
  }

  lemma PartsEnd(plan: Plan, parts: Parts, ok: bool)
    requires IsSweep(plan.doomed, parts.sweep) && |parts.sweep| == |plan.doomed|
    requires IsTrim(plan.targets, parts.trim) && |parts.trim| == |plan.targets|
    requires if TrimFailed(parts.trim) then !ok && parts.grow == []
             else IsGrow(plan.want, parts.grow) && |parts.grow| == plan.want && ok == !GrowFailed(parts.grow)
    ensures IsPassOf(plan, parts.Calls(), ok)
  {
    hide IsSweep, IsTrim, IsGrow, TrimFailed, GrowFailed, Follow, Start;
    if TrimFailed(parts.trim) {
      TrimEnds(plan, parts.sweep, parts.trim);
      assert parts.trim + parts.grow == parts.trim;
    } else {
      GrowEnds(plan, parts.sweep, parts.trim, parts.grow);
      Reassociate(parts.sweep, parts.trim, parts.grow);
    }
  }

  lemma AdjustedIsPass(list: seq<GameServer>, spec: BuildSpec, counts: Counts, parts: Parts, ok: bool)
    requires SortedByState(parts.sorted, list) && Swept(list, |list|, counts, parts.sweep)
    requires Adjusted(parts.sorted, spec, counts, parts.trim, parts.grow, ok)
    ensures IsPass(list, spec, parts.Calls(), ok)
  {
    hide SortedByState, Swept, Adjusted, IsPass, Follow, MakePlan, IsSweep, IsTrim, IsGrow, TrimFailed, GrowFailed;
    hide IsPassOf;
    PlanOfParts(list, spec, counts, parts, ok);
    PartsEnd(MakePlan(list, parts.sorted, spec), parts, ok);
    FollowsToPass(list, spec, parts.sorted, parts.Calls(), ok);
  }

  function HealthFor(build: Build, crashes: nat): BuildHealth {
    if build.crashesToMarkUnhealthy.Some? && crashes >= build.crashesToMarkUnhealthy.value
    then BuildUnhealthy
    else BuildHealthy
  }

  // A build that has already crashed too often is left alone.
  predicate IsStopped(build: Build) {
    && build.status.health == BuildUnhealthy
    && build.crashesToMarkUnhealthy.Some?
    && build.status.crashesCount >= build.crashesToMarkUnhealthy.value
  }

  // The crashes tallied under a key so far.
  function CrashesIn(tally: map<string, nat>, key: string): nat {
    if key in tally then tally[key] else 0
  }

  /** What the status update does to the crash tallies, and the patch it sends. */
  ghost predicate StatusUpdated(build: Build, counts: Counts, before: map<string, nat>, after: map<string, nat>,
                                patch: Option<BuildStatus>) {
    if StatusDiffers(build.status, counts) then
      var key := CrashKey(build.namespace, build.name);
      && after == before[key := CrashesIn(before, key) + counts.crashes]
      && patch == Some(BuildStatus(counts.pending, counts.initializing, counts.standingBy, counts.active,
                                   after[key], HealthFor(build, after[key])))
    else
      after == before && patch == None
  }

  // The four numbers of a status are those of the servers in the list.
  ghost predicate TellsNumbers(status: BuildStatus, items: seq<GameServer>) {
    && status.pending == |Filter(items, IsPending)|
    && status.initializing == |Filter(items, IsHealthyInitializing)|
    && status.standingBy == |Filter(items, IsHealthyStandingBy)|
    && status.active == |Filter(items, IsHealthyActive)|
  }

  // As many crashes as the user of the build lets pass, or more.
  predicate ReachesLimit(build: Build, status: BuildStatus) {
    build.crashesToMarkUnhealthy.Some? && build.crashesToMarkUnhealthy.value <= status.crashesCount
  }

  /** After an update the status tells the true numbers of the list, patched or
      not; it is patched exactly if it did not tell them or a server has crashed.
      The tally of the build, and no other, grows by the crashed and unhealthy
      servers; the patch carries it, and marks the build unhealthy exactly if the
      user set a limit that it reaches. */
  lemma StatusTellsTruth(build: Build, items: seq<GameServer>, before: map<string, nat>, after: map<string, nat>,
                         patch: Option<BuildStatus>)
    requires StatusUpdated(build, CountsOf(items), before, after, patch)
    ensures TellsNumbers(if patch.Some? then patch.value else build.status, items)
    ensures patch == None <==> TellsNumbers(build.status, items) && |Filter(items, IsBroken)| == 0
    ensures var key := CrashKey(build.namespace, build.name);
            && CrashesIn(after, key) == CrashesIn(before, key) + |Filter(items, IsBroken)|
            && (forall k :: k != key ==> CrashesIn(after, k) == CrashesIn(before, k))
            && (patch.Some? ==>
                  && patch.value.crashesCount == CrashesIn(after, key)
                  && patch.value.health == if ReachesLimit(build, patch.value) then BuildUnhealthy else BuildHealthy)
  {
    CountersByState(items);
    hide Filter, CountsOf, CrashKey;
  }

  /** A build stands still exactly if its limit was reached when the status was
      patched and is still: with a raised or removed limit it goes on. */
  lemma StopsExactly(build: Build, items: seq<GameServer>, before: map<string, nat>, after: map<string, nat>,
                     patch: Option<BuildStatus>, limit: Option<int>)
    requires StatusUpdated(build, CountsOf(items), before, after, patch) && patch.Some?
    ensures var later := build.(status := patch.value, crashesToMarkUnhealthy := limit);
            IsStopped(later) <==> ReachesLimit(build, patch.value) && ReachesLimit(later, patch.value)
  {
    hide CountsOf;
  }

  lemma Reassociate(a: seq<ApiCall>, b: seq<ApiCall>, c: seq<ApiCall>)
    ensures a + b + c == a + (b + c)
  {
  }

  class GameServerBuildReconciler {
    const api: GameServerApi
    const expectations: GameServerExpectations
    const addLimit: int
    const deleteLimit: int
    var crashesPerBuild: map<string, nat>

    constructor (api: GameServerApi, expectations: GameServerExpectations, addLimit: int, deleteLimit: int)
      ensures this.api == api && this.expectations == expectations
      ensures this.addLimit == addLimit && this.deleteLimit == deleteLimit
      ensures crashesPerBuild == map[]
    {
      this.api, this.expectations := api, expectations;
      this.addLimit, this.deleteLimit := addLimit, deleteLimit;
      crashesPerBuild := map[];
    }

    function Spec(build: Build): BuildSpec {
      BuildSpec(build.standingBy, build.max, addLimit, deleteLimit)
    }

    function Recorded(key: string): nat
      reads this
    {
      CrashesIn(crashesPerBuild, key)
    }

    // What is expected of the other builds stays.
    twostate predicate OthersKept(build: string)
      reads expectations
    {
      && expectations.OtherDeletions(build) == old(expectations.OtherDeletions(build))
      && expectations.OtherCreations(build) == old(expectations.OtherCreations(build))
    }

    // Of this build's expectations only some are forgotten which the cache
    // shows to be met.
    twostate predicate Forgets(build: string, cache: string -> Lookup)
      reads expectations
    {
      && expectations.Deleting(build) <= old(expectations.Deleting(build))
      && expectations.Creating(build) <= old(expectations.Creating(build))
      && (forall n :: n in old(expectations.Deleting(build)) - expectations.Deleting(build) ==> cache(n) == NotFound)
      && (forall n :: n in old(expectations.Creating(build)) - expectations.Creating(build) ==> cache(n) == Found)
    }

    // Unconditional delete, remembered if it succeeds.
    method Remove(build: string, gs: GameServer) returns (ok: bool)
      modifies api, expectations`underDeletion
      ensures api.log == old(api.log) + [ApiCall.Remove(gs.name, ok)]
      ensures expectations.Deleting(build) == old(expectations.Deleting(build)) + if ok then {gs.name} else {}
      ensures expectations.OtherDeletions(build) == old(expectations.OtherDeletions(build))
    {
      ok := api.Delete(gs.name);
      if ok {
        expectations.AddGameServerToUnderDeletionMap(build, gs.name);
      }
    }

    // One turn of the counting loop.
    method SweepOne(build: string, gs: GameServer, counts: Counts, ghost list: seq<GameServer>, ghost i: nat,
                    ghost base: seq<ApiCall>, ghost calls: seq<ApiCall>) returns (counts': Counts, ok: bool, ghost calls': seq<ApiCall>)
      requires Swept(list, i, counts, calls) && i < |list| && gs == list[i]
      requires api.log == base + calls && expectations.Deleting(build) == RemovedNames(calls)
      modifies api, expectations`underDeletion
      ensures api.log == base + calls' && expectations.Deleting(build) == RemovedNames(calls')
      ensures if ok then Swept(list, i + 1, counts', calls') else BrokenSweep(list, calls')
      ensures expectations.OtherDeletions(build) == old(expectations.OtherDeletions(build))
    {
      counts', ok, calls' := Tally(counts, gs), true, calls;
      if IsDoomed(gs) {
        ok := Remove(build, gs);
        calls' := calls + [ApiCall.Remove(gs.name, ok)];
        NamesStep(calls, ApiCall.Remove(gs.name, ok));
      }
      SweptStep(list, i, counts, calls, ok);
    }

    // The counting loop, which also deletes what it finds finished or broken.
    method Sweep(build: string, items: array<GameServer>) returns (counts: Counts, ok: bool, ghost calls: seq<ApiCall>)
      requires expectations.Deleting(build) == {}
      modifies api, expectations`underDeletion
      ensures api.log == old(api.log) + calls
      ensures expectations.Deleting(build) == RemovedNames(calls)
      ensures if ok then Swept(items[..], items.Length, counts, calls) else BrokenSweep(items[..], calls)
      ensures expectations.OtherDeletions(build) == old(expectations.OtherDeletions(build))
    {
      counts, calls := Counts(0, 0, 0, 0, 0), [];
      ghost var list := items[..];
      SweptStart(list);
      var i := 0;
      while i < items.Length
        invariant i <= items.Length && items[..] == list
        invariant Swept(list, i, counts, calls)
        invariant api.log == old(api.log) + calls && expectations.Deleting(build) == RemovedNames(calls)
        invariant expectations.OtherDeletions(build) == old(expectations.OtherDeletions(build))
      {
        counts, ok, calls := SweepOne(build, items[i], counts, list, i, old(api.log), calls);
        if !ok {
          return;
        }
        i := i + 1;
      }
      ok := true;
    }

    // Delete with the version the list showed; a conflict means the server has
    // been updated since, and is left alone.
    method RemoveIf(build: string, gs: GameServer) returns (outcome: Outcome)
      modifies api, expectations`underDeletion
      ensures api.log == old(api.log) + [ApiCall.RemoveIf(gs, outcome)]
      ensures expectations.Deleting(build) == old(expectations.Deleting(build)) + if outcome == Ok then {gs.name} else {}
      ensures expectations.OtherDeletions(build) == old(expectations.OtherDeletions(build))
    {
      outcome := api.DeleteGameServer(gs);
      if outcome == Ok {
        expectations.AddGameServerToUnderDeletionMap(build, gs.name);
      }
    }

    method TrimOne(build: string, gs: GameServer, failed: bool, ghost sorted: seq<GameServer>, ghost i: nat,
                   ghost base: seq<ApiCall>, ghost calls: seq<ApiCall>, ghost gone: set<string>)
      returns (failed': bool, ghost calls': seq<ApiCall>)
      requires Trimming(sorted, i, calls, failed) && i < |sorted| && gs == sorted[i] && IsTrimmable(gs)
      requires api.log == base + calls && expectations.Deleting(build) == gone + RemovedNames(calls)
      modifies api, expectations`underDeletion
      ensures Trimming(sorted, i + 1, calls', failed') && |calls'| == |calls| + 1
      ensures api.log == base + calls' && expectations.Deleting(build) == gone + RemovedNames(calls')
      ensures expectations.OtherDeletions(build) == old(expectations.OtherDeletions(build))
    {
      var outcome := RemoveIf(build, gs);
      failed' := failed || outcome == Failed;
      calls' := calls + [ApiCall.RemoveIf(gs, outcome)];
      NamesStep(calls, ApiCall.RemoveIf(gs, outcome));
      TrimmingStep(sorted, i, calls, failed, outcome);
    }

    method DeleteNonActiveGameServers(build: string, items: array<GameServer>, total: int)
      returns (ok: bool, ghost calls: seq<ApiCall>)
      requires 0 < total
      modifies items, api, expectations`underDeletion
      ensures SortedByState(items[..], old(items[..]))
      ensures IsTrim(Chosen(items[..], total), calls) && |calls| == |Chosen(items[..], total)|
      ensures ok == !TrimFailed(calls) && AddedNames(calls) == {}
      ensures api.log == old(api.log) + calls
      ensures expectations.Deleting(build) == old(expectations.Deleting(build)) + RemovedNames(calls)
      ensures expectations.OtherDeletions(build) == old(expectations.OtherDeletions(build))
    {
      SortByState(items);
      ghost var sorted := items[..];
      TrimmingStart(sorted);
      var failed, deletionCalls, i := false, 0, 0;
      calls := [];
      while i < items.Length && deletionCalls < total
        invariant i <= items.Length && items[..] == sorted && deletionCalls == |calls| <= total
        invariant Trimming(sorted, i, calls, failed)
        invariant api.log == old(api.log) + calls
        invariant expectations.Deleting(build) == old(expectations.Deleting(build)) + RemovedNames(calls)
        invariant expectations.OtherDeletions(build) == old(expectations.OtherDeletions(build))
      {
        if IsTrimmable(items[i]) {
          deletionCalls := deletionCalls + 1;
          failed, calls := TrimOne(build, items[i], failed, sorted, i, old(api.log), calls,
                                   old(expectations.Deleting(build)));
        } else {
          TrimmingStep(sorted, i, calls, failed, Ok);
        }
        i := i + 1;
      }
      TrimmingDone(sorted, i, calls, failed, total);
      ok := !failed;
    }

    // The creation loop.
    method CreateMissing(build: string, nonActive: nat, active: nat, spec: BuildSpec)
      returns (ok: bool, ghost calls: seq<ApiCall>)
      modifies api, expectations`underCreation
      ensures IsGrow(CreateBudget(nonActive, active, spec), calls) && |calls| == CreateBudget(nonActive, active, spec)
      ensures ok == !GrowFailed(calls) && RemovedNames(calls) == {}
      ensures api.log == old(api.log) + calls
      ensures expectations.Creating(build) == old(expectations.Creating(build)) + AddedNames(calls)
      ensures expectations.OtherCreations(build) == old(expectations.OtherCreations(build))
    {
      ok, calls := true, [];
      var i := 0;
      while i < spec.standingBy - nonActive && i + nonActive + active < spec.max && i < spec.addLimit
        invariant i == |calls| <= CreateBudget(nonActive, active, spec)
        invariant IsGrow(CreateBudget(nonActive, active, spec), calls)
        invariant ok == !GrowFailed(calls) && RemovedNames(calls) == {}
        invariant api.log == old(api.log) + calls
        invariant expectations.Creating(build) == old(expectations.Creating(build)) + AddedNames(calls)
        invariant expectations.OtherCreations(build) == old(expectations.OtherCreations(build))
        decreases spec.addLimit - i
      {
        var name, created := api.Create();
        if created {
          expectations.AddGameServerToUnderCreationMap(build, name);
        }
        NamesStep(calls, Add(name, created));
        GrowFailedLast(calls, Add(name, created));
        calls := calls + [Add(name, created)];
        ok := ok && created;
        i := i + 1;
      }
    }

    /** Patches the status when a count changed or servers crashed. The total it
        writes is the crash tally of this controller, which the patch may lose
        but the tally keeps. */
    method UpdateStatus(build: Build, counts: Counts) returns (ok: bool, patch: Option<BuildStatus>)
      modifies this`crashesPerBuild
      ensures StatusUpdated(build, counts, old(crashesPerBuild), crashesPerBuild, patch)
      ensures patch == None ==> ok
    {
      ok, patch := true, None;
      if StatusDiffers(build.status, counts) {
        var existing := GetExistingCrashes(CrashKey(build.namespace, build.name), counts.crashes);
        var total := existing + counts.crashes;
        patch := Some(BuildStatus(counts.pending, counts.initializing, counts.standingBy, counts.active,
                                  total, HealthFor(build, total)));
        ok := *;
      }
    }

    // LoadOrStore: the first tally of a build starts its entry.
    method GetExistingCrashes(key: string, newCrashes: nat) returns (existing: nat)
      modifies this`crashesPerBuild
      ensures existing == old(Recorded(key))
      ensures crashesPerBuild == old(crashesPerBuild)[key := existing + newCrashes]
    {
      existing := 0;
      if key in crashesPerBuild {
        existing := crashesPerBuild[key];
        crashesPerBuild := crashesPerBuild[key := newCrashes + existing];
      } else {
        crashesPerBuild := crashesPerBuild[key := newCrashes];
      }
    }

    // Scale-down, if there is anything to scale down.
    method TrimIfNeeded(build: string, items: array<GameServer>, counts: Counts, spec: BuildSpec)
      returns (ok: bool, ghost sorted: seq<GameServer>, ghost trim: seq<ApiCall>)
      modifies items, api, expectations`underDeletion
      ensures var budget := DeleteBudget(counts.NonActive(), counts.active, spec);
              SortedByState(sorted, old(items[..])) && TrimOf(sorted, budget, trim)
      ensures ok == !TrimFailed(trim) && AddedNames(trim) == {}
      ensures api.log == old(api.log) + trim
      ensures expectations.Deleting(build) == old(expectations.Deleting(build)) + RemovedNames(trim)
      ensures expectations.OtherDeletions(build) == old(expectations.OtherDeletions(build))
    {
      ok, trim := true, [];
      var total := DeleteBudget(counts.NonActive(), counts.active, spec);
      if total > 0 {
        ok, trim := DeleteNonActiveGameServers(build, items, total);
        sorted := items[..];
      } else {
        sorted := Arrangement(items[..]);
      }
    }

    // Scale-down and creation.
    method Adjust(build: string, items: array<GameServer>, spec: BuildSpec, counts: Counts)
      returns (ok: bool, ghost sorted: seq<GameServer>, ghost trim: seq<ApiCall>, ghost grow: seq<ApiCall>)
      requires expectations.Creating(build) == {}
      modifies items, api, expectations
      ensures SortedByState(sorted, old(items[..]))
      ensures Adjusted(sorted, spec, counts, trim, grow, ok)
      ensures api.log == old(api.log) + (trim + grow)
      ensures expectations.Deleting(build) == old(expectations.Deleting(build)) + RemovedNames(trim + grow)
      ensures expectations.Creating(build) == AddedNames(trim + grow)
      ensures OthersKept(build)
    {
      grow := [];
      ok, sorted, trim := TrimIfNeeded(build, items, counts, spec);
      if ok {
        ok, grow := CreateMissing(build, counts.NonActive(), counts.active, spec);
      }
      Reassociate(old(api.log), trim, grow);
      NamesJoin(trim, grow);
    }

    // Both gates would open.
    ghost predicate GatesOpen(build: string, cache: string -> Lookup)
      reads expectations
    {
      && (forall n :: n in expectations.Deleting(build) ==> cache(n) == NotFound)
      && (forall n :: n in expectations.Creating(build) ==> cache(n) == Found)
    }

    // A server that should be gone is still there, or a new one is not there yet.
    ghost predicate IsHeldUp(build: string, cache: string -> Lookup)
      reads expectations
    {
      || (exists n :: n in expectations.Deleting(build) && cache(n) == Found)
      || (exists n :: n in expectations.Creating(build) && cache(n) == NotFound)
    }

    // The cache cannot be read for one of the expected servers.
    ghost predicate CannotTell(build: string, cache: string -> Lookup)
      reads expectations
    {
      exists n :: n in expectations.Deleting(build) + expectations.Creating(build) && cache(n) == ReadError
    }

    /** One reconciliation. It makes API calls only when both gates open, and then
        exactly those of a pass over the list; the expectations of the build end
        as the names those calls removed and created; without a pass they lose
        only what the cache shows to be met, and those of other builds never
        change. The crash tally moves only when the whole pass succeeded. */
    method Reconcile(fetched: Fetched, cache: string -> Lookup, listed: Option<array<GameServer>>)
      returns (result: Result, patch: Option<BuildStatus>)
      modifies this`crashesPerBuild, api, expectations, if listed.Some? then {listed.value} else {}
      ensures old(api.log) <= api.log
      ensures !fetched.Present? || IsStopped(fetched.build) ==>
        result == (if fetched == Unreadable then ReadFailed else Skipped) && api.log == old(api.log)
      ensures fetched.Present? && !IsStopped(fetched.build) && result == Skipped ==>
        old(IsHeldUp(fetched.build.name, cache))
      ensures fetched.Present? && result == ReadFailed ==> listed == None || old(CannotTell(fetched.build.name, cache))
      ensures result == StatusFailed ==> patch.Some?
      ensures fetched == Missing ==> crashesPerBuild == old(crashesPerBuild) - {CrashKey("", "")}
      ensures fetched.Present? && result in {Skipped, ReadFailed, PassFailed} ==>
        crashesPerBuild == old(crashesPerBuild) && patch == None
      ensures result in {Skipped, ReadFailed} ==> api.log == old(api.log)
      ensures !fetched.Present? || IsStopped(fetched.build) ==>
        && expectations.underDeletion == old(expectations.underDeletion)
        && expectations.underCreation == old(expectations.underCreation)
      ensures fetched.Present? ==>
        && OthersKept(fetched.build.name)
        && (result in {Skipped, ReadFailed} ==> Forgets(fetched.build.name, cache))
      ensures fetched.Present? && !IsStopped(fetched.build) ==>
        (result in {Completed, StatusFailed, PassFailed} <==>
           old(GatesOpen(fetched.build.name, cache)) && listed.Some?)
      ensures result in {Completed, StatusFailed, PassFailed} ==>
        && fetched.Present? && listed.Some?
        && var calls, name, items := api.log[|old(api.log)|..], fetched.build.name, old(listed.value[..]);
           && IsPass(items, BuildSpec(fetched.build.standingBy, fetched.build.max, addLimit, deleteLimit), calls,
                     result != PassFailed)
           && expectations.Deleting(name) == RemovedNames(calls)
           && expectations.Creating(name) == AddedNames(calls)
           && (result != PassFailed ==>
                 StatusUpdated(fetched.build, CountsOf(items), old(crashesPerBuild), crashesPerBuild, patch))
    {
      result, patch := Skipped, None;
      match fetched {
        case Unreadable =>
          result := ReadFailed;
        case Missing =>
          crashesPerBuild := crashesPerBuild - {CrashKey("", "")};
        case Present(build) =>
          if !IsStopped(build) {
            ghost var calls;
            result, patch, calls := ReconcileBuild(build, cache, listed);
            assert api.log[|old(api.log)|..] == calls;
          }
      }
    }

    // Both gates, deletions first.
    method PassGates(build: string, cache: string -> Lookup) returns (gate: GateResult)
      modifies expectations
      ensures gate == Open <==> old(GatesOpen(build, cache))
      ensures gate == Open ==> expectations.Deleting(build) == {} && expectations.Creating(build) == {}
      ensures gate == Closed ==> old(IsHeldUp(build, cache))
      ensures gate == Broken ==> old(CannotTell(build, cache))
      ensures Forgets(build, cache) && OthersKept(build)
    {
      gate := expectations.GameServersUnderDeletionWereDeleted(build, cache);
      if gate == Open {
        gate := expectations.GameServersUnderCreationWereCreated(build, cache);
      }
    }

    method ReconcileBuild(build: Build, cache: string -> Lookup, listed: Option<array<GameServer>>)
      returns (result: Result, patch: Option<BuildStatus>, ghost calls: seq<ApiCall>)
      modifies this`crashesPerBuild, api, expectations, if listed.Some? then {listed.value} else {}
      ensures api.log == old(api.log) + calls
      ensures result in {Completed, StatusFailed, PassFailed} <==> old(GatesOpen(build.name, cache)) && listed.Some?
      ensures result in {Skipped, ReadFailed} ==> calls == [] && Forgets(build.name, cache)
      ensures result == Skipped ==> old(IsHeldUp(build.name, cache))
      ensures result == ReadFailed ==> listed == None || old(CannotTell(build.name, cache))
      ensures result == StatusFailed ==> patch.Some?
      ensures OthersKept(build.name)
      ensures result in {Skipped, ReadFailed, PassFailed} ==> crashesPerBuild == old(crashesPerBuild) && patch == None
      ensures result in {Completed, StatusFailed, PassFailed} ==>
        && listed.Some?
        && var items := old(listed.value[..]);
           && IsPass(items, Spec(build), calls, result != PassFailed)
           && expectations.Deleting(build.name) == RemovedNames(calls)
           && expectations.Creating(build.name) == AddedNames(calls)
           && (result != PassFailed ==>
                 StatusUpdated(build, CountsOf(items), old(crashesPerBuild), crashesPerBuild, patch))
    {
      patch, calls := None, [];
      var gate := PassGates(build.name, cache);
      if gate != Open || listed == None {
        result := if gate == Closed then Skipped else ReadFailed;
        return;
      }
      result, patch, calls := PassAndStatus(build, listed.value);
    }

    // The calls after both gates.
    method RunPass(build: string, items: array<GameServer>, spec: BuildSpec)
      returns (ok: bool, counts: Counts, ghost parts: Parts)
      requires expectations.Deleting(build) == {} && expectations.Creating(build) == {}
      modifies api, expectations, items
      ensures PassMade(old(items[..]), spec, counts, parts, ok)
      ensures api.log == old(api.log) + parts.Calls()
      ensures expectations.Deleting(build) == RemovedNames(parts.Calls())
      ensures expectations.Creating(build) == AddedNames(parts.Calls())
      ensures OthersKept(build)
    {
      ghost var list := items[..];
      ghost var sweep, sorted, trim, grow;
      counts, ok, sweep := Sweep(build, items);
      parts := Parts(list, sweep, [], []);
      if ok {
        SweptWhole(list, counts, sweep);
        ok, sorted, trim, grow := Adjust(build, items, spec, counts);
        parts := Parts(sorted, sweep, trim, grow);
      }
      Reassociate(old(api.log), sweep, parts.trim + parts.grow);
      NamesJoin(sweep, parts.trim + parts.grow);
    }

    // The pass, and the status it leads to.
    method PassAndStatus(build: Build, items: array<GameServer>)
      returns (result: Result, patch: Option<BuildStatus>, ghost calls: seq<ApiCall>)
      requires expectations.Deleting(build.name) == {} && expectations.Creating(build.name) == {}
      modifies this`crashesPerBuild, api, expectations, items
      ensures api.log == old(api.log) + calls
      ensures result in {Completed, StatusFailed, PassFailed} && (result == StatusFailed ==> patch.Some?)
      ensures IsPass(old(items[..]), Spec(build), calls, result != PassFailed)
      ensures expectations.Deleting(build.name) == RemovedNames(calls)
      ensures expectations.Creating(build.name) == AddedNames(calls)
      ensures OthersKept(build.name)
      ensures if result == PassFailed then crashesPerBuild == old(crashesPerBuild) && patch == None
              else StatusUpdated(build, CountsOf(old(items[..])), old(crashesPerBuild), crashesPerBuild, patch)
    {
      ghost var list := items[..];
      result, patch := PassFailed, None;
      var ok, counts;
      ghost var parts;
      ok, counts, parts := RunPass(build.name, items, Spec(build));
      calls := parts.Calls();
      if ok {
        ok, patch := UpdateStatus(build, counts);
        result := if ok then Completed else StatusFailed;
      }
      PassMadeIsPass(list, Spec(build), counts, parts, result != PassFailed);
    }
  }

  /** The key erased for a missing build is that of a build without namespace and
      name, so a real build's crash tally survives its deletion. */
  lemma MissingBuildKeepsTally(tally: map<string, nat>, namespace: string, name: string)
    requires CrashKey(namespace, name) in tally
    ensures CrashKey(namespace, name) in tally - {CrashKey("", "")} <==> namespace != "" || name != ""
  {
    assert |CrashKey(namespace, name)| == |namespace| + 1 + |name|;
  }
}
