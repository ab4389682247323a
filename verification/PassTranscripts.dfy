/** The API calls of a pass, read as a whole: a transcript follows a plan when
    each call is one the pass would make next. */
module PassTranscripts {
  import opened Options
  import opened GameServers
  import opened ReconcilePlan

  function Follow(c: Ctl, calls: seq<ApiCall>): Option<Ctl> {
    if calls == [] then Some(c)
    else
      match Follow(c, calls[..|calls| - 1])
      case None => None
      case Some(d) =>
        var last := calls[|calls| - 1];
        if Expects(d, last) then Some(After(d, last)) else None
  }

  function Start(plan: Plan): Ctl {
    Running(plan, 0, 0, 0, false)
  }

  lemma {:induction false} FollowOn(c: Ctl, calls: seq<ApiCall>, more: seq<ApiCall>)
    requires Follow(c, calls).Some?
    ensures Follow(c, calls + more) == Follow(Follow(c, calls).value, more)
  {
    if more == [] {
      assert calls + more == calls;
    } else {
      var init := more[..|more| - 1];
      assert (calls + more)[..|calls + more| - 1] == calls + init;
      FollowOn(c, calls, init);
    }
  }

  // The sweep stops at its first failure.
  predicate IsSweep(doomed: seq<GameServer>, calls: seq<ApiCall>) {
    && |calls| <= |doomed|
    && (forall i :: 0 <= i < |calls| ==> calls[i] == Remove(doomed[i].name, true))
  }

  // Scale-down and creation make all their calls, whatever fails.
  predicate IsTrim(targets: seq<GameServer>, calls: seq<ApiCall>) {
    && |calls| <= |targets|
    && (forall i :: 0 <= i < |calls| ==> calls[i].RemoveIf? && calls[i].target == targets[i])
  }

  predicate IsGrow(want: nat, calls: seq<ApiCall>) {
    |calls| <= want && (forall i :: 0 <= i < |calls| ==> calls[i].Add?)
  }

  predicate TrimFailed(calls: seq<ApiCall>) {
    exists i :: 0 <= i < |calls| && calls[i].RemoveIf? && calls[i].outcome == Failed
  }

  predicate GrowFailed(calls: seq<ApiCall>) {
    exists i :: 0 <= i < |calls| && calls[i].Add? && !calls[i].ok
  }

  lemma {:induction false} SweepFollows(plan: Plan, calls: seq<ApiCall>)
    requires IsSweep(plan.doomed, calls)
    ensures Follow(Start(plan), calls) == Some(Start(plan).(swept := |calls|))
  {
    if calls != [] {
      SweepFollows(plan, calls[..|calls| - 1]);
    }
  }

  lemma TrimLonger(targets: seq<GameServer>, calls: seq<ApiCall>, target: GameServer, outcome: Outcome)
    requires IsTrim(targets, calls) && |calls| == |targets|
    ensures IsTrim(targets + [target], calls + [RemoveIf(target, outcome)])
  {
  }

  lemma TrimFailedLast(calls: seq<ApiCall>, last: ApiCall)
    ensures TrimFailed(calls + [last]) <==> TrimFailed(calls) || (last.RemoveIf? && last.outcome == Failed)
  {
    var all := calls + [last];
    assert forall k :: 0 <= k < |calls| ==> all[k] == calls[k];
    assert all[|calls|] == last;
  }

  lemma {:induction false} TrimFollows(c: Ctl, calls: seq<ApiCall>)
    requires c.Running? && c.swept == |c.plan.doomed| && c.trimmed == 0 && !c.failed
    requires IsTrim(c.plan.targets, calls)
    ensures Follow(c, calls) == Some(c.(trimmed := |calls|, failed := TrimFailed(calls)))
  {
    if calls != [] {
      var init := calls[..|calls| - 1];
      TrimFollows(c, init);
      TrimFailedLast(init, calls[|calls| - 1]);
      assert calls == init + [calls[|calls| - 1]];
      hide TrimFailed;
    }
  }

  lemma GrowFailedLast(calls: seq<ApiCall>, last: ApiCall)
    ensures GrowFailed(calls + [last]) <==> GrowFailed(calls) || (last.Add? && !last.ok)
  {
    var all := calls + [last];
    assert forall k :: 0 <= k < |calls| ==> all[k] == calls[k];
    assert all[|calls|] == last;
  }

  lemma {:induction false} GrowFollows(c: Ctl, calls: seq<ApiCall>)
    requires c.Running? && c.swept == |c.plan.doomed| && c.trimmed == |c.plan.targets| && c.grown == 0 && !c.failed
    requires IsGrow(c.plan.want, calls)
    ensures Follow(c, calls) == Some(c.(grown := |calls|, failed := GrowFailed(calls)))
  {
    if calls != [] {
      var init := calls[..|calls| - 1];
      GrowFollows(c, init);
      GrowFailedLast(init, calls[|calls| - 1]);
      assert calls == init + [calls[|calls| - 1]];
      hide GrowFailed;
    }
  }

  // What calls leave behind in the expectations.

  function RemovedNames(calls: seq<ApiCall>): set<string> {
    if calls == [] then {}
    else
      var last := calls[|calls| - 1];
      RemovedNames(calls[..|calls| - 1]) +
      (match last
       case Remove(name, ok) => if ok then {name} else {}
       case RemoveIf(g, outcome) => if outcome == Ok then {g.name} else {}
       case Add(_, _) => {})
  }

  function AddedNames(calls: seq<ApiCall>): set<string> {
    if calls == [] then {}
    else
      var last := calls[|calls| - 1];
      AddedNames(calls[..|calls| - 1]) + if last.Add? && last.ok then {last.name} else {}
  }

  lemma NamesStep(calls: seq<ApiCall>, last: ApiCall)
    ensures AddedNames(calls + [last]) == AddedNames(calls) + if last.Add? && last.ok then {last.name} else {}
    ensures RemovedNames(calls + [last]) == RemovedNames(calls) +
      (match last
       case Remove(name, ok) => if ok then {name} else {}
       case RemoveIf(g, outcome) => if outcome == Ok then {g.name} else {}
       case Add(_, _) => {})
  {
    assert (calls + [last])[..|calls|] == calls;
  }

  predicate Removes(call: ApiCall, name: string) {
    call == Remove(name, true) || (call.RemoveIf? && call.target.name == name && call.outcome == Ok)
  }

  /** Expected to go are exactly the servers that a call of either kind removed,
      expected to come those that a call created. */
  lemma {:induction false} NamesExactly(calls: seq<ApiCall>, name: string)
    ensures name in RemovedNames(calls) <==> exists i :: 0 <= i < |calls| && Removes(calls[i], name)
    ensures name in AddedNames(calls) <==> Add(name, true) in calls
  {
    if calls != [] {
      var init, last := calls[..|calls| - 1], calls[|calls| - 1];
      assert calls == init + [last];
      NamesExactly(init, name);
      NamesStep(init, last);
      hide RemovedNames, AddedNames;
      assert forall i :: 0 <= i < |init| ==> calls[i] == init[i];
    }
  }

  // The first i servers of the list have been counted and swept.
  ghost predicate Swept(items: seq<GameServer>, i: nat, counts: Counts, calls: seq<ApiCall>) {
    && i <= |items|
    && counts == CountsOf(items[..i])
    && IsSweep(Filter(items[..i], IsDoomed), calls)
    && |calls| == |Filter(items[..i], IsDoomed)|
    && AddedNames(calls) == {}
  }

  // A sweep whose last call failed.
  ghost predicate BrokenSweep(items: seq<GameServer>, calls: seq<ApiCall>) {
    var doomed := Filter(items, IsDoomed);
    && 0 < |calls| <= |doomed|
    && IsSweep(doomed, calls[..|calls| - 1])
    && calls[|calls| - 1] == Remove(doomed[|calls| - 1].name, false)
    && AddedNames(calls) == {}
  }

  lemma SweptStart(items: seq<GameServer>)
    ensures Swept(items, 0, Counts(0, 0, 0, 0, 0), []) && RemovedNames([]) == {}
  {
    assert items[..0] == [];
  }

  lemma SweptStep(items: seq<GameServer>, i: nat, counts: Counts, calls: seq<ApiCall>, ok: bool)
    requires Swept(items, i, counts, calls) && i < |items|
    ensures var counts', calls' := Tally(counts, items[i]), calls + [Remove(items[i].name, ok)];
            && (!IsDoomed(items[i]) ==> Swept(items, i + 1, counts', calls))
            && (IsDoomed(items[i]) && ok ==> Swept(items, i + 1, counts', calls'))
            && (IsDoomed(items[i]) && !ok ==> BrokenSweep(items, calls'))
  {
    var call, doomed := Remove(items[i].name, ok), Filter(items[..i], IsDoomed);
    FilterPrefix(items, i, IsDoomed);
    CountsStep(items, i);
    NamesStep(calls, call);
    assert (calls + [call])[..|calls|] == calls;
    if ok {
      SweepLonger(doomed, calls, items[i]);
    }
    SweepOfMore(doomed, Filter(items, IsDoomed), calls);
    hide IsSweep, Filter, IsDoomed, Tally, AddedNames, RemovedNames;
  }

  lemma SweepLonger(doomed: seq<GameServer>, calls: seq<ApiCall>, g: GameServer)
    requires IsSweep(doomed, calls) && |calls| == |doomed|
    ensures IsSweep(doomed + [g], calls + [Remove(g.name, true)])
  {
  }

  lemma SweepOfMore(doomed: seq<GameServer>, more: seq<GameServer>, calls: seq<ApiCall>)
    requires IsSweep(doomed, calls) && doomed <= more
    ensures IsSweep(more, calls)
  {
  }

  lemma {:induction false} NamesJoin(a: seq<ApiCall>, b: seq<ApiCall>)
    ensures RemovedNames(a + b) == RemovedNames(a) + RemovedNames(b)
    ensures AddedNames(a + b) == AddedNames(a) + AddedNames(b)
  {
    if b == [] {
      assert a + b == a;
    } else {
      var init, last := b[..|b| - 1], b[|b| - 1];
      assert b == init + [last];
      assert a + b == (a + init) + [last];
      NamesJoin(a, init);
      NamesStep(a + init, last);
      NamesStep(init, last);
    }
  }

  // The candidates among the first i servers have been deleted, or tried.
  ghost predicate Trimming(sorted: seq<GameServer>, i: nat, calls: seq<ApiCall>, failed: bool) {
    && i <= |sorted|
    && IsTrim(Filter(sorted[..i], IsTrimmable), calls)
    && |calls| == |Filter(sorted[..i], IsTrimmable)|
    && failed == TrimFailed(calls)
    && AddedNames(calls) == {}
  }

  lemma TrimmingStart(sorted: seq<GameServer>)
    ensures Trimming(sorted, 0, [], false) && RemovedNames([]) == {}
  {
    assert sorted[..0] == [];
  }

  lemma TrimmingStep(sorted: seq<GameServer>, i: nat, calls: seq<ApiCall>, failed: bool, outcome: Outcome)
    requires Trimming(sorted, i, calls, failed) && i < |sorted|
    ensures !IsTrimmable(sorted[i]) ==> Trimming(sorted, i + 1, calls, failed)
    ensures IsTrimmable(sorted[i]) ==>
      Trimming(sorted, i + 1, calls + [RemoveIf(sorted[i], outcome)], failed || outcome == Failed)
  {
    var call := RemoveIf(sorted[i], outcome);
    FilterNext(sorted, i, IsTrimmable);
    NamesStep(calls, call);
    TrimFailedLast(calls, call);
    TrimLonger(Filter(sorted[..i], IsTrimmable), calls, sorted[i], outcome);
    hide TrimFailed, IsTrim, Filter, AddedNames, IsTrimmable, RemovedNames;
  }

  lemma TrimmingDone(sorted: seq<GameServer>, i: nat, calls: seq<ApiCall>, failed: bool, budget: int)
    requires Trimming(sorted, i, calls, failed) && |calls| <= budget && (i == |sorted| || |calls| == budget)
    ensures IsTrim(Chosen(sorted, budget), calls) && |calls| == |Chosen(sorted, budget)|
  {
    FilterPrefix(sorted, i, IsTrimmable);
    if i == |sorted| {
      assert sorted[..i] == sorted;
    }
  }

  /** A complete pass over a list: the calls of some plan for it, up to success
      or up to the error it returns. */
  ghost predicate IsPass(items: seq<GameServer>, spec: BuildSpec, calls: seq<ApiCall>, succeeded: bool) {
    exists sorted :: SortedByState(sorted, items) && IsPassOf(MakePlan(items, sorted, spec), calls, succeeded)
  }

  predicate IsPassOf(plan: Plan, calls: seq<ApiCall>, succeeded: bool) {
    match Follow(Start(plan), calls)
    case None => false
    case Some(c) => if succeeded then Succeeds(c) else c.Idle? || GivesUp(c)
  }

  lemma SweepFails(plan: Plan, calls: seq<ApiCall>)
    requires IsSweep(plan.doomed, calls) && |calls| < |plan.doomed|
    ensures IsPassOf(plan, calls + [Remove(plan.doomed[|calls|].name, false)], false)
  {
    SweepFollows(plan, calls);
    var all := calls + [Remove(plan.doomed[|calls|].name, false)];
    assert all[..|all| - 1] == calls;
  }

  lemma TrimEnds(plan: Plan, sweep: seq<ApiCall>, trim: seq<ApiCall>)
    requires IsSweep(plan.doomed, sweep) && |sweep| == |plan.doomed|
    requires IsTrim(plan.targets, trim) && |trim| == |plan.targets|
    ensures Follow(Start(plan), sweep + trim)
         == Some(Running(plan, |plan.doomed|, |plan.targets|, 0, TrimFailed(trim)))
  {
    SweepFollows(plan, sweep);
    FollowOn(Start(plan), sweep, trim);
    TrimFollows(Start(plan).(swept := |sweep|), trim);
  }

  lemma GrowEnds(plan: Plan, sweep: seq<ApiCall>, trim: seq<ApiCall>, grow: seq<ApiCall>)
    requires IsSweep(plan.doomed, sweep) && |sweep| == |plan.doomed|
    requires IsTrim(plan.targets, trim) && |trim| == |plan.targets| && !TrimFailed(trim)
    requires IsGrow(plan.want, grow) && |grow| == plan.want
    ensures IsPassOf(plan, sweep + trim + grow, !GrowFailed(grow))
  {
    TrimEnds(plan, sweep, trim);
    FollowOn(Start(plan), sweep + trim, grow);
    GrowFollows(Running(plan, |plan.doomed|, |plan.targets|, 0, false), grow);
  }

  // A list can always be arranged by state.

  lemma {:induction false} Arrangement(items: seq<GameServer>) returns (sorted: seq<GameServer>)
    ensures SortedByState(sorted, items)
  {
    if items == [] {
      sorted := [];
    } else {
      var last := items[|items| - 1];
      var rest := Arrangement(items[..|items| - 1]);
      sorted := Insert(rest, last);
      assert items == items[..|items| - 1] + [last];
    }
  }

  lemma InsertedBelow(init: seq<GameServer>, g: GameServer, s: seq<GameServer>, rank: nat)
    requires multiset(s) == multiset(init) + multiset{g} && Rank(g) <= rank
    requires forall i :: 0 <= i < |init| ==> Rank(init[i]) <= rank
    ensures forall i :: 0 <= i < |s| ==> Rank(s[i]) <= rank
  {
    forall i | 0 <= i < |s|
      ensures Rank(s[i]) <= rank
    {
      assert s[i] in multiset(s);
      assert s[i] in multiset(init) || s[i] == g;
    }
  }

  lemma {:induction false} Insert(rest: seq<GameServer>, g: GameServer) returns (sorted: seq<GameServer>)
    requires forall i, j :: 0 <= i < j < |rest| ==> Rank(rest[i]) <= Rank(rest[j])
    ensures multiset(sorted) == multiset(rest) + multiset{g}
    ensures forall i, j :: 0 <= i < j < |sorted| ==> Rank(sorted[i]) <= Rank(sorted[j])
  {
    if rest == [] || Rank(rest[|rest| - 1]) <= Rank(g) {
      sorted := rest + [g];
    } else {
      var init, last := rest[..|rest| - 1], rest[|rest| - 1];
      assert rest == init + [last];
      var s := Insert(init, g);
      InsertedBelow(init, g, s, Rank(last));
      sorted := s + [last];
    }
  }
}
