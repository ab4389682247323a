/** The calls the controller makes in a run of the cluster are those of a pass,
    whoever else acts in between. */
module PassesInRuns {
  import opened Options
  import opened GameServers
  import opened ApiStore
  import opened ReconcilePlan
  import opened ClusterRuns
  import opened PassTranscripts

  function CallsOf(events: seq<Event>): seq<ApiCall> {
    if events == [] then []
    else
      var last := events[|events| - 1];
      CallsOf(events[..|events| - 1]) + if last.Call? then [last.call] else []
  }

  predicate LeavesPassOpen(e: Event) {
    !e.Begin? && !e.Finish? && !e.GiveUp? && !e.Restart?
  }

  /** From the start of a pass, the calls in the run and the progress of the pass
      agree, with steps of the cache, the allocator and others interleaved. */
  lemma {:induction false} CallsFollowPlan(start: System, r: Run, plan: Plan, i: nat)
    requires IsRunFrom(start, r) && start.ctl == Start(plan) && i <= |r.events|
    requires forall k :: 0 <= k < |r.events| ==> LeavesPassOpen(r.events[k])
    ensures Follow(Start(plan), CallsOf(r.events[..i])) == Some(r.states[i].ctl)
  {
    if i > 0 {
      CallsFollowPlan(start, r, plan, i - 1);
      assert Step(r.states[i - 1], r.events[i - 1], r.states[i]);
      assert r.events[..i][..i - 1] == r.events[..i - 1];
      OneMore(r.states[i - 1], r.events[i - 1], r.states[i], plan, CallsOf(r.events[..i - 1]));
    }
  }

  lemma OneMore(s: System, e: Event, s': System, plan: Plan, before: seq<ApiCall>)
    requires Step(s, e, s') && LeavesPassOpen(e) && Follow(Start(plan), before) == Some(s.ctl)
    ensures Follow(Start(plan), before + if e.Call? then [e.call] else []) == Some(s'.ctl)
  {
    if e.Call? {
      assert (before + [e.call])[..|before|] == before;
    } else {
      assert s'.ctl == s.ctl;
      assert before + [] == before;
    }
  }

  /** A pass that finishes in the run has made exactly the calls of its plan, all
      successful or harmlessly refused. */
  lemma FinishedPassIsComplete(start: System, r: Run, plan: Plan)
    requires IsRunFrom(start, r) && start.ctl == Start(plan)
    requires forall k :: 0 <= k < |r.events| ==> LeavesPassOpen(r.events[k])
    requires Succeeds(r.states[|r.events|].ctl)
    ensures IsPassOf(plan, CallsOf(r.events), true)
  {
    CallsFollowPlan(start, r, plan, |r.events|);
    assert r.events[..|r.events|] == r.events;
  }

  // The two sets of names

  lemma NamesOfCall(s: System, call: ApiCall, s': System, before: seq<ApiCall>)
    requires CallStep(s, call, s')
    requires s.deleting == RemovedNames(before) && s.creating == AddedNames(before)
    ensures s'.deleting == RemovedNames(before + [call]) && s'.creating == AddedNames(before + [call])
  {
    NamesStep(before, call);
    hide RemovedNames, AddedNames;
  }

  lemma OthersKeepNames(s: System, e: Event, s': System)
    requires Step(s, e, s') && LeavesPassOpen(e) && s.ctl.Running? && !e.Call?
    ensures s'.deleting == s.deleting && s'.creating == s.creating
  {
  }

  lemma NamesOfOneMore(s: System, e: Event, s': System, before: seq<ApiCall>)
    requires Step(s, e, s') && LeavesPassOpen(e) && s.ctl.Running?
    requires s.deleting == RemovedNames(before) && s.creating == AddedNames(before)
    ensures var calls := before + if e.Call? then [e.call] else [];
            s'.deleting == RemovedNames(calls) && s'.creating == AddedNames(calls)
  {
    hide CallStep, RemovedNames, AddedNames;
    if e.Call? {
      NamesOfCall(s, e.call, s', before);
    } else {
      OthersKeepNames(s, e, s');
      assert before + [] == before;
    }
  }

  /** As long as a pass that began with both sets empty is under way, they hold
      the names its calls have deleted and created so far. */
  lemma {:induction false} SetsFollowCalls(start: System, r: Run, i: nat)
    requires IsRunFrom(start, r) && start.deleting == {} && start.creating == {} && i <= |r.events|
    requires forall k :: 0 <= k < i ==> r.states[k].ctl.Running? && LeavesPassOpen(r.events[k])
    ensures r.states[i].deleting == RemovedNames(CallsOf(r.events[..i]))
    ensures r.states[i].creating == AddedNames(CallsOf(r.events[..i]))
  {
    if i > 0 {
      SetsFollowCalls(start, r, i - 1);
      assert Step(r.states[i - 1], r.events[i - 1], r.states[i]);
      assert r.events[..i][..i - 1] == r.events[..i - 1];
      NamesOfOneMore(r.states[i - 1], r.events[i - 1], r.states[i], CallsOf(r.events[..i - 1]));
      hide Step, RemovedNames, AddedNames;
    }
  }

  // A pass of the cluster is a pass of the reconciler

  lemma BeginOpens(s: System, e: Event, s': System)
    requires Step(s, e, s') && e.Begin?
    ensures s.ctl.Idle? && s.deleting == {} && s.creating == {} && IsCacheListing(s.store, e.items)
    ensures SortedByState(e.sorted, e.items) && s' == s.(ctl := Start(MakePlan(e.items, e.sorted, e.spec)))
  {
  }

  lemma BeginNoCall(events: seq<Event>)
    requires events != [] && !events[0].Call?
    ensures CallsOf(events) == CallsOf(events[1..])
  {
    if |events| > 1 {
      var init := events[..|events| - 1];
      BeginNoCall(init);
      assert init[1..] == events[1..][..|events| - 2];
    } else {
      assert CallsOf(events[..0]) == [];
    }
  }

  // Nothing is left of the pass but to return.
  predicate IsOver(c: Ctl) {
    c.Idle? || GivesUp(c) || Succeeds(c)
  }

  // How a pass with these calls leaves the controller.
  ghost predicate EndsPass(end: System, calls: seq<ApiCall>, succeeded: bool) {
    && (if succeeded then Succeeds(end.ctl) else end.ctl.Idle? || GivesUp(end.ctl))
    && end.deleting == RemovedNames(calls) && end.creating == AddedNames(calls)
  }

  // The events after the first, and the states they lead through.
  function Tail(r: Run): Run
    requires 0 < |r.events| < |r.states|
  {
    Run(r.states[1..], r.events[1..])
  }

  lemma TailIsRun(start: System, r: Run)
    requires IsRunFrom(start, r) && |r.events| > 0
    ensures IsRunFrom(r.states[1], Tail(r)) && Step(start, r.events[0], r.states[1])
  {
    hide Step;
  }

  lemma PlannedPassIsPass(items: seq<GameServer>, sorted: seq<GameServer>, spec: BuildSpec, calls: seq<ApiCall>, c: Ctl)
    requires SortedByState(sorted, items)
    requires Follow(Start(MakePlan(items, sorted, spec)), calls) == Some(c)
    requires IsOver(c)
    ensures IsPass(items, spec, calls, Succeeds(c))
  {
    assert IsPassOf(MakePlan(items, sorted, spec), calls, Succeeds(c)) by {
      hide MakePlan, Follow;
    }
    hide IsPassOf, SortedByState, MakePlan;
  }

  /** What the run says of a pass at the point where it is over is what the
      reconciler promises of one that it makes. */
  lemma RunMakesPass(start: System, r: Run)
    requires IsRunFrom(start, r) && |r.events| > 0 && r.events[0].Begin?
    requires forall k :: 0 < k < |r.events| ==> r.states[k].ctl.Running? && LeavesPassOpen(r.events[k])
    requires IsOver(r.states[|r.events|].ctl)
    ensures var calls, end := CallsOf(r.events), r.states[|r.events|];
            && IsPass(r.events[0].items, r.events[0].spec, calls, Succeeds(end.ctl))
            && EndsPass(end, calls, Succeeds(end.ctl))
  {
    hide IsPass, Step, MakePlan, SortedByState, IsCacheListing, Succeeds, GivesUp, Follow, RemovedNames, AddedNames;
    var begin, n, q := r.events[0], |r.events| - 1, Tail(r);
    TailIsRun(start, r);
    BeginOpens(start, begin, r.states[1]);
    var plan := MakePlan(begin.items, begin.sorted, begin.spec);
    assert q.events[..n] == q.events;
    CallsFollowPlan(r.states[1], q, plan, n);
    SetsFollowCalls(r.states[1], q, n);
    BeginNoCall(r.events);
    PlannedPassIsPass(begin.items, begin.sorted, begin.spec, CallsOf(r.events), r.states[|r.events|].ctl);
  }

  // A pass of the reconciler is a pass of the cluster

  // An answer the API server can give to the call.
  ghost predicate CanAnswer(s: Store, call: ApiCall) {
    match call
    case Remove(name, ok) => ok ==> Live(s, name).Some?
    case RemoveIf(g, outcome) =>
      && (outcome == Ok ==> Live(s, g.name).Some? && Live(s, g.name).value.version == g.version)
      && (outcome == Conflict ==> Live(s, g.name).Some? && Live(s, g.name).value.version != g.version)
    case Add(name, ok) => ok ==> name !in s.records
  }

  ghost function Answered(s: Store, call: ApiCall): Store
    requires CanAnswer(s, call)
  {
    match call
    case Remove(name, ok) => if ok then Deleted(s, name) else s
    case RemoveIf(g, outcome) => if outcome == Ok then Deleted(s, g.name) else s
    case Add(name, ok) => if ok then Created(s, name) else s
  }

  // The objects after all the calls, if each answer is one the server can give.
  ghost function AllAnswered(s: Store, calls: seq<ApiCall>): Option<Store> {
    if calls == [] then Some(s)
    else
      match AllAnswered(s, calls[..|calls| - 1])
      case None => None
      case Some(t) =>
        var last := calls[|calls| - 1];
        if CanAnswer(t, last) then Some(Answered(t, last)) else None
  }

  lemma AnswerSteps(s: System, call: ApiCall) returns (s': System)
    requires Expects(s.ctl, call) && CanAnswer(s.store, call)
    ensures Step(s, Event.Call(call), s')
    ensures s'.store == Answered(s.store, call) && s'.ctl == After(s.ctl, call)
  {
    var t := s.(ctl := After(s.ctl, call), store := Answered(s.store, call));
    s' := match call
          case Remove(name, ok) => if ok then t.(deleting := s.deleting + {name}) else t
          case RemoveIf(g, outcome) => if outcome == Ok then t.(deleting := s.deleting + {g.name}) else t
          case Add(name, ok) =>
            if ok then t.(creating := s.creating + {name}, skipped := UnmatchedNames(s.ctl.plan.items)) else t;
  }

  function CallEvents(calls: seq<ApiCall>): (events: seq<Event>)
    ensures |events| == |calls|
    ensures forall k :: 0 <= k < |calls| ==> events[k] == Event.Call(calls[k])
  {
    seq(|calls|, k requires 0 <= k < |calls| => Event.Call(calls[k]))
  }

  lemma LastIsNext(plan: Plan, s: Store, calls: seq<ApiCall>)
    requires calls != [] && Follow(Start(plan), calls).Some? && AllAnswered(s, calls).Some?
    ensures var init, last := calls[..|calls| - 1], calls[|calls| - 1];
            && Follow(Start(plan), init).Some? && AllAnswered(s, init).Some?
            && var c, t := Follow(Start(plan), init).value, AllAnswered(s, init).value;
            && c.Running? && Expects(c, last) && Follow(Start(plan), calls) == Some(After(c, last))
            && CanAnswer(t, last) && AllAnswered(s, calls) == Some(Answered(t, last))
  {
    hide After, CanAnswer, Answered;
  }

  lemma {:induction false} CallsMakeRun(start: System, plan: Plan, calls: seq<ApiCall>) returns (r: Run)
    requires start.ctl == Start(plan)
    requires Follow(Start(plan), calls).Some? && AllAnswered(start.store, calls).Some?
    ensures IsRunFrom(start, r) && r.events == CallEvents(calls)
    ensures forall k :: 0 <= k < |calls| ==> r.states[k].ctl.Running?
    ensures r.states[|calls|].ctl == Follow(Start(plan), calls).value
    ensures r.states[|calls|].store == AllAnswered(start.store, calls).value
  {
    hide Step, Expects, After, CanAnswer, Answered;
    if calls == [] {
      r := Run([start], []);
    } else {
      var init, last := calls[..|calls| - 1], calls[|calls| - 1];
      LastIsNext(plan, start.store, calls);
      var q := CallsMakeRun(start, plan, init);
      var s' := AnswerSteps(q.states[|init|], last);
      r := Run(q.states + [s'], q.events + [Event.Call(last)]);
    }
  }

  lemma {:induction false} CallsOfEvents(calls: seq<ApiCall>)
    ensures CallsOf(CallEvents(calls)) == calls
  {
    if calls != [] {
      var init := calls[..|calls| - 1];
      CallsOfEvents(init);
      assert CallEvents(calls)[..|init|] == CallEvents(init);
    }
  }

  lemma AllCallsRun(start: System, plan: Plan, calls: seq<ApiCall>) returns (r: Run)
    requires start.ctl == Start(plan) && start.deleting == {} && start.creating == {}
    requires Follow(Start(plan), calls).Some? && AllAnswered(start.store, calls).Some?
    ensures IsRunFrom(start, r) && r.events == CallEvents(calls)
    ensures var end := r.states[|calls|];
            && end.ctl == Follow(Start(plan), calls).value && end.store == AllAnswered(start.store, calls).value
            && end.deleting == RemovedNames(calls) && end.creating == AddedNames(calls)
  {
    r := CallsMakeRun(start, plan, calls);
    hide Step, Follow, AllAnswered, RemovedNames, AddedNames;
    SetsFollowCalls(start, r, |calls|);
    assert r.events[..|calls|] == r.events;
    CallsOfEvents(calls);
  }

  lemma BeginSteps(s: System, items: seq<GameServer>, sorted: seq<GameServer>, spec: BuildSpec)
    requires s.ctl.Idle? && s.deleting == {} && s.creating == {}
    requires IsCacheListing(s.store, items) && SortedByState(sorted, items)
    ensures Step(s, Begin(items, sorted, spec), s.(ctl := Start(MakePlan(items, sorted, spec))))
  {
    hide IsCacheListing, SortedByState, MakePlan;
  }

  lemma PassHasPlan(items: seq<GameServer>, spec: BuildSpec, calls: seq<ApiCall>, succeeded: bool)
    returns (sorted: seq<GameServer>, c: Ctl)
    requires IsPass(items, spec, calls, succeeded)
    ensures SortedByState(sorted, items)
    ensures Follow(Start(MakePlan(items, sorted, spec)), calls) == Some(c)
    ensures if succeeded then Succeeds(c) else c.Idle? || GivesUp(c)
  {
    hide MakePlan, SortedByState, Follow, Succeeds, GivesUp;
    sorted :| SortedByState(sorted, items) && IsPassOf(MakePlan(items, sorted, spec), calls, succeeded);
    c := Follow(Start(MakePlan(items, sorted, spec)), calls).value;
  }

  /** Whatever calls the reconciler makes in a pass, if each gets an answer the
      API server can give, the cluster takes that pass: same calls, same end. */
  lemma PassIsRun(s: System, items: seq<GameServer>, spec: BuildSpec, calls: seq<ApiCall>, succeeded: bool)
    returns (sorted: seq<GameServer>, r: Run)
    requires s.ctl.Idle? && s.deleting == {} && s.creating == {} && IsCacheListing(s.store, items)
    requires IsPass(items, spec, calls, succeeded) && AllAnswered(s.store, calls).Some?
    ensures IsRunFrom(s, r) && r.events == [Begin(items, sorted, spec)] + CallEvents(calls)
    ensures EndsPass(r.states[|r.events|], calls, succeeded)
    ensures r.states[|r.events|].store == AllAnswered(s.store, calls).value
  {
    hide Step, MakePlan, SortedByState, IsCacheListing, Succeeds, GivesUp, Follow;
    hide IsPass, RemovedNames, AddedNames, AllAnswered;
    var c;
    sorted, c := PassHasPlan(items, spec, calls, succeeded);
    BeginSteps(s, items, sorted, spec);
    var plan := MakePlan(items, sorted, spec);
    var begin, t := Begin(items, sorted, spec), s.(ctl := Start(plan));
    var q := AllCallsRun(t, plan, calls);
    r := Run([s] + q.states, [begin] + q.events);
  }
}
