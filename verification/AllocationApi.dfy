/** The allocation API: feeding the queues from the cache, and serving requests
    from them with a bounded number of optimistic patches. */
module AllocationApi {
  import opened Options
  import opened GameServers
  import opened GameServerHeap
  import opened QueueSpec
  import opened GameServersQueues

  const ALLOCATION_TRIES := 3

  datatype PatchOutcome = Patched | PatchConflict | PatchNotFound | PatchError

  datatype PatchCall = PatchCall(entry: Entry, sessionID: string, outcome: PatchOutcome)

  // Status patches under optimistic lock, as one request sees them.
  class StatusApi {
    var log: seq<PatchCall>

    method PatchActive(e: Entry, sessionID: string) returns (outcome: PatchOutcome)
      modifies this
      ensures log == old(log) + [PatchCall(e, sessionID, outcome)]
    {
      outcome := *;
      log := log + [PatchCall(e, sessionID, outcome)];
    }
  }

  // What the cache knows about a server.
  datatype CachedServer = CachedServer(state: State, buildID: string, nodeAge: int, resourceVersion: nat)
  datatype CacheRead = Hit(server: CachedServer) | Miss | Unreadable

  datatype Request =
    | Preflight
    | BadMethod
    | BadBody
    | BadArguments
    | Allocate(buildID: string, sessionID: string)

  // Listing the builds with the requested id.
  datatype BuildList = Builds(count: nat) | BuildsNotFound | BuildsError

  datatype Response =
    | Empty
    | BadRequest
    | NotFound
    | TooManyRequests
    | InternalError
    | AlreadyAllocated(server: string)
    | Allocated(entry: Entry)

  // While a request is served it pops servers of its build, and others act on
  // the queues in between.
  datatype Act = Mine(entry: Entry) | Others(op: Op)

  function OpOf(act: Act, build: string): Op {
    match act
    case Mine(e) => Pop(build, Got(e))
    case Others(op) => op
  }

  function Tried(acts: seq<Act>): seq<Entry> {
    if acts == [] then []
    else
      var last := acts[|acts| - 1];
      Tried(acts[..|acts| - 1]) + if last.Mine? then [last.entry] else []
  }

  ghost predicate IsPath(path: seq<QueueState>, build: string, acts: seq<Act>) {
    && |path| == |acts| + 1
    && (forall i :: 0 <= i < |acts| ==> Step(path[i], OpOf(acts[i], build), path[i + 1]))
  }

  // The acts lead from s to t.
  ghost predicate Leads(s: QueueState, build: string, acts: seq<Act>, t: QueueState) {
    exists path :: IsPath(path, build, acts) && path[0] == s && path[|acts|] == t
  }

  lemma LeadsNowhere(s: QueueState, build: string)
    ensures Leads(s, build, [], s) && Tried([]) == []
  {
    assert IsPath([s], build, []);
  }

  lemma LeadsOn(s: QueueState, build: string, acts: seq<Act>, m: QueueState, act: Act, t: QueueState)
    requires Leads(s, build, acts, m) && Step(m, OpOf(act, build), t)
    ensures Leads(s, build, acts + [act], t)
    ensures Tried(acts + [act]) == Tried(acts) + if act.Mine? then [act.entry] else []
  {
    var path :| IsPath(path, build, acts) && path[0] == s && path[|acts|] == m;
    PathGrows(path, build, acts, act, t);
    assert (acts + [act])[..|acts|] == acts;
  }

  lemma PathGrows(path: seq<QueueState>, build: string, acts: seq<Act>, act: Act, t: QueueState)
    requires IsPath(path, build, acts) && Step(path[|acts|], OpOf(act, build), t)
    ensures IsPath(path + [t], build, acts + [act])
  {
    hide Step;
  }

  function EntriesOf(s: QueueState, build: string): multiset<Entry> {
    if build in s.queues then s.queues[build] else multiset{}
  }

  lemma PopStep(m: QueueState, build: string, e: Entry, t: QueueState)
    requires Step(m, Pop(build, Got(e)), t)
    ensures EntriesOf(m, build) == EntriesOf(t, build) + multiset{e}
    ensures t.index == m.index && forall b :: b != build ==> EntriesOf(t, b) == EntriesOf(m, b)
    ensures forall x :: x in EntriesOf(m, build) ==> e.nodeAge <= x.nodeAge
  {
    assert t.queues == Stored(m.queues, build, m.queues[build] - multiset{e});
  }

  lemma NothingPopped(m: QueueState, build: string, t: QueueState)
    requires Step(m, Pop(build, Nothing), t)
    ensures t == m && EntriesOf(t, build) == multiset{}
  {
  }

  lemma InQueue(m: QueueState, build: string, x: Entry)
    ensures x in EntriesOf(m, build) <==> Queued(m, build, x)
  {
  }

  lemma PopAddsNothing(m: QueueState, b: string, result: Popped, t: QueueState, build: string, x: Entry)
    requires Step(m, Pop(b, result), t) && x in EntriesOf(t, build)
    ensures x in EntriesOf(m, build)
  {
    match result
    case Nothing =>
    case Got(e) => PopStep(m, b, e, t);
  }

  // A step that brings an entry into a queue pushes it.
  lemma OnlyPushAdds(m: QueueState, op: Op, t: QueueState, build: string, x: Entry)
    requires Inv(m) && Step(m, op, t) && x in EntriesOf(t, build) && x !in EntriesOf(m, build)
    ensures op == Push(x)
  {
    hide Step, Inv, EntriesOf, Queued;
    InQueue(m, build, x);
    InQueue(t, build, x);
    match op
    case Push(e) => PushQueues(m, e, t);
    case Pop(b, result) => PopAddsNothing(m, b, result, t, build, x);
    case Remove(ns, name) => RemoveKeepsInv(m, ns, name, t);
  }

  lemma {:induction false} InvOnPath(path: seq<QueueState>, build: string, acts: seq<Act>, i: nat)
    requires IsPath(path, build, acts) && Inv(path[0]) && i <= |acts|
    ensures Inv(path[i])
  {
    hide Step, Inv;
    if i > 0 {
      InvOnPath(path, build, acts, i - 1);
      InvKept(path[i - 1], OpOf(acts[i - 1], build), path[i]);
    }
  }

  // Somebody else took the entry out of the queue.
  ghost predicate TakenByOthers(path: seq<QueueState>, build: string, acts: seq<Act>, x: Entry)
    requires |path| == |acts| + 1
  {
    exists i :: 0 <= i < |acts| && acts[i].Others? && x in EntriesOf(path[i], build) && x !in EntriesOf(path[i + 1], build)
  }

  lemma TakenStays(path: seq<QueueState>, build: string, acts: seq<Act>, n: nat, x: Entry)
    requires |path| == |acts| + 1 && n <= |acts| && TakenByOthers(path[..n + 1], build, acts[..n], x)
    ensures TakenByOthers(path, build, acts, x)
  {
    var i :| 0 <= i < n && acts[..n][i].Others? && x in EntriesOf(path[..n + 1][i], build)
             && x !in EntriesOf(path[..n + 1][i + 1], build);
    assert acts[i].Others? && x in EntriesOf(path[i], build) && x !in EntriesOf(path[i + 1], build);
  }

  /** What was queued at the start is still queued, or was popped by the request,
      or was taken by others. */
  lemma {:induction false} PathLosesNothing(path: seq<QueueState>, build: string, acts: seq<Act>, x: Entry)
    requires IsPath(path, build, acts) && x in EntriesOf(path[0], build)
    ensures x in EntriesOf(path[|acts|], build) || x in Tried(acts) || TakenByOthers(path, build, acts, x)
  {
    if acts != [] {
      var n := |acts| - 1;
      hide Step;
      PathPrefix(path, build, acts, n);
      PathLosesNothing(path[..n + 1], build, acts[..n], x);
      if TakenByOthers(path[..n + 1], build, acts[..n], x) {
        TakenStays(path, build, acts, n, x);
      } else if x in EntriesOf(path[n], build) && x !in EntriesOf(path[n + 1], build) {
        if acts[n].Mine? {
          PopStep(path[n], build, acts[n].entry, path[n + 1]);
        }
      }
    }
  }

  lemma PathPrefix(path: seq<QueueState>, build: string, acts: seq<Act>, n: nat)
    requires IsPath(path, build, acts) && n <= |acts|
    ensures IsPath(path[..n + 1], build, acts[..n]) && path[..n + 1][n] == path[n]
  {
    hide Step;
  }

  /** Undisturbed, what was popped and what is left make up the queue of the
      build, and no other queue is touched. */
  lemma {:induction false} PathConserves(path: seq<QueueState>, build: string, acts: seq<Act>)
    requires IsPath(path, build, acts) && forall i :: 0 <= i < |acts| ==> acts[i].Mine?
    ensures EntriesOf(path[0], build) == EntriesOf(path[|acts|], build) + multiset(Tried(acts))
    ensures forall b :: b != build ==> EntriesOf(path[|acts|], b) == EntriesOf(path[0], b)
  {
    if acts != [] {
      var n := |acts| - 1;
      PathPrefix(path, build, acts, n);
      PathConserves(path[..n + 1], build, acts[..n]);
      PopStep(path[n], build, acts[n].entry, path[n + 1]);
    }
  }

  // What is queued at j was there at i already, or was pushed in between.
  lemma {:induction false} QueuedBefore(path: seq<QueueState>, build: string, acts: seq<Act>, i: nat, j: nat, x: Entry)
    requires IsPath(path, build, acts) && Inv(path[0]) && i <= j <= |acts| && x in EntriesOf(path[j], build)
    ensures x in EntriesOf(path[i], build) || exists k :: i <= k < j && acts[k] == Others(Push(x))
  {
    if i < j {
      hide Step, Inv;
      if x in EntriesOf(path[j - 1], build) {
        QueuedBefore(path, build, acts, i, j - 1, x);
      } else {
        InvOnPath(path, build, acts, j - 1);
        OnlyPushAdds(path[j - 1], OpOf(acts[j - 1], build), path[j], build, x);
        assert acts[j - 1] == Others(Push(x));
      }
    }
  }

  /** Newer nodes go first: each server popped is, when it is popped, on a node
      no older than any still queued; so one popped later, or left at the end, is
      on an older node unless others pushed it meanwhile. */
  lemma PopsByAge(path: seq<QueueState>, build: string, acts: seq<Act>, i: nat, j: nat, x: Entry)
    requires IsPath(path, build, acts) && Inv(path[0]) && i < j <= |acts| && acts[i].Mine?
    requires x in EntriesOf(path[j], build)
    ensures acts[i].entry in EntriesOf(path[i], build)
    ensures acts[i].entry.nodeAge <= x.nodeAge || exists k :: i < k < j && acts[k] == Others(Push(x))
  {
    PopStep(path[i], build, acts[i].entry, path[i + 1]);
    hide Step, Inv;
    QueuedBefore(path, build, acts, i + 1, j, x);
  }

  class AllocationApiServer {
    const gameServerQueue: GameServersQueue
    const api: StatusApi
    var events: seq<Entry>   // servers to look at again, oldest first

    constructor (queue: GameServersQueue, api: StatusApi)
      ensures gameServerQueue == queue && this.api == api && events == []
    {
      gameServerQueue, this.api, events := queue, api, [];
    }

    // The queues are their own objects.
    ghost predicate Ready()
      reads this, gameServerQueue, gameServerQueue.Repr
    {
      gameServerQueue.Valid() && this !in gameServerQueue.Repr && api !in gameServerQueue.Repr
    }

    /** A change of a server: a deleted one leaves the queues, one standing by
        joins the queue of its build with the version the cache holds. */
    method Reconcile(namespace: string, name: string, read: CacheRead)
      requires Ready()
      modifies gameServerQueue, gameServerQueue.Repr
      ensures Ready() && fresh(gameServerQueue.Repr - old(gameServerQueue.Repr))
      ensures match read
              case Unreadable => gameServerQueue.View() == old(gameServerQueue.View())
              case Miss => Step(old(gameServerQueue.View()), Remove(namespace, name), gameServerQueue.View())
              case Hit(gs) =>
                if gs.state == StandingBy then
                  Step(old(gameServerQueue.View()),
                       Push(Entry(name, namespace, gs.buildID, gs.nodeAge, gs.resourceVersion)),
                       gameServerQueue.View())
                else gameServerQueue.View() == old(gameServerQueue.View())
    {
      match read {
        case Unreadable =>
        case Miss => gameServerQueue.RemoveFromQueue(namespace, name);
        case Hit(gs) =>
          if gs.state == StandingBy {
            gameServerQueue.PushToQueue(Entry(name, namespace, gs.buildID, gs.nodeAge, gs.resourceVersion));
          }
      }
    }

    // What others do to the queues meanwhile: any operations, in any order.
    method OthersAct(ghost s: QueueState, ghost build: string, ghost before: seq<Act>) returns (ghost acts: seq<Act>)
      requires Ready() && Leads(s, build, before, gameServerQueue.View())
      modifies gameServerQueue, gameServerQueue.Repr
      ensures Ready() && fresh(gameServerQueue.Repr - old(gameServerQueue.Repr))
      ensures Leads(s, build, acts, gameServerQueue.View()) && Tried(acts) == Tried(before)
    {
      hide GameServersQueue.Valid, GameServersQueue.Separate, Step, Leads, Tried;
      acts := before;
      var more: bool := *;
      var rounds: nat := *;
      while more && 0 < rounds
        invariant Ready() && fresh(gameServerQueue.Repr - old(gameServerQueue.Repr))
        invariant Leads(s, build, acts, gameServerQueue.View()) && Tried(acts) == Tried(before)
        decreases rounds
      {
        acts := OneActs(s, build, acts);
        more, rounds := *, rounds - 1;
      }
    }

    method OneActs(ghost s: QueueState, ghost build: string, ghost before: seq<Act>) returns (ghost acts: seq<Act>)
      requires Ready() && Leads(s, build, before, gameServerQueue.View())
      modifies gameServerQueue, gameServerQueue.Repr
      ensures Ready() && fresh(gameServerQueue.Repr - old(gameServerQueue.Repr))
      ensures Leads(s, build, acts, gameServerQueue.View()) && Tried(acts) == Tried(before)
    {
      hide GameServersQueue.Valid, GameServersQueue.Separate, Step, Leads, Tried;
      ghost var op: Op;
      ghost var view := gameServerQueue.View();
      var choice: int := *;
      if choice == 0 {
        var e: Entry := *;
        op := Push(e);
        gameServerQueue.PushToQueue(e);
      } else if choice == 1 {
        var b: string := *;
        var popped := gameServerQueue.PopFromQueue(b);
        op := Pop(b, popped);
      } else {
        var namespace: string, name: string := *, *;
        op := Remove(namespace, name);
        gameServerQueue.RemoveFromQueue(namespace, name);
      }
      acts := before + [Others(op)];
      LeadsOn(s, build, before, view, Others(op), gameServerQueue.View());
    }

    /** One allocation request. An invalid one is refused, an unknown build not
        found, and a session that has its server already gets it again. Otherwise
        every server it pops is either handed out or queued for another look, and
        at most ALLOCATION_TRIES are popped; it runs out of servers only when the
        build has none left. */
    method HandleAllocationRequest(request: Request, builds: BuildList, sessions: Option<seq<string>>)
      returns (response: Response, ghost acts: seq<Act>)
      requires Ready()
      modifies this, api, gameServerQueue, gameServerQueue.Repr
      ensures Ready() && fresh(gameServerQueue.Repr - old(gameServerQueue.Repr))
      ensures old(events) <= events && old(api.log) <= api.log
      ensures request == Preflight ==> response == Empty
      ensures request in {BadMethod, BadBody, BadArguments} ==> response == BadRequest
      ensures request.Allocate? && builds in {BuildsNotFound, Builds(0)} ==> response == NotFound
      ensures request.Allocate? && builds == BuildsError ==> response == InternalError
      ensures request.Allocate? && builds.Builds? && 0 < builds.count ==>
        match sessions
        case None => response == InternalError
        case Some(servers) =>
          && (|servers| == 1 ==> response == AlreadyAllocated(servers[0]))
          && (1 < |servers| ==> response == InternalError)
          && (|servers| == 0 ==>
                Served(request, old(gameServerQueue.View()), acts, gameServerQueue.View(),
                       events[|old(events)|..], api.log[|old(api.log)|..], response))
      ensures (request.Allocate? && builds.Builds? && 0 < builds.count && sessions == Some([]))
        || (events == old(events) && api.log == old(api.log) && gameServerQueue.View() == old(gameServerQueue.View()))
    {
      acts := [];
      match request {
        case Preflight =>
          return Empty, acts;
        case BadMethod | BadBody | BadArguments =>
          return BadRequest, acts;
        case Allocate(_, _) =>
      }
      if builds == BuildsError {
        return InternalError, acts;
      }
      if builds == BuildsNotFound || builds.count == 0 {
        return NotFound, acts;
      }
      if sessions == None || |sessions.value| > 1 {
        return InternalError, acts;
      }
      if |sessions.value| == 1 {
        return AlreadyAllocated(sessions.value[0]), acts;
      }
      ghost var failed, calls;
      response, failed, calls, acts := AllocateFromQueue(request);
      assert events[|old(events)|..] == failed;
      assert api.log[|old(api.log)|..] == calls;
    }

    // One try: others act, then a server is popped and, if there is one, patched.
    method TryOne(request: Request, ghost start: QueueState, ghost before: seq<Act>)
      returns (popped: Popped, outcome: PatchOutcome, ghost acts: seq<Act>)
      requires Ready() && request.Allocate? && Leads(start, request.buildID, before, gameServerQueue.View())
      modifies api, gameServerQueue, gameServerQueue.Repr
      ensures Ready() && fresh(gameServerQueue.Repr - old(gameServerQueue.Repr))
      ensures Leads(start, request.buildID, acts, gameServerQueue.View())
      ensures popped == Nothing ==>
        && Tried(acts) == Tried(before) && api.log == old(api.log)
        && EntriesOf(gameServerQueue.View(), request.buildID) == multiset{}
      ensures popped.Got? ==>
        && Tried(acts) == Tried(before) + [popped.entry]
        && api.log == old(api.log) + [PatchCall(popped.entry, request.sessionID, outcome)]
    {
      hide GameServersQueue.Valid, GameServersQueue.Separate, Step, Leads, Tried, EntriesOf;
      acts := OthersAct(start, request.buildID, before);
      ghost var view := gameServerQueue.View();
      popped := gameServerQueue.PopFromQueue(request.buildID);
      outcome := PatchError;
      if popped == Nothing {
        NothingPopped(view, request.buildID, gameServerQueue.View());
      } else {
        LeadsOn(start, request.buildID, acts, view, Mine(popped.entry), gameServerQueue.View());
        acts := acts + [Mine(popped.entry)];
        outcome := api.PatchActive(popped.entry, request.sessionID);
      }
    }

    // The retry loop.
    method AllocateFromQueue(request: Request)
      returns (response: Response, ghost failed: seq<Entry>, ghost calls: seq<PatchCall>, ghost acts: seq<Act>)
      requires Ready() && request.Allocate?
      modifies this, api, gameServerQueue, gameServerQueue.Repr
      ensures Ready() && fresh(gameServerQueue.Repr - old(gameServerQueue.Repr))
      ensures events == old(events) + failed && api.log == old(api.log) + calls
      ensures Served(request, old(gameServerQueue.View()), acts, gameServerQueue.View(), failed, calls, response)
    {
      hide GameServersQueue.Valid, GameServersQueue.Separate, Step, Leads, Tried, AllRefused, EntriesOf;
      failed, calls, acts := [], [], [];
      ghost var start := gameServerQueue.View();
      LeadsNowhere(start, request.buildID);
      NoneRefused(request);
      var i := 0;
      while i < ALLOCATION_TRIES
        invariant i == |failed| <= ALLOCATION_TRIES
        invariant Ready() && fresh(gameServerQueue.Repr - old(gameServerQueue.Repr))
        invariant events == old(events) + failed && api.log == old(api.log) + calls
        invariant Leads(start, request.buildID, acts, gameServerQueue.View()) && Tried(acts) == failed
        invariant AllRefused(request, failed, calls)
      {
        var popped, outcome;
        popped, outcome, acts := TryOne(request, start, acts);
        if popped == Nothing {
          response := TooManyRequests;
          return;
        }
        var gs := popped.entry;
        RefusedExtend(request, failed, calls, gs, outcome);
        calls := calls + [PatchCall(gs, request.sessionID, outcome)];
        if outcome == Patched {
          response := Allocated(gs);
          return;
        }
        events := events + [gs];
        failed := failed + [gs];
        i := i + 1;
      }
      response := InternalError;
    }
  }

  // Each failed server was patched once, in order, and refused.
  ghost predicate AllRefused(request: Request, failed: seq<Entry>, calls: seq<PatchCall>)
    requires request.Allocate?
  {
    && |calls| == |failed|
    && (forall i :: 0 <= i < |calls| ==>
          calls[i].entry == failed[i] && calls[i].sessionID == request.sessionID && calls[i].outcome != Patched)
  }

  lemma NoneRefused(request: Request)
    requires request.Allocate?
    ensures AllRefused(request, [], [])
  {
  }

  lemma RefusedExtend(request: Request, failed: seq<Entry>, calls: seq<PatchCall>, e: Entry, outcome: PatchOutcome)
    requires request.Allocate? && AllRefused(request, failed, calls)
    ensures var calls' := calls + [PatchCall(e, request.sessionID, outcome)];
            && calls'[..|calls'| - 1] == calls && calls'[|calls'| - 1] == PatchCall(e, request.sessionID, outcome)
            && (outcome != Patched ==> AllRefused(request, failed + [e], calls'))
  {
  }

  ghost predicate Served(request: Request, s: QueueState, acts: seq<Act>, t: QueueState, failed: seq<Entry>,
                         calls: seq<PatchCall>, response: Response)
  {
    request.Allocate? && Leads(s, request.buildID, acts, t) &&
    match response
    case Allocated(e) =>
      && |failed| < ALLOCATION_TRIES && Tried(acts) == failed + [e]
      && calls != [] && AllRefused(request, failed, calls[..|calls| - 1])
      && calls[|calls| - 1] == PatchCall(e, request.sessionID, Patched)
    case TooManyRequests =>
      && |failed| < ALLOCATION_TRIES && Tried(acts) == failed && AllRefused(request, failed, calls)
      && EntriesOf(t, request.buildID) == multiset{}
    case InternalError =>
      && |failed| == ALLOCATION_TRIES && Tried(acts) == failed && AllRefused(request, failed, calls)
    case _ => false
  }

  /** No server is lost by a request: each that was queued for its build is still
      queued, or was taken by others, or handed out, or put up for another look;
      too many requests means that none is left queued. */
  lemma NothingIsLost(request: Request, s: QueueState, acts: seq<Act>, t: QueueState, failed: seq<Entry>,
                      calls: seq<PatchCall>, response: Response)
    returns (path: seq<QueueState>)
    requires Served(request, s, acts, t, failed, calls, response)
    ensures IsPath(path, request.buildID, acts) && path[0] == s && path[|acts|] == t
    ensures forall x :: x in EntriesOf(s, request.buildID) ==>
      || (x in EntriesOf(t, request.buildID) && response != TooManyRequests)
      || TakenByOthers(path, request.buildID, acts, x)
      || x in failed || response == Allocated(x)
  {
    path :| IsPath(path, request.buildID, acts) && path[0] == s && path[|acts|] == t;
    hide IsPath, Leads;
    forall x | x in EntriesOf(s, request.buildID)
      ensures x in EntriesOf(t, request.buildID) || TakenByOthers(path, request.buildID, acts, x) || x in Tried(acts)
    {
      PathLosesNothing(path, request.buildID, acts, x);
    }
    hide Tried, TakenByOthers;
  }

  /** A request gives up with an error only after three refused patches; any other
      answer comes after at most two of them. */
  lemma ThreeTries(request: Request, s: QueueState, acts: seq<Act>, t: QueueState, failed: seq<Entry>,
                   calls: seq<PatchCall>, response: Response)
    requires Served(request, s, acts, t, failed, calls, response)
    ensures response == InternalError <==> |failed| == 3
    ensures |failed| <= 3 && |calls| == |Tried(acts)| == |failed| + if response.Allocated? then 1 else 0
    ensures forall i :: 0 <= i < |calls| ==>
      calls[i].entry == Tried(acts)[i] && (calls[i].outcome == Patched <==> i == |failed|)
  {
    hide Leads, EntriesOf, Tried;
  }
}
