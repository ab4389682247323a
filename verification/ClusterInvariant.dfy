/** The invariant of ClusterRuns is kept by every step. */
module ClusterInvariant {
  import opened Options
  import opened GameServers
  import opened ApiStore
  import opened ReconcilePlan
  import opened ClusterRuns

  lemma StoreKept(s: System, e: Event, s': System)
    requires StoreOk(s.store) && Step(s, e, s')
    ensures StoreOk(s'.store) && Grows(s.store, s'.store)
  {
    match e
    case Observe(name, upto) => ObservedOk(s.store, name, upto);
    case Write(name, state, health) => WrittenOk(s.store, name, state, health);
    case Vanish(name) => DeletedOk(s.store, name);
    case Restart => ResyncedOk(s.store);
    case Patch(t, ok) => if ok { WrittenOk(s.store, t.name, Active, Live(s.store, t.name).value.health); }
    case Call(call) => {
      match call
      case Remove(name, ok) => if ok { DeletedOk(s.store, name); }
      case RemoveIf(g, outcome) => if outcome == Ok { DeletedOk(s.store, g.name); }
      case Add(name, ok) => if ok { CreatedOk(s.store, name); }
    }
    case _ =>
  }

  predicate IsCreation(e: Event) {
    e.Call? && e.call.Add? && e.call.ok
  }

  lemma LiveOnlyShrinks(s: System, e: Event, s': System)
    requires StoreOk(s.store) && Step(s, e, s') && !IsCreation(e)
    ensures LiveNames(s'.store) <= LiveNames(s.store)
  {
    StoreKept(s, e, s');
  }

  lemma CreationAddsOne(s: System, e: Event, s': System)
    requires StoreOk(s.store) && Step(s, e, s') && IsCreation(e)
    ensures LiveNames(s'.store) == LiveNames(s.store) + {e.call.name}
    ensures s'.creating == s.creating + {e.call.name}
  {
  }

  lemma CacheStays(s: Store, s': Store, n: string)
    requires Grows(s, s') && StoreOk(s') && Cached(s, n).Some? && Live(s', n).Some?
    ensures Cached(s', n).Some?
  {
  }

  // What leaves the creation expectations is cached, and what is created joins them.
  lemma ExpectedOrCached(s: System, e: Event, s': System, n: string)
    requires Step(s, e, s') && StoreOk(s.store)
    ensures e.Restart? && Live(s'.store, n).Some? ==> Cached(s'.store, n).Some?
    ensures !e.Restart? && n in s.creating ==> n in s'.creating || Cached(s.store, n).Some?
    ensures IsCreation(e) && e.call.name == n ==> n in s'.creating
  {
  }

  lemma AccountedKept(s: System, e: Event, s': System)
    requires StoreOk(s.store) && Accounted(s) && Step(s, e, s')
    ensures Accounted(s')
  {
    StoreKept(s, e, s');
    forall n | n in s'.store.records && Live(s'.store, n).Some?
      ensures Cached(s'.store, n).Some? || n in s'.creating
    {
      ExpectedOrCached(s, e, s', n);
      if IsCreation(e) {
        CreationAddsOne(s, e, s');
      } else {
        LiveOnlyShrinks(s, e, s');
      }
      hide Step, Live, Cached, Grows, StoreOk;
      assert n in LiveNames(s'.store);
      if Cached(s.store, n).Some? {
        CacheStays(s.store, s'.store, n);
      }
    }
  }

  lemma TicketStays(s: Store, s': Store, t: Ticket)
    requires Grows(s, s') && IsTicketOf(s, t)
    ensures IsTicketOf(s', t)
  {
    var g :| InHistory(s, g) && g.name == t.name && g.version == t.version && g.state == StandingBy;
    HistoryGrows(s, s', g);
  }

  lemma TicketTaken(s: Store, name: string)
    requires StoreOk(s) && Cached(s, name).Some? && Cached(s, name).value.state == StandingBy
    ensures IsTicketOf(s, Ticket(name, Cached(s, name).value.version))
  {
    CachedInHistory(s, name);
  }

  predicate Holds(s: System, t: Ticket) {
    t in s.queue || t in s.inflight
  }

  lemma TicketIsOld(s: System, e: Event, s': System, t: Ticket)
    requires Step(s, e, s') && Holds(s', t) && !Holds(s, t)
    ensures e.Enqueue? && Cached(s.store, e.name).Some? && Cached(s.store, e.name).value.state == StandingBy
    ensures t == Ticket(e.name, Cached(s.store, e.name).value.version) && s'.store == s.store
  {
  }

  lemma TicketsKept(s: System, e: Event, s': System)
    requires StoreOk(s.store) && TicketsOk(s) && Step(s, e, s')
    ensures TicketsOk(s')
  {
    StoreKept(s, e, s');
    forall t | t in s'.queue || t in s'.inflight
      ensures IsTicketOf(s'.store, t)
    {
      hide Step, IsTicketOf, Grows, StoreOk;
      if Holds(s, t) {
        TicketStays(s.store, s'.store, t);
      } else {
        TicketIsOld(s, e, s', t);
        TicketTaken(s.store, e.name);
      }
    }
  }

  lemma BuriedKept(s: System, e: Event, s': System, n: string)
    requires StoreOk(s.store) && Step(s, e, s') && Buried(s, n) && !e.Restart?
    ensures Buried(s', n)
  {
    StoreKept(s, e, s');
    if e.ForgetDeleted? && e.name == n {
      assert Cached(s.store, n).None?;
    }
  }

  // When the sweep is over, every completed, crashed or unhealthy server of
  // the list is removed.
  lemma SweptAreDead(s: System, m: nat, g: GameServer)
    requires PassOk(s, m) && s.ctl.Running? && s.ctl.swept == |s.ctl.plan.doomed|
    requires g in s.ctl.plan.items && IsDoomed(g)
    ensures s.store.records[g.name].deleted && g.name in s.deleting
  {
    assert g in s.ctl.plan.doomed;
    var i :| 0 <= i < |s.ctl.plan.doomed| && s.ctl.plan.doomed[i] == g;
  }

  lemma TallyMoves(s: System, e: Event, s': System)
    requires Step(s, e, s')
    ensures !e.Finish? && !e.Restart? ==> s'.counted == s.counted && s'.recorded == s.recorded
    ensures e.Restart? ==> s'.counted == {} && s'.recorded == 0
  {
  }

  lemma TalliesKept(s: System, m: nat, e: Event, s': System)
    requires StoreOk(s.store) && TalliesOk(s) && PassOk(s, m) && Step(s, e, s')
    ensures TalliesOk(s')
  {
    hide Step, Buried, PassOk, StoreOk;
    TallyMoves(s, e, s');
    if !e.Restart? {
      forall n | n in s.counted
        ensures Buried(s', n)
      {
        BuriedKept(s, e, s', n);
      }
      if e.Finish? {
        FinishBuries(s, m, s');
      }
    }
  }

  lemma FinishBuries(s: System, m: nat, s': System)
    requires StoreOk(s.store) && TalliesOk(s) && PassOk(s, m) && Step(s, Finish, s')
    ensures s'.recorded == |s'.counted|
    ensures forall n :: n in s'.counted && n !in s.counted ==> Buried(s', n)
  {
    var items := s.ctl.plan.items;
    CrashNamesCount(items);
    assert CrashNames(items) !! s.counted by {
      assert CrashNames(items) <= NamesOf(items);
    }
    forall n | n in CrashNames(items)
      ensures Buried(s', n)
    {
      CrashIsBuried(s, m, s', n);
    }
  }

  lemma CrashIsBuried(s: System, m: nat, s': System, n: string)
    requires StoreOk(s.store) && PassOk(s, m) && Step(s, Finish, s') && n in CrashNames(s.ctl.plan.items)
    ensures Buried(s', n)
  {
    var g :| g in s.ctl.plan.items && IsCrash(g) && g.name == n;
    SweptAreDead(s, m, g);
    hide CoverOk, SweptOk, PlanOk;
  }

  lemma ListReadKept(s: System, e: Event, s': System, items: seq<GameServer>)
    requires StoreOk(s.store) && ListRead(s, items) && Step(s, e, s') && !e.Restart? && !e.Finish?
    ensures ListRead(s', items)
  {
    StoreKept(s, e, s');
    forall g | g in items
      ensures InHistory(s'.store, g) && 0 < s'.store.records[g.name].seen
    {
      HistoryGrows(s.store, s'.store, g);
    }
  }

  lemma GoneKept(s: System, e: Event, s': System, name: string)
    requires StoreOk(s.store) && Gone(s, name) && s.ctl.Running? && Step(s, e, s') && !e.Restart?
    ensures Gone(s', name)
  {
    StoreKept(s, e, s');
  }

  lemma BuriedUncached(s: System, n: string)
    requires StoreOk(s.store) && Buried(s, n) && n !in s.deleting
    ensures Cached(s.store, n).None?
  {
  }

  lemma BeginReadsCache(s: System, e: Event, s': System)
    requires StoreOk(s.store) && TalliesOk(s) && Step(s, e, s') && e.Begin?
    ensures ListRead(s', e.items)
  {
    forall g | g in e.items
      ensures InHistory(s.store, g) && 0 < s.store.records[g.name].seen
    {
      CachedInHistory(s.store, g.name);
    }
    forall n | n in s.counted
      ensures n !in CachedNames(s.store)
    {
      BuriedUncached(s, n);
    }
  }

  lemma BeginPlans(s: System, m: nat, e: Event, s': System)
    requires Step(s, e, s') && e.Begin? && e.spec.max <= m
    ensures PlanOk(s'.ctl.plan, m)
  {
    forall g | g in s'.ctl.plan.targets
      ensures g in e.items && IsTrimmable(g)
    {
      assert g in multiset(e.sorted);
    }
  }

  lemma BeginCovers(s: System, e: Event, s': System)
    requires StoreOk(s.store) && Accounted(s) && Step(s, e, s') && e.Begin?
    ensures CoverOk(s')
  {
    assert LiveNames(s.store) <= CachedNames(s.store);
  }

  lemma CallKeepsCover(s: System, e: Event, s': System)
    requires StoreOk(s.store) && s.ctl.Running? && CoverOk(s) && Step(s, e, s') && s'.ctl.Running? && !e.Begin?
    ensures CoverOk(s')
  {
    ProgressCounts(s, e, s');
    if IsCreation(e) {
      CreationAddsOne(s, e, s');
    } else {
      LiveOnlyShrinks(s, e, s');
    }
    hide Step, StoreOk, LiveNames;
  }

  lemma ProgressCounts(s: System, e: Event, s': System)
    requires s.ctl.Running? && Step(s, e, s') && s'.ctl.Running? && !e.Begin?
    ensures s'.ctl.plan == s.ctl.plan
    ensures if IsCreation(e) then s'.ctl.grown == s.ctl.grown + 1 else s.ctl.grown <= s'.ctl.grown && s'.creating <= s.creating
    ensures !IsCreation(e) ==> s'.creating == s.creating
  {
  }

  lemma ProgressKept(s: System, e: Event, s': System)
    requires s.ctl.Running? && ProgressOk(s.ctl) && Step(s, e, s') && s'.ctl.Running?
    ensures ProgressOk(s'.ctl) && s'.ctl.plan == s.ctl.plan
  {
  }

  lemma SweptKept(s: System, e: Event, s': System)
    requires StoreOk(s.store) && s.ctl.Running? && ProgressOk(s.ctl) && SweptOk(s) && Step(s, e, s') && s'.ctl.Running?
    ensures ProgressOk(s'.ctl) && SweptOk(s')
  {
    ProgressKept(s, e, s');
    forall i | 0 <= i < s'.ctl.swept
      ensures Gone(s', s'.ctl.plan.doomed[i].name)
    {
      if i < s.ctl.swept {
        GoneKept(s, e, s', s.ctl.plan.doomed[i].name);
      }
    }
  }

  lemma PassKept(s: System, m: nat, e: Event, s': System)
    requires StoreOk(s.store) && Accounted(s) && TalliesOk(s) && PassOk(s, m) && Step(s, e, s')
    requires e.Begin? ==> e.spec.max <= m
    ensures PassOk(s', m)
  {
    if s'.ctl.Running? {
      if e.Begin? {
        BeginReadsCache(s, e, s');
        BeginPlans(s, m, e, s');
        BeginCovers(s, e, s');
      } else {
        ProgressKept(s, e, s');
        ListReadKept(s, e, s', s.ctl.plan.items);
        SweptKept(s, e, s');
        CallKeepsCover(s, e, s');
      }
    }
  }

  lemma CreationSkips(s: System, e: Event, s': System)
    requires Step(s, e, s') && IsCreation(e)
    ensures s.ctl.Running? && s'.skipped == UnmatchedNames(s.ctl.plan.items)
    ensures s.ctl.swept == |s.ctl.plan.doomed| && s.ctl.grown < s.ctl.plan.want
  {
  }

  lemma LeftIsCounted(s: System, m: nat, n: string)
    requires StoreOk(s.store) && PassOk(s, m) && s.ctl.Running? && s.ctl.swept == |s.ctl.plan.doomed|
    requires Live(s.store, n).Some? && n in NamesOf(s.ctl.plan.items) && n !in UnmatchedNames(s.ctl.plan.items)
    ensures n in CountedNames(s.ctl.plan.items)
  {
    var items := s.ctl.plan.items;
    var g :| g in items && g.name == n;
    assert IsUnmatched(g) ==> g in Filter(items, IsUnmatched);
    if IsDoomed(g) {
      SweptAreDead(s, m, g);
      assert false;
    }
    assert g in Filter(items, IsCounted);
  }

  lemma CoveredSize(left: set<string>, counted: set<string>, made: set<string>, bound: nat, m: nat)
    requires left <= counted + made && |counted| <= bound && bound + |made| <= m
    ensures |left| <= m
  {
    CardinalityOfSubset(left, counted + made);
    assert |counted + made| <= |counted| + |made|;
  }

  lemma NotCreatedIsListed(s: System, m: nat, n: string)
    requires PassOk(s, m) && s.ctl.Running? && n in LiveNames(s.store) && n !in s.creating
    ensures n in NamesOf(s.ctl.plan.items)
  {
  }

  lemma CreationCovers(s: System, m: nat, e: Event, s': System)
    requires StoreOk(s.store) && PassOk(s, m) && Step(s, e, s') && IsCreation(e)
    ensures s.ctl.Running? && s'.skipped == UnmatchedNames(s.ctl.plan.items)
    ensures LiveNames(s'.store) - s'.skipped <= CountedNames(s.ctl.plan.items) + s'.creating
  {
    CreationAddsOne(s, e, s');
    CreationSkips(s, e, s');
    hide Step, StoreOk, PassOk, UnmatchedNames, CountedNames;
    forall n | n in LiveNames(s'.store) - s'.skipped
      ensures n in CountedNames(s.ctl.plan.items) + s'.creating
    {
      if n !in s'.creating {
        NotCreatedIsListed(s, m, n);
        LeftIsCounted(s, m, n);
      }
    }
  }

  lemma CreationsWithinPlan(s: System, m: nat, e: Event, s': System)
    requires PassOk(s, m) && Step(s, e, s') && IsCreation(e)
    ensures s.ctl.Running? && s.ctl.plan.counts == CountsOf(s.ctl.plan.items)
    ensures s.ctl.plan.counts.NonActive() + s.ctl.plan.counts.active + |s'.creating| <= m
  {
    assert |s'.creating| <= |s.creating| + 1;
  }

  /** Creation is the only step that can break the bound; it happens when every
      live server is a counted one of the list, or created by this very pass. */
  lemma CreationStaysBounded(s: System, m: nat, e: Event, s': System)
    requires StoreOk(s.store) && PassOk(s, m) && Step(s, e, s') && IsCreation(e)
    ensures Bounded(s', m)
  {
    CreationCovers(s, m, e, s');
    CreationsWithinPlan(s, m, e, s');
    hide Step, StoreOk, PassOk, CountsOf, CountedNames, UnmatchedNames, LiveNames;
    var p := s.ctl.plan;
    CountedNamesBound(p.items);
    CoveredSize(LiveNames(s'.store) - s'.skipped, CountedNames(p.items), s'.creating,
                p.counts.NonActive() + p.counts.active, m);
  }

  lemma SkippedStands(s: System, e: Event, s': System)
    requires Step(s, e, s') && !IsCreation(e)
    ensures s'.skipped == s.skipped
  {
  }

  lemma BoundedKept(s: System, m: nat, e: Event, s': System)
    requires StoreOk(s.store) && PassOk(s, m) && Bounded(s, m) && Step(s, e, s')
    ensures Bounded(s', m)
  {
    hide Step, StoreOk, PassOk, LiveNames;
    if IsCreation(e) {
      CreationStaysBounded(s, m, e, s');
    } else {
      LiveOnlyShrinks(s, e, s');
      SkippedStands(s, e, s');
      CardinalityOfSubset(LiveNames(s'.store) - s'.skipped, LiveNames(s.store) - s.skipped);
    }
  }

  lemma InvKept(s: System, m: nat, e: Event, s': System)
    requires Inv(s, m) && Step(s, e, s')
    requires e.Begin? ==> e.spec.max <= m
    ensures Inv(s', m)
  {
    StoreKept(s, e, s');
    AccountedKept(s, e, s');
    TalliesKept(s, m, e, s');
    TicketsKept(s, e, s');
    PassKept(s, m, e, s');
    BoundedKept(s, m, e, s');
  }

  lemma {:induction false} InvAlong(r: Run, m: nat, i: nat)
    requires IsRunFrom(EMPTY, r) && MaxAtMost(r, m) && i <= |r.events|
    ensures Inv(r.states[i], m)
  {
    if i == 0 {
      InitInv(m);
    } else {
      InvAlong(r, m, i - 1);
      InvKept(r.states[i - 1], m, r.events[i - 1], r.states[i]);
    }
  }

  lemma {:induction false} StoreOkAlong(start: System, r: Run, i: nat)
    requires IsRunFrom(start, r) && StoreOk(start.store) && i <= |r.events|
    ensures StoreOk(r.states[i].store)
  {
    hide Step, StoreOk;
    if i > 0 {
      StoreOkAlong(start, r, i - 1);
      StoreKept(r.states[i - 1], r.events[i - 1], r.states[i]);
    }
  }
}
