/** What every heartbeat and every check of a run brings about, told by what the
    agent heard and was delivered before. */
module HeartbeatTheorems {
  import opened Options
  import opened AgentSteps
  import opened AgentTheorems

  // Replies

  lemma AllocationStep(config: Config, tracked: Option<Info>, event: Event, tracked': Option<Info>)
    requires Step(config, tracked, event, tracked') && !event.Deleted?
    ensures Allocates(event) ==> tracked'.Some? && tracked'.value.isActive && tracked'.value.session == event.session
    ensures !Allocates(event) && tracked.Some? ==>
      tracked'.Some? && tracked'.value.isActive == tracked.value.isActive
      && tracked'.value.session == tracked.value.session
  {
  }

  lemma {:induction false} AllocationStands(config: Config, run: Run, i: nat, j: nat)
    requires IsRun(config, run) && LatestAllocation(run, i, j)
    ensures run.entries[i].Some? && run.entries[i].value.isActive
    ensures run.entries[i].value.session == run.events[j].session
  {
    AllocationStep(config, run.entries[i - 1], run.events[i - 1], run.entries[i]);
    hide Step;
    if j < i - 1 {
      AllocationStands(config, run, i - 1, j);
    }
  }

  const NO_SESSION := Session("", "", [])

  lemma SessionlessStep(config: Config, tracked: Option<Info>, event: Event, tracked': Option<Info>)
    requires Step(config, tracked, event, tracked') && tracked'.Some? && !tracked'.value.isActive
    ensures tracked.None? ==> tracked'.value.session == NO_SESSION
    ensures tracked.Some? ==> !tracked.value.isActive && tracked'.value.session == tracked.value.session
  {
  }

  lemma {:induction false} SessionlessBefore(config: Config, run: Run, i: nat)
    requires IsRun(config, run) && i < |run.entries| && run.entries[i].Some? && !run.entries[i].value.isActive
    ensures run.entries[i].value.session == NO_SESSION
  {
    SessionlessStep(config, run.entries[i - 1], run.events[i - 1], run.entries[i]);
    hide Step;
    if run.entries[i - 1].Some? {
      SessionlessBefore(config, run, i - 1);
    }
  }

  lemma ReplyOf(config: Config, tracked: Option<Info>, event: Event, tracked': Option<Info>)
    requires Step(config, tracked, event, tracked') && event.Heard? && event.reply.Replied?
    ensures tracked.Some? && event.reply.session == tracked.value.session
    ensures event.reply.operation == GoActive <==> tracked.value.isActive && event.heartbeat.state == StandingBy
  {
  }

  /** Once an active and healthy version of a server was delivered, every reply
      carries the session of the latest such version, and a server that still
      stands by is told to go active, each time. Before that no reply carries a
      session or tells it to. */
  lemma ReplyExactly(config: Config, run: Run, i: nat)
    requires IsRun(config, run) && i < |run.events| && run.events[i].Heard? && run.events[i].reply.Replied?
    ensures forall j: nat :: LatestAllocation(run, i, j) ==>
      && run.events[i].reply.session == run.events[j].session
      && (run.events[i].reply.operation == GoActive <==> run.events[i].heartbeat.state == StandingBy)
    ensures (forall j: nat :: !LatestAllocation(run, i, j)) ==>
      run.events[i].reply == Replied(Continue, NO_SESSION)
  {
    ReplyOf(config, run.entries[i], run.events[i], run.entries[i + 1]);
    hide Step;
    forall j: nat | LatestAllocation(run, i, j)
      ensures run.entries[i].value.isActive && run.entries[i].value.session == run.events[j].session
    {
      AllocationStands(config, run, i, j);
    }
    if run.entries[i].value.isActive {
      var j := ActiveWasDelivered(config, run, i);
      assert LatestAllocation(run, i, j);
    } else {
      SessionlessBefore(config, run, i);
    }
  }

  // Patches and what is remembered

  lemma NothingHeardKept(config: Config, tracked: Option<Info>, event: Event, tracked': Option<Info>)
    requires Step(config, tracked, event, tracked') && tracked'.Some? && tracked'.value.previousState == NoState
    requires tracked.Some? && tracked.value.previousState == NoState ==> tracked.value.previousHealth == NoHealth
    ensures tracked'.value.previousHealth == NoHealth
  {
  }

  lemma {:induction false} NothingHeardYet(config: Config, run: Run, i: nat)
    requires IsRun(config, run) && i < |run.entries| && run.entries[i].Some?
    requires run.entries[i].value.previousState == NoState
    ensures run.entries[i].value.previousHealth == NoHealth
  {
    if run.entries[i - 1].Some? && run.entries[i - 1].value.previousState == NoState {
      NothingHeardYet(config, run, i - 1);
    }
    NothingHeardKept(config, run.entries[i - 1], run.events[i - 1], run.entries[i]);
    hide Step;
  }

  // The next state in the order is allowed, and the same again; at first any is.
  predicate Follows(before: GameState, after: GameState) {
    && Known(after) && after != NoState
    && (before == NoState || Rank(before) <= Rank(after) <= Rank(before) + 1)
  }

  // A patch is due for a state and health that are allowed and news, but not for
  // the first Active heartbeat of an allocated server, which the API server knows.
  predicate PatchIsDue(info: Info, state: GameState, health: GameHealth) {
    && Follows(info.previousState, state)
    && !(info.previousState == state && info.previousHealth == health)
    && !(info.previousState == StandingBy && state == Active && info.previousHealth == health)
  }

  /** What a heartbeat did. It was taken in exactly if its state follows the one
      remembered and the patch, if one was due, went through. Its health counts as
      Healthy if it is empty or ignored. */
  ghost predicate HasOutcome(config: Config, info: Info, event: Event, info': Info)
    requires event.Heard?
  {
    var state := event.heartbeat.state;
    var health := if config.ignoreHealth || event.heartbeat.health == NoHealth then Healthy else event.heartbeat.health;
    var taken := Follows(info.previousState, state) && (event.patch.Some? ==> event.patchOk);
    var newPlayers := state == Active && info.connectedPlayers != event.heartbeat.players;
    && event.patch == (if PatchIsDue(info, state, health) then Some(StatusPatch(state, health)) else None)
    && info'.previousState == (if taken || (info.previousState == NoState && state == Active) then state
                               else info.previousState)
    && info'.previousHealth == (if taken then health else info.previousHealth)
    && info'.connectedPlayers == (if taken && newPlayers && event.playersOk then event.heartbeat.players
                                  else info.connectedPlayers)
    && (if taken && (newPlayers ==> event.playersOk) then event.reply.Replied? else event.reply == Failed)
  }

  lemma OutcomeStep(config: Config, info: Info, event: Event, tracked': Option<Info>)
    requires Step(config, Some(info), event, tracked') && event.Heard? && event.heartbeat.state != NoState
    requires Known(info.previousState) && (info.previousState == NoState ==> info.previousHealth == NoHealth)
    ensures tracked'.Some? && HasOutcome(config, info, event, tracked'.value)
  {
  }

  /** In every run the patch a heartbeat leads to, what is remembered of it, the
      player count and whether it is answered follow from the state and health
      remembered before and from what went through. */
  lemma HeartbeatOutcome(config: Config, run: Run, i: nat)
    requires IsRun(config, run) && IsHeartbeat(run, i) && run.entries[i].Some?
    ensures run.entries[i + 1].Some?
    ensures HasOutcome(config, run.entries[i].value, run.events[i], run.entries[i + 1].value)
  {
    hide Step, HasOutcome;
    StateIsKnown(config, run, i);
    if run.entries[i].value.previousState == NoState {
      NothingHeardYet(config, run, i);
    }
    OutcomeStep(config, run.entries[i].value, run.events[i], run.entries[i + 1]);
  }

  // Marks

  // The entry at i was made by event b.
  predicate BornAt(run: Run, i: nat, b: nat) {
    b < i && i < |run.entries| && |run.entries| == |run.events| + 1
    && run.events[b].Delivered? && run.entries[b].None? && Lives(run, b + 1, i)
  }

  // The last heartbeat the entry had heard by i.
  predicate LastHeartbeat(run: Run, b: nat, i: nat, h: nat) {
    b < h < i && IsHeartbeat(run, h) && forall k :: h < k < i ==> !IsHeartbeat(run, k)
  }

  predicate NoHeartbeat(run: Run, b: nat, i: nat) {
    forall k :: b < k < i ==> !IsHeartbeat(run, k)
  }

  predicate MarkedSince(run: Run, b: nat, i: nat)
    requires i <= |run.events|
  {
    exists k :: b < k < i && run.events[k].Checked? && run.events[k].mark == Marked
  }

  /** Every entry was made by one delivery. */
  lemma {:induction false} BirthOf(config: Config, run: Run, i: nat) returns (b: nat)
    requires IsRun(config, run) && i < |run.entries| && run.entries[i].Some?
    ensures BornAt(run, i, b)
  {
    assert Step(config, run.entries[i - 1], run.events[i - 1], run.entries[i]);
    if run.entries[i - 1].None? {
      b := i - 1;
    } else {
      b := BirthOf(config, run, i - 1);
    }
  }

  // What an entry remembers of the heartbeats.
  function Memory(info: Info): (GameState, GameHealth, nat) {
    (info.previousState, info.previousHealth, info.connectedPlayers)
  }

  lemma TimesStep(config: Config, info: Info, event: Event, tracked': Option<Info>)
    requires Step(config, Some(info), event, tracked') && !event.Deleted?
    ensures tracked'.Some? && tracked'.value.creationTime == info.creationTime
    ensures tracked'.value.lastHeartbeatTime ==
      if event.Heard? && event.heartbeat.state != NoState then event.now else info.lastHeartbeatTime
    ensures tracked'.value.markedUnhealthy == (info.markedUnhealthy || (event.Checked? && event.mark == Marked))
    ensures !(event.Heard? && event.heartbeat.state != NoState) ==> Memory(tracked'.value) == Memory(info)
  {
  }

  lemma BirthStep(config: Config, event: Event, tracked': Option<Info>)
    requires Step(config, None, event, tracked') && event.Delivered?
    ensures tracked'.Some? && tracked'.value.creationTime == event.now
    ensures tracked'.value.lastHeartbeatTime == 0 && !tracked'.value.markedUnhealthy
    ensures Memory(tracked'.value) == (NoState, NoHealth, 0)
  {
  }

  /** The times of an entry are those of its first delivery and of its last
      heartbeat, and it knows whether it has been marked. */
  lemma {:induction false} TimesAreEvents(config: Config, run: Run, b: nat, i: nat)
    requires IsRun(config, run) && BornAt(run, i, b)
    ensures run.entries[i].Some? && run.entries[i].value.creationTime == run.events[b].now
    ensures forall h: nat :: LastHeartbeat(run, b, i, h) ==> run.entries[i].value.lastHeartbeatTime == run.events[h].now
    ensures NoHeartbeat(run, b, i) ==> run.entries[i].value.lastHeartbeatTime == 0
    ensures run.entries[i].value.markedUnhealthy <==> MarkedSince(run, b, i)
  {
    hide Step;
    var event := run.events[i - 1];
    if b == i - 1 {
      BirthStep(config, event, run.entries[i]);
    } else {
      TimesAreEvents(config, run, b, i - 1);
      TimesStep(config, run.entries[i - 1].value, event, run.entries[i]);
      if !IsHeartbeat(run, i - 1) {
        forall h: nat | LastHeartbeat(run, b, i, h)
          ensures LastHeartbeat(run, b, i - 1, h)
        {
        }
      }
    }
  }

  /** An entry remembers nothing but what its last heartbeat left; deliveries and
      checks do not change that. */
  lemma {:induction false} MemoryIsOfHeartbeats(config: Config, run: Run, b: nat, i: nat)
    requires IsRun(config, run) && BornAt(run, i, b)
    ensures run.entries[i].Some?
    ensures NoHeartbeat(run, b, i) ==> Memory(run.entries[i].value) == (NoState, NoHealth, 0)
    ensures forall h: nat :: LastHeartbeat(run, b, i, h) ==>
      run.entries[h + 1].Some? && Memory(run.entries[i].value) == Memory(run.entries[h + 1].value)
  {
    hide Step, Memory;
    var event := run.events[i - 1];
    if b == i - 1 {
      BirthStep(config, event, run.entries[i]);
    } else {
      MemoryIsOfHeartbeats(config, run, b, i - 1);
      TimesStep(config, run.entries[i - 1].value, event, run.entries[i]);
      if !IsHeartbeat(run, i - 1) {
        forall h: nat | LastHeartbeat(run, b, i, h)
          ensures LastHeartbeat(run, b, i - 1, h)
        {
        }
      }
    }
  }

  lemma MarkOf(config: Config, info: Info, event: Event, tracked': Option<Info>)
    requires Step(config, Some(info), event, tracked') && event.Checked? && info.creationTime > 0
    ensures event.mark != NoMark <==>
      && !info.markedUnhealthy && info.previousHealth != Unhealthy
      && (info.lastHeartbeatTime == 0 ==> event.now - info.creationTime > config.firstHeartbeatTimeout)
      && (info.lastHeartbeatTime != 0 ==> event.now - info.lastHeartbeatTime > config.heartbeatTimeout)
    ensures event.mark == Marked <==> event.mark != NoMark && event.patchOk
  {
  }

  lemma {:induction false} SomeLastHeartbeat(run: Run, b: nat, i: nat) returns (h: nat)
    requires b < i && !NoHeartbeat(run, b, i)
    ensures LastHeartbeat(run, b, i, h)
  {
    if b < i - 1 && IsHeartbeat(run, i - 1) {
      h := i - 1;
    } else {
      h := SomeLastHeartbeat(run, b, i - 1);
    }
  }

  /** A check tries to mark a server exactly when none has marked it since its
      entry was made, it is not remembered as unhealthy, and its last heartbeat,
      or without any its first delivery, is longer ago than the timeout for it. */
  lemma MarkedExactly(config: Config, run: Run, b: nat, i: nat)
    requires IsRun(config, run) && Timed(run) && BornAt(run, i, b) && i < |run.events| && run.events[i].Checked?
    ensures run.entries[i].Some?
    ensures run.events[i].mark != NoMark <==>
      && !MarkedSince(run, b, i) && run.entries[i].value.previousHealth != Unhealthy
      && (NoHeartbeat(run, b, i) ==> run.events[i].now - run.events[b].now > config.firstHeartbeatTimeout)
      && (forall h: nat :: LastHeartbeat(run, b, i, h) ==>
            run.events[i].now - run.events[h].now > config.heartbeatTimeout)
    ensures run.events[i].mark == Marked <==> run.events[i].mark != NoMark && run.events[i].patchOk
  {
    hide Step;
    TimesAreEvents(config, run, b, i);
    MarkOf(config, run.entries[i].value, run.events[i], run.entries[i + 1]);
    if !NoHeartbeat(run, b, i) {
      var h := SomeLastHeartbeat(run, b, i);
      assert run.events[h].now > 0;
    }
  }
}
