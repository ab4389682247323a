/** What holds along every run of the node agent, for one server's entry. */
module AgentTheorems {
  import opened Options
  import opened AgentSteps

  datatype Run = Run(entries: seq<Option<Info>>, events: seq<Event>)

  predicate IsRun(config: Config, run: Run) {
    && |run.entries| == |run.events| + 1
    && run.entries[0] == None
    && forall i :: 0 <= i < |run.events| ==> Step(config, run.entries[i], run.events[i], run.entries[i + 1])
  }

  // The clock is positive and never goes back.
  predicate Timed(run: Run) {
    && (forall i :: 0 <= i < |run.events| ==> run.events[i].now > 0)
    && (forall i, j :: 0 <= i < j < |run.events| ==> run.events[i].now <= run.events[j].now)
  }

  // The entry lives from one point of the run to the other.
  predicate Lives(run: Run, i: nat, j: nat) {
    && i <= j < |run.entries| && |run.entries| == |run.events| + 1
    && run.entries[i].Some?
    && forall k :: i <= k < j ==> !run.events[k].Deleted?
  }

  lemma {:induction false} StaysTracked(config: Config, run: Run, i: nat, j: nat)
    requires IsRun(config, run) && Lives(run, i, j)
    ensures run.entries[j].Some?
  {
    if i < j {
      StaysTracked(config, run, i, j - 1);
      assert Step(config, run.entries[j - 1], run.events[j - 1], run.entries[j]);
    }
  }

  // States only move forward

  predicate Known(state: GameState) {
    !state.Other?
  }

  function Rank(state: GameState): nat {
    match state
    case Initializing => 1
    case StandingBy => 2
    case Active => 3
    case _ => 0
  }

  lemma HeartbeatMovesForward(config: Config, info: Info, now: int, heartbeat: Heartbeat, patchOk: bool, playersOk: bool)
    requires Known(info.previousState) && heartbeat.state != NoState
    ensures var info' := AfterHeartbeat(config, info, now, heartbeat, patchOk, playersOk).0;
            Known(info'.previousState) && Rank(info.previousState) <= Rank(info'.previousState)
  {
  }

  lemma {:induction false} StateIsKnown(config: Config, run: Run, i: nat)
    requires IsRun(config, run) && i < |run.entries|
    ensures run.entries[i].Some? ==> Known(run.entries[i].value.previousState)
  {
    if i > 0 {
      StateIsKnown(config, run, i - 1);
      assert Step(config, run.entries[i - 1], run.events[i - 1], run.entries[i]);
      var event := run.events[i - 1];
      if event.Heard? && run.entries[i - 1].Some? && event.heartbeat.state != NoState {
        HeartbeatMovesForward(config, run.entries[i - 1].value, event.now, event.heartbeat, event.patchOk,
                              event.playersOk);
      }
    }
  }

  /** As long as the entry lives, its previous state is one of the four the
      agent knows and never goes back in their order. */
  lemma {:induction false} StatesMoveForward(config: Config, run: Run, i: nat, j: nat)
    requires IsRun(config, run) && Lives(run, i, j)
    ensures run.entries[j].Some? && Known(run.entries[j].value.previousState)
    ensures Rank(run.entries[i].value.previousState) <= Rank(run.entries[j].value.previousState)
    decreases j
  {
    StateIsKnown(config, run, j);
    StaysTracked(config, run, i, j);
    if i < j {
      StatesMoveForward(config, run, i, j - 1);
      var event := run.events[j - 1];
      assert Step(config, run.entries[j - 1], event, run.entries[j]);
      if event.Heard? && event.heartbeat.state != NoState {
        HeartbeatMovesForward(config, run.entries[j - 1].value, event.now, event.heartbeat, event.patchOk,
                              event.playersOk);
      }
    }
  }

  // Active replies

  predicate Allocates(event: Event) {
    event.Delivered? && event.state == Active && event.health == Healthy
  }

  predicate RepliesActive(event: Event) {
    event.Heard? && event.reply.Replied? && event.reply.operation == GoActive
  }

  // The allocation delivered last before i, with nothing deleted since.
  predicate LatestAllocation(run: Run, i: nat, j: nat) {
    && j < i <= |run.events| && Allocates(run.events[j])
    && forall k :: j < k < i ==> !Allocates(run.events[k]) && !run.events[k].Deleted?
  }

  lemma SessionStands(config: Config, tracked: Option<Info>, event: Event, tracked': Option<Info>)
    requires Step(config, tracked, event, tracked') && tracked'.Some? && tracked'.value.isActive && !Allocates(event)
    ensures tracked.Some? && tracked.value.isActive && tracked.value.session == tracked'.value.session
  {
  }

  lemma {:induction false} ActiveWasDelivered(config: Config, run: Run, i: nat) returns (j: nat)
    requires IsRun(config, run) && i < |run.entries| && run.entries[i].Some? && run.entries[i].value.isActive
    ensures LatestAllocation(run, i, j) && run.events[j].session == run.entries[i].value.session
  {
    var event := run.events[i - 1];
    assert Step(config, run.entries[i - 1], event, run.entries[i]);
    if Allocates(event) {
      j := i - 1;
    } else {
      SessionStands(config, run.entries[i - 1], event, run.entries[i]);
      j := ActiveWasDelivered(config, run, i - 1);
    }
  }

  /** A server is told to go active only after an active and healthy version of
      it was delivered, and with the session of the latest such version. */
  lemma ActiveReplyHasAllocation(config: Config, run: Run, i: nat) returns (j: nat)
    requires IsRun(config, run) && i < |run.events| && RepliesActive(run.events[i])
    ensures LatestAllocation(run, i, j) && run.events[j].session == run.events[i].reply.session
    ensures run.events[i].heartbeat.state == StandingBy
  {
    var event := run.events[i];
    assert Step(config, run.entries[i], event, run.entries[i + 1]);
    j := ActiveWasDelivered(config, run, i);
  }

  // The heartbeat itself was taken in, whatever became of the player count.
  predicate TookActive(run: Run, i: nat) {
    && i < |run.events| && i + 1 < |run.entries|
    && run.events[i].Heard? && run.events[i].heartbeat.state == Active && run.events[i].reply.Replied?
  }

  /** A server that was heard to be active is never told to go active again. */
  lemma NeverActiveTwice(config: Config, run: Run, i: nat, j: nat)
    requires IsRun(config, run) && TookActive(run, i) && i < j < |run.events| && Lives(run, i + 1, j)
    ensures !RepliesActive(run.events[j])
  {
    assert Step(config, run.entries[i], run.events[i], run.entries[i + 1]);
    assert run.entries[i + 1].value.previousState == Active;
    StatesMoveForward(config, run, i + 1, j);
    assert Step(config, run.entries[j], run.events[j], run.entries[j + 1]);
  }

  // Timeouts

  // The times an entry is judged by do not change while it hears nothing.
  predicate Silent(run: Run, i: nat, j: nat) {
    forall k :: i <= k < j && k < |run.events| ==> !(run.events[k].Heard? && run.events[k].heartbeat.state != NoState)
  }

  lemma {:induction false} SilenceKeepsTimes(config: Config, run: Run, i: nat, j: nat)
    requires IsRun(config, run) && Lives(run, i, j) && Silent(run, i, j)
    ensures run.entries[j].Some?
    ensures run.entries[j].value.lastHeartbeatTime == run.entries[i].value.lastHeartbeatTime
    ensures run.entries[j].value.creationTime == run.entries[i].value.creationTime
    ensures run.entries[j].value.previousHealth == run.entries[i].value.previousHealth
    decreases j
  {
    if i < j {
      SilenceKeepsTimes(config, run, i, j - 1);
      assert Step(config, run.entries[j - 1], run.events[j - 1], run.entries[j]);
    }
  }

  // A heartbeat is on time if it comes soon enough after the one before it or, as the first, after creation.
  predicate OnTime(config: Config, run: Run, i: nat) {
    && i < |run.events| && i < |run.entries| && run.entries[i].Some?
    && run.events[i].Heard? && run.events[i].heartbeat.state != NoState
    && var info := run.entries[i].value;
       if info.lastHeartbeatTime == 0 then run.events[i].now - info.creationTime <= config.firstHeartbeatTimeout
       else run.events[i].now - info.lastHeartbeatTime <= config.heartbeatTimeout
  }

  predicate IsHeartbeat(run: Run, i: nat) {
    i < |run.events| && run.events[i].Heard? && run.events[i].heartbeat.state != NoState
  }

  lemma OnTimeIsNotMarked(config: Config, run: Run, i: nat, next: nat)
    requires IsRun(config, run) && Timed(run) && i < next < |run.events| && run.events[i].Checked?
    requires Lives(run, i, next) && Silent(run, i, next) && OnTime(config, run, next)
    ensures run.events[i].mark == NoMark
  {
    SilenceKeepsTimes(config, run, i, next);
    assert Step(config, run.entries[i], run.events[i], run.entries[i + 1]);
    assert run.events[i].now <= run.events[next].now;
  }

  lemma {:induction false} NextHeartbeat(run: Run, i: nat, last: nat) returns (next: nat)
    requires i < last && IsHeartbeat(run, last) && !IsHeartbeat(run, i)
    ensures i < next <= last && IsHeartbeat(run, next) && Silent(run, i, next)
    decreases last - i
  {
    if IsHeartbeat(run, i + 1) {
      next := i + 1;
    } else {
      next := NextHeartbeat(run, i + 1, last);
    }
  }

  /** A server whose first heartbeat and every later one come within the two
      timeouts is not marked by any check up to the last of them. */
  lemma PunctualIsNeverMarked(config: Config, run: Run, born: nat, last: nat, i: nat)
    requires IsRun(config, run) && Timed(run) && Lives(run, born, last) && IsHeartbeat(run, last)
    requires forall k :: born <= k <= last && IsHeartbeat(run, k) ==> OnTime(config, run, k)
    requires born <= i < last && run.events[i].Checked?
    ensures run.events[i].mark == NoMark
  {
    var next := NextHeartbeat(run, i, last);
    StaysTracked(config, run, born, i);
    OnTimeIsNotMarked(config, run, i, next);
  }

  // The point in time at which a silent entry becomes overdue.
  function Deadline(config: Config, info: Info): int {
    if info.lastHeartbeatTime == 0 then info.creationTime + config.firstHeartbeatTimeout
    else info.lastHeartbeatTime + config.heartbeatTimeout
  }

  // Checks follow one another within the time between two of them.
  predicate ChecksEvery(run: Run, period: int, i: nat, j: nat) {
    && i <= j < |run.events|
    && forall k, l :: i <= k < l <= j && run.events[k].Checked? && run.events[l].Checked?
                      && (forall m :: k < m < l ==> !run.events[m].Checked?) ==>
         run.events[l].now - run.events[k].now <= period
  }

  lemma {:induction false} BornAfterZero(config: Config, run: Run, i: nat)
    requires IsRun(config, run) && Timed(run) && i < |run.entries|
    ensures run.entries[i].Some? ==> run.entries[i].value.creationTime > 0
  {
    if i > 0 {
      BornAfterZero(config, run, i - 1);
      assert Step(config, run.entries[i - 1], run.events[i - 1], run.entries[i]);
    }
  }

  // The last check up to some point of the run.
  lemma {:induction false} LastCheck(run: Run, i: nat, j: nat) returns (k: nat)
    requires i < j <= |run.events| && run.events[i].Checked?
    ensures i <= k < j && run.events[k].Checked? && forall m :: k < m < j ==> !run.events[m].Checked?
    decreases j
  {
    if run.events[j - 1].Checked? {
      k := j - 1;
    } else {
      k := LastCheck(run, i, j - 1);
    }
  }

  // The first check past a deadline comes within a period of it.
  lemma {:induction false} FirstCheckPast(run: Run, period: int, deadline: int, i: nat, j: nat) returns (k: nat)
    requires Timed(run) && ChecksEvery(run, period, i, j) && run.events[i].Checked? && run.events[j].Checked?
    requires run.events[i].now <= deadline < run.events[j].now
    ensures i < k <= j && run.events[k].Checked? && deadline < run.events[k].now <= deadline + period
    decreases j
  {
    k := j;
    var before := LastCheck(run, i, j);
    if run.events[before].now > deadline {
      k := FirstCheckPast(run, period, deadline, i, before);
    }
  }

  lemma {:induction false} UnmarkedStays(config: Config, run: Run, i: nat, j: nat)
    requires IsRun(config, run) && Lives(run, i, j) && !run.entries[i].value.markedUnhealthy
    requires forall k :: i <= k < j && run.events[k].Checked? ==> run.events[k].mark != Marked
    ensures run.entries[j].Some? && !run.entries[j].value.markedUnhealthy
    decreases j
  {
    if i < j {
      UnmarkedStays(config, run, i, j - 1);
      assert Step(config, run.entries[j - 1], run.events[j - 1], run.entries[j]);
    }
  }

  /** A server that falls silent without being unhealthy, and was not marked
      before, is marked within a timeout of its deadline, and so within twice the
      timeout of its last heartbeat: checks come at least that often and their
      patches go through. */
  lemma SilentIsMarked(config: Config, run: Run, from: nat, first: nat, last: nat) returns (k: nat)
    requires IsRun(config, run) && Timed(run) && from <= first < last && Lives(run, from, last)
    requires Silent(run, from, last)
    requires var info := run.entries[from].value;
             && info.previousHealth != Unhealthy && !info.markedUnhealthy
             && run.events[first].Checked? && last < |run.events| && run.events[last].Checked?
             && run.events[first].now <= Deadline(config, info) < run.events[last].now
    requires ChecksEvery(run, config.heartbeatTimeout, first, last)
    requires forall m :: from <= m <= last && run.events[m].Checked? ==> run.events[m].patchOk
    ensures from <= k <= last && run.events[k].Checked? && run.events[k].mark == Marked
    ensures run.events[k].now <= Deadline(config, run.entries[from].value) + config.heartbeatTimeout
  {
    var deadline := Deadline(config, run.entries[from].value);
    BornAfterZero(config, run, from);
    var check := FirstCheckPast(run, config.heartbeatTimeout, deadline, first, last);
    SilenceKeepsTimes(config, run, from, check);
    assert Step(config, run.entries[check], run.events[check], run.entries[check + 1]);
    if run.events[check].mark == Marked {
      k := check;
    } else if m: nat :| from <= m < check && run.events[m].Checked? && run.events[m].mark == Marked {
      k := m;
      assert run.events[m].now <= run.events[check].now;
    } else {
      UnmarkedStays(config, run, from, check);
      assert false;
    }
  }

  /** No entry is marked twice: not even a server that recovered and falls silent again. */
  lemma {:induction false} MarkedOnce(config: Config, run: Run, i: nat, j: nat)
    requires IsRun(config, run) && i < j < |run.events| && Lives(run, i, j)
    requires run.events[i].Checked? && run.events[i].mark == Marked
    ensures run.entries[j].Some? && run.entries[j].value.markedUnhealthy
    ensures run.events[j].Checked? ==> run.events[j].mark == NoMark
    decreases j
  {
    if i + 1 < j {
      MarkedOnce(config, run, i, j - 1);
      assert Step(config, run.entries[j - 1], run.events[j - 1], run.entries[j]);
    } else {
      assert Step(config, run.entries[i], run.events[i], run.entries[i + 1]);
    }
    assert Step(config, run.entries[j], run.events[j], run.entries[j + 1]);
  }

  // Patches

  /** The patch carries no resource version: an agent that restarts while a
      server is allocated writes StandingBy over the server's Active state. */
  lemma RestartOverwritesActive(config: Config, session: Session) returns (run: Run)
    ensures IsRun(config, run) && Timed(run) && |run.events| == 2
    ensures Allocates(run.events[0])
    ensures run.events[1].Heard? && run.events[1].patch == Some(StatusPatch(StandingBy, Healthy))
  {
    var heartbeat := Heartbeat(StandingBy, Healthy, 0);
    var info := AfterDelivery(None, 1, Active, Healthy, session);
    var (info', patch, reply) := AfterHeartbeat(config, info, 2, heartbeat, true, true);
    run := Run([None, Some(info), Some(info')],
               [Delivered(1, Active, Healthy, session), Heard(2, heartbeat, true, true, patch, reply)]);
  }
}
