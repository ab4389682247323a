/** What the node agent keeps for one game server, and how the events it sees
    change it. */
module AgentSteps {
  import opened Options

  // Any other name a heartbeat may carry is Other.
  datatype GameState = NoState | Initializing | StandingBy | Active | Other(name: string)
  datatype GameHealth = NoHealth | Healthy | Unhealthy | OtherHealth(name: string)

  datatype Session = Session(id: string, cookie: string, initialPlayers: seq<string>)

  datatype Info = Info(
    isActive: bool, session: Session, previousState: GameState, previousHealth: GameHealth, connectedPlayers: nat,
    creationTime: int, lastHeartbeatTime: int, markedUnhealthy: bool)

  datatype Config = Config(heartbeatTimeout: int, firstHeartbeatTimeout: int, ignoreHealth: bool)

  datatype Heartbeat = Heartbeat(state: GameState, health: GameHealth, players: nat)

  datatype Operation = Continue | GoActive

  datatype Reply = BadRequest | NotFound | Failed | Replied(operation: Operation, session: Session)

  datatype StatusPatch = StatusPatch(state: GameState, health: GameHealth)

  datatype Mark = NoMark | MarkFailed | Marked

  datatype Event =
    | Delivered(now: int, state: GameState, health: GameHealth, session: Session)
    | Deleted(now: int)
    | Heard(now: int, heartbeat: Heartbeat, patchOk: bool, playersOk: bool, patch: Option<StatusPatch>, reply: Reply)
    | Checked(now: int, patchOk: bool, mark: Mark)

  function Fresh(now: int): Info {
    Info(false, Session("", "", []), NoState, NoHealth, 0, now, 0, false)
  }

  predicate ValidTransition(before: GameState, after: GameState) {
    || before == after
    || (before == NoState && (after == Initializing || after == StandingBy))
    || (before == Initializing && after == StandingBy)
    || (before == StandingBy && after == Active)
  }

  // Created or updated: the first delivery makes the entry.
  function AfterDelivery(tracked: Option<Info>, now: int, state: GameState, health: GameHealth, session: Session): Info {
    var info := if tracked.Some? then tracked.value else Fresh(now);
    if state == Active && health == Healthy then info.(isActive := true, session := session) else info
  }

  function HealthSeen(config: Config, health: GameHealth): GameHealth {
    if config.ignoreHealth || health == NoHealth then Healthy else health
  }

  // An Active heartbeat to an entry that has seen none tells of a restart of the agent.
  function Recovered(info: Info, state: GameState): Info {
    if state == Active && info.previousState == NoState then info.(previousState := Active) else info
  }

  predicate Unchanged(info: Info, state: GameState, health: GameHealth) {
    info.previousHealth == health && info.previousState == state
  }

  // The first heartbeat after an allocation repeats what the API server knows.
  predicate JustAllocated(info: Info, state: GameState, health: GameHealth) {
    info.previousState == StandingBy && state == Active && info.previousHealth == health
  }

  function PatchFor(info: Info, state: GameState, health: GameHealth): Option<StatusPatch> {
    if Unchanged(info, state, health) || JustAllocated(info, state, health)
       || !ValidTransition(Recovered(info, state).previousState, state) then None
    else Some(StatusPatch(state, health))
  }

  predicate Accepts(info: Info, state: GameState, health: GameHealth, patchOk: bool) {
    || Unchanged(info, state, health)
    || (ValidTransition(Recovered(info, state).previousState, state)
        && (PatchFor(info, state, health).Some? ==> patchOk))
  }

  function Updated(info: Info, state: GameState, health: GameHealth, patchOk: bool): Info {
    if Unchanged(info, state, health) then info
    else if Accepts(info, state, health, patchOk) then info.(previousState := state, previousHealth := health)
    else Recovered(info, state)
  }

  predicate PlayersDiffer(info: Info, heartbeat: Heartbeat) {
    heartbeat.state == Active && info.connectedPlayers != heartbeat.players
  }

  function ReplyTo(info: Info, state: GameState): Reply {
    Replied(if state == StandingBy && info.isActive then GoActive else Continue, info.session)
  }

  // The entry after a heartbeat, the patch sent and the reply.
  function AfterHeartbeat(config: Config, info: Info, now: int, heartbeat: Heartbeat, patchOk: bool, playersOk: bool)
    : (Info, Option<StatusPatch>, Reply)
  {
    var health := HealthSeen(config, heartbeat.health);
    var heard := info.(lastHeartbeatTime := now);
    var patch := PatchFor(heard, heartbeat.state, health);
    var updated := Updated(heard, heartbeat.state, health, patchOk);
    if !Accepts(heard, heartbeat.state, health, patchOk) then (updated, patch, Failed)
    else if !PlayersDiffer(updated, heartbeat) then (updated, patch, ReplyTo(updated, heartbeat.state))
    else if !playersOk then (updated, patch, Failed)
    else (updated.(connectedPlayers := heartbeat.players), patch, ReplyTo(updated, heartbeat.state))
  }

  predicate Overdue(config: Config, info: Info, now: int) {
    && info.previousHealth != Unhealthy
    && if info.lastHeartbeatTime == 0
       then info.creationTime != 0 && now - info.creationTime > config.firstHeartbeatTimeout
       else now - info.lastHeartbeatTime > config.heartbeatTimeout
  }

  function MarkFor(config: Config, info: Info, now: int, patchOk: bool): Mark {
    if info.markedUnhealthy || !Overdue(config, info, now) then NoMark
    else if patchOk then Marked
    else MarkFailed
  }

  predicate Step(config: Config, tracked: Option<Info>, event: Event, tracked': Option<Info>) {
    match event
    case Delivered(now, state, health, session) => tracked' == Some(AfterDelivery(tracked, now, state, health, session))
    case Deleted(_) => tracked' == None
    case Heard(now, heartbeat, patchOk, playersOk, patch, reply) =>
      if heartbeat.state == NoState then tracked' == tracked && patch == None && reply == BadRequest
      else if tracked.None? then tracked' == tracked && patch == None && reply == NotFound
      else
        var (info, sent, answer) := AfterHeartbeat(config, tracked.value, now, heartbeat, patchOk, playersOk);
        tracked' == Some(info) && patch == sent && reply == answer
    case Checked(now, patchOk, mark) =>
      if tracked.None? then tracked' == None && mark == NoMark
      else
        && mark == MarkFor(config, tracked.value, now, patchOk)
        && tracked' == Some(if mark == Marked then tracked.value.(markedUnhealthy := true) else tracked.value)
  }
}
