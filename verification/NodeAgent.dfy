/** The node agent: the entries of the game servers on its node, updated in
    place by the watch, the heartbeats and the timeout checker. */
module NodeAgent {
  import opened Options
  import opened AgentSteps

  class GameServerInfo {
    ghost const name: string
    var isActive: bool
    var session: Session
    var previousGameState: GameState
    var previousGameHealth: GameHealth
    var connectedPlayersCount: nat
    var creationTime: int
    var lastHeartbeatTime: int
    var markedUnhealthy: bool

    ghost function View(): Info
      reads this
    {
      Info(isActive, session, previousGameState, previousGameHealth, connectedPlayersCount, creationTime,
           lastHeartbeatTime, markedUnhealthy)
    }

    constructor (ghost name: string, now: int)
      ensures this.name == name && View() == Fresh(now)
    {
      this.name := name;
      isActive, session, connectedPlayersCount := false, Session("", "", []), 0;
      previousGameState, previousGameHealth := NoState, NoHealth;
      creationTime, lastHeartbeatTime, markedUnhealthy := now, 0, false;
    }
  }

  class NodeAgentManager {
    const config: Config
    var gameServerMap: map<string, GameServerInfo>

    // No two names share an entry.
    ghost predicate Valid()
      reads this
    {
      forall n :: n in gameServerMap ==> gameServerMap[n].name == n
    }

    ghost function Tracked(name: string): Option<Info>
      reads this, gameServerMap.Values
    {
      if name in gameServerMap then Some(gameServerMap[name].View()) else None
    }

    constructor (config: Config)
      ensures Valid() && this.config == config && gameServerMap == map[]
    {
      this.config := config;
      gameServerMap := map[];
    }

    method GameServerCreatedOrUpdated(name: string, now: int, state: GameState, health: GameHealth, session: Session)
      requires Valid()
      modifies this, gameServerMap.Values
      ensures Valid()
      ensures Step(config, old(Tracked(name)), Delivered(now, state, health, session), Tracked(name))
      ensures forall other :: other != name ==> Tracked(other) == old(Tracked(other))
    {
      if name !in gameServerMap {
        var info := new GameServerInfo(name, now);
        gameServerMap := gameServerMap[name := info];
      }
      if state != Active || health != Healthy {
        return;
      }
      var info := gameServerMap[name];
      info.isActive := true;
      info.session := session;
    }

    method GameServerDeleted(name: string, now: int)
      requires Valid()
      modifies this
      ensures Valid()
      ensures Step(config, old(Tracked(name)), Deleted(now), Tracked(name))
      ensures forall other :: other != name ==> Tracked(other) == old(Tracked(other))
    {
      gameServerMap := gameServerMap - {name};
    }

    method UpdateHealthAndStateIfNeeded(info: GameServerInfo, state: GameState, health: GameHealth, patchOk: bool)
      returns (ok: bool, patch: Option<StatusPatch>)
      modifies info`previousGameState, info`previousGameHealth
      ensures patch == PatchFor(old(info.View()), state, health)
      ensures ok <==> Accepts(old(info.View()), state, health, patchOk)
      ensures info.View() == Updated(old(info.View()), state, health, patchOk)
    {
      patch := None;
      if info.previousGameHealth == health && info.previousGameState == state {
        return true, patch;
      }
      if state == Active && info.previousGameState == NoState {
        info.previousGameState := Active;
      }
      if !ValidTransition(info.previousGameState, state) {
        return false, patch;
      }
      if !(info.previousGameState == StandingBy && state == Active && info.previousGameHealth == health) {
        patch := Some(StatusPatch(state, health));
        if !patchOk {
          return false, patch;
        }
      }
      info.previousGameHealth := health;
      info.previousGameState := state;
      ok := true;
    }

    method UpdateConnectedPlayersIfNeeded(info: GameServerInfo, heartbeat: Heartbeat, playersOk: bool)
      returns (ok: bool)
      modifies info`connectedPlayersCount
      ensures ok <==> PlayersDiffer(old(info.View()), heartbeat) ==> playersOk
      ensures info.View() == if PlayersDiffer(old(info.View()), heartbeat) && playersOk
                             then old(info.View()).(connectedPlayers := heartbeat.players) else old(info.View())
    {
      if heartbeat.state != Active || info.connectedPlayersCount == heartbeat.players {
        return true;
      }
      if !playersOk {
        return false;
      }
      info.connectedPlayersCount := heartbeat.players;
      ok := true;
    }

    // The part of the handler that follows once the entry is found.
    method HandleHeartbeat(info: GameServerInfo, heartbeat: Heartbeat, now: int, patchOk: bool, playersOk: bool)
      returns (reply: Reply, patch: Option<StatusPatch>)
      modifies info
      ensures (info.View(), patch, reply)
           == AfterHeartbeat(config, old(info.View()), now, heartbeat, patchOk, playersOk)
    {
      hide Accepts, Updated, PatchFor;
      var health := if heartbeat.health == NoHealth then Healthy else heartbeat.health;
      info.lastHeartbeatTime := now;
      if config.ignoreHealth {
        health := Healthy;
      }
      var ok: bool;
      ok, patch := UpdateHealthAndStateIfNeeded(info, heartbeat.state, health, patchOk);
      if !ok {
        return Failed, patch;
      }
      ok := UpdateConnectedPlayersIfNeeded(info, heartbeat, playersOk);
      if !ok {
        return Failed, patch;
      }
      var operation := Continue;
      if heartbeat.state == StandingBy && info.isActive {
        operation := GoActive;
      }
      reply := Replied(operation, info.session);
    }

    method HeartbeatHandler(name: string, heartbeat: Heartbeat, now: int, patchOk: bool, playersOk: bool)
      returns (reply: Reply, patch: Option<StatusPatch>)
      requires Valid()
      modifies gameServerMap.Values
      ensures Valid()
      ensures Step(config, old(Tracked(name)), Heard(now, heartbeat, patchOk, playersOk, patch, reply), Tracked(name))
      ensures heartbeat.state == NoState <==> reply == BadRequest
      ensures heartbeat.state != NoState && name !in gameServerMap <==> reply == NotFound
      ensures forall other :: other != name ==> Tracked(other) == old(Tracked(other))
    {
      if heartbeat.state == NoState {
        return BadRequest, None;
      }
      if name !in gameServerMap {
        return NotFound, None;
      }
      reply, patch := HandleHeartbeat(gameServerMap[name], heartbeat, now, patchOk, playersOk);
    }

    method CheckOne(info: GameServerInfo, now: int, patchOk: bool) returns (mark: Mark)
      modifies info`markedUnhealthy
      ensures Step(config, Some(old(info.View())), Checked(now, patchOk, mark), Some(info.View()))
    {
      mark := NoMark;
      var late := false;
      if info.lastHeartbeatTime == 0 && info.creationTime != 0 &&
         now - info.creationTime > config.firstHeartbeatTimeout && info.previousGameHealth != Unhealthy {
        late := true;
      } else if info.lastHeartbeatTime != 0 && now - info.lastHeartbeatTime > config.heartbeatTimeout &&
         info.previousGameHealth != Unhealthy {
        late := true;
      }
      if !info.markedUnhealthy && late {
        mark := MarkFailed;
        if patchOk {
          info.markedUnhealthy := true;
          mark := Marked;
        }
      }
    }

    /** Every entry is checked once, in no particular order, at the time its turn comes. */
    method HeartbeatTimeChecker(now: string -> int, patchOk: string -> bool) returns (marks: map<string, Mark>)
      requires Valid()
      modifies gameServerMap.Values
      ensures Valid() && marks.Keys == gameServerMap.Keys
      ensures forall n :: n in gameServerMap ==>
        Step(config, old(Tracked(n)), Checked(now(n), patchOk(n), marks[n]), Tracked(n))
    {
      hide Step, GameServerInfo.View;
      marks := map[];
      var left := gameServerMap.Keys;
      while left != {}
        invariant left <= gameServerMap.Keys && marks.Keys == gameServerMap.Keys - left
        invariant forall n :: n in left ==> Tracked(n) == old(Tracked(n))
        invariant forall n :: n in gameServerMap.Keys - left ==>
          Step(config, old(Tracked(n)), Checked(now(n), patchOk(n), marks[n]), Tracked(n))
        decreases |left|
      {
        var n :| n in left;
        var mark := CheckOne(gameServerMap[n], now(n), patchOk(n));
        marks := marks[n := mark];
        left := left - {n};
      }
    }
  }
}
