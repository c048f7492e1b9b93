/**
 The room object: fields that the handlers update in place, with the source's loops. Every
 method is proved to do to the object exactly what the machine of RoomModel does to its state,
 and every handler keeps the aggregate invariant; so whole runs of the object are runs of the
 machine, and what is proved of those holds of it.
 */
module RoomObject {
  import opened Prelude
  import opened GoStrings
  import opened Nicknames
  import opened NameGenerator
  import opened Physics
  import opened RoomModel
  import opened RoomInvariants
  import opened PhysicsObject
  import opened PhysicsLaws

  lemma NobodyNamed(players: Roster)
    ensures NamesOf(players - players.Keys) == {}
  {
  }

  lemma NamesOfAdd(gone: Roster, id: PlayerId, p: Player)
    requires id !in gone
    ensures NamesOf(gone[id := p]) == NamesOf(gone) + {p.nickname}
  {
    var more := gone[id := p];
    forall n | n in NamesOf(gone) + {p.nickname}
      ensures n in NamesOf(more)
    {
      if n == p.nickname {
        assert more[id].nickname == n;
      } else {
        var i :| i in gone && gone[i].nickname == n;
        assert more[i].nickname == n;
      }
    }
  }

  // ---------------------------------------------------------------- the source's loops

  /** The loop of materializeRoom over the saved players. */
  method MarkAllDisconnected(saved: Roster, now: int) returns (players: Roster, names: set<Name>)
    ensures players == MarkAll(saved, now) && names == NamesOf(saved)
  {
    hide NamesOf, MarkDisconnected;
    players, names := saved, {};
    var todo := saved.Keys;
    NobodyNamed(saved);
    while todo != {}
      invariant todo <= saved.Keys && players.Keys == saved.Keys
      invariant forall id :: id in saved ==>
                  players[id] == if id in todo then saved[id] else MarkDisconnected(saved[id], now)
      invariant names == NamesOf(saved - todo)
      decreases |todo|
    {
      var id :| id in todo;
      NamesOfAdd(saved - todo, id, saved[id]);
      assert (saved - todo)[id := saved[id]] == saved - (todo - {id});
      names := names + {saved[id].nickname};
      players := players[id := MarkDisconnected(players[id], now)];
      todo := todo - {id};
    }
    assert saved - todo == saved;
  }

  lemma CountStep(connected: set<PlayerId>, votes: set<PlayerId>, todo: set<PlayerId>, id: PlayerId)
    requires id in todo
    ensures connected - (todo - {id}) == if id in connected then connected - todo + {id} else connected - todo
    ensures (connected - (todo - {id})) * votes ==
            if id in connected && id in votes then (connected - todo) * votes + {id} else (connected - todo) * votes
  {
  }

  /** The counting loop of countRestartYesVotes. */
  method CountRestartYesVotes(players: Roster, votes: set<PlayerId>) returns (yes: nat, connected: nat)
    ensures yes == YesVotes(players, votes)
    ensures connected == |Connected(players)|
  {
    yes, connected := 0, 0;
    var todo := players.Keys;
    ghost var all := Connected(players);
    assert all - todo == {};
    while todo != {}
      invariant todo <= players.Keys
      invariant connected == |all - todo| && yes == |(all - todo) * votes|
      decreases |todo|
    {
      var id :| id in todo;
      CountStep(all, votes, todo, id);
      todo := todo - {id};
      if !players[id].disconnected {
        connected := connected + 1;
        if id in votes {
          yes := yes + 1;
        }
      }
    }
    assert all - todo == all;
  }

  /** The pruning loops at the head of handleAutoRestart: first collect, then delete. */
  method PruneVotes(players: Roster, votes: set<PlayerId>) returns (kept: set<PlayerId>)
    ensures kept == votes * Connected(players)
  {
    var toDelete: set<PlayerId> := {};
    var todo := votes;
    while todo != {}
      invariant todo <= votes && toDelete == votes - todo - Connected(players)
      decreases |todo|
    {
      var id :| id in todo;
      todo := todo - {id};
      if id !in players || players[id].disconnected {
        toDelete := toDelete + {id};
      }
    }
    kept := votes - toDelete;
  }

  lemma NobodyYet(players: Roster, now: int)
    ensures Only(players, {}) == map[] && NamesOf(map[]) == {} && ClearAllStats(map[], now) == map[]
  {
  }

  lemma OneMore(players: Roster, done: set<PlayerId>, id: PlayerId, now: int)
    requires id !in done
    ensures id !in Only(players, done)
    ensures Only(players, done + {id}) ==
            if id in players then Only(players, done)[id := players[id]] else Only(players, done)
    ensures id in players ==>
              ClearAllStats(Only(players, done + {id}), now) ==
              ClearAllStats(Only(players, done), now)[id := ClearStats(players[id], now)]
  {
    hide ClearStats;
    assert Only(players, done + {id}) ==
           if id in players then Only(players, done)[id := players[id]] else Only(players, done);
  }

  lemma Everybody(players: Roster, done: set<PlayerId>)
    requires players.Keys <= done
    ensures Only(players, done) == players
  {
  }

  /** cleanupDisconnectedPlayers: who stays with cleared statistics, who goes with their name. */
  method CleanupDisconnectedPlayers(players: Roster, active: set<PlayerId>, used: set<Name>, now: int)
    returns (kept: Roster, gone: Roster, names: set<Name>)
    ensures kept == ClearAllStats(Stays(players, active), now)
    ensures gone == players - Stays(players, active).Keys
    ensures names == used - NamesOf(gone)
  {
    hide NamesOf, Only, ClearAllStats, ClearStats;
    kept, gone, names := map[], map[], used;
    var todo := players.Keys;
    ghost var done: set<PlayerId> := {};
    ghost var stay := Stays(players, active);
    ghost var leave := players - stay.Keys;
    NobodyYet(stay, now);
    NobodyYet(leave, now);
    while todo != {}
      invariant todo == players.Keys - done
      invariant kept == ClearAllStats(Only(stay, done), now) && gone == Only(leave, done)
      invariant names == used - NamesOf(gone)
      decreases |todo|
    {
      var id :| id in todo;
      var p := players[id];
      OneMore(stay, done, id, now);
      OneMore(leave, done, id, now);
      if id !in active || p.disconnected {
        NamesOfAdd(gone, id, p);
        names := names - {p.nickname};
        gone := gone[id := p];
      } else {
        kept := kept[id := ClearStats(p, now)];
      }
      done := done + {id};
      todo := todo - {id};
    }
    Everybody(stay, done);
    Everybody(leave, done);
  }

  /** cleanupDisconnected: the players whose grace period is over, and what is left without them. */
  method SweepExpired(players: Roster, used: set<Name>, now: int)
    returns (left: Roster, gone: Roster, names: set<Name>)
    ensures gone == Only(players, Expired(players, now))
    ensures left == players - Expired(players, now)
    ensures names == used - NamesOf(gone)
  {
    hide NamesOf, Only, GraceOver, Expired, Gone, Left;
    left, gone, names := players, map[], used;
    var todo := players.Keys;
    ghost var done: set<PlayerId> := {};
    NobodySwept(players, now);
    while todo != {}
      invariant todo == players.Keys - done
      invariant gone == Gone(players, now, done) && left == Left(players, now, done)
      invariant names == used - NamesOf(gone)
      decreases |todo|
    {
      var id :| id in todo;
      var player := players[id];
      SweepStep(players, now, done, id);
      if GraceOver(player, now) {
        NamesOfAdd(gone, id, player);
        gone := gone[id := player];
        left := left - {id};
        names := names - {player.nickname};
      }
      done := done + {id};
      todo := todo - {id};
    }
    AllSwept(players, now, done);
  }

  /** Who has gone, and who is left, once the players in `done` were looked at. */
  ghost function Gone(players: Roster, now: int, done: set<PlayerId>): (gone: Roster) {
    Only(players, Expired(players, now) * done)
  }

  ghost function Left(players: Roster, now: int, done: set<PlayerId>): (left: Roster) {
    players - Expired(players, now) * done
  }

  lemma NobodySwept(players: Roster, now: int)
    ensures Gone(players, now, {}) == map[] && Left(players, now, {}) == players && NamesOf(map[]) == {}
  {
    assert Expired(players, now) * {} == {};
  }

  lemma SweepStep(players: Roster, now: int, done: set<PlayerId>, id: PlayerId)
    requires id in players && id !in done
    ensures id !in Gone(players, now, done)
    ensures if GraceOver(players[id], now) then
              && Gone(players, now, done + {id}) == Gone(players, now, done)[id := players[id]]
              && Left(players, now, done + {id}) == Left(players, now, done) - {id}
            else
              Gone(players, now, done + {id}) == Gone(players, now, done) &&
              Left(players, now, done + {id}) == Left(players, now, done)
  {
    var before := Expired(players, now) * done;
    if GraceOver(players[id], now) {
      assert Expired(players, now) * (done + {id}) == before + {id};
      OneMore(players, before, id, now);
    } else {
      assert Expired(players, now) * (done + {id}) == before;
    }
  }

  lemma AllSwept(players: Roster, now: int, done: set<PlayerId>)
    requires players.Keys <= done
    ensures Gone(players, now, done) == Only(players, Expired(players, now))
    ensures Left(players, now, done) == players - Expired(players, now)
  {
    assert Expired(players, now) * done == Expired(players, now);
  }

  lemma NobodyMarked(players: Roster, ids: set<PlayerId>, now: int)
    requires ids == {}
    ensures MarkSome(players, ids, now) == players
  {
  }

  lemma MarkOneMore(players: Roster, ids: set<PlayerId>, id: PlayerId, now: int)
    requires id !in ids
    ensures MarkSome(players, ids + {id}, now) ==
            if id in players then MarkSome(players, ids, now)[id := MarkDisconnected(players[id], now)]
            else MarkSome(players, ids, now)
    ensures id in players ==> MarkSome(players, ids, now)[id] == players[id]
  {
  }

  /** The loop of RemovePendingDisconnects; `locked` says whether its TryLock succeeded. */
  method DropFlagged(players: Roster, connections: set<PlayerId>, flagged: set<PlayerId>, locked: bool, now: int)
    returns (marked: Roster, rest: set<PlayerId>)
    ensures marked == if locked then MarkSome(players, connections * flagged, now) else players
    ensures rest == connections - flagged
  {
    hide MarkDisconnected, MarkSome;
    marked, rest := players, connections;
    var todo := connections;
    NobodyMarked(players, connections * flagged - todo, now);
    while todo != {}
      invariant todo <= connections && rest == connections - (flagged - todo)
      invariant marked == if locked then MarkSome(players, connections * flagged - todo, now) else players
      decreases |todo|
    {
      var id :| id in todo;
      ghost var before := connections * flagged - todo;
      todo := todo - {id};
      if id in flagged {
        MarkOneMore(players, before, id, now);
        assert connections * flagged - todo == before + {id};
        if locked && id in marked {
          marked := marked[id := MarkDisconnected(marked[id], now)];
        }
        rest := rest - {id};
      } else {
        assert connections * flagged - todo == before;
      }
    }
    assert connections * flagged - todo == connections * flagged;
  }

  class Room {
    var state: GameState
    var connections: set<PlayerId>
    var usedNames: set<Name>
    var nicknameTimers: set<PlayerId>
    var startDelay: bool
    var ticking: bool
    var countdownStart: int
    var alarm: Alarm
    var closed: bool
    const maxPlayers: nat
    const hasStore: bool
    var log: seq<Effect>

    ghost function View(): (r: RoomState)
      reads this
    {
      RoomState(state, connections, usedNames, nicknameTimers, startDelay, ticking, countdownStart, alarm, closed,
                maxPlayers, hasStore, log)
    }

    /** The aggregate invariant of the room. */
    ghost predicate Valid()
      reads this
    {
      Inv(View())
    }

    constructor (maxPlayers: int, hasStore: bool, d: WorldDraws)
      ensures View() == NewRoom(maxPlayers, hasStore, d) && Valid()
    {
      hide Inv, InitialWorld;
      NewRoomOk(maxPlayers, hasStore, d);
      this.maxPlayers := if maxPlayers <= 0 then DEFAULT_MAX_PLAYERS else maxPlayers;
      this.hasStore := hasStore;
      state := NewGame(d);
      connections, usedNames, nicknameTimers := {}, {}, {};
      startDelay, ticking, countdownStart, closed := false, false, 0, false;
      alarm := Alarm(0, None, {}, map[]);
      log := [];
    }

    constructor Materialize(saved: GameState, maxPlayers: int, hasStore: bool, now: int, d: WorldDraws)
      ensures View() == RoomModel.Materialize(saved, maxPlayers, hasStore, now, d)
      ensures Valid() <==> SavedOk(saved, Capacity(maxPlayers))
    {
      hide Inv, SavedOk, MarkAll, NamesOf;
      MaterializeOkIff(saved, maxPlayers, hasStore, now, d);
      this.maxPlayers := if maxPlayers <= 0 then DEFAULT_MAX_PLAYERS else maxPlayers;
      this.hasStore := hasStore;
      state := saved;
      connections, usedNames, nicknameTimers := {}, {}, {};
      startDelay, ticking, countdownStart, closed := false, false, 0, false;
      alarm := Alarm(0, None, {}, map[]);
      log := [];
      new;
      var players, names := MarkAllDisconnected(saved.players, now);
      state := state.(players := players);
      usedNames := names;
    }

    // ---------------------------------------------------------------- helpers

    method AllConnectedPlayersReady() returns (ready: bool)
      ensures ready == AllReady(View())
    {
      if connections == {} {
        return false;
      }
      var todo := connections;
      while todo != {}
        invariant todo <= connections
        invariant forall id :: id in connections - todo ==> Ready(state.players, id)
        decreases |todo|
      {
        var id :| id in todo;
        if !Ready(state.players, id) {
          return false;
        }
        todo := todo - {id};
      }
      return true;
    }

    method TryStartWhenAllReady()
      modifies this`startDelay
      ensures View() == TryStart(old(View()))
    {
      if state.phase != Waiting {
        return;
      }
      var ready := AllConnectedPlayersReady();
      if ready && !startDelay {
        startDelay := true;
      }
    }

    method SetEndGameAlarm()
      modifies this`alarm
      ensures View() == SetAlarm(old(View()))
    {
      alarm := alarm.(version := alarm.version + 1);
      alarm := alarm.(armed := Some(alarm.version));
    }

    // ---------------------------------------------------------------- games

    method StartGame(env: Env)
      modifies this
      ensures View() == RoomModel.StartGame(old(View()), env)
    {
      if state.phase != Waiting {
        return;
      }
      state := state.(phase := Counting, votes := {}, restartTimerStart := None, session := Some(env.session));
      countdownStart := env.now;
      state := state.(world := InitialWorld(env.world));
      log := log + [BalloonReset(state.players, false)];
      SetEndGameAlarm();
    }

    method HandleCountdownEnd()
      modifies this
      ensures View() == CountdownEnd(old(View()))
    {
      if state.phase != Counting {
        return;
      }
      state := state.(phase := Playing);
      state := state.(world := state.world.(tick := state.world.tick + 1));
      if state.session.Some? {
        log := log + [PlayStarted(state.session.value, hasStore)];
      }
    }

    method EndGameWithReason()
      modifies this
      ensures View() == EndGame(old(View()))
    {
      state := state.(phase := Ended);
      ticking := false;
      state := state.(world := Grounded(state.world));
      if hasStore && state.session.Some? {
        log := log + [ResultRecorded(state.session.value, state.world.balloon.score, state.players)];
      }
      if connections != {} {
        SetEndGameAlarm();
      } else {
        state := state.(phase := Waiting);
      }
    }

    method RestartAndStart(env: Env)
      modifies this
      ensures View() == RoomModel.RestartAndStart(old(View()), env)
    {
      hide NamesOf, Stays, ClearAllStats, InitialWorld;
      if state.phase != Ended {
        return;
      }
      var kept, gone, names := CleanupDisconnectedPlayers(state.players, connections, usedNames, env.now);
      usedNames := names;
      if gone != map[] {
        log := log + [PlayersLeft(gone)];
      }
      if connections == {} {
        state := NewGame(env.world);
        ticking := false;
        log := log + [BalloonReset(map[], true)];
        return;
      }
      var nextIndex := state.nextIndex;
      state := NewGame(env.world);
      state := state.(players := kept, nextIndex := nextIndex, phase := Counting, session := Some(env.session));
      countdownStart := env.now;
      log := log + [BalloonReset(kept, true)];
      SetEndGameAlarm();
    }

    method HandleAutoRestart(env: Env)
      modifies this
      ensures View() == AutoRestart(old(View()), env)
    {
      var votes := PruneVotes(state.players, state.votes);
      state := state.(votes := votes);
      if connections == {} {
        state := state.(phase := Waiting);
        return;
      }
      var yes, connected := CountRestartYesVotes(state.players, state.votes);
      if 0 < yes < connected {
        SetEndGameAlarm();
        return;
      }
      connections := connections - env.lostLater;
      RestartAndStart(env);
    }

    method TriggerAutoRestartIfEnded(env: Env)
      modifies this
      ensures View() == AutoRestartIfEnded(old(View()), env)
    {
      if state.phase != Ended {
        return;
      }
      var ready := AllConnectedPlayersReady();
      if ready {
        connections := connections - env.lostFirst;
        HandleAutoRestart(env);
      }
    }

    // ---------------------------------------------------------------- joining and leaving

    method NormalizePhaseForNicknameGate()
      modifies this
      ensures View() == NicknameGate(old(View()))
    {
      if state.phase != Counting && state.phase != Playing {
        return;
      }
      var ready := AllConnectedPlayersReady();
      if ready {
        return;
      }
      if state.phase == Playing {
        ticking := false;
      }
      alarm := alarm.(armed := None);
      startDelay := false;
      state := state.(phase := Waiting);
    }

    method AddNewPlayer(id: PlayerId, env: Env)
      modifies this
      ensures View() == AddPlayer(old(View()), id, env)
    {
      hide Sanitize, Generate;
      var generated := GenerateRandom(usedNames, env.names);
      var nickname := Sanitize(generated);
      var player := Player(state.nextIndex, nickname, state.nextIndex % 10, env.now, 0, 0, 0, 0, 0, false, false, None);
      state := state.(nextIndex := state.nextIndex + 1);
      state := state.(players := state.players[id := player]);
      usedNames := usedNames + {nickname};
      nicknameTimers := nicknameTimers + {id};
    }

    method ReconnectPlayer(id: PlayerId, env: Env)
      requires id in state.players
      modifies this
      ensures View() == Reconnect(old(View()), id, env)
    {
      var player := state.players[id].(disconnected := false, disconnectedAt := None);
      state := state.(players := state.players[id := player]);
      if !player.confirmed {
        nicknameTimers := nicknameTimers + {id};
      }
      match state.phase {
        case Waiting => TryStartWhenAllReady();
        case Playing => ticking := true;
        case Counting =>
          if !ticking {
            SetEndGameAlarm();
          }
        case Ended => TriggerAutoRestartIfEnded(env);
      }
    }

    method HandleJoin(id: PlayerId, env: Env) returns (full: bool)
      requires Valid()
      modifies this
      ensures View() == RoomModel.HandleJoin(old(View()), id, env)
      ensures full == (id !in old(state.players) && |old(state.players)| >= maxPlayers)
      ensures Valid()
    {
      hide Inv, Reconnect, AddPlayer, NicknameGate;
      JoinKeeps(View(), id, env);
      full := false;
      ghost var before := connections;
      connections := connections + {id};
      if id !in state.players && |state.players| >= maxPlayers {
        connections := connections - {id};
        assert connections == before - {id};
        return true;
      }
      connections := connections - env.lostEarly;
      if id in state.players && state.players[id].disconnected {
        ReconnectPlayer(id, env);
        return;
      }
      if id !in state.players {
        AddNewPlayer(id, env);
      }
      NormalizePhaseForNicknameGate();
      if state.phase == Playing {
        ticking := true;
      }
    }

    method HandleDisconnect(id: PlayerId, env: Env)
      requires Valid()
      modifies this
      ensures View() == RoomModel.HandleDisconnect(old(View()), id, env)
      ensures id in old(state.players) ==>
                && id in state.players && state.players[id].disconnectedAt == Some(env.now)
                && state.players[id].disconnected && id !in connections
      ensures Valid()
    {
      hide Inv;
      DisconnectKeeps(View(), id, env);
      if id !in state.players {
        return;
      }
      connections := connections - {id};
      nicknameTimers := nicknameTimers - {id};
      state := state.(players := state.players[id := MarkDisconnected(state.players[id], env.now)]);
    }

    method HandleNicknameTimeout(id: PlayerId)
      requires Valid()
      modifies this
      ensures View() == RoomModel.HandleNicknameTimeout(old(View()), id)
      ensures Valid()
    {
      hide Inv, RemovePlayers, TryStart;
      NicknameTimeoutKeeps(View(), id);
      if closed {
        return;
      }
      nicknameTimers := nicknameTimers - {id};
      if id !in state.players || state.players[id].confirmed {
        return;
      }
      ghost var before := View();
      var player := state.players[id];
      state := state.(players := state.players - {id}, votes := state.votes - {id});
      usedNames := usedNames - {player.nickname};
      log := log + [PlayersLeft(map[id := player])];
      OneGone(before, id);
      connections := connections - {id};
      TryStartWhenAllReady();
    }

    method HandleStartDelay(env: Env)
      requires Valid()
      modifies this
      ensures View() == RoomModel.HandleStartDelay(old(View()), env)
      ensures Valid()
    {
      hide Inv, RoomModel.StartGame, AllReady;
      StartDelayKeeps(View(), env);
      if closed {
        return;
      }
      startDelay := false;
      var ready := AllConnectedPlayersReady();
      if state.phase == Waiting && ready {
        StartGame(env);
      }
    }

    // ---------------------------------------------------------------- messages

    method HandleTap(id: PlayerId, point: Option<(real, real)>, env: Env, m: Math) returns (accepted: bool)
      requires id in state.players
      modifies this
      ensures View() == RoomModel.HandleTap(old(View()), id, point, env, m)
      ensures accepted <==> log != old(log)
    {
      hide TapWorld, RecordTap, Pushed, InReach, Scared, WorldOk, Lawful;
      var player := state.players[id];
      if state.phase != Playing || env.now < player.cooldownEnd || !InUnitSquare(point) {
        return false;
      }
      var entities := new Entities.Of(state.world);
      var effective := entities.Tap(point.value.0, point.value.1, m);
      if !effective {
        return false;
      }
      state := state.(world := entities.View());
      state := state.(players := state.players[id := RecordTap(player, env.now, env.cooldown)]);
      var balloon := state.world.balloon;
      state := state.(world := state.world.(balloon := balloon.(score := balloon.score + 1)));
      log := log + [TapAccepted(id, player.score >= MAX_SCORE)];
      return true;
    }

    method ConfirmNickname(id: PlayerId, player: Player, env: Env)
      modifies this
      ensures View() == Confirm(old(View()), id, player, env)
    {
      state := state.(players := state.players[id := player.(confirmed := true)]);
      nicknameTimers := nicknameTimers - {id};
      TryStartWhenAllReady();
      TriggerAutoRestartIfEnded(env);
    }

    method HandleSetNickname(id: PlayerId, text: Option<Name>, env: Env)
      requires id in state.players
      modifies this
      ensures View() == RoomModel.HandleSetNickname(old(View()), id, text, env)
    {
      var sanitized := if text.Some? then Sanitize(text.value) else [];
      if sanitized == [] {
        return;
      }
      var player := state.players[id];
      if sanitized == player.nickname {
        ConfirmNickname(id, player, env);
        return;
      }
      if sanitized in usedNames {
        return;
      }
      var chosen := ChosenName(player, sanitized, usedNames, env);
      if chosen.Some? {
        usedNames := usedNames - {player.nickname};
        usedNames := usedNames + {chosen.value};
        ConfirmNickname(id, player.(nickname := chosen.value, lastNicknameChange := env.now), env);
      }
    }

    method HandleRestartVote(id: PlayerId, env: Env)
      modifies this
      ensures View() == RoomModel.HandleRestartVote(old(View()), id, env)
    {
      if state.phase != Ended {
        return;
      }
      state := state.(votes := state.votes + {id});
      var yes, connected := CountRestartYesVotes(state.players, state.votes);
      if yes >= connected > 0 {
        RestartAndStart(env);
      } else if state.restartTimerStart.None? {
        state := state.(restartTimerStart := Some(env.now));
        SetEndGameAlarm();
      }
    }

    method HandleMessage(id: PlayerId, message: Message, env: Env, m: Math) returns (limited: bool)
      requires Valid()
      modifies this
      ensures View() == RoomModel.HandleMessage(old(View()), id, message, env, m)
      ensures Valid()
    {
      hide Inv, CountMessage, MarkDisconnected, RoomModel.HandleTap, RoomModel.HandleSetNickname,
           RoomModel.HandleRestartVote, Typed, AllReady, TryStart, AutoRestart;
      MessageKeeps(View(), id, message, env, m);
      if id !in state.players {
        return false;
      }
      var player := CountMessage(state.players[id], env.now);
      if player.messageCount > MESSAGE_RATE_LIMIT {
        state := state.(players := state.players[id := MarkDisconnected(player, env.now)]);
        connections := connections - {id};
        return true;
      }
      state := state.(players := state.players[id := player]);
      log := log + [Dispatched(id, env.now)];
      match message {
        case Tap(point) => var _ := HandleTap(id, point, env, m);
        case SetNickname(payload) => HandleSetNickname(id, Typed(payload), env);
        case RestartVote => HandleRestartVote(id, env);
        case _ =>
      }
      return false;
    }

    // ---------------------------------------------------------------- ticks and slow clients

    method CleanupDisconnected(now: int)
      modifies this
      ensures View() == RemovePlayers(old(View()), Expired(old(state.players), now))
    {
      var left, gone, names := SweepExpired(state.players, usedNames, now);
      state := state.(players := left, votes := state.votes - gone.Keys);
      usedNames := names;
      if gone != map[] {
        log := log + [PlayersLeft(gone)];
      }
    }

    method Tick(env: Env, m: Math)
      requires Valid()
      modifies this
      ensures View() == HandleTick(old(View()), env, m)
      ensures Valid()
    {
      hide Inv, RemovePlayers, Expired, EndGame, TickWorld;
      TickKeeps(View(), env, m);
      CleanupDisconnected(env.now);
      if state.phase != Playing {
        return;
      }
      if |state.players| == 0 || connections == {} {
        ticking := false;
        return;
      }
      var entities := new Entities.Of(state.world);
      var flight := entities.Tick(env.tick, m);
      state := state.(world := entities.View());
      if flight != Flying {
        connections := connections - env.lostFirst;
        EndGameWithReason();
      }
    }

    /** RemovePendingDisconnects; `locked` says whether its TryLock succeeded. */
    method RemovePendingDisconnects(flagged: set<PlayerId>, locked: bool, now: int)
      requires Valid()
      modifies this
      ensures View() == if locked then DropSlowClients(old(View()), flagged, now) else Lose(old(View()), flagged)
      ensures Valid()
    {
      hide Inv, MarkSome;
      DropSlowKeeps(View(), flagged, now);
      LoseKeeps(View(), flagged);
      var marked, rest := DropFlagged(state.players, connections, flagged, locked, now);
      state := state.(players := marked);
      connections := rest;
    }

    // ---------------------------------------------------------------- the alarm callback

    method AlarmFires()
      requires Valid()
      modifies this`alarm
      ensures View() == AlarmExpires(old(View()))
      ensures Valid()
    {
      hide Inv;
      AlarmStagesKeep(View(), 0);
      if alarm.armed.Some? {
        alarm := alarm.(fired := alarm.fired + {alarm.armed.value}, armed := None);
      }
    }

    /** First section: read phase and version. */
    method AlarmChecks(version: nat)
      requires Valid()
      modifies this`alarm
      ensures View() == AlarmCheck(old(View()), version)
      ensures Valid()
    {
      hide Inv;
      AlarmStagesKeep(View(), version);
      if version in alarm.fired {
        alarm := alarm.(fired := alarm.fired - {version});
        if version == alarm.version && !closed && (state.phase == Counting || state.phase == Ended) {
          alarm := alarm.(checked := alarm.checked[version := state.phase]);
        }
      }
    }

    /** Second section: act on the phase that was read, which may have changed since. */
    method AlarmActs(version: nat, env: Env)
      requires Valid()
      modifies this
      ensures View() == AlarmAct(old(View()), version, env)
      ensures Valid()
    {
      hide Inv, CountdownEnd, AutoRestart;
      AlarmKeeps(View(), version, env);
      if version in alarm.checked {
        var phase := alarm.checked[version];
        alarm := alarm.(checked := alarm.checked - {version});
        if phase == Counting {
          HandleCountdownEnd();
        } else {
          HandleAutoRestart(env);
        }
      }
    }

    // ---------------------------------------------------------------- the ticker and closing

    /** restartTick up to its wait: start a missing ticker, cancel a running one. */
    method RestartTickBegin()
      requires Valid()
      modifies this`ticking
      ensures View() == Begun(old(View()), RestartTick)
      ensures Valid()
    {
      hide Inv;
      CloseKeeps(View());
      if !ticking {
        ticking := true;
      } else {
        ticking := false;
      }
    }

    /** The second section of restartTick: start a ticker unless somebody else did. */
    method RestartTickFinish()
      requires Valid()
      modifies this`ticking
      ensures View() == Finished(old(View()), RestartTick)
      ensures Valid()
    {
      hide Inv;
      CloseKeeps(View());
      if !ticking {
        ticking := true;
      }
    }

    /** First section of Close. */
    method CloseBegin()
      requires Valid()
      modifies this`closed, this`ticking, this`nicknameTimers
      ensures View() == Begun(old(View()), Closing)
      ensures Valid()
    {
      hide Inv;
      CloseKeeps(View());
      closed := true;
      ticking := false;
      nicknameTimers := {};
    }

    /** Second section of Close, after the ticker has stopped. */
    method CloseFinish()
      requires Valid()
      modifies this`alarm, this`startDelay, this`connections
      ensures View() == Finished(old(View()), Closing)
      ensures Valid()
    {
      hide Inv;
      CloseKeeps(View());
      if closed {
        alarm := alarm.(armed := None);
        startDelay := false;
        connections := {};
      }
    }

    /** Close when no other section comes between its two. */
    method Close()
      requires Valid()
      modifies this
      ensures Valid() && closed && !ticking && !startDelay && nicknameTimers == {} && connections == {}
      ensures alarm == old(alarm).(armed := None) && state == old(state) && log == old(log)
    {
      CloseBegin();
      CloseFinish();
    }

    // ---------------------------------------------------------------- whole runs

    /** One step of the machine is one call of a handler. */
    method Perform(step: Step, m: Math)
      requires Valid()
      modifies this
      ensures View() == Next(old(View()), step, m) && Valid()
    {
      hide Inv, RoomModel.HandleJoin, RoomModel.HandleDisconnect, RoomModel.HandleMessage, HandleTick,
           RoomModel.HandleNicknameTimeout, RoomModel.HandleStartDelay, AlarmExpires, AlarmCheck, AlarmAct,
               DropSlowClients,
           Begun, Finished;
      match step.action {
        case Join(id) => var _ := HandleJoin(id, step.env);
        case Leave(id) => HandleDisconnect(id, step.env);
        case Say(id, message) => var _ := HandleMessage(id, message, step.env, m);
        case Tick => Tick(step.env, m);
        case NicknameTimeout(id) => HandleNicknameTimeout(id);
        case StartDelayOver => HandleStartDelay(step.env);
        case AlarmFires => AlarmFires();
        case AlarmChecks(v) => AlarmChecks(v);
        case AlarmActs(v) => AlarmActs(v, step.env);
        case DropSlow(flagged) => RemovePendingDisconnects(flagged, true, step.env.now);
        case DropSlowUnlocked(flagged) => RemovePendingDisconnects(flagged, false, step.env.now);
        case RestartTickBegin => RestartTickBegin();
        case RestartTickFinish => RestartTickFinish();
        case CloseBegin => CloseBegin();
        case CloseFinish => CloseFinish();
      }
    }

    /** So every run of the object is a run of the machine. */
    method PerformAll(steps: seq<Step>, m: Math)
      requires Valid()
      modifies this
      ensures View() == Run(old(View()), steps, m) && Valid()
    {
      hide Inv, Next;
      assert steps[0..] == steps;
      for i := 0 to |steps|
        invariant Valid() && Run(View(), steps[i..], m) == Run(old(View()), steps, m)
      {
        assert steps[i..][0] == steps[i] && steps[i..][1..] == steps[i + 1..];
        Perform(steps[i], m);
      }
      assert steps[|steps|..] == [];
    }
  }

  lemma OneGone(r: RoomState, id: PlayerId)
    requires id in r.state.players
    ensures var p := r.state.players[id];
            RemovePlayers(r, {id}) ==
            Emit(r.(state := r.state.(players := r.state.players - {id}, votes := r.state.votes - {id}),
                    usedNames := r.usedNames - {p.nickname}), PlayersLeft(map[id := p]))
  {
    var p := r.state.players[id];
    var gone := Only(r.state.players, {id});
    var none: Roster := map[];
    NamesOfAdd(none, id, p);
    assert NamesOf(none) == {};
    assert id in gone && gone == none[id := p] == map[id := p];
    assert NamesOf(gone) == {p.nickname};
    assert r.state.votes - gone.Keys == r.state.votes - {id};
  }
}
