/**
 What single handlers do to players, said without the handlers' own terms: what a newcomer gets,
 whom a restart keeps, whom the nickname timer removes, when the rate limit cuts off.
 */
module RoomLaws {
  import opened Prelude
  import opened Physics
  import opened RoomModel
  import opened RoomInvariants
  import GoStrings
  import Nicknames
  import NameGenerator

  /** Everybody else's record is as it was. */
  ghost predicate OthersSame(a: Roster, b: Roster, id: PlayerId) {
    a - {id} == b - {id}
  }

  /** A newcomer gets the next seat and its colour, an unused name to confirm, and nothing else. */
  ghost predicate Newcomer(r: RoomState, r': RoomState, id: PlayerId, now: int) {
    && id in r'.state.players && OthersSame(r.state.players, r'.state.players, id)
    && r'.state.nextIndex == r.state.nextIndex + 1
    && var p := r'.state.players[id];
       && p.index == r.state.nextIndex && p.palette == p.index % 10 && p.score == 0 && p.taps == 0
       && p.cooldownEnd == now && p.messageCount == 0 && p.lastNicknameChange == 0
       && !p.confirmed && !p.disconnected && p.disconnectedAt.None?
       && r'.usedNames == r.usedNames + {p.nickname} && id in r'.nicknameTimers
  }

  lemma NewcomerIsSeated(r: RoomState, id: PlayerId, env: Env)
    requires id !in r.state.players && |r.state.players| < r.maxPlayers
    ensures Newcomer(r, HandleJoin(r, id, env), id, env.now)
    ensures id !in env.lostEarly ==> id in HandleJoin(r, id, env).connections
  {
    hide Nicknames.Sanitize, NameGenerator.Generate, NicknameGate, ResumeTick, Newcomer, AddPlayer;
    var linked := r.(connections := r.connections + {id} - env.lostEarly);
    AddedIsNewcomer(linked, id, env);
    GateKeepsNewcomer(linked, AddPlayer(linked, id, env), id, env.now);
    SameAsLinked(r, linked, id, env.now);
  }

  lemma AddedIsNewcomer(r: RoomState, id: PlayerId, env: Env)
    requires id !in r.state.players
    ensures Newcomer(r, AddPlayer(r, id, env), id, env.now) && AddPlayer(r, id, env).connections == r.connections
  {
    hide Nicknames.Sanitize, NameGenerator.Generate;
    assert r.state.players[id := NewPlayer(r, env)] - {id} == r.state.players - {id};
  }

  lemma GateKeepsNewcomer(r: RoomState, added: RoomState, id: PlayerId, now: int)
    requires Newcomer(r, added, id, now)
    ensures var gated := ResumeTick(NicknameGate(added));
            Newcomer(r, gated, id, now) && gated.connections == added.connections
  {
    hide AllReady;
  }

  lemma SameAsLinked(r: RoomState, linked: RoomState, id: PlayerId, now: int)
    requires linked.state == r.state && linked.usedNames == r.usedNames
    ensures forall r' :: Newcomer(linked, r', id, now) ==> Newcomer(r, r', id, now)
  {
  }

  /** Within the capacity of the generator the offered name is one that nobody has. */
  lemma NewcomerNameIsNew(r: RoomState, id: PlayerId, env: Env)
    requires Inv(r) && id !in r.state.players && |r.state.players| < r.maxPlayers <= NAME_CAPACITY
    ensures var players := HandleJoin(r, id, env).state.players; id in players && players[id].nickname !in r.usedNames
  {
    hide Inv, Nicknames.Sanitize, NameGenerator.Generate, NicknameGate, ResumeTick, NameOk;
    var linked := r.(connections := r.connections + {id} - env.lostEarly);
    GeneratedOk(r.usedNames, env.names);
    SeatsAreOk(r);
    FreshInRoom(r.state.players, r.state.nextIndex, r.usedNames, r.maxPlayers, env.names);
    GateKeepsPlayers(AddPlayer(linked, id, env));
  }

  lemma GateKeepsPlayers(r: RoomState)
    ensures ResumeTick(NicknameGate(r)).state.players == r.state.players
  {
    hide AllReady;
  }

  lemma SeatsAreOk(r: RoomState)
    requires Inv(r)
    ensures SeatsOk(r.state.players, r.state.nextIndex, r.usedNames, r.maxPlayers)
  {
  }

  /** A full room turns a newcomer away and stays as it is. */
  lemma FullRoomRefuses(r: RoomState, id: PlayerId, env: Env)
    requires Inv(r) && id !in r.state.players && |r.state.players| >= r.maxPlayers
    ensures HandleJoin(r, id, env) == r
  {
    hide SeatsOk, TimersOk, VotesOk;
    assert r.connections - {id} == r.connections;
  }

  /**
   A restart keeps exactly the connected players, in their seats and under their names, with
   nothing scored; the names of the others are free again.
   */
  lemma RestartKeepsConnected(r: RoomState, env: Env)
    requires Inv(r) && r.state.phase == Ended && r.connections != {}
    ensures var r' := RestartAndStart(r, env);
            && r'.state.players.Keys == r.connections && r'.state.nextIndex == r.state.nextIndex
            && (forall id :: id in r.connections ==> Reseated(r.state.players[id], r'.state.players[id], env.now))
            && r'.state.world == InitialWorld(env.world) && r'.state.votes == {}
            && r'.state.session == Some(env.session)
    ensures r.maxPlayers <= NAME_CAPACITY ==>
              RestartAndStart(r, env).usedNames == NamesOf(RestartAndStart(r, env).state.players)
  {
    hide SeatsOk, TimersOk, VotesOk, NamesOf, InitialWorld;
    StaysLinked(r.state.players, r.connections, r.nicknameTimers, env.now);
    if r.maxPlayers <= NAME_CAPACITY {
      RestartKeeps(r, env);
      UniqueAgain(r, env);
    }
  }

  predicate Reseated(p: Player, q: Player, now: int) {
    && q.index == p.index && q.nickname == p.nickname && q.palette == p.palette && q.confirmed == p.confirmed
    && q.score == 0 && q.taps == 0 && q.cooldownEnd == now && q.messageCount == 0 && q.lastNicknameChange == 0
    && !q.disconnected
  }

  lemma UniqueAgain(r: RoomState, env: Env)
    requires Inv(RestartAndStart(r, env)) && r.maxPlayers <= NAME_CAPACITY
    ensures RestartAndStart(r, env).usedNames == NamesOf(RestartAndStart(r, env).state.players)
  {
    hide RestartAndStart, NamesOf;
    RestartCapacity(r, env);
    UniqueHere(RestartAndStart(r, env));
  }

  /** The nickname timer removes a player who has not confirmed, with name, vote and link, and nobody else. */
  lemma TimeoutRemoves(r: RoomState, id: PlayerId)
    requires !r.closed && id in r.state.players
    ensures var r' := HandleNicknameTimeout(r, id);
            && id !in r'.nicknameTimers
            && (if r.state.players[id].confirmed then r'.state == r.state && r'.usedNames == r.usedNames
                else
                  && r'.state.players == r.state.players - {id} && id !in r'.connections && id !in r'.state.votes
                  && r'.usedNames == r.usedNames - {r.state.players[id].nickname})
  {
    hide AllReady;
    if !r.state.players[id].confirmed {
      OnlyOne(r.state.players, id);
    }
  }

  lemma OnlyOne(players: Roster, id: PlayerId)
    requires id in players
    ensures Only(players, {id}) == map[id := players[id]]
    ensures NamesOf(Only(players, {id})) == {players[id].nickname}
  {
    var one := map[id := players[id]];
    assert Only(players, {id}) == one;
    assert one[id].nickname == players[id].nickname;
  }

  /** The hundredth message of a window is still heard, the next one cuts the connection. */
  lemma LimitCutsOff(r: RoomState, id: PlayerId, message: Message, env: Env, m: Math)
    requires id in r.state.players && env.now - r.state.players[id].windowStart <= 60000
    requires r.state.players[id].messageCount >= 100
    ensures var r' := HandleMessage(r, id, message, env, m);
            && r'.log == r.log && id !in r'.connections && r'.connections == r.connections - {id}
            && OthersSame(r.state.players, r'.state.players, id)
            && r'.state.players[id].disconnected && r'.state.players[id].disconnectedAt == Some(env.now)
  {
    hide Dispatch;
    var p := MarkDisconnected(CountMessage(r.state.players[id], env.now), env.now);
    assert r.state.players[id := p] - {id} == r.state.players - {id};
  }

  /** A callback goes on only if nothing has re-armed the alarm since, the room is open, and the phase needs it. */
  lemma StaleAlarmIsDropped(r: RoomState, version: nat)
    requires version in r.alarm.fired && version !in r.alarm.checked
    ensures var r' := AlarmCheck(r, version);
            && version !in r'.alarm.fired && r' == r.(alarm := r'.alarm)
            && (version in r'.alarm.checked <==>
                  version == r.alarm.version && !r.closed && (r.state.phase == Counting || r.state.phase == Ended))
            && (version in r'.alarm.checked ==> r'.alarm.checked[version] == r.state.phase)
  {
  }

  predicate MayRename(p: Player, now: int) {
    p.lastNicknameChange == 0 || now - p.lastNicknameChange >= 30000
  }

  /** What a message asks for, sanitized. */
  function Wanted(text: Option<GoStrings.Name>): (n: GoStrings.Name) {
    if text.Some? then Nicknames.Sanitize(text.value) else []
  }

  /**
   Before a game has ended: asking for one's own name confirms it; any other is granted exactly if
   it is not empty, not taken, due, and not one's own after the second pass; a granted name that
   turns out taken is replaced by a generated one. Nobody else's name changes.
   */
  lemma NicknameIsGrantedIff(r: RoomState, id: PlayerId, text: Option<GoStrings.Name>, env: Env)
    requires id in r.state.players && r.state.phase != Ended
    ensures var p, want := r.state.players[id], Wanted(text);
            var r' := HandleSetNickname(r, id, text, env);
            var stored := Nicknames.NewNickname(want);
            var granted := want != [] && want != p.nickname && want !in r.usedNames && MayRename(p, env.now) &&
                           stored.Some? && stored.value != p.nickname;
            && id in r'.state.players && OthersSame(r.state.players, r'.state.players, id)
            && (granted ==> r'.state.players[id].nickname ==
                            if stored.value in r.usedNames then NameGenerator.Generate(r.usedNames, env.names)
                            else stored.value)
            && (granted ==> r'.state.players[id].lastNicknameChange == env.now && r'.state.players[id].confirmed)
            && (!granted ==> r'.state.players[id].nickname == p.nickname && r'.usedNames == r.usedNames)
            && (!granted ==> (r'.state.players[id].confirmed <==> p.confirmed || (want != [] && want == p.nickname)))
  {
    hide Nicknames.Sanitize, Nicknames.NewNickname, NameGenerator.Generate, Confirm;
    var p, want := r.state.players[id], Wanted(text);
    ConfirmedHere(r, id, p, env);
    var chosen := ChosenName(p, want, r.usedNames, env);
    if chosen.Some? {
      var n := chosen.value;
      ConfirmedHere(r.(usedNames := r.usedNames - {p.nickname} + {n}), id,
                    p.(nickname := n, lastNicknameChange := env.now), env);
    }
  }

  lemma ConfirmedHere(r: RoomState, id: PlayerId, p: Player, env: Env)
    requires r.state.phase != Ended
    ensures var r' := Confirm(r, id, p, env);
            && id in r'.state.players && r'.state.players[id] == p.(confirmed := true) && r'.usedNames == r.usedNames
            && OthersSame(r.state.players, r'.state.players, id)
  {
    hide AllReady, AutoRestart;
    assert r.state.players[id := p.(confirmed := true)] - {id} == r.state.players - {id};
  }

  /** Who leaves is unlinked, stamped and no longer asked for a name; nobody else changes. */
  lemma LeavingIsStamped(r: RoomState, id: PlayerId, env: Env)
    requires id in r.state.players
    ensures var r' := HandleDisconnect(r, id, env);
            && id in r'.state.players && OthersSame(r.state.players, r'.state.players, id)
            && r'.state.players[id].disconnected && r'.state.players[id].disconnectedAt == Some(env.now)
            && r'.connections == r.connections - {id} && r'.nicknameTimers == r.nicknameTimers - {id}
  {
    var p := MarkDisconnected(r.state.players[id], env.now);
    assert r.state.players[id := p] - {id} == r.state.players - {id};
  }

  // ---------------------------------------------------------------- the ticker

  /** A tick that finds nobody, or ends the game, stops the ticker; any other leaves it alone. */
  lemma TickerStopsWithTheGame(r: RoomState, env: Env, m: Math)
    ensures var r' := HandleTick(r, env, m);
            && (r.state.phase == Playing && r'.state.phase != Playing ==> !r'.ticking)
            && (r.state.phase == Playing && r.connections == {} ==> !r'.ticking && r'.state.phase == Playing)
            && (r.state.phase != Playing ==> r'.ticking == r.ticking)
            && (r'.state.phase == Playing && r'.state.world != r.state.world ==> r'.ticking == r.ticking)
  {
    hide TickWorld, Expired, RemovePlayers, EndGame;
    RemoveFrame(r, Expired(r.state.players, env.now));
    var swept := RemovePlayers(r, Expired(r.state.players, env.now));
    var moved := swept.(state := swept.state.(world := TickWorld(swept.state.world, env.tick, m).0));
    EndStopsTicker(Lose(moved, env.lostFirst));
  }

  lemma RemoveFrame(r: RoomState, ids: set<PlayerId>)
    ensures var swept := RemovePlayers(r, ids);
            && swept.state.phase == r.state.phase && swept.connections == r.connections
            && swept.state.world == r.state.world && swept.ticking == r.ticking
  {
    hide NamesOf, Only;
  }

  lemma EndStopsTicker(r: RoomState)
    ensures !EndGame(r).ticking && EndGame(r).state.phase != Playing
  {
    hide Grounded;
  }

  /** Whoever joins or returns to a running game finds the ticker running; a join that stops the game stops it. */
  lemma TickerServesTheGame(r: RoomState, id: PlayerId, env: Env)
    requires id in r.state.players || |r.state.players| < r.maxPlayers
    ensures var r' := HandleJoin(r, id, env);
            && (r'.state.phase == Playing ==> r'.ticking)
            && (r.state.phase == Playing && r'.state.phase == Waiting ==> !r'.ticking)
            && ((r.state.phase == Counting || r.state.phase == Playing) && r'.state.phase == Waiting ==>
                  !r'.startDelay && r'.alarm.armed.None?)
  {
    hide AutoRestartIfEnded, AllReady, NewPlayer;
    if id in r.state.players {
      var linked := r.(connections := r.connections + {id} - env.lostEarly);
      var p := r.state.players[id].(disconnected := false, disconnectedAt := None);
      NoGameAfterEnd(SetPlayer(linked, id, p).(
        nicknameTimers := if p.confirmed then r.nicknameTimers else r.nicknameTimers + {id}), env);
    }
  }

  lemma NoGameAfterEnd(r: RoomState, env: Env)
    ensures r.state.phase == Ended ==> AutoRestartIfEnded(r, env).state.phase != Playing
  {
    hide AllReady, Connected, YesVotes, InitialWorld, NamesOf, Stays, ClearAllStats;
  }

  // ---------------------------------------------------------------- the start delay

  /** Waiting with everybody connected ready, the start delay runs. */
  predicate DelayRuns(r: RoomState) {
    r.state.phase == Waiting && AllReady(r) ==> r.startDelay
  }

  /** So it is after every return, every accepted nickname, and every kick of an unconfirmed player. */
  lemma ReadinessStartsDelay(r: RoomState, id: PlayerId, env: Env)
    requires id in r.state.players && r.state.phase != Ended
    ensures r.state.players[id].disconnected ==> DelayRuns(HandleJoin(r, id, env))
    ensures DelayRuns(Confirm(r, id, r.state.players[id], env))
    ensures !r.state.players[id].confirmed && !r.closed ==> DelayRuns(HandleNicknameTimeout(r, id))
  {
    hide AllReady, AutoRestart, RemovePlayers;
    ArmedByTry(r);
    RemoveFrame(r.(nicknameTimers := r.nicknameTimers - {id}), {id});
    var kicked := RemovePlayers(r.(nicknameTimers := r.nicknameTimers - {id}), {id});
    ArmedByTry(kicked.(connections := r.connections - {id}));
    var p := r.state.players[id];
    ArmedByTry(SetPlayer(r, id, p.(confirmed := true)).(nicknameTimers := r.nicknameTimers - {id}));
    var q := p.(disconnected := false, disconnectedAt := None);
    ArmedByTry(SetPlayer(r.(connections := r.connections + {id} - env.lostEarly), id, q).(
      nicknameTimers := if q.confirmed then r.nicknameTimers else r.nicknameTimers + {id}));
  }

  lemma ArmedByTry(r: RoomState)
    ensures DelayRuns(TryStart(r)) && TryStart(r).state.phase == r.state.phase
  {
    assert AllReady(r.(startDelay := true)) <==> AllReady(r);
  }

  // ---------------------------------------------------------------- countdowns

  /** A countdown begins now, with a new alarm and a new session, everything back at the start. */
  ghost predicate Begins(r: RoomState, r': RoomState, env: Env) {
    r.state.phase != Counting && r'.state.phase == Counting ==>
      && r'.countdownStart == env.now && r'.state.session == Some(env.session)
      && r'.alarm.armed == Some(r'.alarm.version) && r'.alarm.version > r.alarm.version
      && r'.state.world == InitialWorld(env.world) && r'.state.votes == {} && r'.state.restartTimerStart.None?
  }

  lemma RestartBegins(r: RoomState, env: Env)
    ensures Begins(r, RestartAndStart(r, env), env)
  {
    hide InitialWorld, NamesOf, Stays, ClearAllStats;
  }

  lemma AutoRestartBegins(r: RoomState, env: Env)
    ensures Begins(r, AutoRestart(r, env), env)
  {
    hide RestartAndStart, Connected, YesVotes, InitialWorld;
    var pruned := r.(state := r.state.(votes := r.state.votes * Connected(r.state.players)));
    RestartBegins(Lose(pruned, env.lostLater), env);
  }

  lemma ReadyBegins(r: RoomState, env: Env)
    ensures Begins(r, AutoRestartIfEnded(r, env), env)
  {
    hide AutoRestart, AllReady, InitialWorld;
    AutoRestartBegins(Lose(r, env.lostFirst), env);
  }

  lemma JoinBegins(r: RoomState, id: PlayerId, env: Env)
    ensures Begins(r, HandleJoin(r, id, env), env)
  {
    hide AutoRestartIfEnded, AllReady, NewPlayer, InitialWorld;
    if id in r.state.players {
      var p := r.state.players[id].(disconnected := false, disconnectedAt := None);
      ReadyBegins(SetPlayer(r.(connections := r.connections + {id} - env.lostEarly), id, p).(
        nicknameTimers := if p.confirmed then r.nicknameTimers else r.nicknameTimers + {id}), env);
    }
  }

  lemma ConfirmBegins(r: RoomState, id: PlayerId, p: Player, env: Env)
    ensures Begins(r, Confirm(r, id, p, env), env)
  {
    hide AutoRestartIfEnded, AllReady, InitialWorld;
    ReadyBegins(TryStart(SetPlayer(r, id, p.(confirmed := true)).(nicknameTimers := r.nicknameTimers - {id})), env);
  }

  lemma NicknameBegins(r: RoomState, id: PlayerId, text: Option<GoStrings.Name>, env: Env)
    requires id in r.state.players
    ensures Begins(r, HandleSetNickname(r, id, text, env), env)
  {
    hide Confirm, ChosenName, Nicknames.Sanitize, InitialWorld;
    var p := r.state.players[id];
    ConfirmBegins(r, id, p, env);
    var chosen := ChosenName(p, Wanted(text), r.usedNames, env);
    if chosen.Some? {
      ConfirmBegins(r.(usedNames := r.usedNames - {p.nickname} + {chosen.value}), id,
                    p.(nickname := chosen.value, lastNicknameChange := env.now), env);
    }
  }

  lemma VoteBegins(r: RoomState, id: PlayerId, env: Env)
    ensures Begins(r, HandleRestartVote(r, id, env), env)
  {
    hide RestartAndStart, Connected, YesVotes, InitialWorld;
    RestartBegins(r.(state := r.state.(votes := r.state.votes + {id})), env);
  }

  lemma MessageBegins(r: RoomState, id: PlayerId, message: Message, env: Env, m: Math)
    ensures Begins(r, HandleMessage(r, id, message, env, m), env)
  {
    hide HandleSetNickname, HandleRestartVote, TapWorld, RecordTap, CountMessage, MarkDisconnected, Typed, InitialWorld;
    if id in r.state.players {
      var heard := Emit(SetPlayer(r, id, CountMessage(r.state.players[id], env.now)), Dispatched(id, env.now));
      match message {
        case SetNickname(payload) => NicknameBegins(heard, id, Typed(payload), env);
        case RestartVote => VoteBegins(heard, id, env);
        case _ =>
      }
    }
  }

  lemma TimersBegin(r: RoomState, version: nat, env: Env)
    ensures Begins(r, HandleStartDelay(r, env), env) && Begins(r, AlarmAct(r, version, env), env)
  {
    hide AutoRestart, AllReady, InitialWorld;
    AutoRestartBegins(r.(alarm := r.alarm.(checked := r.alarm.checked - {version})), env);
  }

  /** Every step that begins a countdown begins it so. */
  lemma CountdownsBeginFresh(r: RoomState, step: Step, m: Math)
    ensures Begins(r, Next(r, step, m), step.env)
  {
    hide HandleJoin, HandleMessage, HandleStartDelay, AlarmAct, RemovePlayers, AllReady, MarkSome, TickWorld, Expired,
         EndGame, MarkDisconnected, InitialWorld;
    match step.action {
      case Join(id) => JoinBegins(r, id, step.env);
      case Say(id, message) => MessageBegins(r, id, message, step.env, m);
      case StartDelayOver => TimersBegin(r, 0, step.env);
      case AlarmActs(v) => TimersBegin(r, v, step.env);
      case Tick =>
        RemoveFrame(r, Expired(r.state.players, step.env.now));
        EndNeverCounts(r, step.env, m);
      case NicknameTimeout(id) => RemoveFrame(r.(nicknameTimers := r.nicknameTimers - {id}), {id});
      case _ =>
    }
  }

  lemma EndNeverCounts(r: RoomState, env: Env, m: Math)
    ensures r.state.phase != Counting ==> HandleTick(r, env, m).state.phase != Counting
  {
    hide TickWorld, Expired, RemovePlayers, Grounded;
    RemoveFrame(r, Expired(r.state.players, env.now));
  }

  // ---------------------------------------------------------------- cut connections, restored rooms, results

  /** Cut off with the lock held, a player is stamped like one who left; without it only the link goes. */
  lemma CutOffIsStamped(r: RoomState, flagged: set<PlayerId>, now: int, id: PlayerId)
    requires id in r.state.players
    ensures var r' := DropSlowClients(r, flagged, now);
            && r'.connections == r.connections - flagged && r'.state.players.Keys == r.state.players.Keys
            && (if id in r.connections && id in flagged
                then r'.state.players[id] == r.state.players[id].(disconnected := true, disconnectedAt := Some(now))
                else r'.state.players[id] == r.state.players[id])
    ensures Lose(r, flagged) == r.(connections := r.connections - flagged)
  {
  }

  /** A restored player waits for reconnection from the moment of restoring, record otherwise intact. */
  lemma RestoredIsStamped(saved: GameState, maxPlayers: int, hasStore: bool, now: int, d: WorldDraws, id: PlayerId)
    requires id in saved.players
    ensures var r := Materialize(saved, maxPlayers, hasStore, now, d);
            && id in r.state.players && r.connections == {} && r.state.phase == saved.phase
            && r.state.players[id] == saved.players[id].(disconnected := true, disconnectedAt := Some(now))
  {
  }

  /** When a tick ends a game with a store and a session, its result is the last thing logged. */
  lemma EndIsRecorded(r: RoomState, env: Env, m: Math)
    requires r.state.phase == Playing && r.hasStore && r.state.session.Some?
    requires HandleTick(r, env, m).state.phase != Playing
    ensures var r' := HandleTick(r, env, m);
            && |r'.log| > |r.log|
            && r'.log[|r'.log| - 1] ==
               ResultRecorded(r.state.session.value, r'.state.world.balloon.score, r'.state.players)
  {
    hide TickWorld, Expired, RemovePlayers, EndGame;
    SweptFrame(r, Expired(r.state.players, env.now));
    var swept := RemovePlayers(r, Expired(r.state.players, env.now));
    var moved := swept.(state := swept.state.(world := TickWorld(swept.state.world, env.tick, m).0));
    EndRecords(Lose(moved, env.lostFirst));
  }

  lemma SweptFrame(r: RoomState, ids: set<PlayerId>)
    ensures var swept := RemovePlayers(r, ids);
            && swept.state.phase == r.state.phase && swept.hasStore == r.hasStore
            && swept.state.session == r.state.session && |swept.log| >= |r.log|
  {
    hide NamesOf, Only;
  }

  lemma EndRecords(r: RoomState)
    requires r.hasStore && r.state.session.Some?
    ensures var r' := EndGame(r);
            r'.log == r.log + [ResultRecorded(r.state.session.value, r'.state.world.balloon.score, r'.state.players)]
  {
  }

  /** The automatic restart forgets the votes of players who are not connected. */
  lemma VotesArePruned(r: RoomState, env: Env)
    ensures AutoRestart(r, env).state.phase == Ended ==>
              AutoRestart(r, env).state.votes == r.state.votes * Connected(r.state.players)
  {
    hide Connected, YesVotes, InitialWorld, NamesOf, Stays, ClearAllStats;
  }
}
