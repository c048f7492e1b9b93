/**
 Where the balloon's score comes from. The log of a room is folded into a ledger that knows
 nothing of the room's state; the balloon score always equals what the ledger and the
 players' own contributions say.
 */
module RoomScores {
  import opened Prelude
  import opened Physics
  import opened RoomModel
  import GoStrings
  import opened RoomInvariants

  // ---------------------------------------------------------------- sums over rosters

  ghost function Total(players: Roster): (n: nat)
    decreases |players|
  {
    if players == map[] then 0 else
    var id :| id in players;
    players[id].score + Total(players - {id})
  }

  lemma {:induction false} TotalPick(players: Roster, id: PlayerId)
    requires id in players
    ensures Total(players) == players[id].score + Total(players - {id})
    decreases |players|
  {
    var first :| first in players && Total(players) == players[first].score + Total(players - {first});
    if first != id {
      TotalPick(players - {first}, id);
      TotalPick(players - {id}, first);
      assert players - {first} - {id} == players - {id} - {first};
    }
  }

  lemma TotalPut(players: Roster, id: PlayerId, p: Player)
    ensures Total(players[id := p]) == p.score + Total(players - {id})
  {
    TotalPick(players[id := p], id);
    assert players[id := p] - {id} == players - {id};
  }

  /** Replacing a record changes the total by the change of that record. */
  lemma TotalReplace(players: Roster, id: PlayerId, p: Player)
    requires id in players
    ensures Total(players[id := p]) == Total(players) - players[id].score + p.score
  {
    TotalPut(players, id, p);
    TotalPick(players, id);
  }

  lemma TotalAdd(players: Roster, id: PlayerId, p: Player)
    requires id !in players
    ensures Total(players[id := p]) == Total(players) + p.score
  {
    TotalPut(players, id, p);
    assert players - {id} == players;
  }

  lemma {:induction false} TotalSame(a: Roster, b: Roster)
    requires a.Keys == b.Keys && forall id :: id in a ==> a[id].score == b[id].score
    ensures Total(a) == Total(b)
    decreases |a|
  {
    if a != map[] {
      var id :| id in a;
      TotalPick(a, id);
      TotalPick(b, id);
      TotalSame(a - {id}, b - {id});
    } else {
      assert b == map[];
    }
  }

  lemma {:induction false} TotalZero(a: Roster)
    requires forall id :: id in a ==> a[id].score == 0
    ensures Total(a) == 0
    decreases |a|
  {
    if a != map[] {
      var id :| id in a;
      TotalPick(a, id);
      TotalZero(a - {id});
    }
  }

  lemma {:induction false} TotalSplit(a: Roster, gone: Roster)
    requires gone.Keys <= a.Keys && forall id :: id in gone ==> gone[id] == a[id]
    ensures Total(a) == Total(a - gone.Keys) + Total(gone)
    decreases |gone|
  {
    hide Total;
    if gone == map[] {
      assert a - gone.Keys == a;
      TotalZero(gone);
    } else {
      var id :| id in gone;
      TotalPick(a, id);
      TotalPick(gone, id);
      TotalSplit(a - {id}, gone - {id});
      assert a - {id} - (gone - {id}).Keys == a - gone.Keys;
    }
  }

  // ---------------------------------------------------------------- the ledger

  /**
   Since the last balloon reset: contributions removed, taps at the cap, contributions held at
   it, taps accepted; and whether every result recorded so far agreed with the ledger.
   */
  datatype Ledger = Ledger(removed: nat, capped: nat, held: int, taps: nat, honest: bool)

  /** A score, accounted for twice: by players' contributions and by accepted taps. */
  ghost predicate Accounted(score: nat, players: Roster, l: Ledger) {
    score == Total(players) + l.removed + l.capped - l.held && score == l.taps
  }

  ghost function Enter(l: Ledger, e: Effect): (l': Ledger) {
    match e
    case PlayersLeft(gone) => l.(removed := l.removed + Total(gone))
    case TapAccepted(_, capped) => l.(capped := l.capped + (if capped then 1 else 0), taps := l.taps + 1)
    case BalloonReset(roster, _) => Ledger(0, 0, Total(roster), 0, l.honest)
    case ResultRecorded(_, score, rows) => l.(honest := l.honest && Accounted(score, rows, l))
    case _ => l
  }

  ghost function Books(opening: Ledger, log: seq<Effect>): (l: Ledger) {
    if log == [] then opening else Enter(Books(opening, log[..|log| - 1]), log[|log| - 1])
  }

  const NEW_LEDGER := Ledger(0, 0, 0, 0, true)

  lemma BooksAppend(opening: Ledger, log: seq<Effect>, e: Effect)
    ensures Books(opening, log + [e]) == Enter(Books(opening, log), e)
  {
    assert (log + [e])[..|log|] == log;
  }

  ghost predicate Balanced(score: nat, players: Roster, l: Ledger) {
    Accounted(score, players, l) && l.honest
  }

  ghost predicate BooksOk(r: RoomState, opening: Ledger) {
    Balanced(r.state.world.balloon.score, r.state.players, Books(opening, r.log))
  }

  // ---------------------------------------------------------------- sections

  lemma EmitOther(r: RoomState, e: Effect, opening: Ledger)
    requires BooksOk(r, opening) && !e.PlayersLeft? && !e.BalloonReset? && !e.TapAccepted?
    requires e.ResultRecorded? ==> e.score == r.state.world.balloon.score && e.rows == r.state.players
    ensures BooksOk(Emit(r, e), opening)
  {
    hide Books, Total;
    BooksAppend(opening, r.log, e);
  }

  lemma SameScores(r: RoomState, r': RoomState, opening: Ledger)
    requires BooksOk(r, opening) && r'.log == r.log
    requires r'.state.world.balloon.score == r.state.world.balloon.score
    requires r'.state.players.Keys == r.state.players.Keys
    requires forall id :: id in r.state.players ==> r'.state.players[id].score == r.state.players[id].score
    ensures BooksOk(r', opening)
  {
    TotalSame(r.state.players, r'.state.players);
  }

  lemma ResetBooks(r: RoomState, roster: Roster, cleared: bool, opening: Ledger)
    requires r.state.world.balloon.score == 0 && r.state.players == roster && Books(opening, r.log).honest
    ensures BooksOk(Emit(r, BalloonReset(roster, cleared)), opening)
  {
    hide Books, Total;
    BooksAppend(opening, r.log, BalloonReset(roster, cleared));
  }

  lemma StartGameBooks(r: RoomState, env: Env, opening: Ledger)
    requires BooksOk(r, opening)
    ensures BooksOk(StartGame(r, env), opening)
  {
    if r.state.phase == Waiting {
      ResetBooks(r.(state := r.state.(world := InitialWorld(env.world))), r.state.players, false, opening);
    }
  }

  lemma CountdownEndBooks(r: RoomState, opening: Ledger)
    requires BooksOk(r, opening)
    ensures BooksOk(CountdownEnd(r), opening)
  {
    if r.state.session.Some? {
      EmitOther(r, PlayStarted(r.state.session.value, r.hasStore), opening);
    }
  }

  lemma EndGameBooks(r: RoomState, opening: Ledger)
    requires BooksOk(r, opening)
    ensures BooksOk(EndGame(r), opening)
  {
    hide Books, Total;
    if r.state.session.Some? {
      EmitOther(r, ResultRecorded(r.state.session.value, r.state.world.balloon.score, r.state.players), opening);
    }
  }

  lemma LeftStaysHonest(r: RoomState, gone: Roster, opening: Ledger)
    requires Books(opening, r.log).honest
    ensures Books(opening, EmitLeft(r, gone).log).honest
  {
    hide Books, Total;
    BooksAppend(opening, r.log, PlayersLeft(gone));
  }

  lemma RestartBooks(r: RoomState, env: Env, opening: Ledger)
    requires BooksOk(r, opening)
    ensures BooksOk(RestartAndStart(r, env), opening)
  {
    hide Books, Total, Stays, ClearAllStats, NamesOf, EmitLeft;
    if r.state.phase == Ended {
      var kept := Stays(r.state.players, r.connections);
      var gone := r.state.players - kept.Keys;
      var cleared := ClearAllStats(kept, env.now);
      LeftStaysHonest(r.(usedNames := r.usedNames - NamesOf(gone)), gone, opening);
      var swept := EmitLeft(r.(usedNames := r.usedNames - NamesOf(gone)), gone);
      var fresh' := NewGame(env.world);
      ResetBooks(swept.(state := fresh'), map[], true, opening);
      ResetBooks(swept.(state := fresh'.(players := cleared)), cleared, true, opening);
    }
  }

  lemma AutoRestartBooks(r: RoomState, env: Env, opening: Ledger)
    requires BooksOk(r, opening)
    ensures BooksOk(AutoRestart(r, env), opening)
  {
    hide Books, Total, RestartAndStart, Connected, YesVotes;
    var pruned := r.(state := r.state.(votes := r.state.votes * Connected(r.state.players)));
    RestartBooks(Lose(pruned, env.lostLater), env, opening);
  }

  lemma AutoRestartIfEndedBooks(r: RoomState, env: Env, opening: Ledger)
    requires BooksOk(r, opening)
    ensures BooksOk(AutoRestartIfEnded(r, env), opening)
  {
    hide Books, Total, AutoRestart, AllReady;
    AutoRestartBooks(Lose(r, env.lostFirst), env, opening);
  }

  lemma PutBooks(r: RoomState, id: PlayerId, p: Player, opening: Ledger)
    requires BooksOk(r, opening) && id in r.state.players && p.score == r.state.players[id].score
    ensures BooksOk(SetPlayer(r, id, p), opening)
  {
    hide Books, Total;
    TotalReplace(r.state.players, id, p);
  }

  lemma GateBooks(r: RoomState, opening: Ledger)
    requires BooksOk(r, opening)
    ensures BooksOk(ResumeTick(NicknameGate(r)), opening) && BooksOk(TryStart(r), opening)
    ensures BooksOk(SetAlarm(r), opening) && BooksOk(ResumeTick(r), opening)
  {
    hide Books, Total, AllReady;
  }

  lemma ReconnectBooks(r: RoomState, id: PlayerId, env: Env, opening: Ledger)
    requires BooksOk(r, opening) && id in r.state.players
    ensures BooksOk(Reconnect(r, id, env), opening)
  {
    hide Books, Total, AllReady, AutoRestartIfEnded, TryStart, ResumeTick, SetAlarm;
    var p := r.state.players[id].(disconnected := false, disconnectedAt := None);
    PutBooks(r, id, p, opening);
    var back := SetPlayer(r, id, p).(
      nicknameTimers := if p.confirmed then r.nicknameTimers else r.nicknameTimers + {id});
    AutoRestartIfEndedBooks(back, env, opening);
    GateBooks(back, opening);
  }

  lemma JoinBooks(r: RoomState, id: PlayerId, env: Env, opening: Ledger)
    requires BooksOk(r, opening)
    ensures BooksOk(HandleJoin(r, id, env), opening)
  {
    hide Books, Total, Reconnect, NicknameGate, ResumeTick, Nicknames.Sanitize, NameGenerator.Generate;
    var linked := r.(connections := r.connections + {id} - env.lostEarly);
    if id in r.state.players {
      ReconnectBooks(linked, id, env, opening);
      GateBooks(linked, opening);
    } else {
      TotalAdd(r.state.players, id, NewPlayer(linked, env));
      GateBooks(AddPlayer(linked, id, env), opening);
    }
  }

  /** Players who leave take their contribution out of the roster and into the ledger. */
  lemma RemovePlayersBooks(r: RoomState, ids: set<PlayerId>, opening: Ledger)
    requires BooksOk(r, opening)
    ensures BooksOk(RemovePlayers(r, ids), opening)
  {
    hide Books, Total, NamesOf;
    var players := r.state.players;
    var gone := Only(players, ids);
    TotalSplit(players, gone);
    assert players - gone.Keys == players - ids;
    BooksAppend(opening, r.log, PlayersLeft(gone));
    TotalZero(map[]);
  }

  /** An accepted tap scores once for the balloon and once for the player, or for the cap. */
  lemma TapBooks(r: RoomState, id: PlayerId, point: Option<(real, real)>, env: Env, m: Math, opening: Ledger)
    requires BooksOk(r, opening) && id in r.state.players && r.state.players[id].score <= MAX_SCORE
    ensures BooksOk(HandleTap(r, id, point, env, m), opening)
  {
    hide Books, Total;
    var p := r.state.players[id];
    TotalReplace(r.state.players, id, RecordTap(p, env.now, env.cooldown));
    BooksAppend(opening, r.log, TapAccepted(id, p.score >= MAX_SCORE));
    if r.state.phase == Playing && env.now >= p.cooldownEnd && InUnitSquare(point) {
      TapKeepsScore(r.state.world, point.value.0, point.value.1, m);
    }
    hide TapWorld;
  }

  lemma TapKeepsScore(w: World, x: real, y: real, m: Math)
    ensures TapWorld(w, x, y, m).Some? ==> TapWorld(w, x, y, m).value.balloon.score == w.balloon.score
  {
  }

  lemma ConfirmBooks(r: RoomState, id: PlayerId, p: Player, env: Env, opening: Ledger)
    requires BooksOk(r, opening) && id in r.state.players && p.score == r.state.players[id].score
    ensures BooksOk(Confirm(r, id, p, env), opening)
  {
    hide Books, Total, AllReady, AutoRestartIfEnded, TryStart;
    PutBooks(r, id, p.(confirmed := true), opening);
    var confirmed := SetPlayer(r, id, p.(confirmed := true)).(nicknameTimers := r.nicknameTimers - {id});
    GateBooks(confirmed, opening);
    AutoRestartIfEndedBooks(TryStart(confirmed), env, opening);
  }

  lemma SetNicknameBooks(r: RoomState, id: PlayerId, text: Option<GoStrings.Name>, env: Env, opening: Ledger)
    requires BooksOk(r, opening) && id in r.state.players
    ensures BooksOk(HandleSetNickname(r, id, text, env), opening)
  {
    hide Books, Total, Confirm, ChosenName, Nicknames.Sanitize;
    var p := r.state.players[id];
    ConfirmBooks(r, id, p, env, opening);
    var sanitized := if text.Some? then Nicknames.Sanitize(text.value) else [];
    if ChosenName(p, sanitized, r.usedNames, env).Some? {
      var n := ChosenName(p, sanitized, r.usedNames, env).value;
      ConfirmBooks(r.(usedNames := r.usedNames - {p.nickname} + {n}), id,
                   p.(nickname := n, lastNicknameChange := env.now), env, opening);
    }
  }

  lemma RestartVoteBooks(r: RoomState, id: PlayerId, env: Env, opening: Ledger)
    requires BooksOk(r, opening)
    ensures BooksOk(HandleRestartVote(r, id, env), opening)
  {
    hide Books, Total, RestartAndStart, Connected, YesVotes;
    RestartBooks(r.(state := r.state.(votes := r.state.votes + {id})), env, opening);
  }

  lemma MessageBooks(r: RoomState, id: PlayerId, message: Message, env: Env, m: Math, opening: Ledger)
    requires BooksOk(r, opening) && (id in r.state.players ==> r.state.players[id].score <= MAX_SCORE)
    ensures BooksOk(HandleMessage(r, id, message, env, m), opening)
  {
    hide Books, Total, HandleTap, HandleSetNickname, HandleRestartVote;
    if id in r.state.players {
      var p := CountMessage(r.state.players[id], env.now);
      PutBooks(r, id, MarkDisconnected(p, env.now), opening);
      PutBooks(r, id, p, opening);
      EmitOther(SetPlayer(r, id, p), Dispatched(id, env.now), opening);
      var counted := Emit(SetPlayer(r, id, p), Dispatched(id, env.now));
      match message {
        case Tap(point) => TapBooks(counted, id, point, env, m, opening);
        case SetNickname(payload) => SetNicknameBooks(counted, id, Typed(payload), env, opening);
        case RestartVote => RestartVoteBooks(counted, id, env, opening);
        case _ =>
      }
    }
  }

  lemma TickKeepsScore(w: World, d: TickDraws, m: Math)
    ensures TickWorld(w, d, m).0.balloon.score == w.balloon.score
  {
  }

  lemma TickBooks(r: RoomState, env: Env, m: Math, opening: Ledger)
    requires BooksOk(r, opening)
    ensures BooksOk(HandleTick(r, env, m), opening)
  {
    hide Books, Total, TickWorld, RemovePlayers, Expired, EndGame;
    RemovePlayersBooks(r, Expired(r.state.players, env.now), opening);
    var swept := RemovePlayers(r, Expired(r.state.players, env.now));
    TickKeepsScore(swept.state.world, env.tick, m);
    var moved := swept.(state := swept.state.(world := TickWorld(swept.state.world, env.tick, m).0));
    EndGameBooks(Lose(moved, env.lostFirst), opening);
  }

  lemma TimeoutBooks(r: RoomState, id: PlayerId, opening: Ledger)
    requires BooksOk(r, opening)
    ensures BooksOk(HandleNicknameTimeout(r, id), opening)
  {
    hide Books, Total, RemovePlayers, AllReady;
    RemovePlayersBooks(r.(nicknameTimers := r.nicknameTimers - {id}), {id}, opening);
  }

  lemma OtherBooks(r: RoomState, id: PlayerId, flagged: set<PlayerId>, env: Env, version: nat, opening: Ledger)
    requires BooksOk(r, opening)
    ensures BooksOk(HandleDisconnect(r, id, env), opening)
    ensures BooksOk(DropSlowClients(r, flagged, env.now), opening)
    ensures BooksOk(AlarmExpires(r), opening) && BooksOk(AlarmCheck(r, version), opening)
  {
    hide Books, Total, DropSlowClients;
    if id in r.state.players {
      PutBooks(r, id, MarkDisconnected(r.state.players[id], env.now), opening);
    }
    DropSlowBooks(r, flagged, env.now, opening);
  }

  lemma DropSlowBooks(r: RoomState, flagged: set<PlayerId>, now: int, opening: Ledger)
    requires BooksOk(r, opening)
    ensures BooksOk(DropSlowClients(r, flagged, now), opening)
  {
    hide Books, Total;
    SameScores(r, DropSlowClients(r, flagged, now), opening);
  }

  lemma AlarmActBooks(r: RoomState, version: nat, env: Env, opening: Ledger)
    requires BooksOk(r, opening)
    ensures BooksOk(AlarmAct(r, version, env), opening)
  {
    hide Books, Total, CountdownEnd, AutoRestart;
    var done := r.(alarm := r.alarm.(checked := r.alarm.checked - {version}));
    CountdownEndBooks(done, opening);
    AutoRestartBooks(done, env, opening);
  }

  lemma StartDelayBooks(r: RoomState, env: Env, opening: Ledger)
    requires BooksOk(r, opening)
    ensures BooksOk(HandleStartDelay(r, env), opening)
  {
    hide Books, Total, StartGame, AllReady;
    StartGameBooks(r.(startDelay := false), env, opening);
  }

  lemma SameBooks(r: RoomState, r': RoomState, opening: Ledger)
    requires BooksOk(r, opening) && r'.state == r.state && r'.log == r.log
    ensures BooksOk(r', opening)
  {
  }

  lemma ScoreCap(r: RoomState)
    requires Inv(r)
    ensures forall id :: id in r.state.players ==> r.state.players[id].score <= MAX_SCORE
  {
    forall id | id in r.state.players
      ensures r.state.players[id].score <= MAX_SCORE
    {
      PlayerIsOk(r, id);
    }
  }

  lemma StepBooks(r: RoomState, step: Step, m: Math, opening: Ledger)
    requires Inv(r) && BooksOk(r, opening)
    ensures BooksOk(Next(r, step, m), opening)
  {
    hide Inv, BooksOk, HandleJoin, HandleDisconnect, HandleMessage, HandleTick, HandleNicknameTimeout,
         HandleStartDelay, AlarmExpires, AlarmCheck, AlarmAct, DropSlowClients;
    ScoreCap(r);
    var env := step.env;
    match step.action {
      case Join(id) => JoinBooks(r, id, env, opening);
      case Say(id, message) => MessageBooks(r, id, message, env, m, opening);
      case Tick => TickBooks(r, env, m, opening);
      case NicknameTimeout(id) => TimeoutBooks(r, id, opening);
      case StartDelayOver => StartDelayBooks(r, env, opening);
      case AlarmActs(v) => AlarmActBooks(r, v, env, opening);
      case Leave(id) => OtherBooks(r, id, {}, env, 0, opening);
      case DropSlow(flagged) => OtherBooks(r, PlayerId(""), flagged, env, 0, opening);
      case AlarmFires => OtherBooks(r, PlayerId(""), {}, env, 0, opening);
      case AlarmChecks(v) => OtherBooks(r, PlayerId(""), {}, env, v, opening);
      case _ => SameBooks(r, Next(r, step, m), opening);
    }
  }

  lemma {:induction false} RunBooks(r: RoomState, steps: seq<Step>, m: Math, opening: Ledger)
    requires Inv(r) && BooksOk(r, opening)
    ensures BooksOk(Run(r, steps, m), opening)
    decreases |steps|
  {
    hide Inv, BooksOk, Next;
    if steps != [] {
      StepBooks(r, steps[0], m, opening);
      StepKeeps(r, steps[0], m);
      RunBooks(Next(r, steps[0], m), steps[1..], m, opening);
    }
  }

  lemma NewBooks(maxPlayers: int, hasStore: bool, d: WorldDraws)
    ensures BooksOk(NewRoom(maxPlayers, hasStore, d), NEW_LEDGER)
  {
  }

  lemma BalancedHere(r: RoomState, opening: Ledger)
    requires BooksOk(r, opening)
    ensures Accounted(r.state.world.balloon.score, r.state.players, Books(opening, r.log))
    ensures Books(opening, r.log).honest
  {
  }

  /**
   Score conservation in every run of a new room: the balloon's score is the current players'
   contributions, plus those of players removed since the last reset, plus the taps accepted
   at the cap, minus what the players already held at that reset; and it is the number of
   taps accepted since that reset.
   */
  lemma ScoreIsConserved(maxPlayers: int, hasStore: bool, d: WorldDraws, steps: seq<Step>, m: Math)
    ensures var r := Run(NewRoom(maxPlayers, hasStore, d), steps, m);
            var l := Books(NEW_LEDGER, r.log);
            && r.state.world.balloon.score == Total(r.state.players) + l.removed + l.capped - l.held
            && r.state.world.balloon.score == l.taps
  {
    hide Total, Inv, Run, InitialWorld;
    var room := NewRoom(maxPlayers, hasStore, d);
    NewRoomOk(maxPlayers, hasStore, d);
    NewBooks(maxPlayers, hasStore, d);
    hide Books, BooksOk, NewRoom;
    RunBooks(room, steps, m, NEW_LEDGER);
    BalancedHere(Run(room, steps, m), NEW_LEDGER);
  }

  /** The first balance of a room whose log is still empty. */
  ghost function Opening(players: Roster, score: nat): (l: Ledger)
    ensures Balanced(score, players, l)
  {
    Ledger(0, 0, Total(players) - score, score, true)
  }

  lemma BooksOpen(r: RoomState)
    requires r.log == []
    ensures BooksOk(r, Opening(r.state.players, r.state.world.balloon.score))
  {
  }

  /** The same for any room object, restored ones included, with its first balance as opening entry. */
  lemma ScoreIsConservedFrom(r: RoomState, steps: seq<Step>, m: Math)
    requires Inv(r) && r.log == []
    ensures BooksOk(Run(r, steps, m), Opening(r.state.players, r.state.world.balloon.score))
  {
    hide *;
    BooksOpen(r);
    RunBooks(r, steps, m, Opening(r.state.players, r.state.world.balloon.score));
  }

  /** An honest ledger vouches for every result in its log. */
  lemma {:induction false} HonestPrefix(opening: Ledger, log: seq<Effect>, i: nat)
    requires Books(opening, log).honest && i < |log| && log[i].ResultRecorded?
    ensures Accounted(log[i].score, log[i].rows, Books(opening, log[..i]))
    decreases |log|
  {
    hide Total;
    var init := log[..|log| - 1];
    if i < |init| {
      HonestPrefix(opening, init, i);
      assert init[..i] == log[..i];
    }
  }

  /**
   Every result a room ever records is accounted for: its score is the number of taps accepted
   in that game, and the sum of its rows' contributions up to players who left, taps at the
   cap and contributions held when the game began.
   */
  lemma ResultsAreAccounted(maxPlayers: int, hasStore: bool, d: WorldDraws, steps: seq<Step>, m: Math, i: nat)
    requires var log := Run(NewRoom(maxPlayers, hasStore, d), steps, m).log; i < |log| && log[i].ResultRecorded?
    ensures var log := Run(NewRoom(maxPlayers, hasStore, d), steps, m).log;
            Accounted(log[i].score, log[i].rows, Books(NEW_LEDGER, log[..i]))
  {
    hide *;
    var r := NewRoom(maxPlayers, hasStore, d);
    NewBooks(maxPlayers, hasStore, d);
    NewRoomOk(maxPlayers, hasStore, d);
    RunBooks(r, steps, m, NEW_LEDGER);
    BalancedHere(Run(r, steps, m), NEW_LEDGER);
    HonestPrefix(NEW_LEDGER, Run(r, steps, m).log, i);
  }
}
