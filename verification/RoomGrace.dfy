/**
 The thirty seconds in which a player who left may come back: seat, name and score are kept for
 exactly that long, whatever else happens in the room, unless a restart clears the table.
 */
module RoomGrace {
  import opened Prelude
  import opened Physics
  import opened RoomModel
  import opened RoomFlow
  import opened RoomRate
  import GoStrings
  import Nicknames
  import NameGenerator

  // ---------------------------------------------------------------- what is kept

  /** Restarts a room has logged. */
  ghost function Restarted(log: seq<Effect>): (n: nat) {
    if log == [] then 0 else Restarted(log[..|log| - 1]) + (if IsRestart(log[|log| - 1]) then 1 else 0)
  }

  predicate IsRestart(e: Effect) {
    e.BalloonReset? && e.statsCleared
  }

  lemma RestartedAppend(log: seq<Effect>, e: Effect)
    ensures Restarted(log + [e]) == Restarted(log) + (if IsRestart(e) then 1 else 0)
  {
    assert (log + [e])[..|log|] == log;
  }

  /** Same seat, name, score and whereabouts. */
  predicate SameSeat(p: Player, q: Player) {
    && q.index == p.index && q.nickname == p.nickname && q.score == p.score && q.taps == p.taps
    && q.confirmed == p.confirmed && q.disconnected == p.disconnected && q.disconnectedAt == p.disconnectedAt
  }

  /** Short of a restart, `id` keeps its seat, and stays away if it was away. */
  ghost predicate Holds(r: RoomState, r': RoomState, id: PlayerId) {
    && Restarted(r'.log) >= Restarted(r.log)
    && (Restarted(r'.log) == Restarted(r.log) && id in r.state.players ==>
          && id in r'.state.players && SameSeat(r.state.players[id], r'.state.players[id])
          && (id !in r.connections ==> id !in r'.connections))
    && (id !in r.state.players ==> id !in r'.state.players)
  }

  // ---------------------------------------------------------------- sections

  lemma RestartHolds(r: RoomState, env: Env, id: PlayerId)
    ensures Holds(r, RestartAndStart(r, env), id)
  {
    hide Restarted, ClearAllStats, NamesOf, InitialWorld;
    if r.state.phase == Ended {
      var kept := Stays(r.state.players, r.connections);
      var gone := r.state.players - kept.Keys;
      RestartedAppend(r.log, PlayersLeft(gone));
      var swept := EmitLeft(r, gone).log;
      RestartedAppend(swept, BalloonReset(map[], true));
      RestartedAppend(swept, BalloonReset(ClearAllStats(kept, env.now), true));
    }
  }

  lemma AutoRestartHolds(r: RoomState, env: Env, id: PlayerId)
    ensures Holds(r, AutoRestart(r, env), id)
  {
    hide Restarted, RestartAndStart, Connected, YesVotes;
    var pruned := r.(state := r.state.(votes := r.state.votes * Connected(r.state.players)));
    RestartHolds(Lose(pruned, env.lostLater), env, id);
  }

  lemma AutoRestartIfEndedHolds(r: RoomState, env: Env, id: PlayerId)
    ensures Holds(r, AutoRestartIfEnded(r, env), id)
  {
    hide Restarted, AutoRestart, AllReady;
    AutoRestartHolds(Lose(r, env.lostFirst), env, id);
  }

  lemma ReconnectHolds(r: RoomState, who: PlayerId, env: Env, id: PlayerId)
    requires who in r.state.players && who != id
    ensures Holds(r, Reconnect(r, who, env), id)
  {
    hide Restarted, AutoRestartIfEnded, AllReady, Holds;
    var p := r.state.players[who].(disconnected := false, disconnectedAt := None);
    var back := SetPlayer(r, who, p).(
      nicknameTimers := if p.confirmed then r.nicknameTimers else r.nicknameTimers + {who});
    AutoRestartIfEndedHolds(back, env, id);
    SameForOthers(r, back, id);
    TouchHolds(back, id);
  }

  /** A change to somebody else's record is no change for `id`. */
  lemma SameForOthers(r: RoomState, back: RoomState, id: PlayerId)
    requires back.log == r.log && back.connections == r.connections
    requires id in r.state.players <==> id in back.state.players
    requires id in r.state.players ==> SameSeat(r.state.players[id], back.state.players[id])
    ensures forall r' :: Holds(back, r', id) ==> Holds(r, r', id)
  {
    hide Restarted;
  }

  lemma TouchHolds(r: RoomState, id: PlayerId)
    ensures Holds(r, r, id) && Holds(r, TryStart(r), id) && Holds(r, ResumeTick(r), id) && Holds(r, SetAlarm(r), id)
  {
    hide Restarted, AllReady;
  }

  lemma GateHolds(r: RoomState, id: PlayerId)
    ensures Holds(r, ResumeTick(NicknameGate(r)), id)
  {
    hide Restarted, AllReady;
  }

  lemma JoinHolds(r: RoomState, who: PlayerId, env: Env, id: PlayerId)
    requires who != id
    ensures Holds(r, HandleJoin(r, who, env), id)
  {
    hide Restarted, Reconnect, NicknameGate, ResumeTick, NewPlayer;
    var linked := r.(connections := r.connections + {who} - env.lostEarly);
    GateHolds(linked, id);
    GateHolds(AddPlayer(linked, who, env), id);
    if who in r.state.players {
      ReconnectHolds(linked, who, env, id);
    }
  }

  lemma RemoveHolds(r: RoomState, ids: set<PlayerId>, id: PlayerId)
    requires id !in ids
    ensures Holds(r, RemovePlayers(r, ids), id)
  {
    hide Restarted, NamesOf;
    RestartedAppend(r.log, PlayersLeft(Only(r.state.players, ids)));
  }

  lemma EndGameHolds(r: RoomState, id: PlayerId)
    ensures Holds(r, EndGame(r), id)
  {
    hide Restarted, Grounded;
    if r.state.session.Some? {
      RestartedAppend(r.log, ResultRecorded(r.state.session.value, r.state.world.balloon.score, r.state.players));
    }
  }

  lemma TickHolds(r: RoomState, env: Env, m: Math, id: PlayerId)
    requires id !in Expired(r.state.players, env.now)
    ensures Holds(r, HandleTick(r, env, m), id)
  {
    hide Restarted, TickWorld, RemovePlayers, Expired, EndGame;
    RemoveHolds(r, Expired(r.state.players, env.now), id);
    var swept := RemovePlayers(r, Expired(r.state.players, env.now));
    var moved := swept.(state := swept.state.(world := TickWorld(swept.state.world, env.tick, m).0));
    EndGameHolds(Lose(moved, env.lostFirst), id);
  }

  lemma TimeoutHolds(r: RoomState, who: PlayerId, id: PlayerId)
    requires who != id || (id in r.state.players ==> r.state.players[id].confirmed)
    ensures Holds(r, HandleNicknameTimeout(r, who), id)
  {
    hide Restarted, RemovePlayers, AllReady;
    if who != id {
      RemoveHolds(r.(nicknameTimers := r.nicknameTimers - {who}), {who}, id);
    }
  }

  lemma TimersHold(r: RoomState, version: nat, env: Env, id: PlayerId)
    ensures Holds(r, HandleStartDelay(r, env), id)
    ensures Holds(r, AlarmAct(r, version, env), id)
  {
    hide Restarted, AllReady, StartGame, CountdownEnd, AutoRestart;
    StartGameHolds(r.(startDelay := false), env, id);
    var done := r.(alarm := r.alarm.(checked := r.alarm.checked - {version}));
    CountdownEndHolds(done, id);
    AutoRestartHolds(done, env, id);
  }

  lemma StartGameHolds(r: RoomState, env: Env, id: PlayerId)
    ensures Holds(r, StartGame(r, env), id)
  {
    hide Restarted, InitialWorld;
    RestartedAppend(r.log, BalloonReset(r.state.players, false));
  }

  lemma CountdownEndHolds(r: RoomState, id: PlayerId)
    ensures Holds(r, CountdownEnd(r), id)
  {
    hide Restarted;
    if r.state.session.Some? {
      RestartedAppend(r.log, PlayStarted(r.state.session.value, r.hasStore));
    }
  }

  lemma ConfirmHolds(r: RoomState, who: PlayerId, p: Player, env: Env, id: PlayerId)
    requires who in r.state.players && who != id
    ensures Holds(r, Confirm(r, who, p, env), id)
  {
    hide Restarted, AutoRestartIfEnded, AllReady;
    AutoRestartIfEndedHolds(
      TryStart(SetPlayer(r, who, p.(confirmed := true)).(nicknameTimers := r.nicknameTimers - {who})), env, id);
  }

  lemma SetNicknameHolds(r: RoomState, who: PlayerId, text: Option<GoStrings.Name>, env: Env, id: PlayerId)
    requires who in r.state.players && who != id
    ensures Holds(r, HandleSetNickname(r, who, text, env), id)
  {
    hide Restarted, Confirm, ChosenName, Nicknames.Sanitize;
    var p := r.state.players[who];
    ConfirmHolds(r, who, p, env, id);
    var sanitized := if text.Some? then Nicknames.Sanitize(text.value) else [];
    if ChosenName(p, sanitized, r.usedNames, env).Some? {
      var n := ChosenName(p, sanitized, r.usedNames, env).value;
      ConfirmHolds(r.(usedNames := r.usedNames - {p.nickname} + {n}), who,
                   p.(nickname := n, lastNicknameChange := env.now), env, id);
    }
  }

  lemma TapHolds(r: RoomState, who: PlayerId, point: Option<(real, real)>, env: Env, m: Math, id: PlayerId)
    requires who in r.state.players && who != id
    ensures Holds(r, HandleTap(r, who, point, env, m), id)
  {
    hide Restarted, TapWorld, InUnitSquare;
    RestartedAppend(r.log, TapAccepted(who, r.state.players[who].score >= MAX_SCORE));
  }

  lemma VoteHolds(r: RoomState, who: PlayerId, env: Env, id: PlayerId)
    ensures Holds(r, HandleRestartVote(r, who, env), id)
  {
    hide Restarted, RestartAndStart, Connected, YesVotes;
    RestartHolds(r.(state := r.state.(votes := r.state.votes + {who})), env, id);
  }

  lemma NothingHolds(r: RoomState, id: PlayerId)
    ensures Holds(r, r, id)
  {
  }

  lemma DispatchHolds(r: RoomState, who: PlayerId, message: Message, env: Env, m: Math, id: PlayerId)
    requires who in r.state.players && who != id
    ensures Holds(r, Dispatch(r, who, message, env, m), id)
  {
    hide Holds, HandleTap, HandleSetNickname, HandleRestartVote;
    match message {
      case Tap(point) => TapHolds(r, who, point, env, m, id);
      case SetNickname(payload) => SetNicknameHolds(r, who, Typed(payload), env, id);
      case RestartVote => VoteHolds(r, who, env, id);
      case _ => NothingHolds(r, id);
    }
  }

  lemma MessageHolds(r: RoomState, who: PlayerId, message: Message, env: Env, m: Math, id: PlayerId)
    requires who != id
    ensures Holds(r, HandleMessage(r, who, message, env, m), id)
  {
    hide Restarted, Dispatch, CountMessage, MarkDisconnected;
    if who in r.state.players {
      var p := CountMessage(r.state.players[who], env.now);
      RestartedAppend(r.log, Dispatched(who, env.now));
      DispatchHolds(Emit(SetPlayer(r, who, p), Dispatched(who, env.now)), who, message, env, m, id);
    }
  }

  /** A step of anybody but `id` itself. */
  predicate Elsewhere(a: Action, id: PlayerId) {
    && !(a.Join? && a.player == id) && !(a.Leave? && a.player == id) && !(a.Say? && a.player == id)
  }

  predicate Away(r: RoomState, id: PlayerId) {
    && id in r.state.players && id !in r.connections
    && r.state.players[id].confirmed && r.state.players[id].disconnected
  }

  lemma LeaveHolds(r: RoomState, who: PlayerId, flagged: set<PlayerId>, env: Env, id: PlayerId)
    requires id in r.state.players ==> id !in r.connections
    ensures who != id ==> Holds(r, HandleDisconnect(r, who, env), id)
    ensures Holds(r, DropSlowClients(r, flagged, env.now), id)
  {
    hide Restarted, MarkDisconnected;
  }

  lemma OtherHolds(r: RoomState, step: Step, m: Math, id: PlayerId)
    requires step.action.AlarmFires? || step.action.AlarmChecks? || step.action.DropSlowUnlocked? ||
             step.action.RestartTickBegin? || step.action.RestartTickFinish? || step.action.CloseBegin? ||
             step.action.CloseFinish?
    ensures Holds(r, Next(r, step, m), id)
  {
    hide Restarted, HandleJoin, HandleMessage, HandleTick, HandleNicknameTimeout, HandleStartDelay, AlarmAct,
         HandleDisconnect, DropSlowClients;
  }

  /** Short of a restart nobody else's step, and no tick within the grace period, touches a seat. */
  lemma StepHolds(r: RoomState, step: Step, m: Math, id: PlayerId)
    requires Elsewhere(step.action, id) && (id in r.state.players ==> Away(r, id))
    requires step.action.Tick? ==> id !in Expired(r.state.players, step.env.now)
    ensures Holds(r, Next(r, step, m), id)
  {
    hide Holds, Expired, HandleJoin, HandleMessage, HandleTick, HandleNicknameTimeout, HandleStartDelay, AlarmAct,
         HandleDisconnect, DropSlowClients, AlarmExpires, AlarmCheck, Begun, Finished;
    match step.action {
      case Join(who) => JoinHolds(r, who, step.env, id);
      case Say(who, message) => MessageHolds(r, who, message, step.env, m, id);
      case Tick => TickHolds(r, step.env, m, id);
      case NicknameTimeout(who) => TimeoutHolds(r, who, id);
      case StartDelayOver => TimersHold(r, 0, step.env, id);
      case AlarmActs(v) => TimersHold(r, v, step.env, id);
      case Leave(who) => LeaveHolds(r, who, {}, step.env, id);
      case DropSlow(flagged) => LeaveHolds(r, id, flagged, step.env, id);
      case _ => OtherHolds(r, step, m, id);
    }
  }

  // ---------------------------------------------------------------- the grace period

  /** Nobody takes a step for `id`: it does not come back, leave again, or speak. */
  predicate StaysAway(steps: seq<Step>, id: PlayerId) {
    forall i :: 0 <= i < |steps| ==> Elsewhere(steps[i].action, id)
  }

  /** `id` left at `time` and has its seat. */
  predicate LeftAt(r: RoomState, id: PlayerId, time: int) {
    Away(r, id) && r.state.players[id].disconnectedAt == Some(time)
  }

  predicate NoLaterThan(steps: seq<Step>, end: int) {
    forall i :: 0 <= i < |steps| ==> steps[i].env.now <= end
  }

  lemma NotExpired(r: RoomState, id: PlayerId, time: int, now: int)
    requires LeftAt(r, id, time)
    ensures id in Expired(r.state.players, now) <==> now > time + 30000
  {
  }

  lemma {:induction false} SeatIsKept(r: RoomState, steps: seq<Step>, m: Math, id: PlayerId, time: int)
    requires LeftAt(r, id, time) && StaysAway(steps, id) && NoLaterThan(steps, time + 30000)
    ensures var r' := Run(r, steps, m);
            && Restarted(r'.log) >= Restarted(r.log)
            && (Restarted(r'.log) == Restarted(r.log) ==>
                  LeftAt(r', id, time) && SameSeat(r.state.players[id], r'.state.players[id]))
    decreases |steps|
  {
    hide Next, Restarted, Expired;
    if steps != [] {
      var r1 := Next(r, steps[0], m);
      NotExpired(r, id, time, steps[0].env.now);
      StepHolds(r, steps[0], m, id);
      if Restarted(r1.log) == Restarted(r.log) {
        SeatIsKept(r1, steps[1..], m, id, time);
      } else {
        RestartsOnly(r1, steps[1..], m);
      }
    }
  }

  /** Restarts are never taken back. */
  lemma {:induction false} RestartsOnly(r: RoomState, steps: seq<Step>, m: Math)
    ensures Restarted(Run(r, steps, m).log) >= Restarted(r.log)
    decreases |steps|
  {
    hide Next, Restarted;
    if steps != [] {
      StepRestarts(r, steps[0], m);
      RestartsOnly(Next(r, steps[0], m), steps[1..], m);
    }
  }

  lemma StepRestarts(r: RoomState, step: Step, m: Math)
    ensures Restarted(Next(r, step, m).log) >= Restarted(r.log)
  {
    var id := Bystander(r, step);
    StepHolds(r, step, m, id);
  }

  /** Somebody the step is not about and who is not in the room. */
  lemma Bystander(r: RoomState, step: Step) returns (id: PlayerId)
    ensures id !in r.state.players && Elsewhere(step.action, id)
    ensures id !in Expired(r.state.players, step.env.now)
  {
    var taken := r.state.players.Keys + (if step.action.Join? || step.action.Leave? || step.action.Say?
                                         then {step.action.player} else {});
    id := FreshId(taken);
  }

  /** There is always one more name for a player. */
  lemma FreshId(taken: set<PlayerId>) returns (id: PlayerId)
    ensures id !in taken
  {
    var n := LongerThan(taken);
    id := PlayerId(seq(n + 1, _ => 'x'));
  }

  lemma {:induction false} LongerThan(taken: set<PlayerId>) returns (n: nat)
    ensures forall id :: id in taken ==> |id.raw| <= n
    decreases |taken|
  {
    if taken == {} {
      return 0;
    }
    var id :| id in taken;
    n := LongerThan(taken - {id});
    n := if |id.raw| > n then |id.raw| else n;
  }

  /**
   A confirmed player leaves at T. Whatever the others do, as long as the clock has not passed
   T + 30000 and no restart has cleared the table, the player keeps seat, name and score.
   */
  lemma LeaverIsKept(r: RoomState, env: Env, steps: seq<Step>, m: Math, id: PlayerId)
    requires id in r.state.players && r.state.players[id].confirmed
    requires StaysAway(steps, id) && NoLaterThan(steps, env.now + 30000)
    ensures var left := Next(r, Step(Leave(id), env), m);
            var r' := Run(left, steps, m);
            Restarted(r'.log) == Restarted(r.log) ==>
              && id in r'.state.players && r'.state.players[id].disconnected
              && r'.state.players[id].index == r.state.players[id].index
              && r'.state.players[id].nickname == r.state.players[id].nickname
              && r'.state.players[id].score == r.state.players[id].score
  {
    hide Restarted, Run;
    var left := Next(r, Step(Leave(id), env), m);
    assert LeftAt(left, id, env.now) && left.log == r.log;
    SeatIsKept(left, steps, m, id, env.now);
  }

  lemma {:induction false} StaysGone(r: RoomState, steps: seq<Step>, m: Math, id: PlayerId)
    requires id !in r.state.players && StaysAway(steps, id)
    ensures id !in Run(r, steps, m).state.players
    decreases |steps|
  {
    hide Next, Restarted;
    if steps != [] {
      NotInRoom(r, steps[0].env.now, id);
      StepHolds(r, steps[0], m, id);
      StaysGone(Next(r, steps[0], m), steps[1..], m, id);
    }
  }

  lemma NotInRoom(r: RoomState, now: int, id: PlayerId)
    requires id !in r.state.players
    ensures id !in Expired(r.state.players, now)
  {
  }

  /** A tick after the grace period takes the seat away. */
  lemma LateTickRemoves(r: RoomState, env: Env, m: Math, id: PlayerId, time: int)
    requires LeftAt(r, id, time) && env.now > time + 30000
    ensures id !in HandleTick(r, env, m).state.players
  {
    hide TickWorld, RemovePlayers, Expired, EndGame;
    NotExpired(r, id, time, env.now);
    var ids := Expired(r.state.players, env.now);
    RemovedAreGone(r, ids, id);
    var swept := RemovePlayers(r, ids);
    var moved := swept.(state := swept.state.(world := TickWorld(swept.state.world, env.tick, m).0));
    EndGameKeepsPlayers(Lose(moved, env.lostFirst));
  }

  lemma RemovedAreGone(r: RoomState, ids: set<PlayerId>, id: PlayerId)
    requires id in ids
    ensures id !in RemovePlayers(r, ids).state.players
  {
    hide NamesOf, Only;
  }

  /**
   And no longer: once a tick has come later than T + 30000 the player is gone, and stays gone
   until the player joins again.
   */
  lemma LeaverIsRemoved(r: RoomState, env: Env, before: seq<Step>, tick: Step, after: seq<Step>, m: Math, id: PlayerId)
    requires id in r.state.players && r.state.players[id].confirmed
    requires StaysAway(before, id) && NoLaterThan(before, env.now + 30000) && StaysAway(after, id)
    requires tick.action.Tick? && tick.env.now > env.now + 30000
    ensures var left := Next(r, Step(Leave(id), env), m);
            var r' := Next(Run(left, before, m), tick, m);
            Restarted(r'.log) == Restarted(r.log) ==> id !in r'.state.players && id !in Run(r', after, m).state.players
  {
    hide Restarted, Run;
    var left := Next(r, Step(Leave(id), env), m);
    assert LeftAt(left, id, env.now) && left.log == r.log;
    hide Next;
    SeatIsKept(left, before, m, id, env.now);
    var late := Run(left, before, m);
    var r' := Next(late, tick, m);
    StepRestarts(late, tick, m);
    if Restarted(r'.log) == Restarted(r.log) {
      LateTickIsNext(late, tick, m, id, env.now);
      StaysGone(r', after, m, id);
    }
  }

  lemma LateTickIsNext(r: RoomState, tick: Step, m: Math, id: PlayerId, time: int)
    requires tick.action.Tick? && LeftAt(r, id, time) && tick.env.now > time + 30000
    ensures id !in Next(r, tick, m).state.players
  {
    hide HandleTick;
    LateTickRemoves(r, tick.env, m, id, time);
  }

  // ---------------------------------------------------------------- coming back

  /** Back with the same seat, name and score, connected again. */
  predicate Restored(p: Player, q: Player) {
    && q.index == p.index && q.nickname == p.nickname && q.score == p.score && q.taps == p.taps
    && q.confirmed == p.confirmed && !q.disconnected && q.disconnectedAt.None?
  }

  lemma ReadyKeeps(r: RoomState, env: Env, id: PlayerId)
    requires id in r.state.players
    ensures var r' := AutoRestartIfEnded(r, env);
            Restarted(r'.log) == Restarted(r.log) ==>
              id in r'.state.players && SameSeat(r.state.players[id], r'.state.players[id])
  {
    hide Restarted, AutoRestartIfEnded;
    AutoRestartIfEndedHolds(r, env, id);
  }

  lemma ReturnRestores(r: RoomState, env: Env, m: Math, id: PlayerId)
    requires Away(r, id)
    ensures var r' := Next(r, Step(Join(id), env), m);
            Restarted(r'.log) == Restarted(r.log) ==>
              id in r'.state.players && Restored(r.state.players[id], r'.state.players[id])
  {
    hide Restarted, AutoRestartIfEnded, AllReady;
    var linked := r.(connections := r.connections + {id} - env.lostEarly);
    var p := r.state.players[id].(disconnected := false, disconnectedAt := None);
    var back := SetPlayer(linked, id, p).(
      nicknameTimers := if p.confirmed then r.nicknameTimers else r.nicknameTimers + {id});
    ReadyKeeps(back, env, id);
  }

  /** Whoever comes back within the grace period finds seat, name and score as they were. */
  lemma LeaverReturns(r: RoomState, env: Env, steps: seq<Step>, back: Env, m: Math, id: PlayerId)
    requires id in r.state.players && r.state.players[id].confirmed
    requires StaysAway(steps, id) && NoLaterThan(steps, env.now + 30000)
    ensures var left := Next(r, Step(Leave(id), env), m);
            var r' := Next(Run(left, steps, m), Step(Join(id), back), m);
            Restarted(r'.log) == Restarted(r.log) ==>
              id in r'.state.players && Restored(r.state.players[id], r'.state.players[id])
  {
    hide Restarted, Run;
    var left := Next(r, Step(Leave(id), env), m);
    assert LeftAt(left, id, env.now) && left.log == r.log;
    hide Next;
    SeatIsKept(left, steps, m, id, env.now);
    var away := Run(left, steps, m);
    JoinRestarts(away, back, m, id);
    if Restarted(away.log) == Restarted(r.log) {
      ReturnRestores(away, back, m, id);
    }
  }

  lemma JoinRestarts(r: RoomState, env: Env, m: Math, id: PlayerId)
    ensures Restarted(Next(r, Step(Join(id), env), m).log) >= Restarted(r.log)
  {
    StepRestarts(r, Step(Join(id), env), m);
  }
}
