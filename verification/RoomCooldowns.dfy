/**
 Two waiting times over whole runs: the cooldown after an accepted tap, and the thirty seconds
 after a change of nickname. Both end early only when a restart clears the player's record.
 */
module RoomCooldowns {
  import opened Prelude
  import opened Physics
  import opened RoomModel
  import GoStrings
  import opened RoomRate
  import opened PhysicsLaws
  import Nicknames
  import NameGenerator

  /** Taps of `id` that a room has accepted. */
  ghost function Taps(log: seq<Effect>, id: PlayerId): (n: nat) {
    if log == [] then 0 else Taps(log[..|log| - 1], id) + (if IsTapOf(log[|log| - 1], id) then 1 else 0)
  }

  ghost predicate IsTapOf(e: Effect, id: PlayerId) {
    e.TapAccepted? && e.player == id
  }

  lemma TapsAppend(log: seq<Effect>, e: Effect, id: PlayerId)
    ensures Taps(log + [e], id) == Taps(log, id) + (if IsTapOf(e, id) then 1 else 0)
  {
    assert (log + [e])[..|log|] == log;
  }

  ghost predicate Remains(r: RoomState, r': RoomState, id: PlayerId) {
    id in r.state.players && id in r'.state.players && !Restarts(r, r')
  }

  /** No tap of `id` is accepted, and the tap cooldown stands. */
  ghost predicate Tapless(r: RoomState, r': RoomState, id: PlayerId) {
    && Taps(r'.log, id) == Taps(r.log, id)
    && (Remains(r, r', id) ==> r'.state.players[id].cooldownEnd == r.state.players[id].cooldownEnd)
  }

  ghost predicate SameName(p: Player, q: Player) {
    q.nickname == p.nickname && q.lastNicknameChange == p.lastNicknameChange
  }

  /** `id` keeps the nickname and the time of its last change. */
  ghost predicate Nameless(r: RoomState, r': RoomState, id: PlayerId) {
    Remains(r, r', id) ==> SameName(r.state.players[id], r'.state.players[id])
  }

  ghost predicate Calm(r: RoomState, r': RoomState, id: PlayerId) {
    Tapless(r, r', id) && Nameless(r, r', id)
  }

  predicate Hot(p: Player, now: int) {
    now < p.cooldownEnd
  }

  predicate Renamed(p: Player, now: int) {
    p.lastNicknameChange != 0 && now - p.lastNicknameChange < NICKNAME_COOLDOWN_MS
  }

  // ---------------------------------------------------------------- sections

  lemma RestartCalm(r: RoomState, env: Env, id: PlayerId)
    ensures Calm(r, RestartAndStart(r, env), id)
  {
    hide Taps, Stays, ClearAllStats, NamesOf, InitialWorld;
    if r.state.phase == Ended {
      var kept := Stays(r.state.players, r.connections);
      var gone := r.state.players - kept.Keys;
      TapsAppend(r.log, PlayersLeft(gone), id);
      var swept := EmitLeft(r, gone).log;
      TapsAppend(swept, BalloonReset(map[], true), id);
      TapsAppend(swept, BalloonReset(ClearAllStats(kept, env.now), true), id);
    }
  }

  lemma AutoRestartCalm(r: RoomState, env: Env, id: PlayerId)
    ensures Calm(r, AutoRestart(r, env), id)
  {
    hide Taps, RestartAndStart, Connected, YesVotes;
    var pruned := r.(state := r.state.(votes := r.state.votes * Connected(r.state.players)));
    RestartCalm(Lose(pruned, env.lostLater), env, id);
  }

  lemma AutoRestartIfEndedCalm(r: RoomState, env: Env, id: PlayerId)
    ensures Calm(r, AutoRestartIfEnded(r, env), id)
  {
    hide Taps, AutoRestart, AllReady;
    AutoRestartCalm(Lose(r, env.lostFirst), env, id);
  }

  lemma ReconnectCalm(r: RoomState, who: PlayerId, env: Env, id: PlayerId)
    requires who in r.state.players
    ensures Calm(r, Reconnect(r, who, env), id)
  {
    hide Taps, AutoRestartIfEnded, AllReady;
    var p := r.state.players[who].(disconnected := false, disconnectedAt := None);
    var back := SetPlayer(r, who, p).(
      nicknameTimers := if p.confirmed then r.nicknameTimers else r.nicknameTimers + {who});
    AutoRestartIfEndedCalm(back, env, id);
    BackIsCalm(r, back, id);
  }

  /** Coming back changes neither cooldown nor name; resuming the tick or the alarm changes nothing of the player. */
  lemma BackIsCalm(r: RoomState, back: RoomState, id: PlayerId)
    requires back.log == r.log && back.state.phase == r.state.phase && back.state.players.Keys == r.state.players.Keys
    requires id in r.state.players ==> back.state.players[id].cooldownEnd == r.state.players[id].cooldownEnd &&
                                       SameName(r.state.players[id], back.state.players[id])
    ensures forall r' :: Calm(back, r', id) ==> Calm(r, r', id)
  {
    hide Taps;
  }

  lemma JoinCalm(r: RoomState, who: PlayerId, env: Env, id: PlayerId)
    ensures Calm(r, HandleJoin(r, who, env), id)
  {
    hide Taps, Reconnect, NicknameGate, NewPlayer;
    var linked := r.(connections := r.connections + {who} - env.lostEarly);
    GateSilent(linked, id, 0);
    GateSilent(AddPlayer(linked, who, env), id, 0);
    if who in r.state.players {
      ReconnectCalm(linked, who, env, id);
    }
  }

  lemma RemoveCalm(r: RoomState, ids: set<PlayerId>, id: PlayerId)
    ensures Calm(r, RemovePlayers(r, ids), id) && RemovePlayers(r, ids).state.phase == r.state.phase
    ensures id in RemovePlayers(r, ids).state.players ==> id in r.state.players
  {
    hide Taps, NamesOf;
    TapsAppend(r.log, PlayersLeft(Only(r.state.players, ids)), id);
  }

  lemma EndGameCalm(r: RoomState, id: PlayerId)
    ensures Calm(r, EndGame(r), id)
  {
    hide Taps, Grounded;
    if r.state.session.Some? {
      TapsAppend(r.log, ResultRecorded(r.state.session.value, r.state.world.balloon.score, r.state.players), id);
    }
  }

  lemma TickCalm(r: RoomState, env: Env, m: Math, id: PlayerId)
    ensures Calm(r, HandleTick(r, env, m), id)
  {
    hide Taps, TickWorld, RemovePlayers, Expired, EndGame;
    RemoveCalm(r, Expired(r.state.players, env.now), id);
    var swept := RemovePlayers(r, Expired(r.state.players, env.now));
    var moved := swept.(state := swept.state.(world := TickWorld(swept.state.world, env.tick, m).0));
    EndGameCalm(Lose(moved, env.lostFirst), id);
    EndGameKeepsPlayers(Lose(moved, env.lostFirst));
  }

  lemma TimeoutCalm(r: RoomState, who: PlayerId, id: PlayerId)
    ensures Calm(r, HandleNicknameTimeout(r, who), id)
  {
    hide Taps, RemovePlayers, AllReady;
    RemoveCalm(r.(nicknameTimers := r.nicknameTimers - {who}), {who}, id);
  }

  lemma TimersCalm(r: RoomState, version: nat, env: Env, id: PlayerId)
    ensures Calm(r, HandleStartDelay(r, env), id)
    ensures Calm(r, AlarmAct(r, version, env), id)
  {
    hide Taps, AllReady, InitialWorld, AutoRestart;
    TapsAppend(r.log, BalloonReset(r.state.players, false), id);
    if r.state.session.Some? {
      TapsAppend(r.log, PlayStarted(r.state.session.value, r.hasStore), id);
    }
    AutoRestartCalm(r.(alarm := r.alarm.(checked := r.alarm.checked - {version})), env, id);
  }

  /** Confirming passes on whatever the new record keeps of the old one. */
  lemma ConfirmCalm(r: RoomState, who: PlayerId, p: Player, env: Env, id: PlayerId)
    requires who in r.state.players && p.cooldownEnd == r.state.players[who].cooldownEnd
    ensures Tapless(r, Confirm(r, who, p, env), id)
    ensures who != id || SameName(r.state.players[who], p) ==> Nameless(r, Confirm(r, who, p, env), id)
  {
    hide Taps, AutoRestartIfEnded, AllReady;
    AutoRestartIfEndedCalm(
      TryStart(SetPlayer(r, who, p.(confirmed := true)).(nicknameTimers := r.nicknameTimers - {who})), env, id);
  }

  lemma SetNicknameCalm(r: RoomState, who: PlayerId, text: Option<GoStrings.Name>, env: Env, id: PlayerId)
    requires who in r.state.players
    ensures Tapless(r, HandleSetNickname(r, who, text, env), id)
    ensures who != id || Renamed(r.state.players[who], env.now) ==>
            Nameless(r, HandleSetNickname(r, who, text, env), id)
  {
    hide Taps, Confirm, Nicknames.Sanitize, Nicknames.NewNickname, NameGenerator.Generate;
    var p := r.state.players[who];
    ConfirmCalm(r, who, p, env, id);
    var sanitized := if text.Some? then Nicknames.Sanitize(text.value) else [];
    if ChosenName(p, sanitized, r.usedNames, env).Some? {
      var n := ChosenName(p, sanitized, r.usedNames, env).value;
      ConfirmCalm(r.(usedNames := r.usedNames - {p.nickname} + {n}), who,
                  p.(nickname := n, lastNicknameChange := env.now), env, id);
    }
  }

  lemma TapCalm(r: RoomState, who: PlayerId, point: Option<(real, real)>, env: Env, m: Math, id: PlayerId)
    requires who in r.state.players
    ensures Nameless(r, HandleTap(r, who, point, env, m), id)
    ensures who != id || Hot(r.state.players[who], env.now) ==> Tapless(r, HandleTap(r, who, point, env, m), id)
  {
    hide Taps, TapWorld, InUnitSquare;
    TapsAppend(r.log, TapAccepted(who, r.state.players[who].score >= MAX_SCORE), id);
  }

  /** What a message of `who` may do to `id`: only a due tap and a due change of name get through. */
  lemma DispatchCalm(r: RoomState, who: PlayerId, message: Message, env: Env, m: Math, id: PlayerId)
    requires who in r.state.players
    ensures who != id || Hot(r.state.players[who], env.now) || !message.Tap? ==>
              Tapless(r, Dispatch(r, who, message, env, m), id)
    ensures who != id || Renamed(r.state.players[who], env.now) || !message.SetNickname? ==>
              Nameless(r, Dispatch(r, who, message, env, m), id)
  {
    hide Tapless, Nameless, HandleTap, HandleSetNickname, HandleRestartVote, Hot, Renamed;
    match message {
      case Tap(point) => TapCalm(r, who, point, env, m, id);
      case SetNickname(payload) => SetNicknameCalm(r, who, Typed(payload), env, id);
      case RestartVote => VoteCalm(r, who, env, id);
      case _ => NothingCalm(r, id);
    }
  }

  lemma NothingCalm(r: RoomState, id: PlayerId)
    ensures Calm(r, r, id)
  {
  }

  lemma VoteCalm(r: RoomState, who: PlayerId, env: Env, id: PlayerId)
    ensures Calm(r, HandleRestartVote(r, who, env), id)
  {
    hide Taps, RestartAndStart, Connected, YesVotes;
    RestartCalm(r.(state := r.state.(votes := r.state.votes + {who})), env, id);
  }

  lemma MessageCalm(r: RoomState, who: PlayerId, message: Message, env: Env, m: Math, id: PlayerId)
    requires who in r.state.players
    ensures who != id || Hot(r.state.players[who], env.now) || !message.Tap? ==>
              Tapless(r, HandleMessage(r, who, message, env, m), id)
    ensures who != id || Renamed(r.state.players[who], env.now) || !message.SetNickname? ==>
              Nameless(r, HandleMessage(r, who, message, env, m), id)
  {
    hide Taps, Dispatch;
    var p := CountMessage(r.state.players[who], env.now);
    TapsAppend(r.log, Dispatched(who, env.now), id);
    DispatchCalm(Emit(SetPlayer(r, who, p), Dispatched(who, env.now)), who, message, env, m, id);
  }

  lemma OthersCalm(r: RoomState, step: Step, m: Math, id: PlayerId)
    requires !step.action.Join? && !step.action.Say? && !step.action.Tick? && !step.action.NicknameTimeout?
    requires !step.action.StartDelayOver? && !step.action.AlarmActs?
    ensures Calm(r, Next(r, step, m), id)
  {
    hide Taps, HandleJoin, HandleMessage, HandleTick, HandleNicknameTimeout, HandleStartDelay, AlarmAct,
         DropSlowClients, HandleDisconnect;
    match step.action {
      case Leave(who) => LeaveCalm(r, who, {}, step.env, id);
      case DropSlow(flagged) => LeaveCalm(r, id, flagged, step.env, id);
      case _ =>
    }
  }

  lemma LeaveCalm(r: RoomState, who: PlayerId, flagged: set<PlayerId>, env: Env, id: PlayerId)
    ensures Calm(r, HandleDisconnect(r, who, env), id) && Calm(r, DropSlowClients(r, flagged, env.now), id)
  {
    hide Taps;
  }

  lemma StepCalm(r: RoomState, step: Step, m: Math, id: PlayerId)
    requires id in r.state.players
    ensures Hot(r.state.players[id], step.env.now) ==> Tapless(r, Next(r, step, m), id)
    ensures Renamed(r.state.players[id], step.env.now) ==> Nameless(r, Next(r, step, m), id)
  {
    hide Tapless, Nameless, HandleJoin, HandleMessage, HandleTick, HandleNicknameTimeout, HandleStartDelay, AlarmAct,
         HandleDisconnect, DropSlowClients, AlarmExpires, AlarmCheck, Begun, Finished, Hot, Renamed;
    match step.action {
      case Join(who) => JoinCalm(r, who, step.env, id);
      case Say(who, message) =>
        if who in r.state.players {
          MessageCalm(r, who, message, step.env, m, id);
        } else {
          Unheard(r, who, message, step.env, m);
          NothingCalm(r, id);
        }
      case Tick => TickCalm(r, step.env, m, id);
      case NicknameTimeout(who) => TimeoutCalm(r, who, id);
      case StartDelayOver => TimersCalm(r, 0, step.env, id);
      case AlarmActs(v) => TimersCalm(r, v, step.env, id);
      case _ => OthersCalm(r, step, m, id);
    }
  }

  // ---------------------------------------------------------------- every run

  ghost predicate AllBefore(steps: seq<Step>, end: int) {
    forall i :: 0 <= i < |steps| ==> steps[i].env.now < end
  }

  /** Until its cooldown ends no tap of a player is accepted, whatever else happens. */
  lemma {:induction false} NoTapDuringCooldown(r: RoomState, steps: seq<Step>, m: Math, id: PlayerId)
    requires KeepsRecord(r, steps, m, id) && AllBefore(steps, r.state.players[id].cooldownEnd)
    ensures Taps(Run(r, steps, m).log, id) == Taps(r.log, id)
    decreases |steps|
  {
    hide Taps, Next;
    if steps != [] {
      StepCalm(r, steps[0], m, id);
      NoTapDuringCooldown(Next(r, steps[0], m), steps[1..], m, id);
    }
  }

  /** For thirty seconds after a change a player's nickname does not change again. */
  lemma {:induction false} NoRenameDuringCooldown(r: RoomState, steps: seq<Step>, m: Math, id: PlayerId)
    requires KeepsRecord(r, steps, m, id) && r.state.players[id].lastNicknameChange != 0
    requires AllBefore(steps, r.state.players[id].lastNicknameChange + 30000)
    ensures var r' := Run(r, steps, m);
            id in r'.state.players && r'.state.players[id].nickname == r.state.players[id].nickname
    decreases |steps|
  {
    hide Taps, Next;
    if steps != [] {
      StepCalm(r, steps[0], m, id);
      NoRenameDuringCooldown(Next(r, steps[0], m), steps[1..], m, id);
    }
  }

  /** A tap that adds to the score starts a cooldown of the configured length; a tap at the cap starts none. */
  lemma TapStartsCooldown(r: RoomState, id: PlayerId, point: Option<(real, real)>, env: Env, m: Math)
    requires id in r.state.players && HandleTap(r, id, point, env, m) != r
    ensures var p, q := r.state.players[id], HandleTap(r, id, point, env, m).state.players[id];
            && !Hot(p, env.now) && r.state.phase == Playing
            && (p.score < 9999 ==> q.cooldownEnd == env.now + env.cooldown && q.score == p.score + 1)
            && (p.score >= 9999 ==> q == p)
  {
    hide TapWorld, InUnitSquare;
  }

  /**
   A tap counts exactly when the game is on, the player's cooldown is over, and the finger is on the
   screen and within reach of the balloon; then the balloon's score grows by one.
   */
  lemma TapCountsIff(r: RoomState, id: PlayerId, point: Option<(real, real)>, env: Env, m: Math)
    requires id in r.state.players && Lawful(m)
    ensures var r' := HandleTap(r, id, point, env, m);
            && (r' != r <==>
                  && r.state.phase == Playing && env.now >= r.state.players[id].cooldownEnd
                  && point.Some? && 0.0 <= point.value.0 <= 1.0 && 0.0 <= point.value.1 <= 1.0
                  && InReach(r.state.world.balloon, point.value.0, point.value.1))
            && (r' != r ==> r'.state.world.balloon.score == r.state.world.balloon.score + 1)
  {
    hide TapBalloon, ScareGhost, InReach, RecordTap, Lawful;
    if InUnitSquare(point) {
      var w, x, y := r.state.world, point.value.0, point.value.1;
      TapPushes(w.balloon, x, y, m);
      TapScore(w, x, y, m);
    }
  }

  lemma TapScore(w: World, x: real, y: real, m: Math)
    ensures TapWorld(w, x, y, m).Some? ==> TapWorld(w, x, y, m).value.balloon.score == w.balloon.score
  {
    hide PushOf;
  }

  /** At the cap the same instant takes a second tap: nothing has changed for the player. */
  lemma NoCooldownAtTheCap(r: RoomState, id: PlayerId, point: Option<(real, real)>, env: Env, m: Math)
    requires id in r.state.players && r.state.players[id].score >= MAX_SCORE && HandleTap(r, id, point, env, m) != r
    ensures var once := HandleTap(r, id, point, env, m);
            && id in once.state.players && once.state.players[id] == r.state.players[id]
            && Taps(HandleTap(once, id, point, env, m).log, id) == Taps(r.log, id) + 2
  {
    hide Taps, TapWorld;
    var once := HandleTap(r, id, point, env, m);
    TapsAppend(r.log, TapAccepted(id, true), id);
    TapsAppend(once.log, TapAccepted(id, true), id);
    TapAgain(r.state.world, point.value.0, point.value.1, m);
  }

  /** Where one tap reaches the balloon, so does the next: a tap moves nothing by itself. */
  lemma TapAgain(w: World, x: real, y: real, m: Math)
    requires TapWorld(w, x, y, m).Some?
    ensures var w' := TapWorld(w, x, y, m).value;
            TapWorld(w'.(balloon := w'.balloon.(score := w'.balloon.score + 1)), x, y, m).Some?
  {
    hide PushOf;
  }

  /**
   Tap spacing: after a tap that scored, every run of a record that is not cleared, as long as the
   clock has not reached the end of the cooldown, accepts no further tap of that player.
   */
  lemma TapSpacing(r: RoomState, id: PlayerId, point: Option<(real, real)>, env: Env, m: Math, steps: seq<Step>)
    requires id in r.state.players && r.state.players[id].score < MAX_SCORE && HandleTap(r, id, point, env, m) != r
    requires KeepsRecord(HandleTap(r, id, point, env, m), steps, m, id) && AllBefore(steps, env.now + env.cooldown)
    ensures var tapped := HandleTap(r, id, point, env, m);
            Taps(Run(tapped, steps, m).log, id) == Taps(tapped.log, id) == Taps(r.log, id) + 1
  {
    hide Run, KeepsRecord, Taps, TapWorld, InUnitSquare;
    var tapped := HandleTap(r, id, point, env, m);
    TapStartsCooldown(r, id, point, env, m);
    TapsAppend(r.log, TapAccepted(id, false), id);
    HeldRecord(tapped, steps, m, id);
    NoTapDuringCooldown(tapped, steps, m, id);
  }

  lemma HeldRecord(r: RoomState, steps: seq<Step>, m: Math, id: PlayerId)
    requires KeepsRecord(r, steps, m, id)
    ensures id in r.state.players
  {
  }
}
