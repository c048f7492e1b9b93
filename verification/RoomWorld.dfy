/** How the physical world moves along a run: entity validity, and games that end on their own. */
module RoomWorld {
  import opened Prelude
  import opened Physics
  import opened RoomModel
  import GoStrings

  // ---------------------------------------------------------------- the ways a world can change

  predicate IsTap(a: Action) {
    a.Say? && a.message.Tap?
  }

  ghost predicate Still(r: RoomState, r': RoomState) {
    r'.state.world == r.state.world && (r'.state.phase == r.state.phase || r'.state.phase == Waiting)
  }

  ghost predicate Renewed(r': RoomState, env: Env) {
    r'.state.world == InitialWorld(env.world) && (r'.state.phase == Counting || r'.state.phase == Waiting)
  }

  ghost predicate Launched(r: RoomState, r': RoomState) {
    && r.state.phase == Counting && r'.state.phase == Playing
    && r'.state.world == r.state.world.(tick := r.state.world.tick + 1)
  }

  ghost predicate Flown(r: RoomState, r': RoomState, env: Env, m: Math) {
    && r.state.phase == Playing == r'.state.phase
    && TickWorld(r.state.world, env.tick, m) == (r'.state.world, Flying)
  }

  ghost predicate Crashed(r: RoomState, r': RoomState, env: Env, m: Math) {
    && r.state.phase == Playing && (r'.state.phase == Ended || r'.state.phase == Waiting)
    && TickWorld(r.state.world, env.tick, m).1 != Flying
    && r'.state.world == Grounded(TickWorld(r.state.world, env.tick, m).0)
  }

  ghost predicate Tapped(r: RoomState, r': RoomState, m: Math) {
    && r.state.phase == Playing == r'.state.phase
    && exists x, y :: TapWorld(r.state.world, x, y, m).Some? &&
                      var w := TapWorld(r.state.world, x, y, m).value;
                      r'.state.world == w.(balloon := w.balloon.(score := w.balloon.score + 1))
  }

  /** Every step moves the world in one of these six ways, and in no other. */
  ghost predicate Moves(r: RoomState, r': RoomState, step: Step, m: Math) {
    || Still(r, r')
    || Renewed(r', step.env)
    || Launched(r, r')
    || Flown(r, r', step.env, m)
    || Crashed(r, r', step.env, m)
    || (IsTap(step.action) && Tapped(r, r', m))
  }

  // ---------------------------------------------------------------- sections

  ghost predicate StillOrNew(r: RoomState, r': RoomState, env: Env) {
    Still(r, r') || Renewed(r', env)
  }

  lemma RestartMoves(r: RoomState, env: Env)
    ensures StillOrNew(r, RestartAndStart(r, env), env)
  {
    hide InitialWorld, Stays, ClearAllStats, NamesOf;
  }

  lemma AutoRestartMoves(r: RoomState, env: Env)
    ensures StillOrNew(r, AutoRestart(r, env), env)
  {
    hide InitialWorld, RestartAndStart, Connected, YesVotes;
    var pruned := r.(state := r.state.(votes := r.state.votes * Connected(r.state.players)));
    RestartMoves(Lose(pruned, env.lostLater), env);
  }

  lemma AutoRestartIfEndedMoves(r: RoomState, env: Env)
    ensures StillOrNew(r, AutoRestartIfEnded(r, env), env)
  {
    hide InitialWorld, AutoRestart, AllReady;
    AutoRestartMoves(Lose(r, env.lostFirst), env);
  }

  lemma ReconnectMoves(r: RoomState, id: PlayerId, env: Env)
    requires id in r.state.players
    ensures StillOrNew(r, Reconnect(r, id, env), env)
  {
    hide InitialWorld, AutoRestartIfEnded, AllReady;
    var p := r.state.players[id].(disconnected := false, disconnectedAt := None);
    var back := SetPlayer(r, id, p).(
      nicknameTimers := if p.confirmed then r.nicknameTimers else r.nicknameTimers + {id});
    AutoRestartIfEndedMoves(back, env);
  }

  lemma JoinMoves(r: RoomState, id: PlayerId, env: Env)
    ensures StillOrNew(r, HandleJoin(r, id, env), env)
  {
    hide InitialWorld, Reconnect, AllReady, NewPlayer;
    if id in r.state.players {
      ReconnectMoves(r.(connections := r.connections + {id} - env.lostEarly), id, env);
    }
  }

  lemma ConfirmMoves(r: RoomState, id: PlayerId, p: Player, env: Env)
    ensures StillOrNew(r, Confirm(r, id, p, env), env)
  {
    hide InitialWorld, AutoRestartIfEnded, AllReady;
    AutoRestartIfEndedMoves(
      TryStart(SetPlayer(r, id, p.(confirmed := true)).(nicknameTimers := r.nicknameTimers - {id})), env);
  }

  lemma SetNicknameMoves(r: RoomState, id: PlayerId, text: Option<GoStrings.Name>, env: Env)
    requires id in r.state.players
    ensures StillOrNew(r, HandleSetNickname(r, id, text, env), env)
  {
    hide InitialWorld, Confirm, ChosenName, Nicknames.Sanitize;
    var p := r.state.players[id];
    ConfirmMoves(r, id, p, env);
    var sanitized := if text.Some? then Nicknames.Sanitize(text.value) else [];
    if ChosenName(p, sanitized, r.usedNames, env).Some? {
      var n := ChosenName(p, sanitized, r.usedNames, env).value;
      ConfirmMoves(r.(usedNames := r.usedNames - {p.nickname} + {n}), id,
                   p.(nickname := n, lastNicknameChange := env.now), env);
    }
  }

  lemma RestartVoteMoves(r: RoomState, id: PlayerId, env: Env)
    ensures StillOrNew(r, HandleRestartVote(r, id, env), env)
  {
    hide InitialWorld, RestartAndStart, Connected, YesVotes;
    RestartMoves(r.(state := r.state.(votes := r.state.votes + {id})), env);
  }

  lemma TapMoves(r: RoomState, id: PlayerId, point: Option<(real, real)>, env: Env, m: Math)
    requires id in r.state.players
    ensures var r' := HandleTap(r, id, point, env, m); Still(r, r') || Tapped(r, r', m)
  {
    hide TapWorld, RecordTap;
    if r.state.phase == Playing && env.now >= r.state.players[id].cooldownEnd && InUnitSquare(point) &&
       TapWorld(r.state.world, point.value.0, point.value.1, m).Some? {
      assert Tapped(r, HandleTap(r, id, point, env, m), m);
    }
  }

  lemma MessageMoves(r: RoomState, id: PlayerId, message: Message, step: Step, m: Math)
    requires step.action == Say(id, message)
    ensures Moves(r, HandleMessage(r, id, message, step.env, m), step, m)
  {
    hide InitialWorld, TapWorld, TickWorld, HandleTap, HandleSetNickname, HandleRestartVote;
    if id in r.state.players {
      var env := step.env;
      var counted := Emit(SetPlayer(r, id, CountMessage(r.state.players[id], env.now)), Dispatched(id, env.now));
      match message {
        case Tap(point) => TapMoves(counted, id, point, env, m);
        case SetNickname(payload) => SetNicknameMoves(counted, id, Typed(payload), env);
        case RestartVote => RestartVoteMoves(counted, id, env);
        case _ =>
      }
    }
  }

  lemma TickMoves(r: RoomState, env: Env, m: Math)
    ensures var r' := HandleTick(r, env, m);
            Still(r, r') || Flown(r, r', env, m) || Crashed(r, r', env, m)
  {
    hide TickWorld, Expired, RemovePlayers, EndGame;
    var ids := Expired(r.state.players, env.now);
    SweepStill(r, ids);
    var swept := RemovePlayers(r, ids);
    var moved := swept.(state := swept.state.(world := TickWorld(swept.state.world, env.tick, m).0));
    EndGameGrounds(Lose(moved, env.lostFirst));
  }

  lemma SweepStill(r: RoomState, ids: set<PlayerId>)
    ensures RemovePlayers(r, ids).state.world == r.state.world && RemovePlayers(r, ids).state.phase == r.state.phase
  {
    hide NamesOf;
  }

  lemma EndGameGrounds(r: RoomState)
    ensures EndGame(r).state.world == Grounded(r.state.world)
    ensures EndGame(r).state.phase == Ended || EndGame(r).state.phase == Waiting
  {
  }

  lemma RemoveMoves(r: RoomState, id: PlayerId)
    ensures Still(r, HandleNicknameTimeout(r, id))
  {
    hide AllReady, NamesOf;
  }

  lemma StartDelayMoves(r: RoomState, env: Env)
    ensures StillOrNew(r, HandleStartDelay(r, env), env)
  {
    hide AllReady, InitialWorld;
  }

  lemma AlarmActMoves(r: RoomState, version: nat, env: Env)
    ensures var r' := AlarmAct(r, version, env); StillOrNew(r, r', env) || Launched(r, r')
  {
    hide InitialWorld, AutoRestart;
    if version in r.alarm.checked {
      AutoRestartMoves(r.(alarm := r.alarm.(checked := r.alarm.checked - {version})), env);
    }
  }

  lemma StepMoves(r: RoomState, step: Step, m: Math)
    ensures Moves(r, Next(r, step, m), step, m)
  {
    hide Tapped, Flown, Crashed, Renewed, HandleJoin, HandleMessage, HandleTick, HandleNicknameTimeout,
         HandleStartDelay, AlarmAct, MarkSome;
    match step.action {
      case Join(id) => JoinMoves(r, id, step.env);
      case Say(id, message) => MessageMoves(r, id, message, step, m);
      case Tick => TickMoves(r, step.env, m);
      case NicknameTimeout(id) => RemoveMoves(r, id);
      case StartDelayOver => StartDelayMoves(r, step.env);
      case AlarmActs(v) => AlarmActMoves(r, v, step.env);
      case _ =>
    }
  }

  // ---------------------------------------------------------------- entity validity

  lemma MovesKeepWorld(r: RoomState, r': RoomState, step: Step, m: Math)
    requires Lawful(m) && Moves(r, r', step, m) && WorldOk(r.state.world)
    ensures WorldOk(r'.state.world)
  {
    hide TickWorld, TapWorld, InitialWorld, Grounded, WindOk, BirdOk, GhostOk;
    InitialWorldOk(step.env.world);
    TickWorldOk(r.state.world, step.env.tick, m);
    if IsTap(step.action) && Tapped(r, r', m) {
      var x, y :| TapWorld(r.state.world, x, y, m).Some? &&
                  var w := TapWorld(r.state.world, x, y, m).value;
                  r'.state.world == w.(balloon := w.balloon.(score := w.balloon.score + 1));
      TapWorldOk(r.state.world, x, y, m);
    }
  }

  /** Balloon, bird, ghost and wind stay valid along every run that starts with valid ones. */
  lemma {:induction false} RunKeepsWorld(r: RoomState, steps: seq<Step>, m: Math)
    requires Lawful(m) && WorldOk(r.state.world)
    ensures WorldOk(Run(r, steps, m).state.world)
    decreases |steps|
  {
    hide WorldOk, Next, Moves, Lawful;
    if steps != [] {
      StepMoves(r, steps[0], m);
      MovesKeepWorld(r, Next(r, steps[0], m), steps[0], m);
      RunKeepsWorld(Next(r, steps[0], m), steps[1..], m);
    }
  }

  /** In every run of a new room the three Validate checks pass and the wind is far from its clamp. */
  lemma EntitiesAlwaysValid(maxPlayers: int, hasStore: bool, d: WorldDraws, steps: seq<Step>, m: Math)
    requires Lawful(m)
    ensures var w := Run(NewRoom(maxPlayers, hasStore, d), steps, m).state.world;
            && BalloonValid(w.balloon) && BirdValid(w.bird) && GhostValid(w.phantom)
            && 0.02 <= w.phantom.y <= 0.98 && SpeedOk(w.phantom.vx, w.phantom.vy)
            && 0 <= w.phantom.repelTimer <= 30
            && Abs(w.wind.speed) <= 0.503 < WIND_CLAMP
  {
    InitialWorldOk(d);
    var r := NewRoom(maxPlayers, hasStore, d);
    assert r.state.world == InitialWorld(d);
    hide InitialWorld, SpeedOk, Run, Lawful;
    RunKeepsWorld(r, steps, m);
    WorldOkIsValid(Run(r, steps, m).state.world);
  }

  // ---------------------------------------------------------------- games without taps

  /** The run never leaves play. */
  ghost predicate StaysPlaying(r: RoomState, steps: seq<Step>, m: Math)
    decreases |steps|
  {
    r.state.phase == Playing && (steps != [] ==> StaysPlaying(Next(r, steps[0], m), steps[1..], m))
  }

  ghost predicate TapFree(steps: seq<Step>) {
    forall i :: 0 <= i < |steps| ==> !IsTap(steps[i].action)
  }

  lemma PlayingStep(r: RoomState, step: Step, m: Math)
    requires r.state.phase == Playing == Next(r, step, m).state.phase && !IsTap(step.action)
    ensures Next(r, step, m).state.world == r.state.world || Flown(r, Next(r, step, m), step.env, m)
  {
    hide Next, TickWorld;
    StepMoves(r, step, m);
  }

  /** After n surviving ticks a balloon nobody taps is within the free-fall bound of where it was. */
  lemma {:induction false} TaplessFall(b0: Balloon, n: nat, r: RoomState, steps: seq<Step>, m: Math)
    requires StaysPlaying(r, steps, m) && TapFree(steps)
    requires Fallen(b0, r.state.world.balloon, n) && (n > 0 ==> r.state.world.balloon.y > 0.0)
    ensures var w := Run(r, steps, m).state.world;
            && w.tick >= r.state.world.tick
            && var k := n + (w.tick - r.state.world.tick);
               Fallen(b0, w.balloon, k) && (k > 0 ==> w.balloon.y > 0.0)
    decreases |steps|
  {
    hide Next, Fallen, TickWorld, Run;
    if steps != [] {
      var r1 := Next(r, steps[0], m);
      PlayingStep(r, steps[0], m);
      assert TapFree(steps[1..]);
      if r1.state.world == r.state.world {
        TaplessFall(b0, n, r1, steps[1..], m);
      } else {
        TickFallen(b0, r.state.world, n, steps[0].env.tick, m);
        TickCounts(r.state.world, steps[0].env.tick, m);
        TaplessFall(b0, n + 1, r1, steps[1..], m);
      }
    }
    RunUnfolds(r, steps, m);
  }

  lemma RunUnfolds(r: RoomState, steps: seq<Step>, m: Math)
    ensures Run(r, steps, m) == if steps == [] then r else Run(Next(r, steps[0], m), steps[1..], m)
  {
  }

  lemma TickCounts(w: World, d: TickDraws, m: Math)
    ensures TickWorld(w, d, m).0.tick == w.tick + 1
  {
  }

  /** Without taps the sideways speed never exceeds what it was, or 0.01006. */
  lemma {:induction false} TaplessDrift(v: real, r: RoomState, steps: seq<Step>, m: Math)
    requires Lawful(m) && WorldOk(r.state.world) && StaysPlaying(r, steps, m) && TapFree(steps)
    requires Abs(r.state.world.balloon.vx) <= Max(v, DRIFT_BOUND)
    ensures Abs(Run(r, steps, m).state.world.balloon.vx) <= Max(v, DRIFT_BOUND)
    decreases |steps|
  {
    hide Next, TickWorld, Run, Lawful, WorldOk, Moves;
    if steps != [] {
      var r1 := Next(r, steps[0], m);
      PlayingStep(r, steps[0], m);
      assert TapFree(steps[1..]);
      if r1.state.world != r.state.world {
        TickDrift(r.state.world, steps[0].env.tick, m);
      }
      StepMoves(r, steps[0], m);
      MovesKeepWorld(r, r1, steps[0], m);
      TaplessDrift(v, r1, steps[1..], m);
    }
    RunUnfolds(r, steps, m);
  }

  /** During countdown the balloon is the initial one and no tick has been counted. */
  ghost predicate OnThePad(r: RoomState) {
    r.state.phase == Counting ==> r.state.world.balloon == InitialBalloon() && r.state.world.tick == 0
  }

  lemma {:induction false} RunStartsOnThePad(r: RoomState, steps: seq<Step>, m: Math)
    requires OnThePad(r)
    ensures OnThePad(Run(r, steps, m))
    decreases |steps|
  {
    hide Next, TickWorld, TapWorld;
    if steps != [] {
      StepMoves(r, steps[0], m);
      RunStartsOnThePad(Next(r, steps[0], m), steps[1..], m);
    }
  }

  /**
   A game nobody taps in is over by its 62nd tick: take any run of a new room that ends in
   countdown, let one step launch the game, and let any tapless steps follow during which the
   room stays in play; fewer than 62 ticks were survived.
   */
  lemma TaplessGamesEnd(maxPlayers: int, hasStore: bool, d: WorldDraws, before: seq<Step>, launch: Step,
                        after: seq<Step>, m: Math)
    requires var r := Run(NewRoom(maxPlayers, hasStore, d), before, m);
             && r.state.phase == Counting
             && StaysPlaying(Next(r, launch, m), after, m) && TapFree(after)
    ensures var r := Run(NewRoom(maxPlayers, hasStore, d), before, m);
            Run(Next(r, launch, m), after, m).state.world.tick - 1 < 62
  {
    hide Next, Run, TickWorld, TapWorld;
    RunStartsOnThePad(NewRoom(maxPlayers, hasStore, d), before, m);
    var r := Run(NewRoom(maxPlayers, hasStore, d), before, m);
    var r1 := Next(r, launch, m);
    StepMoves(r, launch, m);
    assert Launched(r, r1);
    TaplessFall(InitialBalloon(), 0, r1, after, m);
    var w := Run(r1, after, m).state.world;
    if w.tick > 1 {
      InitialBalloonLands(w.balloon, w.tick - 1);
    }
  }
}
