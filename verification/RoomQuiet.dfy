/**
 Rooms without a working alarm: rooms restored in countdown or after the end of a game, and closed
 rooms. Exactly what wakes the first, and exactly when timers can still move the second.
 */
module RoomQuiet {
  import opened Prelude
  import opened Physics
  import opened RoomModel
  import opened RoomFlow
  import opened RoomEdges
  import opened RoomGames
  import GoStrings
  import Nicknames
  import RoomRate

  // ---------------------------------------------------------------- restored rooms

  const UNSET := Alarm(0, None, {}, map[])

  /** The phase needs an alarm, and none was ever set. */
  predicate Dormant(r: RoomState) {
    r.alarm == UNSET && (r.state.phase == Counting || r.state.phase == Ended)
  }

  /**
   What wakes a dormant room. In countdown: a return while no tick runs, or a join that sends the
   room back to waiting. After the end: a return or an accepted nickname that leaves everybody
   connected ready, a unanimous vote, or a first vote. Nothing else does.
   */
  predicate Wakes(r: RoomState, step: Step) {
    var env := step.env;
    match step.action
    case Join(id) =>
      if r.state.phase == Counting then (Returns(r, id) && !r.ticking) || Gates(r, id, env)
      else Returns(r, id) && AllReady(Back(r, id, env))
    case Say(id, message) =>
      && r.state.phase == Ended && Heard(r, id, env.now)
      && (match message
          case RestartVote => Unanimous(Hearing(r, id, env.now), id) || r.state.restartTimerStart.None?
          case SetNickname(payload) => NamesAllReady(Hearing(r, id, env.now), id, Typed(payload), env)
          case _ => false)
    case _ => false
  }

  predicate Unanimous(r: RoomState, id: PlayerId) {
    Connected(r.state.players) != {} && Connected(r.state.players) <= r.state.votes + {id}
  }

  predicate NamesAllReady(r: RoomState, id: PlayerId, text: Option<GoStrings.Name>, env: Env)
    requires id in r.state.players
  {
    Named(r, id, text, env).Some? && AllReady(Named(r, id, text, env).value)
  }

  /** After a step: still dormant, or with nothing stuck. */
  ghost predicate Roused(r': RoomState, woken: bool) {
    if woken then NotStuck(r'.state.phase, r'.alarm) else Dormant(r')
  }

  lemma ReadyRouses(r: RoomState, env: Env)
    requires Dormant(r)
    ensures Roused(AutoRestartIfEnded(r, env), r.state.phase == Ended && AllReady(r))
  {
    hide AutoRestart, AllReady;
    if r.state.phase == Ended && AllReady(r) {
      EndedActs(Lose(r, env.lostFirst), env);
    }
  }

  lemma ReturnRouses(r: RoomState, id: PlayerId, env: Env)
    requires Dormant(r) && Returns(r, id)
    ensures Roused(HandleJoin(r, id, env),
                   if r.state.phase == Counting then !r.ticking else AllReady(Back(r, id, env)))
  {
    hide AutoRestartIfEnded, AllReady;
    ReadyRouses(Back(r, id, env), env);
  }

  lemma GateRouses(r: RoomState)
    requires Dormant(r)
    ensures Roused(ResumeTick(NicknameGate(r)), r.state.phase == Counting && !AllReady(r))
  {
    hide AllReady;
  }

  lemma JoinRouses(r: RoomState, id: PlayerId, env: Env)
    requires Dormant(r)
    ensures Roused(HandleJoin(r, id, env), Wakes(r, Step(Join(id), env)))
  {
    hide Reconnect, NicknameGate, ResumeTick, AllReady, NewPlayer, Roused;
    if Returns(r, id) {
      ReturnRouses(r, id, env);
    } else if TurnedAway(r, id) {
      AsleepRouses(r.(connections := r.connections - {id}));
    } else {
      GateRouses(SeatTaken(r, id, env));
    }
  }

  lemma AsleepRouses(r: RoomState)
    requires Dormant(r)
    ensures Roused(r, false)
  {
  }

  lemma NicknameRouses(r: RoomState, id: PlayerId, text: Option<GoStrings.Name>, env: Env)
    requires Dormant(r) && id in r.state.players
    ensures Roused(HandleSetNickname(r, id, text, env), r.state.phase == Ended && NamesAllReady(r, id, text, env))
  {
    hide AutoRestartIfEnded, AllReady, ChosenName, Nicknames.Sanitize, Roused;
    var named := Named(r, id, text, env);
    if named.Some? {
      ReadyRouses(named.value, env);
    } else {
      AsleepRouses(r);
    }
  }

  lemma VoteRouses(r: RoomState, id: PlayerId, env: Env)
    requires Dormant(r)
    ensures Roused(HandleRestartVote(r, id, env),
                   r.state.phase == Ended && (Unanimous(r, id) || r.state.restartTimerStart.None?))
  {
    hide RestartAndStart, Connected;
    AllCounted(Connected(r.state.players), r.state.votes + {id});
    RestartShape(r.(state := r.state.(votes := r.state.votes + {id})), env);
  }

  lemma SayRouses(r: RoomState, id: PlayerId, message: Message, env: Env, m: Math)
    requires Dormant(r)
    ensures Roused(HandleMessage(r, id, message, env, m), Wakes(r, Step(Say(id, message), env)))
  {
    hide HandleSetNickname, HandleRestartVote, CountMessage, NamesAllReady, Unanimous, TapWorld, RecordTap,
         InUnitSquare, Typed,
         MarkDisconnected;
    if Heard(r, id, env.now) {
      var heard := Hearing(r, id, env.now);
      match message {
        case RestartVote => VoteRouses(heard, id, env);
        case SetNickname(payload) => NicknameRouses(heard, id, Typed(payload), env);
        case _ =>
      }
    }
  }

  lemma OtherRouses(r: RoomState, step: Step, m: Math)
    requires Dormant(r) && !step.action.Join? && !step.action.Say? && !step.action.Tick?
    ensures Dormant(Next(r, step, m))
  {
    hide HandleJoin, HandleTick, HandleMessage, RemovePlayers, AllReady, InitialWorld, MarkSome;
    if step.action.NicknameTimeout? {
      SweepFrame(r.(nicknameTimers := r.nicknameTimers - {step.action.player}), {step.action.player});
    }
  }

  lemma TickRouses(r: RoomState, env: Env, m: Math)
    requires Dormant(r)
    ensures Dormant(HandleTick(r, env, m))
  {
    hide TickWorld, Expired, RemovePlayers, EndGame;
    SweepFrame(r, Expired(r.state.players, env.now));
  }

  /** Every step of a dormant room: it rouses the room exactly if it is one of those that wake it. */
  lemma StepRouses(r: RoomState, step: Step, m: Math)
    requires Dormant(r)
    ensures Dormant(Next(r, step, m)) <==> !Wakes(r, step)
    ensures Wakes(r, step) ==> NotStuck(Next(r, step, m).state.phase, Next(r, step, m).alarm)
  {
    hide HandleJoin, HandleTick, HandleMessage, AlarmAct, Returns, Gates, Heard, Unanimous, NamesAllReady, AllReady;
    match step.action {
      case Join(id) => JoinRouses(r, id, step.env);
      case Say(id, message) => SayRouses(r, id, message, step.env, m);
      case Tick => TickRouses(r, step.env, m);
      case _ => OtherRouses(r, step, m);
    }
  }

  /** No step of the run is one that wakes. */
  predicate NeverWoken(r: RoomState, steps: seq<Step>, m: Math)
    decreases |steps|
  {
    steps != [] ==> !Wakes(r, steps[0]) && NeverWoken(Next(r, steps[0], m), steps[1..], m)
  }

  lemma {:induction false} RunRouses(r: RoomState, steps: seq<Step>, m: Math)
    requires Dormant(r)
    ensures NeverWoken(r, steps, m) ==> Dormant(Run(r, steps, m))
    ensures !NeverWoken(r, steps, m) && !Run(r, steps, m).closed ==>
              NotStuck(Run(r, steps, m).state.phase, Run(r, steps, m).alarm)
    decreases |steps|
  {
    hide Next, Wakes, NotStuck, Dormant;
    if steps != [] {
      var r1 := Next(r, steps[0], m);
      StepRouses(r, steps[0], m);
      if Wakes(r, steps[0]) {
        RunUnstuck(r1, steps[1..], m);
      } else {
        RunRouses(r1, steps[1..], m);
      }
    }
  }

  lemma DormantIsStuck(r: RoomState)
    requires Dormant(r)
    ensures !NotStuck(r.state.phase, r.alarm)
  {
  }

  /**
   A room restored in countdown or after the end of a game: after any run that has not closed it,
   its phase lacks an alarm if and only if no step of the run was one of those that wake it.
   */
  lemma RestoredStuckIff(saved: GameState, maxPlayers: int, hasStore: bool, now: int, d: WorldDraws,
                         steps: seq<Step>, m: Math)
    requires saved.phase == Counting || saved.phase == Ended
    ensures var r := Materialize(saved, maxPlayers, hasStore, now, d);
            var r' := Run(r, steps, m);
            r'.closed || (!NotStuck(r'.state.phase, r'.alarm) <==> NeverWoken(r, steps, m))
  {
    hide NotStuck, Run, NeverWoken;
    var r := Materialize(saved, maxPlayers, hasStore, now, d);
    RunRouses(r, steps, m);
    if NeverWoken(r, steps, m) {
      DormantIsStuck(Run(r, steps, m));
    }
  }

  /** Restored while waiting or playing, a room needs no alarm, and gets one whenever it comes to need it. */
  lemma RestoredUnstuck(saved: GameState, maxPlayers: int, hasStore: bool, now: int, d: WorldDraws,
                        steps: seq<Step>, m: Math)
    requires saved.phase == Waiting || saved.phase == Playing
    ensures var r' := Run(Materialize(saved, maxPlayers, hasStore, now, d), steps, m);
            r'.closed || NotStuck(r'.state.phase, r'.alarm)
  {
    RunUnstuck(Materialize(saved, maxPlayers, hasStore, now, d), steps, m);
  }

  // ---------------------------------------------------------------- closed rooms

  predicate IsTimer(a: Action) {
    a.NicknameTimeout? || a.StartDelayOver? || a.AlarmFires? || a.AlarmChecks? || a.AlarmActs?
  }

  /** Timers and their callbacks run, and nothing takes connections away meanwhile. */
  predicate TimersOnly(steps: seq<Step>) {
    forall i :: 0 <= i < |steps| ==> IsTimer(steps[i].action) && steps[i].env.lostLater == {}
  }

  /** A callback past its check finds something to do: a countdown to end, or a game to restart or abandon. */
  predicate CanMove(r: RoomState, v: nat) {
    && v in r.alarm.checked
    && (if r.alarm.checked[v] == Counting then r.state.phase == Counting
        else r.state.phase != Waiting && (r.connections == {} || (r.state.phase == Ended && !Split(r.state))))
  }

  lemma ActMoves(r: RoomState, v: nat, env: Env)
    ensures AlarmAct(r, v, env).state.phase != r.state.phase <==> CanMove(r, v)
  {
    hide AutoRestart, Connected, YesVotes;
    AutoRestartPhase(r.(alarm := r.alarm.(checked := r.alarm.checked - {v})), env);
  }

  /** What a callback leaves alone when it finds nothing to do. */
  ghost predicate SameGame(r: RoomState, r': RoomState) {
    && r'.state.phase == r.state.phase && r'.connections == r.connections && r'.closed == r.closed
    && (Split(r'.state) <==> Split(r.state))
    && r'.alarm.checked.Keys <= r.alarm.checked.Keys
    && forall v :: v in r'.alarm.checked ==> r'.alarm.checked[v] == r.alarm.checked[v]
  }

  lemma IdleAct(r: RoomState, v: nat, env: Env)
    requires !CanMove(r, v) && env.lostLater == {}
    ensures SameGame(r, AlarmAct(r, v, env))
  {
    hide RestartAndStart, Connected, YesVotes;
    PrunedVotes(r);
    var done := r.(alarm := r.alarm.(checked := r.alarm.checked - {v}));
    var pruned := done.(state := r.state.(votes := r.state.votes * Connected(r.state.players)));
    assert Lose(pruned, {}) == pruned by { assert pruned.connections - {} == pruned.connections; }
    RestartShape(pruned, env);
  }

  lemma IdleTimer(r: RoomState, step: Step, m: Math)
    requires r.closed && IsTimer(step.action) && step.env.lostLater == {} && forall v :: !CanMove(r, v)
    ensures SameGame(r, Next(r, step, m))
  {
    hide AlarmAct, CanMove, Split, AutoRestart, HandleJoin, HandleMessage, HandleTick;
    if step.action.AlarmActs? {
      IdleAct(r, step.action.version, step.env);
    }
  }

  lemma StillIdle(r: RoomState, r': RoomState)
    requires SameGame(r, r') && forall v :: !CanMove(r, v)
    ensures forall v :: !CanMove(r', v)
  {
    hide Split;
    forall v
      ensures !CanMove(r', v)
    {
      assert !CanMove(r, v);
    }
  }

  lemma {:induction false} IdleRun(r: RoomState, steps: seq<Step>, m: Math)
    requires r.closed && TimersOnly(steps) && forall v :: !CanMove(r, v)
    ensures Run(r, steps, m).state.phase == r.state.phase
    decreases |steps|
  {
    hide Next, CanMove, Split;
    if steps != [] {
      IdleTimer(r, steps[0], m);
      StillIdle(r, Next(r, steps[0], m));
      assert TimersOnly(steps[1..]);
      IdleRun(Next(r, steps[0], m), steps[1..], m);
    }
  }

  /**
   Timers can still change the phase of a closed room if and only if a callback was past its check
   when the room was closed and finds something to do. Otherwise closing is final.
   */
  lemma ClosedMovesIff(r: RoomState, env: Env, m: Math)
    requires r.closed
    ensures (exists steps :: TimersOnly(steps) && Run(r, steps, m).state.phase != r.state.phase) <==>
            (exists v :: CanMove(r, v))
  {
    hide CanMove, Run, Next;
    if v :| CanMove(r, v) {
      var calm := env.(lostLater := {});
      var steps := [Step(AlarmActs(v), calm)];
      ActMoves(r, v, calm);
      RunOne(r, steps[0], m);
      ActIsNext(r, v, calm, m);
      assert TimersOnly(steps) && Run(r, steps, m).state.phase != r.state.phase;
    } else {
      forall steps | TimersOnly(steps)
        ensures Run(r, steps, m).state.phase == r.state.phase
      {
        IdleRun(r, steps, m);
      }
    }
  }

  lemma ActIsNext(r: RoomState, v: nat, env: Env, m: Math)
    ensures Next(r, Step(AlarmActs(v), env), m) == AlarmAct(r, v, env)
  {
  }

  /** A run of a new room that is closed during its countdown and starts playing nevertheless. */
  lemma GhostStart(maxPlayers: int, hasStore: bool, d: WorldDraws, id: PlayerId, env: Env, m: Math)
    returns (steps: seq<Step>, launch: Step)
    requires id !in env.lostEarly
    ensures var r := Run(NewRoom(maxPlayers, hasStore, d), steps, m);
            && r.closed && r.state.phase == Counting
            && Next(r, launch, m).closed && Next(r, launch, m).state.phase == Playing
  {
    hide NewRoom, Run, Next;
    var before;
    before, launch := LonePlayerPlays(maxPlayers, hasStore, d, id, env, m);
    var close := Step(CloseBegin, env);
    var counting := Run(NewRoom(maxPlayers, hasStore, d), before, m);
    steps := before + [close];
    RoomRate.RunConcat(NewRoom(maxPlayers, hasStore, d), before, [close], m);
    RunOne(counting, close, m);
    ClosingLaunches(counting, launch, env, m);
  }

  lemma ClosingLaunches(r: RoomState, launch: Step, env: Env, m: Math)
    requires r.state.phase == Counting && launch.action.AlarmActs? && launch.action.version in r.alarm.checked
    requires r.alarm.checked[launch.action.version] == Counting
    ensures var closed := Next(r, Step(CloseBegin, env), m);
            && closed.closed && closed.state.phase == Counting
            && Next(closed, launch, m).closed && Next(closed, launch, m).state.phase == Playing
  {
    hide AutoRestart;
  }
}
