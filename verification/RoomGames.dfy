/**
 Games that get played: runs of new rooms that reach every phase, and that take each of the edges
 the documented cycle does not have.
 */
module RoomGames {
  import opened Prelude
  import opened Physics
  import opened RoomModel
  import opened RoomInvariants
  import opened RoomFlow
  import opened RoomEdges
  import GoStrings
  import NameGenerator
  import Nicknames
  import RoomRate
  import RoomWorld

  /** One player, connected, named, and hardly heard so far. */
  predicate Lone(r: RoomState, id: PlayerId) {
    && r.state.players.Keys == {id} && r.connections == {id} && !r.closed
    && Ready(r.state.players, id) && r.state.players[id].messageCount <= 1
  }

  // ---------------------------------------------------------------- a first game

  lemma DelayStartsCountdown(r: RoomState, env: Env)
    requires r.state.phase == Waiting && !r.closed && AllReady(r)
    ensures var r' := HandleStartDelay(r, env);
            && r'.state.phase == Counting && !r'.closed && r'.alarm.armed == Some(r'.alarm.version)
            && r'.state.players == r.state.players && r'.connections == r.connections
  {
    hide InitialWorld;
    assert AllReady(r.(startDelay := false));
  }

  /** A waiting room in which everybody connected is ready reaches play by its own timers alone. */
  lemma ReadyRoomPlays(r: RoomState, env: Env, m: Math) returns (steps: seq<Step>)
    requires r.state.phase == Waiting && !r.closed && AllReady(r)
    ensures |steps| <= 4 && Run(r, steps, m).state.phase == Playing
    ensures forall i :: 0 <= i < |steps| ==>
              steps[i].action.StartDelayOver? || steps[i].action.AlarmFires? || steps[i].action.AlarmChecks? ||
              steps[i].action.AlarmActs?
  {
    hide HandleStartDelay, AllReady;
    DelayStartsCountdown(r, env);
    var first := Step(StartDelayOver, env);
    var counting := Next(r, first, m);
    steps := [first] + AlarmSchedule(counting, env);
    CountdownCompletes(counting, env, m);
    assert steps[1..] == AlarmSchedule(counting, env);
  }

  /** The room after its first player joined. */
  lemma FirstJoin(r: RoomState, id: PlayerId, env: Env)
    requires r.state.phase == Waiting && r.state.players == map[] && r.connections == {} && r.maxPlayers > 0
    requires id !in env.lostEarly
    ensures var r' := HandleJoin(r, id, env);
            && r'.state.players == map[id := NewPlayer(r, env)] && r'.connections == {id}
            && r'.state.phase == Waiting && r'.closed == r.closed
            && r'.usedNames == r.usedNames + {NewPlayer(r, env).nickname}
  {
    hide Nicknames.Sanitize, NameGenerator.Generate;
  }

  /** The message by which a client keeps the name it was offered. */
  function Keeping(n: GoStrings.Name): (payload: seq<byte>)
    requires |GoStrings.NameBytes(n)| < 256
  {
    [|GoStrings.NameBytes(n)| as byte] + GoStrings.NameBytes(n)
  }

  lemma KeepingIsTyped(n: GoStrings.Name)
    requires NameOk(n)
    ensures |GoStrings.NameBytes(n)| < 256 && Typed(Keeping(n)) == Some(n)
  {
    hide GoStrings.NameBytes, GoStrings.Read, Typed, Nicknames.Tidy, Nicknames.Canonical, GoStrings.RuneBytes;
    Nicknames.ByteLengthBound(n);
    GoStrings.ScalarsAreNormal(n);
    PayloadIsTyped(GoStrings.NameBytes(n));
  }

  lemma PayloadIsTyped(text: seq<byte>)
    requires 0 < |text| < 256
    ensures Typed([|text| as byte] + text) == Some(GoStrings.Read(text))
  {
    hide GoStrings.Read;
    var payload := [|text| as byte] + text;
    assert payload[0] as int == |text| && payload[1..1 + |text|] == text;
  }

  /** Saying one's own canonical name confirms it. */
  lemma OwnNameConfirms(r: RoomState, id: PlayerId, p: Player, payload: seq<byte>, env: Env, m: Math)
    requires r.state.phase == Waiting && r.state.players == map[id := p] && r.connections == {id}
    requires Nicknames.Canonical(p.nickname) && NameOk(p.nickname) && Typed(payload) == Some(p.nickname)
    requires !p.disconnected && p.messageCount == 0 && !r.closed
    ensures var r' := HandleMessage(r, id, SetNickname(payload), env, m); Lone(r', id) && r'.state.phase == Waiting
  {
    hide Nicknames.Sanitize, Typed, NameOk, Nicknames.Canonical, Confirm, CountMessage;
    NameIsFixed(p.nickname);
    var q := CountMessage(p, env.now);
    CountedOnce(p, env.now);
    var heard := Emit(SetPlayer(r, id, q), Dispatched(id, env.now));
    assert heard.state.players == map[id := q];
    ConfirmLone(heard, id, q, env);
  }

  lemma CountedOnce(p: Player, now: int)
    requires p.messageCount == 0
    ensures var q := CountMessage(p, now);
            q == p.(messageCount := 1, windowStart := q.windowStart) && q.messageCount <= MESSAGE_RATE_LIMIT
  {
  }

  lemma ConfirmLone(r: RoomState, id: PlayerId, p: Player, env: Env)
    requires r.state.phase == Waiting && r.state.players.Keys == {id} && r.connections == {id} && !r.closed
    requires !p.disconnected && p.messageCount <= 1
    ensures Lone(Confirm(r, id, p, env), id) && Confirm(r, id, p, env).state.phase == Waiting
  {
    hide AutoRestart;
  }

  lemma NameIsFixed(n: GoStrings.Name)
    requires Nicknames.Canonical(n) && NameOk(n)
    ensures Nicknames.Sanitize(n) == n && n != []
  {
    hide Nicknames.Sanitize;
    GoStrings.ScalarsAreNormal(n);
    Nicknames.FixedPointIff(n);
  }

  lemma StrictIsCanonical(n: GoStrings.Name)
    requires NameOk(n, true)
    ensures NameOk(n) && Nicknames.Canonical(n)
  {
  }

  lemma LoneIsReady(r: RoomState, id: PlayerId)
    requires Lone(r, id)
    ensures AllReady(r)
  {
  }

  /** A lone player joins a new room, keeps the offered name, and the countdown runs. */
  lemma LonePlayerCounts(maxPlayers: int, hasStore: bool, d: WorldDraws, id: PlayerId, env: Env, m: Math)
    returns (steps: seq<Step>)
    requires id !in env.lostEarly
    ensures var r := Run(NewRoom(maxPlayers, hasStore, d), steps, m);
            |steps| == 3 && r.state.phase == Counting && Lone(r, id) && r.alarm.armed == Some(r.alarm.version)
  {
    hide Nicknames.Sanitize, NameGenerator.Generate, AllReady, HandleJoin, HandleMessage, HandleStartDelay,
         InitialWorld,
         NameOk, Keeping, Nicknames.Canonical, Typed;
    var r := NewRoom(maxPlayers, hasStore, d);
    FirstJoin(r, id, env);
    GeneratedOk(r.usedNames, env.names, true);
    var p := NewPlayer(r, env);
    assert NameOk(p.nickname, true) && p.nickname == NameGenerator.Generate(r.usedNames, env.names);
    StrictIsCanonical(p.nickname);
    KeepingIsTyped(p.nickname);
    var payload := Keeping(p.nickname);
    var join, confirm, delay := Step(Join(id), env), Step(Say(id, SetNickname(payload)), env), Step(StartDelayOver,
        env);
    var joined := Next(r, join, m);
    OwnNameConfirms(joined, id, p, payload, env, m);
    var ready := Next(joined, confirm, m);
    LoneIsReady(ready, id);
    DelayStartsCountdown(ready, env);
    steps := [join, confirm, delay];
    RunThree(r, join, confirm, delay, m);
  }

  lemma AlarmLaunches(r: RoomState, id: PlayerId, env: Env, m: Math)
    requires Lone(r, id) && r.state.phase == Counting && r.alarm.armed == Some(r.alarm.version)
    ensures var v := r.alarm.version;
            var checked := Next(Next(r, Step(AlarmFires, env), m), Step(AlarmChecks(v), env), m);
            && Lone(checked, id) && checked.state.phase == Counting
            && v in checked.alarm.checked && checked.alarm.checked[v] == Counting
            && var launched := Next(checked, Step(AlarmActs(v), env), m);
               && Lone(launched, id) && launched.state.phase == Playing
               && launched.state.world.tick == checked.state.world.tick + 1
  {
    hide AutoRestart;
    var v := r.alarm.version;
    var fired := AlarmExpires(r);
    assert v in fired.alarm.fired && fired.state == r.state;
    var checked := AlarmCheck(fired, v);
    assert v in checked.alarm.checked && checked.state == r.state;
  }

  /** From a new room: five steps to the end of the countdown, one to launch the game. */
  lemma LonePlayerPlays(maxPlayers: int, hasStore: bool, d: WorldDraws, id: PlayerId, env: Env, m: Math)
    returns (before: seq<Step>, launch: Step)
    requires id !in env.lostEarly
    ensures |before| == 5
    ensures var counting := Run(NewRoom(maxPlayers, hasStore, d), before, m);
            && counting.state.phase == Counting && Lone(counting, id)
            && launch.action.AlarmActs? && launch.action.version in counting.alarm.checked
            && counting.alarm.checked[launch.action.version] == Counting
            && Next(counting, launch, m).state.phase == Playing && Lone(Next(counting, launch, m), id)
            && Next(counting, launch, m).state.world.tick == counting.state.world.tick + 1
  {
    hide Next, NewRoom, Lone;
    var r := NewRoom(maxPlayers, hasStore, d);
    var first := LonePlayerCounts(maxPlayers, hasStore, d, id, env, m);
    var counting := Run(r, first, m);
    AlarmLaunches(counting, id, env, m);
    var v := counting.alarm.version;
    var fires, checks := Step(AlarmFires, env), Step(AlarmChecks(v), env);
    before, launch := first + [fires, checks], Step(AlarmActs(v), env);
    RoomRate.RunConcat(r, first, [fires, checks], m);
    RunTwo(counting, fires, checks, m);
  }

  // ---------------------------------------------------------------- countdown and play back to waiting

  /** A newcomer sends any running countdown or game back to waiting. */
  lemma NewcomerStops(r: RoomState, id: PlayerId, env: Env)
    requires r.state.phase == Counting || r.state.phase == Playing
    requires id !in r.state.players && |r.state.players| < r.maxPlayers && id !in env.lostEarly
    ensures HandleJoin(r, id, env).state.phase == Waiting
  {
    hide Nicknames.Sanitize, NameGenerator.Generate;
    var seat := SeatTaken(r, id, env);
    assert id in seat.connections && !Ready(seat.state.players, id);
    assert !AllReady(seat);
    hide AddPlayer, AllReady;
    GatePhase(seat);
  }

  lemma RoomForTwo(maxPlayers: int, hasStore: bool, d: WorldDraws, r: RoomState, id: PlayerId)
    requires maxPlayers != 1 && r.maxPlayers == NewRoom(maxPlayers, hasStore, d).maxPlayers && Lone(r, id)
    ensures |r.state.players| < r.maxPlayers
  {
    assert |r.state.players| == |r.state.players.Keys| == 1;
  }

  /** The edges countdown to waiting and playing to waiting are taken by runs of new rooms. */
  lemma GamesAreInterrupted(maxPlayers: int, hasStore: bool, d: WorldDraws, id: PlayerId, other: PlayerId, env: Env,
                            m: Math)
    returns (before: seq<Step>, launch: Step, join: Step)
    requires maxPlayers != 1 && other != id && id !in env.lostEarly && other !in env.lostEarly
    ensures var counting := Run(NewRoom(maxPlayers, hasStore, d), before, m);
            && counting.state.phase == Counting && Next(counting, join, m).state.phase == Waiting
            && Next(counting, launch, m).state.phase == Playing
            && Next(Next(counting, launch, m), join, m).state.phase == Waiting
  {
    before, launch := LonePlayerPlays(maxPlayers, hasStore, d, id, env, m);
    join := Step(Join(other), env);
    hide NewRoom, HandleJoin, CountdownEnd, AutoRestart, Run;
    var r := NewRoom(maxPlayers, hasStore, d);
    var counting := Run(r, before, m);
    var playing := Next(counting, launch, m);
    SameCapacity(r, before, m);
    StepCapacity(counting, launch, m);
    RoomForTwo(maxPlayers, hasStore, d, counting, id);
    RoomForTwo(maxPlayers, hasStore, d, playing, id);
    NewcomerStops(counting, other, env);
    NewcomerStops(playing, other, env);
  }

  // ---------------------------------------------------------------- a game that ends and restarts

  function Ticks(env: Env, n: nat): (steps: seq<Step>)
    ensures |steps| == n && forall i :: 0 <= i < n ==> steps[i] == Step(Tick, env)
  {
    seq(n, _ => Step(Tick, env))
  }

  lemma NobodyExpires(r: RoomState, id: PlayerId, now: int)
    requires Lone(r, id)
    ensures Expired(r.state.players, now) == {} && RemovePlayers(r, {}).state.players == r.state.players
  {
    assert r.state.players - {} == r.state.players;
  }

  lemma EndKeepsLone(r: RoomState, id: PlayerId)
    requires Lone(r, id)
    ensures Lone(EndGame(r), id) && EndGame(r).state.phase == Ended
  {
    hide Grounded;
  }

  /** A tick of a lone player's game goes on or ends it. */
  lemma TickLone(r: RoomState, id: PlayerId, env: Env, m: Math)
    requires Lone(r, id) && r.state.phase == Playing && env.lostFirst == {}
    ensures var r' := Next(r, Step(Tick, env), m);
            && Lone(r', id)
            && (r'.state.phase == Ended ||
                (r'.state.phase == Playing && r'.state.world.tick == r.state.world.tick + 1))
  {
    hide TickWorld, RemovePlayers, Expired, EndGame;
    NobodyExpires(r, id, env.now);
    SweepFrame(r, {});
    var swept := RemovePlayers(r, {});
    RoomWorld.TickCounts(swept.state.world, env.tick, m);
    var moved := swept.(state := swept.state.(world := TickWorld(swept.state.world, env.tick, m).0));
    assert Lose(moved, {}).connections == moved.connections;
    EndKeepsLone(Lose(moved, {}), id);
    assert |swept.state.players| == |swept.state.players.Keys| == 1;
  }

  /** n ticks end the game, or it is still on and has counted them. */
  lemma {:induction false} TicksRun(r: RoomState, id: PlayerId, env: Env, n: nat, m: Math) returns (k: nat)
    requires Lone(r, id) && r.state.phase == Playing && env.lostFirst == {}
    ensures k <= n && Lone(Run(r, Ticks(env, k), m), id)
    ensures || Run(r, Ticks(env, k), m).state.phase == Ended
            || (k == n && RoomWorld.StaysPlaying(r, Ticks(env, n), m) &&
                Run(r, Ticks(env, n), m).state.world.tick == r.state.world.tick + n)
    decreases n
  {
    hide Next, Lone;
    if n == 0 {
      return 0;
    }
    TickLone(r, id, env, m);
    var r1 := Next(r, Step(Tick, env), m);
    if r1.state.phase == Ended {
      k := 1;
      assert Ticks(env, 1) == [Step(Tick, env)];
      RunOne(r, Step(Tick, env), m);
    } else {
      var j := TicksRun(r1, id, env, n - 1, m);
      k := j + 1;
      assert Ticks(env, k)[1..] == Ticks(env, j);
      assert Ticks(env, n)[1..] == Ticks(env, n - 1);
    }
  }

  /** Left alone, a lone player's game is over within 62 ticks. */
  lemma LonePlayerLoses(maxPlayers: int, hasStore: bool, d: WorldDraws, id: PlayerId, env: Env, m: Math)
    returns (steps: seq<Step>)
    requires id !in env.lostEarly && env.lostFirst == {}
    ensures var r := Run(NewRoom(maxPlayers, hasStore, d), steps, m);
            |steps| <= 68 && r.state.phase == Ended && Lone(r, id)
  {
    hide Next, NewRoom, Lone, Run;
    var r := NewRoom(maxPlayers, hasStore, d);
    var before, launch := LonePlayerPlays(maxPlayers, hasStore, d, id, env, m);
    var counting := Run(r, before, m);
    var playing := Next(counting, launch, m);
    var k := TicksRun(playing, id, env, 62, m);
    steps := before + ([launch] + Ticks(env, k));
    RoomRate.RunConcat(r, before, [launch] + Ticks(env, k), m);
    RoomRate.RunConcat(counting, [launch], Ticks(env, k), m);
    RunOne(counting, launch, m);
    if Run(playing, Ticks(env, k), m).state.phase != Ended {
      LaunchedAtOne(maxPlayers, hasStore, d, before, m);
      RoomWorld.TaplessGamesEnd(maxPlayers, hasStore, d, before, launch, Ticks(env, 62), m);
    }
  }

  lemma LaunchedAtOne(maxPlayers: int, hasStore: bool, d: WorldDraws, before: seq<Step>, m: Math)
    requires Run(NewRoom(maxPlayers, hasStore, d), before, m).state.phase == Counting
    ensures Run(NewRoom(maxPlayers, hasStore, d), before, m).state.world.tick == 0
  {
    hide Run;
    RoomWorld.RunStartsOnThePad(NewRoom(maxPlayers, hasStore, d), before, m);
  }

  lemma LoneVoteRestarts(r: RoomState, id: PlayerId, env: Env, m: Math)
    requires Lone(r, id) && r.state.phase == Ended
    ensures Next(r, Step(Say(id, RestartVote), env), m).state.phase == Counting
  {
    hide HandleRestartVote;
    var heard := Hearing(r, id, env.now);
    assert Connected(heard.state.players) == {id};
    VotePhase(heard, id, env);
  }

  /** The edge ended to countdown is taken by a run of a new room. */
  lemma GamesRestart(maxPlayers: int, hasStore: bool, d: WorldDraws, id: PlayerId, env: Env, m: Math)
    returns (steps: seq<Step>, vote: Step)
    requires id !in env.lostEarly && env.lostFirst == {}
    ensures var ended := Run(NewRoom(maxPlayers, hasStore, d), steps, m);
            ended.state.phase == Ended && Next(ended, vote, m).state.phase == Counting
  {
    hide Next, NewRoom, Lone, Run;
    steps := LonePlayerLoses(maxPlayers, hasStore, d, id, env, m);
    vote := Step(Say(id, RestartVote), env);
    LoneVoteRestarts(Run(NewRoom(maxPlayers, hasStore, d), steps, m), id, env, m);
  }
}
