/**
 The per-player message limiter over whole runs. It keeps one fixed window and one counter,
 yet bounds every sliding window of 60000 ms: at most 199 messages, and that is attained.
 */
module RoomRate {
  import opened Prelude
  import opened Physics
  import opened RoomModel
  import GoStrings

  /** Messages of `id` dispatched at a time in [from, from + 60000]. */
  ghost function Dispatches(log: seq<Effect>, id: PlayerId, from: int): (n: nat) {
    if log == [] then 0
    else Dispatches(log[..|log| - 1], id, from) + (if Within(log[|log| - 1], id, from) then 1 else 0)
  }

  ghost predicate Within(e: Effect, id: PlayerId, from: int) {
    e.Dispatched? && e.player == id && from <= e.at <= from + MESSAGE_WINDOW_MS
  }

  lemma DispatchesAppend(log: seq<Effect>, e: Effect, id: PlayerId, from: int)
    ensures Dispatches(log + [e], id, from) == Dispatches(log, id, from) + (if Within(e, id, from) then 1 else 0)
  {
    assert (log + [e])[..|log|] == log;
  }

  /** A restart with players present clears every counter. */
  ghost predicate Restarts(r: RoomState, r': RoomState) {
    r.state.phase == Ended && r'.state.phase == Counting
  }

  ghost predicate SameCounter(p: Player, q: Player) {
    q.messageCount == p.messageCount && q.windowStart == p.windowStart
  }

  /** Dispatches nothing and, short of a restart, leaves the counters of players who stay. */
  ghost predicate Silent(r: RoomState, r': RoomState, id: PlayerId, from: int) {
    && Dispatches(r'.log, id, from) == Dispatches(r.log, id, from)
    && (id in r.state.players && id in r'.state.players && !Restarts(r, r') ==>
          SameCounter(r.state.players[id], r'.state.players[id]))
  }

  // ---------------------------------------------------------------- silent sections

  lemma RestartSilent(r: RoomState, env: Env, id: PlayerId, from: int)
    ensures Silent(r, RestartAndStart(r, env), id, from)
  {
    hide Dispatches, Stays, ClearAllStats, NamesOf, InitialWorld;
    if r.state.phase == Ended {
      var kept := Stays(r.state.players, r.connections);
      var gone := r.state.players - kept.Keys;
      DispatchesAppend(r.log, PlayersLeft(gone), id, from);
      var swept := EmitLeft(r, gone).log;
      DispatchesAppend(swept, BalloonReset(map[], true), id, from);
      DispatchesAppend(swept, BalloonReset(ClearAllStats(kept, env.now), true), id, from);
    }
  }

  lemma AutoRestartSilent(r: RoomState, env: Env, id: PlayerId, from: int)
    ensures Silent(r, AutoRestart(r, env), id, from)
  {
    hide Dispatches, RestartAndStart, Connected, YesVotes;
    var pruned := r.(state := r.state.(votes := r.state.votes * Connected(r.state.players)));
    RestartSilent(Lose(pruned, env.lostLater), env, id, from);
  }

  lemma AutoRestartIfEndedSilent(r: RoomState, env: Env, id: PlayerId, from: int)
    ensures Silent(r, AutoRestartIfEnded(r, env), id, from)
  {
    hide Dispatches, AutoRestart, AllReady;
    AutoRestartSilent(Lose(r, env.lostFirst), env, id, from);
  }

  lemma ReconnectSilent(r: RoomState, who: PlayerId, env: Env, id: PlayerId, from: int)
    requires who in r.state.players
    ensures Silent(r, Reconnect(r, who, env), id, from)
  {
    hide Dispatches, AutoRestartIfEnded, AllReady;
    var p := r.state.players[who].(disconnected := false, disconnectedAt := None);
    var back := SetPlayer(r, who, p).(
      nicknameTimers := if p.confirmed then r.nicknameTimers else r.nicknameTimers + {who});
    AutoRestartIfEndedSilent(back, env, id, from);
  }

  lemma GateSilent(r: RoomState, id: PlayerId, from: int)
    ensures Silent(r, ResumeTick(NicknameGate(r)), id, from)
    ensures NicknameGate(r).state.players == r.state.players && NicknameGate(r).log == r.log
    ensures NicknameGate(r).state.phase == r.state.phase || NicknameGate(r).state.phase == Waiting
  {
    hide Dispatches, AllReady;
  }

  lemma JoinSilent(r: RoomState, who: PlayerId, env: Env, id: PlayerId, from: int)
    ensures Silent(r, HandleJoin(r, who, env), id, from)
  {
    hide Dispatches, Reconnect, NicknameGate, NewPlayer;
    var linked := r.(connections := r.connections + {who} - env.lostEarly);
    GateSilent(linked, id, from);
    GateSilent(AddPlayer(linked, who, env), id, from);
    if who in r.state.players {
      ReconnectSilent(r.(connections := r.connections + {who} - env.lostEarly), who, env, id, from);
    }
  }

  lemma RemoveSilent(r: RoomState, ids: set<PlayerId>, id: PlayerId, from: int)
    ensures Silent(r, RemovePlayers(r, ids), id, from) && RemovePlayers(r, ids).state.phase == r.state.phase
    ensures id in RemovePlayers(r, ids).state.players ==> id in r.state.players
  {
    hide Dispatches, NamesOf;
    var gone := Only(r.state.players, ids);
    DispatchesAppend(r.log, PlayersLeft(gone), id, from);
  }

  lemma ConfirmSilent(r: RoomState, who: PlayerId, p: Player, env: Env, id: PlayerId, from: int)
    requires who in r.state.players && SameCounter(r.state.players[who], p)
    ensures Silent(r, Confirm(r, who, p, env), id, from)
  {
    hide Dispatches, AutoRestartIfEnded, AllReady;
    AutoRestartIfEndedSilent(
      TryStart(SetPlayer(r, who, p.(confirmed := true)).(nicknameTimers := r.nicknameTimers - {who})), env, id, from);
  }

  lemma SetNicknameSilent(r: RoomState, who: PlayerId, text: Option<GoStrings.Name>, env: Env, id: PlayerId, from: int)
    requires who in r.state.players
    ensures Silent(r, HandleSetNickname(r, who, text, env), id, from)
  {
    hide Dispatches, Confirm, ChosenName, Nicknames.Sanitize;
    var p := r.state.players[who];
    ConfirmSilent(r, who, p, env, id, from);
    var sanitized := if text.Some? then Nicknames.Sanitize(text.value) else [];
    if ChosenName(p, sanitized, r.usedNames, env).Some? {
      var n := ChosenName(p, sanitized, r.usedNames, env).value;
      ConfirmSilent(r.(usedNames := r.usedNames - {p.nickname} + {n}), who,
                    p.(nickname := n, lastNicknameChange := env.now), env, id, from);
    }
  }

  lemma DispatchSilent(r: RoomState, who: PlayerId, message: Message, env: Env, m: Math, id: PlayerId, from: int)
    requires who in r.state.players
    ensures Silent(r, Dispatch(r, who, message, env, m), id, from)
  {
    hide Dispatches, TapWorld, HandleSetNickname, RestartAndStart, Connected, YesVotes;
    match message {
      case Tap(_) =>
        DispatchesAppend(r.log, TapAccepted(who, r.state.players[who].score >= MAX_SCORE), id, from);
      case SetNickname(payload) => SetNicknameSilent(r, who, Typed(payload), env, id, from);
      case RestartVote => RestartSilent(r.(state := r.state.(votes := r.state.votes + {who})), env, id, from);
      case _ =>
    }
  }

  lemma EndGameSilent(r: RoomState, id: PlayerId, from: int)
    ensures Silent(r, EndGame(r), id, from)
  {
    hide Dispatches, Grounded;
    if r.state.session.Some? {
      DispatchesAppend(r.log, ResultRecorded(r.state.session.value, r.state.world.balloon.score, r.state.players),
          id, from);
    }
  }

  lemma TickSilent(r: RoomState, env: Env, m: Math, id: PlayerId, from: int)
    ensures Silent(r, HandleTick(r, env, m), id, from)
  {
    hide Dispatches, TickWorld, RemovePlayers, Expired, EndGame;
    RemoveSilent(r, Expired(r.state.players, env.now), id, from);
    var swept := RemovePlayers(r, Expired(r.state.players, env.now));
    var moved := swept.(state := swept.state.(world := TickWorld(swept.state.world, env.tick, m).0));
    EndGameSilent(Lose(moved, env.lostFirst), id, from);
    EndGameKeepsPlayers(Lose(moved, env.lostFirst));
  }

  lemma EndGameKeepsPlayers(r: RoomState)
    ensures EndGame(r).state.players == r.state.players && EndGame(r).state.phase != Counting
  {
  }

  lemma TimeoutSilent(r: RoomState, who: PlayerId, id: PlayerId, from: int)
    ensures Silent(r, HandleNicknameTimeout(r, who), id, from)
  {
    hide Dispatches, RemovePlayers, AllReady;
    RemoveSilent(r.(nicknameTimers := r.nicknameTimers - {who}), {who}, id, from);
  }

  lemma TimersSilent(r: RoomState, version: nat, env: Env, id: PlayerId, from: int)
    ensures Silent(r, HandleStartDelay(r, env), id, from)
    ensures Silent(r, AlarmAct(r, version, env), id, from)
  {
    hide Dispatches, AllReady, InitialWorld, AutoRestart;
    DispatchesAppend(r.log, BalloonReset(r.state.players, false), id, from);
    if r.state.session.Some? {
      DispatchesAppend(r.log, PlayStarted(r.state.session.value, r.hasStore), id, from);
    }
    AutoRestartSilent(r.(alarm := r.alarm.(checked := r.alarm.checked - {version})), env, id, from);
  }

  // ---------------------------------------------------------------- one step

  predicate Speaks(a: Action, id: PlayerId) {
    a.Say? && a.player == id
  }

  /** Counting the message and, within the limit, logging it. */
  function Counted(r: RoomState, id: PlayerId, now: int): (r': RoomState)
    requires id in r.state.players
  {
    var p := CountMessage(r.state.players[id], now);
    if p.messageCount > MESSAGE_RATE_LIMIT then
      SetPlayer(r, id, MarkDisconnected(p, now)).(connections := r.connections - {id})
    else Emit(SetPlayer(r, id, p), Dispatched(id, now))
  }

  lemma MessageCounted(r: RoomState, who: PlayerId, message: Message, env: Env, m: Math, id: PlayerId, from: int)
    requires who in r.state.players
    ensures Silent(Counted(r, who, env.now), HandleMessage(r, who, message, env, m), id, from)
  {
    hide Dispatches, Dispatch;
    var p := CountMessage(r.state.players[who], env.now);
    if p.messageCount <= MESSAGE_RATE_LIMIT {
      DispatchSilent(Emit(SetPlayer(r, who, p), Dispatched(who, env.now)), who, message, env, m, id, from);
    }
  }

  lemma OthersSpeak(r: RoomState, who: PlayerId, message: Message, env: Env, m: Math, id: PlayerId, from: int)
    requires who != id
    ensures Silent(r, HandleMessage(r, who, message, env, m), id, from)
  {
    hide Dispatches, HandleMessage;
    if who in r.state.players {
      MessageCounted(r, who, message, env, m, id, from);
      DispatchesAppend(r.log, Dispatched(who, env.now), id, from);
    } else {
      Unheard(r, who, message, env, m);
    }
  }

  lemma Unheard(r: RoomState, who: PlayerId, message: Message, env: Env, m: Math)
    requires who !in r.state.players
    ensures HandleMessage(r, who, message, env, m) == r
  {
  }

  /** Only the player's own messages touch the player's counter. */
  lemma StepSilent(r: RoomState, step: Step, m: Math, id: PlayerId, from: int)
    requires !Speaks(step.action, id)
    ensures Silent(r, Next(r, step, m), id, from)
  {
    hide Dispatches, HandleJoin, HandleMessage, HandleTick, HandleNicknameTimeout, HandleStartDelay, AlarmAct;
    match step.action {
      case Join(who) => JoinSilent(r, who, step.env, id, from);
      case Say(who, message) => OthersSpeak(r, who, message, step.env, m, id, from);
      case Tick => TickSilent(r, step.env, m, id, from);
      case NicknameTimeout(who) => TimeoutSilent(r, who, id, from);
      case StartDelayOver => TimersSilent(r, 0, step.env, id, from);
      case AlarmActs(v) => TimersSilent(r, v, step.env, id, from);
      case _ =>
    }
  }

  // ---------------------------------------------------------------- every run

  /** Along the run `id` never leaves the roster and no restart clears its counters. */
  ghost predicate KeepsRecord(r: RoomState, steps: seq<Step>, m: Math, id: PlayerId)
    decreases |steps|
  {
    && id in r.state.players
    && (steps != [] ==>
          !Restarts(r, Next(r, steps[0], m)) && KeepsRecord(Next(r, steps[0], m), steps[1..], m, id))
  }

  /** The clock does not run backwards. */
  ghost predicate Clocked(steps: seq<Step>, since: int)
    decreases |steps|
  {
    steps != [] ==> since <= steps[0].env.now && Clocked(steps[1..], steps[0].env.now)
  }

  /** How many messages a record can still get dispatched inside [from, from + 60000]. */
  function Budget(p: Player, from: int): (n: nat) {
    var left := if p.messageCount < MESSAGE_RATE_LIMIT then MESSAGE_RATE_LIMIT - p.messageCount else 0;
    if p.windowStart >= from then left
    else if p.windowStart + MESSAGE_WINDOW_MS >= from then left + MESSAGE_RATE_LIMIT
    else 2 * MESSAGE_RATE_LIMIT - 1
  }

  lemma SpokenBudget(p: Player, now: int, from: int)
    requires p.windowStart <= now
    ensures var q := CountMessage(p, now);
            Budget(q, from) +
            (if q.messageCount <= MESSAGE_RATE_LIMIT && from <= now <= from + MESSAGE_WINDOW_MS then 1 else 0)
            <= Budget(p, from) || (now > from + MESSAGE_WINDOW_MS)
  {
  }

  lemma SpeakStep(r: RoomState, step: Step, m: Math, id: PlayerId, from: int)
    requires Speaks(step.action, id) && id in r.state.players && id in Next(r, step, m).state.players
    requires !Restarts(r, Next(r, step, m))
    ensures var p := CountMessage(r.state.players[id], step.env.now);
            && SameCounter(p, Next(r, step, m).state.players[id])
            && Dispatches(Next(r, step, m).log, id, from) == Dispatches(r.log, id, from) +
               (if p.messageCount <= MESSAGE_RATE_LIMIT &&
                   from <= step.env.now <= from + MESSAGE_WINDOW_MS then 1 else 0)
  {
    hide Dispatches, HandleMessage;
    MessageCounted(r, id, step.action.message, step.env, m, id, from);
    DispatchesAppend(r.log, Dispatched(id, step.env.now), id, from);
  }

  /** Once the clock has passed the interval nothing more is counted in it. */
  lemma {:induction false} PastInterval(r: RoomState, steps: seq<Step>, m: Math, id: PlayerId, from: int, now: int)
    requires KeepsRecord(r, steps, m, id) && Clocked(steps, now) && now > from + MESSAGE_WINDOW_MS
    ensures Dispatches(Run(r, steps, m).log, id, from) == Dispatches(r.log, id, from)
    decreases |steps|
  {
    hide Dispatches, Next;
    if steps != [] {
      if Speaks(steps[0].action, id) {
        SpeakStep(r, steps[0], m, id, from);
      } else {
        StepSilent(r, steps[0], m, id, from);
      }
      PastInterval(Next(r, steps[0], m), steps[1..], m, id, from, steps[0].env.now);
    }
  }

  lemma {:induction false} RunWithinBudget(r: RoomState, steps: seq<Step>, m: Math, id: PlayerId, from: int, now: int)
    requires KeepsRecord(r, steps, m, id) && Clocked(steps, now) && r.state.players[id].windowStart <= now
    ensures Dispatches(Run(r, steps, m).log, id, from) <=
            Dispatches(r.log, id, from) + Budget(r.state.players[id], from)
    decreases |steps|
  {
    hide Dispatches, Next;
    if steps != [] {
      var r1, t := Next(r, steps[0], m), steps[0].env.now;
      if Speaks(steps[0].action, id) {
        SpeakStep(r, steps[0], m, id, from);
        SpokenBudget(r.state.players[id], t, from);
      } else {
        StepSilent(r, steps[0], m, id, from);
      }
      if t > from + MESSAGE_WINDOW_MS {
        PastInterval(r1, steps[1..], m, id, from, t);
      } else {
        RunWithinBudget(r1, steps[1..], m, id, from, t);
      }
    }
  }

  /**
   The sliding-window bound. A record whose window has been opened by one of its messages, or
   is too old to matter, lets at most 199 messages through in any 60000 ms; an untouched
   record whose initial window is still open lets at most 200.
   */
  lemma SlidingWindow(r: RoomState, steps: seq<Step>, m: Math, id: PlayerId, from: int, now: int)
    requires KeepsRecord(r, steps, m, id) && Clocked(steps, now) && r.state.players[id].windowStart <= now
    ensures var p := r.state.players[id];
            var n := Dispatches(Run(r, steps, m).log, id, from) - Dispatches(r.log, id, from);
            && n <= 200
            && (p.messageCount > 0 || p.windowStart + MESSAGE_WINDOW_MS < from ==> n <= 199)
  {
    RunWithinBudget(r, steps, m, id, from, now);
  }

  // ---------------------------------------------------------------- the bound is attained

  function Pings(id: PlayerId, env: Env, n: nat): (steps: seq<Step>)
    ensures |steps| == n
  {
    if n == 0 then [] else [Step(Say(id, Ping), env)] + Pings(id, env, n - 1)
  }

  /** n pings in an open window all get through as long as the limit is not exceeded. */
  lemma {:induction false} PingBurst(r: RoomState, id: PlayerId, env: Env, n: nat, m: Math, from: int)
    requires id in r.state.players
    requires env.now - r.state.players[id].windowStart <= MESSAGE_WINDOW_MS
    requires r.state.players[id].messageCount + n <= MESSAGE_RATE_LIMIT
    ensures var r' := Run(r, Pings(id, env, n), m);
            && id in r'.state.players
            && r'.state.players[id].windowStart == r.state.players[id].windowStart
            && r'.state.players[id].messageCount == r.state.players[id].messageCount + n
            && Dispatches(r'.log, id, from) == Dispatches(r.log, id, from) +
               (if from <= env.now <= from + MESSAGE_WINDOW_MS then n else 0)
    decreases n
  {
    hide Dispatches;
    if n > 0 {
      var first := Step(Say(id, Ping), env);
      assert Pings(id, env, n)[1..] == Pings(id, env, n - 1);
      DispatchesAppend(r.log, Dispatched(id, env.now), id, from);
      PingBurst(Next(r, first, m), id, env, n - 1, m, from);
    }
  }

  lemma {:induction false} RunConcat(r: RoomState, a: seq<Step>, b: seq<Step>, m: Math)
    ensures Run(r, a + b, m) == Run(Run(r, a, m), b, m)
    decreases |a|
  {
    hide Next;
    if a == [] {
      assert a + b == b;
    } else {
      assert (a + b)[1..] == a[1..] + b;
      RunConcat(Next(r, a[0], m), a[1..], b, m);
    }
  }

  /** A ping that opens a new window. */
  lemma OpeningPing(r: RoomState, id: PlayerId, env: Env, m: Math, from: int)
    requires id in r.state.players && env.now - r.state.players[id].windowStart > MESSAGE_WINDOW_MS
    ensures var r' := Run(r, Pings(id, env, 1), m);
            && id in r'.state.players && r'.state.players[id].windowStart == env.now
            && r'.state.players[id].messageCount == 1
            && Dispatches(r'.log, id, from) == Dispatches(r.log, id, from) +
               (if from <= env.now <= from + MESSAGE_WINDOW_MS then 1 else 0)
  {
    hide Dispatches;
    var first := Step(Say(id, Ping), env);
    assert Pings(id, env, 1)[1..] == Pings(id, env, 0) == [];
    DispatchesAppend(r.log, Dispatched(id, env.now), id, from);
  }

  predicate IsPing(step: Step) {
    step.action.Say? && step.action.message == Ping
  }

  lemma PingKeeps(r: RoomState, step: Step, m: Math)
    requires IsPing(step)
    ensures Next(r, step, m).state.players.Keys == r.state.players.Keys
    ensures Next(r, step, m).state.phase == r.state.phase
  {
  }

  /** Pings remove nobody and restart nothing. */
  lemma {:induction false} PingsKeep(r: RoomState, steps: seq<Step>, id: PlayerId, m: Math)
    requires id in r.state.players && forall i :: 0 <= i < |steps| ==> IsPing(steps[i])
    ensures KeepsRecord(r, steps, m, id)
    decreases |steps|
  {
    hide Next, IsPing;
    if steps != [] {
      PingKeeps(r, steps[0], m);
      PingsKeep(Next(r, steps[0], m), steps[1..], id, m);
    }
  }

  lemma {:induction false} KeepsConcat(r: RoomState, a: seq<Step>, b: seq<Step>, id: PlayerId, m: Math)
    requires KeepsRecord(r, a, m, id) && KeepsRecord(Run(r, a, m), b, m, id)
    ensures KeepsRecord(r, a + b, m, id)
    decreases |a|
  {
    hide Next, Restarts;
    if a == [] {
      assert a + b == b;
    } else {
      assert (a + b)[1..] == a[1..] + b;
      KeepsConcat(Next(r, a[0], m), a[1..], b, id, m);
    }
  }

  lemma {:induction false} PingsClocked(id: PlayerId, env: Env, n: nat, since: int)
    requires since <= env.now
    ensures Clocked(Pings(id, env, n), since) && LastTime(Pings(id, env, n), since) <= env.now
    ensures n > 0 ==> Pings(id, env, n)[n - 1].env.now == env.now
    ensures forall i :: 0 <= i < n ==> IsPing(Pings(id, env, n)[i])
  {
    if n > 0 {
      PingsClocked(id, env, n - 1, env.now);
      assert Pings(id, env, n)[1..] == Pings(id, env, n - 1);
    }
  }

  function LastTime(steps: seq<Step>, since: int): (t: int) {
    if steps == [] then since else steps[|steps| - 1].env.now
  }

  lemma LastOf(a: seq<Step>, b: seq<Step>, since: int, end: int)
    requires b != [] && b[|b| - 1].env.now <= end
    ensures LastTime(a + b, since) <= end
  {
  }

  /** Two clocked runs, the second not before the end of the first. */
  lemma {:induction false} ClockedConcat(a: seq<Step>, b: seq<Step>, since: int, then': int)
    requires Clocked(a, since) && Clocked(b, then') && LastTime(a, since) <= then'
    ensures Clocked(a + b, since)
    decreases |a|
  {
    if a == [] {
      assert a + b == b;
      if b != [] {
        assert since <= b[0].env.now;
      }
    } else {
      assert (a + b)[1..] == a[1..] + b;
      ClockedConcat(a[1..], b, a[0].env.now, then');
    }
  }

  /** One ping at t, 99 at t + 60000 and 100 at t + 60001: 199 of them within two milliseconds. */
  lemma Attains199(r: RoomState, id: PlayerId, env: Env, m: Math) returns (steps: seq<Step>)
    requires id in r.state.players && env.now - r.state.players[id].windowStart > MESSAGE_WINDOW_MS
    ensures var from := env.now + MESSAGE_WINDOW_MS;
            Dispatches(Run(r, steps, m).log, id, from) == Dispatches(r.log, id, from) + 199
    ensures KeepsRecord(r, steps, m, id) && Clocked(steps, env.now)
  {
    hide Dispatches, Run, Pings, KeepsRecord, Clocked;
    var from := env.now + MESSAGE_WINDOW_MS;
    var late, later := env.(now := from), env.(now := from + 1);
    var a, b, c, d := Pings(id, env, 1), Pings(id, late, 99), Pings(id, later, 1), Pings(id, later, 99);
    OpeningPing(r, id, env, m, from);
    var r1 := Run(r, a, m);
    PingBurst(r1, id, late, 99, m, from);
    var r2 := Run(r1, b, m);
    OpeningPing(r2, id, later, m, from);
    var r3 := Run(r2, c, m);
    PingBurst(r3, id, later, 99, m, from);
    steps := a + b + c + d;
    PingsClocked(id, env, 1, env.now);
    PingsClocked(id, late, 99, env.now);
    PingsClocked(id, later, 1, from);
    PingsClocked(id, later, 99, from + 1);
    ClockedConcat(a, b, env.now, env.now);
    RunConcat(r, a, b, m);
    RunConcat(r, a + b, c, m);
    RunConcat(r, a + b + c, d, m);
    PingsKeep(r, a, id, m);
    PingsKeep(r1, b, id, m);
    PingsKeep(r2, c, id, m);
    PingsKeep(r3, d, id, m);
    KeepsConcat(r, a, b, id, m);
    KeepsConcat(r, a + b, c, id, m);
    KeepsConcat(r, a + b + c, d, id, m);
    LastOf(a, b, env.now, from);
    ClockedConcat(a + b, c, env.now, from);
    LastOf(a + b, c, env.now, from + 1);
    ClockedConcat(a + b + c, d, env.now, from + 1);
  }
}
