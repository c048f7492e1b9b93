/**
 The room state machine (backend/internal/game/room*.go, state.go, hub_cleanup.go).

 `RoomState` is everything a room holds; one `Step` is one critical section under r.mu, one
 lock-free removal of connections, or one firing of a timer. `Next` is total: a step whose
 precondition fails in the source (an alarm that is not armed, say) changes nothing.

 Timer callbacks that were already running when their timer was stopped are included by
 letting nickname and start-delay callbacks run at any time. The alarm callback keeps its
 three stages: armed, fired, and past its version check with the phase it read.
 */
module RoomModel {
  import opened Prelude
  import opened GoStrings
  import opened Nicknames
  import opened NameGenerator
  import opened Physics

  const MAX_SCORE := 9999
  const RECONNECT_GRACE_MS := 30000
  const NICKNAME_COOLDOWN_MS := 30000
  const MESSAGE_RATE_LIMIT := 100
  const MESSAGE_WINDOW_MS := 60000

  datatype PlayerId = PlayerId(raw: string)
  datatype SessionId = SessionId(raw: string)

  datatype Player = Player(
    index: nat, nickname: Name, palette: nat, cooldownEnd: int, score: nat, taps: nat,
    messageCount: nat, windowStart: int, lastNicknameChange: int,
    confirmed: bool, disconnected: bool, disconnectedAt: Option<int>)

  type Roster = map<PlayerId, Player>

  datatype GameState = GameState(
    phase: Phase, world: World, players: Roster, nextIndex: nat, session: Option<SessionId>,
    votes: set<PlayerId>, restartTimerStart: Option<int>)

  /** `version` is endGameAlarmVersion; `armed` the live timer; `fired` and `checked` running callbacks. */
  datatype Alarm = Alarm(version: nat, armed: Option<nat>, fired: set<nat>, checked: map<nat, Phase>)

  /** What a room shows to the outside: broadcasts and calls into the result store. */
  datatype Effect =
    | PlayersLeft(gone: Roster)
    | BalloonReset(roster: Roster, statsCleared: bool)
    | Dispatched(player: PlayerId, at: int)
    | TapAccepted(player: PlayerId, capped: bool)
    | PlayStarted(session: SessionId, stored: bool)
    | ResultRecorded(session: SessionId, score: nat, rows: Roster)

  datatype RoomState = RoomState(
    state: GameState, connections: set<PlayerId>, usedNames: set<Name>, nicknameTimers: set<PlayerId>,
    startDelay: bool, ticking: bool, countdownStart: int, alarm: Alarm, closed: bool,
    maxPlayers: nat, hasStore: bool, log: seq<Effect>)

  datatype Message =
    | Tap(point: Option<(real, real)>)
    | SetNickname(payload: seq<byte>)
    | RestartVote
    | Ping
    | Unknown

  datatype Action =
    | Join(player: PlayerId)
    | Leave(player: PlayerId)
    | Say(player: PlayerId, message: Message)
    | Tick
    | NicknameTimeout(player: PlayerId)
    | StartDelayOver
    | AlarmFires
    | AlarmChecks(version: nat)
    | AlarmActs(version: nat)
    | DropSlow(flagged: set<PlayerId>)
    | DropSlowUnlocked(flagged: set<PlayerId>)
    | RestartTickBegin
    | RestartTickFinish
    | CloseBegin
    | CloseFinish

  /**
   What the environment decides during one step: the clock, random draws, a new UUID, the
   tap cooldown for the current player count, and the connections that the lock-free
   removal takes away while the section runs: right after a joining player was linked,
   and before the section's second and third look at the connections.
   */
  datatype Env = Env(
    now: int, names: NameDraws, session: SessionId, world: WorldDraws, tick: TickDraws,
    cooldown: nat, lostEarly: set<PlayerId>, lostFirst: set<PlayerId>, lostLater: set<PlayerId>)

  datatype Step = Step(action: Action, env: Env)

  // ---------------------------------------------------------------- birth

  function NewGame(d: WorldDraws): (g: GameState) {
    GameState(Waiting, InitialWorld(d), map[], 0, None, {}, None)
  }

  const DEFAULT_MAX_PLAYERS := 50

  function NewRoom(maxPlayers: int, hasStore: bool, d: WorldDraws): (r: RoomState) {
    RoomState(NewGame(d), {}, {}, {}, false, false, 0, Alarm(0, None, {}, map[]), false,
              if maxPlayers <= 0 then DEFAULT_MAX_PLAYERS else maxPlayers, hasStore, [])
  }

  function MarkDisconnected(p: Player, now: int): (p': Player) {
    p.(disconnected := true, disconnectedAt := Some(now))
  }

  function NamesOf(players: Roster): (names: set<Name>) {
    set id | id in players :: players[id].nickname
  }

  function MarkAll(players: Roster, now: int): (players': Roster)
    ensures players'.Keys == players.Keys
    ensures forall id :: id in players ==> players'[id] == MarkDisconnected(players[id], now)
  {
    map id | id in players :: MarkDisconnected(players[id], now)
  }

  /** materializeRoom: a new room object around a saved game, everyone marked disconnected. */
  function Materialize(saved: GameState, maxPlayers: int, hasStore: bool, now: int, d: WorldDraws): (r: RoomState) {
    NewRoom(maxPlayers, hasStore, d).(
      state := saved.(players := MarkAll(saved.players, now)),
      usedNames := NamesOf(saved.players))
  }

  // ---------------------------------------------------------------- small updates

  function SetPhase(r: RoomState, phase: Phase): (r': RoomState) {
    r.(state := r.state.(phase := phase))
  }

  function SetPlayer(r: RoomState, id: PlayerId, p: Player): (r': RoomState) {
    r.(state := r.state.(players := r.state.players[id := p]))
  }

  /** setEndGameAlarm: the old timer is stopped, the version grows, a new timer is armed. */
  function SetAlarm(r: RoomState): (r': RoomState) {
    r.(alarm := r.alarm.(version := r.alarm.version + 1, armed := Some(r.alarm.version + 1)))
  }

  function Emit(r: RoomState, e: Effect): (r': RoomState) {
    r.(log := r.log + [e])
  }

  function EmitLeft(r: RoomState, gone: Roster): (r': RoomState) {
    if gone == map[] then r else Emit(r, PlayersLeft(gone))
  }

  function Lose(r: RoomState, lost: set<PlayerId>): (r': RoomState) {
    r.(connections := r.connections - lost)
  }

  predicate Ready(players: Roster, id: PlayerId) {
    id in players && !players[id].disconnected && players[id].confirmed
  }

  /** allConnectedPlayersReady. */
  predicate AllReady(r: RoomState) {
    r.connections != {} && forall id :: id in r.connections ==> Ready(r.state.players, id)
  }

  function TryStart(r: RoomState): (r': RoomState) {
    if r.state.phase == Waiting && AllReady(r) then r.(startDelay := true) else r
  }

  // ---------------------------------------------------------------- starting and ending

  function StartGame(r: RoomState, env: Env): (r': RoomState) {
    if r.state.phase != Waiting then r else
    Emit(SetAlarm(r.(
      state := r.state.(phase := Counting, votes := {}, restartTimerStart := None,
                        session := Some(env.session), world := InitialWorld(env.world)),
      countdownStart := env.now)), BalloonReset(r.state.players, false))
  }

  function CountdownEnd(r: RoomState): (r': RoomState) {
    if r.state.phase != Counting then r else
    var playing := r.(state := r.state.(phase := Playing,
                                        world := r.state.world.(tick := r.state.world.tick + 1)));
    if r.state.session.Some? then Emit(playing, PlayStarted(r.state.session.value, r.hasStore)) else playing
  }

  function EndGame(r: RoomState): (r': RoomState) {
    var ended := r.(ticking := false, state := r.state.(phase := Ended, world := Grounded(r.state.world)));
    var told := if r.hasStore && r.state.session.Some?
                then Emit(ended, ResultRecorded(r.state.session.value, r.state.world.balloon.score, r.state.players))
                else ended;
    if r.connections != {} then SetAlarm(told) else SetPhase(told, Waiting)
  }

  function Connected(players: Roster): (ids: set<PlayerId>) {
    set id | id in players && !players[id].disconnected
  }

  function YesVotes(players: Roster, votes: set<PlayerId>): (n: nat) {
    |Connected(players) * votes|
  }

  function Stays(players: Roster, active: set<PlayerId>): (kept: Roster)
    ensures kept.Keys <= players.Keys
  {
    map id | id in players && id in active && !players[id].disconnected :: players[id]
  }

  function ClearStats(p: Player, now: int): (p': Player) {
    p.(score := 0, taps := 0, cooldownEnd := now, messageCount := 0, windowStart := 0, lastNicknameChange := 0)
  }

  function ClearAllStats(players: Roster, now: int): (players': Roster)
    ensures players'.Keys == players.Keys
    ensures forall id :: id in players ==> players'[id] == ClearStats(players[id], now)
  {
    map id | id in players :: ClearStats(players[id], now)
  }

  function RestartAndStart(r: RoomState, env: Env): (r': RoomState) {
    if r.state.phase != Ended then r else
    var kept := Stays(r.state.players, r.connections);
    var gone := r.state.players - kept.Keys;
    var cleared := ClearAllStats(kept, env.now);
    var swept := EmitLeft(r.(usedNames := r.usedNames - NamesOf(gone)), gone);
    if r.connections == {} then
      Emit(swept.(state := NewGame(env.world), ticking := false), BalloonReset(map[], true))
    else
      SetAlarm(Emit(swept.(
        state := NewGame(env.world).(players := cleared, nextIndex := r.state.nextIndex,
                                     phase := Counting, session := Some(env.session)),
        countdownStart := env.now), BalloonReset(cleared, true)))
  }

  function AutoRestart(r: RoomState, env: Env): (r': RoomState) {
    var pruned := r.(state := r.state.(votes := r.state.votes * Connected(r.state.players)));
    var yes := YesVotes(pruned.state.players, pruned.state.votes);
    if pruned.connections == {} then SetPhase(pruned, Waiting)
    else if 0 < yes < |Connected(pruned.state.players)| then SetAlarm(pruned)
    else RestartAndStart(Lose(pruned, env.lostLater), env)
  }

  function AutoRestartIfEnded(r: RoomState, env: Env): (r': RoomState) {
    if r.state.phase == Ended && AllReady(r) then AutoRestart(Lose(r, env.lostFirst), env) else r
  }

  // ---------------------------------------------------------------- joining and leaving

  function NewPlayer(r: RoomState, env: Env): (p: Player) {
    Player(r.state.nextIndex, Sanitize(Generate(r.usedNames, env.names)), r.state.nextIndex % 10,
           env.now, 0, 0, 0, 0, 0, false, false, None)
  }

  function AddPlayer(r: RoomState, id: PlayerId, env: Env): (r': RoomState) {
    var p := NewPlayer(r, env);
    r.(state := r.state.(players := r.state.players[id := p], nextIndex := r.state.nextIndex + 1),
       usedNames := r.usedNames + {p.nickname},
       nicknameTimers := r.nicknameTimers + {id})
  }

  /** normalizePhaseForNicknameGate. */
  function NicknameGate(r: RoomState): (r': RoomState) {
    if (r.state.phase == Counting || r.state.phase == Playing) && !AllReady(r) then
      SetPhase(r.(ticking := r.ticking && r.state.phase != Playing, alarm := r.alarm.(armed := None),
                  startDelay := false), Waiting)
    else r
  }

  function ResumeTick(r: RoomState): (r': RoomState) {
    if r.state.phase == Playing then r.(ticking := true) else r
  }

  function Reconnect(r: RoomState, id: PlayerId, env: Env): (r': RoomState)
    requires id in r.state.players
  {
    var p := r.state.players[id].(disconnected := false, disconnectedAt := None);
    var back := SetPlayer(r, id, p).(
      nicknameTimers := if p.confirmed then r.nicknameTimers else r.nicknameTimers + {id});
    match back.state.phase
    case Waiting => TryStart(back)
    case Playing => ResumeTick(back)
    case Counting => if back.ticking then back else SetAlarm(back)
    case Ended => AutoRestartIfEnded(back, env)
  }

  /** HandleJoin; a full room turns the newcomer away unchanged. */
  function HandleJoin(r: RoomState, id: PlayerId, env: Env): (r': RoomState) {
    var linked := r.(connections := r.connections + {id} - env.lostEarly);
    if id in r.state.players && r.state.players[id].disconnected then Reconnect(linked, id, env)
    else if id in r.state.players then ResumeTick(NicknameGate(linked))
    else if |r.state.players| >= r.maxPlayers then r.(connections := r.connections - {id})
    else ResumeTick(NicknameGate(AddPlayer(linked, id, env)))
  }

  function HandleDisconnect(r: RoomState, id: PlayerId, env: Env): (r': RoomState) {
    if id !in r.state.players then r else
    SetPlayer(r, id, MarkDisconnected(r.state.players[id], env.now)).(
      connections := r.connections - {id}, nicknameTimers := r.nicknameTimers - {id})
  }

  function Only(players: Roster, ids: set<PlayerId>): (some: Roster)
    ensures some.Keys == players.Keys * ids && forall id :: id in some ==> some[id] == players[id]
  {
    map id | id in players && id in ids :: players[id]
  }

  /** Players, names and votes of `ids` go; connections stay as they are. */
  function RemovePlayers(r: RoomState, ids: set<PlayerId>): (r': RoomState) {
    var gone := Only(r.state.players, ids);
    EmitLeft(r.(state := r.state.(players := r.state.players - ids, votes := r.state.votes - gone.Keys),
                usedNames := r.usedNames - NamesOf(gone)), gone)
  }

  function HandleNicknameTimeout(r: RoomState, id: PlayerId): (r': RoomState) {
    if r.closed then r else
    var cleared := r.(nicknameTimers := r.nicknameTimers - {id});
    if id !in r.state.players || r.state.players[id].confirmed then cleared
    else TryStart(RemovePlayers(cleared, {id}).(connections := r.connections - {id}))
  }

  function HandleStartDelay(r: RoomState, env: Env): (r': RoomState) {
    if r.closed then r else
    var over := r.(startDelay := false);
    if over.state.phase == Waiting && AllReady(over) then StartGame(over, env) else over
  }

  // ---------------------------------------------------------------- messages

  function RecordTap(p: Player, now: int, cooldown: nat): (p': Player) {
    if p.score >= MAX_SCORE then p
    else p.(cooldownEnd := now + cooldown, taps := p.taps + 1, score := p.score + 1)
  }

  predicate InUnitSquare(point: Option<(real, real)>) {
    point.Some? && 0.0 <= point.value.0 <= 1.0 && 0.0 <= point.value.1 <= 1.0
  }

  function HandleTap(r: RoomState, id: PlayerId, point: Option<(real, real)>, env: Env, m: Math): (r': RoomState)
    requires id in r.state.players
  {
    var p := r.state.players[id];
    if r.state.phase != Playing || env.now < p.cooldownEnd || !InUnitSquare(point) then r else
    match TapWorld(r.state.world, point.value.0, point.value.1, m)
    case None => r
    case Some(w) =>
      var scored := w.(balloon := w.balloon.(score := w.balloon.score + 1));
      Emit(SetPlayer(r.(state := r.state.(world := scored)), id, RecordTap(p, env.now, env.cooldown)),
           TapAccepted(id, p.score >= MAX_SCORE))
  }

  function Confirm(r: RoomState, id: PlayerId, p: Player, env: Env): (r': RoomState) {
    AutoRestartIfEnded(
      TryStart(SetPlayer(r, id, p.(confirmed := true)).(nicknameTimers := r.nicknameTimers - {id})), env)
  }

  /** DecodeNicknamePayload: a length byte and that many bytes, which need not be valid UTF-8. */
  function NicknameText(payload: seq<byte>): (text: Option<seq<byte>>) {
    if |payload| < 1 || payload[0] == 0 || |payload| < 1 + payload[0] as int then None
    else Some(payload[1..1 + payload[0] as int])
  }

  /** The nickname a message asks for. */
  function Typed(payload: seq<byte>): (text: Option<Name>) {
    if NicknameText(payload).None? then None else Some(Read(NicknameText(payload).value))
  }

  /** HandleSetNickname: the stored name, or None when the change is refused. */
  function ChosenName(p: Player, sanitized: Name, used: set<Name>, env: Env): (n: Option<Name>) {
    if p.lastNicknameChange != 0 && env.now - p.lastNicknameChange < NICKNAME_COOLDOWN_MS then None else
    match NewNickname(sanitized)
    case None => None
    case Some(n) =>
      if n == p.nickname then None
      else if n in used then Some(Generate(used, env.names))
      else Some(n)
  }

  function HandleSetNickname(r: RoomState, id: PlayerId, text: Option<Name>, env: Env): (r': RoomState)
    requires id in r.state.players
  {
    var p := r.state.players[id];
    var sanitized := if text.Some? then Sanitize(text.value) else [];
    if sanitized == [] then r
    else if sanitized == p.nickname then Confirm(r, id, p, env)
    else if sanitized in r.usedNames then r
    else match ChosenName(p, sanitized, r.usedNames, env)
    case None => r
    case Some(n) =>
      Confirm(r.(usedNames := r.usedNames - {p.nickname} + {n}), id,
              p.(nickname := n, lastNicknameChange := env.now), env)
  }

  function HandleRestartVote(r: RoomState, id: PlayerId, env: Env): (r': RoomState) {
    if r.state.phase != Ended then r else
    var voted := r.(state := r.state.(votes := r.state.votes + {id}));
    var connected := |Connected(voted.state.players)|;
    if YesVotes(voted.state.players, voted.state.votes) >= connected > 0 then RestartAndStart(voted, env)
    else if voted.state.restartTimerStart.None? then
      SetAlarm(voted.(state := voted.state.(restartTimerStart := Some(env.now))))
    else voted
  }

  /** The record after enforceRateLimit has counted one message. */
  function CountMessage(p: Player, now: int): (p': Player) {
    if now - p.windowStart > MESSAGE_WINDOW_MS then p.(messageCount := 1, windowStart := now)
    else p.(messageCount := p.messageCount + 1)
  }

  function Dispatch(r: RoomState, id: PlayerId, message: Message, env: Env, m: Math): (r': RoomState)
    requires id in r.state.players
  {
    match message
    case Tap(point) => HandleTap(r, id, point, env, m)
    case SetNickname(payload) => HandleSetNickname(r, id, Typed(payload), env)
    case RestartVote => HandleRestartVote(r, id, env)
    case Ping => r
    case Unknown => r
  }

  function HandleMessage(r: RoomState, id: PlayerId, message: Message, env: Env, m: Math): (r': RoomState) {
    if id !in r.state.players then r else
    var p := CountMessage(r.state.players[id], env.now);
    if p.messageCount > MESSAGE_RATE_LIMIT then
      SetPlayer(r, id, MarkDisconnected(p, env.now)).(connections := r.connections - {id})
    else Dispatch(Emit(SetPlayer(r, id, p), Dispatched(id, env.now)), id, message, env, m)
  }

  // ---------------------------------------------------------------- ticks and slow clients

  predicate GraceOver(p: Player, now: int) {
    p.disconnected && p.disconnectedAt.Some? && now - p.disconnectedAt.value > RECONNECT_GRACE_MS
  }

  function Expired(players: Roster, now: int): (ids: set<PlayerId>) {
    set id | id in players && GraceOver(players[id], now)
  }

  function HandleTick(r: RoomState, env: Env, m: Math): (r': RoomState) {
    var swept := RemovePlayers(r, Expired(r.state.players, env.now));
    if swept.state.phase != Playing then swept
    else if |swept.state.players| == 0 || swept.connections == {} then swept.(ticking := false)
    else
      var flown := TickWorld(swept.state.world, env.tick, m);
      var moved := swept.(state := swept.state.(world := flown.0));
      if flown.1 == Flying then moved else EndGame(Lose(moved, env.lostFirst))
  }

  function MarkSome(players: Roster, ids: set<PlayerId>, now: int): (players': Roster)
    ensures players'.Keys == players.Keys
    ensures forall id :: id in players ==>
              players'[id] == if id in ids then MarkDisconnected(players[id], now) else players[id]
  {
    map id | id in players :: if id in ids then MarkDisconnected(players[id], now) else players[id]
  }

  /** RemovePendingDisconnects with r.mu held. */
  function DropSlowClients(r: RoomState, flagged: set<PlayerId>, now: int): (r': RoomState) {
    var dropped := r.connections * flagged;
    r.(state := r.state.(players := MarkSome(r.state.players, dropped, now)),
       connections := r.connections - dropped)
  }

  // ---------------------------------------------------------------- the alarm callback

  function AlarmExpires(r: RoomState): (r': RoomState) {
    match r.alarm.armed
    case None => r
    case Some(v) => r.(alarm := r.alarm.(armed := None, fired := r.alarm.fired + {v}))
  }

  function AlarmCheck(r: RoomState, version: nat): (r': RoomState) {
    if version !in r.alarm.fired then r else
    var a := r.alarm.(fired := r.alarm.fired - {version});
    if version == r.alarm.version && !r.closed && (r.state.phase == Counting || r.state.phase == Ended)
    then r.(alarm := a.(checked := a.checked[version := r.state.phase]))
    else r.(alarm := a)
  }

  function AlarmAct(r: RoomState, version: nat, env: Env): (r': RoomState) {
    if version !in r.alarm.checked then r else
    var done := r.(alarm := r.alarm.(checked := r.alarm.checked - {version}));
    if r.alarm.checked[version] == Counting then CountdownEnd(done) else AutoRestart(done, env)
  }

  // ---------------------------------------------------------------- the ticker and closing

  /** The two operations that release r.mu half-way to wait for the tick goroutine. */
  datatype Interlude = RestartTick | Closing

  function Begun(r: RoomState, what: Interlude): (r': RoomState) {
    match what
    case RestartTick => r.(ticking := !r.ticking)
    case Closing => r.(closed := true, ticking := false, nicknameTimers := {})
  }

  function Finished(r: RoomState, what: Interlude): (r': RoomState) {
    match what
    case RestartTick => r.(ticking := true)
    case Closing =>
      if r.closed then r.(alarm := r.alarm.(armed := None), startDelay := false, connections := {}) else r
  }

  // ---------------------------------------------------------------- the machine

  function Next(r: RoomState, step: Step, m: Math): (r': RoomState) {
    var env := step.env;
    match step.action
    case Join(id) => HandleJoin(r, id, env)
    case Leave(id) => HandleDisconnect(r, id, env)
    case Say(id, message) => HandleMessage(r, id, message, env, m)
    case Tick => HandleTick(r, env, m)
    case NicknameTimeout(id) => HandleNicknameTimeout(r, id)
    case StartDelayOver => HandleStartDelay(r, env)
    case AlarmFires => AlarmExpires(r)
    case AlarmChecks(v) => AlarmCheck(r, v)
    case AlarmActs(v) => AlarmAct(r, v, env)
    case DropSlow(flagged) => DropSlowClients(r, flagged, env.now)
    case DropSlowUnlocked(flagged) => Lose(r, flagged)
    case RestartTickBegin => Begun(r, RestartTick)
    case RestartTickFinish => Finished(r, RestartTick)
    case CloseBegin => Begun(r, Closing)
    case CloseFinish => Finished(r, Closing)
  }

  /** The room after a run of steps. */
  function Run(r: RoomState, steps: seq<Step>, m: Math): (r': RoomState)
    decreases |steps|
  {
    if steps == [] then r else Run(Next(r, steps[0], m), steps[1..], m)
  }
}
