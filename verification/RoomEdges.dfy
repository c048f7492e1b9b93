/**
 Where phases leave the documented cycle waiting, countdown, playing, ended, waiting: the exact
 guards, for every step of every room, and reachable rooms that take each of the other edges.
 */
module RoomEdges {
  import opened Prelude
  import opened Physics
  import opened RoomModel
  import opened RoomFlow
  import GoStrings

  /** Edges the cycle does not have. */
  predicate OffCycle(from: Phase, to: Phase) {
    || (from == Counting && to == Waiting)
    || (from == Playing && to == Waiting)
    || (from == Ended && to == Counting)
  }

  // ---------------------------------------------------------------- the guards

  function Linked(r: RoomState, id: PlayerId, env: Env): (r': RoomState) {
    r.(connections := r.connections + {id} - env.lostEarly)
  }

  /** The room in which a join looks at everybody's readiness. */
  function SeatTaken(r: RoomState, id: PlayerId, env: Env): (r': RoomState) {
    if id in r.state.players then Linked(r, id, env) else AddPlayer(Linked(r, id, env), id, env)
  }

  predicate Returns(r: RoomState, id: PlayerId) {
    id in r.state.players && r.state.players[id].disconnected
  }

  predicate TurnedAway(r: RoomState, id: PlayerId) {
    id !in r.state.players && |r.state.players| >= r.maxPlayers
  }

  /** A join that is neither a return nor turned away finds somebody connected who is not ready. */
  predicate Gates(r: RoomState, id: PlayerId, env: Env) {
    && (r.state.phase == Counting || r.state.phase == Playing)
    && !Returns(r, id) && !TurnedAway(r, id) && !AllReady(SeatTaken(r, id, env))
  }

  /** A tick crashes the balloon and by then nobody is connected any more. */
  predicate Strands(r: RoomState, env: Env, m: Math) {
    var swept := RemovePlayers(r, Expired(r.state.players, env.now));
    && r.state.phase == Playing && |swept.state.players| > 0 && r.connections != {}
    && TickWorld(r.state.world, env.tick, m).1 != Flying && r.connections <= env.lostFirst
  }

  /** Some but not all connected players have voted. */
  predicate Split(g: GameState) {
    0 < YesVotes(g.players, g.votes) < |Connected(g.players)|
  }

  /** handleAutoRestart finds connections, no split vote, and connections again. */
  predicate AutoRestarts(r: RoomState, env: Env) {
    r.state.phase == Ended && r.connections != {} && !Split(r.state) && !(r.connections <= env.lostLater)
  }

  predicate ReadyRestarts(r: RoomState, env: Env) {
    r.state.phase == Ended && AllReady(r) && AutoRestarts(Lose(r, env.lostFirst), env)
  }

  /** The room after a returning player was linked and marked connected. */
  function Back(r: RoomState, id: PlayerId, env: Env): (r': RoomState)
    requires id in r.state.players
  {
    var p := r.state.players[id].(disconnected := false, disconnectedAt := None);
    SetPlayer(Linked(r, id, env), id, p).(
      nicknameTimers := if p.confirmed then r.nicknameTimers else r.nicknameTimers + {id})
  }

  predicate Heard(r: RoomState, id: PlayerId, now: int) {
    id in r.state.players && CountMessage(r.state.players[id], now).messageCount <= MESSAGE_RATE_LIMIT
  }

  function Hearing(r: RoomState, id: PlayerId, now: int): (r': RoomState)
    requires id in r.state.players
  {
    Emit(SetPlayer(r, id, CountMessage(r.state.players[id], now)), Dispatched(id, now))
  }

  predicate VoteRestarts(r: RoomState, id: PlayerId) {
    r.state.phase == Ended && Connected(r.state.players) != {} && Connected(r.state.players) <= r.state.votes + {id} &&
    r.connections != {}
  }

  function Confirmed(r: RoomState, id: PlayerId, p: Player): (r': RoomState) {
    SetPlayer(r, id, p.(confirmed := true)).(nicknameTimers := r.nicknameTimers - {id})
  }

  /** The room after a nickname message was accepted, before it looks at everybody's readiness. */
  function Named(r: RoomState, id: PlayerId, text: Option<GoStrings.Name>, env: Env): (r': Option<RoomState>)
    requires id in r.state.players
  {
    var p := r.state.players[id];
    var sanitized := if text.Some? then Nicknames.Sanitize(text.value) else [];
    if sanitized == [] then None
    else if sanitized == p.nickname then Some(Confirmed(r, id, p))
    else if sanitized in r.usedNames then None
    else match ChosenName(p, sanitized, r.usedNames, env)
    case None => None
    case Some(n) =>
      Some(Confirmed(r.(usedNames := r.usedNames - {p.nickname} + {n}), id,
                     p.(nickname := n, lastNicknameChange := env.now)))
  }

  predicate NameRestarts(r: RoomState, id: PlayerId, text: Option<GoStrings.Name>, env: Env)
    requires id in r.state.players
  {
    Named(r, id, text, env).Some? && ReadyRestarts(Named(r, id, text, env).value, env)
  }

  /** A callback is past its check, and not for a countdown. */
  predicate Called(r: RoomState, version: nat) {
    version in r.alarm.checked && r.alarm.checked[version] != Counting
  }

  /** The guards under which a step leaves the cycle. */
  predicate LeavesCycle(r: RoomState, step: Step, m: Math) {
    var env := step.env;
    match step.action
    case Join(id) => Gates(r, id, env) || (Returns(r, id) && ReadyRestarts(Back(r, id, env), env))
    case Tick => Strands(r, env, m)
    case AlarmActs(v) =>
      && Called(r, v)
      && (AutoRestarts(r, env) || (r.connections == {} && (r.state.phase == Counting || r.state.phase == Playing)))
    case Say(id, message) =>
      && Heard(r, id, env.now)
      && (match message
          case RestartVote => VoteRestarts(Hearing(r, id, env.now), id)
          case SetNickname(payload) => NameRestarts(Hearing(r, id, env.now), id, Typed(payload), env)
          case _ => false)
    case _ => false
  }

  // ---------------------------------------------------------------- sections

  lemma RestartPhase(r: RoomState, env: Env)
    ensures RestartAndStart(r, env).state.phase ==
            if r.state.phase != Ended then r.state.phase else if r.connections == {} then Waiting else Counting
  {
    hide RestartAndStart;
    RestartShape(r, env);
  }

  /** Votes of players who are gone do not count, so pruning them changes no count. */
  lemma PrunedVotes(r: RoomState)
    ensures YesVotes(r.state.players, r.state.votes * Connected(r.state.players)) ==
            YesVotes(r.state.players, r.state.votes)
  {
    var c := Connected(r.state.players);
    assert c * (r.state.votes * c) == c * r.state.votes;
  }

  lemma AutoRestartPhase(r: RoomState, env: Env)
    ensures AutoRestart(r, env).state.phase ==
            if r.connections == {} then Waiting
            else if r.state.phase != Ended || Split(r.state) then r.state.phase
            else if AutoRestarts(r, env) then Counting else Waiting
  {
    hide RestartAndStart, Connected, YesVotes;
    PrunedVotes(r);
    var pruned := r.(state := r.state.(votes := r.state.votes * Connected(r.state.players)));
    RestartPhase(Lose(pruned, env.lostLater), env);
    LostAll(r.connections, env.lostLater);
  }

  lemma LostAll<T>(all: set<T>, lost: set<T>)
    ensures all - lost == {} <==> all <= lost
  {
    if !(all <= lost) {
      var x :| x in all && x !in lost;
      assert x in all - lost;
    }
  }

  lemma ReadyPhase(r: RoomState, env: Env)
    ensures r.state.phase != Ended ==> AutoRestartIfEnded(r, env).state.phase == r.state.phase
    ensures r.state.phase == Ended ==> (AutoRestartIfEnded(r, env).state.phase == Counting <==> ReadyRestarts(r, env))
  {
    hide AutoRestart, AllReady, Connected, YesVotes;
    AutoRestartPhase(Lose(r, env.lostFirst), env);
  }

  lemma ReturnPhase(r: RoomState, id: PlayerId, env: Env)
    requires Returns(r, id)
    ensures var to := HandleJoin(r, id, env).state.phase;
            && (r.state.phase != Ended ==> to == r.state.phase)
            && (r.state.phase == Ended ==> (to == Counting <==> ReadyRestarts(Back(r, id, env), env)))
  {
    hide AutoRestartIfEnded, AllReady, ReadyRestarts;
    ReadyPhase(Back(r, id, env), env);
  }

  lemma GatePhase(r: RoomState)
    ensures ResumeTick(NicknameGate(r)).state.phase ==
            if (r.state.phase == Counting || r.state.phase == Playing) && !AllReady(r) then Waiting else r.state.phase
  {
    hide AllReady;
  }

  lemma JoinPhase(r: RoomState, id: PlayerId, env: Env)
    ensures OffCycle(r.state.phase, HandleJoin(r, id, env).state.phase) <==>
            Gates(r, id, env) || (Returns(r, id) && ReadyRestarts(Back(r, id, env), env))
  {
    hide Reconnect, NicknameGate, ResumeTick, AllReady, NewPlayer, ReadyRestarts;
    if Returns(r, id) {
      ReturnPhase(r, id, env);
      ReadyOnlyEnded(Back(r, id, env), env);
    } else {
      GatePhase(SeatTaken(r, id, env));
    }
  }

  lemma ReadyOnlyEnded(r: RoomState, env: Env)
    ensures ReadyRestarts(r, env) ==> r.state.phase == Ended
  {
  }

  lemma TickPhase(r: RoomState, env: Env, m: Math)
    ensures OffCycle(r.state.phase, HandleTick(r, env, m).state.phase) <==> Strands(r, env, m)
  {
    hide TickWorld, Expired, RemovePlayers, EndGame;
    var swept := RemovePlayers(r, Expired(r.state.players, env.now));
    SweepFrame(r, Expired(r.state.players, env.now));
    LostAll(r.connections, env.lostFirst);
    var moved := swept.(state := swept.state.(world := TickWorld(swept.state.world, env.tick, m).0));
    EndPhase(Lose(moved, env.lostFirst));
  }

  lemma SweepFrame(r: RoomState, ids: set<PlayerId>)
    ensures var swept := RemovePlayers(r, ids);
            && swept.state.phase == r.state.phase && swept.connections == r.connections
            && swept.state.world == r.state.world && swept.closed == r.closed && swept.alarm == r.alarm
  {
    hide NamesOf, Only;
  }

  lemma EndPhase(r: RoomState)
    ensures EndGame(r).state.phase == if r.connections == {} then Waiting else Ended
  {
    hide Grounded;
  }

  lemma AlarmPhase(r: RoomState, v: nat, env: Env)
    ensures OffCycle(r.state.phase, AlarmAct(r, v, env).state.phase) <==>
            && Called(r, v)
            && (AutoRestarts(r, env) || (r.connections == {} &&
                (r.state.phase == Counting || r.state.phase == Playing)))
  {
    hide AutoRestart, Connected, YesVotes;
    AutoRestartPhase(r.(alarm := r.alarm.(checked := r.alarm.checked - {v})), env);
  }

  lemma NicknamePhase(r: RoomState, id: PlayerId, text: Option<GoStrings.Name>, env: Env)
    requires id in r.state.players
    ensures var to := HandleSetNickname(r, id, text, env).state.phase;
            && (r.state.phase != Ended ==> to == r.state.phase)
            && (r.state.phase == Ended ==> (to == Counting <==> NameRestarts(r, id, text, env)))
  {
    hide AutoRestartIfEnded, AllReady, ReadyRestarts, ChosenName, Nicknames.Sanitize;
    var named := Named(r, id, text, env);
    if named.Some? {
      ReadyPhase(TryStart(named.value), env);
    }
  }

  lemma VotePhase(r: RoomState, id: PlayerId, env: Env)
    ensures var to := HandleRestartVote(r, id, env).state.phase;
            && (r.state.phase != Ended ==> to == r.state.phase)
            && (r.state.phase == Ended ==> (to == Counting <==> VoteRestarts(r, id)))
  {
    hide RestartAndStart, Connected;
    AllCounted(Connected(r.state.players), r.state.votes + {id});
    RestartPhase(r.(state := r.state.(votes := r.state.votes + {id})), env);
  }

  lemma SayPhase(r: RoomState, id: PlayerId, message: Message, env: Env, m: Math)
    ensures OffCycle(r.state.phase, HandleMessage(r, id, message, env, m).state.phase) <==>
            && Heard(r, id, env.now)
            && (match message
                case RestartVote => VoteRestarts(Hearing(r, id, env.now), id)
                case SetNickname(payload) => NameRestarts(Hearing(r, id, env.now), id, Typed(payload), env)
                case _ => false)
  {
    hide HandleSetNickname, HandleRestartVote, CountMessage, VoteRestarts, NameRestarts, TapWorld, RecordTap,
         InUnitSquare,
         Typed, MarkDisconnected;
    if Heard(r, id, env.now) {
      var heard := Hearing(r, id, env.now);
      match message {
        case RestartVote =>
          VotePhase(heard, id, env);
          VoteOnlyEnded(heard, id);
        case SetNickname(payload) =>
          NicknamePhase(heard, id, Typed(payload), env);
          NameOnlyEnded(heard, id, Typed(payload), env);
        case _ =>
      }
    }
  }

  lemma VoteOnlyEnded(r: RoomState, id: PlayerId)
    ensures VoteRestarts(r, id) ==> r.state.phase == Ended
  {
  }

  lemma NameOnlyEnded(r: RoomState, id: PlayerId, text: Option<GoStrings.Name>, env: Env)
    requires id in r.state.players
    ensures NameRestarts(r, id, text, env) ==> r.state.phase == Ended
  {
    hide AllReady, ChosenName, Nicknames.Sanitize, AutoRestarts;
  }

  lemma OtherPhase(r: RoomState, step: Step, m: Math)
    requires !step.action.Join? && !step.action.Tick? && !step.action.AlarmActs? && !step.action.Say?
    ensures !OffCycle(r.state.phase, Next(r, step, m).state.phase)
  {
    hide HandleJoin, HandleTick, HandleMessage, AlarmAct, AllReady, RemovePlayers, InitialWorld, MarkSome,
         MarkDisconnected;
    if step.action.NicknameTimeout? {
      SweepFrame(r.(nicknameTimers := r.nicknameTimers - {step.action.player}), {step.action.player});
    }
  }

  /** Every step of every room: it leaves the documented cycle exactly under these guards. */
  lemma LeavesCycleIff(r: RoomState, step: Step, m: Math)
    ensures OffCycle(r.state.phase, Next(r, step, m).state.phase) <==> LeavesCycle(r, step, m)
  {
    hide HandleJoin, HandleTick, HandleMessage, AlarmAct, Gates, Returns, ReadyRestarts, Strands, Called, AutoRestarts,
         Heard, VoteRestarts, NameRestarts, Back, Hearing;
    var env := step.env;
    match step.action {
      case Join(id) => JoinPhase(r, id, env);
      case Tick => TickPhase(r, env, m);
      case AlarmActs(v) => AlarmPhase(r, v, env);
      case Say(id, message) => SayPhase(r, id, message, env, m);
      case _ => OtherPhase(r, step, m);
    }
  }
}
