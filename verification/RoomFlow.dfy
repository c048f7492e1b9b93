/**
 Phases, alarms and sessions over whole runs of a room: the phase never gets stuck, it moves
 only along documented edges, and every session starts and is recorded at most once.
 */
module RoomFlow {
  import opened Prelude
  import opened Physics
  import opened RoomModel
  import GoStrings
  import NameGenerator
  import Nicknames
  import opened RoomInvariants

  // ---------------------------------------------------------------- what is claimed

  /**
   In countdown and ended an alarm of the current version is armed, or has fired and awaits
   its version check, or is past that check having read this very phase.
   */
  ghost predicate NotStuck(phase: Phase, a: Alarm) {
    phase == Counting || phase == Ended ==>
      || a.armed == Some(a.version)
      || a.version in a.fired
      || (a.version in a.checked && a.checked[a.version] == phase)
  }

  /** The phase changes one section can make. */
  predicate Edge(from: Phase, to: Phase) {
    || to == from
    || to == Waiting
    || (to == Counting && (from == Waiting || from == Ended))
    || (to == Playing && from == Counting)
    || (to == Ended && from == Playing)
  }

  ghost predicate Starts(e: Effect, s: SessionId) {
    e.PlayStarted? && e.session == s
  }

  ghost predicate Records(e: Effect, s: SessionId) {
    e.ResultRecorded? && e.session == s
  }

  /** No two log entries start, and no two record, the same session. */
  ghost predicate OncePerSession(log: seq<Effect>) {
    forall i, j, s :: 0 <= i < j < |log| ==>
      !(Starts(log[i], s) && Starts(log[j], s)) && !(Records(log[i], s) && Records(log[j], s))
  }

  ghost predicate NeverStarted(log: seq<Effect>, s: SessionId) {
    forall i :: 0 <= i < |log| ==> !Starts(log[i], s)
  }

  ghost predicate NeverRecorded(log: seq<Effect>, s: SessionId) {
    forall i :: 0 <= i < |log| ==> !Records(log[i], s)
  }

  /** A session in countdown is unused, one in play is unrecorded, and only issued IDs occur. */
  ghost predicate SessionsOk(log: seq<Effect>, phase: Phase, session: Option<SessionId>, issued: set<SessionId>) {
    && OncePerSession(log)
    && (forall s :: s !in issued ==> NeverStarted(log, s) && NeverRecorded(log, s))
    && (session.Some? ==> session.value in issued)
    && (session.Some? && phase == Counting ==> NeverStarted(log, session.value))
    && (session.Some? && (phase == Counting || phase == Playing) ==> NeverRecorded(log, session.value))
  }

  /** What one section, given an unissued ID, does to phase, alarm and session log. */
  ghost predicate Flows(r: RoomState, r': RoomState, issued: set<SessionId>, unused: SessionId) {
    && Edge(r.state.phase, r'.state.phase)
    && (r.closed ==> r'.closed)
    && (NotStuck(r.state.phase, r.alarm) && !r'.closed ==> NotStuck(r'.state.phase, r'.alarm))
    && (SessionsOk(r.log, r.state.phase, r.state.session, issued) ==>
          SessionsOk(r'.log, r'.state.phase, r'.state.session, issued + {unused}))
  }

  // ---------------------------------------------------------------- the session log

  lemma MoreIssued(log: seq<Effect>, phase: Phase, session: Option<SessionId>, issued: set<SessionId>,
                   unused: SessionId)
    requires SessionsOk(log, phase, session, issued)
    ensures SessionsOk(log, phase, session, issued + {unused})
  {
  }

  lemma Quieter(log: seq<Effect>, phase: Phase, to: Phase, session: Option<SessionId>, issued: set<SessionId>)
    requires SessionsOk(log, phase, session, issued)
    requires to == Waiting || to == phase
    ensures SessionsOk(log, to, session, issued) && SessionsOk(log, to, None, issued)
  {
  }

  lemma AppendOther(log: seq<Effect>, e: Effect, phase: Phase, session: Option<SessionId>, issued: set<SessionId>)
    requires SessionsOk(log, phase, session, issued) && !e.PlayStarted? && !e.ResultRecorded?
    ensures SessionsOk(log + [e], phase, session, issued)
  {
  }

  lemma BeginSession(log: seq<Effect>, phase: Phase, session: Option<SessionId>, issued: set<SessionId>,
                     unused: SessionId)
    requires SessionsOk(log, phase, session, issued) && unused !in issued
    ensures SessionsOk(log, Counting, Some(unused), issued + {unused})
  {
  }

  lemma AppendStart(log: seq<Effect>, s: SessionId, stored: bool, issued: set<SessionId>)
    requires SessionsOk(log, Counting, Some(s), issued)
    ensures SessionsOk(log + [PlayStarted(s, stored)], Playing, Some(s), issued)
  {
    var log' := log + [PlayStarted(s, stored)];
    forall i, j, t | 0 <= i < j < |log'|
      ensures !(Starts(log'[i], t) && Starts(log'[j], t)) && !(Records(log'[i], t) && Records(log'[j], t))
    {
    }
  }

  lemma AppendResult(log: seq<Effect>, s: SessionId, score: nat, rows: Roster, issued: set<SessionId>)
    requires SessionsOk(log, Playing, Some(s), issued)
    ensures SessionsOk(log + [ResultRecorded(s, score, rows)], Ended, Some(s), issued)
  {
  }

  // ---------------------------------------------------------------- sections

  lemma Unmoved(r: RoomState, r': RoomState, issued: set<SessionId>, unused: SessionId)
    requires r'.state.phase == r.state.phase && r'.state.session == r.state.session && r'.log == r.log
    requires r'.alarm == r.alarm || r'.alarm.armed == Some(r'.alarm.version) || r'.closed
    requires r.closed ==> r'.closed
    ensures Flows(r, r', issued, unused)
  {
    hide SessionsOk;
    if SessionsOk(r.log, r.state.phase, r.state.session, issued) {
      MoreIssued(r.log, r.state.phase, r.state.session, issued, unused);
    }
  }

  lemma StartGameFlows(r: RoomState, env: Env, issued: set<SessionId>)
    requires env.session !in issued
    ensures Flows(r, StartGame(r, env), issued, env.session)
  {
    hide SessionsOk, InitialWorld;
    if SessionsOk(r.log, r.state.phase, r.state.session, issued) {
      MoreIssued(r.log, r.state.phase, r.state.session, issued, env.session);
      BeginSession(r.log, r.state.phase, r.state.session, issued, env.session);
      AppendOther(r.log, BalloonReset(r.state.players, false), Counting, Some(env.session), issued + {env.session});
    }
  }

  lemma CountdownEndFlows(r: RoomState, issued: set<SessionId>, unused: SessionId)
    ensures Flows(r, CountdownEnd(r), issued, unused)
  {
    hide SessionsOk;
    var session := r.state.session;
    if SessionsOk(r.log, r.state.phase, session, issued) {
      MoreIssued(r.log, r.state.phase, session, issued, unused);
      if r.state.phase == Counting {
        if session.Some? {
          AppendStart(r.log, session.value, r.hasStore, issued + {unused});
        }
        CountingToPlaying(r.log, session, issued + {unused});
      }
    }
  }

  lemma CountingToPlaying(log: seq<Effect>, session: Option<SessionId>, issued: set<SessionId>)
    requires SessionsOk(log, Counting, session, issued)
    ensures SessionsOk(log, Playing, session, issued)
  {
  }

  lemma PlayingToEnded(log: seq<Effect>, session: Option<SessionId>, issued: set<SessionId>)
    requires SessionsOk(log, Playing, session, issued)
    ensures SessionsOk(log, Ended, session, issued)
  {
  }

  lemma EndGameFlows(r: RoomState, issued: set<SessionId>, unused: SessionId)
    requires r.state.phase == Playing
    ensures Flows(r, EndGame(r), issued, unused)
  {
    hide SessionsOk, Grounded;
    var session, score, rows := r.state.session, r.state.world.balloon.score, r.state.players;
    if SessionsOk(r.log, Playing, session, issued) {
      MoreIssued(r.log, Playing, session, issued, unused);
      var log' := EndGame(r).log;
      if session.Some? && r.hasStore {
        AppendResult(r.log, session.value, score, rows, issued + {unused});
      } else {
        PlayingToEnded(r.log, session, issued + {unused});
      }
      Quieter(log', Ended, Waiting, session, issued + {unused});
    }
  }

  /** After an ended game the log is ready for a new session, or for none. */
  lemma FreshSession(log: seq<Effect>, session: Option<SessionId>, issued: set<SessionId>, unused: SessionId,
                     roster: Roster)
    requires SessionsOk(log, Ended, session, issued) && unused !in issued
    ensures SessionsOk(log + [BalloonReset(roster, true)], Counting, Some(unused), issued + {unused})
    ensures SessionsOk(log + [BalloonReset(map[], true)], Waiting, None, issued + {unused})
  {
    hide SessionsOk;
    var issued' := issued + {unused};
    BeginSession(log, Ended, session, issued, unused);
    AppendOther(log, BalloonReset(roster, true), Counting, Some(unused), issued');
    MoreIssued(log, Ended, session, issued, unused);
    Quieter(log, Ended, Waiting, session, issued');
    AppendOther(log, BalloonReset(map[], true), Waiting, None, issued');
  }

  lemma RestartFlows(r: RoomState, env: Env, issued: set<SessionId>)
    requires env.session !in issued
    ensures Flows(r, RestartAndStart(r, env), issued, env.session)
  {
    hide SessionsOk, RestartAndStart;
    RestartShape(r, env);
    if SessionsOk(r.log, r.state.phase, r.state.session, issued) {
      MoreIssued(r.log, r.state.phase, r.state.session, issued, env.session);
      if r.state.phase == Ended {
        var kept := Stays(r.state.players, r.connections);
        var gone := r.state.players - kept.Keys;
        AppendOther(r.log, PlayersLeft(gone), Ended, r.state.session, issued);
        FreshSession(EmitLeft(r, gone).log, r.state.session, issued, env.session, ClearAllStats(kept, env.now));
      }
    }
  }

  /** What a restart does to phase, session, log and alarm. */
  lemma RestartShape(r: RoomState, env: Env)
    ensures var r' := RestartAndStart(r, env);
            var kept := Stays(r.state.players, r.connections);
            var swept := EmitLeft(r, r.state.players - kept.Keys).log;
            && r'.closed == r.closed
            && (if r.state.phase != Ended then r' == r
                else if r.connections == {} then
                  r'.state.phase == Waiting && r'.state.session.None? && r'.log == swept + [BalloonReset(map[], true)]
                else
                  && r'.state.phase == Counting && r'.state.session == Some(env.session)
                  && r'.log == swept + [BalloonReset(ClearAllStats(kept, env.now), true)]
                  && r'.alarm.armed == Some(r'.alarm.version))
  {
    hide InitialWorld, Stays, ClearAllStats, NamesOf;
  }

  lemma AutoRestartFlows(r: RoomState, env: Env, issued: set<SessionId>)
    requires env.session !in issued
    ensures Flows(r, AutoRestart(r, env), issued, env.session)
  {
    hide SessionsOk, RestartAndStart, Connected, YesVotes;
    var pruned := r.(state := r.state.(votes := r.state.votes * Connected(r.state.players)));
    RestartFlows(Lose(pruned, env.lostLater), env, issued);
    Unmoved(r, SetAlarm(pruned), issued, env.session);
    if SessionsOk(r.log, r.state.phase, r.state.session, issued) {
      MoreIssued(r.log, r.state.phase, r.state.session, issued, env.session);
      Quieter(r.log, r.state.phase, Waiting, r.state.session, issued + {env.session});
    }
  }

  lemma AutoRestartIfEndedFlows(r: RoomState, env: Env, issued: set<SessionId>)
    requires env.session !in issued
    ensures Flows(r, AutoRestartIfEnded(r, env), issued, env.session)
  {
    hide SessionsOk, AutoRestart, AllReady;
    AutoRestartFlows(Lose(r, env.lostFirst), env, issued);
    Unmoved(r, r, issued, env.session);
  }

  lemma GateFlows(r: RoomState, issued: set<SessionId>, unused: SessionId)
    ensures Flows(r, ResumeTick(NicknameGate(r)), issued, unused)
  {
    hide SessionsOk, AllReady;
    if SessionsOk(r.log, r.state.phase, r.state.session, issued) {
      MoreIssued(r.log, r.state.phase, r.state.session, issued, unused);
      Quieter(r.log, r.state.phase, Waiting, r.state.session, issued + {unused});
    }
  }

  lemma ReconnectFlows(r: RoomState, id: PlayerId, env: Env, issued: set<SessionId>)
    requires id in r.state.players && env.session !in issued
    ensures Flows(r, Reconnect(r, id, env), issued, env.session)
  {
    hide SessionsOk, AllReady, AutoRestartIfEnded;
    var p := r.state.players[id].(disconnected := false, disconnectedAt := None);
    var back := SetPlayer(r, id, p).(
      nicknameTimers := if p.confirmed then r.nicknameTimers else r.nicknameTimers + {id});
    if r.state.phase == Ended {
      AutoRestartIfEndedFlows(back, env, issued);
    } else {
      Unmoved(r, Reconnect(r, id, env), issued, env.session);
    }
  }

  lemma JoinFlows(r: RoomState, id: PlayerId, env: Env, issued: set<SessionId>)
    requires env.session !in issued
    ensures Flows(r, HandleJoin(r, id, env), issued, env.session)
  {
    hide SessionsOk, Reconnect, NicknameGate, ResumeTick, NewPlayer;
    var linked := r.(connections := r.connections + {id} - env.lostEarly);
    if id in r.state.players {
      ReconnectFlows(linked, id, env, issued);
      GateFlows(linked, issued, env.session);
    } else {
      GateFlows(AddPlayer(linked, id, env), issued, env.session);
      Unmoved(r, r.(connections := r.connections - {id}), issued, env.session);
    }
  }

  /** Removing players adds at most a PlayersLeft entry. */
  lemma RemovePlayersFlows(r: RoomState, ids: set<PlayerId>, issued: set<SessionId>, unused: SessionId)
    ensures Flows(r, RemovePlayers(r, ids), issued, unused)
    ensures RemovePlayers(r, ids).state.phase == r.state.phase && RemovePlayers(r, ids).alarm == r.alarm
  {
    hide SessionsOk, NamesOf;
    var gone := Only(r.state.players, ids);
    if SessionsOk(r.log, r.state.phase, r.state.session, issued) {
      AppendOther(r.log, PlayersLeft(gone), r.state.phase, r.state.session, issued);
      MoreIssued(RemovePlayers(r, ids).log, r.state.phase, r.state.session, issued, unused);
    }
  }

  lemma ConfirmFlows(r: RoomState, id: PlayerId, p: Player, env: Env, issued: set<SessionId>)
    requires env.session !in issued
    ensures Flows(r, Confirm(r, id, p, env), issued, env.session)
  {
    hide SessionsOk, AllReady, AutoRestartIfEnded;
    AutoRestartIfEndedFlows(
      TryStart(SetPlayer(r, id, p.(confirmed := true)).(nicknameTimers := r.nicknameTimers - {id})), env, issued);
  }

  lemma TapFlows(r: RoomState, id: PlayerId, point: Option<(real, real)>, env: Env, m: Math, issued: set<SessionId>)
    requires id in r.state.players
    ensures Flows(r, HandleTap(r, id, point, env, m), issued, env.session)
  {
    hide SessionsOk, TapWorld, RecordTap;
    var p := r.state.players[id];
    if SessionsOk(r.log, r.state.phase, r.state.session, issued) {
      MoreIssued(r.log, r.state.phase, r.state.session, issued, env.session);
      AppendOther(r.log, TapAccepted(id, p.score >= MAX_SCORE), r.state.phase, r.state.session, issued + {env.session});
    }
  }

  lemma RestartVoteFlows(r: RoomState, id: PlayerId, env: Env, issued: set<SessionId>)
    requires env.session !in issued
    ensures Flows(r, HandleRestartVote(r, id, env), issued, env.session)
  {
    hide SessionsOk, RestartAndStart, Connected, YesVotes;
    var voted := r.(state := r.state.(votes := r.state.votes + {id}));
    RestartFlows(voted, env, issued);
    if r.state.phase != Ended {
      Unmoved(r, r, issued, env.session);
    } else if voted.state.restartTimerStart.None? {
      Unmoved(r, SetAlarm(voted.(state := voted.state.(restartTimerStart := Some(env.now)))), issued, env.session);
    } else {
      Unmoved(r, voted, issued, env.session);
    }
  }

  lemma SetNicknameFlows(r: RoomState, id: PlayerId, text: Option<GoStrings.Name>, env: Env, issued: set<SessionId>)
    requires id in r.state.players && env.session !in issued
    ensures Flows(r, HandleSetNickname(r, id, text, env), issued, env.session)
  {
    hide SessionsOk, Confirm, ChosenName, Nicknames.Sanitize;
    var p := r.state.players[id];
    ConfirmFlows(r, id, p, env, issued);
    Unmoved(r, r, issued, env.session);
    var sanitized := if text.Some? then Nicknames.Sanitize(text.value) else [];
    if ChosenName(p, sanitized, r.usedNames, env).Some? {
      var n := ChosenName(p, sanitized, r.usedNames, env).value;
      ConfirmFlows(r.(usedNames := r.usedNames - {p.nickname} + {n}), id,
                   p.(nickname := n, lastNicknameChange := env.now), env, issued);
    }
  }

  lemma DispatchFlows(r: RoomState, id: PlayerId, message: Message, env: Env, m: Math, issued: set<SessionId>)
    requires id in r.state.players && env.session !in issued
    ensures Flows(r, Dispatch(r, id, message, env, m), issued, env.session)
  {
    hide Flows, HandleTap, HandleSetNickname, HandleRestartVote;
    match message {
      case Tap(point) => TapFlows(r, id, point, env, m, issued);
      case SetNickname(payload) => SetNicknameFlows(r, id, Typed(payload), env, issued);
      case RestartVote => RestartVoteFlows(r, id, env, issued);
      case _ => Unmoved(r, r, issued, env.session);
    }
  }

  /** Counting a message first does not disturb the flow of what follows. */
  lemma CountedFlows(r: RoomState, counted: RoomState, e: Effect, r': RoomState, issued: set<SessionId>,
                     unused: SessionId)
    requires counted.state.phase == r.state.phase && counted.state.session == r.state.session
    requires counted.alarm == r.alarm && counted.closed == r.closed && counted.log == r.log + [e] && e.Dispatched?
    requires Flows(counted, r', issued, unused)
    ensures Flows(r, r', issued, unused)
  {
    hide SessionsOk;
    if SessionsOk(r.log, r.state.phase, r.state.session, issued) {
      AppendOther(r.log, e, r.state.phase, r.state.session, issued);
    }
  }

  lemma MessageFlows(r: RoomState, id: PlayerId, message: Message, env: Env, m: Math, issued: set<SessionId>)
    requires env.session !in issued
    ensures Flows(r, HandleMessage(r, id, message, env, m), issued, env.session)
  {
    hide Flows, SessionsOk, Dispatch, CountMessage, MarkDisconnected;
    Unmoved(r, r, issued, env.session);
    if id in r.state.players {
      var p := CountMessage(r.state.players[id], env.now);
      Unmoved(r, SetPlayer(r, id, MarkDisconnected(p, env.now)).(connections := r.connections - {id}), issued,
          env.session);
      var counted := Emit(SetPlayer(r, id, p), Dispatched(id, env.now));
      DispatchFlows(counted, id, message, env, m, issued);
      CountedFlows(r, counted, Dispatched(id, env.now), Dispatch(counted, id, message, env, m), issued, env.session);
    }
  }

  lemma TickFlows(r: RoomState, env: Env, m: Math, issued: set<SessionId>)
    requires env.session !in issued
    ensures Flows(r, HandleTick(r, env, m), issued, env.session)
  {
    hide SessionsOk, TickWorld, RemovePlayers, Expired, EndGame;
    var ids := Expired(r.state.players, env.now);
    RemovePlayersFlows(r, ids, issued, env.session);
    var swept := RemovePlayers(r, ids);
    if swept.state.phase == Playing {
      var moved := swept.(state := swept.state.(world := TickWorld(swept.state.world, env.tick, m).0));
      EndGameFlows(Lose(moved, env.lostFirst), issued + {env.session}, env.session);
      assert issued + {env.session} + {env.session} == issued + {env.session};
    }
  }

  lemma TimeoutFlows(r: RoomState, id: PlayerId, issued: set<SessionId>, unused: SessionId)
    ensures Flows(r, HandleNicknameTimeout(r, id), issued, unused)
  {
    hide SessionsOk, RemovePlayers, AllReady;
    var cleared := r.(nicknameTimers := r.nicknameTimers - {id});
    Unmoved(r, r, issued, unused);
    Unmoved(r, cleared, issued, unused);
    RemovePlayersFlows(cleared, {id}, issued, unused);
  }

  lemma StartDelayFlows(r: RoomState, env: Env, issued: set<SessionId>)
    requires env.session !in issued
    ensures Flows(r, HandleStartDelay(r, env), issued, env.session)
  {
    hide SessionsOk, AllReady, StartGame;
    var over := r.(startDelay := false);
    StartGameFlows(over, env, issued);
    Unmoved(r, r, issued, env.session);
    Unmoved(r, over, issued, env.session);
  }

  // ---------------------------------------------------------------- the alarm's own steps

  lemma AlarmStagesFlow(r: RoomState, version: nat, issued: set<SessionId>, unused: SessionId)
    ensures Flows(r, AlarmExpires(r), issued, unused)
    ensures Flows(r, AlarmCheck(r, version), issued, unused)
  {
    hide SessionsOk;
    if SessionsOk(r.log, r.state.phase, r.state.session, issued) {
      MoreIssued(r.log, r.state.phase, r.state.session, issued, unused);
    }
  }

  /** Acting on a checked alarm leaves or re-arms the phase it was set for. */
  lemma AlarmActFlows(r: RoomState, version: nat, env: Env, issued: set<SessionId>)
    requires env.session !in issued
    ensures Flows(r, AlarmAct(r, version, env), issued, env.session)
  {
    hide SessionsOk, RestartAndStart, YesVotes, Connected;
    Unmoved(r, r, issued, env.session);
    if version in r.alarm.checked {
      var done := r.(alarm := r.alarm.(checked := r.alarm.checked - {version}));
      CountdownEndFlows(done, issued, env.session);
      AutoRestartFlows(done, env, issued);
      if r.alarm.checked[version] == Ended && r.state.phase == Ended {
        AutoRestartLeaves(done, env);
      }
    }
  }

  /** An ended room that acts on its alarm is afterwards waiting, counting down or re-armed. */
  lemma AutoRestartLeaves(r: RoomState, env: Env)
    requires r.state.phase == Ended
    ensures var r' := AutoRestart(r, env);
            && (r'.state.phase == Waiting || r'.alarm.armed == Some(r'.alarm.version))
            && r'.state.phase != Playing
  {
    hide Connected, YesVotes, RestartAndStart;
    var pruned := r.(state := r.state.(votes := r.state.votes * Connected(r.state.players)));
    RestartShape(Lose(pruned, env.lostLater), env);
  }

  lemma LeaveFlows(r: RoomState, id: PlayerId, flagged: set<PlayerId>, env: Env, issued: set<SessionId>,
                   unused: SessionId)
    ensures Flows(r, HandleDisconnect(r, id, env), issued, unused)
    ensures Flows(r, DropSlowClients(r, flagged, env.now), issued, unused)
  {
    hide Flows, MarkSome;
    Unmoved(r, HandleDisconnect(r, id, env), issued, unused);
    Unmoved(r, DropSlowClients(r, flagged, env.now), issued, unused);
  }

  // ---------------------------------------------------------------- every step, every run

  lemma StepFlows(r: RoomState, step: Step, m: Math, issued: set<SessionId>)
    requires step.env.session !in issued
    ensures Flows(r, Next(r, step, m), issued, step.env.session)
  {
    hide Flows, HandleJoin, HandleDisconnect, HandleMessage, HandleTick, HandleNicknameTimeout, HandleStartDelay,
         AlarmExpires, AlarmCheck, AlarmAct, DropSlowClients, MarkSome;
    var env, s := step.env, step.env.session;
    match step.action {
      case Join(id) => JoinFlows(r, id, env, issued);
      case Say(id, message) => MessageFlows(r, id, message, env, m, issued);
      case Tick => TickFlows(r, env, m, issued);
      case NicknameTimeout(id) => TimeoutFlows(r, id, issued, s);
      case StartDelayOver => StartDelayFlows(r, env, issued);
      case AlarmFires => AlarmStagesFlow(r, 0, issued, s);
      case AlarmChecks(v) => AlarmStagesFlow(r, v, issued, s);
      case AlarmActs(v) => AlarmActFlows(r, v, env, issued);
      case Leave(id) => LeaveFlows(r, id, {}, env, issued, s);
      case DropSlow(flagged) => LeaveFlows(r, PlayerId(""), flagged, env, issued, s);
      case _ => Unmoved(r, Next(r, step, m), issued, s);
    }
  }

  /** No section, whenever it runs, moves the phase off the documented edges. */
  lemma PhaseEdges(r: RoomState, step: Step, m: Math)
    ensures Edge(r.state.phase, Next(r, step, m).state.phase)
  {
    StepFlows(r, step, m, {});
  }

  /** Every UUID drawn in the run is new. */
  ghost predicate FreshIds(steps: seq<Step>, issued: set<SessionId>)
    decreases |steps|
  {
    steps != [] ==>
      steps[0].env.session !in issued && FreshIds(steps[1..], issued + {steps[0].env.session})
  }

  lemma {:induction false} RunFlows(r: RoomState, steps: seq<Step>, m: Math, issued: set<SessionId>)
    requires FreshIds(steps, issued)
    requires SessionsOk(r.log, r.state.phase, r.state.session, issued)
    ensures OncePerSession(Run(r, steps, m).log)
    decreases |steps|
  {
    if steps != [] {
      var r1 := Next(r, steps[0], m);
      StepFlows(r, steps[0], m, issued);
      hide SessionsOk, Next, OncePerSession;
      RunFlows(r1, steps[1..], m, issued + {steps[0].env.session});
    }
  }

  lemma StepUnstuck(r: RoomState, step: Step, m: Math)
    ensures r.closed ==> Next(r, step, m).closed
    ensures NotStuck(r.state.phase, r.alarm) && !Next(r, step, m).closed ==>
              NotStuck(Next(r, step, m).state.phase, Next(r, step, m).alarm)
  {
    StepFlows(r, step, m, {});
  }

  /** A room that is not stuck does not get stuck while it is open. */
  lemma {:induction false} RunUnstuck(r: RoomState, steps: seq<Step>, m: Math)
    requires r.closed || NotStuck(r.state.phase, r.alarm)
    ensures r.closed ==> Run(r, steps, m).closed
    ensures Run(r, steps, m).closed || NotStuck(Run(r, steps, m).state.phase, Run(r, steps, m).alarm)
    decreases |steps|
  {
    hide Next, NotStuck;
    if steps != [] {
      StepUnstuck(r, steps[0], m);
      RunUnstuck(Next(r, steps[0], m), steps[1..], m);
    }
  }

  /** No stuck phase: every run of a room born from NewRoom and not closed. */
  lemma NeverStuck(maxPlayers: int, hasStore: bool, d: WorldDraws, steps: seq<Step>, m: Math)
    ensures var r := Run(NewRoom(maxPlayers, hasStore, d), steps, m);
            r.closed || NotStuck(r.state.phase, r.alarm)
  {
    RunUnstuck(NewRoom(maxPlayers, hasStore, d), steps, m);
  }

  /** One start and one result per session, in every run of a new or a restored room. */
  lemma OneResultPerSession(r: RoomState, steps: seq<Step>, m: Math)
    requires r.log == [] && FreshIds(steps, if r.state.session.Some? then {r.state.session.value} else {})
    ensures OncePerSession(Run(r, steps, m).log)
  {
    RunFlows(r, steps, m, if r.state.session.Some? then {r.state.session.value} else {});
  }

  // ---------------------------------------------------------------- progress

  /** The alarm steps that are still ahead of a room whose phase is not stuck. */
  function AlarmSchedule(r: RoomState, env: Env): (steps: seq<Step>) {
    var v := r.alarm.version;
    if v in r.alarm.checked && r.alarm.checked[v] == r.state.phase then [Step(AlarmActs(v), env)]
    else if v in r.alarm.fired then [Step(AlarmChecks(v), env), Step(AlarmActs(v), env)]
    else [Step(AlarmFires, env), Step(AlarmChecks(v), env), Step(AlarmActs(v), env)]
  }

  /** The room just before its alarm acts, when nothing but the alarm has run. */
  function AlarmReady(r: RoomState): (r': RoomState) {
    var v := r.alarm.version;
    if v in r.alarm.checked && r.alarm.checked[v] == r.state.phase then r
    else AlarmCheck(if v in r.alarm.fired then r else AlarmExpires(r), v)
  }

  lemma AlarmReadyActs(r: RoomState, env: Env)
    requires NotStuck(r.state.phase, r.alarm) && !r.closed
    requires r.state.phase == Counting || r.state.phase == Ended
    ensures exists a: Alarm ::
              AlarmAct(AlarmReady(r), r.alarm.version, env) ==
              (if r.state.phase == Counting then CountdownEnd(r.(alarm := a)) else AutoRestart(r.(alarm := a), env))
  {
    hide CountdownEnd, AutoRestart, AlarmReady, NotStuck;
    AlarmIsReady(r);
    var ready, v := AlarmReady(r), r.alarm.version;
    var a := ready.alarm.(checked := ready.alarm.checked - {v});
    assert ready.(alarm := a) == r.(alarm := a);
  }

  lemma AlarmIsReady(r: RoomState)
    requires NotStuck(r.state.phase, r.alarm) && !r.closed
    requires r.state.phase == Counting || r.state.phase == Ended
    ensures var ready, v := AlarmReady(r), r.alarm.version;
            && v in ready.alarm.checked && ready.alarm.checked[v] == r.state.phase
            && ready == r.(alarm := ready.alarm)
  {
  }

  /** Letting only the alarm run takes the room to the point where the alarm acts. */
  lemma AlarmArrives(r: RoomState, env: Env, m: Math)
    requires NotStuck(r.state.phase, r.alarm) && !r.closed
    requires r.state.phase == Counting || r.state.phase == Ended
    ensures Run(r, AlarmSchedule(r, env), m) == AlarmAct(AlarmReady(r), r.alarm.version, env)
  {
    hide AlarmAct, AlarmCheck, AlarmExpires;
    var v := r.alarm.version;
    var check, act := Step(AlarmChecks(v), env), Step(AlarmActs(v), env);
    if v in r.alarm.checked && r.alarm.checked[v] == r.state.phase {
      RunOne(r, act, m);
    } else if v in r.alarm.fired {
      RunTwo(r, check, act, m);
    } else {
      RunThree(r, Step(AlarmFires, env), check, act, m);
    }
  }

  lemma RunOne(r: RoomState, a: Step, m: Math)
    ensures Run(r, [a], m) == Next(r, a, m)
  {
    assert [a][1..] == [];
  }

  lemma RunTwo(r: RoomState, a: Step, b: Step, m: Math)
    ensures Run(r, [a, b], m) == Next(Next(r, a, m), b, m)
  {
    assert [a, b][1..] == [b];
    RunOne(Next(r, a, m), b, m);
  }

  lemma RunThree(r: RoomState, a: Step, b: Step, c: Step, m: Math)
    ensures Run(r, [a, b, c], m) == Next(Next(Next(r, a, m), b, m), c, m)
  {
    assert [a, b, c][1..] == [b, c];
    RunTwo(Next(r, a, m), b, c, m);
  }

  /** A countdown that is not stuck reaches play by alarm steps alone. */
  lemma CountdownCompletes(r: RoomState, env: Env, m: Math)
    requires NotStuck(r.state.phase, r.alarm) && !r.closed && r.state.phase == Counting
    ensures |AlarmSchedule(r, env)| <= 3 && Run(r, AlarmSchedule(r, env), m).state.phase == Playing
  {
    AlarmArrives(r, env, m);
    AlarmReadyActs(r, env);
  }

  /** An ended game that is not stuck restarts, empties to waiting, or is re-armed because some
      but not all connected players voted. */
  lemma EndedMovesOn(r: RoomState, env: Env, m: Math)
    requires NotStuck(r.state.phase, r.alarm) && !r.closed && r.state.phase == Ended
    ensures var r' := Run(r, AlarmSchedule(r, env), m);
            && |AlarmSchedule(r, env)| <= 3
            && (r'.state.phase == Ended ==> 0 < YesVotes(r.state.players, r.state.votes) < |Connected(r.state.players)|)
            && NotStuck(r'.state.phase, r'.alarm)
  {
    AlarmArrives(r, env, m);
    AlarmReadyActs(r, env);
    hide AutoRestart, AlarmAct, AlarmReady, YesVotes, Connected;
    var a: Alarm :| AlarmAct(AlarmReady(r), r.alarm.version, env) == AutoRestart(r.(alarm := a), env);
    EndedActs(r.(alarm := a), env);
  }

  lemma EndedActs(r: RoomState, env: Env)
    requires r.state.phase == Ended
    ensures var r' := AutoRestart(r, env);
            && (r'.state.phase == Ended ==> 0 < YesVotes(r.state.players, r.state.votes) < |Connected(r.state.players)|)
            && NotStuck(r'.state.phase, r'.alarm)
  {
    hide InitialWorld, Stays, ClearAllStats, NamesOf, Connected;
    AutoRestartLeaves(r, env);
    var connected := Connected(r.state.players);
    assert connected * (r.state.votes * connected) == connected * r.state.votes;
  }

  lemma AllCounted<T>(all: set<T>, some: set<T>)
    ensures |all * some| >= |all| <==> all <= some
  {
    NameGenerator.SubsetSize(all * some, all);
    assert all <= some ==> all * some == all;
  }

  /**
   A restart vote ends the wait exactly when it makes the vote unanimous among the connected
   players; otherwise the room stays ended, with an alarm if this vote was the first.
   */
  lemma VoteRestartsIff(r: RoomState, id: PlayerId, env: Env)
    requires r.state.phase == Ended
    ensures var r' := HandleRestartVote(r, id, env);
            var connected := Connected(r.state.players);
            && (r'.state.phase != Ended <==> connected != {} && connected <= r.state.votes + {id})
            && (r'.state.phase == Ended ==> r'.state.votes == r.state.votes + {id} && r'.state.restartTimerStart.Some?)
            && (r'.state.phase == Ended && r.state.restartTimerStart.None? ==> r'.alarm.armed == Some(r'.alarm.version))
  {
    hide RestartAndStart, Connected;
    var connected := Connected(r.state.players);
    AllCounted(connected, r.state.votes + {id});
    RestartShape(r.(state := r.state.(votes := r.state.votes + {id})), env);
  }
}
