/** What every critical section of a room keeps. */
module RoomInvariants {
  import opened Prelude
  import opened GoStrings
  import opened Nicknames
  import opened NameGenerator
  import opened Physics
  import opened RoomModel

  /** The largest capacity for which a fresh nickname can always be generated. */
  const NAME_CAPACITY := 97

  // ---------------------------------------------------------------- the invariant

  /**
   What holds of every stored nickname; when all clients send valid UTF-8 (`strict`) it is also one
   that sanitizing leaves alone.
   */
  ghost predicate NameOk(n: Name, strict: bool := false) {
    && AllScalar(n) && n != [] && |n| <= MAX_NICKNAME_LEN && Tidy(n) && TrimmedRight(n)
    && (strict ==> Canonical(n))
  }

  ghost predicate PlayerOk(p: Player, nextIndex: nat, strict: bool := false) {
    && p.index < nextIndex
    && NameOk(p.nickname, strict)
    && (p.disconnected <==> p.disconnectedAt.Some?)
    && p.taps == p.score <= MAX_SCORE
  }

  ghost predicate PlayersOk(players: Roster, nextIndex: nat, strict: bool := false) {
    && (forall id :: id in players ==> PlayerOk(players[id], nextIndex, strict))
    && (forall i, j :: i in players && j in players && players[i].index == players[j].index ==> i == j)
  }

  ghost predicate NamesOk(players: Roster, used: set<Name>) {
    && (forall id :: id in players ==> players[id].nickname in used)
    && (forall n :: n in used ==> exists id :: id in players && players[id].nickname == n)
    && (forall i, j :: i in players && j in players && players[i].nickname == players[j].nickname ==> i == j)
  }

  /** Every connection belongs to a player who is not disconnected. */
  ghost predicate LinksOk(players: Roster, connections: set<PlayerId>) {
    forall id :: id in connections ==> id in players && !players[id].disconnected
  }

  /** A player who still has to confirm a nickname and is not disconnected has a running timer. */
  ghost predicate TimersOk(players: Roster, timers: set<PlayerId>) {
    forall id :: id in players && !players[id].confirmed && !players[id].disconnected ==> id in timers
  }

  ghost predicate VotesOk(g: GameState) {
    && g.votes <= g.players.Keys
    && (g.phase == Counting || g.phase == Playing ==>
          g.votes == {} && g.restartTimerStart.None? && g.session.Some?)
  }

  /** Indexes, counters, capacity and, as far as the capacity allows, nicknames. */
  ghost predicate SeatsOk(players: Roster, nextIndex: nat, used: set<Name>, maxPlayers: nat, strict: bool := false) {
    && PlayersOk(players, nextIndex, strict)
    && |players| <= maxPlayers
    && (maxPlayers <= NAME_CAPACITY ==> NamesOk(players, used))
  }

  /** The aggregate invariant of a room. */
  ghost predicate Inv(r: RoomState, strict: bool := false) {
    && SeatsOk(r.state.players, r.state.nextIndex, r.usedNames, r.maxPlayers, strict)
    && LinksOk(r.state.players, r.connections)
    && VotesOk(r.state)
    && (r.closed || TimersOk(r.state.players, r.nicknameTimers))
  }

  // ---------------------------------------------------------------- changes to a roster

  /** Same players, same indexes, same nicknames; only their records change. */
  ghost predicate SameSeats(a: Roster, b: Roster) {
    && b.Keys == a.Keys
    && forall id :: id in a ==> b[id].index == a[id].index && b[id].nickname == a[id].nickname
  }

  lemma SameNames(a: Roster, b: Roster, used: set<Name>)
    requires SameSeats(a, b) && NamesOk(a, used)
    ensures NamesOk(b, used)
  {
    forall n | n in used
      ensures exists id :: id in b && b[id].nickname == n
    {
      var id :| id in a && a[id].nickname == n;
      assert id in b && b[id].nickname == n;
    }
  }

  lemma SeatsKept(a: Roster, b: Roster, nextIndex: nat, used: set<Name>, maxPlayers: nat, strict: bool := false)
    requires SameSeats(a, b) && SeatsOk(a, nextIndex, used, maxPlayers, strict)
    requires forall id :: id in b ==> PlayerOk(b[id], nextIndex, strict)
    ensures SeatsOk(b, nextIndex, used, maxPlayers, strict)
  {
    assert |a.Keys| == |a| && |b.Keys| == |b|;
    hide NamesOk;
    if maxPlayers <= NAME_CAPACITY {
      SameNames(a, b, used);
    }
  }

  /** One record changes, seat and nickname do not. */
  lemma PutKeeps(a: Roster, id: PlayerId, p: Player, nextIndex: nat, used: set<Name>, maxPlayers: nat,
                 strict: bool := false)
    requires SeatsOk(a, nextIndex, used, maxPlayers, strict) && id in a
    requires p.index == a[id].index && p.nickname == a[id].nickname && PlayerOk(p, nextIndex, strict)
    ensures SeatsOk(a[id := p], nextIndex, used, maxPlayers, strict)
  {
    hide NamesOk, PlayerOk;
    SeatsKept(a, a[id := p], nextIndex, used, maxPlayers, strict);
  }

  lemma PutLinks(a: Roster, id: PlayerId, p: Player, connections: set<PlayerId>, rest: set<PlayerId>)
    requires LinksOk(a, connections) && rest <= connections + {id}
    requires id in rest ==> !p.disconnected
    ensures LinksOk(a[id := p], rest)
  {
  }

  lemma PutTimers(a: Roster, id: PlayerId, p: Player, timers: set<PlayerId>, timers': set<PlayerId>)
    requires TimersOk(a, timers) && timers - {id} <= timers'
    requires p.confirmed || p.disconnected || id in timers'
    ensures TimersOk(a[id := p], timers')
  {
  }

  lemma ShrinkNames(players: Roster, gone: Roster, used: set<Name>)
    requires NamesOk(players, used)
    requires gone.Keys <= players.Keys && forall id :: id in gone ==> gone[id] == players[id]
    ensures NamesOk(players - gone.Keys, used - NamesOf(gone))
  {
    var left := players - gone.Keys;
    forall id | id in left
      ensures left[id].nickname in used - NamesOf(gone)
    {
    }
    forall n | n in used - NamesOf(gone)
      ensures exists id :: id in left && left[id].nickname == n
    {
      var id :| id in players && players[id].nickname == n;
      assert id !in gone;
      assert id in left && left[id].nickname == n;
    }
  }

  lemma ShrinkPlayers(a: Roster, ids: set<PlayerId>, nextIndex: nat, strict: bool := false)
    requires PlayersOk(a, nextIndex, strict)
    ensures PlayersOk(a - ids, nextIndex, strict) && |a - ids| <= |a|
  {
    assert (a - ids).Keys <= a.Keys;
    SubsetSize((a - ids).Keys, a.Keys);
  }

  lemma PutPlayers(a: Roster, id: PlayerId, p: Player, nextIndex: nat, strict: bool := false)
    requires PlayersOk(a, nextIndex, strict) && id in a && p.index == a[id].index && PlayerOk(p, nextIndex, strict)
    ensures PlayersOk(a[id := p], nextIndex, strict) && |a[id := p]| == |a|
  {
    hide PlayerOk;
    assert a[id := p].Keys == a.Keys;
    assert |a[id := p].Keys| == |a.Keys|;
  }

  /** Some players leave, and their names with them. */
  lemma ShrinkKeeps(a: Roster, gone: Roster, nextIndex: nat, used: set<Name>, maxPlayers: nat, strict: bool := false)
    requires SeatsOk(a, nextIndex, used, maxPlayers, strict)
    requires gone.Keys <= a.Keys && forall id :: id in gone ==> gone[id] == a[id]
    ensures SeatsOk(a - gone.Keys, nextIndex, used - NamesOf(gone), maxPlayers, strict)
  {
    hide NamesOk, NamesOf, PlayersOk;
    ShrinkPlayers(a, gone.Keys, nextIndex, strict);
    if maxPlayers <= NAME_CAPACITY {
      ShrinkNames(a, gone, used);
    }
  }

  lemma ShrinkLinks(a: Roster, ids: set<PlayerId>, connections: set<PlayerId>, timers: set<PlayerId>)
    requires LinksOk(a, connections)
    ensures LinksOk(a - ids, connections - ids)
    ensures TimersOk(a, timers) ==> TimersOk(a - ids, timers) && TimersOk(a - ids, timers - ids)
  {
  }

  lemma {:induction false} NamesCount(players: Roster, used: set<Name>)
    requires forall n :: n in used ==> exists id :: id in players && players[id].nickname == n
    ensures |used| <= |players|
    decreases |used|
  {
    if used != {} {
      var n :| n in used;
      var id :| id in players && players[id].nickname == n;
      var rest := players - {id};
      forall k | k in used - {n}
        ensures exists j :: j in rest && rest[j].nickname == k
      {
        var j :| j in players && players[j].nickname == k;
        assert j in rest && rest[j].nickname == k;
      }
      NamesCount(rest, used - {n});
      assert |players.Keys| == |rest.Keys| + 1 by {
        assert players.Keys == rest.Keys + {id};
      }
    }
  }

  /** The generator serves every room whose capacity is within the bound. */
  lemma FreshInRoom(players: Roster, nextIndex: nat, used: set<Name>, maxPlayers: nat, d: NameDraws,
                    strict: bool := false)
    requires SeatsOk(players, nextIndex, used, maxPlayers, strict) && maxPlayers <= NAME_CAPACITY
    ensures Generate(used, d) !in used
  {
    NamesCount(players, used);
    FreshName(used, d);
  }

  lemma AddName(players: Roster, used: set<Name>, id: PlayerId, p: Player)
    requires NamesOk(players, used) && id !in players && p.nickname !in used
    ensures NamesOk(players[id := p], used + {p.nickname})
  {
    var players' := players[id := p];
    forall n | n in used + {p.nickname}
      ensures exists i :: i in players' && players'[i].nickname == n
    {
      if n == p.nickname {
        assert id in players' && players'[id].nickname == n;
      } else {
        var i :| i in players && players[i].nickname == n;
        assert i in players' && players'[i].nickname == n;
      }
    }
  }

  lemma AddSeat(a: Roster, id: PlayerId, p: Player, strict: bool := false)
    requires PlayersOk(a, p.index, strict) && id !in a && PlayerOk(p, p.index + 1, strict)
    ensures PlayersOk(a[id := p], p.index + 1, strict) && |a[id := p]| == |a| + 1
  {
    hide NameOk;
    assert a[id := p].Keys == a.Keys + {id};
    assert |a[id := p].Keys| == |a.Keys| + 1;
  }

  lemma AddKeeps(a: Roster, id: PlayerId, p: Player, used: set<Name>, maxPlayers: nat, strict: bool := false)
    requires SeatsOk(a, p.index, used, maxPlayers, strict) && id !in a && |a| < maxPlayers
    requires PlayerOk(p, p.index + 1, strict)
    requires maxPlayers <= NAME_CAPACITY ==> p.nickname !in used
    ensures SeatsOk(a[id := p], p.index + 1, used + {p.nickname}, maxPlayers, strict)
  {
    hide NamesOk, PlayersOk, PlayerOk;
    AddSeat(a, id, p, strict);
    if maxPlayers <= NAME_CAPACITY {
      AddName(a, used, id, p);
    }
  }

  lemma RenamedNames(players: Roster, used: set<Name>, id: PlayerId, p: Player)
    requires NamesOk(players, used) && id in players && p.nickname !in used
    ensures NamesOk(players[id := p], used - {players[id].nickname} + {p.nickname})
  {
    hide NamesOk;
    var gone := map[id := players[id]];
    assert NamesOf(gone) == {players[id].nickname} by {
      assert id in gone && gone[id].nickname == players[id].nickname;
    }
    ShrinkNames(players, gone, used);
    var others := players - gone.Keys;
    AddName(others, used - {players[id].nickname}, id, p);
    assert others[id := p] == players[id := p];
  }

  lemma RenameSeat(a: Roster, id: PlayerId, p: Player, nextIndex: nat, used: set<Name>, maxPlayers: nat,
                   strict: bool := false)
    requires SeatsOk(a, nextIndex, used, maxPlayers, strict) && id in a
    requires p.index == a[id].index && PlayerOk(p, nextIndex, strict)
    requires maxPlayers <= NAME_CAPACITY ==> p.nickname !in used
    ensures SeatsOk(a[id := p], nextIndex, used - {a[id].nickname} + {p.nickname}, maxPlayers, strict)
  {
    hide NamesOk, PlayersOk, PlayerOk;
    PutPlayers(a, id, p, nextIndex, strict);
    if maxPlayers <= NAME_CAPACITY {
      RenamedNames(a, used, id, p);
    }
  }

  lemma ClearKeeps(a: Roster, now: int, nextIndex: nat, used: set<Name>, maxPlayers: nat, strict: bool := false)
    requires SeatsOk(a, nextIndex, used, maxPlayers, strict)
    ensures SeatsOk(ClearAllStats(a, now), nextIndex, used, maxPlayers, strict)
  {
    hide NamesOk, NameOk;
    SeatsKept(a, ClearAllStats(a, now), nextIndex, used, maxPlayers, strict);
  }

  lemma MarkKeeps(a: Roster, ids: set<PlayerId>, now: int, nextIndex: nat, used: set<Name>, maxPlayers: nat,
                  strict: bool := false)
    requires SeatsOk(a, nextIndex, used, maxPlayers, strict)
    ensures SeatsOk(MarkSome(a, ids, now), nextIndex, used, maxPlayers, strict)
  {
    hide NamesOk, NameOk;
    SeatsKept(a, MarkSome(a, ids, now), nextIndex, used, maxPlayers, strict);
  }

  // ---------------------------------------------------------------- sections that end or start games

  lemma StartGameKeeps(r: RoomState, env: Env, strict: bool := false)
    requires Inv(r, strict)
    ensures Inv(StartGame(r, env), strict)
  {
    hide SeatsOk, LinksOk, TimersOk;
  }

  lemma CountdownEndKeeps(r: RoomState, strict: bool := false)
    requires Inv(r, strict)
    ensures Inv(CountdownEnd(r), strict)
  {
    hide SeatsOk, LinksOk, TimersOk;
  }

  lemma EndGameKeeps(r: RoomState, strict: bool := false)
    requires Inv(r, strict) && r.state.phase == Playing
    ensures Inv(EndGame(r), strict)
  {
    hide SeatsOk, LinksOk, TimersOk;
  }

  /** The players a restart keeps are exactly the connected ones. */
  lemma StaysLinked(a: Roster, connections: set<PlayerId>, timers: set<PlayerId>, now: int)
    requires LinksOk(a, connections)
    ensures var kept := Stays(a, connections);
            && a - (a - kept.Keys).Keys == kept
            && kept.Keys == connections
            && LinksOk(ClearAllStats(kept, now), connections)
            && (TimersOk(a, timers) ==> TimersOk(ClearAllStats(kept, now), timers))
  {
  }

  lemma NobodyLinked(timers: set<PlayerId>)
    ensures LinksOk(map[], {}) && TimersOk(map[], timers)
  {
  }

  lemma NobodyUsesNothing(nextIndex: nat, used: set<Name>, maxPlayers: nat, strict: bool := false)
    requires SeatsOk(map[], nextIndex, used, maxPlayers, strict)
    ensures SeatsOk(map[], 0, used, maxPlayers, strict)
  {
  }

  lemma RestartSeats(r: RoomState, now: int, strict: bool := false)
    requires Inv(r, strict)
    ensures var kept := Stays(r.state.players, r.connections);
            var used := r.usedNames - NamesOf(r.state.players - kept.Keys);
            && SeatsOk(ClearAllStats(kept, now), r.state.nextIndex, used, r.maxPlayers, strict)
            && LinksOk(ClearAllStats(kept, now), r.connections)
            && (r.closed || TimersOk(ClearAllStats(kept, now), r.nicknameTimers))
            && (r.connections == {} ==> kept == map[] && SeatsOk(map[], 0, used, r.maxPlayers, strict))
  {
    hide SeatsOk, LinksOk, TimersOk, NamesOf, ClearAllStats, VotesOk, Stays;
    var players, used := r.state.players, r.usedNames;
    var kept := Stays(players, r.connections);
    var gone := players - kept.Keys;
    StaysLinked(players, r.connections, r.nicknameTimers, now);
    ShrinkKeeps(players, gone, r.state.nextIndex, used, r.maxPlayers, strict);
    ClearKeeps(kept, now, r.state.nextIndex, used - NamesOf(gone), r.maxPlayers, strict);
    if r.connections == {} {
      assert kept == map[];
      NobodyUsesNothing(r.state.nextIndex, used - NamesOf(gone), r.maxPlayers, strict);
    }
  }

  lemma RestartKeeps(r: RoomState, env: Env, strict: bool := false)
    requires Inv(r, strict)
    ensures Inv(RestartAndStart(r, env), strict)
  {
    hide SeatsOk, LinksOk, TimersOk, NamesOf, ClearAllStats, Stays, InitialWorld;
    RestartSeats(r, env.now, strict);
    NobodyLinked(r.nicknameTimers);
  }

  lemma LoseKeeps(r: RoomState, lost: set<PlayerId>, strict: bool := false)
    requires Inv(r, strict)
    ensures Inv(Lose(r, lost), strict)
  {
    hide SeatsOk, TimersOk;
  }

  lemma AutoRestartKeeps(r: RoomState, env: Env, strict: bool := false)
    requires Inv(r, strict)
    ensures Inv(AutoRestart(r, env), strict)
  {
    hide SeatsOk, LinksOk, TimersOk, RestartAndStart, Connected, YesVotes;
    var pruned := r.(state := r.state.(votes := r.state.votes * Connected(r.state.players)));
    LoseKeeps(pruned, env.lostLater, strict);
    RestartKeeps(Lose(pruned, env.lostLater), env, strict);
  }

  lemma AutoRestartIfEndedKeeps(r: RoomState, env: Env, strict: bool := false)
    requires Inv(r, strict)
    ensures Inv(AutoRestartIfEnded(r, env), strict)
  {
    hide Inv, AutoRestart, AllReady;
    LoseKeeps(r, env.lostFirst, strict);
    AutoRestartKeeps(Lose(r, env.lostFirst), env, strict);
  }

  // ---------------------------------------------------------------- joining and leaving

  lemma GeneratedOk(used: set<Name>, d: NameDraws, strict: bool := false)
    ensures NameOk(Generate(used, d), strict) && Sanitize(Generate(used, d)) == Generate(used, d)
  {
    GeneratedIsCanonical(used, d);
  }

  lemma AddPlayerKeeps(r: RoomState, id: PlayerId, env: Env, rest: set<PlayerId>, strict: bool := false)
    requires Inv(r, strict) && id !in r.state.players && |r.state.players| < r.maxPlayers
    requires rest <= r.connections + {id}
    ensures Inv(AddPlayer(r.(connections := rest), id, env), strict)
  {
    hide SeatsOk, LinksOk, TimersOk, Generate, Sanitize, NameOk;
    var p := NewPlayer(r, env);
    GeneratedOk(r.usedNames, env.names, strict);
    if r.maxPlayers <= NAME_CAPACITY {
      FreshInRoom(r.state.players, r.state.nextIndex, r.usedNames, r.maxPlayers, env.names, strict);
    }
    AddKeeps(r.state.players, id, p, r.usedNames, r.maxPlayers, strict);
    PutLinks(r.state.players, id, p, r.connections, rest);
    if !r.closed {
      PutTimers(r.state.players, id, p, r.nicknameTimers, r.nicknameTimers + {id});
    }
  }

  lemma GateKeeps(r: RoomState, strict: bool := false)
    requires Inv(r, strict)
    ensures Inv(ResumeTick(NicknameGate(r)), strict)
  {
    hide SeatsOk, LinksOk, TimersOk, AllReady;
  }

  lemma TryStartKeeps(r: RoomState, strict: bool := false)
    requires Inv(r, strict)
    ensures Inv(TryStart(r), strict)
  {
    hide SeatsOk, LinksOk, TimersOk, AllReady;
  }

  /** A single record and the sets that refer to it change together. */
  lemma PutInv(r: RoomState, id: PlayerId, p: Player, rest: set<PlayerId>, timers: set<PlayerId>, strict: bool := false)
    requires Inv(r, strict) && id in r.state.players
    requires p.index == r.state.players[id].index && p.nickname == r.state.players[id].nickname
    requires PlayerOk(p, r.state.nextIndex, strict)
    requires rest <= r.connections + {id} && (id in rest ==> !p.disconnected)
    requires r.nicknameTimers - {id} <= timers && (p.confirmed || p.disconnected || id in timers)
    ensures Inv(SetPlayer(r, id, p).(connections := rest, nicknameTimers := timers), strict)
  {
    hide SeatsOk, LinksOk, TimersOk, PlayerOk;
    PutKeeps(r.state.players, id, p, r.state.nextIndex, r.usedNames, r.maxPlayers, strict);
    PutLinks(r.state.players, id, p, r.connections, rest);
    if !r.closed {
      PutTimers(r.state.players, id, p, r.nicknameTimers, timers);
    }
  }

  /** A record changes; whether it needs a link or a timer does not. */
  lemma PutRecord(r: RoomState, id: PlayerId, p: Player, strict: bool := false)
    requires Inv(r, strict) && id in r.state.players
    requires p.index == r.state.players[id].index && p.nickname == r.state.players[id].nickname
    requires p.confirmed == r.state.players[id].confirmed && p.disconnected == r.state.players[id].disconnected
    requires PlayerOk(p, r.state.nextIndex, strict)
    ensures Inv(SetPlayer(r, id, p), strict)
  {
    hide SeatsOk, PlayerOk;
    PutKeeps(r.state.players, id, p, r.state.nextIndex, r.usedNames, r.maxPlayers, strict);
  }

  lemma PlayerIsOk(r: RoomState, id: PlayerId, strict: bool := false)
    requires Inv(r, strict) && id in r.state.players
    ensures PlayerOk(r.state.players[id], r.state.nextIndex, strict)
    ensures id in r.connections ==> !r.state.players[id].disconnected
    ensures r.closed || r.state.players[id].confirmed || r.state.players[id].disconnected || id in r.nicknameTimers
  {
  }

  lemma BackKeeps(r: RoomState, id: PlayerId, rest: set<PlayerId>, strict: bool := false)
    requires Inv(r, strict) && id in r.state.players && rest <= r.connections + {id}
    ensures var p := r.state.players[id].(disconnected := false, disconnectedAt := None);
            var timers := if p.confirmed then r.nicknameTimers else r.nicknameTimers + {id};
            Inv(SetPlayer(r.(connections := rest), id, p).(nicknameTimers := timers), strict)
  {
    hide Inv, NameOk;
    PlayerIsOk(r, id, strict);
    var p := r.state.players[id].(disconnected := false, disconnectedAt := None);
    PutInv(r, id, p, rest, if p.confirmed then r.nicknameTimers else r.nicknameTimers + {id}, strict);
  }

  lemma ReconnectKeeps(r: RoomState, id: PlayerId, env: Env, rest: set<PlayerId>, strict: bool := false)
    requires Inv(r, strict) && id in r.state.players && rest <= r.connections + {id}
    ensures Inv(Reconnect(r.(connections := rest), id, env), strict)
  {
    hide Inv, AllReady, AutoRestart, PlayerOk;
    BackKeeps(r, id, rest, strict);
    var p := r.state.players[id].(disconnected := false, disconnectedAt := None);
    var timers := if p.confirmed then r.nicknameTimers else r.nicknameTimers + {id};
    var back := SetPlayer(r.(connections := rest), id, p).(nicknameTimers := timers);
    AutoRestartIfEndedKeeps(back, env, strict);
    GateKeeps(back, strict);
    TryStartKeeps(back, strict);
    ControlKeeps(back, strict);
  }

  /** Timers, the tick flag and the alarm are outside the invariant. */
  lemma ControlKeeps(r: RoomState, strict: bool := false)
    requires Inv(r, strict)
    ensures Inv(SetAlarm(r), strict) && Inv(r.(ticking := true), strict) && Inv(r.(startDelay := true), strict)
  {
    hide SeatsOk, LinksOk, TimersOk;
  }

  lemma RelinkKeeps(r: RoomState, id: PlayerId, rest: set<PlayerId>, strict: bool := false)
    requires Inv(r, strict) && id in r.state.players && !r.state.players[id].disconnected
    requires rest <= r.connections + {id}
    ensures Inv(r.(connections := rest), strict)
  {
    hide SeatsOk, TimersOk;
  }

  lemma JoinKeeps(r: RoomState, id: PlayerId, env: Env, strict: bool := false)
    requires Inv(r, strict)
    ensures Inv(HandleJoin(r, id, env), strict)
  {
    hide Inv, Reconnect, AddPlayer, NicknameGate, ResumeTick;
    var rest := r.connections + {id} - env.lostEarly;
    var linked := r.(connections := rest);
    if id in r.state.players {
      if r.state.players[id].disconnected {
        ReconnectKeeps(r, id, env, rest, strict);
      } else {
        RelinkKeeps(r, id, rest, strict);
        GateKeeps(linked, strict);
      }
    } else if |r.state.players| < r.maxPlayers {
      AddPlayerKeeps(r, id, env, rest, strict);
      GateKeeps(AddPlayer(linked, id, env), strict);
    } else {
      LoseKeeps(r, {id}, strict);
    }
  }

  lemma DisconnectKeeps(r: RoomState, id: PlayerId, env: Env, strict: bool := false)
    requires Inv(r, strict)
    ensures Inv(HandleDisconnect(r, id, env), strict)
  {
    if id in r.state.players {
      PlayerIsOk(r, id, strict);
      hide Inv;
      PutInv(r, id, MarkDisconnected(r.state.players[id], env.now), r.connections - {id}, r.nicknameTimers - {id},
          strict);
    }
  }

  lemma RemovePlayersKeeps(r: RoomState, ids: set<PlayerId>, timers: set<PlayerId>, strict: bool := false)
    requires Inv(r, strict) && (timers == r.nicknameTimers || timers == r.nicknameTimers - ids)
    ensures Inv(RemovePlayers(r.(nicknameTimers := timers), ids).(connections := r.connections - ids), strict)
  {
    hide SeatsOk, LinksOk, TimersOk, NamesOf;
    var players := r.state.players;
    var gone := Only(players, ids);
    assert players - gone.Keys == players - ids;
    ShrinkKeeps(players, gone, r.state.nextIndex, r.usedNames, r.maxPlayers, strict);
    ShrinkLinks(players, ids, r.connections, r.nicknameTimers);
  }

  lemma ClearTimerKeeps(r: RoomState, id: PlayerId, strict: bool := false)
    requires Inv(r, strict) && (id in r.state.players ==> r.state.players[id].confirmed)
    ensures Inv(r.(nicknameTimers := r.nicknameTimers - {id}), strict)
  {
    hide SeatsOk, LinksOk;
  }

  lemma NicknameTimeoutKeeps(r: RoomState, id: PlayerId, strict: bool := false)
    requires Inv(r, strict)
    ensures Inv(HandleNicknameTimeout(r, id), strict)
  {
    hide Inv, RemovePlayers, TryStart;
    if !r.closed {
      if id !in r.state.players || r.state.players[id].confirmed {
        ClearTimerKeeps(r, id, strict);
      } else {
        RemovePlayersKeeps(r, {id}, r.nicknameTimers - {id}, strict);
        var cleared := r.(nicknameTimers := r.nicknameTimers - {id});
        TryStartKeeps(RemovePlayers(cleared, {id}).(connections := r.connections - {id}), strict);
      }
    }
  }

  lemma StartDelayKeeps(r: RoomState, env: Env, strict: bool := false)
    requires Inv(r, strict)
    ensures Inv(HandleStartDelay(r, env), strict)
  {
    hide SeatsOk, LinksOk, TimersOk, AllReady;
    StartGameKeeps(r.(startDelay := false), env, strict);
  }

  // ---------------------------------------------------------------- messages

  lemma ScoredKeeps(r: RoomState, id: PlayerId, env: Env, strict: bool := false)
    requires Inv(r, strict) && id in r.state.players
    ensures Inv(SetPlayer(r, id, RecordTap(r.state.players[id], env.now, env.cooldown)), strict)
  {
    hide Inv, NameOk;
    PlayerIsOk(r, id, strict);
    PutRecord(r, id, RecordTap(r.state.players[id], env.now, env.cooldown), strict);
  }

  lemma TapKeeps(r: RoomState, id: PlayerId, point: Option<(real, real)>, env: Env, m: Math, strict: bool := false)
    requires Inv(r, strict) && id in r.state.players
    ensures Inv(HandleTap(r, id, point, env, m), strict)
  {
    hide SeatsOk, LinksOk, TimersOk, TapWorld, InUnitSquare, RecordTap;
    ScoredKeeps(r, id, env, strict);
  }

  lemma ConfirmedKeeps(r: RoomState, id: PlayerId, p: Player, strict: bool := false)
    requires Inv(SetPlayer(r, id, p), strict)
    ensures Inv(SetPlayer(r, id, p.(confirmed := true)).(nicknameTimers := r.nicknameTimers - {id}), strict)
  {
    hide Inv, NameOk;
    var named := SetPlayer(r, id, p);
    PlayerIsOk(named, id, strict);
    var q := p.(confirmed := true);
    PutInv(named, id, q, r.connections, r.nicknameTimers - {id}, strict);
    assert named.state.players[id := q] == r.state.players[id := q];
  }

  lemma ConfirmKeeps(r: RoomState, id: PlayerId, p: Player, env: Env, strict: bool := false)
    requires Inv(SetPlayer(r, id, p), strict)
    ensures Inv(Confirm(r, id, p, env), strict)
  {
    hide Inv, AutoRestartIfEnded, TryStart;
    ConfirmedKeeps(r, id, p, strict);
    var confirmed := SetPlayer(r, id, p.(confirmed := true)).(nicknameTimers := r.nicknameTimers - {id});
    TryStartKeeps(confirmed, strict);
    AutoRestartIfEndedKeeps(TryStart(confirmed), env, strict);
  }

  lemma StoredOk(raw: Name, strict: bool := false)
    requires Normal(raw) && (strict ==> AllScalar(raw)) && NewNickname(Sanitize(raw)).Some?
    ensures NameOk(NewNickname(Sanitize(raw)).value, strict)
  {
    hide Sanitize, NewNickname, Canonical, Tidy, TrimmedRight;
    var text := NameBytes(raw);
    assert Read(text) == raw;
    StoredIsSafe(text);
    if strict {
      StoredFromText(text);
    }
  }

  /** A stored name is as it should be, and new when the capacity bound holds. */
  lemma ChosenNameOk(r: RoomState, p: Player, raw: Name, env: Env, strict: bool := false)
    requires Inv(r, strict) && Normal(raw) && (strict ==> AllScalar(raw))
    requires ChosenName(p, Sanitize(raw), r.usedNames, env).Some?
    ensures var n := ChosenName(p, Sanitize(raw), r.usedNames, env).value;
            NameOk(n, strict) && (r.maxPlayers <= NAME_CAPACITY ==> n !in r.usedNames)
  {
    hide SeatsOk, LinksOk, TimersOk, Generate, Sanitize, NewNickname, NameOk, Normal;
    if NewNickname(Sanitize(raw)).Some? {
      StoredOk(raw, strict);
    }
    GeneratedOk(r.usedNames, env.names, strict);
    if r.maxPlayers <= NAME_CAPACITY {
      FreshInRoom(r.state.players, r.state.nextIndex, r.usedNames, r.maxPlayers, env.names, strict);
    }
  }

  lemma RenameKeeps(r: RoomState, id: PlayerId, raw: Name, n: Name, env: Env, strict: bool := false)
    requires Inv(r, strict) && id in r.state.players && Normal(raw) && (strict ==> AllScalar(raw))
    requires ChosenName(r.state.players[id], Sanitize(raw), r.usedNames, env) == Some(n)
    ensures var p := r.state.players[id];
            Inv(SetPlayer(r.(usedNames := r.usedNames - {p.nickname} + {n}), id,
                          p.(nickname := n, lastNicknameChange := env.now)), strict)
  {
    hide *;
    ChosenNameOk(r, r.state.players[id], raw, env, strict);
    RenameInv(r, id, r.state.players[id].(nickname := n, lastNicknameChange := env.now), strict);
  }

  lemma RenameInv(r: RoomState, id: PlayerId, q: Player, strict: bool := false)
    requires Inv(r, strict) && id in r.state.players
    requires q == r.state.players[id].(nickname := q.nickname, lastNicknameChange := q.lastNicknameChange)
    requires NameOk(q.nickname, strict) && (r.maxPlayers <= NAME_CAPACITY ==> q.nickname !in r.usedNames)
    ensures Inv(SetPlayer(r.(usedNames := r.usedNames - {r.state.players[id].nickname} + {q.nickname}), id, q), strict)
  {
    hide SeatsOk, LinksOk, TimersOk, NameOk;
    PlayerIsOk(r, id, strict);
    assert PlayerOk(q, r.state.nextIndex, strict);
    hide PlayerOk;
    RenameSeat(r.state.players, id, q, r.state.nextIndex, r.usedNames, r.maxPlayers, strict);
    PutLinks(r.state.players, id, q, r.connections, r.connections);
    if !r.closed {
      PutTimers(r.state.players, id, q, r.nicknameTimers, r.nicknameTimers);
    }
  }

  lemma SetNicknameKeeps(r: RoomState, id: PlayerId, text: Option<Name>, env: Env, strict: bool := false)
    requires Inv(r, strict) && id in r.state.players
    requires text.Some? ==> Normal(text.value) && (strict ==> AllScalar(text.value))
    ensures Inv(HandleSetNickname(r, id, text, env), strict)
  {
    hide Inv, Confirm, ChosenName, Sanitize, Normal;
    var p := r.state.players[id];
    var sanitized := if text.Some? then Sanitize(text.value) else [];
    if sanitized != [] {
      if sanitized == p.nickname {
        assert SetPlayer(r, id, p) == r by {
          assert r.state.players[id := p] == r.state.players;
        }
        ConfirmKeeps(r, id, p, env, strict);
      } else if sanitized !in r.usedNames && ChosenName(p, sanitized, r.usedNames, env).Some? {
        var n := ChosenName(p, sanitized, r.usedNames, env).value;
        RenameKeeps(r, id, text.value, n, env, strict);
        ConfirmKeeps(r.(usedNames := r.usedNames - {p.nickname} + {n}), id,
                     p.(nickname := n, lastNicknameChange := env.now), env, strict);
      }
    }
  }

  lemma RestartVoteKeeps(r: RoomState, id: PlayerId, env: Env, strict: bool := false)
    requires Inv(r, strict) && id in r.state.players
    ensures Inv(HandleRestartVote(r, id, env), strict)
  {
    hide SeatsOk, LinksOk, TimersOk, RestartAndStart, Connected, YesVotes;
    if r.state.phase == Ended {
      RestartKeeps(r.(state := r.state.(votes := r.state.votes + {id})), env, strict);
    }
  }

  lemma EmitKeeps(r: RoomState, e: Effect, strict: bool := false)
    requires Inv(r, strict)
    ensures Inv(Emit(r, e), strict)
  {
    hide SeatsOk, LinksOk, TimersOk;
  }

  lemma CountedKeeps(r: RoomState, id: PlayerId, now: int, strict: bool := false)
    requires Inv(r, strict) && id in r.state.players
    ensures var p := CountMessage(r.state.players[id], now);
            && Inv(SetPlayer(r, id, MarkDisconnected(p, now)).(connections := r.connections - {id}), strict)
            && Inv(Emit(SetPlayer(r, id, p), Dispatched(id, now)), strict)
  {
    hide Inv, NameOk;
    PlayerIsOk(r, id, strict);
    var p := CountMessage(r.state.players[id], now);
    PutInv(r, id, MarkDisconnected(p, now), r.connections - {id}, r.nicknameTimers, strict);
    PutRecord(r, id, p, strict);
    EmitKeeps(SetPlayer(r, id, p), Dispatched(id, now), strict);
  }

  /** A nickname message, if it is one, carries valid UTF-8. */
  ghost predicate ValidMessage(message: Message) {
    message.SetNickname? && Typed(message.payload).Some? ==> AllScalar(Typed(message.payload).value)
  }

  ghost predicate ValidStep(step: Step) {
    step.action.Say? ==> ValidMessage(step.action.message)
  }

  ghost predicate ValidRun(steps: seq<Step>) {
    forall i :: 0 <= i < |steps| ==> ValidStep(steps[i])
  }

  lemma TypedIsNormal(payload: seq<byte>)
    ensures Typed(payload).Some? ==> Normal(Typed(payload).value)
  {
    if Typed(payload).Some? {
      ReadIsNormal(NicknameText(payload).value);
    }
  }

  lemma MessageKeeps(r: RoomState, id: PlayerId, message: Message, env: Env, m: Math, strict: bool := false)
    requires Inv(r, strict) && (strict ==> ValidMessage(message))
    ensures Inv(HandleMessage(r, id, message, env, m), strict)
  {
    hide Inv, HandleTap, HandleSetNickname, HandleRestartVote, Normal, Typed;
    if id in r.state.players {
      CountedKeeps(r, id, env.now, strict);
      var counted := Emit(SetPlayer(r, id, CountMessage(r.state.players[id], env.now)), Dispatched(id, env.now));
      match message {
        case Tap(point) => TapKeeps(counted, id, point, env, m, strict);
        case SetNickname(payload) =>
          TypedIsNormal(payload);
          SetNicknameKeeps(counted, id, Typed(payload), env, strict);
        case RestartVote => RestartVoteKeeps(counted, id, env, strict);
        case _ =>
      }
    }
  }

  // ---------------------------------------------------------------- ticks and slow clients

  lemma SweepKeeps(r: RoomState, now: int, strict: bool := false)
    requires Inv(r, strict)
    ensures Inv(RemovePlayers(r, Expired(r.state.players, now)), strict)
  {
    var ids := Expired(r.state.players, now);
    assert r.connections - ids == r.connections by {
      hide SeatsOk, TimersOk;
    }
    hide Inv, Expired;
    RemovePlayersKeeps(r, ids, r.nicknameTimers, strict);
    assert RemovePlayers(r, ids) == RemovePlayers(r, ids).(connections := r.connections);
  }

  lemma TickKeeps(r: RoomState, env: Env, m: Math, strict: bool := false)
    requires Inv(r, strict)
    ensures Inv(HandleTick(r, env, m), strict)
  {
    hide SeatsOk, LinksOk, TimersOk, TickWorld, RemovePlayers, Expired, EndGame;
    SweepKeeps(r, env.now, strict);
    var swept := RemovePlayers(r, Expired(r.state.players, env.now));
    if swept.state.phase == Playing {
      var moved := swept.(state := swept.state.(world := TickWorld(swept.state.world, env.tick, m).0));
      LoseKeeps(moved, env.lostFirst, strict);
      EndGameKeeps(Lose(moved, env.lostFirst), strict);
    }
  }

  lemma MarkLinks(a: Roster, connections: set<PlayerId>, timers: set<PlayerId>, ids: set<PlayerId>, now: int)
    requires LinksOk(a, connections)
    ensures LinksOk(MarkSome(a, ids, now), connections - ids)
    ensures TimersOk(a, timers) ==> TimersOk(MarkSome(a, ids, now), timers)
  {
  }

  lemma DropSlowKeeps(r: RoomState, flagged: set<PlayerId>, now: int, strict: bool := false)
    requires Inv(r, strict)
    ensures Inv(DropSlowClients(r, flagged, now), strict)
  {
    hide SeatsOk, LinksOk, TimersOk, MarkSome;
    var ids := r.connections * flagged;
    MarkKeeps(r.state.players, ids, now, r.state.nextIndex, r.usedNames, r.maxPlayers, strict);
    MarkLinks(r.state.players, r.connections, r.nicknameTimers, ids, now);
  }

  // ---------------------------------------------------------------- every step

  lemma AlarmKeeps(r: RoomState, version: nat, env: Env, strict: bool := false)
    requires Inv(r, strict)
    ensures Inv(AlarmExpires(r), strict) && Inv(AlarmCheck(r, version), strict) &&
            Inv(AlarmAct(r, version, env), strict)
  {
    hide SeatsOk, LinksOk, TimersOk, CountdownEnd, AutoRestart;
    var done := r.(alarm := r.alarm.(checked := r.alarm.checked - {version}));
    CountdownEndKeeps(done, strict);
    AutoRestartKeeps(done, env, strict);
  }

  lemma AlarmStagesKeep(r: RoomState, version: nat, strict: bool := false)
    requires Inv(r, strict)
    ensures Inv(AlarmExpires(r), strict) && Inv(AlarmCheck(r, version), strict)
  {
    hide SeatsOk, LinksOk, TimersOk;
  }

  lemma CloseKeeps(r: RoomState, strict: bool := false)
    requires Inv(r, strict)
    ensures Inv(r.(closed := true, ticking := false, nicknameTimers := {}), strict)
    ensures Inv(r.(alarm := r.alarm.(armed := None), startDelay := false, connections := {}), strict)
    ensures Inv(r.(ticking := !r.ticking), strict) && Inv(r.(ticking := true), strict)
  {
    hide SeatsOk, TimersOk;
  }

  /** The aggregate invariant survives every step of every kind. */
  lemma StepKeeps(r: RoomState, step: Step, m: Math, strict: bool := false)
    requires Inv(r, strict) && (strict ==> ValidStep(step))
    ensures Inv(Next(r, step, m), strict)
  {
    hide Inv, HandleJoin, HandleDisconnect, HandleMessage, HandleTick, HandleNicknameTimeout, HandleStartDelay,
         AlarmExpires, AlarmCheck, AlarmAct, DropSlowClients;
    var env := step.env;
    match step.action {
      case Join(id) => JoinKeeps(r, id, env, strict);
      case Leave(id) => DisconnectKeeps(r, id, env, strict);
      case Say(id, message) => MessageKeeps(r, id, message, env, m, strict);
      case Tick => TickKeeps(r, env, m, strict);
      case NicknameTimeout(id) => NicknameTimeoutKeeps(r, id, strict);
      case StartDelayOver => StartDelayKeeps(r, env, strict);
      case AlarmFires => AlarmKeeps(r, 0, env, strict);
      case AlarmChecks(v) => AlarmKeeps(r, v, env, strict);
      case AlarmActs(v) => AlarmKeeps(r, v, env, strict);
      case DropSlow(flagged) => DropSlowKeeps(r, flagged, env.now, strict);
      case DropSlowUnlocked(flagged) => LoseKeeps(r, flagged, strict);
      case _ => CloseKeeps(r, strict);
    }
  }

  lemma {:induction false} RunKeeps(r: RoomState, steps: seq<Step>, m: Math, strict: bool := false)
    requires Inv(r, strict) && (strict ==> ValidRun(steps))
    ensures Inv(Run(r, steps, m), strict)
    decreases |steps|
  {
    hide Inv, Next, ValidStep;
    if steps != [] {
      StepKeeps(r, steps[0], m, strict);
      RunKeeps(Next(r, steps[0], m), steps[1..], m, strict);
    }
  }

  lemma NewRoomOk(maxPlayers: int, hasStore: bool, d: WorldDraws, strict: bool := false)
    ensures Inv(NewRoom(maxPlayers, hasStore, d), strict)
  {
  }

  /** What the invariant says about nicknames in a room of at most 97 seats. */
  lemma UniqueHere(r: RoomState, strict: bool := false)
    requires Inv(r, strict) && r.maxPlayers <= NAME_CAPACITY
    ensures r.usedNames == NamesOf(r.state.players)
    ensures forall i, j :: i in r.state.players && j in r.state.players && i != j ==>
              r.state.players[i].nickname != r.state.players[j].nickname
  {
  }

  /** In every run of a new room of at most 97 seats usedNames is exactly the set of nicknames, and none is shared. */
  lemma NicknamesAreUnique(maxPlayers: int, hasStore: bool, d: WorldDraws, steps: seq<Step>, m: Math)
    requires maxPlayers <= NAME_CAPACITY
    ensures var r := Run(NewRoom(maxPlayers, hasStore, d), steps, m);
            && r.usedNames == NamesOf(r.state.players)
            && forall i, j :: i in r.state.players && j in r.state.players && i != j ==>
                 r.state.players[i].nickname != r.state.players[j].nickname
  {
    hide Inv, Run, NamesOf;
    NewRoomOk(maxPlayers, hasStore, d);
    RunKeeps(NewRoom(maxPlayers, hasStore, d), steps, m);
    SameCapacity(NewRoom(maxPlayers, hasStore, d), steps, m);
    UniqueHere(Run(NewRoom(maxPlayers, hasStore, d), steps, m));
  }

  lemma RestartCapacity(r: RoomState, env: Env)
    ensures RestartAndStart(r, env).maxPlayers == r.maxPlayers
  {
    hide InitialWorld, NewGame, NamesOf, Stays, ClearAllStats;
  }

  lemma AutoRestartCapacity(r: RoomState, env: Env)
    ensures AutoRestart(r, env).maxPlayers == r.maxPlayers
  {
    hide RestartAndStart, Connected, YesVotes;
    var pruned := r.(state := r.state.(votes := r.state.votes * Connected(r.state.players)));
    RestartCapacity(Lose(pruned, env.lostLater), env);
  }

  lemma AutoRestartIfEndedCapacity(r: RoomState, env: Env)
    ensures AutoRestartIfEnded(r, env).maxPlayers == r.maxPlayers
  {
    hide AutoRestart, AllReady;
    AutoRestartCapacity(Lose(r, env.lostFirst), env);
  }

  lemma ReconnectCapacity(r: RoomState, id: PlayerId, env: Env)
    requires id in r.state.players
    ensures Reconnect(r, id, env).maxPlayers == r.maxPlayers
  {
    hide AutoRestartIfEnded, AllReady;
    var p := r.state.players[id].(disconnected := false, disconnectedAt := None);
    AutoRestartIfEndedCapacity(SetPlayer(r, id, p).(
      nicknameTimers := if p.confirmed then r.nicknameTimers else r.nicknameTimers + {id}), env);
  }

  lemma GateCapacity(r: RoomState)
    ensures ResumeTick(NicknameGate(r)).maxPlayers == r.maxPlayers
  {
    hide AllReady;
  }

  lemma JoinCapacity(r: RoomState, id: PlayerId, env: Env)
    ensures HandleJoin(r, id, env).maxPlayers == r.maxPlayers
  {
    hide Reconnect, NicknameGate, ResumeTick, NewPlayer;
    var linked := r.(connections := r.connections + {id} - env.lostEarly);
    GateCapacity(linked);
    GateCapacity(AddPlayer(linked, id, env));
    if id in r.state.players {
      ReconnectCapacity(linked, id, env);
    }
  }

  lemma ConfirmCapacity(r: RoomState, id: PlayerId, p: Player, env: Env)
    ensures Confirm(r, id, p, env).maxPlayers == r.maxPlayers
  {
    hide AutoRestartIfEnded, AllReady;
    AutoRestartIfEndedCapacity(TryStart(SetPlayer(r, id,
        p.(confirmed := true)).(nicknameTimers := r.nicknameTimers - {id})), env);
  }

  lemma MessageCapacity(r: RoomState, id: PlayerId, message: Message, env: Env, m: Math)
    requires id in r.state.players
    ensures Dispatch(r, id, message, env, m).maxPlayers == r.maxPlayers
  {
    hide TapWorld, Sanitize, Typed, ChosenName, RecordTap, InUnitSquare, Confirm, RestartAndStart, Connected, YesVotes;
    var p := r.state.players[id];
    match message {
      case RestartVote => RestartCapacity(r.(state := r.state.(votes := r.state.votes + {id})), env);
      case SetNickname(payload) =>
        ConfirmCapacity(r, id, p, env);
        var text := Typed(payload);
        var sanitized := if text.Some? then Sanitize(text.value) else [];
        var chosen := ChosenName(p, sanitized, r.usedNames, env);
        if chosen.Some? {
          ConfirmCapacity(r.(usedNames := r.usedNames - {p.nickname} + {chosen.value}), id,
                          p.(nickname := chosen.value, lastNicknameChange := env.now), env);
        }
      case _ =>
    }
  }

  lemma TickCapacity(r: RoomState, env: Env, m: Math)
    ensures HandleTick(r, env, m).maxPlayers == r.maxPlayers
  {
    hide TickWorld, Expired, RemovePlayers, EndGame;
    var swept := RemovePlayers(r, Expired(r.state.players, env.now));
    RemoveCapacity(r, Expired(r.state.players, env.now));
    EndGameCapacity(Lose(swept.(state := swept.state.(world := TickWorld(swept.state.world, env.tick, m).0)),
        env.lostFirst));
  }

  lemma RemoveCapacity(r: RoomState, ids: set<PlayerId>)
    ensures RemovePlayers(r, ids).maxPlayers == r.maxPlayers
  {
    hide NamesOf, Only;
  }

  lemma EndGameCapacity(r: RoomState)
    ensures EndGame(r).maxPlayers == r.maxPlayers
  {
    hide Grounded;
  }

  lemma StepCapacity(r: RoomState, step: Step, m: Math)
    ensures Next(r, step, m).maxPlayers == r.maxPlayers
  {
    hide HandleJoin, Dispatch, HandleTick, AutoRestart, InitialWorld, AllReady, RemovePlayers, CountMessage, MarkSome;
    var env := step.env;
    match step.action {
      case Join(id) => JoinCapacity(r, id, env);
      case Tick => TickCapacity(r, env, m);
      case Say(id, message) =>
        if id in r.state.players {
          var p := CountMessage(r.state.players[id], env.now);
          MessageCapacity(Emit(SetPlayer(r, id, p), Dispatched(id, env.now)), id, message, env, m);
        }
      case NicknameTimeout(id) => RemoveCapacity(r.(nicknameTimers := r.nicknameTimers - {id}), {id});
      case AlarmActs(v) => AutoRestartCapacity(r.(alarm := r.alarm.(checked := r.alarm.checked - {v})), env);
      case _ =>
    }
  }

  lemma {:induction false} SameCapacity(r: RoomState, steps: seq<Step>, m: Math)
    ensures Run(r, steps, m).maxPlayers == r.maxPlayers
    decreases |steps|
  {
    hide Next;
    if steps != [] {
      StepCapacity(r, steps[0], m);
      SameCapacity(Next(r, steps[0], m), steps[1..], m);
    }
  }

  lemma MarkAllLinks(a: Roster, now: int)
    ensures MarkAll(a, now) == MarkSome(a, a.Keys, now)
    ensures LinksOk(MarkAll(a, now), {}) && TimersOk(MarkAll(a, now), {})
  {
  }

  ghost predicate SavedSeatOk(p: Player, nextIndex: nat, strict: bool := false) {
    p.index < nextIndex && NameOk(p.nickname, strict) && p.taps == p.score <= MAX_SCORE
  }

  /** What a saved game has to satisfy to be loaded into a room of `capacity` seats. */
  ghost predicate SavedOk(saved: GameState, capacity: nat, strict: bool := false) {
    && (forall id :: id in saved.players ==> SavedSeatOk(saved.players[id], saved.nextIndex, strict))
    && DistinctSeats(saved.players)
    && |saved.players| <= capacity
    && (capacity <= NAME_CAPACITY ==> DistinctNames(saved.players))
    && VotesOk(saved)
  }

  ghost predicate DistinctSeats(players: Roster) {
    forall i, j :: i in players && j in players && players[i].index == players[j].index ==> i == j
  }

  ghost predicate DistinctNames(players: Roster) {
    forall i, j :: i in players && j in players && players[i].nickname == players[j].nickname ==> i == j
  }

  function Capacity(maxPlayers: int): (n: nat) {
    if maxPlayers <= 0 then DEFAULT_MAX_PLAYERS else maxPlayers
  }

  lemma OwnNames(players: Roster)
    ensures NamesOk(players, NamesOf(players)) <==> DistinctNames(players)
  {
  }

  lemma MarkedNames(players: Roster, now: int)
    ensures NamesOf(MarkAll(players, now)) == NamesOf(players)
    ensures DistinctNames(MarkAll(players, now)) <==> DistinctNames(players)
  {
    var marked := MarkAll(players, now);
    forall n | n in NamesOf(players)
      ensures n in NamesOf(marked)
    {
      var id :| id in players && players[id].nickname == n;
      assert marked[id].nickname == n;
    }
    if DistinctNames(marked) {
      forall i, j | i in players && j in players && players[i].nickname == players[j].nickname
        ensures i == j
      {
        assert marked[i].nickname == marked[j].nickname;
      }
    }
  }

  lemma MarkedSeat(p: Player, nextIndex: nat, now: int, strict: bool := false)
    ensures PlayerOk(MarkDisconnected(p, now), nextIndex, strict) <==> SavedSeatOk(p, nextIndex, strict)
  {
    hide NameOk;
  }

  lemma MarkedSeats(players: Roster, nextIndex: nat, now: int, strict: bool := false)
    ensures PlayersOk(MarkAll(players, now), nextIndex, strict) <==>
            (forall id :: id in players ==> SavedSeatOk(players[id], nextIndex, strict)) && DistinctSeats(players)
    ensures |MarkAll(players, now)| == |players|
  {
    hide PlayerOk, SavedSeatOk;
    var marked := MarkAll(players, now);
    assert |marked.Keys| == |players.Keys|;
    forall id | id in players
      ensures PlayerOk(marked[id], nextIndex, strict) <==> SavedSeatOk(players[id], nextIndex, strict)
      ensures marked[id].index == players[id].index
    {
      MarkedSeat(players[id], nextIndex, now, strict);
    }
  }

  /**
   Loading any saved game gives a room that satisfies the invariant from its first step exactly
   when the save is consistent and fits the capacity the server now has.
   */
  lemma MaterializeOkIff(saved: GameState, maxPlayers: int, hasStore: bool, now: int, d: WorldDraws,
                         strict: bool := false)
    ensures Inv(Materialize(saved, maxPlayers, hasStore, now, d), strict) <==>
            SavedOk(saved, Capacity(maxPlayers), strict)
  {
    hide PlayersOk, LinksOk, TimersOk, NamesOk, MarkAll, NamesOf, InitialWorld, DistinctNames, SavedSeatOk;
    MarkAllLinks(saved.players, now);
    MarkedSeats(saved.players, saved.nextIndex, now, strict);
    MarkedNames(saved.players, now);
    OwnNames(MarkAll(saved.players, now));
    VotesOfMarked(saved, now);
  }

  lemma VotesOfMarked(saved: GameState, now: int)
    ensures VotesOk(saved.(players := MarkAll(saved.players, now))) <==> VotesOk(saved)
  {
  }

  lemma RunningIsSaved(r: RoomState, strict: bool := false)
    requires Inv(r, strict)
    ensures SavedOk(r.state, Capacity(r.maxPlayers), strict)
  {
    hide NameOk, LinksOk, TimersOk;
  }

  /** One life of a room object: loaded at `now`, then run. */
  datatype Life = Life(now: int, draws: WorldDraws, steps: seq<Step>)

  /** A room that is saved and loaded again any number of times, on a server of unchanged capacity. */
  function Relive(r: RoomState, lives: seq<Life>, m: Math): (r': RoomState)
    decreases |lives|
  {
    if lives == [] then r else
    var life := lives[0];
    Relive(Run(Materialize(r.state, r.maxPlayers, r.hasStore, life.now, life.draws), life.steps, m), lives[1..], m)
  }

  /** The invariant survives every number of save and restore cycles. */
  lemma {:induction false} ReliveKeeps(r: RoomState, lives: seq<Life>, m: Math, strict: bool := false)
    requires Inv(r, strict) && (strict ==> forall i :: 0 <= i < |lives| ==> ValidRun(lives[i].steps))
    ensures Inv(Relive(r, lives, m), strict)
    decreases |lives|
  {
    hide Inv, Run, Materialize, SavedOk, ValidRun;
    if lives != [] {
      var life := lives[0];
      RunningIsSaved(r, strict);
      MaterializeOkIff(r.state, r.maxPlayers, r.hasStore, life.now, life.draws, strict);
      var loaded := Materialize(r.state, r.maxPlayers, r.hasStore, life.now, life.draws);
      RunKeeps(loaded, life.steps, m, strict);
      ReliveKeeps(Run(loaded, life.steps, m), lives[1..], m, strict);
    }
  }
}
