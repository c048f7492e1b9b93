/**
 From a room to what a browser shows: the snapshot a room extracts of itself, encoded by the
 server and decoded by the client. `Bits` is the conversion of a number to its float32 pattern.
 */
module RoomSnapshots {
  import opened Prelude
  import opened GoStrings
  import opened Nicknames
  import opened RoomModel
  import opened RoomInvariants
  import opened SnapshotCodec
  import NameGenerator
  import Physics
  import RoomFlow
  import RoomGames
  import SmuggledNames
  import Utf8

  type Bits = real -> u32

  // ---------------------------------------------------------------- nicknames in a browser

  predicate StartsWithMark(n: Name) {
    n != [] && n[0] == Scalar(Utf8.BYTE_ORDER_MARK)
  }

  /** What a client shows for a stored nickname: its text, minus a leading byte order mark. */
  function Displayed(n: Name): (s: string) {
    if StartsWithMark(n) then Characters(n)[1..] else Characters(n)
  }

  /**
   A stored nickname fits the length byte, and is shown exactly as stored if and only if it does
   not start with a byte order mark.
   */
  lemma StoredNameShown(n: Name)
    requires NameOk(n)
    ensures |NameBytes(n)| <= 48
    ensures TruncateNickname(Utf8.Text(NameBytes(n))) == Displayed(n)
    ensures Displayed(n) == Characters(n) <==> !StartsWithMark(n)
  {
    hide NameBytes, Utf8.Text;
    ShortFitsLengthByte(n);
    ScalarBytes(n);
    Utf8.TextOfEncoded(Characters(n));
    assert Characters(n)[0] == n[0].c;
  }

  /** A canonical name does not start with one. */
  lemma CanonicalIsDisplayed(n: Name)
    requires Canonical(n)
    ensures Displayed(n) == Characters(n)
  {
    if n != [] {
      assert Clean(n[0]);
    }
  }

  // ---------------------------------------------------------------- extracting a snapshot

  function Narrow16(n: int): (v: u16) {
    (n % 0x1_0000) as u16
  }

  function Narrow32(n: int): (v: u32) {
    (n % 0x1_0000_0000) as u32
  }

  function EntryOf(p: Player, now: int): (e: PlayerEntry) {
    PlayerEntry(Narrow16(p.index), Narrow32(if p.cooldownEnd > now then p.cooldownEnd - now else 0),
                Narrow32(p.palette), Narrow32(p.score), NameBytes(p.nickname))
  }

  function EntriesOf(players: Roster, order: seq<PlayerId>, now: int): (es: seq<PlayerEntry>)
    requires forall i :: 0 <= i < |order| ==> order[i] in players
    ensures |es| == |order|
  {
    seq(|order|, i requires 0 <= i < |order| => EntryOf(players[order[i]], now))
  }

  /** `order` lists each connected player once; map iteration fixes no particular order. */
  ghost predicate Lists(order: seq<PlayerId>, ids: set<PlayerId>) {
    && (forall i :: 0 <= i < |order| ==> order[i] in ids)
    && (forall id :: id in ids ==> id in order)
    && (forall i, j :: 0 <= i < j < |order| ==> order[i] != order[j])
  }

  function SnapshotOf(g: GameState, entries: seq<PlayerEntry>, bits: Bits): (s: Snapshot) {
    var b, bird, phantom, wind := g.world.balloon, g.world.bird, g.world.phantom, g.world.wind;
    Snapshot(g.phase, Narrow32(g.world.tick), Narrow32(b.score),
             BalloonView(bits(b.x), bits(b.y), bits(b.vx), bits(b.vy)),
             BirdView(bird.active, bits(bird.x), bits(bird.y)),
             GhostView(phantom.active, bits(phantom.x), bits(phantom.y), Narrow16(phantom.repelTimer)),
             entries, [], bits(wind.speed))
  }

  /** extractSnapshotDataLocked: its loop lists every connected player exactly once. */
  method ExtractSnapshot(g: GameState, now: int, bits: Bits) returns (s: Snapshot)
    ensures exists order :: Lists(order, Connected(g.players)) &&
                            s == SnapshotOf(g, EntriesOf(g.players, order, now), bits)
  {
    hide EntryOf;
    var entries: seq<PlayerEntry> := [];
    ghost var order: seq<PlayerId> := [];
    var todo := g.players.Keys;
    while todo != {}
      invariant todo <= g.players.Keys
      invariant Lists(order, Connected(g.players) - todo)
      invariant entries == EntriesOf(g.players, order, now)
      decreases |todo|
    {
      var id :| id in todo;
      var p := g.players[id];
      if !p.disconnected {
        entries := entries + [EntryOf(p, now)];
        order := order + [id];
      }
      todo := todo - {id};
    }
    assert Connected(g.players) - todo == Connected(g.players);
    s := SnapshotOf(g, entries, bits);
  }

  // ---------------------------------------------------------------- what clients see of a room

  lemma {:induction false} ListsSize(order: seq<PlayerId>, ids: set<PlayerId>)
    requires Lists(order, ids)
    ensures |order| == |ids|
  {
    if order == [] {
      assert ids == {};
    } else {
      var rest := ids - {order[0]};
      assert Lists(order[1..], rest) by {
        forall id | id in rest
          ensures id in order[1..]
        {
          var i :| 0 <= i < |order| && order[i] == id;
          assert order[1..][i - 1] == id;
        }
      }
      ListsSize(order[1..], rest);
    }
  }

  lemma ConnectedSize(players: Roster)
    ensures |Connected(players)| <= |players|
  {
    NameGenerator.SubsetSize(Connected(players), players.Keys);
    assert |players.Keys| == |players|;
  }

  /** The client's record of a player; `seen` is the client's clock, `now` the server's. */
  ghost predicate ShowsPlayer(d: DecodedPlayer, p: Player, now: int, seen: int) {
    && d.nickname == Displayed(p.nickname)
    && d.score as int == p.score
    && d.index == Narrow16(p.index)
    && (p.cooldownEnd - now < 0x1_0000_0000 ==>
          d.cooldownEnd - seen == if p.cooldownEnd > now then p.cooldownEnd - now else 0)
  }

  lemma EntryShown(p: Player, nextIndex: nat, now: int, seen: int)
    requires PlayerOk(p, nextIndex)
    ensures EntryFits(EntryOf(p, now))
    ensures ShowsPlayer(SeenPlayer(EntryOf(p, now), seen), p, now, seen)
  {
    hide NameOk, Utf8.Text, NameBytes, Displayed, TruncateNickname;
    StoredNameShown(p.nickname);
  }

  /** No player connected and nobody flying: the one state whose snapshot a client ignores. */
  predicate NothingToShow(g: GameState) {
    Connected(g.players) == {} && !g.world.bird.active && !g.world.phantom.active
  }

  /** What a decoded snapshot says about a room. */
  ghost predicate Shows(d: Decoded, g: GameState, order: seq<PlayerId>, now: int, seen: int, bits: Bits)
    requires Lists(order, Connected(g.players))
  {
    var b := g.world.balloon;
    && d.phase == g.phase && d.timestamp == Narrow32(g.world.tick) && d.score == Narrow32(b.score)
    && d.balloon == BalloonView(bits(b.x), bits(b.y), bits(b.vx), bits(b.vy))
    && d.playerCount == |d.players| == |order|
    && d.wind == Some(bits(g.world.wind.speed))
    && (forall i {:trigger d.players[i]} :: 0 <= i < |order| ==>
          ShowsPlayer(d.players[i], g.players[order[i]], now, seen))
    && d.ripples == []
    && d.bird == SeenBird(BirdView(g.world.bird.active, bits(g.world.bird.x), bits(g.world.bird.y)))
    && d.phantom == SeenGhost(GhostView(g.world.phantom.active, bits(g.world.phantom.x), bits(g.world.phantom.y),
                                        Narrow16(g.world.phantom.repelTimer)))
  }

  lemma EntriesShown(r: RoomState, order: seq<PlayerId>, now: int, seen: int)
    requires Inv(r) && Lists(order, Connected(r.state.players))
    ensures EntriesFit(EntriesOf(r.state.players, order, now))
    ensures forall i {:trigger order[i]} :: 0 <= i < |order| ==>
              ShowsPlayer(SeenPlayers(EntriesOf(r.state.players, order, now), seen)[i], r.state.players[order[i]],
                  now, seen)
  {
    hide Inv, EntryFits, EntryOf, SeenPlayer, ShowsPlayer, PlayerOk;
    var players := r.state.players;
    var entries := EntriesOf(players, order, now);
    forall i {:trigger order[i]} | 0 <= i < |order|
      ensures EntryFits(entries[i])
      ensures ShowsPlayer(SeenPlayers(entries, seen)[i], players[order[i]], now, seen)
    {
      PlayerIsOk(r, order[i]);
      EntryShown(players[order[i]], r.state.nextIndex, now, seen);
    }
    forall i | 0 <= i < |entries|
      ensures EntryFits(entries[i])
    {
      assert order[i] in players;
    }
  }

  /**
   In every room of at most 255 seats that satisfies the aggregate invariant the encoder does not panic, and the client
   gets back the players' stored nicknames and scores, unless there is nothing to show.
   */
  lemma ClientsSeeTheRoom(r: RoomState, order: seq<PlayerId>, now: int, seen: int, bits: Bits, clock: nat -> int)
    requires Inv(r) && r.maxPlayers <= MAX_COUNT && Lists(order, Connected(r.state.players))
    ensures var s := SnapshotOf(r.state, EntriesOf(r.state.players, order, now), bits);
            && Encodable(s)
            && (Decode(Bytes(s), seen, clock).None? <==> NothingToShow(r.state))
            && (!NothingToShow(r.state) ==> Shows(Decode(Bytes(s), seen, clock).value, r.state, order, now, seen, bits))
  {
    hide Inv, EntriesFit, EntryOf, Bytes, Decode, SeenPlayer, ShowsPlayer, Narrow16, Narrow32;
    var s := SnapshotOf(r.state, EntriesOf(r.state.players, order, now), bits);
    SeatsTaken(r);
    ListsSize(order, Connected(r.state.players));
    ConnectedSize(r.state.players);
    EntriesShown(r, order, now, seen);
    RoundTrip(s, seen, clock);
  }

  lemma SeatsTaken(r: RoomState)
    requires Inv(r)
    ensures |r.state.players| <= r.maxPlayers
  {
  }

  /** The same for every run of a new room. */
  lemma EveryRunIsShown(maxPlayers: int, hasStore: bool, d: Physics.WorldDraws, steps: seq<Step>, m: Physics.Math,
                        order: seq<PlayerId>, now: int, seen: int, bits: Bits, clock: nat -> int)
    requires maxPlayers <= MAX_COUNT
    requires Lists(order, Connected(Run(NewRoom(maxPlayers, hasStore, d), steps, m).state.players))
    ensures var g := Run(NewRoom(maxPlayers, hasStore, d), steps, m).state;
            var s := SnapshotOf(g, EntriesOf(g.players, order, now), bits);
            && Encodable(s)
            && (Decode(Bytes(s), seen, clock).None? <==> NothingToShow(g))
            && (!NothingToShow(g) ==> Shows(Decode(Bytes(s), seen, clock).value, g, order, now, seen, bits))
  {
    hide Inv, Run, Lists, Encodable, NothingToShow, Shows, Decode, Bytes, SnapshotOf, EntriesOf, Connected;
    var room := NewRoom(maxPlayers, hasStore, d);
    NewRoomOk(maxPlayers, hasStore, d);
    RunKeeps(room, steps, m);
    SameCapacity(room, steps, m);
    ClientsSeeTheRoom(Run(room, steps, m), order, now, seen, bits, clock);
  }

  lemma StrictNames(r: RoomState, id: PlayerId)
    requires Inv(r, true) && id in r.state.players
    ensures Displayed(r.state.players[id].nickname) == Characters(r.state.players[id].nickname)
  {
    PlayerIsOk(r, id, true);
    CanonicalIsDisplayed(r.state.players[id].nickname);
  }

  /** When every nickname message is valid UTF-8, all nicknames are shown exactly as stored. */
  lemma ValidRunsShowNames(maxPlayers: int, hasStore: bool, d: Physics.WorldDraws, steps: seq<Step>, m: Physics.Math,
                           id: PlayerId)
    requires ValidRun(steps) && id in Run(NewRoom(maxPlayers, hasStore, d), steps, m).state.players
    ensures var n := Run(NewRoom(maxPlayers, hasStore, d), steps, m).state.players[id].nickname;
            Displayed(n) == Characters(n)
  {
    hide Inv, Run, Displayed, ValidRun;
    NewRoomOk(maxPlayers, hasStore, d, true);
    RunKeeps(NewRoom(maxPlayers, hasStore, d), steps, m, true);
    StrictNames(Run(NewRoom(maxPlayers, hasStore, d), steps, m), id);
  }

  // ---------------------------------------------------------------- a room that shows another name

  lemma RenameStores(r: RoomState, id: PlayerId, p: Player, payload: seq<byte>, raw: Name, n: Name, env: Env,
                     m: Physics.Math)
    requires r.state.phase == Waiting && r.state.players == map[id := p] && r.usedNames == {p.nickname}
    requires p.messageCount == 0 && p.lastNicknameChange == 0
    requires Typed(payload) == Some(raw) && Sanitize(raw) != [] && Sanitize(raw) != p.nickname
    requires NewNickname(Sanitize(raw)) == Some(n) && n != p.nickname
    ensures var r' := HandleMessage(r, id, SetNickname(payload), env, m);
            id in r'.state.players && r'.state.players[id].nickname == n
  {
    hide Sanitize, NewNickname, Typed, NameGenerator.Generate, Confirm;
    var q := CountMessage(p, env.now);
    assert r.state.players[id := q][id] == q;
    var counted := Emit(SetPlayer(r, id, q), Dispatched(id, env.now));
    ConfirmStores(counted.(usedNames := counted.usedNames - {q.nickname} + {n}), id,
                  q.(nickname := n, lastNicknameChange := env.now), env);
  }

  lemma ConfirmStores(r: RoomState, id: PlayerId, p: Player, env: Env)
    requires r.state.phase == Waiting
    ensures var r' := Confirm(r, id, p, env); id in r'.state.players && r'.state.players[id].nickname == p.nickname
  {
    hide AllReady, AutoRestart;
  }

  /** A reachable room whose player is shown under another name than the one stored. */
  lemma MarkIsNotShown(maxPlayers: int, hasStore: bool, d: Physics.WorldDraws, id: PlayerId, env: Env, m: Physics.Math)
    returns (steps: seq<Step>)
    requires id !in env.lostEarly
    ensures var r := Run(NewRoom(maxPlayers, hasStore, d), steps, m);
            id in r.state.players && Displayed(r.state.players[id].nickname) != Characters(r.state.players[id].nickname)
  {
    hide Sanitize, NewNickname, Typed, NameGenerator.Generate, HandleJoin, HandleMessage, Physics.InitialWorld,
         Canonical, NameOk, Read;
    var r := NewRoom(maxPlayers, hasStore, d);
    RoomGames.FirstJoin(r, id, env);
    GeneratedOk(r.usedNames, env.names, true);
    var p := NewPlayer(r, env);
    var text := SmuggledNames.BOM_PAYLOAD;
    var payload := [|text| as byte] + text;
    var join, rename := Step(Join(id), env), Step(Say(id, SetNickname(payload)), env);
    var joined := Next(r, join, m);
    SmuggledNames.BomIsStored();
    RoomGames.PayloadIsTyped(text);
    RoomGames.StrictIsCanonical(p.nickname);
    ReadIsNormal(text);
    NotTheOffered(p.nickname, Read(text));
    RenameStores(joined, id, p, payload, Read(text), [SmuggledNames.BOM] + SmuggledNames.ABC, env, m);
    steps := [join, rename];
    RoomFlow.RunTwo(r, join, rename, m);
  }

  /** A canonical name sanitizes to itself, so what sanitizes to it and is stored otherwise is not that name. */
  lemma NotTheOffered(offered: Name, raw: Name)
    requires Canonical(offered) && NameOk(offered) && NewNickname(Sanitize(raw)).Some?
    requires !Canonical(NewNickname(Sanitize(raw)).value)
    ensures Sanitize(raw) != offered && Sanitize(raw) != []
  {
    hide Sanitize, Canonical, NewNickname;
    OfferedIsStored(offered);
    NothingIsRefused();
  }

  lemma OfferedIsStored(offered: Name)
    requires Canonical(offered) && NameOk(offered)
    ensures NewNickname(offered) == Some(offered)
  {
    hide Sanitize, Canonical;
    RoomGames.NameIsFixed(offered);
    assert Repair(offered) == offered;
  }

  lemma NothingIsRefused()
    ensures NewNickname([]).None?
  {
    ReadNothing();
    ReadIsNormal([]);
    ScrubIsTidy([]);
  }
}
