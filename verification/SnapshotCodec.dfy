/**
 The binary snapshot: the server's encoder (backend/internal/protocol/encode.go) and the
 client's decoder (frontend/src/game/message_codec.ts). A float32 is its 32-bit pattern.
 */
module SnapshotCodec {
  import opened Prelude
  import Utf8

  newtype u16 = n: int | 0 <= n < 0x1_0000
  newtype u32 = n: int | 0 <= n < 0x1_0000_0000

  datatype BalloonView = BalloonView(x: u32, y: u32, vx: u32, vy: u32)
  datatype BirdView = BirdView(active: bool, x: u32, y: u32)
  datatype GhostView = GhostView(active: bool, x: u32, y: u32, repelTimer: u16)

  /** A nickname is the bytes of a Go string, valid UTF-8 or not. */
  datatype PlayerEntry = PlayerEntry(index: u16, cooldownMs: u32, palette: u32, score: u32, nickname: seq<byte>)
  datatype Ripple = Ripple(index: u16, x: u32, y: u32)

  datatype Snapshot = Snapshot(
    phase: Phase, tick: u32, score: u32, balloon: BalloonView, bird: BirdView, phantom: GhostView,
    players: seq<PlayerEntry>, ripples: seq<Ripple>, wind: u32)

  const MSG_SNAPSHOT: byte := 0x01
  const MAX_COUNT := 255
  const MIN_SNAPSHOT := 37
  const MAX_NICKNAME_RUNES := 12
  const ENTRY_HEAD := 15
  const RIPPLE_SIZE := 10

  // ---------------------------------------------------------------- layout

  function Word16(v: u16): (b: seq<byte>)
    ensures |b| == 2
  {
    var n := v as int;
    [(n % 0x100) as byte, (n / 0x100) as byte]
  }

  function Word32(v: u32): (b: seq<byte>)
    ensures |b| == 4
  {
    var n := v as int;
    [(n % 0x100) as byte, (n / 0x100 % 0x100) as byte, (n / 0x1_0000 % 0x100) as byte, (n / 0x100_0000) as byte]
  }

  function PhaseToCode(phase: Phase): (c: byte) {
    match phase
    case Waiting => 0
    case Playing => 1
    case Ended => 2
    case Counting => 3
  }

  function BalloonBytes(b: BalloonView): (r: seq<byte>)
    ensures |r| == 16
  {
    Word32(b.x) + Word32(b.y) + Word32(b.vx) + Word32(b.vy)
  }

  function BirdBytes(b: BirdView): (r: seq<byte>)
    ensures |r| == if b.active then 9 else 1
  {
    if b.active then [1] + Word32(b.x) + Word32(b.y) else [0]
  }

  function GhostBytes(g: GhostView): (r: seq<byte>)
    ensures |r| == if g.active then 11 else 1
  {
    if g.active then [1] + Word32(g.x) + Word32(g.y) + Word16(g.repelTimer) else [0]
  }

  predicate EntryFits(p: PlayerEntry) {
    |p.nickname| <= MAX_COUNT
  }

  function EntryBytes(p: PlayerEntry): (r: seq<byte>)
    requires EntryFits(p)
    ensures |r| == ENTRY_HEAD + |p.nickname|
  {
    Word16(p.index) + Word32(p.cooldownMs) + Word32(p.palette) + Word32(p.score) +
    [|p.nickname| as byte] + p.nickname
  }

  predicate EntriesFit(ps: seq<PlayerEntry>) {
    forall i :: 0 <= i < |ps| ==> EntryFits(ps[i])
  }

  function EntriesBytes(ps: seq<PlayerEntry>): (r: seq<byte>)
    requires EntriesFit(ps)
  {
    if ps == [] then [] else EntryBytes(ps[0]) + EntriesBytes(ps[1..])
  }

  function RippleBytes(r: Ripple): (b: seq<byte>)
    ensures |b| == RIPPLE_SIZE
  {
    Word16(r.index) + Word32(r.x) + Word32(r.y)
  }

  function RipplesBytes(rs: seq<Ripple>): (b: seq<byte>)
    ensures |b| == RIPPLE_SIZE * |rs|
  {
    if rs == [] then [] else RippleBytes(rs[0]) + RipplesBytes(rs[1..])
  }

  function HeadBytes(s: Snapshot): (b: seq<byte>)
    ensures |b| == 10
  {
    [MSG_SNAPSHOT] + Word32(s.tick) + Word32(s.score) + [PhaseToCode(s.phase)]
  }

  /** The snapshots the encoder does not panic on. */
  predicate Encodable(s: Snapshot) {
    |s.players| <= MAX_COUNT && |s.ripples| <= MAX_COUNT && EntriesFit(s.players)
  }

  function PlayersBytes(ps: seq<PlayerEntry>): (b: seq<byte>)
    requires |ps| <= MAX_COUNT && EntriesFit(ps)
  {
    [|ps| as byte] + EntriesBytes(ps)
  }

  function TapsBytes(rs: seq<Ripple>): (b: seq<byte>)
    requires |rs| <= MAX_COUNT
  {
    [|rs| as byte] + RipplesBytes(rs)
  }

  /** The layout of a snapshot message. */
  function Bytes(s: Snapshot): (b: seq<byte>)
    requires Encodable(s)
  {
    HeadBytes(s) + (BalloonBytes(s.balloon) + (BirdBytes(s.bird) + (GhostBytes(s.phantom) +
    (PlayersBytes(s.players) + (TapsBytes(s.ripples) + Word32(s.wind))))))
  }

  function EntriesSize(ps: seq<PlayerEntry>): (n: nat) {
    if ps == [] then 0 else ENTRY_HEAD + |ps[0].nickname| + EntriesSize(ps[1..])
  }

  function Size(s: Snapshot): (n: nat) {
    34 + (if s.bird.active then 8 else 0) + (if s.phantom.active then 10 else 0) +
    EntriesSize(s.players) + RIPPLE_SIZE * |s.ripples|
  }

  lemma {:induction false} EntriesBytesSize(ps: seq<PlayerEntry>)
    requires EntriesFit(ps)
    ensures |EntriesBytes(ps)| == EntriesSize(ps)
  {
    if ps != [] {
      EntriesBytesSize(ps[1..]);
    }
  }

  /** The buffer the encoder reserves has exactly the size of what it writes. */
  lemma SizeIsExact(s: Snapshot)
    requires Encodable(s)
    ensures |Bytes(s)| == Size(s)
  {
    EntriesBytesSize(s.players);
  }

  // ---------------------------------------------------------------- the server's encoder

  /** calcSnapshotSize. */
  method CalcSnapshotSize(s: Snapshot) returns (size: nat)
    ensures size == Size(s)
  {
    size := 1 + 4 + 4 + 1 + 16 + 1;
    if s.bird.active {
      size := size + 8;
    }
    size := size + 1 + 1;
    if s.phantom.active {
      size := size + 8 + 2;
    }
    var fixed := size;
    for i := 0 to |s.players|
      invariant size + EntriesSize(s.players[i..]) == fixed + EntriesSize(s.players)
    {
      size := size + 2 + 4 + 4 + 4 + 1 + |s.players[i].nickname|;
    }
    size := size + 1;
    for i := 0 to |s.ripples|
      invariant size == fixed + EntriesSize(s.players) + 1 + RIPPLE_SIZE * i
    {
      size := size + 2 + 4 + 4;
    }
    size := size + 4;
  }

  lemma EntriesSplit(ps: seq<PlayerEntry>, i: nat)
    requires i < |ps|
    ensures EntriesFit(ps) ==> EntriesBytes(ps[i..]) == EntryBytes(ps[i]) + EntriesBytes(ps[i + 1..])
  {
    hide EntryBytes;
    assert ps[i..][1..] == ps[i + 1..];
  }

  lemma NoEntries(ps: seq<PlayerEntry>)
    ensures EntriesBytes(ps[|ps|..]) == []
  {
  }

  /** One turn of the loop in encodePlayers, after its length check. */
  method EncodePlayer(buf: seq<byte>, p: PlayerEntry) returns (b: seq<byte>)
    requires EntryFits(p)
    ensures b == buf + EntryBytes(p)
  {
    hide Word16, Word32;
    b := buf + Word16(p.index);
    b := b + Word32(p.cooldownMs);
    b := b + Word32(p.palette);
    b := b + Word32(p.score);
    b := b + [|p.nickname| as byte];
    b := b + p.nickname;
  }

  /** encodePlayers; None is its panic. */
  method EncodePlayers(buf: seq<byte>, players: seq<PlayerEntry>) returns (out: Option<seq<byte>>)
    ensures out.Some? <==> EntriesFit(players)
    ensures out.Some? ==> out.value == buf + EntriesBytes(players)
  {
    hide EntryBytes, EntriesBytes;
    var b := buf;
    assert players[0..] == players;
    for i := 0 to |players|
      invariant EntriesFit(players[..i])
      invariant EntriesFit(players) ==> b + EntriesBytes(players[i..]) == buf + EntriesBytes(players)
    {
      var p := players[i];
      if |p.nickname| > MAX_COUNT {
        assert !EntryFits(p);
        return None;
      }
      EntriesSplit(players, i);
      b := EncodePlayer(b, p);
    }
    assert players[..|players|] == players;
    NoEntries(players);
    return Some(b);
  }

  /** encodeRipples. */
  method EncodeRipples(buf: seq<byte>, ripples: seq<Ripple>) returns (b: seq<byte>)
    ensures b == buf + RipplesBytes(ripples)
  {
    b := buf;
    for i := 0 to |ripples|
      invariant b + RipplesBytes(ripples[i..]) == buf + RipplesBytes(ripples)
    {
      b := b + Word16(ripples[i].index);
      b := b + Word32(ripples[i].x);
      b := b + Word32(ripples[i].y);
    }
  }

  lemma Regroup(a: seq<byte>, b: seq<byte>, c: seq<byte>, d: seq<byte>, e: seq<byte>, f: seq<byte>, g: seq<byte>)
    ensures a + b + c + d + e + f + g == a + (b + (c + (d + (e + (f + g)))))
  {
    assert a + b + c + d == a + (b + (c + d));
    assert d + e + f + g == d + (e + (f + g));
  }

  /** EncodeSnapshot; None is its panic. */
  method EncodeSnapshot(s: Snapshot) returns (out: Option<seq<byte>>)
    ensures out.Some? <==> Encodable(s)
    ensures out.Some? ==> out.value == Bytes(s)
  {
    hide EntriesFit, EntriesBytes, RipplesBytes, BalloonBytes, BirdBytes, GhostBytes, Word32;
    var buf: seq<byte> := [MSG_SNAPSHOT];
    buf := buf + Word32(s.tick);
    buf := buf + Word32(s.score);
    buf := buf + [PhaseToCode(s.phase)];
    buf := buf + BalloonBytes(s.balloon);
    buf := buf + BirdBytes(s.bird);
    buf := buf + GhostBytes(s.phantom);
    ghost var entities := HeadBytes(s) + BalloonBytes(s.balloon) + BirdBytes(s.bird) + GhostBytes(s.phantom);
    assert buf == entities;
    if |s.players| > MAX_COUNT {
      return None;
    }
    buf := buf + [|s.players| as byte];
    var written := EncodePlayers(buf, s.players);
    if written.None? || |s.ripples| > MAX_COUNT {
      return None;
    }
    assert written.value == entities + PlayersBytes(s.players);
    buf := written.value + [|s.ripples| as byte];
    buf := EncodeRipples(buf, s.ripples);
    assert buf == entities + PlayersBytes(s.players) + TapsBytes(s.ripples);
    buf := buf + Word32(s.wind);
    hide HeadBytes, PlayersBytes, TapsBytes;
    Regroup(HeadBytes(s), BalloonBytes(s.balloon), BirdBytes(s.bird), GhostBytes(s.phantom),
            PlayersBytes(s.players), TapsBytes(s.ripples), Word32(s.wind));
    return Some(buf);
  }

  // ---------------------------------------------------------------- the client's decoder

  datatype DecodedPlayer = DecodedPlayer(index: u16, cooldownEnd: int, palette: u32, score: u32, nickname: string)
  datatype DecodedRipple = DecodedRipple(index: u16, x: u32, y: u32, time: int)

  datatype Decoded = Decoded(
    timestamp: u32, score: u32, phase: Phase, balloon: BalloonView, bird: BirdView, phantom: GhostView,
    players: seq<DecodedPlayer>, ripples: seq<DecodedRipple>, wind: Option<u32>, playerCount: nat)

  /** DataView.getUint16 and getUint32; reading past the end would throw, hence the requires. */
  function U16At(view: seq<byte>, o: nat): (v: u16)
    requires o + 2 <= |view|
  {
    (view[o] as int + 0x100 * view[o + 1] as int) as u16
  }

  function U32At(view: seq<byte>, o: nat): (v: u32)
    requires o + 4 <= |view|
  {
    (view[o] as int + 0x100 * view[o + 1] as int + 0x1_0000 * view[o + 2] as int +
     0x100_0000 * view[o + 3] as int) as u32
  }

  function CodeToPhase(code: byte): (p: Phase) {
    if code == 1 then Playing else if code == 2 then Ended else if code == 3 then Counting else Waiting
  }

  function TruncateNickname(s: string): (t: string)
    ensures |t| <= MAX_NICKNAME_RUNES
  {
    if |s| <= MAX_NICKNAME_RUNES then s else s[..MAX_NICKNAME_RUNES]
  }

  function ReadBalloon(view: seq<byte>, o: nat): (b: BalloonView)
    requires o + 16 <= |view|
  {
    BalloonView(U32At(view, o), U32At(view, o + 4), U32At(view, o + 8), U32At(view, o + 12))
  }

  /** The bird and the offset after it. */
  function ReadBird(view: seq<byte>, o: nat): (r: (BirdView, nat))
    requires o <= |view|
    ensures o <= r.1 <= |view|
  {
    if |view| < o + 1 then (BirdView(false, 0, 0), o) else
    var active := view[o] == 1;
    if !active || |view| < o + 9 then (BirdView(active, 0, 0), o + 1)
    else (BirdView(active, U32At(view, o + 1), U32At(view, o + 5)), o + 9)
  }

  function ReadGhost(view: seq<byte>, o: nat): (r: (GhostView, nat))
    requires o <= |view|
    ensures o <= r.1 <= |view|
  {
    if |view| < o + 1 then (GhostView(false, 0, 0, 0), o) else
    var active := view[o] == 1;
    if !active || |view| < o + 11 then (GhostView(active, 0, 0, 0), o + 1)
    else (GhostView(active, U32At(view, o + 1), U32At(view, o + 5), U16At(view, o + 9)), o + 11)
  }

  function ClampedNickLength(view: seq<byte>, o: nat): (n: nat)
    requires o < |view|
    ensures o + 1 + n <= |view|
  {
    var room := |view| - o - 1;
    if room > 0 then (if view[o] as nat < room then view[o] as nat else room) else 0
  }

  function ReadPlayer(view: seq<byte>, o: nat, now: int): (r: (DecodedPlayer, nat))
    requires o + ENTRY_HEAD <= |view|
    ensures o + ENTRY_HEAD <= r.1 <= |view| && |r.0.nickname| <= MAX_NICKNAME_RUNES
  {
    var end := o + ENTRY_HEAD + ClampedNickLength(view, o + 14);
    (DecodedPlayer(U16At(view, o), now + U32At(view, o + 2) as int, U32At(view, o + 6), U32At(view, o + 10),
                   TruncateNickname(Utf8.Text(view[o + ENTRY_HEAD..end]))), end)
  }

  /** At most `n` players from offset `o` on, and the offset after them. */
  function ReadEntries(view: seq<byte>, o: nat, n: nat, now: int): (r: (seq<DecodedPlayer>, nat))
    requires o <= |view|
    ensures o <= r.1 <= |view|
    decreases n
  {
    if n == 0 || |view| < o + ENTRY_HEAD then ([], o) else
    var p := ReadPlayer(view, o, now);
    var rest := ReadEntries(view, p.1, n - 1, now);
    ([p.0] + rest.0, rest.1)
  }

  function ReadRipple(view: seq<byte>, o: nat, time: int): (r: DecodedRipple)
    requires o + RIPPLE_SIZE <= |view|
  {
    DecodedRipple(U16At(view, o), U32At(view, o + 2), U32At(view, o + 6), time)
  }

  /** Ripple number k is stamped with the k-th reading of the clock. */
  function ReadRipples(view: seq<byte>, o: nat, n: nat, clock: nat -> int, k: nat): (r: (seq<DecodedRipple>, nat))
    requires o <= |view|
    ensures o <= r.1 <= |view|
    decreases n
  {
    if n == 0 || |view| < o + RIPPLE_SIZE then ([], o) else
    var rest := ReadRipples(view, o + RIPPLE_SIZE, n - 1, clock, k + 1);
    ([ReadRipple(view, o, clock(k))] + rest.0, rest.1)
  }

  /** The counted list of players at `o`; nothing when the view ends there. */
  function ReadPlayers(view: seq<byte>, o: nat, now: int): (r: (seq<DecodedPlayer>, nat, nat))
    requires o <= |view|
    ensures o <= r.2 <= |view|
  {
    if |view| < o + 1 then ([], 0, o) else
    var list := ReadEntries(view, o + 1, view[o] as nat, now);
    (list.0, view[o] as nat, list.1)
  }

  function ReadTaps(view: seq<byte>, o: nat, clock: nat -> int): (r: (seq<DecodedRipple>, nat))
    requires o <= |view|
    ensures o <= r.1 <= |view|
  {
    if o < |view| then ReadRipples(view, o + 1, view[o] as nat, clock, 0) else ([], o)
  }

  /** What decodeSnapshot returns; None is its null. */
  function Decode(view: seq<byte>, now: int, clock: nat -> int): (d: Option<Decoded>) {
    if |view| < MIN_SNAPSHOT then None else
    var bird := ReadBird(view, 26);
    var phantom := ReadGhost(view, bird.1);
    var players := ReadPlayers(view, phantom.1, now);
    var taps := ReadTaps(view, players.2, clock);
    var wind := if taps.1 + 4 <= |view| then Some(U32At(view, taps.1)) else None;
    Some(Decoded(U32At(view, 1), U32At(view, 5), CodeToPhase(view[9]), ReadBalloon(view, 10), bird.0, phantom.0,
                 players.0, taps.0, wind, players.1))
  }

  lemma ReadOneMore(view: seq<byte>, o: nat, n: nat, now: int)
    requires n > 0 && o + ENTRY_HEAD <= |view|
    ensures var p := ReadPlayer(view, o, now);
            var rest := ReadEntries(view, p.1, n - 1, now);
            ReadEntries(view, o, n, now).0 == [p.0] + rest.0 && ReadEntries(view, o, n, now).1 == rest.1
  {
  }

  lemma ReadNoMore(view: seq<byte>, o: nat, n: nat, now: int)
    requires o <= |view| && (n == 0 || |view| < o + ENTRY_HEAD)
    ensures ReadEntries(view, o, n, now) == ([], o)
  {
  }

  /** One turn of the loop in readPlayers. */
  method DecodePlayer(view: seq<byte>, offset: nat, now: int) returns (p: DecodedPlayer, o: nat)
    requires offset + ENTRY_HEAD <= |view|
    ensures (p, o) == ReadPlayer(view, offset, now)
  {
    hide U16At, U32At, ClampedNickLength, TruncateNickname, Utf8.Text;
    o := offset;
    var index := U16At(view, o);
    o := o + 2;
    var cooldown := U32At(view, o);
    o := o + 4;
    var palette := U32At(view, o);
    o := o + 4;
    var score := U32At(view, o);
    o := o + 4;
    var nickLen := ClampedNickLength(view, o);
    o := o + 1;
    var nickname := if nickLen > 0 then Utf8.Text(view[o..o + nickLen]) else "";
    assert nickname == Utf8.Text(view[o..o + nickLen]) by {
      Utf8.TextOfNothing();
      assert nickLen == 0 ==> view[o..o + nickLen] == [];
    }
    nickname := TruncateNickname(nickname);
    o := o + nickLen;
    p := DecodedPlayer(index, now + cooldown as int, palette, score, nickname);
  }

  /** readPlayers with its advancing offset. */
  method DecodePlayers(view: seq<byte>, offset: nat, now: int)
    returns (players: seq<DecodedPlayer>, playerCount: nat, o: nat)
    requires offset <= |view|
    ensures players == ReadPlayers(view, offset, now).0
    ensures playerCount == ReadPlayers(view, offset, now).1 && o == ReadPlayers(view, offset, now).2
  {
    hide ReadEntries, ReadPlayer;
    players, playerCount, o := [], 0, offset;
    if |view| < offset + 1 {
      return;
    }
    playerCount := view[offset] as nat;
    o := offset + 1;
    ghost var all := ReadEntries(view, o, playerCount, now);
    var i := 0;
    while i < playerCount && o + ENTRY_HEAD <= |view|
      invariant i <= playerCount && o <= |view|
      invariant all.0 == players + ReadEntries(view, o, playerCount - i, now).0
      invariant all.1 == ReadEntries(view, o, playerCount - i, now).1
    {
      ReadOneMore(view, o, playerCount - i, now);
      var p, next := DecodePlayer(view, o, now);
      players, o, i := players + [p], next, i + 1;
    }
    ReadNoMore(view, o, playerCount - i, now);
  }

  /** The ripple section of decodeSnapshot. */
  method DecodeRipples(view: seq<byte>, offset: nat, clock: nat -> int) returns (ripples: seq<DecodedRipple>, o: nat)
    requires offset <= |view|
    ensures ripples == ReadTaps(view, offset, clock).0 && o == ReadTaps(view, offset, clock).1
  {
    ripples, o := [], offset;
    if o < |view| {
      var rippleCount := view[o] as nat;
      o := o + 1;
      ghost var all := ReadRipples(view, o, rippleCount, clock, 0);
      var i := 0;
      while i < rippleCount && o + RIPPLE_SIZE <= |view|
        invariant i <= rippleCount && o <= |view|
        invariant all.0 == ripples + ReadRipples(view, o, rippleCount - i, clock, i).0
        invariant all.1 == ReadRipples(view, o, rippleCount - i, clock, i).1
      {
        ripples := ripples + [ReadRipple(view, o, clock(i))];
        o := o + RIPPLE_SIZE;
        i := i + 1;
      }
    }
  }

  /** decodeSnapshot: total on every byte sequence, and it never reads past the end. */
  method DecodeSnapshot(view: seq<byte>, now: int, clock: nat -> int) returns (d: Option<Decoded>)
    ensures d == Decode(view, now, clock)
  {
    hide ReadBird, ReadGhost, ReadPlayers, ReadTaps, ReadBalloon, U32At;
    if |view| < MIN_SNAPSHOT {
      return None;
    }
    var o := 1;
    var timestamp := U32At(view, o);
    o := o + 4;
    var score := U32At(view, o);
    o := o + 4;
    var phase := CodeToPhase(view[o]);
    o := o + 1;
    var balloon := ReadBalloon(view, o);
    o := o + 16;
    var bird := ReadBird(view, o);
    o := bird.1;
    var phantom := ReadGhost(view, o);
    o := phantom.1;
    var players, playerCount, afterPlayers := DecodePlayers(view, o, now);
    o := afterPlayers;
    var ripples, afterRipples := DecodeRipples(view, o, clock);
    o := afterRipples;
    var wind := if o + 4 <= |view| then Some(U32At(view, o)) else None;
    return Some(Decoded(timestamp, score, phase, balloon, bird.0, phantom.0, players, ripples, wind, playerCount));
  }

  // ---------------------------------------------------------------- the round trip

  /** `part` stands at offset `o` of `view`. */
  ghost predicate At(view: seq<byte>, o: nat, part: seq<byte>) {
    o + |part| <= |view| && view[o..o + |part|] == part
  }

  lemma AtSplit(view: seq<byte>, o: nat, a: seq<byte>, b: seq<byte>)
    requires At(view, o, a + b)
    ensures At(view, o, a) && At(view, o + |a|, b)
  {
    var both := view[o..o + |a + b|];
    assert both[..|a|] == a && both[|a|..] == b;
  }

  lemma AtWhole(view: seq<byte>)
    ensures At(view, 0, view)
  {
  }

  lemma AtSlice(view: seq<byte>, o: nat, part: seq<byte>)
    requires At(view, o, part)
    ensures o + |part| <= |view| && view[o..o + |part|] == part
  {
  }

  lemma AtByte(view: seq<byte>, o: nat, c: byte)
    requires At(view, o, [c])
    ensures o < |view| && view[o] == c
  {
    assert view[o..o + 1][0] == c;
  }

  lemma Read16(view: seq<byte>, o: nat, v: u16)
    requires At(view, o, Word16(v))
    ensures o + 2 <= |view| && U16At(view, o) == v
  {
    var w := view[o..o + 2];
    assert w[0] == view[o] && w[1] == view[o + 1];
  }

  lemma FourBytes(n: nat)
    requires n < 0x1_0000_0000
    ensures n == n % 0x100 + 0x100 * (n / 0x100 % 0x100) + 0x1_0000 * (n / 0x1_0000 % 0x100) +
                 0x100_0000 * (n / 0x100_0000)
  {
    var a := n / 0x100;
    var b := a / 0x100;
    assert n / 0x1_0000 == b;
    assert n / 0x100_0000 == b / 0x100;
  }

  lemma Read32(view: seq<byte>, o: nat, v: u32)
    requires At(view, o, Word32(v))
    ensures o + 4 <= |view| && U32At(view, o) == v
  {
    var w := view[o..o + 4];
    assert w[0] == view[o] && w[1] == view[o + 1] && w[2] == view[o + 2] && w[3] == view[o + 3];
    FourBytes(v as int);
  }

  /** A 32-bit word, then something else. */
  lemma Take32(view: seq<byte>, o: nat, v: u32, rest: seq<byte>)
    requires At(view, o, Word32(v) + rest)
    ensures o + 4 <= |view| && U32At(view, o) == v && At(view, o + 4, rest)
  {
    hide Word32, U32At, At;
    AtSplit(view, o, Word32(v), rest);
    Read32(view, o, v);
  }

  lemma Take16(view: seq<byte>, o: nat, v: u16, rest: seq<byte>)
    requires At(view, o, Word16(v) + rest)
    ensures o + 2 <= |view| && U16At(view, o) == v && At(view, o + 2, rest)
  {
    hide Word16, U16At, At;
    AtSplit(view, o, Word16(v), rest);
    Read16(view, o, v);
  }

  lemma TakeByte(view: seq<byte>, o: nat, c: byte, rest: seq<byte>)
    requires At(view, o, [c] + rest)
    ensures o < |view| && view[o] == c && At(view, o + 1, rest)
  {
    hide At;
    AtSplit(view, o, [c], rest);
    AtByte(view, o, c);
  }

  lemma BalloonBack(view: seq<byte>, o: nat, b: BalloonView)
    requires At(view, o, BalloonBytes(b))
    ensures o + 16 <= |view| && ReadBalloon(view, o) == b
  {
    hide At, U32At, Word32;
    assert BalloonBytes(b) == Word32(b.x) + (Word32(b.y) + (Word32(b.vx) + (Word32(b.vy) + [])));
    Take32(view, o, b.x, Word32(b.y) + (Word32(b.vx) + (Word32(b.vy) + [])));
    Take32(view, o + 4, b.y, Word32(b.vx) + (Word32(b.vy) + []));
    Take32(view, o + 8, b.vx, Word32(b.vy) + []);
    Take32(view, o + 12, b.vy, []);
  }

  /** The bird the client sees: no coordinates when it is inactive. */
  function SeenBird(b: BirdView): (s: BirdView) {
    if b.active then b else BirdView(false, 0, 0)
  }

  function SeenGhost(g: GhostView): (s: GhostView) {
    if g.active then g else GhostView(false, 0, 0, 0)
  }

  lemma BirdBack(view: seq<byte>, o: nat, b: BirdView)
    requires At(view, o, BirdBytes(b))
    ensures o <= |view| && ReadBird(view, o) == (SeenBird(b), o + |BirdBytes(b)|)
  {
    hide At, U32At, Word32;
    if b.active {
      assert BirdBytes(b) == [1] + (Word32(b.x) + (Word32(b.y) + []));
      TakeByte(view, o, 1, Word32(b.x) + (Word32(b.y) + []));
      Take32(view, o + 1, b.x, Word32(b.y) + []);
      Take32(view, o + 5, b.y, []);
    } else {
      AtByte(view, o, 0);
    }
  }

  lemma GhostBack(view: seq<byte>, o: nat, g: GhostView)
    requires At(view, o, GhostBytes(g))
    ensures o <= |view| && ReadGhost(view, o) == (SeenGhost(g), o + |GhostBytes(g)|)
  {
    hide At, U32At, Word32, U16At, Word16;
    if g.active {
      assert GhostBytes(g) == [1] + (Word32(g.x) + (Word32(g.y) + (Word16(g.repelTimer) + [])));
      TakeByte(view, o, 1, Word32(g.x) + (Word32(g.y) + (Word16(g.repelTimer) + [])));
      Take32(view, o + 1, g.x, Word32(g.y) + (Word16(g.repelTimer) + []));
      Take32(view, o + 5, g.y, Word16(g.repelTimer) + []);
      Take16(view, o + 9, g.repelTimer, []);
    } else {
      AtByte(view, o, 0);
    }
  }

  /** The player record the client builds from an entry. */
  function SeenPlayer(p: PlayerEntry, now: int): (d: DecodedPlayer) {
    DecodedPlayer(p.index, now + p.cooldownMs as int, p.palette, p.score, TruncateNickname(Utf8.Text(p.nickname)))
  }

  lemma NicknameBack(view: seq<byte>, o: nat, nickname: seq<byte>)
    requires |nickname| <= MAX_COUNT && At(view, o, [|nickname| as byte] + nickname)
    ensures o < |view| && ClampedNickLength(view, o) == |nickname|
    ensures view[o + 1..o + 1 + |nickname|] == nickname
  {
    TakeByte(view, o, |nickname| as byte, nickname);
  }

  lemma PlayerBack(view: seq<byte>, o: nat, p: PlayerEntry, now: int)
    requires EntryFits(p) && At(view, o, EntryBytes(p))
    ensures o + ENTRY_HEAD <= |view| && ReadPlayer(view, o, now) == (SeenPlayer(p, now), o + |EntryBytes(p)|)
  {
    hide At, U32At, Word32, U16At, Word16, Utf8.Text, ClampedNickLength;
    var nick := [|p.nickname| as byte] + p.nickname;
    assert EntryBytes(p) == Word16(p.index) + (Word32(p.cooldownMs) + (Word32(p.palette) + (Word32(p.score) + nick)));
    Take16(view, o, p.index, Word32(p.cooldownMs) + (Word32(p.palette) + (Word32(p.score) + nick)));
    Take32(view, o + 2, p.cooldownMs, Word32(p.palette) + (Word32(p.score) + nick));
    Take32(view, o + 6, p.palette, Word32(p.score) + nick);
    Take32(view, o + 10, p.score, nick);
    NicknameBack(view, o + 14, p.nickname);
  }

  function SeenPlayers(ps: seq<PlayerEntry>, now: int): (r: seq<DecodedPlayer>)
    ensures |r| == |ps|
  {
    seq(|ps|, i requires 0 <= i < |ps| => SeenPlayer(ps[i], now))
  }

  lemma {:induction false} EntriesBack(view: seq<byte>, o: nat, ps: seq<PlayerEntry>, now: int)
    requires EntriesFit(ps) && At(view, o, EntriesBytes(ps))
    ensures o <= |view| && ReadEntries(view, o, |ps|, now) == (SeenPlayers(ps, now), o + |EntriesBytes(ps)|)
    decreases |ps|
  {
    hide At, EntryBytes, ReadPlayer, SeenPlayer, EntryFits;
    if ps == [] {
      assert o <= |view| by { AtLength(view, o, []); }
    } else {
      AtSplit(view, o, EntryBytes(ps[0]), EntriesBytes(ps[1..]));
      PlayerBack(view, o, ps[0], now);
      EntriesBack(view, o + |EntryBytes(ps[0])|, ps[1..], now);
      assert SeenPlayers(ps, now) == [SeenPlayer(ps[0], now)] + SeenPlayers(ps[1..], now);
    }
  }

  lemma AtLength(view: seq<byte>, o: nat, part: seq<byte>)
    requires At(view, o, part)
    ensures o + |part| <= |view|
  {
  }

  function SeenRipples(rs: seq<Ripple>, clock: nat -> int, k: nat): (r: seq<DecodedRipple>)
    ensures |r| == |rs|
  {
    seq(|rs|, i requires 0 <= i < |rs| => DecodedRipple(rs[i].index, rs[i].x, rs[i].y, clock(k + i)))
  }

  lemma RippleBack(view: seq<byte>, o: nat, r: Ripple, time: int)
    requires At(view, o, RippleBytes(r))
    ensures o + RIPPLE_SIZE <= |view| && ReadRipple(view, o, time) == DecodedRipple(r.index, r.x, r.y, time)
  {
    hide At, U32At, Word32, U16At, Word16;
    assert RippleBytes(r) == Word16(r.index) + (Word32(r.x) + (Word32(r.y) + []));
    Take16(view, o, r.index, Word32(r.x) + (Word32(r.y) + []));
    Take32(view, o + 2, r.x, Word32(r.y) + []);
    Take32(view, o + 6, r.y, []);
  }

  lemma {:induction false} RipplesBack(view: seq<byte>, o: nat, rs: seq<Ripple>, clock: nat -> int, k: nat)
    requires At(view, o, RipplesBytes(rs))
    ensures o <= |view|
    ensures ReadRipples(view, o, |rs|, clock, k) == (SeenRipples(rs, clock, k), o + |RipplesBytes(rs)|)
    decreases |rs|
  {
    hide At, RippleBytes, ReadRipple;
    if rs == [] {
      assert o <= |view| by { AtLength(view, o, []); }
    } else {
      AtSplit(view, o, RippleBytes(rs[0]), RipplesBytes(rs[1..]));
      RippleBack(view, o, rs[0], clock(k));
      RipplesBack(view, o + RIPPLE_SIZE, rs[1..], clock, k + 1);
      assert SeenRipples(rs, clock, k) ==
             [DecodedRipple(rs[0].index, rs[0].x, rs[0].y, clock(k))] + SeenRipples(rs[1..], clock, k + 1);
    }
  }

  lemma HeadBack(view: seq<byte>, s: Snapshot)
    requires At(view, 0, HeadBytes(s))
    ensures |view| >= 10 && U32At(view, 1) == s.tick && U32At(view, 5) == s.score
    ensures CodeToPhase(view[9]) == s.phase
  {
    hide At, U32At, Word32;
    assert HeadBytes(s) == [MSG_SNAPSHOT] + (Word32(s.tick) + (Word32(s.score) + [PhaseToCode(s.phase)]));
    TakeByte(view, 0, MSG_SNAPSHOT, Word32(s.tick) + (Word32(s.score) + [PhaseToCode(s.phase)]));
    Take32(view, 1, s.tick, Word32(s.score) + [PhaseToCode(s.phase)]);
    Take32(view, 5, s.score, [PhaseToCode(s.phase)]);
    AtByte(view, 9, PhaseToCode(s.phase));
  }

  lemma PlayersBack(view: seq<byte>, o: nat, ps: seq<PlayerEntry>, now: int)
    requires |ps| <= MAX_COUNT && EntriesFit(ps) && At(view, o, PlayersBytes(ps))
    ensures o <= |view| && ReadPlayers(view, o, now) == (SeenPlayers(ps, now), |ps|, o + |PlayersBytes(ps)|)
  {
    hide At, EntriesBytes, ReadEntries, EntriesFit;
    TakeByte(view, o, |ps| as byte, EntriesBytes(ps));
    EntriesBack(view, o + 1, ps, now);
  }

  lemma TapsBack(view: seq<byte>, o: nat, rs: seq<Ripple>, clock: nat -> int)
    requires |rs| <= MAX_COUNT && At(view, o, TapsBytes(rs))
    ensures o <= |view| && ReadTaps(view, o, clock) == (SeenRipples(rs, clock, 0), o + |TapsBytes(rs)|)
  {
    hide At, RipplesBytes, ReadRipples;
    TakeByte(view, o, |rs| as byte, RipplesBytes(rs));
    RipplesBack(view, o + 1, rs, clock, 0);
  }

  /** What a client is meant to see of a snapshot. */
  function Seen(s: Snapshot, now: int, clock: nat -> int): (d: Decoded) {
    Decoded(s.tick, s.score, s.phase, s.balloon, SeenBird(s.bird), SeenGhost(s.phantom),
            SeenPlayers(s.players, now), SeenRipples(s.ripples, clock, 0), Some(s.wind), |s.players|)
  }

  /** The one kind of snapshot shorter than what the decoder insists on. */
  predicate Bare(s: Snapshot) {
    !s.bird.active && !s.phantom.active && s.players == [] && s.ripples == []
  }

  lemma BareIffShort(s: Snapshot)
    ensures Bare(s) <==> Size(s) < 37
    ensures Bare(s) ==> Size(s) == 34
  {
  }

  /** Every section of an encoded snapshot stands where the decoder looks for it. */
  lemma Sections(s: Snapshot)
    requires Encodable(s)
    ensures var view := Bytes(s);
            var o1 := 26 + |BirdBytes(s.bird)|;
            var o2 := o1 + |GhostBytes(s.phantom)|;
            var o3 := o2 + |PlayersBytes(s.players)|;
            var o4 := o3 + |TapsBytes(s.ripples)|;
            && At(view, 0, HeadBytes(s)) && At(view, 10, BalloonBytes(s.balloon)) && At(view, 26, BirdBytes(s.bird))
            && At(view, o1, GhostBytes(s.phantom)) && At(view, o2, PlayersBytes(s.players))
            && At(view, o3, TapsBytes(s.ripples)) && At(view, o4, Word32(s.wind))
  {
    hide At, HeadBytes, BalloonBytes, BirdBytes, GhostBytes, PlayersBytes, TapsBytes, Word32;
    var view := Bytes(s);
    AtWhole(view);
    var e := TapsBytes(s.ripples) + Word32(s.wind);
    var d := PlayersBytes(s.players) + e;
    var c := GhostBytes(s.phantom) + d;
    var b := BirdBytes(s.bird) + c;
    var a := BalloonBytes(s.balloon) + b;
    AtSplit(view, 0, HeadBytes(s), a);
    AtSplit(view, 10, BalloonBytes(s.balloon), b);
    AtSplit(view, 26, BirdBytes(s.bird), c);
    var o1 := 26 + |BirdBytes(s.bird)|;
    AtSplit(view, o1, GhostBytes(s.phantom), d);
    var o2 := o1 + |GhostBytes(s.phantom)|;
    AtSplit(view, o2, PlayersBytes(s.players), e);
    AtSplit(view, o2 + |PlayersBytes(s.players)|, TapsBytes(s.ripples), Word32(s.wind));
  }

  /**
   The client decodes exactly what the server encoded, for every snapshot the encoder accepts,
   except that it rejects exactly the 34-byte one.
   */
  lemma RoundTrip(s: Snapshot, now: int, clock: nat -> int)
    requires Encodable(s)
    ensures Decode(Bytes(s), now, clock) == if Bare(s) then None else Some(Seen(s, now, clock))
  {
    hide At, Bytes, Size, HeadBytes, BalloonBytes, BirdBytes, GhostBytes, PlayersBytes, TapsBytes, Word32, U32At,
         CodeToPhase,
         ReadBalloon, ReadBird, ReadGhost, ReadPlayers, ReadTaps, SeenBird, SeenGhost, SeenPlayers, SeenRipples,
             EntriesFit;
    SizeIsExact(s);
    BareIffShort(s);
    if !Bare(s) {
      Sections(s);
      var view := Bytes(s);
      HeadBack(view, s);
      BalloonBack(view, 10, s.balloon);
      BirdBack(view, 26, s.bird);
      var o1 := 26 + |BirdBytes(s.bird)|;
      GhostBack(view, o1, s.phantom);
      var o2 := o1 + |GhostBytes(s.phantom)|;
      PlayersBack(view, o2, s.players, now);
      var o3 := o2 + |PlayersBytes(s.players)|;
      TapsBack(view, o3, s.ripples, clock);
      Read32(view, o3 + |TapsBytes(s.ripples)|, s.wind);
    }
  }

  /** A nickname of at most 12 code points comes back unchanged unless it starts with U+FEFF. */
  lemma NicknameSurvivesIff(name: string)
    requires |name| <= MAX_NICKNAME_RUNES
    ensures TruncateNickname(Utf8.Text(Utf8.Encode(name))) == name <==>
            !(name != [] && name[0] == Utf8.BYTE_ORDER_MARK)
  {
    Utf8.TextOfEncoded(name);
  }

  lemma {:induction false} ReadAtMost(view: seq<byte>, o: nat, n: nat, now: int)
    requires o <= |view|
    ensures |ReadEntries(view, o, n, now).0| <= n
    ensures ENTRY_HEAD * |ReadEntries(view, o, n, now).0| <= ReadEntries(view, o, n, now).1 - o
    ensures forall p :: p in ReadEntries(view, o, n, now).0 ==> |p.nickname| <= MAX_NICKNAME_RUNES
    decreases n
  {
    hide ReadPlayer;
    if n > 0 && o + ENTRY_HEAD <= |view| {
      ReadAtMost(view, ReadPlayer(view, o, now).1, n - 1, now);
    }
  }

  lemma {:induction false} ReadTapsAtMost(view: seq<byte>, o: nat, n: nat, clock: nat -> int, k: nat)
    requires o <= |view|
    ensures RIPPLE_SIZE * |ReadRipples(view, o, n, clock, k).0| == ReadRipples(view, o, n, clock, k).1 - o
    ensures |ReadRipples(view, o, n, clock, k).0| <= n
    decreases n
  {
    if n > 0 && o + RIPPLE_SIZE <= |view| {
      ReadTapsAtMost(view, o + RIPPLE_SIZE, n - 1, clock, k + 1);
    }
  }

  /**
   On arbitrary bytes the decoder rejects exactly the short ones, and what it does return is
   paid for by input: no list is longer than its count or than the bytes can hold.
   */
  lemma DecodeAnything(view: seq<byte>, now: int, clock: nat -> int)
    ensures Decode(view, now, clock).None? <==> |view| < 37
    ensures Decode(view, now, clock).Some? ==>
              var d := Decode(view, now, clock).value;
              && |d.players| <= d.playerCount <= MAX_COUNT && |d.ripples| <= MAX_COUNT
              && 26 + ENTRY_HEAD * |d.players| + RIPPLE_SIZE * |d.ripples| <= |view|
              && forall p :: p in d.players ==> |p.nickname| <= MAX_NICKNAME_RUNES
  {
    hide ReadBird, ReadGhost, ReadPlayers, ReadTaps, ReadBalloon, U32At, CodeToPhase;
    if |view| >= MIN_SNAPSHOT {
      var o := ReadGhost(view, ReadBird(view, 26).1).1;
      PlayersAtMost(view, o, now);
      TapsAtMost(view, ReadPlayers(view, o, now).2, clock);
    }
  }

  lemma PlayersAtMost(view: seq<byte>, o: nat, now: int)
    requires o <= |view|
    ensures var r := ReadPlayers(view, o, now);
            && |r.0| <= r.1 <= MAX_COUNT && o + ENTRY_HEAD * |r.0| <= r.2
            && forall p :: p in r.0 ==> |p.nickname| <= MAX_NICKNAME_RUNES
  {
    hide ReadEntries;
    if o < |view| {
      ReadAtMost(view, o + 1, view[o] as nat, now);
    }
  }

  lemma TapsAtMost(view: seq<byte>, o: nat, clock: nat -> int)
    requires o <= |view|
    ensures var r := ReadTaps(view, o, clock); |r.0| <= MAX_COUNT && o + RIPPLE_SIZE * |r.0| <= r.1
  {
    hide ReadRipples;
    if o < |view| {
      ReadTapsAtMost(view, o + 1, view[o] as nat, clock, 0);
    }
  }

  // ---------------------------------------------------------------- the player-join message

  const MSG_PLAYER_JOIN: byte := 0x02

  /** Every field of a player-join message stands where its layout says. */
  ghost predicate JoinMessage(b: seq<byte>, index: u16, nickname: seq<byte>, palette: u32) {
    var n := |nickname|;
    && |b| == 8 + n && b[0] == MSG_PLAYER_JOIN && U16At(b, 1) == index
    && b[3] as int == n && b[4..4 + n] == nickname && U32At(b, 4 + n) == palette
  }

  lemma JoinLayout(index: u16, nickname: seq<byte>, palette: u32)
    requires |nickname| <= MAX_COUNT
    ensures JoinMessage([MSG_PLAYER_JOIN] + (Word16(index) + ([|nickname| as byte] + (nickname + Word32(palette)))),
                        index, nickname, palette)
  {
    hide At, Word16, Word32, U16At, U32At;
    var c := nickname + Word32(palette);
    var b := [|nickname| as byte] + c;
    var view := [MSG_PLAYER_JOIN] + (Word16(index) + b);
    AtWhole(view);
    TakeByte(view, 0, MSG_PLAYER_JOIN, Word16(index) + b);
    Take16(view, 1, index, b);
    TakeByte(view, 3, |nickname| as byte, c);
    AtSplit(view, 4, nickname, Word32(palette));
    AtSlice(view, 4, nickname);
    Read32(view, 4 + |nickname|, palette);
  }

  /** EncodePlayerJoin; None is its panic. */
  method EncodePlayerJoin(index: u16, nickname: seq<byte>, palette: u32) returns (out: Option<seq<byte>>)
    ensures out.Some? <==> |nickname| <= MAX_COUNT
    ensures out.Some? ==> JoinMessage(out.value, index, nickname, palette)
  {
    hide JoinMessage, Word16, Word32;
    var buf := [MSG_PLAYER_JOIN] + Word16(index);
    if |nickname| > MAX_COUNT {
      return None;
    }
    buf := buf + [|nickname| as byte];
    buf := buf + nickname;
    buf := buf + Word32(palette);
    JoinLayout(index, nickname, palette);
    assert buf == [MSG_PLAYER_JOIN] + (Word16(index) + ([|nickname| as byte] + (nickname + Word32(palette))));
    return Some(buf);
  }

  // ---------------------------------------------------------------- the documented layout

  /** The bytes from offset `o` on, least significant first, make up `v`. */
  predicate LittleEndian(b: seq<byte>, o: nat, v: nat, width: nat)
    decreases width
  {
    if width == 0 then v == 0
    else o < |b| && b[o] as nat == v % 256 && LittleEndian(b, o + 1, v / 256, width - 1)
  }

  lemma Word32IsLittleEndian(b: seq<byte>, o: nat, v: u32)
    requires At(b, o, Word32(v))
    ensures LittleEndian(b, o, v as nat, 4)
  {
    var n := v as nat;
    var w := b[o..o + 4];
    assert w[0] == b[o] && w[1] == b[o + 1] && w[2] == b[o + 2] && w[3] == b[o + 3];
    SmallerQuotients(n);
    hide Word32;
    assert LittleEndian(b, o + 4, n / 256 / 256 / 256 / 256, 0);
    assert LittleEndian(b, o + 3, n / 256 / 256 / 256, 1);
    assert LittleEndian(b, o + 2, n / 256 / 256, 2);
    assert LittleEndian(b, o + 1, n / 256, 3);
  }

  lemma SmallerQuotients(n: nat)
    requires n < 0x1_0000_0000
    ensures n / 0x1_0000 == n / 256 / 256 && n / 0x100_0000 == n / 256 / 256 / 256
    ensures n / 256 / 256 / 256 / 256 == 0 && n / 0x100_0000 % 256 == n / 0x100_0000
  {
  }

  /** Type, tick, score, phase and balloon stand at fixed offsets, with the protocol's codes. */
  lemma FixedLayout(s: Snapshot)
    requires Encodable(s)
    ensures var b := Bytes(s);
            && |b| >= 34 && b[0] == 0x01
            && LittleEndian(b, 1, s.tick as nat, 4) && LittleEndian(b, 5, s.score as nat, 4)
            && b[9] == (match s.phase case Waiting => 0 case Playing => 1 case Ended => 2 case Counting => 3)
            && LittleEndian(b, 10, s.balloon.x as nat, 4) && LittleEndian(b, 14, s.balloon.y as nat, 4)
            && LittleEndian(b, 18, s.balloon.vx as nat, 4) && LittleEndian(b, 22, s.balloon.vy as nat, 4)
            && b[26] == (if s.bird.active then 1 else 0)
  {
    hide At, Word32, LittleEndian, Bytes, Size, EntriesFit, PlayersBytes, TapsBytes;
    SizeIsExact(s);
    SizeAtLeast(s);
    Sections(s);
    HeadLayout(Bytes(s), s);
    BalloonLayout(Bytes(s), s.balloon);
    BirdFlag(Bytes(s), s.bird);
  }

  lemma SizeAtLeast(s: Snapshot)
    ensures Size(s) >= 34
  {
  }

  lemma HeadLayout(view: seq<byte>, s: Snapshot)
    requires At(view, 0, HeadBytes(s))
    ensures |view| >= 10 && view[0] == 0x01 && view[9] == PhaseToCode(s.phase)
    ensures LittleEndian(view, 1, s.tick as nat, 4) && LittleEndian(view, 5, s.score as nat, 4)
  {
    hide At, Word32, LittleEndian;
    var last := [PhaseToCode(s.phase)];
    assert HeadBytes(s) == [MSG_SNAPSHOT] + (Word32(s.tick) + (Word32(s.score) + last));
    TakeByte(view, 0, MSG_SNAPSHOT, Word32(s.tick) + (Word32(s.score) + last));
    AtSplit(view, 1, Word32(s.tick), Word32(s.score) + last);
    AtSplit(view, 5, Word32(s.score), last);
    AtByte(view, 9, PhaseToCode(s.phase));
    Word32IsLittleEndian(view, 1, s.tick);
    Word32IsLittleEndian(view, 5, s.score);
  }

  lemma BalloonLayout(view: seq<byte>, b: BalloonView)
    requires At(view, 10, BalloonBytes(b))
    ensures LittleEndian(view, 10, b.x as nat, 4) && LittleEndian(view, 14, b.y as nat, 4)
    ensures LittleEndian(view, 18, b.vx as nat, 4) && LittleEndian(view, 22, b.vy as nat, 4)
  {
    hide At, Word32, LittleEndian;
    assert BalloonBytes(b) == Word32(b.x) + (Word32(b.y) + (Word32(b.vx) + Word32(b.vy)));
    AtSplit(view, 10, Word32(b.x), Word32(b.y) + (Word32(b.vx) + Word32(b.vy)));
    AtSplit(view, 14, Word32(b.y), Word32(b.vx) + Word32(b.vy));
    AtSplit(view, 18, Word32(b.vx), Word32(b.vy));
    Word32IsLittleEndian(view, 10, b.x);
    Word32IsLittleEndian(view, 14, b.y);
    Word32IsLittleEndian(view, 18, b.vx);
    Word32IsLittleEndian(view, 22, b.vy);
  }

  lemma BirdFlag(view: seq<byte>, b: BirdView)
    requires At(view, 26, BirdBytes(b))
    ensures |view| > 26 && view[26] == (if b.active then 1 else 0)
  {
    hide At, Word32;
    if b.active {
      assert BirdBytes(b) == [1] + (Word32(b.x) + Word32(b.y));
      TakeByte(view, 26, 1, Word32(b.x) + Word32(b.y));
    } else {
      AtByte(view, 26, 0);
    }
  }

  lemma Word16IsLittleEndian(b: seq<byte>, o: nat, v: u16)
    requires At(b, o, Word16(v))
    ensures LittleEndian(b, o, v as nat, 2)
  {
    var n := v as nat;
    var w := b[o..o + 2];
    assert w[0] == b[o] && w[1] == b[o + 1];
    hide Word16;
    assert n / 256 / 256 == 0 && n / 256 % 256 == n / 256;
    assert LittleEndian(b, o + 2, n / 256 / 256, 0);
    assert LittleEndian(b, o + 1, n / 256, 1);
  }

  /** A player's entry: index, cooldown, palette, contribution, length of the nickname, nickname. */
  lemma EntryLayout(view: seq<byte>, o: nat, p: PlayerEntry)
    requires EntryFits(p) && At(view, o, EntryBytes(p))
    ensures LittleEndian(view, o, p.index as nat, 2) && LittleEndian(view, o + 2, p.cooldownMs as nat, 4)
    ensures LittleEndian(view, o + 6, p.palette as nat, 4) && LittleEndian(view, o + 10, p.score as nat, 4)
    ensures o + 15 + |p.nickname| <= |view| && view[o + 14] as int == |p.nickname|
    ensures view[o + 15..o + 15 + |p.nickname|] == p.nickname
  {
    hide At, Word32, Word16, LittleEndian, ClampedNickLength;
    var nick := [|p.nickname| as byte] + p.nickname;
    assert EntryBytes(p) == Word16(p.index) + (Word32(p.cooldownMs) + (Word32(p.palette) + (Word32(p.score) + nick)));
    AtSplit(view, o, Word16(p.index), Word32(p.cooldownMs) + (Word32(p.palette) + (Word32(p.score) + nick)));
    AtSplit(view, o + 2, Word32(p.cooldownMs), Word32(p.palette) + (Word32(p.score) + nick));
    AtSplit(view, o + 6, Word32(p.palette), Word32(p.score) + nick);
    AtSplit(view, o + 10, Word32(p.score), nick);
    TakeByte(view, o + 14, |p.nickname| as byte, p.nickname);
    AtSlice(view, o + 15, p.nickname);
    Word16IsLittleEndian(view, o, p.index);
    Word32IsLittleEndian(view, o + 2, p.cooldownMs);
    Word32IsLittleEndian(view, o + 6, p.palette);
    Word32IsLittleEndian(view, o + 10, p.score);
  }

  /** An active ghost: flag, position, repel timer; an inactive one: flag only. */
  lemma GhostLayout(view: seq<byte>, o: nat, g: GhostView)
    requires At(view, o, GhostBytes(g))
    ensures o < |view| && view[o] == (if g.active then 1 else 0)
    ensures g.active ==> LittleEndian(view, o + 1, g.x as nat, 4) && LittleEndian(view, o + 5, g.y as nat, 4)
    ensures g.active ==> LittleEndian(view, o + 9, g.repelTimer as nat, 2)
  {
    hide At, Word32, Word16, LittleEndian;
    if g.active {
      assert GhostBytes(g) == [1] + (Word32(g.x) + (Word32(g.y) + Word16(g.repelTimer)));
      TakeByte(view, o, 1, Word32(g.x) + (Word32(g.y) + Word16(g.repelTimer)));
      AtSplit(view, o + 1, Word32(g.x), Word32(g.y) + Word16(g.repelTimer));
      AtSplit(view, o + 5, Word32(g.y), Word16(g.repelTimer));
      Word32IsLittleEndian(view, o + 1, g.x);
      Word32IsLittleEndian(view, o + 5, g.y);
      Word16IsLittleEndian(view, o + 9, g.repelTimer);
    } else {
      AtByte(view, o, 0);
    }
  }

  /** A ripple: index of the player, position. */
  lemma RippleLayout(view: seq<byte>, o: nat, r: Ripple)
    requires At(view, o, RippleBytes(r))
    ensures LittleEndian(view, o, r.index as nat, 2)
    ensures LittleEndian(view, o + 2, r.x as nat, 4) && LittleEndian(view, o + 6, r.y as nat, 4)
  {
    hide At, Word32, Word16, LittleEndian;
    assert RippleBytes(r) == Word16(r.index) + (Word32(r.x) + Word32(r.y));
    AtSplit(view, o, Word16(r.index), Word32(r.x) + Word32(r.y));
    AtSplit(view, o + 2, Word32(r.x), Word32(r.y));
    Word16IsLittleEndian(view, o, r.index);
    Word32IsLittleEndian(view, o + 2, r.x);
    Word32IsLittleEndian(view, o + 6, r.y);
  }
}
