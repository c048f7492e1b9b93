/**
 Balloon, wind, bird and ghost (backend/internal/game/physics.go, state.go:202-274), over
 real numbers. Random draws are arbitrary values of `Draw`; the library functions hypot,
 cos, sin and atan2 come in as a `Math` record constrained by `Lawful` only.
 */
module Physics {
  import opened Prelude

  const GRAVITY := 0.0005
  const TAP_FORCE := 0.025
  const TAP_RANGE := 0.35
  const TAP_EPSILON := 0.000000000000001
  const HORIZONTAL_DRAG := 0.99
  const BIRD_SPEED := 0.003
  const BIRD_SPAWN_MIN := 15
  const BIRD_SPAWN_MAX := 30
  const BIRD_RADIUS_X := 0.020
  const BIRD_RADIUS_Y := 0.035
  const GHOST_SPEED := 0.002
  const GHOST_SPAWN_MIN := 15
  const GHOST_SPAWN_MAX := 30
  const GHOST_ATTRACT_RADIUS := 0.4
  const GHOST_RADIUS_X := 0.035
  const GHOST_RADIUS_Y := 0.045
  const GHOST_REPEL_RADIUS := 0.15
  const GHOST_REPEL_DURATION := 30
  const GHOST_REPEL_FORCE := 0.01
  const GHOST_WANDER_INTERVAL := 30
  const GHOST_DAMAGE := 0.015
  const BALLOON_RADIUS := 0.06
  const WIND_MAX := 0.0002
  const WIND_LERP_RATE := 0.012
  const WIND_CHANGE_INTERVAL := 225.0
  const WIND_JITTER := 0.000025
  const WIND_MICRO_INTERVAL := 10
  const WIND_MID_INTERVAL := 75
  const WIND_MID_MAGNITUDE := 0.0002
  const WIND_CLAMP := 0.65
  const WIND_TARGET_SPAN := 1.0
  const WIND_EDGE_SOFT_ZONE := 0.12

  datatype Balloon = Balloon(x: real, y: real, vx: real, vy: real, score: nat)
  datatype Bird = Bird(x: real, y: real, vx: real, vy: real, active: bool, spawnTimer: int)
  datatype Ghost = Ghost(x: real, y: real, vx: real, vy: real, active: bool, spawnTimer: int, repelTimer: int)
  datatype Wind = Wind(speed: real, target: real, midOffset: real, changeIn: int, microIn: int, midIn: int)
  datatype World = World(balloon: Balloon, bird: Bird, phantom: Ghost, wind: Wind, tick: nat)

  datatype Math = Math(hypot: (real, real) -> real, cos: real -> real, sin: real -> real,
                       atan2: (real, real) -> real, pi: real)

  function Square(x: real): (s: real) {
    x * x
  }

  ghost predicate Lawful(m: Math) {
    && (forall x, y :: m.hypot(x, y) >= 0.0 && Square(m.hypot(x, y)) == Square(x) + Square(y))
    && (forall a :: Square(m.cos(a)) + Square(m.sin(a)) == 1.0)
  }

  datatype GhostDraws = GhostDraws(side: Draw, speed: Draw, height: Draw, drift: Draw, timer: Draw)

  datatype WorldDraws = WorldDraws(birdTimer: nat, phantom: GhostDraws, wind: Draw)

  datatype TickDraws = TickDraws(
    jitter: Draw, mid: Draw, changeLength: Draw, target: Draw,
    birdSide: Draw, birdHeight: Draw, birdTimer: nat,
    wander: Draw, phantom: GhostDraws, ghostTimer: Draw)

  // ---------------------------------------------------------------- fresh entities

  function InitialBalloon(): (b: Balloon) {
    Balloon(0.5, 0.95, 0.0, 0.0, 0)
  }

  function RandomSpawnTimer(draw: nat): (t: int) {
    BIRD_SPAWN_MIN + draw % (BIRD_SPAWN_MAX - BIRD_SPAWN_MIN + 1)
  }

  function SpawnTimer(draw: Draw): (t: int) {
    (GHOST_SPAWN_MIN as real + draw * (GHOST_SPAWN_MAX - GHOST_SPAWN_MIN) as real).Floor
  }

  function SpawnGhost(d: GhostDraws): (g: Ghost) {
    var speed := GHOST_SPEED * (0.5 + d.speed * 0.5);
    Ghost(if d.side > 0.5 then -0.1 else 1.1,
          0.2 + d.height * 0.6,
          if d.side > 0.5 then speed else -speed,
          (d.drift - 0.5) * GHOST_SPEED,
          true, SpawnTimer(d.timer), 0)
  }

  function InitialWind(draw: Draw): (w: Wind) {
    var target := (draw - 0.5) * WIND_TARGET_SPAN;
    Wind(Max(-WIND_CLAMP, Min(WIND_CLAMP, target * 0.6)), target, 0.0, 112, 10, 75)
  }

  function InitialWorld(d: WorldDraws): (w: World) {
    World(InitialBalloon(), Bird(0.0, 0.0, 0.0, 0.0, false, RandomSpawnTimer(d.birdTimer)),
          SpawnGhost(d.phantom), InitialWind(d.wind), 0)
  }

  // ---------------------------------------------------------------- one tick

  function BounceX(b: Balloon): (b': Balloon) {
    if b.x <= 0.0 then b.(x := 0.0, vx := Abs(b.vx) * 0.5)
    else if b.x >= 1.0 then b.(x := 1.0, vx := -Abs(b.vx) * 0.5)
    else b
  }

  /** The moved balloon; the game is over when its height is not positive. */
  function Fall(b: Balloon): (b': Balloon) {
    var vy := b.vy - GRAVITY;
    var moved := BounceX(b.(vy := vy, y := b.y + vy, x := b.x + b.vx, vx := b.vx * HORIZONTAL_DRAG));
    if moved.y >= 1.0 then moved.(y := 1.0, vy := Min(moved.vy, 0.0)) else moved
  }

  function Countdown(counter: int, resetValue: int): (c: int) {
    if counter - 1 <= 0 then resetValue else counter - 1
  }

  function Jittered(speed: real, draw: Draw): (s: real) {
    speed + (draw - 0.5) * WIND_JITTER * 2.0
  }

  function MidOffset(draw: Draw): (o: real) {
    (draw - 0.5) * 2.0 * WIND_MID_MAGNITUDE
  }

  function WindTarget(draw: Draw): (t: real) {
    (draw - 0.5) * WIND_TARGET_SPAN
  }

  /** Lean towards the target, within the clamp. */
  function Lean(speed: real, target: real): (s: real) {
    Max(-WIND_CLAMP, Min(WIND_CLAMP, speed + (target - speed) * WIND_LERP_RATE))
  }

  function ChangeLength(draw: Draw): (n: int) {
    (WIND_CHANGE_INTERVAL * (0.5 + draw)).Floor
  }

  function Blow(w: Wind, d: TickDraws): (w': Wind) {
    var gust := if w.microIn - 1 <= 0 then Jittered(w.speed, d.jitter) else w.speed;
    var mid := if w.midIn - 1 <= 0 then MidOffset(d.mid) else w.midOffset;
    var target := if w.changeIn - 1 <= 0 then WindTarget(d.target) else w.target;
    Wind(Lean(gust, target + mid), target, mid,
         Countdown(w.changeIn, ChangeLength(d.changeLength)),
         Countdown(w.microIn, WIND_MICRO_INTERVAL),
         Countdown(w.midIn, WIND_MID_INTERVAL))
  }

  function WindScale(x: real): (s: real) {
    var edge := Min(x, 1.0 - x);
    Max(0.0, if edge < WIND_EDGE_SOFT_ZONE then edge / WIND_EDGE_SOFT_ZONE else 1.0)
  }

  function Drift(b: Balloon, wind: real): (b': Balloon) {
    b.(vx := b.vx + wind * WIND_MAX * WindScale(b.x))
  }

  function BirdToward(bird: Bird, b: Balloon, m: Math): (bird': Bird) {
    var dx, dy := b.x - bird.x, b.y - bird.y;
    var dist := m.hypot(dx, dy);
    if dist <= 0.0 then bird else bird.(vx := (dx / dist) * BIRD_SPEED, vy := (dy / dist) * BIRD_SPEED)
  }

  predicate OffScreen(bird: Bird) {
    bird.x < -0.1 || bird.x > 1.1 || bird.y < -0.1 || bird.y > 1.1
  }

  function FlyBird(bird: Bird, b: Balloon, tick: nat, d: TickDraws, m: Math): (bird': Bird) {
    if !bird.active then
      var timer := if bird.spawnTimer > 0 then bird.spawnTimer - 1 else bird.spawnTimer;
      if timer > 0 then bird.(spawnTimer := timer)
      else
        BirdToward(bird.(x := if d.birdSide > 0.5 then -0.1 else 1.1, y := d.birdHeight * 0.6 + 0.2,
                         active := true, spawnTimer := timer), b, m)
    else
      var moved := bird.(x := bird.x + bird.vx, y := bird.y + bird.vy);
      var aimed := if tick % 30 == 0 then BirdToward(moved, b, m) else moved;
      if OffScreen(aimed) then aimed.(active := false, spawnTimer := RandomSpawnTimer(d.birdTimer)) else aimed
  }

  predicate BirdHits(bird: Bird, b: Balloon) {
    var dx, dy := bird.x - b.x, bird.y - b.y;
    var rx, ry := BIRD_RADIUS_X + BALLOON_RADIUS, BIRD_RADIUS_Y + BALLOON_RADIUS;
    bird.active && dx * dx / (rx * rx) + dy * dy / (ry * ry) < 1.0
  }

  function RepelGhost(g: Ghost, b: Balloon, m: Math): (g': Ghost) {
    var dx, dy := g.x - b.x, g.y - b.y;
    var d := m.hypot(dx, dy);
    var dist := if d == 0.0 then 1.0 else d;
    g.(repelTimer := g.repelTimer - 1,
       vx := g.vx + (dx / dist) * GHOST_REPEL_FORCE, vy := g.vy + (dy / dist) * GHOST_REPEL_FORCE)
  }

  function WanderAngle(wander: Draw, m: Math): (angle: real) {
    wander * 2.0 * m.pi
  }

  function SteerGhost(g: Ghost, b: Balloon, tick: nat, wander: Draw, m: Math): (g': Ghost) {
    var dx, dy := b.x - g.x, b.y - g.y;
    var dist := m.hypot(dx, dy);
    if dist < GHOST_ATTRACT_RADIUS then
      if dist > 0.0 then
        g.(vx := g.vx + (dx / dist) * GHOST_SPEED * 0.5, vy := g.vy + (dy / dist) * GHOST_SPEED * 0.5)
      else g
    else if tick % GHOST_WANDER_INTERVAL == 0 then
      var angle := WanderAngle(wander, m);
      g.(vx := m.cos(angle) * GHOST_SPEED, vy := m.sin(angle) * GHOST_SPEED)
    else g
  }

  const GHOST_MAX_SPEED := GHOST_SPEED * 4.0

  function ClampGhost(g: Ghost, m: Math): (g': Ghost) {
    var speed := m.hypot(g.vx, g.vy);
    if speed > GHOST_MAX_SPEED then
      g.(vx := (g.vx / speed) * GHOST_MAX_SPEED, vy := (g.vy / speed) * GHOST_MAX_SPEED)
    else g
  }

  function MoveGhost(g: Ghost): (g': Ghost) {
    var moved := g.(x := g.x + g.vx, y := g.y + g.vy);
    if moved.y < 0.02 then moved.(y := 0.02, vy := Abs(moved.vy))
    else if moved.y > 0.98 then moved.(y := 0.98, vy := -Abs(moved.vy))
    else moved
  }

  function FlyGhost(g: Ghost, b: Balloon, tick: nat, d: TickDraws, m: Math): (g': Ghost) {
    if !g.active then
      if g.spawnTimer - 1 <= 0 then SpawnGhost(d.phantom) else g.(spawnTimer := g.spawnTimer - 1)
    else
      var moved := MoveGhost(ClampGhost(PushGhost(g, b, tick, d.wander, m), m));
      if moved.x < -0.15 || moved.x > 1.15
      then moved.(active := false, spawnTimer := SpawnTimer(d.ghostTimer)) else moved
  }

  predicate GhostHits(g: Ghost, b: Balloon) {
    var dx, dy := b.x - g.x, b.y - g.y;
    var rx, ry := GHOST_RADIUS_X + BALLOON_RADIUS, GHOST_RADIUS_Y + BALLOON_RADIUS;
    g.active && dx * dx / (rx * rx) + dy * dy / (ry * ry) < 1.0
  }

  function Collide(w: World, m: Math): (w': World) {
    var angle := m.atan2(w.balloon.y - w.phantom.y, w.balloon.x - w.phantom.x);
    w.(balloon := w.balloon.(vy := w.balloon.vy - GHOST_DAMAGE),
       phantom := w.phantom.(vx := -m.cos(angle) * GHOST_SPEED * 3.0, vy := -m.sin(angle) * GHOST_SPEED * 3.0))
  }

  datatype Flight = Flying | HitGround | HitGhost | HitBird

  /** Everything that moves after the balloon has survived its own fall. */
  function MoveOthers(w: World, d: TickDraws, m: Math): (w': World) {
    var wind := Blow(w.wind, d);
    var balloon := Drift(w.balloon, wind.speed);
    w.(wind := wind, balloon := balloon, bird := FlyBird(w.bird, balloon, w.tick, d, m),
       phantom := FlyGhost(w.phantom, balloon, w.tick, d, m))
  }

  /** The physics part of tickOnceLocked, with the reason the game ends, if it does. */
  function TickWorld(w: World, d: TickDraws, m: Math): (r: (World, Flight)) {
    var fallen := w.(tick := w.tick + 1, balloon := Fall(w.balloon));
    if fallen.balloon.y <= 0.0 then (fallen, HitGround)
    else
      var moved := MoveOthers(fallen, d, m);
      if GhostHits(moved.phantom, moved.balloon) then (Collide(moved, m), HitGhost)
      else if BirdHits(moved.bird, moved.balloon) then (moved, HitBird)
      else (moved, Flying)
  }

  /** EndGameWithReason lifts a balloon that sank below the floor back onto it. */
  function Grounded(w: World): (w': World) {
    if w.balloon.y < 0.0 then w.(balloon := w.balloon.(y := 0.0)) else w
  }

  // ---------------------------------------------------------------- taps

  /** One component of a tap's push, weaker with distance. */
  function PushOf(d: real, dist: real): (f: real)
    requires dist != 0.0
  {
    (d / dist) * (TAP_FORCE * (1.0 - dist / TAP_RANGE))
  }

  function TapBalloon(b: Balloon, x: real, y: real, m: Math): (r: Option<Balloon>) {
    var dx, dy := b.x - x, b.y - y;
    if dx * dx + dy * dy > TAP_RANGE * TAP_RANGE then None
    else
      var dist := m.hypot(dx, dy);
      if dist < TAP_EPSILON then Some(b.(vy := b.vy + TAP_FORCE))
      else Some(b.(vx := b.vx + PushOf(dx, dist), vy := b.vy + PushOf(dy, dist)))
  }

  function ScareGhost(g: Ghost, x: real, y: real, m: Math): (g': Ghost) {
    if g.active && m.hypot(g.x - x, g.y - y) < GHOST_REPEL_RADIUS
    then g.(repelTimer := GHOST_REPEL_DURATION) else g
  }

  function TapWorld(w: World, x: real, y: real, m: Math): (r: Option<World>) {
    match TapBalloon(w.balloon, x, y, m)
    case None => None
    case Some(b) => Some(w.(balloon := b, phantom := ScareGhost(w.phantom, x, y, m)))
  }

  // ---------------------------------------------------------------- validity

  /** BalloonState.Validate. */
  predicate BalloonValid(b: Balloon) {
    0.0 <= b.y <= 1.0 && 0.0 <= b.x <= 1.0
  }

  /** BirdState.Validate. */
  predicate BirdValid(b: Bird) {
    -1.0 <= b.y <= 2.0 && -1.0 <= b.x <= 2.0
  }

  /** GhostState.Validate. */
  predicate GhostValid(g: Ghost) {
    -1.0 <= g.y <= 2.0 && -1.0 <= g.x <= 2.0
  }

  ghost predicate BirdOk(b: Bird) {
    && Abs(b.vx) <= BIRD_SPEED && Abs(b.vy) <= BIRD_SPEED
    && -0.103 <= b.x <= 1.103 && -0.103 <= b.y <= 1.103
    && (b.active ==> !OffScreen(b))
  }

  ghost predicate SpeedOk(vx: real, vy: real) {
    Square(vx) + Square(vy) <= Square(GHOST_MAX_SPEED)
  }

  ghost predicate GhostOk(g: Ghost) {
    && SpeedOk(g.vx, g.vy)
    && 0.02 <= g.y <= 0.98 && -0.158 <= g.x <= 1.158
    && (g.active ==> -0.15 <= g.x <= 1.15)
    && 0 <= g.repelTimer <= GHOST_REPEL_DURATION
  }

  const WIND_BOUND := 0.503

  ghost predicate WindOk(w: Wind) {
    Abs(w.target) <= 0.5 && Abs(w.midOffset) <= WIND_MID_MAGNITUDE && Abs(w.speed) <= WIND_BOUND
  }

  ghost predicate WorldOk(w: World) {
    BalloonValid(w.balloon) && BirdOk(w.bird) && GhostOk(w.phantom) && WindOk(w.wind)
  }

  lemma InitialWorldOk(d: WorldDraws)
    ensures WorldOk(InitialWorld(d))
  {
    SpawnGhostOk(d.phantom);
  }

  lemma ProductPositive(x: real, y: real, p: real)
    requires x > 0.0 && y > 0.0 && p == x * y
    ensures p > 0.0
  {
  }

  lemma SquareNonNegative(x: real)
    ensures Square(x) >= 0.0 && (x > 0.0 ==> Square(x) > 0.0)
    ensures Square(-x) == Square(x) && Square(Abs(x)) == Square(x)
  {
    if x > 0.0 {
      ProductPositive(x, x, Square(x));
    } else if x < 0.0 {
      ProductPositive(-x, -x, Square(x));
    }
  }

  lemma SquareProduct(x: real, y: real)
    ensures Square(x * y) == Square(x) * Square(y)
  {
  }

  lemma SquareGrows(a: real, c: real)
    requires 0.0 <= c < a
    ensures Square(c) < Square(a)
  {
    ProductPositive(a - c, a + c, Square(a) - Square(c));
  }

  lemma SquareBound(x: real, c: real)
    requires c >= 0.0
    ensures Abs(x) <= c <==> Square(x) <= Square(c)
  {
    SquareNonNegative(x);
    if c < Abs(x) {
      SquareGrows(Abs(x), c);
    } else if Abs(x) < c {
      SquareGrows(c, Abs(x));
    }
  }

  lemma SpawnGhostOk(d: GhostDraws)
    ensures GhostOk(SpawnGhost(d))
  {
    var g := SpawnGhost(d);
    assert Square(GHOST_SPEED) + Square(GHOST_SPEED) <= Square(GHOST_MAX_SPEED);
    hide Square;
    SquareBound(g.vx, GHOST_SPEED);
    SquareBound(g.vy, GHOST_SPEED);
  }

  lemma UnitSum(p: real, q: real, xx: real, yy: real, dd: real)
    requires dd > 0.0 && dd == xx + yy && xx == p * dd && yy == q * dd
    ensures p + q == 1.0
  {
    calc {
      p + q;
      (p + q) * dd / dd;
      dd / dd;
      1.0;
    }
  }

  lemma UnitVector(x: real, y: real, d: real)
    requires d > 0.0 && Square(d) == Square(x) + Square(y)
    ensures Square(x / d) + Square(y / d) == 1.0
    ensures Abs(x / d) <= 1.0 && Abs(y / d) <= 1.0
  {
    var u, v := x / d, y / d;
    assert u * d == x && v * d == y;
    assert Square(1.0) == 1.0;
    hide Square;
    SquareProduct(u, d);
    SquareProduct(v, d);
    SquareNonNegative(d);
    UnitSum(Square(u), Square(v), Square(x), Square(y), Square(d));
    SquareNonNegative(u);
    SquareNonNegative(v);
    SquareBound(u, 1.0);
    SquareBound(v, 1.0);
  }

  lemma FallOk(b: Balloon)
    requires BalloonValid(b)
    ensures 0.0 <= Fall(b).x <= 1.0 && Fall(b).y <= 1.0
  {
  }

  lemma BirdTowardOk(bird: Bird, b: Balloon, m: Math)
    requires Lawful(m) && Abs(bird.vx) <= BIRD_SPEED && Abs(bird.vy) <= BIRD_SPEED
    ensures Abs(BirdToward(bird, b, m).vx) <= BIRD_SPEED && Abs(BirdToward(bird, b, m).vy) <= BIRD_SPEED
  {
    var dx, dy := b.x - bird.x, b.y - bird.y;
    var dist := m.hypot(dx, dy);
    if dist > 0.0 {
      UnitVector(dx, dy, dist);
    }
  }

  lemma FlyBirdOk(bird: Bird, b: Balloon, tick: nat, d: TickDraws, m: Math)
    requires Lawful(m) && BirdOk(bird)
    ensures BirdOk(FlyBird(bird, b, tick, d, m))
  {
    if bird.active {
      BirdTowardOk(bird.(x := bird.x + bird.vx, y := bird.y + bird.vy), b, m);
    } else {
      var timer := if bird.spawnTimer > 0 then bird.spawnTimer - 1 else bird.spawnTimer;
      BirdTowardOk(bird.(x := if d.birdSide > 0.5 then -0.1 else 1.1, y := d.birdHeight * 0.6 + 0.2,
                         active := true, spawnTimer := timer), b, m);
    }
  }

  lemma ClampGhostOk(g: Ghost, m: Math)
    requires Lawful(m)
    ensures SpeedOk(ClampGhost(g, m).vx, ClampGhost(g, m).vy)
  {
    hide Square;
    var speed := m.hypot(g.vx, g.vy);
    if speed > GHOST_MAX_SPEED {
      UnitVector(g.vx, g.vy, speed);
      var u, v, k := g.vx / speed, g.vy / speed, GHOST_MAX_SPEED;
      ScaledUnit(u, v, k);
      assert Square(ClampGhost(g, m).vx) == Square(u * k) && Square(ClampGhost(g, m).vy) == Square(v * k);
    } else {
      SquareBound(speed, GHOST_MAX_SPEED);
    }
  }

  lemma ScaledUnit(u: real, v: real, k: real)
    requires Square(u) + Square(v) == 1.0
    ensures Square(u * k) + Square(v * k) == Square(k)
  {
    hide Square;
    SquareProduct(u, k);
    SquareProduct(v, k);
    assert (Square(u) + Square(v)) * Square(k) == Square(u) * Square(k) + Square(v) * Square(k);
  }

  lemma MoveGhostOk(g: Ghost)
    requires SpeedOk(g.vx, g.vy) && 0.02 <= g.y <= 0.98
    ensures SpeedOk(MoveGhost(g).vx, MoveGhost(g).vy) && 0.02 <= MoveGhost(g).y <= 0.98
    ensures Abs(MoveGhost(g).x - g.x) <= GHOST_MAX_SPEED
  {
    hide Square;
    SquareNonNegative(g.vy);
    SquareNonNegative(Abs(g.vy));
    SquareBound(g.vx, GHOST_MAX_SPEED);
  }

  /** Pushing only changes the velocity and counts the repel timer down. */
  function PushGhost(g: Ghost, b: Balloon, tick: nat, wander: Draw, m: Math): (g': Ghost)
    ensures g'.x == g.x && g'.y == g.y && g'.active == g.active
    ensures g'.repelTimer == if g.repelTimer > 0 then g.repelTimer - 1 else g.repelTimer
  {
    if g.repelTimer > 0 then RepelGhost(g, b, m) else SteerGhost(g, b, tick, wander, m)
  }

  lemma PushedGhostOk(g: Ghost, m: Math)
    requires Lawful(m) && 0.02 <= g.y <= 0.98 && -0.15 <= g.x <= 1.15
    ensures var moved := MoveGhost(ClampGhost(g, m));
            && SpeedOk(moved.vx, moved.vy) && 0.02 <= moved.y <= 0.98 && -0.158 <= moved.x <= 1.158
            && moved.repelTimer == g.repelTimer
  {
    ClampGhostOk(g, m);
    MoveGhostOk(ClampGhost(g, m));
  }

  lemma FlyGhostOk(g: Ghost, b: Balloon, tick: nat, d: TickDraws, m: Math)
    requires Lawful(m) && GhostOk(g)
    ensures GhostOk(FlyGhost(g, b, tick, d, m))
  {
    hide SpeedOk;
    if g.active {
      PushedGhostOk(PushGhost(g, b, tick, d.wander, m), m);
    } else {
      SpawnGhostOk(d.phantom);
    }
  }

  /** The wind never gets near its clamp: the clamp is the identity on every reachable value. */
  lemma BlowOk(w: Wind, d: TickDraws)
    requires WindOk(w)
    ensures WindOk(Blow(w, d))
    ensures var gust := if w.microIn - 1 <= 0 then Jittered(w.speed, d.jitter) else w.speed;
            Blow(w, d).speed == gust + (Blow(w, d).target + Blow(w, d).midOffset - gust) * WIND_LERP_RATE
  {
  }

  lemma MoveOthersOk(w: World, d: TickDraws, m: Math)
    requires Lawful(m) && WorldOk(w)
    ensures WorldOk(MoveOthers(w, d, m))
  {
    BlowOk(w.wind, d);
    var b := Drift(w.balloon, Blow(w.wind, d).speed);
    FlyBirdOk(w.bird, b, w.tick, d, m);
    FlyGhostOk(w.phantom, b, w.tick, d, m);
  }

  lemma CollideOk(w: World, m: Math)
    requires Lawful(m) && WorldOk(w)
    ensures WorldOk(Collide(w, m))
  {
    var angle := m.atan2(w.balloon.y - w.phantom.y, w.balloon.x - w.phantom.x);
    var c, s, k := m.cos(angle), m.sin(angle), GHOST_SPEED * 3.0;
    assert -c * GHOST_SPEED * 3.0 == -(c * k) && -s * GHOST_SPEED * 3.0 == -(s * k);
    assert Square(k) <= Square(GHOST_MAX_SPEED);
    hide Square;
    ScaledUnit(c, s, k);
    SquareNonNegative(c * k);
    SquareNonNegative(s * k);
  }

  /** Every tick keeps all entities valid, whether the game goes on or ends. */
  lemma TickWorldOk(w: World, d: TickDraws, m: Math)
    requires Lawful(m) && WorldOk(w)
    ensures WorldOk(Grounded(TickWorld(w, d, m).0))
    ensures TickWorld(w, d, m).1 != HitGround ==> WorldOk(TickWorld(w, d, m).0)
    ensures TickWorld(w, d, m).1 == Flying ==> TickWorld(w, d, m).0.balloon.y > 0.0
  {
    var fallen := w.(tick := w.tick + 1, balloon := Fall(w.balloon));
    FallOk(w.balloon);
    if fallen.balloon.y > 0.0 {
      MoveOthersOk(fallen, d, m);
      CollideOk(MoveOthers(fallen, d, m), m);
    }
  }

  lemma TapWorldOk(w: World, x: real, y: real, m: Math)
    requires WorldOk(w) && TapWorld(w, x, y, m).Some?
    ensures WorldOk(TapWorld(w, x, y, m).value)
  {
  }

  /** What WorldOk buys: the three Validate checks, and the ghost's band and speed limit. */
  lemma WorldOkIsValid(w: World)
    requires WorldOk(w)
    ensures BalloonValid(w.balloon) && BirdValid(w.bird) && GhostValid(w.phantom)
    ensures 0.02 <= w.phantom.y <= 0.98 && 0 <= w.phantom.repelTimer <= 30
    ensures Abs(w.wind.speed) <= 0.503 < WIND_CLAMP
  {
  }

  // ---------------------------------------------------------------- without taps

  const DRIFT_BOUND := 0.01006

  lemma WindPush(wind: real, x: real)
    requires Abs(wind) <= WIND_BOUND && 0.0 <= x <= 1.0
    ensures Abs(wind * WIND_MAX * WindScale(x)) <= WIND_BOUND * WIND_MAX
  {
    var s := WindScale(x);
    assert 0.0 <= s <= 1.0;
    var a := wind * WIND_MAX;
    assert Abs(a) * s <= Abs(a);
    assert Abs(a * s) == Abs(a) * s;
  }

  lemma FallDrag(b: Balloon)
    ensures Abs(Fall(b).vx) <= HORIZONTAL_DRAG * Abs(b.vx)
  {
  }

  /** Short of the ground, a tick moves the balloon by its fall and the wind only. */
  lemma TickBalloon(w: World, d: TickDraws, m: Math)
    requires TickWorld(w, d, m).1 != HitGround
    ensures var b := TickWorld(w, d, m).0.balloon;
            var fallen := Drift(Fall(w.balloon), Blow(w.wind, d).speed);
            b == fallen || b == fallen.(vy := fallen.vy - GHOST_DAMAGE)
  {
  }

  /** A tick without taps never pushes the balloon sideways faster than it was, or than 0.01006. */
  lemma TickDrift(w: World, d: TickDraws, m: Math)
    requires WorldOk(w) && TickWorld(w, d, m).1 != HitGround
    ensures Abs(TickWorld(w, d, m).0.balloon.vx) <= Max(Abs(w.balloon.vx), DRIFT_BOUND)
  {
    TickBalloon(w, d, m);
    FallOk(w.balloon);
    FallDrag(w.balloon);
    BlowOk(w.wind, d);
    DriftBound(Fall(w.balloon), Abs(w.balloon.vx), Blow(w.wind, d).speed);
  }

  lemma DriftBound(f: Balloon, v: real, speed: real)
    requires Abs(f.vx) <= HORIZONTAL_DRAG * v && 0.0 <= f.x <= 1.0 && Abs(speed) <= WIND_BOUND
    ensures Abs(Drift(f, speed).vx) <= Max(v, DRIFT_BOUND)
  {
    hide WindScale;
    WindPush(speed, f.x);
    var push := speed * WIND_MAX * WindScale(f.x);
    assert Drift(f, speed).vx == f.vx + push;
  }

  /** `n` ticks of free fall from `b0` bound what the balloon can be at now. */
  ghost predicate Fallen(b0: Balloon, b: Balloon, n: nat) {
    && b.vy <= b0.vy - n as real * GRAVITY
    && b.y <= b0.y + n as real * b0.vy - GRAVITY * (n * (n + 1) / 2) as real
  }

  lemma FallenStep(b0: Balloon, b: Balloon, n: nat)
    requires Fallen(b0, b, n)
    ensures Fallen(b0, Fall(b), n + 1)
  {
    assert (n + 1) * (n + 2) / 2 == n * (n + 1) / 2 + (n + 1);
    assert (n + 1) as real * b0.vy == n as real * b0.vy + b0.vy;
  }

  /** The free-fall bound survives a whole tick, ceiling clamp included. */
  lemma TickFallen(b0: Balloon, w: World, n: nat, d: TickDraws, m: Math)
    requires Fallen(b0, w.balloon, n) && TickWorld(w, d, m).1 == Flying
    ensures Fallen(b0, TickWorld(w, d, m).0.balloon, n + 1)
    ensures TickWorld(w, d, m).0.balloon.y > 0.0
  {
    FallenStep(b0, w.balloon, n);
  }

  /** From the initial balloon no tapless flight survives 62 ticks. */
  lemma InitialBalloonLands(b: Balloon, n: nat)
    requires Fallen(InitialBalloon(), b, n) && b.y > 0.0
    ensures n < 62
  {
    assert n >= 62 ==> n * (n + 1) >= 62 * 63;
  }
}
