/**
 What the entities' motions mean, in directions and sizes: a tap pushes away from the finger, the
 wind pushes where it blows, bird and ghost steer towards the balloon or away from it. The laws
 name positions, velocities and numbers, not the functions that compute them.
 */
module PhysicsLaws {
  import opened Prelude
  import opened Physics

  // ---------------------------------------------------------------- directed pushes

  /** (ix, iy) points the way of (dx, dy) and has the given size. */
  ghost predicate Along(ix: real, iy: real, dx: real, dy: real, size: real) {
    ix * dy == iy * dx && ix * dx + iy * dy >= 0.0 && Square(ix) + Square(iy) == Square(size)
  }

  lemma Crossed(u: real, v: real, d: real, k: real)
    ensures (u * k) * (v * d) == (v * k) * (u * d)
  {
  }

  lemma DotOf(u: real, v: real, d: real, k: real)
    requires Square(u) + Square(v) == 1.0 && d >= 0.0 && k >= 0.0
    ensures (u * k) * (u * d) + (v * k) * (v * d) >= 0.0
  {
    var dk := k * d;
    assert (u * k) * (u * d) == Square(u) * dk;
    assert (v * k) * (v * d) == Square(v) * dk;
    assert Square(u) * dk + Square(v) * dk == (Square(u) + Square(v)) * dk;
    hide Square;
    assert dk >= 0.0;
  }

  lemma ScaledIsAlong(u: real, v: real, d: real, k: real)
    requires Square(u) + Square(v) == 1.0 && d >= 0.0 && k >= 0.0
    ensures Along(u * k, v * k, u * d, v * d, k)
  {
    hide Square;
    Crossed(u, v, d, k);
    DotOf(u, v, d, k);
    ScaledUnit(u, v, k);
  }

  /** The unit vector of (dx, dy), scaled. */
  lemma UnitIsAlong(dx: real, dy: real, d: real, k: real, ix: real, iy: real)
    requires d > 0.0 && Square(d) == Square(dx) + Square(dy) && k >= 0.0
    requires ix == (dx / d) * k && iy == (dy / d) * k
    ensures Along(ix, iy, dx, dy, k)
  {
    hide Square, Along;
    var u, v := dx / d, dy / d;
    UnitVector(dx, dy, d);
    ScaledIsAlong(u, v, d, k);
    Multiplied(dx, d, u);
    Multiplied(dy, d, v);
    assert ix == u * k && iy == v * k;
  }

  lemma Multiplied(dx: real, d: real, u: real)
    requires d != 0.0 && u == dx / d
    ensures u * d == dx
  {
  }

  // ---------------------------------------------------------------- taps

  /** A tap at distance d: straight up at the centre, else away from the finger, weaker with distance. */
  ghost predicate Pushed(b: Balloon, b': Balloon, x: real, y: real, d: real) {
    && b'.x == b.x && b'.y == b.y && b'.score == b.score
    && (if d < 0.000000000000001
        then b'.vx == b.vx && b'.vy == b.vy + 0.025
        else Along(b'.vx - b.vx, b'.vy - b.vy, b.x - x, b.y - y, 0.025 * (1.0 - d / 0.35)))
  }

  predicate InReach(b: Balloon, x: real, y: real) {
    Square(b.x - x) + Square(b.y - y) <= 0.1225
  }

  /** Within reach the distance is at most 0.35. */
  lemma ReachIsDistance(d: real, dd: real)
    requires d >= 0.0 && Square(d) == dd && dd <= 0.1225
    ensures d <= 0.35
  {
    if d > 0.35 {
      FartherIsMore(d);
    }
  }

  lemma FartherIsMore(d: real)
    requires d > 0.35
    ensures Square(d) > 0.1225
  {
    assert d * d > 0.35 * d;
  }

  lemma WeakerWithDistance(d: real)
    requires 0.0 <= d <= 0.35
    ensures 0.025 * (1.0 - d / 0.35) >= 0.0
  {
  }

  lemma TapPushes(b: Balloon, x: real, y: real, m: Math)
    requires Lawful(m)
    ensures TapBalloon(b, x, y, m).Some? <==> InReach(b, x, y)
    ensures TapBalloon(b, x, y, m).Some? ==>
              Pushed(b, TapBalloon(b, x, y, m).value, x, y, m.hypot(b.x - x, b.y - y))
  {
    var dx, dy := b.x - x, b.y - y;
    var d := m.hypot(dx, dy);
    TapReach(b, x, y, m);
    if InReach(b, x, y) {
      hide Along;
      ReachIsDistance(d, Square(dx) + Square(dy));
      WeakerWithDistance(d);
      if d >= TAP_EPSILON {
        var b' := TapBalloon(b, x, y, m).value;
        PushedBy(b, x, y, m);
        UnitIsAlong(dx, dy, d, 0.025 * (1.0 - d / 0.35), b'.vx - b.vx, b'.vy - b.vy);
      }
    }
  }

  lemma TapReach(b: Balloon, x: real, y: real, m: Math)
    ensures TapBalloon(b, x, y, m).Some? <==> InReach(b, x, y)
  {
    hide PushOf;
  }

  lemma PushedBy(b: Balloon, x: real, y: real, m: Math)
    requires TapBalloon(b, x, y, m).Some? && m.hypot(b.x - x, b.y - y) >= TAP_EPSILON
    ensures var b', dx, dy := TapBalloon(b, x, y, m).value, b.x - x, b.y - y;
            var d := m.hypot(dx, dy);
            && b' == b.(vx := b'.vx, vy := b'.vy)
            && b'.vx - b.vx == (dx / d) * (0.025 * (1.0 - d / 0.35))
            && b'.vy - b.vy == (dy / d) * (0.025 * (1.0 - d / 0.35))
  {
    var dx, dy := b.x - x, b.y - y;
    var d := m.hypot(dx, dy);
    PushValue(dx, d);
    PushValue(dy, d);
    hide PushOf;
  }

  lemma PushValue(dx: real, d: real)
    requires d > 0.0
    ensures PushOf(dx, d) == (dx / d) * (0.025 * (1.0 - d / 0.35))
  {
  }

  /** A tap scares an active ghost, for two seconds, exactly when it is within 0.15 of it. */
  ghost predicate Scared(g: Ghost, g': Ghost, d: real) {
    g' == if g.active && d < 0.15 then g.(repelTimer := 30) else g
  }

  // ---------------------------------------------------------------- free flight

  /** One tick of the balloon by itself: gravity, drag, walls that halve and reverse, a ceiling. */
  ghost predicate Flew(b: Balloon, b': Balloon) {
    && b'.score == b.score
    && (0.0 < b.x + b.vx < 1.0 ==> b'.x - b.x == b.vx && b'.vx == 0.99 * b.vx)
    && (b.x + b.vx <= 0.0 ==> b'.x == 0.0 && b'.vx >= 0.0)
    && (b.x + b.vx >= 1.0 ==> b'.x == 1.0 && b'.vx <= 0.0)
    && (!(0.0 < b.x + b.vx < 1.0) ==> Abs(b'.vx) == 0.495 * Abs(b.vx))
    && (b.y + b.vy - 0.0005 < 1.0 ==> b'.vy == b.vy - 0.0005 && b'.y - b.y == b'.vy)
    && (b.y + b.vy - 0.0005 >= 1.0 ==> b'.y == 1.0 && b'.vy <= 0.0 && b'.vy <= b.vy - 0.0005)
  }

  lemma FallFlies(b: Balloon)
    ensures Flew(b, Fall(b))
  {
  }

  /** The wind pushes where it blows, fully in the middle, not at all at the edges, nothing else. */
  ghost predicate Blown(b: Balloon, b': Balloon, wind: real) {
    && b' == b.(vx := b'.vx)
    && (0.12 <= b.x <= 0.88 ==> b'.vx - b.vx == 0.0002 * wind)
    && (b.x <= 0.0 || b.x >= 1.0 ==> b'.vx == b.vx)
    && (wind >= 0.0 ==> 0.0 <= b'.vx - b.vx <= 0.0002 * wind)
    && (wind <= 0.0 ==> 0.0002 * wind <= b'.vx - b.vx <= 0.0)
  }

  lemma ScaleIsShare(x: real)
    ensures 0.0 <= WindScale(x) <= 1.0
    ensures 0.12 <= x <= 0.88 ==> WindScale(x) == 1.0
    ensures x <= 0.0 || x >= 1.0 ==> WindScale(x) == 0.0
  {
  }

  lemma ShareOf(wind: real, s: real, push: real)
    requires 0.0 <= s <= 1.0 && push == wind * 0.0002 * s
    ensures wind >= 0.0 ==> 0.0 <= push <= 0.0002 * wind
    ensures wind <= 0.0 ==> 0.0002 * wind <= push <= 0.0
    ensures s == 1.0 ==> push == 0.0002 * wind
    ensures s == 0.0 ==> push == 0.0
  {
    PartOf(wind * 0.0002, s, push);
  }

  lemma PartOf(a: real, s: real, p: real)
    requires 0.0 <= s <= 1.0 && p == a * s
    ensures a >= 0.0 ==> 0.0 <= p <= a
    ensures a <= 0.0 ==> a <= p <= 0.0
  {
    if 0.0 < s < 1.0 {
      if a > 0.0 {
        ProductPositive(a, s, p);
        ProductPositive(a, 1.0 - s, a - p);
      } else if a < 0.0 {
        ProductPositive(-a, s, -p);
        ProductPositive(-a, 1.0 - s, p - a);
      }
    }
  }

  lemma DriftBlows(b: Balloon, wind: real)
    ensures Blown(b, Drift(b, wind), wind)
  {
    hide WindScale;
    var push := wind * 0.0002 * WindScale(b.x);
    assert Drift(b, wind) == b.(vx := b.vx + push);
    ScaleIsShare(b.x);
    ShareOf(wind, WindScale(b.x), push);
  }

  /** From one tick to the next the wind closes 1.2 percent of the way to where it is heading. */
  lemma WindApproaches(w: Wind, d: TickDraws)
    requires WindOk(w)
    ensures var w' := Blow(w, d);
            var gust := if w.microIn - 1 <= 0 then Jittered(w.speed, d.jitter) else w.speed;
            w'.target + w'.midOffset - w'.speed == 0.988 * (w'.target + w'.midOffset - gust)
  {
    hide Blow, Jittered;
    BlowOk(w, d);
  }

  // ---------------------------------------------------------------- bird and ghost

  /** The bird flies at 0.003 per tick straight towards the balloon. */
  ghost predicate Aimed(bird: Bird, bird': Bird, b: Balloon) {
    && bird' == bird.(vx := bird'.vx, vy := bird'.vy)
    && Along(bird'.vx, bird'.vy, b.x - bird.x, b.y - bird.y, 0.003)
  }

  lemma BirdAims(bird: Bird, b: Balloon, m: Math)
    requires Lawful(m) && m.hypot(b.x - bird.x, b.y - bird.y) > 0.0
    ensures Aimed(bird, BirdToward(bird, b, m), b)
  {
    hide Along, Square;
    var dx, dy := b.x - bird.x, b.y - bird.y;
    var bird' := BirdToward(bird, b, m);
    UnitIsAlong(dx, dy, m.hypot(dx, dy), 0.003, bird'.vx, bird'.vy);
  }

  /** A repelled ghost is pushed away from the balloon by 0.01, and counts down. */
  lemma RepelPushesAway(g: Ghost, b: Balloon, m: Math)
    requires Lawful(m) && m.hypot(g.x - b.x, g.y - b.y) > 0.0
    ensures var g' := RepelGhost(g, b, m);
            && g' == g.(vx := g'.vx, vy := g'.vy, repelTimer := g.repelTimer - 1)
            && Along(g'.vx - g.vx, g'.vy - g.vy, g.x - b.x, g.y - b.y, 0.01)
  {
    hide Along, Square;
    var dx, dy := g.x - b.x, g.y - b.y;
    var g' := RepelGhost(g, b, m);
    UnitIsAlong(dx, dy, m.hypot(dx, dy), 0.01, g'.vx - g.vx, g'.vy - g.vy);
  }

  /** A ghost within 0.4 of the balloon is drawn towards it by 0.001. */
  lemma SteerPullsNear(g: Ghost, b: Balloon, tick: nat, wander: Draw, m: Math)
    requires Lawful(m) && 0.0 < m.hypot(b.x - g.x, b.y - g.y) < 0.4
    ensures var g' := SteerGhost(g, b, tick, wander, m);
            && g' == g.(vx := g'.vx, vy := g'.vy)
            && Along(g'.vx - g.vx, g'.vy - g.vy, b.x - g.x, b.y - g.y, 0.001)
  {
    hide Along, Square, WanderAngle;
    var dx, dy := b.x - g.x, b.y - g.y;
    var d := m.hypot(dx, dy);
    Halved(dx / d);
    Halved(dy / d);
    var g' := SteerGhost(g, b, tick, wander, m);
    UnitIsAlong(dx, dy, d, 0.001, g'.vx - g.vx, g'.vy - g.vy);
  }

  lemma Halved(u: real)
    ensures u * GHOST_SPEED * 0.5 == u * 0.001
  {
  }

  /** Farther away it keeps its course, and every thirtieth tick takes a new one at speed 0.002. */
  lemma SteerWanders(g: Ghost, b: Balloon, tick: nat, wander: Draw, m: Math)
    requires Lawful(m) && m.hypot(b.x - g.x, b.y - g.y) >= 0.4
    ensures var g' := SteerGhost(g, b, tick, wander, m);
            && (tick % 30 != 0 ==> g' == g)
            && (tick % 30 == 0 ==> g' == g.(vx := g'.vx, vy := g'.vy) && Square(g'.vx) + Square(g'.vy) == Square(0.002))
  {
    hide Square, WanderAngle;
    var angle := WanderAngle(wander, m);
    ScaledUnit(m.cos(angle), m.sin(angle), 0.002);
  }

  /** A ghost that is too fast is slowed to 0.008 on the same course. */
  lemma ClampKeepsCourse(g: Ghost, m: Math)
    requires Lawful(m)
    ensures var g' := ClampGhost(g, m);
            if m.hypot(g.vx, g.vy) <= 0.008 then g' == g
            else g' == g.(vx := g'.vx, vy := g'.vy) && Along(g'.vx, g'.vy, g.vx, g.vy, 0.008)
  {
    hide Along, Square;
    var d := m.hypot(g.vx, g.vy);
    if d > 0.008 {
      UnitIsAlong(g.vx, g.vy, d, 0.008, ClampGhost(g, m).vx, ClampGhost(g, m).vy);
    }
  }

  /** A new bird or ghost enters at a side edge, in the middle three fifths of the height. */
  lemma EntersAtTheSide(bird: Bird, b: Balloon, tick: nat, d: TickDraws, m: Math)
    requires !bird.active && bird.spawnTimer <= 1
    ensures var bird' := FlyBird(bird, b, tick, d, m);
            bird'.active && (bird'.x == -0.1 || bird'.x == 1.1) && 0.2 <= bird'.y <= 0.8
  {
  }

  lemma GhostEntersInward(d: GhostDraws)
    ensures var g := SpawnGhost(d);
            && g.active && g.repelTimer == 0 && 15 <= g.spawnTimer <= 30 && 0.2 <= g.y <= 0.8
            && ((g.x == -0.1 && 0.001 <= g.vx <= 0.002) || (g.x == 1.1 && -0.002 <= g.vx <= -0.001))
  {
  }

  // ---------------------------------------------------------------- collisions

  /** An ellipse with half axes rx and ry, between its inscribed and its circumscribed circle. */
  ghost predicate Ellipse(hit: bool, dx: real, dy: real, rx: real, ry: real) {
    && (hit ==> Abs(dx) < rx && Abs(dy) < ry)
    && (Square(dx) + Square(dy) < Square(Min(rx, ry)) ==> hit)
    && (dy == 0.0 ==> (hit <==> Abs(dx) < rx)) && (dx == 0.0 ==> (hit <==> Abs(dy) < ry))
  }

  lemma ShareBelowOne(x: real, r: real)
    requires r > 0.0
    ensures x * x / (r * r) >= 0.0
    ensures x * x / (r * r) < 1.0 <==> Abs(x) < r
  {
    assert x * x == Square(x) && r * r == Square(r);
    hide Square;
    SquareNonNegative(r);
    SquareOrder(x, r);
    ShareOrder(Square(x) / Square(r), Square(r), Square(x));
  }

  lemma SquareOrder(x: real, r: real)
    requires r > 0.0
    ensures Square(x) >= 0.0 && (Square(x) < Square(r) <==> Abs(x) < r)
  {
    hide Square;
    SquareNonNegative(x);
    SquareBound(x, r);
    if Abs(x) < r {
      SquareGrows(r, Abs(x));
    }
  }

  lemma NegativeShare(q: real, rr: real)
    requires q < 0.0 && rr > 0.0
    ensures q * rr < 0.0
  {
  }

  lemma ShareOrder(q: real, rr: real, xx: real)
    requires rr > 0.0 && q * rr == xx && xx >= 0.0
    ensures q >= 0.0 && (q < 1.0 <==> xx < rr)
  {
    if q < 0.0 {
      NegativeShare(q, rr);
    }
    if q < 1.0 {
      assert q * rr < 1.0 * rr;
    } else {
      assert q * rr >= 1.0 * rr;
    }
  }

  lemma InnerCircle(dx: real, dy: real, rx: real, ry: real)
    requires rx > 0.0 && ry > 0.0 && Square(dx) + Square(dy) < Square(Min(rx, ry))
    ensures dx * dx / (rx * rx) + dy * dy / (ry * ry) < 1.0
  {
    assert dx * dx == Square(dx) && dy * dy == Square(dy) && rx * rx == Square(rx) && ry * ry == Square(ry);
    hide Square;
    var r := Min(rx, ry);
    SquareNonNegative(r);
    SquareNonNegative(dx);
    SquareNonNegative(dy);
    SquareBound(r, rx);
    SquareBound(r, ry);
    SmallerShare(Square(dx), Square(r), Square(rx));
    SmallerShare(Square(dy), Square(r), Square(ry));
    SumShare(Square(dx), Square(dy), Square(r));
  }

  lemma SmallerShare(xx: real, small: real, big: real)
    ensures xx >= 0.0 && 0.0 < small <= big ==> xx / big <= xx / small
  {
  }

  lemma SumShare(xx: real, yy: real, rr: real)
    requires rr > 0.0 && xx + yy < rr
    ensures xx / rr + yy / rr < 1.0
  {
    assert xx / rr + yy / rr == (xx + yy) / rr;
  }

  lemma IsEllipse(dx: real, dy: real, rx: real, ry: real)
    requires rx > 0.0 && ry > 0.0
    ensures Ellipse(dx * dx / (rx * rx) + dy * dy / (ry * ry) < 1.0, dx, dy, rx, ry)
  {
    var p, q := dx * dx / (rx * rx), dy * dy / (ry * ry);
    ShareBelowOne(dx, rx);
    ShareBelowOne(dy, ry);
    if Square(dx) + Square(dy) < Square(Min(rx, ry)) {
      InnerCircle(dx, dy, rx, ry);
    }
    NoShare(rx);
    NoShare(ry);
    hide Square;
    assert dx == 0.0 ==> p == 0.0;
    assert dy == 0.0 ==> q == 0.0;
  }

  lemma NoShare(r: real)
    requires r > 0.0
    ensures 0.0 * 0.0 / (r * r) == 0.0
  {
    ProductPositive(r, r, r * r);
  }

  /** Bird and ghost hit the balloon only while active, and then inside their ellipse around it. */
  lemma HitsAreEllipses(bird: Bird, g: Ghost, b: Balloon)
    ensures BirdHits(bird, b) ==> bird.active
    ensures bird.active ==> Ellipse(BirdHits(bird, b), bird.x - b.x, bird.y - b.y, 0.08, 0.095)
    ensures GhostHits(g, b) ==> g.active
    ensures g.active ==> Ellipse(GhostHits(g, b), b.x - g.x, b.y - g.y, 0.095, 0.105)
  {
    hide Ellipse;
    IsEllipse(bird.x - b.x, bird.y - b.y, 0.08, 0.095);
    IsEllipse(b.x - g.x, b.y - g.y, 0.095, 0.105);
  }

  /** A ghost that hits knocks the balloon down by 0.015 and bounces off at speed 0.006. */
  ghost predicate Knocked(w: World, w': World) {
    && w'.balloon == w.balloon.(vy := w.balloon.vy - 0.015)
    && w' == w.(balloon := w'.balloon, phantom := w'.phantom)
    && w'.phantom == w.phantom.(vx := w'.phantom.vx, vy := w'.phantom.vy)
    && Square(w'.phantom.vx) + Square(w'.phantom.vy) == Square(0.006)
  }

  lemma CollideKnocks(w: World, m: Math)
    requires Lawful(m)
    ensures Knocked(w, Collide(w, m))
  {
    var angle := m.atan2(w.balloon.y - w.phantom.y, w.balloon.x - w.phantom.x);
    Bounced(m.cos(angle), m.sin(angle));
    hide Square;
  }

  lemma Bounced(u: real, v: real)
    requires Square(u) + Square(v) == 1.0
    ensures Square(-u * GHOST_SPEED * 3.0) + Square(-v * GHOST_SPEED * 3.0) == Square(0.006)
  {
    assert Square(-u * GHOST_SPEED * 3.0) == Square(u) * Square(0.006);
    assert Square(-v * GHOST_SPEED * 3.0) == Square(v) * Square(0.006);
    assert (Square(u) + Square(v)) * Square(0.006) == Square(u) * Square(0.006) + Square(v) * Square(0.006);
  }

  // ---------------------------------------------------------------- flight

  /** An active ghost moves by its velocity, turned back at the band 0.02 to 0.98. */
  lemma GhostMoves(g: Ghost)
    ensures var g' := MoveGhost(g);
            && g'.x - g.x == g.vx && g'.vx == g.vx && Abs(g'.vy) == Abs(g.vy)
            && (0.02 <= g.y + g.vy <= 0.98 ==> g'.y - g.y == g.vy && g'.vy == g.vy)
            && (g.y + g.vy < 0.02 ==> g'.y == 0.02 && g'.vy >= 0.0)
            && (g.y + g.vy > 0.98 ==> g'.y == 0.98 && g'.vy <= 0.0)
  {
  }

  /** An active bird moves by its velocity and is gone, for 15 to 30 ticks, once it is off the screen. */
  lemma BirdMoves(bird: Bird, b: Balloon, tick: nat, d: TickDraws, m: Math)
    requires bird.active
    ensures var bird' := FlyBird(bird, b, tick, d, m);
            && bird'.x - bird.x == bird.vx && bird'.y - bird.y == bird.vy
            && (bird'.active <==> -0.1 <= bird'.x <= 1.1 && -0.1 <= bird'.y <= 1.1)
            && (!bird'.active ==> 15 <= bird'.spawnTimer <= 30)
            && (tick % 30 != 0 ==> bird'.vx == bird.vx && bird'.vy == bird.vy)
  {
  }

  // ---------------------------------------------------------------- a new game

  /** Every game starts with the balloon at rest near the ceiling, a ghost coming in, and a light wind. */
  lemma GameStartsAtRest(d: WorldDraws)
    ensures var w := InitialWorld(d);
            && w.balloon == Balloon(0.5, 0.95, 0.0, 0.0, 0) && w.tick == 0
            && !w.bird.active && 15 <= w.bird.spawnTimer <= 30 && w.phantom == SpawnGhost(d.phantom)
            && -0.5 <= w.wind.target < 0.5 && w.wind.speed == 0.6 * w.wind.target && w.wind.midOffset == 0.0
            && w.wind.changeIn == 112 && w.wind.microIn == 10 && w.wind.midIn == 75
  {
    hide SpawnGhost;
  }

  /** An active ghost is gone, for 15 to 30 ticks, exactly when it has left the screen by 0.15. */
  lemma GhostLeaves(g: Ghost, b: Balloon, tick: nat, d: TickDraws, m: Math)
    requires g.active
    ensures var g' := FlyGhost(g, b, tick, d, m);
            && (g'.active <==> -0.15 <= g'.x <= 1.15)
            && (!g'.active ==> 15 <= g'.spawnTimer <= 30)
  {
    hide PushGhost;
  }

  /** An absent ghost or bird counts down to its return and does nothing else. */
  lemma AbsentCountDown(g: Ghost, bird: Bird, b: Balloon, tick: nat, d: TickDraws, m: Math)
    requires !g.active && !bird.active
    ensures FlyGhost(g, b, tick, d, m) ==
            if g.spawnTimer > 1 then g.(spawnTimer := g.spawnTimer - 1) else SpawnGhost(d.phantom)
    ensures bird.spawnTimer > 1 ==> FlyBird(bird, b, tick, d, m) == bird.(spawnTimer := bird.spawnTimer - 1)
  {
    hide SpawnGhost, BirdToward;
  }

  /** Target and offset of the wind change only when their counters run out, and start over then. */
  lemma WindCounters(w: Wind, d: TickDraws)
    ensures var w' := Blow(w, d);
            && (w.changeIn > 1 ==> w'.target == w.target && w'.changeIn == w.changeIn - 1)
            && (w.changeIn <= 1 ==> -0.5 <= w'.target < 0.5 && 112 <= w'.changeIn <= 337)
            && (w.midIn > 1 ==> w'.midOffset == w.midOffset && w'.midIn == w.midIn - 1)
            && (w.midIn <= 1 ==> Abs(w'.midOffset) <= 0.0002 && w'.midIn == 75)
            && w'.microIn == (if w.microIn > 1 then w.microIn - 1 else 10)
  {
    hide Lean, Jittered;
  }

  /** Hitting the ground ends the game before anything else moves; ghosts are looked at before birds. */
  lemma EndsInOrder(w: World, d: TickDraws, m: Math)
    ensures var r := TickWorld(w, d, m);
            && r.0.tick == w.tick + 1
            && (r.1 == HitGround <==> Fall(w.balloon).y <= 0.0)
            && (r.1 == HitGround ==> r.0 == w.(tick := w.tick + 1, balloon := Fall(w.balloon)))
            && (r.1 == HitBird ==> !GhostHits(r.0.phantom, r.0.balloon) && BirdHits(r.0.bird, r.0.balloon))
            && (r.1 == Flying ==> !GhostHits(r.0.phantom, r.0.balloon) && !BirdHits(r.0.bird, r.0.balloon))
  {
    hide Fall, Blow, Drift, FlyBird, FlyGhost, GhostHits, BirdHits;
  }
}
