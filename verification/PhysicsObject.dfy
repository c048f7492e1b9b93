/**
 The entities of a game as the source keeps them: records updated in place, one assignment at
 a time. Each method is proved to do what the functions of Physics say.
 */
module PhysicsObject {
  import opened Prelude
  import opened Physics
  import opened PhysicsLaws

  class Entities {
    var balloon: Balloon
    var bird: Bird
    var phantom: Ghost
    var wind: Wind
    var tick: nat

    function View(): (w: World)
      reads this
    {
      World(balloon, bird, phantom, wind, tick)
    }

    /** Positions, speeds, timers and wind are within their bounds. */
    ghost predicate Valid()
      reads this
    {
      WorldOk(View())
    }

    /** ResetGameEntities and initWind: what a new game starts from. */
    constructor (d: WorldDraws)
      ensures View() == InitialWorld(d) && Valid()
    {
      InitialWorldOk(d);
      balloon := InitialBalloon();
      bird := Bird(0.0, 0.0, 0.0, 0.0, false, RandomSpawnTimer(d.birdTimer));
      phantom := SpawnGhost(d.phantom);
      wind := InitialWind(d.wind);
      tick := 0;
    }

    /** The entities of a game in progress. */
    constructor Of(w: World)
      ensures View() == w
    {
      balloon, bird, phantom, wind, tick := w.balloon, w.bird, w.phantom, w.wind, w.tick;
    }

    method ApplyPhysics() returns (over: bool)
      modifies this`balloon
      ensures balloon == Fall(old(balloon))
      ensures over <==> balloon.y <= 0.0
      ensures Flew(old(balloon), balloon)
    {
      FallFlies(balloon);
      hide Flew;
      balloon := balloon.(vy := balloon.vy - GRAVITY);
      balloon := balloon.(y := balloon.y + balloon.vy);
      balloon := balloon.(x := balloon.x + balloon.vx);
      balloon := balloon.(vx := balloon.vx * HORIZONTAL_DRAG);
      if balloon.x <= 0.0 {
        balloon := balloon.(x := 0.0, vx := Abs(balloon.vx) * 0.5);
      }
      if balloon.x >= 1.0 {
        balloon := balloon.(x := 1.0, vx := -Abs(balloon.vx) * 0.5);
      }
      if balloon.y <= 0.0 {
        return true;
      }
      if balloon.y >= 1.0 {
        balloon := balloon.(y := 1.0);
        if balloon.vy > 0.0 {
          balloon := balloon.(vy := 0.0);
        }
      }
      return false;
    }

    method UpdateWind(d: TickDraws)
      modifies this`wind, this`balloon
      ensures wind == Blow(old(wind), d) && balloon == Drift(old(balloon), wind.speed)
      ensures Blown(old(balloon), balloon, wind.speed)
    {
      hide Jittered, MidOffset, WindTarget, ChangeLength, Lean, WindScale, Blown;
      DriftBlows(balloon, Blow(wind, d).speed);
      wind := wind.(microIn := wind.microIn - 1);
      if wind.microIn <= 0 {
        wind := wind.(speed := Jittered(wind.speed, d.jitter), microIn := WIND_MICRO_INTERVAL);
      }
      wind := wind.(midIn := wind.midIn - 1);
      if wind.midIn <= 0 {
        wind := wind.(midOffset := MidOffset(d.mid), midIn := WIND_MID_INTERVAL);
      }
      wind := wind.(changeIn := wind.changeIn - 1);
      if wind.changeIn <= 0 {
        wind := wind.(target := WindTarget(d.target), changeIn := ChangeLength(d.changeLength));
      }
      var effectiveTarget := wind.target + wind.midOffset;
      wind := wind.(speed := Lean(wind.speed, effectiveTarget));
      balloon := balloon.(vx := balloon.vx + wind.speed * WIND_MAX * WindScale(balloon.x));
    }

    method SetBirdVelocityToward(m: Math)
      modifies this`bird
      ensures bird == BirdToward(old(bird), balloon, m)
      ensures Lawful(m) && m.hypot(balloon.x - old(bird).x, balloon.y - old(bird).y) > 0.0 ==>
                Aimed(old(bird), bird, balloon)
    {
      hide Aimed, Lawful;
      if Lawful(m) && m.hypot(balloon.x - bird.x, balloon.y - bird.y) > 0.0 {
        BirdAims(bird, balloon, m);
      }
      var dx, dy := balloon.x - bird.x, balloon.y - bird.y;
      var dist := m.hypot(dx, dy);
      if dist <= 0.0 {
        return;
      }
      bird := bird.(vx := (dx / dist) * BIRD_SPEED);
      bird := bird.(vy := (dy / dist) * BIRD_SPEED);
    }

    method UpdateBirdAI(d: TickDraws, m: Math)
      modifies this`bird
      ensures bird == FlyBird(old(bird), balloon, tick, d, m)
    {
      hide BirdToward;
      if !bird.active {
        if bird.spawnTimer > 0 {
          bird := bird.(spawnTimer := bird.spawnTimer - 1);
        }
        if bird.spawnTimer <= 0 {
          bird := bird.(x := if d.birdSide > 0.5 then -0.1 else 1.1);
          bird := bird.(y := d.birdHeight * 0.6 + 0.2);
          bird := bird.(active := true);
          SetBirdVelocityToward(m);
        }
      } else {
        bird := bird.(x := bird.x + bird.vx);
        bird := bird.(y := bird.y + bird.vy);
        if tick % 30 == 0 {
          SetBirdVelocityToward(m);
        }
        if OffScreen(bird) {
          bird := bird.(active := false);
          bird := bird.(spawnTimer := RandomSpawnTimer(d.birdTimer));
        }
      }
    }

    /** applyGhostRepel and applyGhostAttractOrWander. */
    method SteerPhantom(wander: Draw, m: Math)
      modifies this`phantom
      ensures phantom == PushGhost(old(phantom), balloon, tick, wander, m)
    {
      hide WanderAngle;
      if phantom.repelTimer > 0 {
        phantom := phantom.(repelTimer := phantom.repelTimer - 1);
        var dx, dy := phantom.x - balloon.x, phantom.y - balloon.y;
        var dist := m.hypot(dx, dy);
        if dist == 0.0 {
          dist := 1.0;
        }
        phantom := phantom.(vx := phantom.vx + (dx / dist) * GHOST_REPEL_FORCE);
        phantom := phantom.(vy := phantom.vy + (dy / dist) * GHOST_REPEL_FORCE);
        return;
      }
      var dx, dy := balloon.x - phantom.x, balloon.y - phantom.y;
      var dist := m.hypot(dx, dy);
      if dist < GHOST_ATTRACT_RADIUS {
        if dist > 0.0 {
          phantom := phantom.(vx := phantom.vx + (dx / dist) * GHOST_SPEED * 0.5);
          phantom := phantom.(vy := phantom.vy + (dy / dist) * GHOST_SPEED * 0.5);
        }
        return;
      }
      if tick % GHOST_WANDER_INTERVAL == 0 {
        var angle := WanderAngle(wander, m);
        phantom := phantom.(vx := m.cos(angle) * GHOST_SPEED);
        phantom := phantom.(vy := m.sin(angle) * GHOST_SPEED);
      }
    }

    method ClampGhostVelocity(m: Math)
      modifies this`phantom
      ensures phantom == ClampGhost(old(phantom), m)
    {
      var speed := m.hypot(phantom.vx, phantom.vy);
      if speed > GHOST_MAX_SPEED {
        phantom := phantom.(vx := (phantom.vx / speed) * GHOST_MAX_SPEED);
        phantom := phantom.(vy := (phantom.vy / speed) * GHOST_MAX_SPEED);
      }
    }

    method UpdateGhostAI(d: TickDraws, m: Math)
      modifies this`phantom
      ensures phantom == FlyGhost(old(phantom), balloon, tick, d, m)
    {
      hide PushGhost, ClampGhost, SpawnGhost, SpawnTimer;
      if !phantom.active {
        phantom := phantom.(spawnTimer := phantom.spawnTimer - 1);
        if phantom.spawnTimer <= 0 {
          phantom := SpawnGhost(d.phantom);
        }
        return;
      }
      SteerPhantom(d.wander, m);
      ClampGhostVelocity(m);
      phantom := phantom.(x := phantom.x + phantom.vx);
      phantom := phantom.(y := phantom.y + phantom.vy);
      if phantom.y < 0.02 {
        phantom := phantom.(y := 0.02, vy := Abs(phantom.vy));
      }
      if phantom.y > 0.98 {
        phantom := phantom.(y := 0.98, vy := -Abs(phantom.vy));
      }
      if phantom.x < -0.15 || phantom.x > 1.15 {
        phantom := phantom.(active := false);
        phantom := phantom.(spawnTimer := SpawnTimer(d.ghostTimer));
      }
    }

    method CheckGhostCollision(m: Math) returns (hit: bool)
      modifies this`balloon, this`phantom
      ensures hit == GhostHits(old(phantom), old(balloon))
      ensures View() == if hit then Collide(old(View()), m) else old(View())
      ensures hit && Lawful(m) ==> Knocked(old(View()), View())
      ensures hit ==> old(phantom.active)
      ensures old(phantom.active) ==>
                Ellipse(hit, old(balloon.x) - old(phantom.x), old(balloon.y) - old(phantom.y), 0.095, 0.105)
    {
      hide GhostHits, Knocked, Ellipse, Lawful;
      HitsAreEllipses(bird, phantom, balloon);
      if Lawful(m) {
        CollideKnocks(View(), m);
      }
      if !GhostHits(phantom, balloon) {
        return false;
      }
      var angle := m.atan2(balloon.y - phantom.y, balloon.x - phantom.x);
      balloon := balloon.(vy := balloon.vy - GHOST_DAMAGE);
      phantom := phantom.(vx := -m.cos(angle) * GHOST_SPEED * 3.0);
      phantom := phantom.(vy := -m.sin(angle) * GHOST_SPEED * 3.0);
      return true;
    }

    /** The physics part of tickOnceLocked. */
    method Tick(d: TickDraws, m: Math) returns (flight: Flight)
      modifies this
      ensures (View(), flight) == TickWorld(old(View()), d, m)
      ensures old(Valid()) && Lawful(m) && flight != HitGround ==> Valid()
    {
      hide Fall, Blow, Drift, FlyBird, FlyGhost, GhostHits, BirdHits, Collide, WorldOk, Lawful, Flew, Blown, Knocked,
           Ellipse;
      if Valid() && Lawful(m) {
        TickWorldOk(View(), d, m);
      }
      tick := tick + 1;
      var over := ApplyPhysics();
      if over {
        return HitGround;
      }
      UpdateWind(d);
      UpdateBirdAI(d, m);
      UpdateGhostAI(d, m);
      var caught := CheckGhostCollision(m);
      if caught {
        return HitGhost;
      }
      return if BirdHits(bird, balloon) then HitBird else Flying;
    }

    method ApplyTapForce(x: real, y: real, m: Math) returns (effective: bool)
      modifies this`balloon
      ensures TapBalloon(old(balloon), x, y, m) == if effective then Some(balloon) else None
      ensures !effective ==> balloon == old(balloon)
      ensures Lawful(m) ==> (effective <==> InReach(old(balloon), x, y))
      ensures Lawful(m) && effective ==>
                Pushed(old(balloon), balloon, x, y, m.hypot(old(balloon).x - x, old(balloon).y - y))
    {
      hide PushOf, Pushed, InReach, Lawful;
      if Lawful(m) {
        TapPushes(balloon, x, y, m);
      }
      var dx, dy := balloon.x - x, balloon.y - y;
      if dx * dx + dy * dy > TAP_RANGE * TAP_RANGE {
        return false;
      }
      var dist := m.hypot(dx, dy);
      if dist < TAP_EPSILON {
        balloon := balloon.(vy := balloon.vy + TAP_FORCE);
        return true;
      }
      balloon := balloon.(vx := balloon.vx + PushOf(dx, dist));
      balloon := balloon.(vy := balloon.vy + PushOf(dy, dist));
      return true;
    }

    /** A tap pushes the balloon and, if that worked, may scare the ghost. */
    method Tap(x: real, y: real, m: Math) returns (effective: bool)
      modifies this`balloon, this`phantom
      ensures TapWorld(old(View()), x, y, m) == if effective then Some(View()) else None
      ensures !effective ==> View() == old(View())
      ensures old(Valid()) ==> Valid()
      ensures effective ==> Scared(old(phantom), phantom, m.hypot(old(phantom).x - x, old(phantom).y - y))
      ensures Lawful(m) ==> (effective <==> InReach(old(balloon), x, y))
      ensures Lawful(m) && effective ==>
                Pushed(old(balloon), balloon, x, y, m.hypot(old(balloon).x - x, old(balloon).y - y))
    {
      hide TapBalloon, WorldOk, Pushed, InReach, Lawful;
      if Valid() && TapWorld(View(), x, y, m).Some? {
        TapWorldOk(View(), x, y, m);
      }
      effective := ApplyTapForce(x, y, m);
      if effective && phantom.active && m.hypot(phantom.x - x, phantom.y - y) < GHOST_REPEL_RADIUS {
        phantom := phantom.(repelTimer := GHOST_REPEL_DURATION);
      }
    }
  }
}
