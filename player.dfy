/**
 * game_engine.physics.player_phys: the player's jump and the per-frame
 * physics update (friction, capped acceleration, gravity, movement and
 * ground clamping). The static `camera_pos`, `PlayerVel` and `accel_dir`
 * are the fields of one `PlayerPhysics` object; Math.sqrt and the length
 * used by `normalize` are supplied by the caller.
 */
module Player {
  import opened Num
  import opened Vec

  const JUMP_STRENGTH: real := 200.0 + 9.0
  const MAX_VELOCITY: real := 1000.0
  const FRICTION: real := 50.0
  const ACCELERATE: real := 300.0
  const PLAYER_HEIGHT: real := 2.0
  const GROUND_LEVEL: real := 0.0
  const AIR_FRICTION: real := 10.0
  const GRAVITY_STRENGTH: real := -9.0

  datatype PhysState = PhysState(cameraPos: Float3, playerVel: Float3, accelDir: Float3)

  /** The feet (camera height minus half the player) are at or below the ground. */
  predicate OnGround(cameraPos: Float3)
  {
    cameraPos.y - PLAYER_HEIGHT / 2.0 <= GROUND_LEVEL
  }

  /** `jump`: adds jump_strength·dt to the vertical velocity only on the ground. */
  function Jumped(s: PhysState, dt: real): (r: PhysState)
    ensures r.cameraPos == s.cameraPos && r.accelDir == s.accelDir
    ensures r.playerVel.x == s.playerVel.x && r.playerVel.z == s.playerVel.z
    ensures OnGround(s.cameraPos) ==> r.playerVel.y == s.playerVel.y + JUMP_STRENGTH * dt
    ensures !OnGround(s.cameraPos) ==> r == s
  {
    if OnGround(s.cameraPos) then s.(playerVel := s.playerVel.(y := s.playerVel.y + JUMP_STRENGTH * dt))
    else s
  }

  /** newSpeed / speed with newSpeed = max(speed − speed·coefficient·dt, 0). */
  function FrictionRatio(speed: real, coefficient: real, dt: real): (ratio: real)
    requires speed > 0.0
    ensures coefficient >= 0.0 && dt >= 0.0 ==> 0.0 <= ratio <= 1.0
  {
    RatioBound(speed, coefficient, dt);
    MaxR(speed - speed * coefficient * dt, 0.0) / speed
  }

  lemma RatioBound(speed: real, coefficient: real, dt: real)
    requires speed > 0.0
    ensures coefficient >= 0.0 && dt >= 0.0 ==> 0.0 <= MaxR(speed - speed * coefficient * dt, 0.0) / speed <= 1.0
  {
    if coefficient >= 0.0 && dt >= 0.0 {
      MulNonNeg(speed, coefficient);
      MulNonNeg(speed * coefficient, dt);
      RatioInUnit(MaxR(speed - speed * coefficient * dt, 0.0), speed);
    }
  }

  lemma RatioInUnit(a: real, b: real)
    requires 0.0 <= a <= b && b > 0.0
    ensures 0.0 <= a / b <= 1.0
  {
    var q := a / b;
    assert q * b == a;
    if a > 0.0 {
      PosFromProduct(q, b);
    }
    if a < b {
      assert (1.0 - q) * b == b - a;
      PosFromProduct(1.0 - q, b);
    }
  }

  /**
   * Step 2 of `updatePhysics`: the horizontal velocity scaled by the
   * friction ratio (ground or air coefficient); `speed` is the supplied
   * sqrt(vx² + vz²), and a zero speed leaves the velocity alone.
   */
  function Friction(vel: Float3, onGround: bool, dt: real, speed: real): Float3
    requires speed >= 0.0
  {
    if speed == 0.0 then vel
    else ScaleHorizontal(vel, FrictionRatio(speed, if onGround then FRICTION else AIR_FRICTION, dt))
  }

  /** x and z times a ratio in [0, 1] keep their sign and do not grow; y is kept. */
  function ScaleHorizontal(vel: Float3, ratio: real): (r: Float3)
    ensures r.y == vel.y
    ensures 0.0 <= ratio <= 1.0 ==> ShrunkToward(vel.x, r.x) && ShrunkToward(vel.z, r.z)
  {
    ShrinkTowardZero(vel.x, ratio);
    ShrinkTowardZero(vel.z, ratio);
    Float3(vel.x * ratio, vel.y, vel.z * ratio)
  }

  /** b lies between 0 and a. */
  predicate ShrunkToward(a: real, b: real)
  {
    (a >= 0.0 ==> 0.0 <= b <= a) && (a <= 0.0 ==> a <= b <= 0.0)
  }

  /** For dt ≥ 0 friction keeps y, and only shrinks x and z towards 0 without reversing them. */
  lemma FrictionNeverReverses(vel: Float3, onGround: bool, dt: real, speed: real)
    requires speed >= 0.0 && dt >= 0.0
    ensures var r := Friction(vel, onGround, dt, speed);
      r.y == vel.y && ShrunkToward(vel.x, r.x) && ShrunkToward(vel.z, r.z)
  {
  }

  lemma ShrinkTowardZero(a: real, ratio: real)
    ensures 0.0 <= ratio <= 1.0 ==> ShrunkToward(a, a * ratio)
  {
    if 0.0 <= ratio <= 1.0 {
      if a >= 0.0 {
        MulNonNeg(a, ratio);
        MulNonNeg(a, 1.0 - ratio);
      } else {
        MulNonNeg(-a, ratio);
        MulNonNeg(-a, 1.0 - ratio);
      }
    }
  }

  /**
   * Step 3: accelerate·dt, cut to max(max_velocity − projVel, 0) when it
   * would push the speed along the direction past max_velocity.
   */
  function CappedAccel(projVel: real, dt: real): (a: real)
    ensures dt >= 0.0 ==> 0.0 <= a <= ACCELERATE * dt
    ensures dt >= 0.0 ==> projVel + a <= MaxR(MAX_VELOCITY, projVel)
  {
    var accelVel := ACCELERATE * dt;
    if projVel + accelVel > MAX_VELOCITY then MaxR(MAX_VELOCITY - projVel, 0.0) else accelVel
  }

  /** Step 4: gravity lowers the vertical velocity by 9·dt. */
  function Gravity(vel: Float3, dt: real): (r: Float3)
    ensures r.x == vel.x && r.z == vel.z && r.y == vel.y - 9.0 * dt
  {
    vel.(y := vel.y + GRAVITY_STRENGTH * dt)
  }

  /**
   * Step 6: feet below the ground snap the camera to ground + h/2 and
   * stop a downward velocity.
   */
  function GroundClamp(pos: Float3, vel: Float3): (r: (Float3, Float3))
    ensures r.0.y - PLAYER_HEIGHT / 2.0 >= GROUND_LEVEL
    ensures r.0.x == pos.x && r.0.z == pos.z && r.1.x == vel.x && r.1.z == vel.z
    ensures pos.y - PLAYER_HEIGHT / 2.0 >= GROUND_LEVEL ==> r == (pos, vel)
    ensures pos.y - PLAYER_HEIGHT / 2.0 < GROUND_LEVEL ==> r.0.y == GROUND_LEVEL + PLAYER_HEIGHT / 2.0 && r.1.y >= 0.0
    ensures r.1.y == vel.y || r.1.y == 0.0
  {
    if pos.y - PLAYER_HEIGHT / 2.0 < GROUND_LEVEL then
      (pos.(y := GROUND_LEVEL + PLAYER_HEIGHT / 2.0), if vel.y < 0.0 then vel.(y := 0.0) else vel)
    else (pos, vel)
  }

  /**
   * Steps 5 and 6: the camera moves by vel·dt and is then clamped. It
   * moves horizontally by exactly vel·dt, and a result still moving down
   * was not clamped, so it moved by vel·dt in every axis.
   */
  function Moved(pos: Float3, vel: Float3, dt: real): (r: (Float3, Float3))
    ensures r.0.y - PLAYER_HEIGHT / 2.0 >= GROUND_LEVEL
    ensures r.0.x == pos.x + r.1.x * dt && r.0.z == pos.z + r.1.z * dt
    ensures r.1.y < 0.0 ==> r == (pos.Add(vel.Scale(dt)), vel)
  {
    GroundClamp(pos.Add(vel.Scale(dt)), vel)
  }

  /** Step 3 applied: the velocity pushed along dir by the capped acceleration. */
  function Accelerated(vel: Float3, dir: Float3, dt: real): Float3
  {
    vel.Add(dir.Scale(CappedAccel(vel.Dot(dir), dt)))
  }

  /**
   * For a unit direction and dt ≥ 0 the speed along the direction never
   * drops, and never rises past max_velocity unless it was already there.
   */
  lemma AccelerationCapped(vel: Float3, dir: Float3, dt: real)
    requires dir.Dot(dir) == 1.0 && dt >= 0.0
    ensures var before := vel.Dot(dir);
      var after := Accelerated(vel, dir, dt).Dot(dir);
      before <= after <= MaxR(MAX_VELOCITY, before)
  {
    var a := CappedAccel(vel.Dot(dir), dt);
    DotAdd(vel, dir.Scale(a), dir);
    DotScale(dir, a, dir);
  }

  /** The state after `updatePhysics(dt)`. */
  function PhysicsStep(s: PhysState, dt: real, speed: real, accelLen: real): (r: PhysState)
    requires IsSqrt(speed, s.playerVel.x * s.playerVel.x + s.playerVel.z * s.playerVel.z)
    requires IsSqrt(accelLen, s.accelDir.LengthSq())
    ensures r.cameraPos.y - PLAYER_HEIGHT / 2.0 >= GROUND_LEVEL
    ensures r.accelDir == s.accelDir.Normalize(accelLen)
  {
    var v1 := Friction(s.playerVel, OnGround(s.cameraPos), dt, speed);
    var dir := s.accelDir.Normalize(accelLen);
    var v3 := Gravity(Accelerated(v1, dir, dt), dt);
    var moved := Moved(s.cameraPos, v3, dt);
    PhysState(moved.0, moved.1, dir)
  }

  class PlayerPhysics {
    var cameraPos: Float3
    var playerVel: Float3
    var accelDir: Float3

    function State(): PhysState
      reads this
    {
      PhysState(cameraPos, playerVel, accelDir)
    }

    constructor ()
      ensures State() == PhysState(Float3(0.0, 0.0, 0.0), Float3(0.0, 0.0, 0.0), Float3(0.0, 0.0, 0.0))
    {
      cameraPos := Float3(0.0, 0.0, 0.0);
      playerVel := Float3(0.0, 0.0, 0.0);
      accelDir := Float3(0.0, 0.0, 0.0);
    }

    /** `jump(DeltaTime)`. */
    method Jump(dt: real)
      modifies this
      ensures State() == Jumped(old(State()), dt)
    {
      var onGround := cameraPos.y - (PLAYER_HEIGHT / 2.0) <= GROUND_LEVEL;
      if onGround {
        playerVel := playerVel.(y := playerVel.y + JUMP_STRENGTH * dt);
      }
    }

    /** `updatePhysics(DeltaTime)`, with `speed` = sqrt(vx² + vz²) and `accelLen` = |accel_dir| supplied. */
    method UpdatePhysics(dt: real, speed: real, accelLen: real)
      requires IsSqrt(speed, playerVel.x * playerVel.x + playerVel.z * playerVel.z)
      requires IsSqrt(accelLen, accelDir.LengthSq())
      modifies this
      ensures State() == PhysicsStep(old(State()), dt, speed, accelLen)
      ensures cameraPos.y - PLAYER_HEIGHT / 2.0 >= GROUND_LEVEL
    {
      var onGround := cameraPos.y - (PLAYER_HEIGHT / 2.0) <= GROUND_LEVEL;
      ApplyFriction(onGround, dt, speed);
      ApplyAcceleration(dt, accelLen);
      playerVel := playerVel.(y := playerVel.y + GRAVITY_STRENGTH * dt);
      ApplyMovement(dt);
    }

    /** Step 2: ground or air friction on the horizontal velocity. */
    method ApplyFriction(onGround: bool, dt: real, speed: real)
      requires speed >= 0.0
      modifies this
      ensures playerVel == Friction(old(playerVel), onGround, dt, speed)
      ensures cameraPos == old(cameraPos) && accelDir == old(accelDir)
    {
      if speed != 0.0 {
        var coefficient := if onGround then FRICTION else AIR_FRICTION;
        var ratio := FrictionRatio(speed, coefficient, dt);
        playerVel := playerVel.(x := playerVel.x * ratio, z := playerVel.z * ratio);
      }
    }

    /** Step 3: normalize accel_dir in place and push the velocity along it. */
    method ApplyAcceleration(dt: real, accelLen: real)
      requires IsSqrt(accelLen, accelDir.LengthSq())
      modifies this
      ensures accelDir == old(accelDir).Normalize(accelLen)
      ensures playerVel == Accelerated(old(playerVel), accelDir, dt)
      ensures cameraPos == old(cameraPos)
    {
      accelDir := accelDir.Normalize(accelLen);
      var projVel := playerVel.Dot(accelDir);
      var accelVel := ACCELERATE * dt;
      if projVel + accelVel > MAX_VELOCITY {
        accelVel := MaxR(MAX_VELOCITY - projVel, 0.0);
      }
      playerVel := playerVel.Add(accelDir.Scale(accelVel));
    }

    /** Steps 5 and 6: move the camera by the velocity and clamp it to the ground. */
    method ApplyMovement(dt: real)
      modifies this
      ensures (cameraPos, playerVel) == Moved(old(cameraPos), old(playerVel), dt)
      ensures accelDir == old(accelDir)
    {
      cameraPos := cameraPos.Add(playerVel.Scale(dt));
      if cameraPos.y - (PLAYER_HEIGHT / 2.0) < GROUND_LEVEL {
        cameraPos := cameraPos.(y := GROUND_LEVEL + (PLAYER_HEIGHT / 2.0));
        if playerVel.y < 0.0 {
          playerVel := playerVel.(y := 0.0);
        }
      }
    }
  }
}
