/**
 * game_engine.physics.pmove: `PM_Accelerate`, which adds speed along a
 * wish direction up to a wish speed, updating the velocity in place.
 */
module PMove {
  import opened Num
  import opened Vec

  /** accel·frametime·wishspeed, cut down to what is still missing from wishspeed. */
  function AccelSpeed(addspeed: real, wishspeed: real, accel: real, frametime: real): (a: real)
    ensures a <= addspeed
    ensures a == accel * frametime * wishspeed || a == addspeed
    ensures accel * frametime * wishspeed <= addspeed ==> a == accel * frametime * wishspeed
  {
    var accelspeed := accel * frametime * wishspeed;
    if accelspeed > addspeed then addspeed else accelspeed
  }

  /**
   * The velocity after `PM_Accelerate`: unchanged when the speed along
   * wishdir already reaches wishspeed, otherwise moved by accelspeed
   * along wishdir.
   */
  function Accelerated(v: Float3, wishdir: Float3, wishspeed: real, accel: real, frametime: real): Float3
  {
    var addspeed := wishspeed - v.Dot(wishdir);
    if addspeed <= 0.0 then v
    else
      var accelspeed := AccelSpeed(addspeed, wishspeed, accel, frametime);
      Float3(v.x + accelspeed * wishdir.x, v.y + accelspeed * wishdir.y, v.z + accelspeed * wishdir.z)
  }

  /** The only change to the velocity is accelspeed·wishdir, and none when nothing is missing. */
  lemma AcceleratedChange(v: Float3, wishdir: Float3, wishspeed: real, accel: real, frametime: real)
    ensures var addspeed := wishspeed - v.Dot(wishdir);
      && (addspeed <= 0.0 ==> Accelerated(v, wishdir, wishspeed, accel, frametime) == v)
      && (addspeed > 0.0 ==>
            Accelerated(v, wishdir, wishspeed, accel, frametime) == v.Add(wishdir.Scale(AccelSpeed(addspeed, wishspeed, accel, frametime))))
  {
  }

  /**
   * For a unit wishdir the speed along wishdir never ends above wishspeed
   * unless it was there already, and is never lowered while the push is
   * non-negative.
   */
  lemma ProjectedSpeedCapped(v: Float3, wishdir: Float3, wishspeed: real, accel: real, frametime: real)
    requires wishdir.Dot(wishdir) == 1.0
    ensures var before := v.Dot(wishdir);
      var after := Accelerated(v, wishdir, wishspeed, accel, frametime).Dot(wishdir);
      && after <= MaxR(wishspeed, before)
      && (before < wishspeed ==> after <= wishspeed)
      && (accel * frametime * wishspeed >= 0.0 ==> after >= before)
  {
    var addspeed := wishspeed - v.Dot(wishdir);
    if addspeed > 0.0 {
      var a := AccelSpeed(addspeed, wishspeed, accel, frametime);
      AcceleratedChange(v, wishdir, wishspeed, accel, frametime);
      DotAdd(v, wishdir.Scale(a), wishdir);
      DotScale(wishdir, a, wishdir);
    }
  }

  /** The part of Quake's player-move state that `PM_Accelerate` uses: the velocity object. */
  class PlayerMove {
    const velocity: Float3Cell

    constructor ()
      ensures fresh(velocity) && velocity.Value() == Float3(0.0, 0.0, 0.0)
    {
      velocity := new Float3Cell(Float3(0.0, 0.0, 0.0));
    }

    /** `PM_Accelerate(wishdir, wishspeed, accel, frametime)`. */
    method Accelerate(wishdir: Float3, wishspeed: real, accel: real, frametime: real)
      modifies velocity
      ensures velocity.Value() == Accelerated(old(velocity.Value()), wishdir, wishspeed, accel, frametime)
    {
      var currentspeed := velocity.Value().Dot(wishdir);
      var addspeed := wishspeed - currentspeed;
      if addspeed <= 0.0 {
        return;
      }
      var accelspeed := accel * frametime * wishspeed;
      if accelspeed > addspeed {
        accelspeed := addspeed;
      }
      velocity.Offset(accelspeed * wishdir.x, accelspeed * wishdir.y, accelspeed * wishdir.z);
    }
  }
}
