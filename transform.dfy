/**
 * game_engine.scene.Transform: position, rotation in degrees, scale, and the
 * basis vectors derived from the rotation, which every rotating method keeps
 * in step with it.
 */
module Transforms {
  import opened Num
  import opened Vec
  import opened Maths

  /** `angle %= 360f`: Java's remainder keeps the sign, so the result lies in (-360, 360). */
  function WrapAngle(a: real): (r: real)
    ensures AbsR(r) < 360.0
    ensures a >= 0.0 ==> r >= 0.0
    ensures a <= 0.0 ==> r <= 0.0
    ensures AbsR(a) < 360.0 ==> r == a
  {
    JavaRemBounds(a, 360.0);
    if AbsR(a) < 360.0 then
      JavaRemSmall(a, 360.0);
      JavaRem(a, 360.0)
    else
      JavaRem(a, 360.0)
  }

  function WrapAngles(rot: Float3): Float3
  {
    Float3(WrapAngle(rot.x), WrapAngle(rot.y), WrapAngle(rot.z))
  }

  predicate AnglesInRange(rot: Float3)
  {
    AbsR(rot.x) < 360.0 && AbsR(rot.y) < 360.0 && AbsR(rot.z) < 360.0
  }

  /** Wrapping lands every angle in (-360, 360) and leaves angles already there unchanged, so it is idempotent. */
  lemma WrapAnglesProperties(rot: Float3)
    ensures AnglesInRange(WrapAngles(rot))
    ensures AnglesInRange(rot) ==> WrapAngles(rot) == rot
    ensures WrapAngles(WrapAngles(rot)) == WrapAngles(rot)
  {}

  class Transform {
    var pos: Float3
    var rot: Float3
    var basisVectors: Basis
    var scale: Float3
    /** `Maths.getBasisVectors`, evaluated with the engine's sine and cosine. */
    const basisOf: Float3 -> Basis

    /** The basis always belongs to the current rotation, and the rotation is always wrapped. */
    predicate Valid()
      reads this
    {
      basisVectors == basisOf(rot) && AnglesInRange(rot)
    }

    /** The position, basis and scale that the maths functions read. */
    function Pose(): Pose
      reads this
    {
      Maths.Pose(pos, basisVectors, scale)
    }

    constructor (xp: real, yp: real, zp: real, pr: real, yr: real, rr: real, xs: real, ys: real, zs: real, basisOf: Float3 -> Basis)
      ensures Valid()
      ensures pos == Float3(xp, yp, zp) && scale == Float3(xs, ys, zs)
      ensures rot == WrapAngles(Float3(pr, yr, rr)) && this.basisOf == basisOf
    {
      this.basisOf := basisOf;
      pos := Float3(xp, yp, zp);
      rot := Float3(pr, yr, rr);
      scale := Float3(xs, ys, zs);
      new;
      UpdateRotation();
    }

    /** `move(dx, dy, dz)`: offsets the position in place. */
    method Move(dx: real, dy: real, dz: real)
      requires Valid()
      modifies this
      ensures Valid()
      ensures pos == old(pos).Add(Float3(dx, dy, dz))
      ensures rot == old(rot) && basisVectors == old(basisVectors) && scale == old(scale)
    {
      pos := pos.Add(Float3(dx, dy, dz));
    }

    /** `move(f3)`: replaces the position by the sum. */
    method MoveBy(f: Float3)
      requires Valid()
      modifies this
      ensures Valid()
      ensures pos == old(pos).Add(f)
      ensures rot == old(rot) && basisVectors == old(basisVectors) && scale == old(scale)
    {
      pos := pos.Add(f);
    }

    /** `rotate(dp, dy, dr)`: offsets the angles, then wraps them and recomputes the basis. */
    method Rotate(dp: real, dy: real, dr: real)
      modifies this
      ensures Valid()
      ensures rot == WrapAngles(old(rot).Add(Float3(dp, dy, dr)))
      ensures pos == old(pos) && scale == old(scale)
    {
      rot := rot.Add(Float3(dp, dy, dr));
      UpdateRotation();
    }

    /** `rotate(f3)`: the same through a fresh sum. */
    method RotateBy(f: Float3)
      modifies this
      ensures Valid()
      ensures rot == WrapAngles(old(rot).Add(f))
      ensures pos == old(pos) && scale == old(scale)
    {
      rot := rot.Add(f);
      UpdateRotation();
    }

    /** `updateRotation`: each angle `%= 360`, then the basis vectors of the wrapped rotation. */
    method UpdateRotation()
      modifies this
      ensures Valid()
      ensures rot == WrapAngles(old(rot))
      ensures pos == old(pos) && scale == old(scale)
    {
      rot := Float3(WrapAngle(rot.x), rot.y, rot.z);
      rot := Float3(rot.x, WrapAngle(rot.y), rot.z);
      rot := Float3(rot.x, rot.y, WrapAngle(rot.z));
      basisVectors := basisOf(rot);
    }
  }
}
