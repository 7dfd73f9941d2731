/**
 * game_engine.script.Input: the keyboard and mouse state the scripts read.
 * The source keeps it in static fields; here it is one `Input` object.
 * A key is "down" in the frame it became pressed and "up" in the frame it
 * was released, measured against the snapshot `updateInput` takes.
 */
module InputState {
  import opened Num
  import opened Vec

  /** java.awt.event.KeyEvent codes of the movement keys. */
  const VK_A: int := 65
  const VK_D: int := 68
  const VK_S: int := 83
  const VK_W: int := 87

  /** Pressed now and not at the last snapshot. */
  predicate IsDown(pressed: set<int>, last: set<int>, key: int)
  {
    key in pressed && key !in last
  }

  /** Pressed at the last snapshot and not now. */
  predicate IsUp(pressed: set<int>, last: set<int>, key: int)
  {
    key !in pressed && key in last
  }

  /** A key is never down and up at once; down means pressed, up means not pressed. */
  lemma EdgesExclusive(pressed: set<int>, last: set<int>, key: int)
    ensures !(IsDown(pressed, last, key) && IsUp(pressed, last, key))
    ensures IsDown(pressed, last, key) ==> key in pressed
    ensures IsUp(pressed, last, key) ==> key !in pressed
  {
  }

  /**
   * Right after a snapshot, pressing a key makes exactly that key down,
   * unless it was already held, and releasing one makes exactly that key up,
   * if it was held.
   */
  lemma EdgesAfterSnapshot(pressed: set<int>, key: int, other: int)
    requires other != key
    ensures IsDown(pressed + {key}, pressed, key) <==> key !in pressed
    ensures IsUp(pressed - {key}, pressed, key) <==> key in pressed
    ensures !IsDown(pressed + {key}, pressed, other) && !IsUp(pressed + {key}, pressed, other)
    ensures !IsDown(pressed - {key}, pressed, other) && !IsUp(pressed - {key}, pressed, other)
  {
  }

  /** +1 for the positive key alone, −1 for the negative key alone, 0 for both or neither. */
  function Axis(positive: bool, negative: bool): real
  {
    (if positive then 1.0 else 0.0) - (if negative then 1.0 else 0.0)
  }

  /** The raw (side, forward) pair of `movementInput`: A/D give side, W/S forward. */
  function Axes(keys: set<int>): (r: Float2)
    ensures r.x == 1.0 <==> VK_A in keys && VK_D !in keys
    ensures r.x == -1.0 <==> VK_D in keys && VK_A !in keys
    ensures r.x == 0.0 <==> (VK_A in keys <==> VK_D in keys)
    ensures r.y == 1.0 <==> VK_W in keys && VK_S !in keys
    ensures r.y == -1.0 <==> VK_S in keys && VK_W !in keys
    ensures r.y == 0.0 <==> (VK_W in keys <==> VK_S in keys)
  {
    Float2(Axis(VK_A in keys, VK_D in keys), Axis(VK_W in keys, VK_S in keys))
  }

  /** Keys other than W, A, S and D do not change the movement axes. */
  lemma OtherKeysIgnored(keys: set<int>, key: int)
    requires key != VK_A && key != VK_D && key != VK_S && key != VK_W
    ensures Axes(keys + {key}) == Axes(keys) && Axes(keys - {key}) == Axes(keys)
  {
  }

  /**
   * `movementInput()` is zero exactly when each pair of opposite keys
   * cancels; otherwise it has unit length and points along the raw axes
   * (a diagonal is 1/√2 per axis). `len` is the supplied length of the axes.
   */
  lemma MovementDirection(keys: set<int>, len: real)
    requires IsSqrt(len, Axes(keys).LengthSq())
    ensures var r := Axes(keys).Normalize(len);
      (r == Float2(0.0, 0.0) <==> Axes(keys) == Float2(0.0, 0.0))
      && (Axes(keys) != Float2(0.0, 0.0) ==> r.LengthSq() == 1.0 && r.Scale(len) == Axes(keys))
  {
    var a := Axes(keys);
    AxisSquare(a.x);
    AxisSquare(a.y);
    if a != Float2(0.0, 0.0) {
      assert len * len >= 1.0;
    }
  }

  /** An axis value squares to 0 or 1. */
  lemma AxisSquare(v: real)
    requires v == 1.0 || v == -1.0 || v == 0.0
    ensures v * v == (if v == 0.0 then 0.0 else 1.0)
  {
  }

  class Input {
    var pressed: set<int>
    var last: set<int>
    var mouseDelta: Float2Cell

    /** No key held, no snapshot, and a zero mouse delta. */
    constructor ()
      ensures pressed == {} && last == {}
      ensures fresh(mouseDelta) && mouseDelta.Value() == Float2(0.0, 0.0)
    {
      pressed := {};
      last := {};
      mouseDelta := new Float2Cell(Float2(0.0, 0.0));
    }

    /** `getMouseDelta()`: the mutable vector itself, not a copy. */
    method GetMouseDelta() returns (d: Float2Cell)
      ensures d == mouseDelta
    {
      d := mouseDelta;
    }

    /** `moveMouse(dx, dy)`: accumulates into the current delta in place. */
    method MoveMouse(dx: real, dy: real)
      modifies mouseDelta
      ensures mouseDelta.Value() == old(mouseDelta.Value()).Add(Float2(dx, dy))
    {
      mouseDelta.Offset(dx, dy);
    }

    function KeyPressed(key: int): bool
      reads this
    {
      key in pressed
    }

    function KeyDown(key: int): bool
      reads this
    {
      IsDown(pressed, last, key)
    }

    function KeyUp(key: int): bool
      reads this
    {
      IsUp(pressed, last, key)
    }

    /** `movementInput()` with the length of the raw axes supplied. */
    function MovementInput(len: real): Float2
      reads this
      requires IsSqrt(len, Axes(pressed).LengthSq())
    {
      Axes(pressed).Normalize(len)
    }

    method PressKey(key: int)
      modifies this
      ensures pressed == old(pressed) + {key}
      ensures last == old(last) && mouseDelta == old(mouseDelta)
    {
      pressed := pressed + {key};
    }

    method ReleaseKey(key: int)
      modifies this
      ensures pressed == old(pressed) - {key}
      ensures last == old(last) && mouseDelta == old(mouseDelta)
    {
      pressed := pressed - {key};
    }

    /**
     * `updateInput()`: snapshots the held keys, after which no key is down
     * or up, and starts a new zero mouse delta object.
     */
    method UpdateInput()
      modifies this
      ensures pressed == old(pressed) && last == pressed
      ensures forall key :: !KeyDown(key) && !KeyUp(key)
      ensures fresh(mouseDelta) && mouseDelta.Value() == Float2(0.0, 0.0)
    {
      last := pressed;
      mouseDelta := new Float2Cell(Float2(0.0, 0.0));
    }
  }
}
