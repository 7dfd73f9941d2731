/**
 * The engine's vector value types (game_engine.math.Float3 and Float2) and the
 * two in-place mutators the source has (`set` and `offset`), which live on the
 * small classes Float3Cell and Float2Cell. Everything else on a vector returns
 * a fresh value, so here it is a member function of a datatype.
 */
module Vec {
  import opened Num

  datatype Float3 = Float3(x: real, y: real, z: real)
  {
    function Add(f: Float3): Float3 { Float3(x + f.x, y + f.y, z + f.z) }
    function Sub(f: Float3): Float3 { Float3(x - f.x, y - f.y, z - f.z) }
    function Multiply(f: Float3): Float3 { Float3(x * f.x, y * f.y, z * f.z) }
    function Scale(s: real): Float3 { Float3(x * s, y * s, z * s) }
    function Dot(f: Float3): real { x * f.x + y * f.y + z * f.z }
    function LengthSq(): real { Dot(this) }

    /** Componentwise Java `%`, which keeps each component's sign. */
    function Modulo(v: real): Float3
      requires v != 0.0
    {
      Float3(JavaRem(x, v), JavaRem(y, v), JavaRem(z, v))
    }

    /** Componentwise reciprocal; over reals a zero component has none. */
    function Inverse(): Float3
      requires x != 0.0 && y != 0.0 && z != 0.0
    {
      Float3(1.0 / x, 1.0 / y, 1.0 / z)
    }

    /**
     * As written, `normalize` multiplies by the length instead of dividing by
     * it, so the result's length is the square of the original length.
     * `len` is the square root of LengthSq(), supplied by the caller.
     */
    function Normalize(len: real): (r: Float3)
      requires IsSqrt(len, LengthSq())
      ensures len == 0.0 ==> r == Zero()
      ensures r.LengthSq() == LengthSq() * LengthSq()
      ensures r.Dot(this) == len * LengthSq()
    {
      if len == 0.0 then Zero()
      else
        var r := Scale(len);
        assert r.LengthSq() == LengthSq() * (len * len);
        assert r.Dot(this) == len * LengthSq();
        r
    }

    /** Linear interpolation: `t = 0` gives this vector and `t = 1` gives `f`. */
    function Lerp(f: Float3, t: real): (r: Float3)
      ensures t == 0.0 ==> r == this
      ensures t == 1.0 ==> r == f
    {
      Add(f.Sub(this).Scale(t))
    }
    function To2D(): Float2 { Float2(x, y) }

    /** The packed 0xRRGGBB int: each channel is `(int) (c * 255)`, combined with shifts and `|` on 32-bit ints. */
    function GetColor(): int
    {
      PackRGB(JavaIntCast(x * 255.0), JavaIntCast(y * 255.0), JavaIntCast(z * 255.0))
    }
  }

  /** `(r << 16) | (g << 8) | b` on 32-bit ints. */
  function PackRGB(r: int, g: int, b: int): int
  {
    Pow2Facts();
    var hi, mid, lo := Unsigned32(r * 0x10000), Unsigned32(g * 0x100), Unsigned32(b);
    BitOrBound(hi, mid, 32);
    var rg := BitOr(hi, mid);
    BitOrBound(rg, lo, 32);
    Signed32(BitOr(rg, lo))
  }

  /** A channel in [0,1] times 255, cast to int, is a byte. */
  lemma ChannelByte(v: real)
    requires 0.0 <= v <= 1.0
    ensures 0 <= Trunc(v * 255.0) <= 255 && JavaIntCast(v * 255.0) == Trunc(v * 255.0)
  {}

  /** Packing three bytes is placing them side by side. */
  lemma PackRGBBytes(r: int, g: int, b: int)
    requires 0 <= r < 0x100 && 0 <= g < 0x100 && 0 <= b < 0x100
    ensures PackRGB(r, g, b) == r * 0x10000 + g * 0x100 + b
  {
    Unsigned32Small(r * 0x10000);
    Unsigned32Small(g * 0x100);
    Unsigned32Small(b);
    PackBytes(r, g, b);
    var p := BitOr(BitOr(r * 0x10000, g * 0x100), b);
    assert PackRGB(r, g, b) == Signed32(p);
  }

  function Zero(): Float3 { Float3(0.0, 0.0, 0.0) }

  /** The three bytes of a packed colour, each divided by 255. */
  function FromRGB(rgb: int): (c: Float3)
    ensures 0.0 <= c.x <= 1.0 && 0.0 <= c.y <= 1.0 && 0.0 <= c.z <= 1.0
    ensures c.x * 255.0 == Byte(rgb, 2) as real && c.y * 255.0 == Byte(rgb, 1) as real && c.z * 255.0 == Byte(rgb, 0) as real
  {
    Float3(Byte(rgb, 2) as real / 255.0, Byte(rgb, 1) as real / 255.0, Byte(rgb, 0) as real / 255.0)
  }

  /** Byte `k` (0 = lowest) of the 32-bit pattern of `i`: `(i & (0xff << 8k)) >> 8k`. */
  function Byte(i: int, k: nat): (b: int)
    requires k <= 2
    ensures 0 <= b < 256
  {
    if k == 0 then i % 0x100 else if k == 1 then (i / 0x100) % 0x100 else (i / 0x10000) % 0x100
  }

  /** Three bytes ORed at bit offsets 16, 8 and 0 do not overlap, so the OR is a sum. */
  lemma PackBytes(r: int, g: int, b: int)
    requires 0 <= r < 0x100 && 0 <= g < 0x100 && 0 <= b < 0x100
    ensures BitOr(BitOr(r * 0x10000, g * 0x100), b) == r * 0x10000 + g * 0x100 + b
  {
    Pow2Facts();
    BitOrDisjoint(r, g * 0x100, 16);
    assert (r * 0x100 + g) * 0x100 == r * 0x10000 + g * 0x100;
    BitOrDisjoint(r * 0x100 + g, b, 8);
  }

  /** The three bytes of a packed colour are the ones packed into it. */
  lemma UnpackBytes(r: int, g: int, b: int)
    requires 0 <= r < 0x100 && 0 <= g < 0x100 && 0 <= b < 0x100
    ensures var p := r * 0x10000 + g * 0x100 + b;
      Byte(p, 2) == r && Byte(p, 1) == g && Byte(p, 0) == b
  {
    var p := r * 0x10000 + g * 0x100 + b;
    assert p == (r * 0x100 + g) * 0x100 + b;
    assert p / 0x100 == r * 0x100 + g;
    assert p / 0x10000 == (p / 0x100) / 0x100;
  }

  /** For channels in [0,1] the packed colour is exactly the three truncated bytes, side by side. */
  lemma GetColorBytes(c: Float3)
    requires 0.0 <= c.x <= 1.0 && 0.0 <= c.y <= 1.0 && 0.0 <= c.z <= 1.0
    ensures 0 <= c.GetColor() <= 0xFF_FFFF
    ensures c.GetColor() == Trunc(c.x * 255.0) * 0x10000 + Trunc(c.y * 255.0) * 0x100 + Trunc(c.z * 255.0)
    ensures Byte(c.GetColor(), 2) == Trunc(c.x * 255.0)
    ensures Byte(c.GetColor(), 1) == Trunc(c.y * 255.0)
    ensures Byte(c.GetColor(), 0) == Trunc(c.z * 255.0)
  {
    var r, g, b := Trunc(c.x * 255.0), Trunc(c.y * 255.0), Trunc(c.z * 255.0);
    GetColorValue(c);
    UnpackBytes(r, g, b);
  }

  lemma GetColorValue(c: Float3)
    requires 0.0 <= c.x <= 1.0 && 0.0 <= c.y <= 1.0 && 0.0 <= c.z <= 1.0
    ensures 0 <= Trunc(c.x * 255.0) <= 255 && 0 <= Trunc(c.y * 255.0) <= 255 && 0 <= Trunc(c.z * 255.0) <= 255
    ensures c.GetColor() == Trunc(c.x * 255.0) * 0x10000 + Trunc(c.y * 255.0) * 0x100 + Trunc(c.z * 255.0)
  {
    GetColorIsPack(c);
    PackRGBBytes(Trunc(c.x * 255.0), Trunc(c.y * 255.0), Trunc(c.z * 255.0));
  }

  /** For channels in [0,1] the int casts are plain truncations. */
  lemma GetColorIsPack(c: Float3)
    requires 0.0 <= c.x <= 1.0 && 0.0 <= c.y <= 1.0 && 0.0 <= c.z <= 1.0
    ensures 0 <= Trunc(c.x * 255.0) <= 255 && 0 <= Trunc(c.y * 255.0) <= 255 && 0 <= Trunc(c.z * 255.0) <= 255
    ensures c.GetColor() == PackRGB(Trunc(c.x * 255.0), Trunc(c.y * 255.0), Trunc(c.z * 255.0))
  {
    ChannelByte(c.x);
    ChannelByte(c.y);
    ChannelByte(c.z);
  }

  /** Unpacking then packing a colour gives back its low 24 bits, `rgb & 0xFFFFFF`. */
  lemma ColorRoundTrip(rgb: int)
    ensures FromRGB(rgb).GetColor() == rgb % 0x100_0000
  {
    var c := FromRGB(rgb);
    var b0, b1, b2 := Byte(rgb, 0), Byte(rgb, 1), Byte(rgb, 2);
    assert Trunc(c.x * 255.0) == b2 && Trunc(c.y * 255.0) == b1 && Trunc(c.z * 255.0) == b0;
    GetColorBytes(c);
    LowBytes(rgb);
  }

  /** An int's low 24 bits are its three low bytes. */
  lemma LowBytes(rgb: int)
    ensures Byte(rgb, 2) * 0x10000 + Byte(rgb, 1) * 0x100 + Byte(rgb, 0) == rgb % 0x100_0000
  {
    var b0, b1, b2 := Byte(rgb, 0), Byte(rgb, 1), Byte(rgb, 2);
    var q0 := rgb / 0x100;
    assert rgb == 0x100 * q0 + b0;
    var q1 := q0 / 0x100;
    assert q0 == 0x100 * q1 + b1;
    assert rgb / 0x10000 == q1;
    var q2 := q1 / 0x100;
    assert q1 == 0x100 * q2 + b2;
    assert rgb == 0x100_0000 * q2 + (b2 * 0x10000 + b1 * 0x100 + b0);
  }

  /** The hue brought into [0, 360): `(hue % 360 + 360) % 360`. */
  function Hue360(hue: real): (h: real)
    ensures 0.0 <= h < 360.0
  {
    JavaRemBounds(hue, 360.0);
    JavaRemBounds(JavaRem(hue, 360.0) + 360.0, 360.0);
    JavaRem(JavaRem(hue, 360.0) + 360.0, 360.0)
  }

  /** The fraction `1 - |(h / 60) % 2 - 1|` used for the second-largest channel, in [0,1] for h >= 0. */
  function HueFraction(h: real): (f: real)
    requires h >= 0.0
    ensures 0.0 <= f <= 1.0
  {
    JavaRemBounds(h / 60.0, 2.0);
    1.0 - AbsR(JavaRem(h / 60.0, 2.0) - 1.0)
  }

  /** HSV to RGB with hue in degrees and saturation and value in percent. */
  function FromHSV(hue: real, saturation: real, value: real): Float3
  {
    var h := Hue360(hue);
    HueToRGB(h, HueFraction(h), saturation / 100.0, value / 100.0)
  }

  /** Chroma c = v s, the second channel x = c f and the offset m = v - c. */
  function HueToRGB(h: real, f: real, s: real, v: real): Float3
  {
    var c := v * s;
    HexChannels(h, c, c * f, v - c)
  }

  /** The sextant of the hue decides which channel gets c + m, which x + m and which m. */
  function HexChannels(h: real, c: real, x: real, m: real): Float3
  {
    if h < 60.0 then Float3(c + m, x + m, m)
    else if h < 120.0 then Float3(x + m, c + m, m)
    else if h < 180.0 then Float3(m, c + m, x + m)
    else if h < 240.0 then Float3(m, x + m, c + m)
    else if h < 300.0 then Float3(x + m, m, c + m)
    else Float3(c + m, m, x + m)
  }

  /** Chroma `v * s` and the scaled fraction stay between 0 and v when s, v and f are in [0,1]. */
  lemma ChromaBounds(v: real, s: real, f: real)
    requires 0.0 <= v <= 1.0 && 0.0 <= s <= 1.0 && 0.0 <= f <= 1.0
    ensures 0.0 <= v * s <= v && 0.0 <= (v * s) * f <= v * s
  {
    assert v * (1.0 - s) >= 0.0;
    assert (v * s) * (1.0 - f) >= 0.0;
  }

  /** Every channel of a colour in [0,1]. */
  predicate InUnitCube(c: Float3)
  {
    0.0 <= c.x <= 1.0 && 0.0 <= c.y <= 1.0 && 0.0 <= c.z <= 1.0
  }

  /** Saturation and value in [0,100] give every channel in [0,1], whatever the hue. */
  lemma FromHSVInUnitCube(hue: real, saturation: real, value: real)
    requires 0.0 <= saturation <= 100.0 && 0.0 <= value <= 100.0
    ensures InUnitCube(FromHSV(hue, saturation, value))
  {
    var h := Hue360(hue);
    HueToRGBInUnitCube(h, HueFraction(h), saturation / 100.0, value / 100.0);
  }

  /** The channels for any hue, and any fraction, saturation and value in [0,1]. */
  lemma HueToRGBInUnitCube(h: real, f: real, s: real, v: real)
    requires 0.0 <= f <= 1.0 && 0.0 <= s <= 1.0 && 0.0 <= v <= 1.0
    ensures InUnitCube(HueToRGB(h, f, s, v))
  {
    ChromaBounds(v, s, f);
    HexChannelsBounds(h, v * s, (v * s) * f, v - v * s);
  }

  lemma HexChannelsBounds(h: real, c: real, x: real, m: real)
    requires 0.0 <= x <= c && 0.0 <= m && c + m <= 1.0
    ensures InUnitCube(HexChannels(h, c, x, m))
  {}

  datatype Float2 = Float2(x: real, y: real)
  {
    function Add(f: Float2): Float2 { Float2(x + f.x, y + f.y) }
    function Sub(f: Float2): Float2 { Float2(x - f.x, y - f.y) }
    function Scale(s: real): Float2 { Float2(x * s, y * s) }
    function Multiply(f: Float2): Float2 { Float2(x * f.x, y * f.y) }

    /** Not declared by Float2.java although Maths.signedTriArea calls it: the usual dot product. */
    function Dot(f: Float2): real { x * f.x + y * f.y }
    function LengthSq(): real { Dot(this) }

    /** A quarter turn: (x, y) becomes (y, -x), perpendicular and of the same length. */
    function Rotate90(): (r: Float2)
      ensures r.Dot(this) == 0.0
      ensures r.LengthSq() == LengthSq()
    {
      Float2(y, -x)
    }

    function Inverse(): Float2
      requires x != 0.0 && y != 0.0
    {
      Float2(1.0 / x, 1.0 / y)
    }

    /** Componentwise Java `%`: each component keeps its sign and shrinks below |v|. */
    function Modulo(v: real): (r: Float2)
      requires v != 0.0
      ensures AbsR(r.x) < AbsR(v) && AbsR(r.y) < AbsR(v)
      ensures (x >= 0.0 ==> r.x >= 0.0) && (x <= 0.0 ==> r.x <= 0.0)
      ensures (y >= 0.0 ==> r.y >= 0.0) && (y <= 0.0 ==> r.y <= 0.0)
    {
      JavaRemBounds(x, v);
      JavaRemBounds(y, v);
      Float2(JavaRem(x, v), JavaRem(y, v))
    }

    /** Divides by the length (`len`, supplied by the caller); the zero vector stays zero. */
    function Normalize(len: real): (r: Float2)
      requires IsSqrt(len, LengthSq())
      ensures len == 0.0 ==> r == Float2(0.0, 0.0)
      ensures len != 0.0 ==> r.LengthSq() == 1.0 && r.Scale(len) == this
    {
      if len == 0.0 then Float2(0.0, 0.0)
      else
        var k := 1.0 / len;
        var r := Scale(k);
        assert k * len == 1.0;
        assert r.LengthSq() == LengthSq() * (k * k);
        assert (len * len) * (k * k) == (k * len) * (k * len);
        r
    }

    function To3D(): Float3 { Float3(x, y, 0.0) }
    function To3DAt(z: real): Float3 { Float3(x, y, z) }
  }

  /** A Float3 whose fields are updated in place by `set` and `offset`. */
  class Float3Cell {
    var x: real
    var y: real
    var z: real

    function Value(): Float3
      reads this
    {
      Float3(x, y, z)
    }

    constructor (v: Float3)
      ensures Value() == v
    {
      x, y, z := v.x, v.y, v.z;
    }

    /** Overwrites all three fields. */
    method Set(x': real, y': real, z': real)
      modifies this
      ensures Value() == Float3(x', y', z')
    {
      x, y, z := x', y', z';
    }

    /** Adds componentwise in place. */
    method Offset(dx: real, dy: real, dz: real)
      modifies this
      ensures Value() == old(Value()).Add(Float3(dx, dy, dz))
    {
      x := x + dx;
      y := y + dy;
      z := z + dz;
    }

    method OffsetBy(f: Float3)
      modifies this
      ensures Value() == old(Value()).Add(f)
    {
      Offset(f.x, f.y, f.z);
    }
  }

  /** A Float2 whose fields are updated in place by `offset`. */
  class Float2Cell {
    var x: real
    var y: real

    function Value(): Float2
      reads this
    {
      Float2(x, y)
    }

    constructor (v: Float2)
      ensures Value() == v
    {
      x, y := v.x, v.y;
    }

    method Offset(dx: real, dy: real)
      modifies this
      ensures Value() == old(Value()).Add(Float2(dx, dy))
    {
      x := x + dx;
      y := y + dy;
    }

    method OffsetBy(f: Float2)
      modifies this
      ensures Value() == old(Value()).Add(f)
    {
      Offset(f.x, f.y);
    }
  }

  /** Adding then subtracting the same vector is the identity; the dot product is symmetric. */
  lemma AddSubDot(a: Float3, b: Float3)
    ensures a.Add(b).Sub(b) == a
    ensures a.Dot(b) == b.Dot(a)
  {}

  /** Scaling twice is scaling by the product. */
  lemma ScaleScale(v: Float3, a: real, s: real)
    ensures v.Scale(a).Scale(s) == v.Scale(a * s)
  {
    assert (v.x * a) * s == v.x * (a * s);
    assert (v.y * a) * s == v.y * (a * s);
    assert (v.z * a) * s == v.z * (a * s);
  }

  /** Scaling distributes over a sum of vectors. */
  lemma ScaleAdd(u: Float3, v: Float3, s: real)
    ensures u.Add(v).Scale(s) == u.Scale(s).Add(v.Scale(s))
  {
    assert (u.x + v.x) * s == u.x * s + v.x * s;
    assert (u.y + v.y) * s == u.y * s + v.y * s;
    assert (u.z + v.z) * s == u.z * s + v.z * s;
  }

  /** Scaling by a sum of factors is the sum of the scalings. */
  lemma ScaleSum(v: Float3, a: real, b: real)
    ensures v.Scale(a + b) == v.Scale(a).Add(v.Scale(b))
  {
    assert v.x * (a + b) == v.x * a + v.x * b;
    assert v.y * (a + b) == v.y * a + v.y * b;
    assert v.z * (a + b) == v.z * a + v.z * b;
  }

  /** Two three-term sums added termwise. */
  lemma AddShuffle(a: Float3, b: Float3, c: Float3, a': Float3, b': Float3, c': Float3)
    ensures a.Add(a').Add(b.Add(b')).Add(c.Add(c')) == a.Add(b).Add(c).Add(a'.Add(b').Add(c'))
  {}

  /** The unit and zero scalings, and the zero vector as a neutral summand. */
  lemma Scale2Units(u: Float2)
    ensures u.Scale(1.0) == u && u.Scale(0.0) == Float2(0.0, 0.0)
    ensures u.Add(Float2(0.0, 0.0)) == u && Float2(0.0, 0.0).Add(u) == u
  {}

  /** The dot product distributes over a sum ... */
  lemma DotAdd(a: Float3, b: Float3, w: Float3)
    ensures a.Add(b).Dot(w) == a.Dot(w) + b.Dot(w)
  {}

  /** ... and pulls a scale factor out. */
  lemma DotScale(a: Float3, s: real, w: Float3)
    ensures a.Scale(s).Dot(w) == s * a.Dot(w)
  {
    assert (a.x * s) * w.x == s * (a.x * w.x);
    assert (a.y * s) * w.y == s * (a.y * w.y);
    assert (a.z * s) * w.z == s * (a.z * w.z);
  }

  /** Two quarter turns negate a vector. */
  lemma Rotate90Twice(v: Float2)
    ensures v.Rotate90().Rotate90() == Float2(-v.x, -v.y)
  {}

  lemma AddSub2(a: Float2, b: Float2)
    ensures a.Add(b).Sub(b) == a
  {}

  /** `to3D()` puts the vector in the z = 0 plane; `to3D(z)` keeps x and y and sets z. */
  lemma To3DKeeps(v: Float2, z: real)
    ensures v.To3D() == Float3(v.x, v.y, 0.0) && v.To3D().To2D() == v
    ensures v.To3DAt(z).To2D() == v && v.To3DAt(z).z == z
  {}
}
