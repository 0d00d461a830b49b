/**
  Screen-space to normalised-device-coordinate conversion and the per-item
  animation parameters derived from it (src/main.rs).  The source computes
  in `f32`; the model uses exact `real` arithmetic.
 */
module Screen {

  datatype Vec2 = Vec2(x: real, y: real)

  /** nalgebra's `component_mul`. */
  function Mul(a: Vec2, b: Vec2): Vec2 {
    Vec2(a.x * b.x, a.y * b.y)
  }

  /** nalgebra's `component_div`; the model demands non-zero divisors. */
  function Div(a: Vec2, b: Vec2): Vec2
    requires NonZero(b)
  {
    Vec2(a.x / b.x, a.y / b.y)
  }

  predicate NonZero(s: Vec2) {
    s.x != 0.0 && s.y != 0.0
  }

  /** `to_screen_space`: a point in pixels, origin top-left and y growing
      downwards, becomes a point in normalised device coordinates, origin at
      the centre and y growing upwards. */
  function ToScreenSpace(v: Vec2, s: Vec2): (r: Vec2)
    requires NonZero(s)
    ensures (r.x + 1.0) * s.x == 2.0 * v.x && (1.0 - r.y) * s.y == 2.0 * v.y
  {
    var rel := Div(v, s);
    assert rel.x * s.x == v.x && rel.y * s.y == v.y;
    Vec2(2.0 * rel.x - 1.0, 1.0 - 2.0 * rel.y)
  }

  /** The inverse conversion, from normalised device coordinates back to
      pixels. */
  function FromScreenSpace(n: Vec2, s: Vec2): (v: Vec2) {
    Vec2((n.x + 1.0) * s.x / 2.0, (1.0 - n.y) * s.y / 2.0)
  }

  /** The conversion loses nothing: it and its inverse undo each other. */
  lemma ScreenSpaceRoundTrip(v: Vec2, n: Vec2, s: Vec2)
    requires NonZero(s)
    ensures FromScreenSpace(ToScreenSpace(v, s), s) == v
    ensures ToScreenSpace(FromScreenSpace(n, s), s) == n
  {
    var r := ToScreenSpace(v, s);
    assert (r.x + 1.0) * s.x / 2.0 == (v.x / s.x) * s.x;
    assert (1.0 - r.y) * s.y / 2.0 == (v.y / s.y) * s.y;
    var w := FromScreenSpace(n, s);
    assert w.x == ((n.x + 1.0) / 2.0) * s.x;
    assert w.y == ((1.0 - n.y) / 2.0) * s.y;
    MulDivCancel((n.x + 1.0) / 2.0, s.x);
    MulDivCancel((1.0 - n.y) / 2.0, s.y);
  }

  lemma MulDivCancel(a: real, b: real)
    requires b != 0.0
    ensures (a * b) / b == a
  {
  }

  /** The top-left corner, the bottom-right corner and the centre of the
      screen land on (-1, 1), (1, -1) and (0, 0). */
  lemma ScreenSpaceReferencePoints(s: Vec2)
    requires NonZero(s)
    ensures ToScreenSpace(Vec2(0.0, 0.0), s) == Vec2(-1.0, 1.0)
    ensures ToScreenSpace(s, s) == Vec2(1.0, -1.0)
    ensures ToScreenSpace(Vec2(s.x / 2.0, s.y / 2.0), s) == Vec2(0.0, 0.0)
  {
    assert (s.x / 2.0) / s.x == 0.5;
    assert (s.y / 2.0) / s.y == 0.5;
    assert s.x / s.x == 1.0 && s.y / s.y == 1.0;
  }

  /** A point on the screen (between the origin and the size) lands inside
      the [-1, 1] x [-1, 1] square. */
  lemma ScreenSpaceInRange(v: Vec2, s: Vec2)
    requires s.x > 0.0 && s.y > 0.0
    requires 0.0 <= v.x <= s.x && 0.0 <= v.y <= s.y
    ensures -1.0 <= ToScreenSpace(v, s).x <= 1.0
    ensures -1.0 <= ToScreenSpace(v, s).y <= 1.0
  {
    DivBetweenZeroAndOne(v.x, s.x);
    DivBetweenZeroAndOne(v.y, s.y);
  }

  lemma DivBetweenZeroAndOne(a: real, b: real)
    requires b > 0.0 && 0.0 <= a <= b
    ensures 0.0 <= a / b <= 1.0
  {
    assert a / b * b == a;
  }

  /** Moving right in pixels moves right in device coordinates; moving down
      in pixels moves down, that is, lowers the device y. */
  lemma ScreenSpaceMonotonic(v: Vec2, w: Vec2, s: Vec2)
    requires s.x > 0.0 && s.y > 0.0
    ensures v.x < w.x <==> ToScreenSpace(v, s).x < ToScreenSpace(w, s).x
    ensures v.y < w.y <==> ToScreenSpace(v, s).y > ToScreenSpace(w, s).y
  {
    DivStrictlyMonotonic(v.x, w.x, s.x);
    DivStrictlyMonotonic(v.y, w.y, s.y);
  }

  lemma DivStrictlyMonotonic(a: real, b: real, c: real)
    requires c > 0.0
    ensures a < b <==> a / c < b / c
  {
    assert a / c * c == a && b / c * c == b;
  }

  /** A position given as a fraction of the screen, scaled to pixels and then
      converted, is (2f.x - 1, 1 - 2f.y) whatever the screen size. */
  lemma FractionToScreenSpace(f: Vec2, s: Vec2)
    requires NonZero(s)
    ensures ToScreenSpace(Mul(f, s), s) == Vec2(2.0 * f.x - 1.0, 1.0 - 2.0 * f.y)
  {
    assert (f.x * s.x) / s.x == f.x;
    assert (f.y * s.y) / s.y == f.y;
  }

  /** `ItemDataBuffer`: the animation parameters of one item, in the order
      main.rs fills them. */
  datatype ItemData = ItemData(
    normTextureSize: Vec2,
    startPosition: Vec2,
    endPosition: Vec2,
    spinSpeed: real,
    scale: real,
    duration: real,
    elapsedTime: real)

  /** The start and end positions main.rs uses, as fractions of the screen. */
  const StartFraction: Vec2 := Vec2(0.0, 0.0)
  const EndFraction: Vec2 := Vec2(0.5, 0.5)
  const SpinSpeed: real := 5000.0
  const Duration: real := 1000.0

  /** The item data main.rs builds for one definition whose texture has
      `textureSize` pixels: the texture size relative to the screen, the
      start and end fractions scaled to pixels and converted, the fixed
      spin speed and duration, the definition's scale, and no time elapsed.
      The start is the top-left corner and the end the centre in device
      coordinates, whatever the screen size. */
  function DeriveItemData(scale: real, textureSize: Vec2, screen: Vec2): (d: ItemData)
    requires NonZero(screen)
    ensures Mul(d.normTextureSize, screen) == textureSize
    ensures d.startPosition == Vec2(-1.0, 1.0) && d.endPosition == Vec2(0.0, 0.0)
    ensures d.spinSpeed == 5000.0 && d.duration == 1000.0
    ensures d.scale == scale && d.elapsedTime == 0.0
  {
    FractionToScreenSpace(StartFraction, screen);
    FractionToScreenSpace(EndFraction, screen);
    var norm := Div(textureSize, screen);
    assert norm.x * screen.x == textureSize.x && norm.y * screen.y == textureSize.y;
    ItemData(
      norm,
      ToScreenSpace(Mul(StartFraction, screen), screen),
      ToScreenSpace(Mul(EndFraction, screen), screen),
      SpinSpeed,
      scale,
      Duration,
      0.0)
  }
}
