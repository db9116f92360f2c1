/**
 * The 2D affine kernel of the transformation-matrix package as the core
 * uses it: `translate`, `scale`, `rotateDEG`, `compose` (also exported as
 * `transform`) and `applyToPoint`, over exact reals.
 */
module Geometry {

  datatype Point = Point(x: real, y: real)

  /**
   * The affine map  x' = a*x + c*y + e,  y' = b*x + d*y + f,
   * i.e. the matrix [a c e; b d f; 0 0 1] with the package's coefficient names.
   */
  datatype Matrix = Matrix(a: real, b: real, c: real, d: real, e: real, f: real)

  /**
   * Math.cos and Math.sin of an angle given in degrees, as `rotateDEG`
   * evaluates them. Floating-point trigonometry is not modelled: callers
   * supply the two functions and state the facts about them they rely on.
   */
  datatype Trig = Trig(cosDeg: real -> real, sinDeg: real -> real)

  /** cos² + sin² = 1 at `deg`, and cosine is even and sine odd there. */
  predicate UnitAt(t: Trig, deg: real) {
    && t.cosDeg(deg) * t.cosDeg(deg) + t.sinDeg(deg) * t.sinDeg(deg) == 1.0
    && t.cosDeg(-deg) == t.cosDeg(deg)
    && t.sinDeg(-deg) == -t.sinDeg(deg)
  }

  /** The exact values of cosine and sine at the quarter turns in (-360, 360). */
  predicate ExactQuarterTurns(t: Trig) {
    && t.cosDeg(0.0) == 1.0 && t.sinDeg(0.0) == 0.0
    && t.cosDeg(90.0) == 0.0 && t.sinDeg(90.0) == 1.0
    && t.cosDeg(-90.0) == 0.0 && t.sinDeg(-90.0) == -1.0
    && t.cosDeg(180.0) == -1.0 && t.sinDeg(180.0) == 0.0
    && t.cosDeg(-180.0) == -1.0 && t.sinDeg(-180.0) == 0.0
    && t.cosDeg(270.0) == 0.0 && t.sinDeg(270.0) == -1.0
    && t.cosDeg(-270.0) == 0.0 && t.sinDeg(-270.0) == 1.0
  }

  /** `applyToPoint(m, p)`. */
  function Apply(m: Matrix, p: Point): Point {
    Point(m.a * p.x + m.c * p.y + m.e, m.b * p.x + m.d * p.y + m.f)
  }

  /** `translate(tx, ty)`: shifts every point by (tx, ty). */
  function Translate(tx: real, ty: real): (m: Matrix)
    ensures forall p {:trigger Apply(m, p)} :: Apply(m, p) == Point(p.x + tx, p.y + ty)
  {
    Matrix(1.0, 0.0, 0.0, 1.0, tx, ty)
  }

  /** `scale(sx, sy)`: stretches about the origin. */
  function Scale(sx: real, sy: real): (m: Matrix)
    ensures forall p {:trigger Apply(m, p)} :: Apply(m, p) == Point(sx * p.x, sy * p.y)
  {
    Matrix(sx, 0.0, 0.0, sy, 0.0, 0.0)
  }

  /** `scale(s)`: the package takes the missing second factor to be the first. */
  function ScaleUniform(s: real): (m: Matrix)
    ensures forall p {:trigger Apply(m, p)} :: Apply(m, p) == Point(s * p.x, s * p.y)
  {
    Scale(s, s)
  }

  /** `rotateDEG(deg)`: turns about the origin by `deg` degrees (clockwise on screen, where y grows downwards). */
  function Rotate(t: Trig, deg: real): (m: Matrix)
    ensures forall p {:trigger Apply(m, p)} :: (Apply(m, p) ==
      Point(t.cosDeg(deg) * p.x - t.sinDeg(deg) * p.y, t.sinDeg(deg) * p.x + t.cosDeg(deg) * p.y))
  {
    Matrix(t.cosDeg(deg), t.sinDeg(deg), -t.sinDeg(deg), t.cosDeg(deg), 0.0, 0.0)
  }

  /** The package's two-matrix product; the right-hand matrix acts on the point first. */
  function Multiply(m1: Matrix, m2: Matrix): (m: Matrix)
    ensures forall p {:trigger Apply(m, p)} :: Apply(m, p) == Apply(m1, Apply(m2, p))
  {
    var m := Matrix(
      m1.a * m2.a + m1.c * m2.b,
      m1.b * m2.a + m1.d * m2.b,
      m1.a * m2.c + m1.c * m2.d,
      m1.b * m2.c + m1.d * m2.d,
      m1.a * m2.e + m1.c * m2.f + m1.e,
      m1.b * m2.e + m1.d * m2.f + m1.f);
    ProductActs(m1, m2, m);
    m
  }

  lemma ProductActs(m1: Matrix, m2: Matrix, m: Matrix)
    requires m.a == m1.a * m2.a + m1.c * m2.b && m.b == m1.b * m2.a + m1.d * m2.b
    requires m.c == m1.a * m2.c + m1.c * m2.d && m.d == m1.b * m2.c + m1.d * m2.d
    requires m.e == m1.a * m2.e + m1.c * m2.f + m1.e && m.f == m1.b * m2.e + m1.d * m2.f + m1.f
    ensures forall p {:trigger Apply(m, p)} :: Apply(m, p) == Apply(m1, Apply(m2, p))
  {
    forall p ensures Apply(m, p) == Apply(m1, Apply(m2, p)) {
      var q := Apply(m2, p);
      assert Apply(m, p).x == Apply(m1, q).x by {
        AffineRow(m1.a, m1.c, m1.e, m2.a, m2.b, m2.c, m2.d, m2.e, m2.f, p.x, p.y);
      }
      assert Apply(m, p).y == Apply(m1, q).y by {
        AffineRow(m1.b, m1.d, m1.f, m2.a, m2.b, m2.c, m2.d, m2.e, m2.f, p.x, p.y);
      }
    }
  }

  /** One row of the product acting on a point: the scalar identity behind `Multiply`. */
  lemma AffineRow(r1: real, r2: real, r3: real, a: real, b: real, c: real, d: real, e: real, f: real, x: real, y: real)
    ensures (r1 * a + r2 * b) * x + (r1 * c + r2 * d) * y + (r1 * e + r2 * f + r3)
         == r1 * (a * x + c * y + e) + r2 * (b * x + d * y + f) + r3
  {
  }

  /** The point after the matrices of `ms` have acted on it, the last one first. */
  function ApplyChain(ms: seq<Matrix>, p: Point): Point
    decreases |ms|
  {
    if |ms| == 0 then p else Apply(ms[0], ApplyChain(ms[1..], p))
  }

  /**
   * `compose(m1, ..., mn)`: folds the product from the left exactly as the
   * package does; an empty argument list throws there, so it is excluded here.
   * The composite sends p to m1(m2(...mn(p))): the LAST argument acts first.
   */
  function Compose(ms: seq<Matrix>): (m: Matrix)
    requires |ms| > 0
    ensures forall p {:trigger Apply(m, p)} :: Apply(m, p) == ApplyChain(ms, p)
    decreases |ms|
  {
    if |ms| == 1 then
      assert forall p :: ApplyChain(ms, p) == Apply(ms[0], p) by {
        forall p ensures ApplyChain(ms, p) == Apply(ms[0], p) {
          assert ApplyChain(ms[1..], p) == p;
        }
      }
      ms[0]
    else
      var rest := ms[2..];
      var m := Compose([Multiply(ms[0], ms[1])] + rest);
      assert forall p :: Apply(m, p) == ApplyChain(ms, p) by {
        forall p ensures Apply(m, p) == ApplyChain(ms, p) {
          assert ([Multiply(ms[0], ms[1])] + rest)[1..] == rest;
          assert ms[1..][1..] == rest;
        }
      }
      m
  }

  /** The chain of two, three, four or five matrices, unrolled. */
  lemma ChainUnrolled(ms: seq<Matrix>, p: Point)
    requires 2 <= |ms| <= 5
    ensures |ms| == 2 ==> ApplyChain(ms, p) == Apply(ms[0], Apply(ms[1], p))
    ensures |ms| == 3 ==> ApplyChain(ms, p) == Apply(ms[0], Apply(ms[1], Apply(ms[2], p)))
    ensures |ms| == 4 ==> ApplyChain(ms, p) == Apply(ms[0], Apply(ms[1], Apply(ms[2], Apply(ms[3], p))))
    ensures |ms| == 5 ==>
      ApplyChain(ms, p) == Apply(ms[0], Apply(ms[1], Apply(ms[2], Apply(ms[3], Apply(ms[4], p)))))
  {
    var n := |ms|;
    assert ApplyChain(ms[n..], p) == p;
    assert ApplyChain(ms[n - 1..], p) == Apply(ms[n - 1], p) by { assert ms[n - 1..][1..] == ms[n..]; }
    assert ApplyChain(ms[n - 2..], p) == Apply(ms[n - 2], Apply(ms[n - 1], p)) by {
      assert ms[n - 2..][1..] == ms[n - 1..];
    }
    if n >= 3 {
      assert ms[n - 3..][1..] == ms[n - 2..];
    }
    if n >= 4 {
      assert ms[n - 4..][1..] == ms[n - 3..];
    }
    if n == 5 {
      assert ms[1..] == ms[n - 4..];
    }
    assert ms == ms[0..];
  }

  /** `rotateDEG(deg, cx, cy)`: translate(cx, cy) * rotate(deg) * translate(-cx, -cy), a turn about (cx, cy). */
  function RotateAbout(t: Trig, deg: real, cx: real, cy: real): (m: Matrix)
    ensures forall p {:trigger Apply(m, p)} :: (Apply(m, p) ==
      Point(cx + t.cosDeg(deg) * (p.x - cx) - t.sinDeg(deg) * (p.y - cy),
            cy + t.sinDeg(deg) * (p.x - cx) + t.cosDeg(deg) * (p.y - cy)))
  {
    var ms := [Translate(cx, cy), Rotate(t, deg), Translate(-cx, -cy)];
    var m := Compose(ms);
    forall p {:trigger Apply(m, p)} ensures Apply(m, p) ==
      Point(cx + t.cosDeg(deg) * (p.x - cx) - t.sinDeg(deg) * (p.y - cy),
            cy + t.sinDeg(deg) * (p.x - cx) + t.cosDeg(deg) * (p.y - cy))
    {
      RotateAboutActs(ms, t, deg, cx, cy, p);
    }
    m
  }

  lemma RotateAboutActs(ms: seq<Matrix>, t: Trig, deg: real, cx: real, cy: real, p: Point)
    requires ms == [Translate(cx, cy), Rotate(t, deg), Translate(-cx, -cy)]
    ensures ApplyChain(ms, p) ==
      Point(cx + t.cosDeg(deg) * (p.x - cx) - t.sinDeg(deg) * (p.y - cy),
            cy + t.sinDeg(deg) * (p.x - cx) + t.cosDeg(deg) * (p.y - cy))
  {
    var c, s := t.cosDeg(deg), t.sinDeg(deg);
    ChainUnrolled(ms, p);
    var dx, dy := p.x - cx, p.y - cy;
    assert Apply(ms[2], p) == Point(dx, dy);
    assert Apply(ms[1], Point(dx, dy)) == Point(c * dx - s * dy, s * dx + c * dy);
    assert Apply(ms[0], Point(c * dx - s * dy, s * dx + c * dy)) == Point(cx + c * dx - s * dy, cy + s * dx + c * dy);
  }

  // ---------------------------------------------------------------- lemmas

  /** Composition order: compose(A, B) sends p to A(B(p)), so B acts first. */
  lemma ComposeAppliesLastFirst(m1: Matrix, m2: Matrix, m3: Matrix, p: Point)
    ensures Apply(Compose([m1, m2]), p) == Apply(m1, Apply(m2, p))
    ensures Apply(Compose([m1, m2, m3]), p) == Apply(m1, Apply(m2, Apply(m3, p)))
  {
    ChainUnrolled([m1, m2], p);
    ChainUnrolled([m1, m2, m3], p);
  }

  /** translate(0, 0), scale(1, 1) and a rotation by 0 degrees, about any centre, leave every point where it is. */
  lemma NeutralTransforms(t: Trig, p: Point, cx: real, cy: real)
    requires t.cosDeg(0.0) == 1.0 && t.sinDeg(0.0) == 0.0
    ensures Apply(Translate(0.0, 0.0), p) == p
    ensures Apply(Scale(1.0, 1.0), p) == p
    ensures Apply(Rotate(t, 0.0), p) == p
    ensures Apply(RotateAbout(t, 0.0, cx, cy), p) == p
  {
  }

  /** Turning by -deg undoes turning by deg. */
  lemma RotateInverse(t: Trig, deg: real, p: Point)
    requires UnitAt(t, deg)
    ensures Apply(Rotate(t, -deg), Apply(Rotate(t, deg), p)) == p
  {
    var c, s := t.cosDeg(deg), t.sinDeg(deg);
    var q := Apply(Rotate(t, deg), p);
    var r := Apply(Rotate(t, -deg), q);
    assert q == Point(c * p.x - s * p.y, s * p.x + c * p.y);
    assert r == Point(c * q.x + s * q.y, -s * q.x + c * q.y);
    assert r.x == (c * c + s * s) * p.x;
    assert r.y == (c * c + s * s) * p.y;
  }

  /** The centre of a rotateDEG(deg, cx, cy) stays where it is, whatever the angle. */
  lemma RotateAboutFixesCentre(t: Trig, deg: real, cx: real, cy: real)
    ensures Apply(RotateAbout(t, deg, cx, cy), Point(cx, cy)) == Point(cx, cy)
  {
    var c, s := t.cosDeg(deg), t.sinDeg(deg);
    assert cx - cx == 0.0 && cy - cy == 0.0;
    assert c * (cx - cx) == 0.0 && s * (cy - cy) == 0.0;
    assert s * (cx - cx) == 0.0 && c * (cy - cy) == 0.0;
  }

  /** With no centre given, rotateDEG turns about the origin. */
  lemma RotateAboutOrigin(t: Trig, deg: real, p: Point)
    ensures Apply(RotateAbout(t, deg, 0.0, 0.0), p) == Apply(Rotate(t, deg), p)
  {
  }
}
