/**
 * What the transform chains do to the rectangles that matter: the crop
 * rectangle fills the source footprint, a full unrotated cutout lands on
 * CasparCG's unit square, a source recorded on its side comes out turned,
 * and an unrotated multiview cell is clipped to its own scaled square.
 */
module TransformLemmas {
  import opened Wrappers
  import opened Geometry
  import opened Api
  import opened Tsr
  import opened Transforms

  lemma QuotCancels(a: real, b: real)
    requires b != 0.0
    ensures Quot(a, b) * b == a
    ensures Quot(a, b) * (b / 2.0) == a / 2.0
    ensures Quot(a, b) * (-b / 2.0) == -a / 2.0
  {
  }

  lemma QuotSelf(b: real)
    requires b != 0.0
    ensures Quot(b, b) == 1.0
  {
  }

  /** Facts about rotation by 0 degrees in the forms the chains meet it. */
  lemma ZeroTurn(t: Trig, p: Point)
    requires ExactQuarterTurns(t)
    ensures UnitAt(t, 0.0)
    ensures Apply(Rotate(t, 0.0), p) == p
    ensures Apply(RotateAbout(t, 0.0, 0.5, 0.5), p) == p
  {
    NeutralTransforms(t, p, 0.5, 0.5);
  }

  /**
   * Whatever the source's rotation, the cutout transform sends the crop rectangle's
   * corners, given in view space, to (0, 0) and (source.width, source.height):
   * the crop fills the source's native footprint.
   */
  lemma CutoutFillsSource(t: Trig, source: Source, cutout: Cutout)
    requires UnitAt(t, source.rotation)
    requires cutout.width != 0.0 && cutout.height != 0.0
    ensures
      var m := CutoutTransform(source, SourceTransform(t, source), cutout);
      var r := Rotate(t, source.rotation);
      && Apply(m, Apply(r, Point(cutout.x, cutout.y))) == Point(0.0, 0.0)
      && Apply(m, Apply(r, Point(cutout.x + cutout.width, cutout.y + cutout.height))) == Point(source.width, source.height)
  {
    var m := CutoutTransform(source, SourceTransform(t, source), cutout);
    var r := Rotate(t, source.rotation);
    var qx, qy := Quot(source.width, cutout.width), Quot(source.height, cutout.height);
    assert Apply(m, Apply(r, Point(cutout.x, cutout.y))) == Point(0.0, 0.0) by {
      CutoutMapsViewPoint(t, source, cutout, Point(cutout.x, cutout.y), 0.0, 0.0);
      assert qx * 0.0 == 0.0 && qy * 0.0 == 0.0;
    }
    var far := Point(cutout.x + cutout.width, cutout.y + cutout.height);
    assert Apply(m, Apply(r, far)) == Point(source.width, source.height) by {
      CutoutMapsViewPoint(t, source, cutout, far, cutout.width, cutout.height);
      QuotCancels(source.width, cutout.width);
      QuotCancels(source.height, cutout.height);
    }
  }

  /** A view-space point at offset (dx, dy) from the crop corner lands at (dx, dy) stretched by source/cutout size. */
  lemma CutoutMapsViewPoint(t: Trig, source: Source, cutout: Cutout, v: Point, dx: real, dy: real)
    requires UnitAt(t, source.rotation)
    requires v.x - cutout.x == dx && v.y - cutout.y == dy
    ensures Apply(CutoutTransform(source, SourceTransform(t, source), cutout), Apply(Rotate(t, source.rotation), v))
         == Point(Quot(source.width, cutout.width) * dx, Quot(source.height, cutout.height) * dy)
  {
    var st := SourceTransform(t, source);
    assert Apply(st, Apply(Rotate(t, source.rotation), v)) == v;
    ScaledDifference(Quot(source.width, cutout.width), v.x, cutout.x, dx);
    ScaledDifference(Quot(source.height, cutout.height), v.y, cutout.y, dy);
  }

  lemma ScaledDifference(q: real, a: real, b: real, c: real)
    requires a - b == c
    ensures q * (a - b) == q * c
  {
  }

  /** The unrotated case: view space is source space, so the crop corners themselves go to (0, 0) and (width, height). */
  lemma CutoutCornersUnrotated(t: Trig, source: Source, cutout: Cutout)
    requires ExactQuarterTurns(t) && source.rotation == 0.0
    requires cutout.width != 0.0 && cutout.height != 0.0
    ensures
      var m := CutoutTransform(source, SourceTransform(t, source), cutout);
      && Apply(m, Point(cutout.x, cutout.y)) == Point(0.0, 0.0)
      && Apply(m, Point(cutout.x + cutout.width, cutout.y + cutout.height)) == Point(source.width, source.height)
  {
    ZeroTurn(t, Point(cutout.x, cutout.y));
    ZeroTurn(t, Point(cutout.x + cutout.width, cutout.y + cutout.height));
    CutoutFillsSource(t, source, cutout);
  }

  /** The source and cutout transforms of an unrotated source with a full-frame cutout change nothing. */
  lemma FullFrameCutoutIsNeutral(t: Trig, source: Source, cutout: Cutout, p: Point)
    requires ExactQuarterTurns(t) && source.rotation == 0.0
    requires source.width != 0.0 && source.height != 0.0
    requires cutout.x == 0.0 && cutout.y == 0.0 && cutout.width == source.width && cutout.height == source.height && cutout.outputRotation == 0.0
    ensures Apply(CutoutTransform(source, SourceTransform(t, source), cutout), p) == p
  {
    ZeroTurn(t, p);
    assert -source.rotation == 0.0;
    QuotSelf(source.width);
    QuotSelf(source.height);
  }

  /**
   * A source with rotation 0, a cutout covering the whole source with no placement
   * rotation, and a CUTOUT output of the source's size: the perspective is exactly
   * CasparCG's unit square (0,0), (1,0), (1,1), (0,1).
   */
  lemma FullFrameIsUnitSquare(t: Trig, output: Output, source: Source, cutout: Cutout)
    requires ExactQuarterTurns(t) && source.rotation == 0.0
    requires source.width != 0.0 && source.height != 0.0
    requires cutout.x == 0.0 && cutout.y == 0.0 && cutout.width == source.width && cutout.height == source.height && cutout.outputRotation == 0.0
    requires output.CutoutOutput? && output.width == source.width && output.height == source.height
    ensures CutoutOutputPosition(t, output, source, cutout).perspective ==
      Some(Perspective(Point(0.0, 0.0), Point(1.0, 0.0), Point(1.0, 1.0), Point(0.0, 1.0)))
  {
    var m := CutoutOutputTransform(t, output, cutout, CutoutTransform(source, SourceTransform(t, source), cutout));
    FullFrameCornerImages(t, output, source, cutout, m);
    PositionOfCorners(source.width, source.height, m, Point(0.0, 0.0), Point(1.0, 0.0), Point(1.0, 1.0), Point(0.0, 1.0));
  }

  /** m maps the corners TL, TR, BR, BL of the width x height box centred on the origin to q0..q3. */
  predicate BoxLandsOn(m: Matrix, width: real, height: real, q0: Point, q1: Point, q2: Point, q3: Point) {
    && Apply(m, Point(-width / 2.0, -height / 2.0)) == q0 && Apply(m, Point(width / 2.0, -height / 2.0)) == q1
    && Apply(m, Point(width / 2.0, height / 2.0)) == q2 && Apply(m, Point(-width / 2.0, height / 2.0)) == q3
  }

  /** The perspective lists the images of the box's corners in the order TL, TR, BR, BL. */
  lemma PositionOfCorners(width: real, height: real, m: Matrix, q0: Point, q1: Point, q2: Point, q3: Point)
    requires BoxLandsOn(m, width, height, q0, q1, q2, q3)
    ensures CasparPosition(width, height, m).perspective == Some(Perspective(q0, q1, q2, q3))
  {
  }

  /** The full-frame CUTOUT chain sends the source box's corners to the unit square's. */
  lemma FullFrameCornerImages(t: Trig, output: Output, source: Source, cutout: Cutout, m: Matrix)
    requires ExactQuarterTurns(t) && source.rotation == 0.0
    requires source.width != 0.0 && source.height != 0.0
    requires cutout.x == 0.0 && cutout.y == 0.0 && cutout.width == source.width && cutout.height == source.height && cutout.outputRotation == 0.0
    requires output.CutoutOutput? && output.width == source.width && output.height == source.height
    requires m == CutoutOutputTransform(t, output, cutout, CutoutTransform(source, SourceTransform(t, source), cutout))
    ensures BoxLandsOn(m, source.width, source.height, Point(0.0, 0.0), Point(1.0, 0.0), Point(1.0, 1.0), Point(0.0, 1.0))
  {
    forall p ensures Apply(m, p) == ToOutputSpace(output, p) {
      FullFrameChainNormalises(t, output, source, cutout, p);
    }
    NormalisedBoxCorners(output, m);
  }

  /** A matrix acting as the output normalisation sends the output-sized box onto the unit square. */
  lemma NormalisedBoxCorners(output: Output, m: Matrix)
    requires output.width != 0.0 && output.height != 0.0
    requires forall p {:trigger Apply(m, p)} :: Apply(m, p) == ToOutputSpace(output, p)
    ensures BoxLandsOn(m, output.width, output.height, Point(0.0, 0.0), Point(1.0, 0.0), Point(1.0, 1.0), Point(0.0, 1.0))
  {
    BoxCornersNormalise(output);
  }

  /** For the full-frame case the CUTOUT chain reduces to the output normalisation. */
  lemma FullFrameChainNormalises(t: Trig, output: Output, source: Source, cutout: Cutout, p: Point)
    requires ExactQuarterTurns(t) && source.rotation == 0.0
    requires source.width != 0.0 && source.height != 0.0
    requires cutout.x == 0.0 && cutout.y == 0.0 && cutout.width == source.width && cutout.height == source.height && cutout.outputRotation == 0.0
    ensures Apply(CutoutOutputTransform(t, output, cutout, CutoutTransform(source, SourceTransform(t, source), cutout)), p)
         == ToOutputSpace(output, p)
  {
    ZeroTurn(t, p);
    FullFrameCutoutIsNeutral(t, source, cutout, p);
  }

  /** The corners of an output-sized box centred on the origin normalise to the unit square's corners. */
  lemma BoxCornersNormalise(output: Output)
    requires output.width != 0.0 && output.height != 0.0
    ensures ToOutputSpace(output, Point(-output.width / 2.0, -output.height / 2.0)) == Point(0.0, 0.0)
    ensures ToOutputSpace(output, Point(output.width / 2.0, -output.height / 2.0)) == Point(1.0, 0.0)
    ensures ToOutputSpace(output, Point(output.width / 2.0, output.height / 2.0)) == Point(1.0, 1.0)
    ensures ToOutputSpace(output, Point(-output.width / 2.0, output.height / 2.0)) == Point(0.0, 1.0)
  {
    QuotCancels(1.0, output.width);
    QuotCancels(1.0, output.height);
  }

  // ------------------------------------------------------- quarter-turn sources

  /** At a quarter turn the source transform permutes the axes exactly: it turns the picture back upright. */
  lemma QuarterTurnSource(t: Trig, source: Source, p: Point)
    requires ExactQuarterTurns(t)
    ensures source.rotation == 90.0 || source.rotation == -270.0 ==> Apply(SourceTransform(t, source), p) == Point(p.y, -p.x)
    ensures source.rotation == 180.0 || source.rotation == -180.0 ==> Apply(SourceTransform(t, source), p) == Point(-p.x, -p.y)
    ensures source.rotation == 270.0 || source.rotation == -90.0 ==> Apply(SourceTransform(t, source), p) == Point(-p.y, p.x)
  {
    var back := -source.rotation;
    assert SourceTransform(t, source) == Rotate(t, back);
    if source.rotation == 90.0 || source.rotation == -270.0 {
      QuarterTurn(t, back, 0.0, -1.0, p);
    } else if source.rotation == 180.0 || source.rotation == -180.0 {
      QuarterTurn(t, back, -1.0, 0.0, p);
    } else if source.rotation == 270.0 || source.rotation == -90.0 {
      QuarterTurn(t, back, 0.0, 1.0, p);
    }
  }

  /** A turn whose cosine and sine are known to be c and s. */
  lemma QuarterTurn(t: Trig, deg: real, c: real, s: real, p: Point)
    requires t.cosDeg(deg) == c && t.sinDeg(deg) == s
    requires (c == 0.0 && (s == 1.0 || s == -1.0)) || (c == -1.0 && s == 0.0)
    ensures Apply(Rotate(t, deg), p) == Point(c * p.x - s * p.y, s * p.x + c * p.y)
    ensures c == 0.0 && s == -1.0 ==> Apply(Rotate(t, deg), p) == Point(p.y, -p.x)
    ensures c == 0.0 && s == 1.0 ==> Apply(Rotate(t, deg), p) == Point(-p.y, p.x)
    ensures c == -1.0 ==> Apply(Rotate(t, deg), p) == Point(-p.x, -p.y)
  {
  }

  /**
   * A source recorded a quarter turn round (rotation 90), cropped to its whole
   * upright view (width and height swapped) and shown on a CUTOUT output of its
   * native size, comes out turned back: its top-left corner lands on the output's
   * bottom-left, and the other corners follow a quarter turn round.
   */
  lemma SideSourceComesOutTurned(t: Trig, output: Output, source: Source, cutout: Cutout)
    requires ExactQuarterTurns(t) && source.rotation == 90.0
    requires source.width != 0.0 && source.height != 0.0
    requires cutout.x == 0.0 && cutout.y == 0.0 && cutout.width == source.height && cutout.height == source.width && cutout.outputRotation == 0.0
    requires output.CutoutOutput? && output.width == source.width && output.height == source.height
    ensures CutoutOutputPosition(t, output, source, cutout).perspective ==
      Some(Perspective(Point(0.0, 1.0), Point(0.0, 0.0), Point(1.0, 0.0), Point(1.0, 1.0)))
  {
    var m := CutoutOutputTransform(t, output, cutout, CutoutTransform(source, SourceTransform(t, source), cutout));
    SideCornerImages(t, output, source, cutout, m);
    PositionOfCorners(source.width, source.height, m, Point(0.0, 1.0), Point(0.0, 0.0), Point(1.0, 0.0), Point(1.0, 1.0));
  }

  /** The sideways full-view CUTOUT chain sends the source box's corners TL, TR, BR, BL to BL, TL, TR, BR of the unit square. */
  lemma SideCornerImages(t: Trig, output: Output, source: Source, cutout: Cutout, m: Matrix)
    requires ExactQuarterTurns(t) && source.rotation == 90.0
    requires source.width != 0.0 && source.height != 0.0
    requires cutout.x == 0.0 && cutout.y == 0.0 && cutout.width == source.height && cutout.height == source.width && cutout.outputRotation == 0.0
    requires output.width == source.width && output.height == source.height
    requires m == CutoutOutputTransform(t, output, cutout, CutoutTransform(source, SourceTransform(t, source), cutout))
    ensures BoxLandsOn(m, source.width, source.height, Point(0.0, 1.0), Point(0.0, 0.0), Point(1.0, 0.0), Point(1.0, 1.0))
  {
    var w, h := source.width, source.height;
    SideCornerLands(t, output, source, cutout, Point(-w / 2.0, -h / 2.0), Point(0.0, 1.0));
    SideCornerLands(t, output, source, cutout, Point(w / 2.0, -h / 2.0), Point(0.0, 0.0));
    SideCornerLands(t, output, source, cutout, Point(w / 2.0, h / 2.0), Point(1.0, 0.0));
    SideCornerLands(t, output, source, cutout, Point(-w / 2.0, h / 2.0), Point(1.0, 1.0));
  }

  /** One corner c of the sideways source box lands on the unit square's corner d a quarter turn round. */
  lemma SideCornerLands(t: Trig, output: Output, source: Source, cutout: Cutout, c: Point, d: Point)
    requires ExactQuarterTurns(t) && source.rotation == 90.0
    requires source.width != 0.0 && source.height != 0.0
    requires cutout.x == 0.0 && cutout.y == 0.0 && cutout.width == source.height && cutout.height == source.width && cutout.outputRotation == 0.0
    requires output.width == source.width && output.height == source.height
    requires IsSideCorner(source, c, d)
    ensures Apply(CutoutOutputTransform(t, output, cutout, CutoutTransform(source, SourceTransform(t, source), cutout)), c) == d
  {
    SideCornerImage(t, output, source, cutout, c);
    SideCornerNormalises(output, source, c, d);
  }

  /** c is a corner of the source box and d the unit-square corner it turns to: TL to BL, TR to TL, BR to TR, BL to BR. */
  predicate IsSideCorner(source: Source, c: Point, d: Point) {
    var w, h := source.width, source.height;
    || (c == Point(-w / 2.0, -h / 2.0) && d == Point(0.0, 1.0))
    || (c == Point(w / 2.0, -h / 2.0) && d == Point(0.0, 0.0))
    || (c == Point(w / 2.0, h / 2.0) && d == Point(1.0, 0.0))
    || (c == Point(-w / 2.0, h / 2.0) && d == Point(1.0, 1.0))
  }

  /** A corner of the sideways source, swapped and stretched to (w/h * y, -(h/w * x)), normalises to its turned corner. */
  lemma SideCornerNormalises(output: Output, source: Source, c: Point, d: Point)
    requires source.width != 0.0 && source.height != 0.0
    requires output.width == source.width && output.height == source.height
    requires IsSideCorner(source, c, d)
    ensures ToOutputSpace(output, Point(Quot(source.width, source.height) * c.y, -(Quot(source.height, source.width) * c.x))) == d
  {
    var w, h := source.width / 2.0, source.height / 2.0;
    var qx, qy := Quot(source.width, source.height), Quot(source.height, source.width);
    QuotCancels(source.width, source.height);
    QuotCancels(source.height, source.width);
    assert qx * (-source.height / 2.0) == -w && qx * (source.height / 2.0) == w;
    assert qy * (-source.width / 2.0) == -h && qy * (source.width / 2.0) == h;
    BoxCornersNormalise(output);
  }

  /** The CUTOUT chain of the sideways full-view crop sends (x, y) to the normalised (w/h * y, -(h/w * x)). */
  lemma SideCornerImage(t: Trig, output: Output, source: Source, cutout: Cutout, c: Point)
    requires ExactQuarterTurns(t) && source.rotation == 90.0
    requires cutout.x == 0.0 && cutout.y == 0.0 && cutout.width == source.height && cutout.height == source.width && cutout.outputRotation == 0.0
    ensures Apply(CutoutOutputTransform(t, output, cutout, CutoutTransform(source, SourceTransform(t, source), cutout)), c)
         == ToOutputSpace(output, Point(Quot(source.width, source.height) * c.y, -(Quot(source.height, source.width) * c.x)))
  {
    ZeroTurn(t, c);
    SideCrop(t, source, cutout, c);
  }

  /** The sideways full-view crop turns the source pixel (x, y) upright and stretches it to (w/h * y, -(h/w * x)). */
  lemma SideCrop(t: Trig, source: Source, cutout: Cutout, c: Point)
    requires ExactQuarterTurns(t) && source.rotation == 90.0
    requires cutout.x == 0.0 && cutout.y == 0.0 && cutout.width == source.height && cutout.height == source.width && cutout.outputRotation == 0.0
    ensures Apply(CutoutTransform(source, SourceTransform(t, source), cutout), c)
         == Point(Quot(source.width, source.height) * c.y, -(Quot(source.height, source.width) * c.x))
  {
    QuarterTurnSource(t, source, c);
    SideCropOf(source, SourceTransform(t, source), cutout, c);
  }

  /** Any view transform that turns c to (c.y, -c.x), followed by the sideways full-view crop. */
  lemma SideCropOf(source: Source, st: Matrix, cutout: Cutout, c: Point)
    requires cutout.x == 0.0 && cutout.y == 0.0 && cutout.width == source.height && cutout.height == source.width
    requires Apply(st, c) == Point(c.y, -c.x)
    ensures Apply(CutoutTransform(source, st, cutout), c)
         == Point(Quot(source.width, source.height) * c.y, -(Quot(source.height, source.width) * c.x))
  {
    CropAt(source, st, cutout, c);
    SideCropStretch(source, cutout, c, Apply(st, c), Apply(CutoutTransform(source, st, cutout), c));
  }

  /** The cutout transform at one point: the view-space image, taken from the crop corner and stretched by source/cutout size. */
  lemma CropAt(source: Source, st: Matrix, cutout: Cutout, p: Point)
    ensures Apply(CutoutTransform(source, st, cutout), p) == Point(
      Quot(source.width, cutout.width) * (Apply(st, p).x - cutout.x),
      Quot(source.height, cutout.height) * (Apply(st, p).y - cutout.y))
  {
  }

  /** The crop step of SideCrop: the upright point u = (y, -x), taken from the corner (0, 0) and stretched. */
  lemma SideCropStretch(source: Source, cutout: Cutout, c: Point, u: Point, r: Point)
    requires cutout.x == 0.0 && cutout.y == 0.0 && cutout.width == source.height && cutout.height == source.width
    requires u == Point(c.y, -c.x)
    requires r == Point(Quot(source.width, cutout.width) * (u.x - cutout.x), Quot(source.height, cutout.height) * (u.y - cutout.y))
    ensures r == Point(Quot(source.width, source.height) * c.y, -(Quot(source.height, source.width) * c.x))
  {
  }

  // ------------------------------------------------------- a 90-degree source on its native cutout

  /**
   * A 1280 x 720 source recorded at 90 degrees, with the cutout (0, 0, 1280, 720)
   * left in its native shape and shown on a 1280 x 720 CUTOUT output: the picture
   * is turned upright, so the corners TL, TR, BR, BL land on (7/32, 25/18),
   * (7/32, -7/18), (25/32, -7/18) and (25/32, 25/18), a tall frame overhanging
   * the output at top and bottom.
   */
  lemma NativeSideExample(t: Trig, output: Output, source: Source, cutout: Cutout)
    requires ExactQuarterTurns(t)
    requires source.width == 1280.0 && source.height == 720.0 && source.rotation == 90.0
    requires cutout.x == 0.0 && cutout.y == 0.0 && cutout.width == 1280.0 && cutout.height == 720.0 && cutout.outputRotation == 0.0
    requires output.CutoutOutput? && output.width == 1280.0 && output.height == 720.0
    ensures CutoutOutputPosition(t, output, source, cutout).perspective == Some(Perspective(
      Point(7.0 / 32.0, 25.0 / 18.0), Point(7.0 / 32.0, -7.0 / 18.0), Point(25.0 / 32.0, -7.0 / 18.0), Point(25.0 / 32.0, 25.0 / 18.0)))
  {
    var m := CutoutOutputTransform(t, output, cutout, CutoutTransform(source, SourceTransform(t, source), cutout));
    var q0, q1, q2, q3 := Point(7.0 / 32.0, 25.0 / 18.0), Point(7.0 / 32.0, -7.0 / 18.0), Point(25.0 / 32.0, -7.0 / 18.0), Point(25.0 / 32.0, 25.0 / 18.0);
    var w, h := source.width, source.height;
    NativeCornerLands(t, output, source, cutout, Point(-w / 2.0, -h / 2.0), q0);
    NativeCornerLands(t, output, source, cutout, Point(w / 2.0, -h / 2.0), q1);
    NativeCornerLands(t, output, source, cutout, Point(w / 2.0, h / 2.0), q2);
    NativeCornerLands(t, output, source, cutout, Point(-w / 2.0, h / 2.0), q3);
    PositionOfCorners(w, h, m, q0, q1, q2, q3);
  }

  /** One corner c of the 1280 x 720 source turned upright lands at d. */
  lemma NativeCornerLands(t: Trig, output: Output, source: Source, cutout: Cutout, c: Point, d: Point)
    requires ExactQuarterTurns(t)
    requires source.width == 1280.0 && source.height == 720.0 && source.rotation == 90.0
    requires cutout.x == 0.0 && cutout.y == 0.0 && cutout.width == 1280.0 && cutout.height == 720.0 && cutout.outputRotation == 0.0
    requires output.width == 1280.0 && output.height == 720.0
    requires ToOutputSpace(output, Point(c.y, -c.x)) == d
    ensures Apply(CutoutOutputTransform(t, output, cutout, CutoutTransform(source, SourceTransform(t, source), cutout)), c) == d
  {
    NativeCornerImage(t, output, source, cutout, c);
  }

  /** With the cutout in the source's own shape, the 90-degree source's pixel (x, y) reaches the output as (y, -x). */
  lemma NativeCornerImage(t: Trig, output: Output, source: Source, cutout: Cutout, c: Point)
    requires ExactQuarterTurns(t) && source.rotation == 90.0
    requires source.width != 0.0 && source.height != 0.0
    requires cutout.x == 0.0 && cutout.y == 0.0 && cutout.width == source.width && cutout.height == source.height && cutout.outputRotation == 0.0
    ensures Apply(CutoutOutputTransform(t, output, cutout, CutoutTransform(source, SourceTransform(t, source), cutout)), c)
         == ToOutputSpace(output, Point(c.y, -c.x))
  {
    ZeroTurn(t, c);
    QuarterTurnSource(t, source, c);
    CropAt(source, SourceTransform(t, source), cutout, c);
    QuotSelf(source.width);
    QuotSelf(source.height);
  }

  // ------------------------------------------------------- multiview cell clips

  /**
   * A MULTIVIEW cell whose cutout has no placement rotation is clipped to a
   * square of side cell.scale (in output units), centred where the viewport puts
   * the cell's offset: the output box scaled by the cell, normalised.
   */
  lemma UnrotatedCellClip(t: Trig, output: Output, cell: CutoutInOutput, cutout: Cutout)
    requires ExactQuarterTurns(t) && cutout.outputRotation == 0.0
    requires output.width != 0.0 && output.height != 0.0 && cell.scale >= 0.0
    ensures var cx, cy := Quot(1.0, output.width) * cell.x + 0.5, Quot(1.0, output.height) * cell.y + 0.5;
            CellClip(t, output, cell, cutout).clip == Some(Clip(cx - cell.scale / 2.0, cy - cell.scale / 2.0, cell.scale, cell.scale))
  {
    var viewport := ViewportTransform(output, cell);
    var turn := Rotate(t, cutout.outputRotation);
    var cx, cy := Quot(1.0, output.width) * cell.x + 0.5, Quot(1.0, output.height) * cell.y + 0.5;
    var matrix := ClipMatrix(t, cutout, viewport);
    var u0, u1 := Apply(viewport, BoxTopLeft(output)), Apply(viewport, BoxBottomRight(output));
    assert Apply(matrix, BoxTopLeft(output)) == u0 by {
      ZeroTurn(t, BoxTopLeft(output));
    }
    assert Apply(matrix, BoxBottomRight(output)) == u1 by {
      ZeroTurn(t, BoxBottomRight(output));
    }
    assert u0 == Point(cx - cell.scale / 2.0, cy - cell.scale / 2.0) && u1 == Point(cx + cell.scale / 2.0, cy + cell.scale / 2.0) by {
      CellViewportCorners(output, cell);
    }
    SquareClip(cx, cy, cell.scale);
  }

  /** The cell's viewport sends the output box's diagonal corners to the normalised offset ± half the cell scale. */
  lemma CellViewportCorners(output: Output, cell: CutoutInOutput)
    requires output.width != 0.0 && output.height != 0.0
    ensures var cx, cy := Quot(1.0, output.width) * cell.x + 0.5, Quot(1.0, output.height) * cell.y + 0.5;
            && Apply(ViewportTransform(output, cell), BoxTopLeft(output)) == Point(cx - cell.scale / 2.0, cy - cell.scale / 2.0)
            && Apply(ViewportTransform(output, cell), BoxBottomRight(output)) == Point(cx + cell.scale / 2.0, cy + cell.scale / 2.0)
  {
    QuotCancels(1.0, output.width);
    QuotCancels(1.0, output.height);
    ScaledHalfBox(Quot(1.0, output.width), output.width, cell.scale, cell.x);
    ScaledHalfBox(Quot(1.0, output.height), output.height, cell.scale, cell.y);
  }

  /** The bounding clip of (cx, cy) ± s/2 is the s x s square around (cx, cy). */
  lemma SquareClip(cx: real, cy: real, s: real)
    requires s >= 0.0
    ensures BoundingClip(Point(cx - s / 2.0, cy - s / 2.0), Point(cx + s / 2.0, cy + s / 2.0)) == Clip(cx - s / 2.0, cy - s / 2.0, s, s)
  {
  }

  /** Normalising a scaled half-side: q * (s * (±w/2) + x) = q * x ± s/2 when q * w = 1. */
  lemma ScaledHalfBox(q: real, w: real, s: real, x: real)
    requires q * w == 1.0
    ensures q * (s * (-w / 2.0) + x) == q * x - s / 2.0
    ensures q * (s * (w / 2.0) + x) == q * x + s / 2.0
  {
    assert q * (s * (w / 2.0)) == (s / 2.0) * (q * w);
    assert q * (s * (-w / 2.0)) == -((s / 2.0) * (q * w));
  }
}
