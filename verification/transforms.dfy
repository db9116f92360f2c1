/**
 * The controller's geometry: the source and cutout transforms, the two
 * per-output composition chains, and their conversion into CasparCG mixer
 * parameters (a four-corner `perspective` and an axis-aligned `clip`).
 */
module Transforms {
  import opened Wrappers
  import opened Geometry
  import opened Api
  import opened Tsr

  /**
   * Division as the chains write it. JavaScript yields Infinity or NaN for a
   * zero divisor; reals have no such values, so the quotient is 0 there and
   * every property below that depends on it asks for a nonzero divisor.
   */
  function Quot(a: real, b: real): real {
    if b == 0.0 then 0.0 else a / b
  }

  // ------------------------------------------------------------ transforms

  /** `_sourceTransform`: from source pixels into upright view space; it undoes the source's own rotation. */
  function SourceTransform(t: Trig, source: Source): (m: Matrix)
    ensures UnitAt(t, source.rotation) ==>
      forall v {:trigger Apply(Rotate(t, source.rotation), v)} :: Apply(m, Apply(Rotate(t, source.rotation), v)) == v
  {
    var m := Compose([Rotate(t, -source.rotation)]);
    if UnitAt(t, source.rotation) then
      forall v {:trigger Apply(Rotate(t, source.rotation), v)}
        ensures Apply(m, Apply(Rotate(t, source.rotation), v)) == v
      {
        RotateInverse(t, source.rotation, v);
      }
      m
    else m
  }

  /**
   * `_cutoutTransform`: compose(scale(sw/cw, sh/ch), translate(-x, -y), sourceTransform).
   * The source transform acts first, then the shift to the cutout's corner, then the stretch.
   */
  function CutoutTransform(source: Source, sourceTransform: Matrix, cutout: Cutout): (m: Matrix)
    ensures forall p {:trigger Apply(m, p)} :: Apply(m, p) == Point(
      Quot(source.width, cutout.width) * (Apply(sourceTransform, p).x - cutout.x),
      Quot(source.height, cutout.height) * (Apply(sourceTransform, p).y - cutout.y))
  {
    var ms := [Scale(Quot(source.width, cutout.width), Quot(source.height, cutout.height)),
               Translate(-cutout.x, -cutout.y),
               sourceTransform];
    var m := Compose(ms);
    forall p {:trigger Apply(m, p)} ensures Apply(m, p) == Point(
      Quot(source.width, cutout.width) * (Apply(sourceTransform, p).x - cutout.x),
      Quot(source.height, cutout.height) * (Apply(sourceTransform, p).y - cutout.y))
    {
      ChainUnrolled(ms, p);
    }
    m
  }

  /** Output normalisation, translate(0.5, 0.5) after scale(1/width, 1/height): the output's centre becomes (0.5, 0.5). */
  function ToOutputSpace(output: Output, q: Point): Point {
    Point(Quot(1.0, output.width) * q.x + 0.5, Quot(1.0, output.height) * q.y + 0.5)
  }

  /** The first two steps of both output chains map q to ToOutputSpace(output, q). */
  lemma NormalisationActs(output: Output, q: Point)
    ensures Apply(Translate(0.5, 0.5), Apply(Scale(Quot(1.0, output.width), Quot(1.0, output.height)), q))
         == ToOutputSpace(output, q)
  {
  }

  /**
   * The CUTOUT chain: compose(translate(0.5, 0.5), scale(1/w, 1/h), cutoutTransform,
   * rotateDEG(outputRotation, 0.5, 0.5)). The placement rotation acts first, then
   * the crop, then the normalisation into the output.
   */
  function CutoutOutputTransform(t: Trig, output: Output, cutout: Cutout, cutoutTransform: Matrix): (m: Matrix)
    ensures forall p {:trigger Apply(m, p)} :: (Apply(m, p) ==
      ToOutputSpace(output, Apply(cutoutTransform, Apply(RotateAbout(t, cutout.outputRotation, 0.5, 0.5), p))))
  {
    var ms := [Translate(0.5, 0.5),
               Scale(Quot(1.0, output.width), Quot(1.0, output.height)),
               cutoutTransform,
               RotateAbout(t, cutout.outputRotation, 0.5, 0.5)];
    var m := Compose(ms);
    forall p {:trigger Apply(m, p)} ensures Apply(m, p) ==
      ToOutputSpace(output, Apply(cutoutTransform, Apply(RotateAbout(t, cutout.outputRotation, 0.5, 0.5), p)))
    {
      ChainUnrolled(ms, p);
      NormalisationActs(output, Apply(cutoutTransform, Apply(RotateAbout(t, cutout.outputRotation, 0.5, 0.5), p)));
    }
    m
  }

  /**
   * The viewport of a MULTIVIEW cell: compose(translate(0.5, 0.5), scale(1/w, 1/h),
   * translate(cell.x, cell.y), scale(cell.scale)). A point is scaled by the cell's
   * scale, moved by the cell's offset, then normalised into the output.
   */
  function ViewportTransform(output: Output, cell: CutoutInOutput): (m: Matrix)
    ensures forall p {:trigger Apply(m, p)} :: (Apply(m, p) ==
      ToOutputSpace(output, Point(cell.scale * p.x + cell.x, cell.scale * p.y + cell.y)))
  {
    var ms := [Translate(0.5, 0.5),
               Scale(Quot(1.0, output.width), Quot(1.0, output.height)),
               Translate(cell.x, cell.y),
               ScaleUniform(cell.scale)];
    var m := Compose(ms);
    forall p {:trigger Apply(m, p)} ensures Apply(m, p) ==
      ToOutputSpace(output, Point(cell.scale * p.x + cell.x, cell.scale * p.y + cell.y))
    {
      ViewportActs(ms, output, cell, p);
    }
    m
  }

  lemma ViewportActs(ms: seq<Matrix>, output: Output, cell: CutoutInOutput, p: Point)
    requires ms == [Translate(0.5, 0.5),
                    Scale(Quot(1.0, output.width), Quot(1.0, output.height)),
                    Translate(cell.x, cell.y),
                    ScaleUniform(cell.scale)]
    ensures ApplyChain(ms, p) == ToOutputSpace(output, Point(cell.scale * p.x + cell.x, cell.scale * p.y + cell.y))
  {
    ChainUnrolled(ms, p);
    var r := Point(cell.scale * p.x, cell.scale * p.y);
    var q := Point(cell.scale * p.x + cell.x, cell.scale * p.y + cell.y);
    assert Apply(ms[3], p) == r;
    assert Apply(ms[2], r) == q;
    NormalisationActs(output, q);
  }

  /**
   * The MULTIVIEW cell chain: the viewport steps followed by the cutout transform
   * in one compose; the crop acts first and the cell's placement after it.
   */
  function MultiviewCellTransform(output: Output, cell: CutoutInOutput, cutoutTransform: Matrix): (m: Matrix)
    ensures forall p {:trigger Apply(m, p)} :: Apply(m, p) == Apply(ViewportTransform(output, cell), Apply(cutoutTransform, p))
  {
    var ms := [Translate(0.5, 0.5),
               Scale(Quot(1.0, output.width), Quot(1.0, output.height)),
               Translate(cell.x, cell.y),
               ScaleUniform(cell.scale),
               cutoutTransform];
    var m := Compose(ms);
    forall p {:trigger Apply(m, p)} ensures Apply(m, p) == Apply(ViewportTransform(output, cell), Apply(cutoutTransform, p))
    {
      MultiviewCellActs(output, cell, cutoutTransform, p);
    }
    m
  }

  lemma MultiviewCellActs(output: Output, cell: CutoutInOutput, cutoutTransform: Matrix, p: Point)
    ensures Apply(Compose([Translate(0.5, 0.5),
                           Scale(Quot(1.0, output.width), Quot(1.0, output.height)),
                           Translate(cell.x, cell.y),
                           ScaleUniform(cell.scale),
                           cutoutTransform]), p)
         == Apply(ViewportTransform(output, cell), Apply(cutoutTransform, p))
  {
    var ms := [Translate(0.5, 0.5),
               Scale(Quot(1.0, output.width), Quot(1.0, output.height)),
               Translate(cell.x, cell.y),
               ScaleUniform(cell.scale),
               cutoutTransform];
    ChainUnrolled(ms, p);
    var p' := Apply(cutoutTransform, p);
    var q := Point(cell.scale * p'.x + cell.x, cell.scale * p'.y + cell.y);
    assert Apply(ms[2], Apply(ms[3], p')) == q;
    NormalisationActs(output, q);
    assert Apply(ViewportTransform(output, cell), p') == ToOutputSpace(output, q);
  }

  // ------------------------------------------------------- mixer parameters

  const Easing: string := "EASEINOUTQUAD"
  const TransitionDuration: real := 0.5

  /** Every mixer the controller builds eases in and on change the same way. */
  predicate HasFixedTransitions(m: Mixer) {
    && m.inTransition == Transition(Easing, TransitionDuration)
    && m.changeTransition == Transition(Easing, TransitionDuration)
  }

  /** `_casparTransformTransition`: the transition part alone. */
  function CasparTransition(): (r: Mixer)
    ensures HasFixedTransitions(r) && r.perspective.None? && r.clip.None?
  {
    Mixer(Transition(Easing, TransitionDuration), Transition(Easing, TransitionDuration), None, None)
  }

  /** The affine image of a rectangle is a parallelogram: opposite corners have the same midpoint. */
  predicate IsParallelogram(q: Perspective) {
    && q.topLeft.x + q.bottomRight.x == q.topRight.x + q.bottomLeft.x
    && q.topLeft.y + q.bottomRight.y == q.topRight.y + q.bottomLeft.y
  }

  /**
   * `_casparTransformPosition`: the four corners of the width x height box centred
   * on the origin, sent through `outputTransform`, as a `perspective`.
   */
  function CasparPosition(width: real, height: real, outputTransform: Matrix): (r: Mixer)
    ensures HasFixedTransitions(r) && r.clip.None? && r.perspective.Some?
    ensures IsParallelogram(r.perspective.value)
    ensures r.perspective.value.topLeft == Apply(outputTransform, Point(-width / 2.0, -height / 2.0))
    ensures r.perspective.value.bottomRight == Apply(outputTransform, Point(width / 2.0, height / 2.0))
  {
    var x0, y0, x1, y1 := -width / 2.0, -height / 2.0, width / 2.0, height / 2.0;
    var m := outputTransform;
    var q := Perspective(Apply(m, Point(x0, y0)), Apply(m, Point(x1, y0)), Apply(m, Point(x1, y1)), Apply(m, Point(x0, y1)));
    ParallelogramCorners(m, x0, y0, x1, y1);
    CasparTransition().(perspective := Some(q))
  }

  /** The corner identity behind `IsParallelogram`: an affine map adds up equally over both diagonals of a rectangle. */
  lemma ParallelogramCorners(m: Matrix, x0: real, y0: real, x1: real, y1: real)
    ensures Apply(m, Point(x0, y0)).x + Apply(m, Point(x1, y1)).x == Apply(m, Point(x1, y0)).x + Apply(m, Point(x0, y1)).x
    ensures Apply(m, Point(x0, y0)).y + Apply(m, Point(x1, y1)).y == Apply(m, Point(x1, y0)).y + Apply(m, Point(x0, y1)).y
  {
  }

  /** p lies in clip k (borders included). */
  predicate Encloses(k: Clip, p: Point) {
    k.x <= p.x <= k.x + k.width && k.y <= p.y <= k.y + k.height
  }

  /** Clip k lies inside clip l. */
  predicate Inside(k: Clip, l: Clip) {
    l.x <= k.x && k.x + k.width <= l.x + l.width && l.y <= k.y && k.y + k.height <= l.y + l.height
  }

  function Min(a: real, b: real): real { if a <= b then a else b }
  function Max(a: real, b: real): real { if a <= b then b else a }

  /**
   * The element-wise min/max rectangle of two points: it encloses both, has no
   * negative side, and lies inside every rectangle that encloses both.
   */
  function BoundingClip(u0: Point, u1: Point): (r: Clip)
    ensures r.width >= 0.0 && r.height >= 0.0
    ensures Encloses(r, u0) && Encloses(r, u1)
    ensures r.x == Min(u0.x, u1.x) && r.x + r.width == Max(u0.x, u1.x)
    ensures r.y == Min(u0.y, u1.y) && r.y + r.height == Max(u0.y, u1.y)
    ensures forall k {:trigger Inside(r, k)} :: Encloses(k, u0) && Encloses(k, u1) ==> Inside(r, k)
  {
    var topLeft := Point(Min(u0.x, u1.x), Min(u0.y, u1.y));
    var bottomRight := Point(Max(u0.x, u1.x), Max(u0.y, u1.y));
    Clip(topLeft.x, topLeft.y, bottomRight.x - topLeft.x, bottomRight.y - topLeft.y)
  }

  /** compose(viewport, rotateDEG(outputRotation)): the placement rotation acts first. */
  function ClipMatrix(t: Trig, cutout: Cutout, viewport: Matrix): (m: Matrix)
    ensures forall p {:trigger Apply(m, p)} :: Apply(m, p) == Apply(viewport, Apply(Rotate(t, cutout.outputRotation), p))
  {
    var m := Compose([viewport, Rotate(t, cutout.outputRotation)]);
    forall p {:trigger Apply(m, p)} ensures Apply(m, p) == Apply(viewport, Apply(Rotate(t, cutout.outputRotation), p)) {
      ChainUnrolled([viewport, Rotate(t, cutout.outputRotation)], p);
    }
    m
  }

  /** The two diagonal corners of the output's box centred on the origin. */
  function BoxTopLeft(output: Output): Point { Point(-output.width / 2.0, -output.height / 2.0) }
  function BoxBottomRight(output: Output): Point { Point(output.width / 2.0, output.height / 2.0) }

  /**
   * `_casparTransformClip`: the output box's two diagonal corners sent through
   * compose(viewport, rotateDEG(outputRotation)), and the axis-aligned rectangle
   * they span, as a `clip`.
   */
  function CasparClip(t: Trig, output: Output, cutout: Cutout, viewport: Matrix): (r: Mixer)
    ensures HasFixedTransitions(r) && r.perspective.None? && r.clip.Some?
    ensures r.clip.value.width >= 0.0 && r.clip.value.height >= 0.0
    ensures Encloses(r.clip.value, Apply(ClipMatrix(t, cutout, viewport), BoxTopLeft(output)))
    ensures Encloses(r.clip.value, Apply(ClipMatrix(t, cutout, viewport), BoxBottomRight(output)))
    ensures r.clip.value == BoundingClip(
      Apply(ClipMatrix(t, cutout, viewport), BoxTopLeft(output)),
      Apply(ClipMatrix(t, cutout, viewport), BoxBottomRight(output)))
  {
    var matrix := ClipMatrix(t, cutout, viewport);
    var u0 := Apply(matrix, BoxTopLeft(output));
    var u1 := Apply(matrix, BoxBottomRight(output));
    CasparTransition().(clip := Some(BoundingClip(u0, u1)))
  }

  /** `{...a, ...b}`: the keys b has win, the others come from a. */
  function Spread(a: Mixer, b: Mixer): Mixer {
    Mixer(
      b.inTransition,
      b.changeTransition,
      if b.perspective.Some? then b.perspective else a.perspective,
      if b.clip.Some? then b.clip else a.clip)
  }

  // ------------------------------------------------------ per-output mixers

  /** The mixer of a CUTOUT output's source layer: the CUTOUT chain's image of the source box. */
  function CutoutOutputPosition(t: Trig, output: Output, source: Source, cutout: Cutout): (r: Mixer)
    ensures HasFixedTransitions(r) && r.perspective.Some? && r.clip.None?
    ensures r.perspective == Some(BoxImage(
      CutoutOutputTransform(t, output, cutout, CutoutTransform(source, SourceTransform(t, source), cutout)),
      source.width, source.height))
  {
    var sourceTransform := SourceTransform(t, source);
    var cutoutTransform := CutoutTransform(source, sourceTransform, cutout);
    CasparPosition(source.width, source.height, CutoutOutputTransform(t, output, cutout, cutoutTransform))
  }

  /** The `perspective` mixer of a MULTIVIEW cell: the cell chain's image of the source box. */
  function CellPosition(t: Trig, output: Output, cell: CutoutInOutput, source: Source, cutout: Cutout): (r: Mixer)
    ensures HasFixedTransitions(r) && r.perspective.Some? && r.clip.None?
    ensures r.perspective == Some(BoxImage(
      MultiviewCellTransform(output, cell, CutoutTransform(source, SourceTransform(t, source), cutout)),
      source.width, source.height))
  {
    var sourceTransform := SourceTransform(t, source);
    var cutoutTransform := CutoutTransform(source, sourceTransform, cutout);
    CasparPosition(source.width, source.height, MultiviewCellTransform(output, cell, cutoutTransform))
  }

  /** The `clip` mixer of a MULTIVIEW cell, from the cell's viewport alone. */
  function CellClip(t: Trig, output: Output, cell: CutoutInOutput, cutout: Cutout): (r: Mixer)
    ensures HasFixedTransitions(r) && r.perspective.None? && r.clip.Some?
    ensures r.clip.value.width >= 0.0 && r.clip.value.height >= 0.0
    ensures var matrix := ClipMatrix(t, cutout, ViewportTransform(output, cell));
            r.clip.value == BoundingClip(Apply(matrix, BoxTopLeft(output)), Apply(matrix, BoxBottomRight(output)))
  {
    CasparClip(t, output, cutout, ViewportTransform(output, cell))
  }

  /** The mixer of a cell's clip layer, `{...mixerPosition, ...mixerClipping}`: both parameter sets at once. */
  function CellMixer(t: Trig, output: Output, cell: CutoutInOutput, source: Source, cutout: Cutout): (r: Mixer)
    ensures HasFixedTransitions(r)
    ensures r.perspective == CellPosition(t, output, cell, source, cutout).perspective
    ensures r.clip == CellClip(t, output, cell, cutout).clip
  {
    Spread(CellPosition(t, output, cell, source, cutout), CellClip(t, output, cell, cutout))
  }

  /** The perspective of the width x height box centred on the origin under m: its corners' images, TL, TR, BR, BL. */
  function BoxImage(m: Matrix, width: real, height: real): Perspective {
    Perspective(
      Apply(m, Point(-width / 2.0, -height / 2.0)),
      Apply(m, Point(width / 2.0, -height / 2.0)),
      Apply(m, Point(width / 2.0, height / 2.0)),
      Apply(m, Point(-width / 2.0, height / 2.0)))
  }
}
