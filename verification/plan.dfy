/**
 * The requests an update makes of the reference cache, computed without the
 * cache: which layer asks for which file with which mixer, and where the
 * walk stops. The update is exactly "serve this plan through the cache";
 * only the MEDIA-or-ROUTE choice per object depends on the cache.
 */
module Plans {
  import opened Wrappers
  import opened Geometry
  import opened Api
  import opened Tsr
  import opened Transforms
  import opened Referrer
  import opened Layout
  import opened Controller

  /** The requests of an update, in order, and the error that ends it. */
  datatype Plan = Plan(reqs: seq<Request>, error: Option<BuildError>)

  /** Every request names a layer (no empty layer key is ever used). */
  predicate LayersNamed(reqs: seq<Request>) {
    forall j :: 0 <= j < |reqs| ==> reqs[j].layer != ""
  }

  /** Every request's mixer, when present, carries the fixed transitions. */
  predicate MixersAnimated(reqs: seq<Request>) {
    forall j :: 0 <= j < |reqs| && reqs[j].mixer.Some? ==> HasFixedTransitions(reqs[j].mixer.value)
  }

  /** The plan of a CUTOUT output at index i: one request for the source's file, unless it fails. */
  function CutoutPlan(env: Env, i: nat, output: Output): (p: Plan)
    requires output.CutoutOutput?
    ensures p.error == UseError(env, output.cutout.cutoutId)
    ensures |p.reqs| == (if p.error.None? then 1 else 0)
    ensures LayersNamed(p.reqs) && MixersAnimated(p.reqs)
    ensures p.error.None? ==>
      && output.cutout.cutoutId in env.cutouts && env.cutouts[output.cutout.cutoutId].source in env.sources
      && var cutout := env.cutouts[output.cutout.cutoutId];
         var source := env.sources[cutout.source];
         && source.input.MediaInput?
         && p.reqs == [MediaRequest(LayerKey(i, SourceRole), source.input.file, Some(CutoutOutputPosition(env.trig, output, source, cutout)))]
  {
    var id := output.cutout.cutoutId;
    if UseError(env, id).Some? then Plan([], UseError(env, id))
    else
      var cutout := env.cutouts[id];
      var source := env.sources[cutout.source];
      Plan([MediaRequest(LayerKey(i, SourceRole), source.input.file, Some(CutoutOutputPosition(env.trig, output, source, cutout)))], None)
  }

  /** The plan of cell k: the black box behind it, then its picture. */
  function CellPlan(env: Env, i: nat, output: Output, k: nat): (p: Plan)
    requires output.MultiviewOutput? && k < |output.cutouts|
    ensures p.error == UseError(env, output.cutouts[k].cutoutId)
    ensures |p.reqs| == (if LookupError(env, output.cutouts[k].cutoutId).Some? then 0 else if p.error.Some? then 1 else 2)
    ensures LayersNamed(p.reqs) && MixersAnimated(p.reqs)
  {
    var cell := output.cutouts[k];
    if LookupError(env, cell.cutoutId).Some? then Plan([], LookupError(env, cell.cutoutId))
    else
      var cutout := env.cutouts[cell.cutoutId];
      var source := env.sources[cutout.source];
      var bg := MediaRequest(LayerKey(i, CellBgRole(cell.cutoutId)), BlackFile, Some(CellClip(env.trig, output, cell, cutout)));
      if InputError(source.input).Some? then Plan([bg], InputError(source.input))
      else
        var pic := MediaRequest(LayerKey(i, CellRole(cell.cutoutId)), source.input.file, Some(CellMixer(env.trig, output, cell, source, cutout)));
        Plan([bg, pic], None)
  }

  /**
   * What a cell asks for: once its cutout and source are found, the black box
   * behind it on `_mvbg_<id>` with the cell's clip; and when the source is a
   * media file, that file on `_mv_<id>` with position and clip together.
   */
  lemma CellPlanRequests(env: Env, i: nat, output: Output, k: nat)
    requires output.MultiviewOutput? && k < |output.cutouts|
    ensures var p := CellPlan(env, i, output, k);
      var cell := output.cutouts[k];
      LookupError(env, cell.cutoutId).None? ==>
        var cutout := env.cutouts[cell.cutoutId];
        p.reqs[0] == MediaRequest(LayerKey(i, CellBgRole(cell.cutoutId)), BlackFile, Some(CellClip(env.trig, output, cell, cutout)))
    ensures var p := CellPlan(env, i, output, k);
      var cell := output.cutouts[k];
      p.error.None? ==>
        var cutout := env.cutouts[cell.cutoutId];
        var source := env.sources[cutout.source];
        && source.input.MediaInput?
        && p.reqs[1] == MediaRequest(LayerKey(i, CellRole(cell.cutoutId)), source.input.file, Some(CellMixer(env.trig, output, cell, source, cutout)))
  {
  }

  /** The plans of cells k, k+1, ..., up to and including the first that fails. */
  function CellsPlan(env: Env, i: nat, output: Output, k: nat): (p: Plan)
    requires output.MultiviewOutput? && k <= |output.cutouts|
    ensures LayersNamed(p.reqs) && MixersAnimated(p.reqs)
    decreases |output.cutouts| - k
  {
    if k == |output.cutouts| then Plan([], None)
    else
      var p := CellPlan(env, i, output, k);
      if p.error.Some? then p
      else
        var rest := CellsPlan(env, i, output, k + 1);
        Plan(p.reqs + rest.reqs, rest.error)
  }

  /** The plan of a MULTIVIEW output: its background, then its cells. */
  function MultiviewPlan(env: Env, i: nat, output: Output): (p: Plan)
    requires output.MultiviewOutput?
    ensures LayersNamed(p.reqs) && MixersAnimated(p.reqs)
    ensures |p.reqs| >= 1 && p.reqs[0] == MediaRequest(LayerKey(i, MultiviewBgRole), MultiviewBgFile, None)
    ensures p.reqs[1..] == CellsPlan(env, i, output, 0).reqs && p.error == CellsPlan(env, i, output, 0).error
  {
    var cells := CellsPlan(env, i, output, 0);
    Plan([MediaRequest(LayerKey(i, MultiviewBgRole), MultiviewBgFile, None)] + cells.reqs, cells.error)
  }

  function OutputPlan(env: Env, i: nat, output: Output): (p: Plan)
    ensures LayersNamed(p.reqs) && MixersAnimated(p.reqs)
  {
    match output
    case CutoutOutput(_, _, _, _) => CutoutPlan(env, i, output)
    case MultiviewOutput(_, _, _, _) => MultiviewPlan(env, i, output)
  }

  /** The plans of outputs i, i+1, ..., up to and including the first that fails. */
  function OutputsPlan(env: Env, outs: seq<Output>, i: nat): (p: Plan)
    requires i <= |outs|
    ensures LayersNamed(p.reqs) && MixersAnimated(p.reqs)
    decreases |outs| - i
  {
    if i == |outs| then Plan([], None)
    else
      var p := OutputPlan(env, i, outs[i]);
      if p.error.Some? then p
      else
        var rest := OutputsPlan(env, outs, i + 1);
        Plan(p.reqs + rest.reqs, rest.error)
  }

  /** The plan of a whole update. */
  function UpdatePlan(trig: Trig, sources: Sources, cutouts: Cutouts, outputs: seq<Output>): (p: Plan)
    ensures LayersNamed(p.reqs) && MixersAnimated(p.reqs)
  {
    OutputsPlan(Env(trig, sources, cutouts), SortOutputs(outputs), 0)
  }

  // ---------------------------------------------------------------- the update serves its plan

  /** Stepping through a part of the walk appends the served plan's objects and leaves the served cache. */
  predicate Serves(st: State, r: Step, p: Plan) {
    && r.error == p.error
    && r.state.timeline == st.timeline + Serve(st.refs, p.reqs).objs
    && r.state.refs == Serve(st.refs, p.reqs).refs
  }

  /** Serving one request. */
  lemma {:induction false} ServeOne(refs: Refs, a: Request)
    ensures Serve(refs, [a]).objs == [Answer(refs, a).obj] && Serve(refs, [a]).refs == Answer(refs, a).refs
  {
    assert [a][..0] == [];
  }

  /** Serving two requests. */
  lemma {:induction false} ServeTwo(refs: Refs, a: Request, b: Request)
    ensures Serve(refs, [a, b]).objs == [Answer(refs, a).obj, Answer(Answer(refs, a).refs, b).obj]
    ensures Serve(refs, [a, b]).refs == Answer(Answer(refs, a).refs, b).refs
  {
    assert [a, b][..1] == [a];
    ServeOne(refs, a);
  }

  lemma {:induction false} CutoutStepServes(env: Env, st: State, i: nat, output: Output)
    requires output.CutoutOutput?
    ensures Serves(st, CutoutStep(env, st, i, output), CutoutPlan(env, i, output))
  {
    var p := CutoutPlan(env, i, output);
    if p.error.None? {
      ServeOne(st.refs, p.reqs[0]);
    }
  }

  lemma {:induction false} CellStepServes(env: Env, st: State, i: nat, output: Output, k: nat)
    requires output.MultiviewOutput? && k < |output.cutouts|
    ensures Serves(st, CellStep(env, st, i, output, k), CellPlan(env, i, output, k))
  {
    var p := CellPlan(env, i, output, k);
    if |p.reqs| == 1 {
      ServeOne(st.refs, p.reqs[0]);
    } else if |p.reqs| == 2 {
      ServeTwo(st.refs, p.reqs[0], p.reqs[1]);
    }
  }

  /** Running two parts one after the other serves the concatenated plan. */
  lemma {:induction false} ServesThen(st: State, s: Step, r: Step, p: Plan, q: Plan)
    requires s.error.None? && Serves(st, s, p) && Serves(s.state, r, q)
    ensures Serves(st, r, Plan(p.reqs + q.reqs, q.error))
  {
    ServeAppend(st.refs, p.reqs, q.reqs);
    var a, b := Serve(st.refs, p.reqs), Serve(s.state.refs, q.reqs);
    AppendAssociates(st.timeline, a.objs, b.objs);
  }

  lemma {:induction false} CellsFromServes(env: Env, st: State, i: nat, output: Output, k: nat)
    requires output.MultiviewOutput? && k <= |output.cutouts|
    ensures Serves(st, CellsFrom(env, st, i, output, k), CellsPlan(env, i, output, k))
    decreases |output.cutouts| - k
  {
    if k < |output.cutouts| {
      var s := CellStep(env, st, i, output, k);
      CellStepServes(env, st, i, output, k);
      if s.error.None? {
        CellsFromServes(env, s.state, i, output, k + 1);
        CellsUnfold(env, st, i, output, k);
      } else {
        CellsStop(env, st, i, output, k);
      }
    }
  }

  /** A cell that fails ends the cells. */
  lemma {:induction false} CellsStop(env: Env, st: State, i: nat, output: Output, k: nat)
    requires output.MultiviewOutput? && k < |output.cutouts|
    requires CellStep(env, st, i, output, k).error.Some?
    requires Serves(st, CellStep(env, st, i, output, k), CellPlan(env, i, output, k))
    ensures Serves(st, CellsFrom(env, st, i, output, k), CellsPlan(env, i, output, k))
  {
  }

  /** One cell that succeeds, then the rest. */
  lemma {:induction false} CellsUnfold(env: Env, st: State, i: nat, output: Output, k: nat)
    requires output.MultiviewOutput? && k < |output.cutouts|
    requires CellStep(env, st, i, output, k).error.None?
    requires Serves(st, CellStep(env, st, i, output, k), CellPlan(env, i, output, k))
    requires Serves(CellStep(env, st, i, output, k).state, CellsFrom(env, CellStep(env, st, i, output, k).state, i, output, k + 1), CellsPlan(env, i, output, k + 1))
    ensures Serves(st, CellsFrom(env, st, i, output, k), CellsPlan(env, i, output, k))
  {
    var s := CellStep(env, st, i, output, k);
    var p, q := CellPlan(env, i, output, k), CellsPlan(env, i, output, k + 1);
    ServesThen(st, s, CellsFrom(env, s.state, i, output, k + 1), p, q);
  }

  lemma {:induction false} MultiviewStepServes(env: Env, st: State, i: nat, output: Output)
    requires output.MultiviewOutput?
    ensures Serves(st, MultiviewStep(env, st, i, output), MultiviewPlan(env, i, output))
  {
    var bgReq := MediaRequest(LayerKey(i, MultiviewBgRole), MultiviewBgFile, None);
    var bg := Media(st.refs, bgReq.layer, MultiviewBgFile, None);
    var st2 := st.(mappings := st.mappings[bgReq.layer := CasparMapping(output.casparChannel, BaseLayer)],
                   timeline := st.timeline + [bg.obj], refs := bg.refs);
    ServeOne(st.refs, bgReq);
    var s := Step(st2, None);
    assert Serves(st, s, Plan([bgReq], None));
    CellsFromServes(env, st2, i, output, 0);
    ServesThen(st, s, CellsFrom(env, st2, i, output, 0), Plan([bgReq], None), CellsPlan(env, i, output, 0));
  }

  lemma {:induction false} OutputStepServes(env: Env, st: State, i: nat, output: Output)
    ensures Serves(st, OutputStep(env, st, i, output), OutputPlan(env, i, output))
  {
    match output
    case CutoutOutput(_, _, _, _) => CutoutStepServes(env, st, i, output);
    case MultiviewOutput(_, _, _, _) => MultiviewStepServes(env, st, i, output);
  }

  lemma {:induction false} OutputsFromServes(env: Env, st: State, outs: seq<Output>, i: nat)
    requires i <= |outs|
    ensures Serves(st, OutputsFrom(env, st, outs, i), OutputsPlan(env, outs, i))
    decreases |outs| - i
  {
    if i < |outs| {
      var s := OutputStep(env, st, i, outs[i]);
      var p := OutputPlan(env, i, outs[i]);
      OutputStepServes(env, st, i, outs[i]);
      if s.error.None? {
        var r := OutputsFrom(env, s.state, outs, i + 1);
        var q := OutputsPlan(env, outs, i + 1);
        assert OutputsFrom(env, st, outs, i) == r;
        assert OutputsPlan(env, outs, i) == Plan(p.reqs + q.reqs, q.error);
        OutputsFromServes(env, s.state, outs, i + 1);
        ServesThen(st, s, r, p, q);
      } else {
        assert OutputsFrom(env, st, outs, i) == s;
        assert OutputsPlan(env, outs, i) == p;
      }
    }
  }

  /**
   * An update is its plan served through the cache it starts from: the same
   * error, the served objects as the timeline (named by the id pass when
   * nothing failed), and the served cache as the cache it leaves.
   */
  lemma {:induction false} UpdateServesPlan(trig: Trig, sources: Sources, cutouts: Cutouts, outputs: seq<Output>, refs: Refs)
    ensures var b := UpdateTimeline(trig, sources, cutouts, outputs, refs);
            var p := UpdatePlan(trig, sources, cutouts, outputs);
            && b.error == p.error
            && b.refs == Serve(refs, p.reqs).refs
            && (b.error.Some? ==> b.timeline == Serve(refs, p.reqs).objs)
            && (b.error.None? ==> b.timeline == AssignIds(Serve(refs, p.reqs).objs))
  {
    OutputsFromServes(Env(trig, sources, cutouts), State(map[], [], refs), SortOutputs(outputs), 0);
  }
}
