/**
 * `updateTimeline`: walk the outputs (MULTIVIEW first), write a layer mapping
 * for every layer an output uses, and push one timeline object per picture,
 * asking the reference cache for each. The first missing cutout or source, or
 * a source whose input is not a media file, ends the walk with an error; what
 * was written up to that point (mappings, objects, cache entries) stays.
 */
module Controller {
  import opened Wrappers
  import opened Strings
  import opened Geometry
  import opened Api
  import opened Tsr
  import opened Transforms
  import opened Referrer
  import opened Layout

  /** The errors `updateTimeline` throws. */
  datatype BuildError =
    | CutoutNotFound(cutoutId: string)   // `cutout "<id> not found!`
    | SourceNotFound(sourceId: string)   // `source "<id> not found!`
    | NotImplemented                     // a DECKLINK input
    | UnknownInputType(typeName: string) // any other input type

  /** The configuration an update reads: trigonometry plus the source and cutout tables. */
  datatype Env = Env(trig: Trig, sources: Sources, cutouts: Cutouts)

  /** The controller's mutable fields: `mappings`, `timeline` and the referrer's cache. */
  datatype State = State(mappings: map<string, Mapping>, timeline: seq<TimelineObject>, refs: Refs)

  /** A state after some work, and the error that stopped it, if any. */
  datatype Step = Step(state: State, error: Option<BuildError>)

  /** File name of the multiview background and of the box behind every cell. */
  const MultiviewBgFile: string := "multiview_bg"
  const BlackFile: string := "black"

  /** Every object on the timeline plays on a layer that has a mapping. */
  predicate LayersMapped(st: State) {
    forall j :: 0 <= j < |st.timeline| ==> st.timeline[j].layer in st.mappings
  }

  /** m2 agrees with m1 on every key that is not one of output i's layer keys. */
  ghost predicate OnlyOwnKeys(m1: map<string, Mapping>, m2: map<string, Mapping>, outputi: nat) {
    forall key :: !(KeyPrefix(outputi) <= key) ==> (key in m1 <==> key in m2) && (key in m1 ==> m1[key] == m2[key])
  }

  // ---------------------------------------------------------------- what can fail

  /** The error of looking up a cutout id and then its source, in that order. */
  function LookupError(env: Env, cutoutId: string): (e: Option<BuildError>)
    ensures e.None? <==> cutoutId in env.cutouts && env.cutouts[cutoutId].source in env.sources
    ensures cutoutId !in env.cutouts ==> e == Some(CutoutNotFound(cutoutId))
  {
    if cutoutId !in env.cutouts then Some(CutoutNotFound(cutoutId))
    else if env.cutouts[cutoutId].source !in env.sources then Some(SourceNotFound(env.cutouts[cutoutId].source))
    else None
  }

  /** The error of playing a source's input: only media files are supported. */
  function InputError(input: SourceInput): (e: Option<BuildError>)
    ensures e.None? <==> input.MediaInput?
  {
    match input
    case MediaInput(_) => None
    case DecklinkInput(_, _) => Some(NotImplemented)
    case OtherInput(name) => Some(UnknownInputType(name))
  }

  /**
   * Which error a failed lookup or an unplayable input raises: a cutout id with
   * no cutout, a cutout whose source is missing, a DeckLink input that is not
   * implemented, or an input type the code does not know.
   */
  lemma ErrorKinds(env: Env, cutoutId: string, input: SourceInput)
    ensures cutoutId !in env.cutouts ==> LookupError(env, cutoutId) == Some(CutoutNotFound(cutoutId))
    ensures cutoutId in env.cutouts && env.cutouts[cutoutId].source !in env.sources ==>
      LookupError(env, cutoutId) == Some(SourceNotFound(env.cutouts[cutoutId].source))
    ensures input.DecklinkInput? ==> InputError(input) == Some(NotImplemented)
    ensures input.OtherInput? ==> InputError(input) == Some(UnknownInputType(input.typeName))
  {
  }

  /** The error of showing cutout `cutoutId` at all: lookup first, then the input. */
  function UseError(env: Env, cutoutId: string): (e: Option<BuildError>)
    ensures e.None? <==> LookupError(env, cutoutId).None? && InputError(env.sources[env.cutouts[cutoutId].source].input).None?
  {
    if LookupError(env, cutoutId).Some? then LookupError(env, cutoutId)
    else InputError(env.sources[env.cutouts[cutoutId].source].input)
  }

  // ---------------------------------------------------------------- one output

  /** A CUTOUT output at (sorted) index i. */
  function CutoutStep(env: Env, st: State, i: nat, output: Output): (r: Step)
    requires output.CutoutOutput?
    ensures r.state.mappings == st.mappings[LayerKey(i, SourceRole) := CasparMapping(output.casparChannel, BaseLayer)]
    ensures r.error == UseError(env, output.cutout.cutoutId)
    ensures r.error.Some? ==> r.state.timeline == st.timeline && r.state.refs == st.refs
    ensures r.error.None? ==> |r.state.timeline| == |st.timeline| + 1 && st.timeline <= r.state.timeline
    ensures OnlyOwnKeys(st.mappings, r.state.mappings, i)
    ensures LayersMapped(st) ==> LayersMapped(r.state)
  {
    OwnPrefix(i, SourceRole);
    var layer := LayerKey(i, SourceRole);
    var st1 := st.(mappings := st.mappings[layer := CasparMapping(output.casparChannel, BaseLayer)]);
    var id := output.cutout.cutoutId;
    if id !in env.cutouts then Step(st1, Some(CutoutNotFound(id)))
    else
      var cutout := env.cutouts[id];
      if cutout.source !in env.sources then Step(st1, Some(SourceNotFound(cutout.source)))
      else
        var source := env.sources[cutout.source];
        var mixerPosition := CutoutOutputPosition(env.trig, output, source, cutout);
        match source.input
        case MediaInput(file) =>
          var reply := Media(st1.refs, layer, file, Some(mixerPosition));
          Step(st1.(timeline := st1.timeline + [reply.obj], refs := reply.refs), None)
        case DecklinkInput(_, _) => Step(st1, Some(NotImplemented))
        case OtherInput(name) => Step(st1, Some(UnknownInputType(name)))
  }

  /** Cell k of the MULTIVIEW output at (sorted) index i. */
  function CellStep(env: Env, st: State, i: nat, output: Output, k: nat): (r: Step)
    requires output.MultiviewOutput? && k < |output.cutouts|
    ensures var id := output.cutouts[k].cutoutId;
      && LayerKey(i, CellBgRole(id)) in r.state.mappings && LayerKey(i, CellRole(id)) in r.state.mappings
      && r.state.mappings[LayerKey(i, CellBgRole(id))] == CasparMapping(output.casparChannel, CellBgNumber(k))
      && r.state.mappings[LayerKey(i, CellRole(id))] == CasparMapping(output.casparChannel, CellNumber(k))
    ensures r.error == UseError(env, output.cutouts[k].cutoutId)
    ensures LookupError(env, output.cutouts[k].cutoutId).Some? ==> r.state.timeline == st.timeline && r.state.refs == st.refs
    ensures LookupError(env, output.cutouts[k].cutoutId).None? && r.error.Some? ==> |r.state.timeline| == |st.timeline| + 1
    ensures r.error.None? ==> |r.state.timeline| == |st.timeline| + 2
    ensures st.timeline <= r.state.timeline && st.mappings.Keys <= r.state.mappings.Keys
    ensures OnlyOwnKeys(st.mappings, r.state.mappings, i)
    ensures LayersMapped(st) ==> LayersMapped(r.state)
    ensures LayerKey(i, MultiviewBgRole) in st.mappings ==>
      LayerKey(i, MultiviewBgRole) in r.state.mappings && r.state.mappings[LayerKey(i, MultiviewBgRole)] == st.mappings[LayerKey(i, MultiviewBgRole)]
  {
    var cell := output.cutouts[k];
    LayerKeyInjective(i, MultiviewBgRole, i, CellRole(cell.cutoutId));
    LayerKeyInjective(i, MultiviewBgRole, i, CellBgRole(cell.cutoutId));
    OwnPrefix(i, CellRole(cell.cutoutId));
    OwnPrefix(i, CellBgRole(cell.cutoutId));
    var layer := LayerKey(i, CellRole(cell.cutoutId));
    var layerBg := LayerKey(i, CellBgRole(cell.cutoutId));
    var mappings := st.mappings[layerBg := CasparMapping(output.casparChannel, CellBgNumber(k))];
    var st1 := st.(mappings := mappings[layer := CasparMapping(output.casparChannel, CellNumber(k))]);
    LayerKeyInjective(i, CellRole(cell.cutoutId), i, CellBgRole(cell.cutoutId));
    if cell.cutoutId !in env.cutouts then Step(st1, Some(CutoutNotFound(cell.cutoutId)))
    else
      var cutout := env.cutouts[cell.cutoutId];
      if cutout.source !in env.sources then Step(st1, Some(SourceNotFound(cutout.source)))
      else
        var source := env.sources[cutout.source];
        var mixerClipping := CellClip(env.trig, output, cell, cutout);
        var bg := Media(st1.refs, layerBg, BlackFile, Some(mixerClipping));
        var st2 := st1.(timeline := st1.timeline + [bg.obj], refs := bg.refs);
        match source.input
        case MediaInput(file) =>
          var pic := Media(st2.refs, layer, file, Some(CellMixer(env.trig, output, cell, source, cutout)));
          Step(st2.(timeline := st2.timeline + [pic.obj], refs := pic.refs), None)
        case DecklinkInput(_, _) => Step(st2, Some(NotImplemented))
        case OtherInput(name) => Step(st2, Some(UnknownInputType(name)))
  }

  /** Cells k, k+1, ... of a MULTIVIEW output, stopping at the first error. */
  function CellsFrom(env: Env, st: State, i: nat, output: Output, k: nat): (r: Step)
    requires output.MultiviewOutput? && k <= |output.cutouts|
    ensures st.timeline <= r.state.timeline && st.mappings.Keys <= r.state.mappings.Keys
    ensures OnlyOwnKeys(st.mappings, r.state.mappings, i)
    ensures LayersMapped(st) ==> LayersMapped(r.state)
    ensures LayerKey(i, MultiviewBgRole) in st.mappings ==>
      LayerKey(i, MultiviewBgRole) in r.state.mappings && r.state.mappings[LayerKey(i, MultiviewBgRole)] == st.mappings[LayerKey(i, MultiviewBgRole)]
    decreases |output.cutouts| - k
  {
    if k == |output.cutouts| then Step(st, None)
    else
      var s := CellStep(env, st, i, output, k);
      if s.error.Some? then s
      else
        CellsFrom(env, s.state, i, output, k + 1)
  }

  /** A MULTIVIEW output at (sorted) index i: its background, then its cells. */
  function MultiviewStep(env: Env, st: State, i: nat, output: Output): (r: Step)
    requires output.MultiviewOutput?
    ensures LayerKey(i, MultiviewBgRole) in r.state.mappings
    ensures r.state.mappings[LayerKey(i, MultiviewBgRole)] == CasparMapping(output.casparChannel, BaseLayer)
    ensures |r.state.timeline| > |st.timeline| && st.timeline <= r.state.timeline
    ensures OnlyOwnKeys(st.mappings, r.state.mappings, i)
    ensures LayersMapped(st) ==> LayersMapped(r.state)
  {
    OwnPrefix(i, MultiviewBgRole);
    var layerMultiviewBg := LayerKey(i, MultiviewBgRole);
    var st1 := st.(mappings := st.mappings[layerMultiviewBg := CasparMapping(output.casparChannel, BaseLayer)]);
    var bg := Media(st1.refs, layerMultiviewBg, MultiviewBgFile, None);
    var st2 := st1.(timeline := st1.timeline + [bg.obj], refs := bg.refs);
    if |output.cutouts| > 0 then
      CellsFrom(env, st2, i, output, 0)
    else Step(st2, None)
  }

  /** One output at (sorted) index i. */
  function OutputStep(env: Env, st: State, i: nat, output: Output): (r: Step)
    ensures st.timeline <= r.state.timeline
    ensures OnlyOwnKeys(st.mappings, r.state.mappings, i)
    ensures LayersMapped(st) ==> LayersMapped(r.state)
  {
    match output
    case CutoutOutput(_, _, _, _) => CutoutStep(env, st, i, output)
    case MultiviewOutput(_, _, _, _) => MultiviewStep(env, st, i, output)
  }

  /** Outputs i, i+1, ... of the sorted list, stopping at the first error. */
  function OutputsFrom(env: Env, st: State, outs: seq<Output>, i: nat): (r: Step)
    requires i <= |outs|
    ensures st.timeline <= r.state.timeline
    ensures LayersMapped(st) ==> LayersMapped(r.state)
    decreases |outs| - i
  {
    if i == |outs| then Step(st, None)
    else
      var s := OutputStep(env, st, i, outs[i]);
      if s.error.Some? then s
      else OutputsFrom(env, s.state, outs, i + 1)
  }

  // ---------------------------------------------------------------- the update

  /** `'Unnamed' + i`: the id given to object i when it has none. */
  function FallbackId(i: nat): (id: string)
    ensures |id| > 0
  {
    "Unnamed" + NatToString(i)
  }

  /** The closing pass: every object without an id gets `FallbackId` of its position. */
  function AssignIds(objs: seq<TimelineObject>): (r: seq<TimelineObject>)
    ensures |r| == |objs|
    ensures forall i :: 0 <= i < |r| ==> r[i].id != ""
    ensures forall i :: 0 <= i < |r| ==> r[i] == objs[i].(id := r[i].id)
    ensures forall i :: 0 <= i < |r| && objs[i].id != "" ==> r[i].id == objs[i].id
    ensures forall i :: 0 <= i < |r| && objs[i].id == "" ==> r[i].id == FallbackId(i)
  {
    seq(|objs|, i requires 0 <= i < |objs| => if objs[i].id == "" then objs[i].(id := FallbackId(i)) else objs[i])
  }

  /** What an update leaves behind: the controller's fields, and the error it threw, if any. */
  datatype Build = Build(mappings: map<string, Mapping>, timeline: seq<TimelineObject>, refs: Refs, error: Option<BuildError>)

  /**
   * `updateTimeline()` with the source, cutout and output tables as inputs and
   * the referrer's cache as it was before the call. Mappings and the timeline
   * start empty; the cache does not. On an error the partial mappings, timeline
   * and cache are what the controller is left holding, and no ids are assigned.
   */
  function UpdateTimeline(trig: Trig, sources: Sources, cutouts: Cutouts, outputs: seq<Output>, refs: Refs): (r: Build)
    ensures forall j :: 0 <= j < |r.timeline| ==> r.timeline[j].layer in r.mappings
    ensures r.error.None? ==> forall j :: 0 <= j < |r.timeline| ==> r.timeline[j].id != ""
  {
    var s := OutputsFrom(Env(trig, sources, cutouts), State(map[], [], refs), SortOutputs(outputs), 0);
    if s.error.Some? then Build(s.state.mappings, s.state.timeline, s.state.refs, s.error)
    else Build(s.state.mappings, AssignIds(s.state.timeline), s.state.refs, None)
  }
}
