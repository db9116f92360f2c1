/**
 * What a whole `updateTimeline` call promises, stated against independent
 * reference definitions: which error it throws (the first unusable cutout in
 * processing order), how many objects it builds, that every object plays on
 * a mapped layer, that the layout does not depend on the cache, and where
 * the cache turns a picture into a ROUTE.
 */
module BuildProofs {
  import opened Wrappers
  import opened Strings
  import opened Geometry
  import opened Api
  import opened Tsr
  import opened Transforms
  import opened Referrer
  import opened Layout
  import opened Controller
  import opened Plans

  // ---------------------------------------------------------------- reference: errors

  /** The error of the first cell, in order, whose cutout cannot be shown. */
  function CellsError(env: Env, cells: seq<CutoutInOutput>): (e: Option<BuildError>)
    decreases |cells|
  {
    if |cells| == 0 then None
    else if UseError(env, cells[0].cutoutId).Some? then UseError(env, cells[0].cutoutId)
    else CellsError(env, cells[1..])
  }

  /** The error an output throws on its own: its cutout's, or its first failing cell's. */
  function OutputError(env: Env, output: Output): Option<BuildError> {
    match output
    case CutoutOutput(_, _, _, cell) => UseError(env, cell.cutoutId)
    case MultiviewOutput(_, _, _, cells) => CellsError(env, cells)
  }

  /** The error of the first output, in order, that throws one. */
  function FirstError(env: Env, outs: seq<Output>): (e: Option<BuildError>)
    decreases |outs|
  {
    if |outs| == 0 then None
    else if OutputError(env, outs[0]).Some? then OutputError(env, outs[0])
    else FirstError(env, outs[1..])
  }

  /** A configuration entry an output can show: the cutout exists, its source exists, and it plays a media file. */
  predicate Usable(env: Env, cutoutId: string) {
    && cutoutId in env.cutouts
    && env.cutouts[cutoutId].source in env.sources
    && env.sources[env.cutouts[cutoutId].source].input.MediaInput?
  }

  /** Every cutout an output shows is usable. */
  predicate OutputUsable(env: Env, output: Output) {
    match output
    case CutoutOutput(_, _, _, cell) => Usable(env, cell.cutoutId)
    case MultiviewOutput(_, _, _, cells) => forall k :: 0 <= k < |cells| ==> Usable(env, cells[k].cutoutId)
  }

  lemma UseErrorIsUnusable(env: Env, cutoutId: string)
    ensures UseError(env, cutoutId).None? <==> Usable(env, cutoutId)
  {
  }

  lemma {:induction false} CellsErrorNone(env: Env, cells: seq<CutoutInOutput>)
    ensures CellsError(env, cells).None? <==> forall k :: 0 <= k < |cells| ==> Usable(env, cells[k].cutoutId)
    decreases |cells|
  {
    if |cells| > 0 {
      CellsErrorNone(env, cells[1..]);
      UseErrorIsUnusable(env, cells[0].cutoutId);
      assert forall k :: 1 <= k < |cells| ==> cells[k] == cells[1..][k - 1];
    }
  }

  lemma OutputErrorNone(env: Env, output: Output)
    ensures OutputError(env, output).None? <==> OutputUsable(env, output)
  {
    match output
    case CutoutOutput(_, _, _, cell) => UseErrorIsUnusable(env, cell.cutoutId);
    case MultiviewOutput(_, _, _, cells) => CellsErrorNone(env, cells);
  }

  lemma {:induction false} FirstErrorNone(env: Env, outs: seq<Output>)
    ensures FirstError(env, outs).None? <==> forall k :: 0 <= k < |outs| ==> OutputUsable(env, outs[k])
    decreases |outs|
  {
    if |outs| > 0 {
      FirstErrorNone(env, outs[1..]);
      OutputErrorNone(env, outs[0]);
      assert forall k :: 1 <= k < |outs| ==> outs[k] == outs[1..][k - 1];
    }
  }

  // ---------------------------------------------------------------- the walk's errors

  lemma {:induction false} CellsPlanError(env: Env, i: nat, output: Output, k: nat)
    requires output.MultiviewOutput? && k <= |output.cutouts|
    ensures CellsPlan(env, i, output, k).error == CellsError(env, output.cutouts[k..])
    decreases |output.cutouts| - k
  {
    if k < |output.cutouts| {
      CellsPlanError(env, i, output, k + 1);
      assert output.cutouts[k..][1..] == output.cutouts[k + 1..];
    }
  }

  lemma OutputPlanError(env: Env, i: nat, output: Output)
    ensures OutputPlan(env, i, output).error == OutputError(env, output)
  {
    if output.MultiviewOutput? {
      CellsPlanError(env, i, output, 0);
      assert output.cutouts[0..] == output.cutouts;
    }
  }

  lemma {:induction false} OutputsPlanError(env: Env, outs: seq<Output>, i: nat)
    requires i <= |outs|
    ensures OutputsPlan(env, outs, i).error == FirstError(env, outs[i..])
    decreases |outs| - i
  {
    if i < |outs| {
      OutputPlanError(env, i, outs[i]);
      OutputsPlanError(env, outs, i + 1);
      assert outs[i..][1..] == outs[i + 1..];
    }
  }

  /** One output step throws exactly the output's own error. */
  lemma OutputStepError(env: Env, st: State, i: nat, output: Output)
    ensures OutputStep(env, st, i, output).error == OutputError(env, output)
  {
    OutputStepServes(env, st, i, output);
    OutputPlanError(env, i, output);
  }

  /**
   * The error an update throws is the error of the first failing output in
   * processing order (MULTIVIEW outputs first), and it throws none exactly
   * when every cutout that any output shows is usable.
   */
  lemma UpdateError(trig: Trig, sources: Sources, cutouts: Cutouts, outputs: seq<Output>, refs: Refs)
    ensures var env := Env(trig, sources, cutouts);
            var b := UpdateTimeline(trig, sources, cutouts, outputs, refs);
            && b.error == FirstError(env, SortOutputs(outputs))
            && (b.error.None? <==> forall o :: o in outputs ==> OutputUsable(env, o))
  {
    var env := Env(trig, sources, cutouts);
    var sorted := SortOutputs(outputs);
    UpdateServesPlan(trig, sources, cutouts, outputs, refs);
    OutputsPlanError(env, sorted, 0);
    assert sorted[0..] == sorted;
    FirstErrorNone(env, sorted);
    assert forall o :: o in outputs <==> o in sorted by {
      assert forall o :: o in outputs <==> o in multiset(outputs);
      assert forall o :: o in sorted <==> o in multiset(sorted);
    }
  }

  // ---------------------------------------------------------------- how many objects

  /** Objects a successful output adds: its picture, or its background plus two per cell. */
  function ObjectCount(output: Output): nat {
    match output
    case CutoutOutput(_, _, _, _) => 1
    case MultiviewOutput(_, _, _, cells) => 1 + 2 * |cells|
  }

  function TotalObjects(outs: seq<Output>): nat
    decreases |outs|
  {
    if |outs| == 0 then 0 else ObjectCount(outs[0]) + TotalObjects(outs[1..])
  }

  lemma {:induction false} TotalAppend(a: seq<Output>, b: seq<Output>)
    ensures TotalObjects(a + b) == TotalObjects(a) + TotalObjects(b)
    decreases |a|
  {
    if |a| == 0 {
      assert a + b == b;
    } else {
      TotalAppend(a[1..], b);
      assert (a + b)[1..] == a[1..] + b;
    }
  }

  /** Reordering MULTIVIEW outputs first does not change the total. */
  lemma {:induction false} TotalOfPartition(outs: seq<Output>)
    ensures TotalObjects(SortOutputs(outs)) == TotalObjects(outs)
    decreases |outs|
  {
    if |outs| > 0 {
      TotalOfPartition(outs[1..]);
      var h := if outs[0].MultiviewOutput? then [outs[0]] else [];
      var g := if outs[0].CutoutOutput? then [outs[0]] else [];
      TotalAppend(Multiviews(outs[1..]), CutoutOutputs(outs[1..]));
      TotalAppend(h, Multiviews(outs[1..]));
      TotalAppend(g, CutoutOutputs(outs[1..]));
      TotalAppend(Multiviews(outs), CutoutOutputs(outs));
      assert [outs[0]][1..] == [];
    }
  }

  lemma {:induction false} CellsPlanSize(env: Env, i: nat, output: Output, k: nat)
    requires output.MultiviewOutput? && k <= |output.cutouts|
    requires CellsPlan(env, i, output, k).error.None?
    ensures |CellsPlan(env, i, output, k).reqs| == 2 * (|output.cutouts| - k)
    decreases |output.cutouts| - k
  {
    if k < |output.cutouts| {
      CellsPlanSize(env, i, output, k + 1);
    }
  }

  lemma {:induction false} OutputsPlanSize(env: Env, outs: seq<Output>, i: nat)
    requires i <= |outs|
    requires OutputsPlan(env, outs, i).error.None?
    ensures |OutputsPlan(env, outs, i).reqs| == TotalObjects(outs[i..])
    decreases |outs| - i
  {
    if i < |outs| {
      OutputsPlanSize(env, outs, i + 1);
      assert outs[i..][1..] == outs[i + 1..];
      if outs[i].MultiviewOutput? {
        CellsPlanSize(env, i, outs[i], 0);
      }
    }
  }

  /** A successful update builds one object per CUTOUT output and 1 + 2 * cells per MULTIVIEW output. */
  lemma UpdateObjectCount(trig: Trig, sources: Sources, cutouts: Cutouts, outputs: seq<Output>, refs: Refs)
    ensures var b := UpdateTimeline(trig, sources, cutouts, outputs, refs);
            b.error.None? ==> |b.timeline| == TotalObjects(outputs)
  {
    var sorted := SortOutputs(outputs);
    var env := Env(trig, sources, cutouts);
    UpdateServesPlan(trig, sources, cutouts, outputs, refs);
    if OutputsPlan(env, sorted, 0).error.None? {
      OutputsPlanSize(env, sorted, 0);
      assert sorted[0..] == sorted;
      TotalOfPartition(outputs);
    }
  }

  // ---------------------------------------------------------------- where outputs land

  /** The layer key an output writes first: `_source` for a CUTOUT output, `_mvbg` for a MULTIVIEW one. */
  function PrimaryRole(output: Output): Role {
    match output
    case CutoutOutput(_, _, _, _) => SourceRole
    case MultiviewOutput(_, _, _, _) => MultiviewBgRole
  }

  /** Output i's primary key is mapped to layer 10 of its channel. */
  predicate PrimaryMapped(m: map<string, Mapping>, outs: seq<Output>, i: nat)
    requires i < |outs|
  {
    var key := LayerKey(i, PrimaryRole(outs[i]));
    key in m && m[key] == CasparMapping(outs[i].casparChannel, BaseLayer)
  }

  lemma OutputStepMapsPrimary(env: Env, st: State, outs: seq<Output>, i: nat)
    requires i < |outs|
    ensures PrimaryMapped(OutputStep(env, st, i, outs[i]).state.mappings, outs, i)
  {
  }

  /** A step for output i leaves every other output's primary key as it was. */
  lemma StepKeepsOthers(m1: map<string, Mapping>, m2: map<string, Mapping>, outs: seq<Output>, i: nat, j: nat)
    requires j < |outs| && i != j
    requires OnlyOwnKeys(m1, m2, i) && PrimaryMapped(m1, outs, j)
    ensures PrimaryMapped(m2, outs, j)
  {
    KeyPrefixOwns(i, j, PrimaryRole(outs[j]));
  }

  lemma {:induction false} OutputsFromMaps(env: Env, st: State, outs: seq<Output>, i: nat)
    requires i <= |outs|
    ensures var r := OutputsFrom(env, st, outs, i);
      && (forall j :: 0 <= j < i && PrimaryMapped(st.mappings, outs, j) ==> PrimaryMapped(r.state.mappings, outs, j))
      && (forall j :: i <= j < |outs| && FirstError(env, outs[i..j]).None? ==> PrimaryMapped(r.state.mappings, outs, j))
    decreases |outs| - i
  {
    if i < |outs| {
      var s := OutputStep(env, st, i, outs[i]);
      var r := OutputsFrom(env, st, outs, i);
      OutputStepMapsPrimary(env, st, outs, i);
      OutputStepError(env, st, i, outs[i]);
      forall j | 0 <= j < i && PrimaryMapped(st.mappings, outs, j)
        ensures PrimaryMapped(s.state.mappings, outs, j)
      {
        StepKeepsOthers(st.mappings, s.state.mappings, outs, i, j);
      }
      if s.error.None? {
        assert r == OutputsFrom(env, s.state, outs, i + 1);
        OutputsFromMaps(env, s.state, outs, i + 1);
        forall j | i + 1 <= j < |outs| && FirstError(env, outs[i..j]).None?
          ensures FirstError(env, outs[i + 1..j]).None?
        {
          assert outs[i..j][1..] == outs[i + 1..j];
        }
        assert PrimaryMapped(r.state.mappings, outs, i);
      } else {
        assert r == s;
        forall j | i + 1 <= j < |outs|
          ensures FirstError(env, outs[i..j]).Some?
        {
          assert outs[i..j][0] == outs[i];
        }
      }
    }
  }

  /**
   * Output i of the SORTED list owns the keys `output{i}_...`: every output the
   * walk reaches (all outputs before it succeeded) has its primary key mapped to
   * layer 10 of its channel, even when it or a later output then throws.
   */
  lemma UpdateMapsReached(trig: Trig, sources: Sources, cutouts: Cutouts, outputs: seq<Output>, refs: Refs)
    ensures var env := Env(trig, sources, cutouts);
            var sorted := SortOutputs(outputs);
            var b := UpdateTimeline(trig, sources, cutouts, outputs, refs);
            forall j :: 0 <= j < |sorted| && FirstError(env, sorted[..j]).None? ==> PrimaryMapped(b.mappings, sorted, j)
  {
    var env := Env(trig, sources, cutouts);
    var sorted := SortOutputs(outputs);
    OutputsFromMaps(env, State(map[], [], refs), sorted, 0);
    assert forall j :: 0 <= j <= |sorted| ==> sorted[0..j] == sorted[..j];
  }

  /** After a successful update every output's primary key is mapped, at its index in the sorted list. */
  lemma UpdateMapsAll(trig: Trig, sources: Sources, cutouts: Cutouts, outputs: seq<Output>, refs: Refs)
    ensures var sorted := SortOutputs(outputs);
            var b := UpdateTimeline(trig, sources, cutouts, outputs, refs);
            b.error.None? ==> forall j :: 0 <= j < |sorted| ==> PrimaryMapped(b.mappings, sorted, j)
  {
    var env := Env(trig, sources, cutouts);
    var sorted := SortOutputs(outputs);
    UpdateMapsReached(trig, sources, cutouts, outputs, refs);
    UpdateError(trig, sources, cutouts, outputs, refs);
    FirstErrorNone(env, sorted);
    forall j | 0 <= j < |sorted|
      ensures FirstError(env, sorted[..j]).None? || FirstError(env, sorted).Some?
    {
      FirstErrorNone(env, sorted[..j]);
    }
  }

  // ---------------------------------------------------------------- the cache only picks MEDIA or ROUTE

  lemma CellStepMappings(env: Env, st1: State, st2: State, i: nat, output: Output, k: nat)
    requires output.MultiviewOutput? && k < |output.cutouts| && st1.mappings == st2.mappings
    ensures CellStep(env, st1, i, output, k).state.mappings == CellStep(env, st2, i, output, k).state.mappings
  {
  }

  lemma {:induction false} CellsFromMappings(env: Env, st1: State, st2: State, i: nat, output: Output, k: nat)
    requires output.MultiviewOutput? && k <= |output.cutouts| && st1.mappings == st2.mappings
    ensures CellsFrom(env, st1, i, output, k).state.mappings == CellsFrom(env, st2, i, output, k).state.mappings
    decreases |output.cutouts| - k
  {
    if k < |output.cutouts| {
      CellStepMappings(env, st1, st2, i, output, k);
      var s1, s2 := CellStep(env, st1, i, output, k), CellStep(env, st2, i, output, k);
      if s1.error.None? {
        CellsFromMappings(env, s1.state, s2.state, i, output, k + 1);
      }
    }
  }

  lemma OutputStepMappings(env: Env, st1: State, st2: State, i: nat, output: Output)
    requires st1.mappings == st2.mappings
    ensures OutputStep(env, st1, i, output).state.mappings == OutputStep(env, st2, i, output).state.mappings
  {
    if output.MultiviewOutput? && |output.cutouts| > 0 {
      var key := LayerKey(i, MultiviewBgRole);
      var m := st1.mappings[key := CasparMapping(output.casparChannel, BaseLayer)];
      var bg1 := Media(st1.refs, key, MultiviewBgFile, None);
      var bg2 := Media(st2.refs, key, MultiviewBgFile, None);
      CellsFromMappings(env, State(m, st1.timeline + [bg1.obj], bg1.refs), State(m, st2.timeline + [bg2.obj], bg2.refs), i, output, 0);
    }
  }

  lemma {:induction false} OutputsFromMappings(env: Env, st1: State, st2: State, outs: seq<Output>, i: nat)
    requires i <= |outs| && st1.mappings == st2.mappings
    ensures OutputsFrom(env, st1, outs, i).state.mappings == OutputsFrom(env, st2, outs, i).state.mappings
    decreases |outs| - i
  {
    if i < |outs| {
      OutputStepMappings(env, st1, st2, i, outs[i]);
      OutputStepError(env, st1, i, outs[i]);
      OutputStepError(env, st2, i, outs[i]);
      var s1, s2 := OutputStep(env, st1, i, outs[i]), OutputStep(env, st2, i, outs[i]);
      if s1.error.None? {
        OutputsFromMappings(env, s1.state, s2.state, outs, i + 1);
      }
    }
  }

  /**
   * The cache an update starts from changes nothing but the MEDIA-or-ROUTE
   * choice: the error, the mappings, the number of objects and each object's
   * layer and mixer are the same whatever the cache holds.
   */
  lemma UpdateIgnoresCache(trig: Trig, sources: Sources, cutouts: Cutouts, outputs: seq<Output>, refs1: Refs, refs2: Refs)
    ensures var b1 := UpdateTimeline(trig, sources, cutouts, outputs, refs1);
            var b2 := UpdateTimeline(trig, sources, cutouts, outputs, refs2);
            && b1.error == b2.error && b1.mappings == b2.mappings && |b1.timeline| == |b2.timeline|
            && forall j :: 0 <= j < |b1.timeline| ==>
                 b1.timeline[j].layer == b2.timeline[j].layer && b1.timeline[j].content.mixer == b2.timeline[j].content.mixer
  {
    var env := Env(trig, sources, cutouts);
    var p := UpdatePlan(trig, sources, cutouts, outputs);
    UpdateServesPlan(trig, sources, cutouts, outputs, refs1);
    UpdateServesPlan(trig, sources, cutouts, outputs, refs2);
    OutputsFromMappings(env, State(map[], [], refs1), State(map[], [], refs2), SortOutputs(outputs), 0);
    var o1, o2 := Serve(refs1, p.reqs).objs, Serve(refs2, p.reqs).objs;
    forall j | 0 <= j < |p.reqs|
      ensures o1[j].layer == o2[j].layer && o1[j].content.mixer == o2[j].content.mixer
    {
      ServeShape(refs1, p.reqs, j);
      ServeShape(refs2, p.reqs, j);
    }
  }

  /** An update's timeline is its plan served through the starting cache, up to the ids. */
  lemma UpdateIsServedPlan(trig: Trig, sources: Sources, cutouts: Cutouts, outputs: seq<Output>, refs: Refs)
    ensures var b := UpdateTimeline(trig, sources, cutouts, outputs, refs);
            var p := UpdatePlan(trig, sources, cutouts, outputs);
            var objs := Serve(refs, p.reqs).objs;
            && b.error == p.error && |b.timeline| == |p.reqs|
            && forall j :: 0 <= j < |b.timeline| ==> b.timeline[j].layer == objs[j].layer && b.timeline[j].content == objs[j].content
  {
    UpdateServesPlan(trig, sources, cutouts, outputs, refs);
  }

  /** Some request before position j asks for the same cache key as request j. */
  predicate RepeatsEarlier(reqs: seq<Request>, j: nat)
    requires j < |reqs|
  {
    exists m :: 0 <= m < j && reqs[m].Key() == reqs[j].Key()
  }

  /**
   * Object j of an update is a ROUTE exactly when its file was cached before the
   * update or an earlier object of the same update asked for the same file; it
   * then routes to that file's owner layer. Otherwise it plays its file itself.
   */
  lemma UpdateRoutes(trig: Trig, sources: Sources, cutouts: Cutouts, outputs: seq<Output>, refs: Refs, j: nat)
    requires j < |UpdateTimeline(trig, sources, cutouts, outputs, refs).timeline|
    ensures var b := UpdateTimeline(trig, sources, cutouts, outputs, refs);
            var p := UpdatePlan(trig, sources, cutouts, outputs);
            && j < |p.reqs|
            && var k := p.reqs[j].Key();
            && (b.timeline[j].content.RouteContent? <==> Held(refs, k) || RepeatsEarlier(p.reqs, j))
            && (Held(refs, k) ==> b.timeline[j].content == RouteContent(refs[k], p.reqs[j].mixer))
            && (!Held(refs, k) && RepeatsEarlier(p.reqs, j) ==>
                  b.timeline[j].content == RouteContent(p.reqs[FirstClaim(p.reqs, k)].layer, p.reqs[j].mixer))
            && (!Held(refs, k) && !RepeatsEarlier(p.reqs, j) ==> b.timeline[j].content == p.reqs[j].Fresh().content)
  {
    var p := UpdatePlan(trig, sources, cutouts, outputs);
    UpdateServesPlan(trig, sources, cutouts, outputs, refs);
    var k := p.reqs[j].Key();
    ServeDedup(refs, p.reqs, j);
    var pre := p.reqs[..j];
    assert Claimed(pre, k) <==> RepeatsEarlier(p.reqs, j) by {
      assert forall m :: 0 <= m < j ==> pre[m] == p.reqs[m];
    }
    if !Held(refs, k) && Claimed(pre, k) {
      FirstClaimOfExtension(pre, p.reqs, k);
    }
    match p.reqs[j]
    case MediaRequest(_, _, _) =>
    case InputRequest(_, _, _, _, _) =>
  }

  /** Every object plays while 1, every mixer carries the fixed transitions, and a successful update names objects uniquely. */
  lemma UpdateObjectsShaped(trig: Trig, sources: Sources, cutouts: Cutouts, outputs: seq<Output>, refs: Refs)
    ensures var b := UpdateTimeline(trig, sources, cutouts, outputs, refs);
            && (forall j :: 0 <= j < |b.timeline| ==> b.timeline[j].enable == EnableWhile(1))
            && (forall j :: 0 <= j < |b.timeline| && b.timeline[j].content.mixer.Some? ==> HasFixedTransitions(b.timeline[j].content.mixer.value))
            && (b.error.None? ==> forall j1, j2 :: 0 <= j1 < j2 < |b.timeline| ==> b.timeline[j1].id != b.timeline[j2].id)
  {
    var p := UpdatePlan(trig, sources, cutouts, outputs);
    UpdateServesPlan(trig, sources, cutouts, outputs, refs);
    forall j | 0 <= j < |p.reqs| {
      ServeShape(refs, p.reqs, j);
    }
    forall j1: nat, j2: nat | j1 < j2 < |p.reqs|
      ensures FallbackId(j1) != FallbackId(j2)
    {
      FallbackIdInjective(j1, j2);
    }
  }

  lemma FallbackIdInjective(m: nat, n: nat)
    ensures FallbackId(m) == FallbackId(n) <==> m == n
  {
    if FallbackId(m) == FallbackId(n) {
      AfterPrefix("Unnamed", NatToString(m), NatToString(n));
      NatToStringInjective(m, n);
    }
  }
}
