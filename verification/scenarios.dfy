/**
 * Two concrete updates: a CUTOUT output naming a cutout that does not exist,
 * and a MULTIVIEW output whose two cells show the same file.
 */
module Scenarios {
  import opened Wrappers
  import opened Strings
  import opened Geometry
  import opened Api
  import opened Tsr
  import opened Referrer
  import opened Layout
  import opened Controller
  import opened Plans
  import opened BuildProofs

  /**
   * A missing cutout throws `CutoutNotFound`, builds no object, and still
   * leaves the output's mapping behind.
   */
  lemma MissingCutout(trig: Trig, refs: Refs)
    ensures var b := UpdateTimeline(trig, map[], map[], [CutoutOutput(1, 1920.0, 1080.0, CutoutInOutput("nope", 0.0, 0.0, 1.0))], refs);
            && b.error == Some(CutoutNotFound("nope"))
            && b.timeline == []
            && b.refs == refs
            && b.mappings == map["output0_source" := Mapping(CASPARCG, "casparcg0", 1, 10)]
  {
    var outputs := [CutoutOutput(1, 1920.0, 1080.0, CutoutInOutput("nope", 0.0, 0.0, 1.0))];
    assert Multiviews(outputs) == [] && CutoutOutputs(outputs) == outputs by {
      assert outputs[1..] == [];
    }
    assert NatToString(0) == "0";
    assert LayerKey(0, SourceRole) == "output0_source";
  }

  /** A usable cell asks for the black box on its background layer, then for its source's file on its own layer. */
  lemma CellRequests(env: Env, i: nat, output: Output, k: nat)
    requires output.MultiviewOutput? && k < |output.cutouts| && Usable(env, output.cutouts[k].cutoutId)
    ensures var p := CellPlan(env, i, output, k);
            var id := output.cutouts[k].cutoutId;
            && p.error.None? && |p.reqs| == 2
            && p.reqs[0] == MediaRequest(LayerKey(i, CellBgRole(id)), BlackFile, p.reqs[0].mixer)
            && p.reqs[1] == MediaRequest(LayerKey(i, CellRole(id)), FileOf(env, id), p.reqs[1].mixer)
  {
  }

  /** The media file a usable cutout plays. */
  function FileOf(env: Env, cutoutId: string): string
    requires Usable(env, cutoutId)
  {
    env.sources[env.cutouts[cutoutId].source].input.file
  }

  /** A single MULTIVIEW output with two usable cells whose cutouts play the same file. */
  predicate TwoCellsOneFile(env: Env, o: Output) {
    && o.MultiviewOutput? && |o.cutouts| == 2
    && Usable(env, o.cutouts[0].cutoutId) && Usable(env, o.cutouts[1].cutoutId)
    && FileOf(env, o.cutouts[0].cutoutId) == FileOf(env, o.cutouts[1].cutoutId)
    && FileOf(env, o.cutouts[0].cutoutId) !in {BlackFile, MultiviewBgFile}
  }

  /** The requests of such an update: background, then black box and picture per cell. */
  lemma TwoCellPlan(env: Env, o: Output)
    requires TwoCellsOneFile(env, o)
    ensures var p := UpdatePlan(env.trig, env.sources, env.cutouts, [o]);
            var file := FileOf(env, o.cutouts[0].cutoutId);
            && p.error.None? && |p.reqs| == 5
            && p.reqs[0] == MediaRequest(LayerKey(0, MultiviewBgRole), MultiviewBgFile, None)
            && p.reqs[1] == MediaRequest(LayerKey(0, CellBgRole(o.cutouts[0].cutoutId)), BlackFile, p.reqs[1].mixer)
            && p.reqs[2] == MediaRequest(LayerKey(0, CellRole(o.cutouts[0].cutoutId)), file, p.reqs[2].mixer)
            && p.reqs[3] == MediaRequest(LayerKey(0, CellBgRole(o.cutouts[1].cutoutId)), BlackFile, p.reqs[3].mixer)
            && p.reqs[4] == MediaRequest(LayerKey(0, CellRole(o.cutouts[1].cutoutId)), file, p.reqs[4].mixer)
  {
    assert Multiviews([o]) == [o] && CutoutOutputs([o]) == [] by {
      assert [o][1..] == [];
    }
    assert Env(env.trig, env.sources, env.cutouts) == env;
    CellRequests(env, 0, o, 0);
    CellRequests(env, 0, o, 1);
    var c0, c1 := CellPlan(env, 0, o, 0), CellPlan(env, 0, o, 1);
    assert CellsPlan(env, 0, o, 1) == Plan(c1.reqs, None) by {
      assert CellsPlan(env, 0, o, 2) == Plan([], None);
      assert c1.reqs + [] == c1.reqs;
    }
    assert CellsPlan(env, 0, o, 0) == Plan(c0.reqs + c1.reqs, None);
    var mv := MultiviewPlan(env, 0, o);
    assert mv.reqs == [MediaRequest(LayerKey(0, MultiviewBgRole), MultiviewBgFile, None)] + c0.reqs + c1.reqs;
    assert OutputsPlan(env, [o], 0) == Plan(mv.reqs + [], None) by {
      assert OutputsPlan(env, [o], 1) == Plan([], None);
    }
    assert mv.reqs + [] == mv.reqs;
  }

  /**
   * On an empty cache the first cell plays the black box and its file, and the
   * second cell's black box and picture are ROUTEs to the first cell's layers:
   * the cache is keyed by file name alone, so the black box of every later cell
   * is deduplicated against the first one.
   */
  lemma SecondCellRoutes(env: Env, o: Output)
    requires TwoCellsOneFile(env, o)
    ensures var b := UpdateTimeline(env.trig, env.sources, env.cutouts, [o], Reset());
            var id := o.cutouts[0].cutoutId;
            && b.error.None? && |b.timeline| == 5
            && b.timeline[1].content == MediaContent(BlackFile, true, b.timeline[1].content.mixer)
            && b.timeline[2].content == MediaContent(FileOf(env, id), true, b.timeline[2].content.mixer)
            && b.timeline[3].content == RouteContent(LayerKey(0, CellBgRole(id)), b.timeline[3].content.mixer)
            && b.timeline[4].content == RouteContent(LayerKey(0, CellRole(id)), b.timeline[4].content.mixer)
  {
    var p := UpdatePlan(env.trig, env.sources, env.cutouts, [o]);
    TwoCellPlan(env, o);
    UpdateIsServedPlan(env.trig, env.sources, env.cutouts, [o], Reset());
    TwoCellKeys(env, o, p);
    RepeatedPairsRoute(p.reqs);
  }

  /** Which requests of the two-cell plan share a key: 1 and 3 (black), 2 and 4 (the camera file). */
  lemma TwoCellKeys(env: Env, o: Output, p: Plan)
    requires TwoCellsOneFile(env, o) && p == UpdatePlan(env.trig, env.sources, env.cutouts, [o])
    ensures |p.reqs| == 5
    ensures p.reqs[3].Key() == p.reqs[1].Key() && p.reqs[4].Key() == p.reqs[2].Key()
    ensures p.reqs[0].Key() != p.reqs[1].Key() && p.reqs[0].Key() != p.reqs[2].Key() && p.reqs[1].Key() != p.reqs[2].Key()
  {
    var file := FileOf(env, o.cutouts[0].cutoutId);
    TwoCellPlan(env, o);
    MediaRefInjective(BlackFile, file);
    MediaRefInjective(BlackFile, MultiviewBgFile);
    MediaRefInjective(file, MultiviewBgFile);
  }

  /**
   * Five requests on an empty cache where 3 repeats 1's key and 4 repeats 2's,
   * with 0, 1 and 2 all different: 1 and 2 play, 3 and 4 route to 1 and 2.
   */
  lemma {:induction false} RepeatedPairsRoute(reqs: seq<Request>)
    requires |reqs| == 5 && forall j :: 0 <= j < 5 ==> reqs[j].layer != ""
    requires reqs[3].Key() == reqs[1].Key() && reqs[4].Key() == reqs[2].Key()
    requires reqs[0].Key() != reqs[1].Key() && reqs[0].Key() != reqs[2].Key() && reqs[1].Key() != reqs[2].Key()
    ensures var objs := Serve(Reset(), reqs).objs;
            && objs[1] == reqs[1].Fresh() && objs[2] == reqs[2].Fresh()
            && objs[3] == RouteTo(reqs[3].layer, reqs[1].layer, reqs[3].mixer)
            && objs[4] == RouteTo(reqs[4].layer, reqs[2].layer, reqs[4].mixer)
  {
    FirstOfKeyPlays(reqs, 1, 3);
    FirstOfKeyPlays(reqs, 2, 4);
  }

  /** On an empty cache the first request for a key plays, and a later one for the same key routes to it. */
  lemma {:induction false} FirstOfKeyPlays(reqs: seq<Request>, a: nat, b: nat)
    requires a < b < |reqs| && reqs[a].layer != "" && reqs[b].Key() == reqs[a].Key()
    requires forall m :: 0 <= m < a ==> reqs[m].Key() != reqs[a].Key()
    ensures Serve(Reset(), reqs).objs[a] == reqs[a].Fresh()
    ensures Serve(Reset(), reqs).objs[b] == RouteTo(reqs[b].layer, reqs[a].layer, reqs[b].mixer)
  {
    var k := reqs[a].Key();
    ServeDedup(Reset(), reqs, a);
    ServeDedup(Reset(), reqs, b);
    assert !Claimed(reqs[..a], k) by {
      assert forall m :: 0 <= m < a ==> reqs[..a][m] == reqs[m];
    }
    assert reqs[..b][a] == reqs[a];
    var j := FirstClaim(reqs[..b], k);
    assert j == a by {
      assert forall m :: 0 <= m < b ==> reqs[..b][m] == reqs[m];
    }
  }
}
