/**
 * `updateTimeline` never clears the referrer's cache, so a second update
 * with the same configuration finds every file already cached and turns
 * every picture into a ROUTE, the first one onto its own layer: nothing
 * plays any more. `Rebuild` is the update as evidently intended, starting
 * from an empty cache; only the MEDIA-or-ROUTE choice differs.
 */
module Rerun {
  import opened Wrappers
  import opened Geometry
  import opened Api
  import opened Tsr
  import opened Referrer
  import opened Layout
  import opened Controller
  import opened Plans
  import opened BuildProofs

  /**
   * As written: the first update from an empty cache plays its first picture;
   * the second update, starting from the cache the first one left, builds only
   * ROUTEs, and its first object routes to its own layer.
   */
  lemma {:induction false} RerunRoutesEverything(trig: Trig, sources: Sources, cutouts: Cutouts, outputs: seq<Output>)
    ensures var b1 := UpdateTimeline(trig, sources, cutouts, outputs, Reset());
            var b2 := UpdateTimeline(trig, sources, cutouts, outputs, b1.refs);
            && |b1.timeline| == |b2.timeline|
            && (|b1.timeline| > 0 ==> !b1.timeline[0].content.RouteContent?)
            && (forall j :: 0 <= j < |b2.timeline| ==> b2.timeline[j].content.RouteContent?)
            && (|b2.timeline| > 0 ==> b2.timeline[0].content.mappedLayer == b2.timeline[0].layer)
  {
    var p := UpdatePlan(trig, sources, cutouts, outputs);
    var b1 := UpdateTimeline(trig, sources, cutouts, outputs, Reset());
    UpdateServesPlan(trig, sources, cutouts, outputs, Reset());
    UpdateServesPlan(trig, sources, cutouts, outputs, b1.refs);
    forall j | 0 <= j < |p.reqs|
      ensures Serve(b1.refs, p.reqs).objs[j].content.RouteContent?
    {
      CachedAfterFirstRun(p, j);
      ServeDedup(b1.refs, p.reqs, j);
    }
    if |p.reqs| > 0 {
      FirstRunPlaysFirst(p);
      SecondRunSelfRoute(p);
    }
  }

  /** After serving a plan on an empty cache, every requested key is held. */
  lemma CachedAfterFirstRun(p: Plan, j: nat)
    requires j < |p.reqs| && LayersNamed(p.reqs)
    ensures Held(Serve(Reset(), p.reqs).refs, p.reqs[j].Key())
  {
    ServeCache(Reset(), p.reqs, p.reqs[j].Key());
  }

  lemma FirstRunPlaysFirst(p: Plan)
    requires |p.reqs| > 0
    ensures !Serve(Reset(), p.reqs).objs[0].content.RouteContent?
  {
    ServeDedup(Reset(), p.reqs, 0);
    match p.reqs[0]
    case MediaRequest(_, _, _) =>
    case InputRequest(_, _, _, _, _) =>
  }

  /** On the second run the first request's key is owned by its own layer. */
  lemma SecondRunSelfRoute(p: Plan)
    requires |p.reqs| > 0 && LayersNamed(p.reqs)
    ensures var refs := Serve(Reset(), p.reqs).refs;
            Serve(refs, p.reqs).objs[0].content.RouteContent?
            && Serve(refs, p.reqs).objs[0].content.mappedLayer == p.reqs[0].layer
            && Serve(refs, p.reqs).objs[0].layer == p.reqs[0].layer
  {
    var k := p.reqs[0].Key();
    var refs := Serve(Reset(), p.reqs).refs;
    ServeCache(Reset(), p.reqs, k);
    assert FirstClaim(p.reqs, k) == 0;
    ServeDedup(refs, p.reqs, 0);
    ServeShape(refs, p.reqs, 0);
  }

  /**
   * Corrected: the update run on a freshly reset cache. Every ROUTE it builds
   * points back at an earlier object that plays its file on the routed layer,
   * so no object routes to itself and the first object always plays.
   */
  function Rebuild(trig: Trig, sources: Sources, cutouts: Cutouts, outputs: seq<Output>): (r: Build)
    ensures |r.timeline| > 0 ==> !r.timeline[0].content.RouteContent?
    ensures forall j :: 0 <= j < |r.timeline| && r.timeline[j].content.RouteContent? ==>
              exists m :: 0 <= m < j && r.timeline[m].layer == r.timeline[j].content.mappedLayer && !r.timeline[m].content.RouteContent?
  {
    var b := UpdateTimeline(trig, sources, cutouts, outputs, Reset());
    RoutesPointBack(trig, sources, cutouts, outputs);
    b
  }

  lemma RoutesPointBack(trig: Trig, sources: Sources, cutouts: Cutouts, outputs: seq<Output>)
    ensures var b := UpdateTimeline(trig, sources, cutouts, outputs, Reset());
            && (|b.timeline| > 0 ==> !b.timeline[0].content.RouteContent?)
            && forall j :: 0 <= j < |b.timeline| && b.timeline[j].content.RouteContent? ==>
                 exists m :: 0 <= m < j && b.timeline[m].layer == b.timeline[j].content.mappedLayer && !b.timeline[m].content.RouteContent?
  {
    var p := UpdatePlan(trig, sources, cutouts, outputs);
    var b := UpdateTimeline(trig, sources, cutouts, outputs, Reset());
    UpdateServesPlan(trig, sources, cutouts, outputs, Reset());
    var objs := Serve(Reset(), p.reqs).objs;
    if |p.reqs| > 0 {
      FirstRunPlaysFirst(p);
    }
    forall j | 0 <= j < |b.timeline| && b.timeline[j].content.RouteContent?
      ensures exists m :: 0 <= m < j && b.timeline[m].layer == b.timeline[j].content.mappedLayer && !b.timeline[m].content.RouteContent?
    {
      FreshRunRoutesBackwards(p.reqs, j);
      var m := FirstClaim(p.reqs[..j], p.reqs[j].Key());
      assert b.timeline[m].layer == objs[m].layer && b.timeline[m].content == objs[m].content;
    }
  }

  /** The correction changes only the MEDIA-or-ROUTE choice: error, mappings, layers and mixers are those of any update. */
  lemma RebuildKeepsLayout(trig: Trig, sources: Sources, cutouts: Cutouts, outputs: seq<Output>, refs: Refs)
    ensures var r := Rebuild(trig, sources, cutouts, outputs);
            var b := UpdateTimeline(trig, sources, cutouts, outputs, refs);
            && r.error == b.error && r.mappings == b.mappings && |r.timeline| == |b.timeline|
            && forall j :: 0 <= j < |r.timeline| ==>
                 r.timeline[j].layer == b.timeline[j].layer && r.timeline[j].content.mixer == b.timeline[j].content.mixer
  {
    UpdateIgnoresCache(trig, sources, cutouts, outputs, Reset(), refs);
  }
}
