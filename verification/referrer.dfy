/**
 * The controller's `CasparReferrer`: a cache from a content key ("media_amb2",
 * "input_decklink_1_720p5000") to the first layer that played that content.
 * A request for content already on a layer is answered with a ROUTE object
 * that re-uses that layer instead of opening the file or input a second time.
 * The cache is the value `refs`, threaded through every request.
 */
module Referrer {
  import opened Wrappers
  import opened Strings
  import opened Tsr

  /** The cache (`decklingInputRefs`): content key to layer key. */
  type Refs = map<string, string>

  const MediaPrefix: string := "media_"
  const InputPrefix: string := "input_"

  /** `reset()`: forget every cached layer. */
  function Reset(): (r: Refs)
    ensures forall k :: !Held(r, k)
  {
    map[]
  }

  /**
   * JavaScript truthiness of the cached value: a key maps to a usable layer
   * only when it is present and the layer is not the empty string.
   */
  predicate Held(refs: Refs, refId: string) {
    refId in refs && refs[refId] != ""
  }

  /** `mediaRef(file)`. */
  function MediaRef(file: string): (k: string)
    ensures |k| == |MediaPrefix| + |file|
    ensures k[..|MediaPrefix|] == MediaPrefix && k[|MediaPrefix|..] == file
  {
    MediaPrefix + file
  }

  /** `inputRef(inputType, device, deviceFormat)`; the device number is rendered in decimal. */
  function InputRef(inputType: string, device: int, deviceFormat: string): (k: string)
    ensures |k| > |InputPrefix| && k[..|InputPrefix|] == InputPrefix
    ensures k[|InputPrefix|..] == inputType + "_" + IntToString(device) + "_" + deviceFormat
  {
    InputPrefix + inputType + "_" + IntToString(device) + "_" + deviceFormat
  }

  /** A media key is never an input key, so a media request is never routed to an input layer, nor the reverse. */
  lemma RefKindsDisjoint(file: string, inputType: string, device: int, deviceFormat: string)
    ensures MediaRef(file) != InputRef(inputType, device, deviceFormat)
  {
    assert MediaRef(file)[0] == 'm';
    assert InputRef(inputType, device, deviceFormat)[0] == 'i';
  }

  /** Different files get different media keys. */
  lemma MediaRefInjective(f1: string, f2: string)
    ensures MediaRef(f1) == MediaRef(f2) <==> f1 == f2
  {
    if MediaRef(f1) == MediaRef(f2) {
      assert f1 == MediaRef(f1)[|MediaPrefix|..];
    }
  }

  /** Input keys tell requests apart as long as the input type has no underscore. */
  lemma InputRefInjective(t1: string, d1: int, f1: string, t2: string, d2: int, f2: string)
    requires '_' !in t1 && '_' !in t2
    ensures InputRef(t1, d1, f1) == InputRef(t2, d2, f2) <==> t1 == t2 && d1 == d2 && f1 == f2
  {
    if InputRef(t1, d1, f1) == InputRef(t2, d2, f2) {
      var r1, r2 := IntToString(d1) + "_" + f1, IntToString(d2) + "_" + f2;
      assert InputRef(t1, d1, f1)[|InputPrefix|..] == t1 + ['_'] + r1;
      assert InputRef(t2, d2, f2)[|InputPrefix|..] == t2 + ['_'] + r2;
      SplitAtSeparator(t1, r1, t2, r2, '_');
      assert '_' !in IntToString(d1) && '_' !in IntToString(d2);
      assert r1 == IntToString(d1) + ['_'] + f1;
      assert r2 == IntToString(d2) + ['_'] + f2;
      SplitAtSeparator(IntToString(d1), f1, IntToString(d2), f2, '_');
      IntToStringInjective(d1, d2);
    }
  }

  /** With an underscore in the input type, two different inputs can share one key. */
  lemma InputRefAmbiguous()
    ensures InputRef("a_1", 2, "x") == InputRef("a", 1, "2_x")
  {
    assert IntToString(2) == "2";
    assert IntToString(1) == "1";
  }

  /** The object `getRef` returns: a ROUTE on `layer` that re-uses the cached layer. */
  function RouteTo(layer: string, mappedLayer: string, mixer: Option<Mixer>): TimelineObject {
    TimelineObject("", layer, EnableWhile(1), RouteContent(mappedLayer, mixer))
  }

  /** `getRef(refId, layer, mixer)`: a ROUTE when the key is held, nothing otherwise. */
  function GetRef(refs: Refs, refId: string, layer: string, mixer: Option<Mixer>): (r: Option<TimelineObject>)
    ensures r.Some? <==> Held(refs, refId)
    ensures r.Some? ==> r.value.content.RouteContent? && r.value.content.mappedLayer == refs[refId]
    ensures r.Some? ==> r.value.layer == layer && r.value.content.mixer == mixer
  {
    if Held(refs, refId) then Some(RouteTo(layer, refs[refId], mixer)) else None
  }

  /** The object a request yields, and the cache after it. */
  datatype Reply = Reply(obj: TimelineObject, refs: Refs)

  /**
   * `media(layer, file, mixer)`: a looping MEDIA object on `layer` that claims the
   * file's key, or, when the key is already held, a ROUTE to the holding layer.
   */
  function Media(refs: Refs, layer: string, file: string, mixer: Option<Mixer>): (r: Reply)
    ensures r.obj.id == "" && r.obj.layer == layer && r.obj.enable == EnableWhile(1)
    ensures Held(refs, MediaRef(file)) ==>
      r.obj.content == RouteContent(refs[MediaRef(file)], mixer) && r.refs == refs
    ensures !Held(refs, MediaRef(file)) ==>
      r.obj.content == MediaContent(file, true, mixer) && r.refs == refs[MediaRef(file) := layer]
  {
    var refId := MediaRef(file);
    match GetRef(refs, refId, layer, mixer)
    case Some(route) => Reply(route, refs)
    case None => Reply(TimelineObject("", layer, EnableWhile(1), MediaContent(file, true, mixer)), refs[refId := layer])
  }

  /**
   * `input(layer, inputType, device, deviceFormat, mixer)`: an INPUT object on
   * `layer` that claims the input's key, or a ROUTE to the holding layer.
   */
  function Input(refs: Refs, layer: string, inputType: string, device: int, deviceFormat: string, mixer: Option<Mixer>): (r: Reply)
    ensures r.obj.id == "" && r.obj.layer == layer && r.obj.enable == EnableWhile(1)
    ensures Held(refs, InputRef(inputType, device, deviceFormat)) ==>
      r.obj.content == RouteContent(refs[InputRef(inputType, device, deviceFormat)], mixer) && r.refs == refs
    ensures !Held(refs, InputRef(inputType, device, deviceFormat)) ==>
      r.obj.content == InputContent(device, deviceFormat, inputType, mixer)
      && r.refs == refs[InputRef(inputType, device, deviceFormat) := layer]
  {
    var refId := InputRef(inputType, device, deviceFormat);
    match GetRef(refs, refId, layer, mixer)
    case Some(route) => Reply(route, refs)
    case None =>
      Reply(TimelineObject("", layer, EnableWhile(1), InputContent(device, deviceFormat, inputType, mixer)), refs[refId := layer])
  }

  // ---------------------------------------------------------------- single requests

  /** On an empty cache a media request plays the file and records its layer. */
  lemma FreshMediaPlays(layer: string, file: string, mixer: Option<Mixer>)
    ensures Media(Reset(), layer, file, mixer).obj.content == MediaContent(file, true, mixer)
    ensures Media(Reset(), layer, file, mixer).refs == map[MediaRef(file) := layer]
  {
  }

  /** A second request for the same file on another layer is routed to the first layer and changes nothing. */
  lemma RepeatedMediaRoutes(l1: string, l2: string, file: string, m1: Option<Mixer>, m2: Option<Mixer>)
    requires l1 != ""
    ensures var first := Media(Reset(), l1, file, m1);
            var second := Media(first.refs, l2, file, m2);
            second.obj == RouteTo(l2, l1, m2) && second.refs == first.refs
  {
  }

  /** A request that a cache from an earlier run turns into a ROUTE plays the file again after `reset()`. */
  lemma ResetPlaysAgain(refs: Refs, layer: string, file: string, mixer: Option<Mixer>)
    requires Held(refs, MediaRef(file))
    ensures Media(refs, layer, file, mixer).obj.content == RouteContent(refs[MediaRef(file)], mixer)
    ensures Media(Reset(), layer, file, mixer).obj.content == MediaContent(file, true, mixer)
  {
  }

  /** The input counterpart: first request is an INPUT, the repeat a ROUTE to its layer. */
  lemma RepeatedInputRoutes(l1: string, l2: string, inputType: string, device: int, deviceFormat: string, m1: Option<Mixer>, m2: Option<Mixer>)
    requires l1 != ""
    ensures var first := Input(Reset(), l1, inputType, device, deviceFormat, m1);
            var second := Input(first.refs, l2, inputType, device, deviceFormat, m2);
            first.obj.content == InputContent(device, deviceFormat, inputType, m1)
            && second.obj == RouteTo(l2, l1, m2) && second.refs == first.refs
  {
  }

  /** A cached empty layer name is falsy: the request is served afresh and overwrites it. */
  lemma EmptyLayerIsNotARef(refs: Refs, layer: string, file: string, mixer: Option<Mixer>)
    requires MediaRef(file) in refs && refs[MediaRef(file)] == ""
    ensures Media(refs, layer, file, mixer).obj.content.MediaContent?
    ensures Media(refs, layer, file, mixer).refs[MediaRef(file)] == layer
  {
  }

  // ---------------------------------------------------------------- request sequences

  /** One call into the referrer, as the timeline builder makes it. */
  datatype Request =
    | MediaRequest(layer: string, file: string, mixer: Option<Mixer>)
    | InputRequest(layer: string, inputType: string, device: int, deviceFormat: string, mixer: Option<Mixer>)
  {
    /** The cache key the request looks up and claims. */
    function Key(): string {
      match this
      case MediaRequest(_, file, _) => MediaRef(file)
      case InputRequest(_, inputType, device, deviceFormat, _) => InputRef(inputType, device, deviceFormat)
    }

    /** The object the request yields when its key is not held. */
    function Fresh(): TimelineObject {
      match this
      case MediaRequest(layer, file, mixer) =>
        TimelineObject("", layer, EnableWhile(1), MediaContent(file, true, mixer))
      case InputRequest(layer, inputType, device, deviceFormat, mixer) =>
        TimelineObject("", layer, EnableWhile(1), InputContent(device, deviceFormat, inputType, mixer))
    }
  }

  /** Issue one request: `media` or `input`. */
  function Answer(refs: Refs, req: Request): (r: Reply)
    ensures Held(refs, req.Key()) ==> r.obj == RouteTo(req.layer, refs[req.Key()], req.mixer) && r.refs == refs
    ensures !Held(refs, req.Key()) ==> r.obj == req.Fresh() && r.refs == refs[req.Key() := req.layer]
  {
    match req
    case MediaRequest(layer, file, mixer) => Media(refs, layer, file, mixer)
    case InputRequest(layer, inputType, device, deviceFormat, mixer) => Input(refs, layer, inputType, device, deviceFormat, mixer)
  }

  /** The objects a run of requests yields, and the cache after it. */
  datatype Served = Served(objs: seq<TimelineObject>, refs: Refs)

  /** Issue the requests in order, threading the cache. */
  function Serve(refs: Refs, reqs: seq<Request>): (r: Served)
    ensures |r.objs| == |reqs|
    decreases |reqs|
  {
    if |reqs| == 0 then Served([], refs)
    else
      var before := Serve(refs, reqs[..|reqs| - 1]);
      var reply := Answer(before.refs, reqs[|reqs| - 1]);
      Served(before.objs + [reply.obj], reply.refs)
  }

  /** Serving a concatenation is serving the parts one after the other. */
  lemma {:induction false} ServeAppend(refs: Refs, a: seq<Request>, b: seq<Request>)
    ensures Serve(refs, a + b).objs == Serve(refs, a).objs + Serve(Serve(refs, a).refs, b).objs
    ensures Serve(refs, a + b).refs == Serve(Serve(refs, a).refs, b).refs
    decreases |b|
  {
    if |b| == 0 {
      assert a + b == a;
    } else {
      var b' := b[..|b| - 1];
      assert (a + b)[..|a + b| - 1] == a + b';
      assert (a + b)[|a + b| - 1] == b[|b| - 1];
      ServeAppend(refs, a, b');
      var reply := Answer(Serve(Serve(refs, a).refs, b').refs, b[|b| - 1]);
      AppendAssociates(Serve(refs, a).objs, Serve(Serve(refs, a).refs, b').objs, [reply.obj]);
    }
  }

  lemma AppendAssociates<T>(x: seq<T>, y: seq<T>, z: seq<T>)
    ensures (x + y) + z == x + (y + z)
  {
  }

  /** Some request of `reqs` for key k names a non-empty layer (and so, once served, holds k). */
  predicate Claimed(reqs: seq<Request>, k: string) {
    exists j :: 0 <= j < |reqs| && reqs[j].Key() == k && reqs[j].layer != ""
  }

  /** Index of the first request of `reqs` that claims key k (|reqs| when there is none). */
  function FirstClaim(reqs: seq<Request>, k: string): (j: nat)
    ensures j <= |reqs|
    ensures j < |reqs| <==> Claimed(reqs, k)
    ensures j < |reqs| ==> reqs[j].Key() == k && reqs[j].layer != ""
    ensures forall i :: 0 <= i < j ==> !(reqs[i].Key() == k && reqs[i].layer != "")
    decreases |reqs|
  {
    if |reqs| == 0 then 0
    else if reqs[0].Key() == k && reqs[0].layer != "" then 0
    else
      var j := 1 + FirstClaim(reqs[1..], k);
      assert forall i :: 1 <= i < |reqs| ==> reqs[i] == reqs[1..][i - 1];
      j
  }

  /** The layer that holds key k after `reqs`: the cached one if k was held, else the first claimant's. */
  function Owner(refs: Refs, reqs: seq<Request>, k: string): string
    requires Held(refs, k) || Claimed(reqs, k)
  {
    if Held(refs, k) then refs[k] else reqs[FirstClaim(reqs, k)].layer
  }

  /**
   * The cache after a run: a key is held exactly when it was held before or some
   * request claimed it, and it then maps to its owner.
   */
  lemma {:induction false} ServeCache(refs: Refs, reqs: seq<Request>, k: string)
    ensures Held(Serve(refs, reqs).refs, k) <==> Held(refs, k) || Claimed(reqs, k)
    ensures Held(Serve(refs, reqs).refs, k) ==> Serve(refs, reqs).refs[k] == Owner(refs, reqs, k)
    decreases |reqs|
  {
    if |reqs| > 0 {
      var n := |reqs| - 1;
      var pre := reqs[..n];
      var before := Serve(refs, pre).refs;
      assert Serve(refs, reqs).refs == Answer(before, reqs[n]).refs;
      ServeCache(refs, pre, k);
      AnswerCache(before, reqs[n], k);
      ClaimedExtends(pre, reqs, k);
      if Held(refs, k) || Claimed(reqs, k) {
        OwnerExtends(refs, pre, reqs, k);
      }
    }
  }

  /** The owner after one more request: unchanged if k already had one, else the new claimant. */
  lemma {:induction false} OwnerExtends(refs: Refs, pre: seq<Request>, reqs: seq<Request>, k: string)
    requires |reqs| > 0 && pre == reqs[..|reqs| - 1]
    requires Held(refs, k) || Claimed(reqs, k)
    ensures Held(refs, k) || Claimed(pre, k) ==> Owner(refs, reqs, k) == Owner(refs, pre, k)
    ensures !(Held(refs, k) || Claimed(pre, k)) ==> Owner(refs, reqs, k) == reqs[|reqs| - 1].layer
  {
    ClaimedExtends(pre, reqs, k);
    if !Held(refs, k) && Claimed(pre, k) {
      FirstClaimOfExtension(pre, reqs, k);
      assert reqs[FirstClaim(pre, k)] == pre[FirstClaim(pre, k)];
    }
  }

  /** One request holds k afterwards exactly when k was held or the request claims it; a held layer is kept. */
  lemma AnswerCache(refs: Refs, req: Request, k: string)
    ensures Held(Answer(refs, req).refs, k) <==> Held(refs, k) || (req.Key() == k && req.layer != "")
    ensures Held(refs, k) ==> Answer(refs, req).refs[k] == refs[k]
    ensures !Held(refs, k) && req.Key() == k && req.layer != "" ==> Answer(refs, req).refs[k] == req.layer
  {
  }

  /** Claims of a sequence one longer: those of its prefix plus possibly the last request. */
  lemma {:induction false} ClaimedExtends(pre: seq<Request>, reqs: seq<Request>, k: string)
    requires |reqs| > 0 && pre == reqs[..|reqs| - 1]
    ensures Claimed(reqs, k) <==> Claimed(pre, k) || (reqs[|reqs| - 1].Key() == k && reqs[|reqs| - 1].layer != "")
    ensures Claimed(reqs, k) && !Claimed(pre, k) ==> FirstClaim(reqs, k) == |pre|
  {
    if Claimed(pre, k) {
      var j :| 0 <= j < |pre| && pre[j].Key() == k && pre[j].layer != "";
      assert reqs[j] == pre[j];
    }
    assert forall j :: 0 <= j < |pre| ==> pre[j] == reqs[j];
  }

  /** Some request of `reqs` is for key k. */
  predicate Requested(reqs: seq<Request>, k: string) {
    exists j :: 0 <= j < |reqs| && reqs[j].Key() == k
  }

  /** Requests of a sequence one longer: those of its prefix plus the last one. */
  lemma RequestedExtends(pre: seq<Request>, reqs: seq<Request>, k: string)
    requires |reqs| > 0 && pre == reqs[..|reqs| - 1]
    ensures Requested(reqs, k) <==> Requested(pre, k) || reqs[|reqs| - 1].Key() == k
  {
    var n := |reqs| - 1;
    if Requested(pre, k) {
      var j :| 0 <= j < |pre| && pre[j].Key() == k;
      assert reqs[j] == pre[j];
    }
    if Requested(reqs, k) && reqs[n].Key() != k {
      var j :| 0 <= j < |reqs| && reqs[j].Key() == k;
      assert j < n && pre[j] == reqs[j];
    }
    if reqs[n].Key() == k {
      assert 0 <= n < |reqs| && reqs[n].Key() == k;
    }
  }

  /** The cache's keys grow by the keys requested and nothing else; keys not requested keep their layer. */
  lemma {:induction false} ServeDomain(refs: Refs, reqs: seq<Request>, k: string)
    ensures k in Serve(refs, reqs).refs <==> k in refs || Requested(reqs, k)
    ensures !Requested(reqs, k) && k in refs ==> Serve(refs, reqs).refs[k] == refs[k]
    decreases |reqs|
  {
    if |reqs| > 0 {
      var pre := reqs[..|reqs| - 1];
      ServeDomain(refs, pre, k);
      RequestedExtends(pre, reqs, k);
    }
  }

  /** The first claim in a prefix is the first claim in the whole sequence. */
  lemma {:induction false} FirstClaimOfExtension(pre: seq<Request>, reqs: seq<Request>, k: string)
    requires pre <= reqs && Claimed(pre, k)
    ensures FirstClaim(pre, k) == FirstClaim(reqs, k)
  {
    var j, i := FirstClaim(pre, k), FirstClaim(reqs, k);
    assert reqs[j] == pre[j];
  }

  /**
   * Deduplication: the i-th object of a run is a ROUTE exactly when its key was
   * held before the run or claimed by an earlier request, and then it routes to
   * the key's owner; otherwise it is the request's own MEDIA or INPUT object.
   */
  lemma {:induction false} ServeDedup(refs: Refs, reqs: seq<Request>, i: nat)
    requires i < |reqs|
    ensures var k := reqs[i].Key();
            var routed := Held(refs, k) || Claimed(reqs[..i], k);
            && (routed ==> Serve(refs, reqs).objs[i] == RouteTo(reqs[i].layer, Owner(refs, reqs[..i], k), reqs[i].mixer))
            && (!routed ==> Serve(refs, reqs).objs[i] == reqs[i].Fresh())
  {
    ServeObject(refs, reqs, i);
    ServeCache(refs, reqs[..i], reqs[i].Key());
  }

  /** The i-th object of a run is the answer to request i given the cache the earlier requests left. */
  lemma {:induction false} ServeObject(refs: Refs, reqs: seq<Request>, i: nat)
    requires i < |reqs|
    ensures Serve(refs, reqs).objs[i] == Answer(Serve(refs, reqs[..i]).refs, reqs[i]).obj
  {
    var pre, post := reqs[..i + 1], reqs[i + 1..];
    assert reqs == pre + post;
    ServeAppend(refs, pre, post);
    assert pre[..i] == reqs[..i];
    var before := Serve(refs, reqs[..i]);
    assert Serve(refs, pre).objs == before.objs + [Answer(before.refs, reqs[i]).obj];
  }

  /** Whatever the cache holds, object i sits on request i's layer with request i's mixer, and has no id yet. */
  lemma {:induction false} ServeShape(refs: Refs, reqs: seq<Request>, i: nat)
    requires i < |reqs|
    ensures var obj := Serve(refs, reqs).objs[i];
      && obj.id == "" && obj.layer == reqs[i].layer && obj.enable == EnableWhile(1)
      && obj.content.mixer == reqs[i].mixer
  {
    ServeObject(refs, reqs, i);
    var before := Serve(refs, reqs[..i]).refs;
    match reqs[i]
    case MediaRequest(_, _, _) =>
    case InputRequest(_, _, _, _, _) =>
  }

  /**
   * On a fresh cache every ROUTE points at the layer of an earlier object that is
   * not itself a ROUTE: the first earlier request for the same key.
   */
  lemma {:induction false} FreshRunRoutesBackwards(reqs: seq<Request>, i: nat)
    requires i < |reqs|
    requires Serve(Reset(), reqs).objs[i].content.RouteContent?
    ensures var j := FirstClaim(reqs[..i], reqs[i].Key());
      && j < i
      && Serve(Reset(), reqs).objs[j].layer == Serve(Reset(), reqs).objs[i].content.mappedLayer
      && !Serve(Reset(), reqs).objs[j].content.RouteContent?
  {
    var k := reqs[i].Key();
    ServeDedup(Reset(), reqs, i);
    var pre := reqs[..i];
    var j := FirstClaim(pre, k);
    assert pre[j] == reqs[j];
    assert !Claimed(reqs[..j], k) by {
      assert forall m :: 0 <= m < j ==> reqs[..j][m] == pre[m];
    }
    ServeDedup(Reset(), reqs, j);
    match reqs[j]
    case MediaRequest(_, _, _) =>
    case InputRequest(_, _, _, _, _) =>
  }
}
