/**
 * Where `updateTimeline` puts things: the order in which outputs are
 * processed (MULTIVIEW outputs first), the layer keys it derives from an
 * output's index, and the CasparCG layer numbers those keys are mapped to.
 */
module Layout {
  import opened Strings
  import opened Api
  import opened Tsr

  // ---------------------------------------------------------------- output order

  /**
   * The sort comparator: -1 puts a MULTIVIEW before a non-MULTIVIEW, 1 the
   * reverse; for two outputs of the same kind it returns nothing, which
   * JavaScript's sort reads as 0 ("keep their order").
   */
  function Compare(a: Output, b: Output): (c: int)
    ensures c == -1 <==> a.MultiviewOutput? && !b.MultiviewOutput?
    ensures c == 1 <==> !a.MultiviewOutput? && b.MultiviewOutput?
    ensures c == 0 <==> a.MultiviewOutput? == b.MultiviewOutput?
  {
    if a.MultiviewOutput? && !b.MultiviewOutput? then -1
    else if !a.MultiviewOutput? && b.MultiviewOutput? then 1
    else 0
  }

  /** The MULTIVIEW outputs of `outs`, in their order. */
  function Multiviews(outs: seq<Output>): (r: seq<Output>)
    ensures forall k :: 0 <= k < |r| ==> r[k].MultiviewOutput?
    decreases |outs|
  {
    if |outs| == 0 then []
    else (if outs[0].MultiviewOutput? then [outs[0]] else []) + Multiviews(outs[1..])
  }

  /** The CUTOUT outputs of `outs`, in their order. */
  function CutoutOutputs(outs: seq<Output>): (r: seq<Output>)
    ensures forall k :: 0 <= k < |r| ==> r[k].CutoutOutput?
    decreases |outs|
  {
    if |outs| == 0 then []
    else (if outs[0].CutoutOutput? then [outs[0]] else []) + CutoutOutputs(outs[1..])
  }

  /**
   * The in-place `sort` with the comparator above. The engine's sort is stable,
   * so it is the stable partition of the outputs: MULTIVIEW ones first, then CUTOUT ones.
   */
  function SortOutputs(outs: seq<Output>): (r: seq<Output>)
    ensures |r| == |outs| && multiset(r) == multiset(outs)
    ensures forall i, j :: 0 <= i < j < |r| ==> Compare(r[i], r[j]) <= 0
    ensures Multiviews(r) == Multiviews(outs) && CutoutOutputs(r) == CutoutOutputs(outs)
  {
    var r := Multiviews(outs) + CutoutOutputs(outs);
    PartitionIsPermutation(outs);
    MultiviewsFirst(Multiviews(outs), CutoutOutputs(outs));
    MultiviewsAppend(Multiviews(outs), CutoutOutputs(outs));
    CutoutOutputsAppend(Multiviews(outs), CutoutOutputs(outs));
    FilterIdempotent(outs);
    r
  }

  /** All MULTIVIEW outputs followed by CUTOUT outputs are in comparator order. */
  lemma MultiviewsFirst(a: seq<Output>, b: seq<Output>)
    requires forall k :: 0 <= k < |a| ==> a[k].MultiviewOutput?
    requires forall k :: 0 <= k < |b| ==> b[k].CutoutOutput?
    ensures forall i, j :: 0 <= i < j < |a + b| ==> Compare((a + b)[i], (a + b)[j]) <= 0
  {
    forall i, j | 0 <= i < j < |a + b|
      ensures Compare((a + b)[i], (a + b)[j]) <= 0
    {
      if i >= |a| {
        assert (a + b)[i] == b[i - |a|] && (a + b)[j] == b[j - |a|];
      } else if j < |a| {
        assert (a + b)[i] == a[i] && (a + b)[j] == a[j];
      } else {
        assert (a + b)[i] == a[i] && (a + b)[j] == b[j - |a|];
      }
    }
  }

  /** The two filters split a sequence without losing or adding elements. */
  lemma {:induction false} PartitionIsPermutation(outs: seq<Output>)
    ensures multiset(Multiviews(outs)) + multiset(CutoutOutputs(outs)) == multiset(outs)
    ensures |Multiviews(outs)| + |CutoutOutputs(outs)| == |outs|
    decreases |outs|
  {
    if |outs| > 0 {
      PartitionIsPermutation(outs[1..]);
      assert outs == [outs[0]] + outs[1..];
    }
  }

  /** Filtering distributes over concatenation. */
  lemma {:induction false} MultiviewsAppend(a: seq<Output>, b: seq<Output>)
    ensures Multiviews(a + b) == Multiviews(a) + Multiviews(b)
    decreases |a|
  {
    if |a| == 0 {
      assert a + b == b;
    } else {
      MultiviewsAppend(a[1..], b);
      assert (a + b)[1..] == a[1..] + b;
    }
  }

  lemma {:induction false} CutoutOutputsAppend(a: seq<Output>, b: seq<Output>)
    ensures CutoutOutputs(a + b) == CutoutOutputs(a) + CutoutOutputs(b)
    decreases |a|
  {
    if |a| == 0 {
      assert a + b == b;
    } else {
      CutoutOutputsAppend(a[1..], b);
      assert (a + b)[1..] == a[1..] + b;
    }
  }

  /** Filtering a filtered sequence again keeps it, and the other filter empties it. */
  lemma {:induction false} FilterIdempotent(outs: seq<Output>)
    ensures Multiviews(Multiviews(outs)) == Multiviews(outs) && CutoutOutputs(Multiviews(outs)) == []
    ensures CutoutOutputs(CutoutOutputs(outs)) == CutoutOutputs(outs) && Multiviews(CutoutOutputs(outs)) == []
    decreases |outs|
  {
    if |outs| > 0 {
      FilterIdempotent(outs[1..]);
      var h := if outs[0].MultiviewOutput? then [outs[0]] else [];
      var g := if outs[0].CutoutOutput? then [outs[0]] else [];
      MultiviewsAppend(h, Multiviews(outs[1..]));
      CutoutOutputsAppend(h, Multiviews(outs[1..]));
      MultiviewsAppend(g, CutoutOutputs(outs[1..]));
      CutoutOutputsAppend(g, CutoutOutputs(outs[1..]));
    }
  }

  // ---------------------------------------------------------------- layer keys

  /** The role a layer key plays for its output. */
  datatype Role =
    | SourceRole             // `output{i}_source`: the picture of a CUTOUT output
    | MultiviewBgRole        // `output{i}_mvbg`: the multiview background
    | CellRole(cutoutId: string)    // `output{i}_mv_{id}`: a multiview cell's picture
    | CellBgRole(cutoutId: string)  // `output{i}_mvbg_{id}`: the black box behind a cell

  /** The part of a layer key after the output index. */
  function RoleTag(role: Role): (tag: string)
    ensures |tag| > 0 && tag[0] == '_'
  {
    match role
    case SourceRole => "_source"
    case MultiviewBgRole => "_mvbg"
    case CellRole(id) => "_mv_" + id
    case CellBgRole(id) => "_mvbg_" + id
  }

  /** `'output' + outputi + tag`, outputi being the output's index in the sorted list. */
  function LayerKey(outputi: nat, role: Role): (key: string)
    ensures |key| > 0
  {
    "output" + NatToString(outputi) + RoleTag(role)
  }

  /** Different roles have different tags. */
  lemma RoleTagInjective(r1: Role, r2: Role)
    ensures RoleTag(r1) == RoleTag(r2) <==> r1 == r2
  {
    if RoleTag(r1) == RoleTag(r2) {
      var t1, t2 := RoleTag(r1), RoleTag(r2);
      assert t1[1] == t2[1];
      if r1.CellRole? || r1.CellBgRole? {
        assert t1[3] == t2[3];
      }
      match r1
      case CellRole(id) =>
        assert id == t1[4..];
        assert r2.CellRole? && r2.cutoutId == t2[4..];
      case CellBgRole(id) =>
        assert id == t1[6..];
        assert r2.CellBgRole? && r2.cutoutId == t2[6..];
      case SourceRole =>
      case MultiviewBgRole =>
        assert t1[3] == t2[3];
        assert |t1| == |t2|;
    }
  }

  /** Every (output index, role) pair has its own layer key. */
  lemma {:induction false} LayerKeyInjective(i1: nat, r1: Role, i2: nat, r2: Role)
    ensures LayerKey(i1, r1) == LayerKey(i2, r2) <==> i1 == i2 && r1 == r2
  {
    if LayerKey(i1, r1) == LayerKey(i2, r2) {
      KeySplits(i1, r1, i2, r2);
      NatToStringInjective(i1, i2);
      RoleTagInjective(r1, r2);
    }
  }

  /** The start shared by every layer key of output i: `'output' + i + '_'`. */
  function KeyPrefix(outputi: nat): string {
    "output" + NatToString(outputi) + "_"
  }

  /** A layer key starts with the prefix of its own output and of no other. */
  lemma KeyPrefixOwns(i: nat, j: nat, role: Role)
    ensures KeyPrefix(i) <= LayerKey(j, role) <==> i == j
  {
    if i == j {
      OwnPrefix(j, role);
    } else if KeyPrefix(i) <= LayerKey(j, role) {
      var key := LayerKey(j, role);
      var rest := key[|KeyPrefix(i)|..];
      assert KeyPrefix(i) + rest == key;
      DigitsBeforeTag(NatToString(i), rest, NatToString(j), RoleTag(role));
      NatToStringInjective(i, j);
    }
  }

  lemma OwnPrefix(j: nat, role: Role)
    ensures KeyPrefix(j) <= LayerKey(j, role)
  {
    var tag := RoleTag(role);
    assert tag == "_" + tag[1..];
    assert LayerKey(j, role) == KeyPrefix(j) + tag[1..];
  }

  /** `'output' + a + '_' + rest` equal to `'output' + c + tag`, with a tag starting at '_', has a == c. */
  lemma DigitsBeforeTag(a: string, rest: string, c: string, tag: string)
    requires AllDigits(a) && AllDigits(c) && |tag| > 0 && tag[0] == '_'
    requires "output" + a + "_" + rest == "output" + c + tag
    ensures a == c
  {
    assert "output" + a + "_" + rest == "output" + (a + ("_" + rest));
    assert "output" + c + tag == "output" + (c + tag);
    AfterPrefix("output", a + ("_" + rest), c + tag);
    DigitsThenTagSplit(a, "_" + rest, c, tag);
  }

  /** Equal layer keys have equal index digits and equal tags. */
  lemma KeySplits(i1: nat, r1: Role, i2: nat, r2: Role)
    requires LayerKey(i1, r1) == LayerKey(i2, r2)
    ensures NatToString(i1) == NatToString(i2) && RoleTag(r1) == RoleTag(r2)
  {
    var a, b := NatToString(i1), RoleTag(r1);
    var c, d := NatToString(i2), RoleTag(r2);
    assert LayerKey(i1, r1) == "output" + (a + b);
    assert LayerKey(i2, r2) == "output" + (c + d);
    AfterPrefix("output", a + b, c + d);
    assert !IsDigit(b[0]) && !IsDigit(d[0]);
    DigitsThenTagSplit(a, b, c, d);
  }

  /** Equal strings with a common prefix agree after it. */
  lemma AfterPrefix(p: string, x: string, y: string)
    requires p + x == p + y
    ensures x == y
  {
    assert x == (p + x)[|p|..];
    assert y == (p + y)[|p|..];
  }

  // ---------------------------------------------------------------- layer numbers

  /** CasparCG layer of a CUTOUT output's picture and of a multiview background. */
  const BaseLayer: int := 10

  /** `layerBase` of multiview cell k: 100 + 10 * k. */
  function CellBase(k: nat): int { 100 + 10 * k }

  /** Layer of cell k's black background. */
  function CellBgNumber(k: nat): (n: int)
    ensures n == 100 + 10 * k
    ensures n > BaseLayer && n % 10 == 0
  {
    CellBase(k) + 0
  }

  /** Layer of cell k's picture, directly above its background. */
  function CellNumber(k: nat): (n: int)
    ensures n == CellBgNumber(k) + 1
  {
    CellBase(k) + 1
  }

  /** The four numbers used for two different cells are all different, and none is the base layer. */
  lemma CellNumbersDistinct(k1: nat, k2: nat)
    ensures CellBgNumber(k1) != CellNumber(k2)
    ensures CellBgNumber(k1) == CellBgNumber(k2) <==> k1 == k2
    ensures CellNumber(k1) == CellNumber(k2) <==> k1 == k2
    ensures CellNumber(k1) != BaseLayer
  {
  }

  /** The mapping record `updateTimeline` writes: device CASPARCG, id 'casparcg0'. */
  function CasparMapping(channel: int, layer: int): (m: Mapping)
    ensures m.device == CASPARCG && m.deviceId == "casparcg0"
    ensures m.channel == channel && m.layer == layer
  {
    Mapping(CASPARCG, "casparcg0", channel, layer)
  }
}
