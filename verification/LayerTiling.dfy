/** Layer numbers and output files of the distributed merge (verl/model_merger/megatron_model_merger.py, _merge_state_dicts
    and save_hf_model_and_tokenizer) and of the distributed conversion (scripts/converter_hf_to_mcore.py). */
module LayerTiling {
  import Division
  import opened Sequences
  import opened Outcomes
  import opened PipelineShards

  // ---------------------------------------------------------------- consecutive ranges

  /** np.cumsum(widths)[r - 1], and 0 for the first rank. */
  function StartOf(widths: seq<int>, r: nat): int
    requires r <= |widths|
  {
    Sum(widths[..r])
  }

  ghost predicate NonNegative(widths: seq<int>) { forall r :: 0 <= r < |widths| ==> widths[r] >= 0 }

  /** Place `i` of the range of rank `r`. */
  predicate Place(widths: seq<int>, r: int, i: int) { 0 <= r < |widths| && 0 <= i < widths[r] }

  function Index(widths: seq<int>, r: int, i: int): int
    requires 0 <= r < |widths|
  {
    StartOf(widths, r) + i
  }

  lemma StartZero(widths: seq<int>)
    ensures StartOf(widths, 0) == 0
  {
  }

  lemma StartNext(widths: seq<int>, r: nat)
    requires r < |widths|
    ensures StartOf(widths, r + 1) == StartOf(widths, r) + widths[r]
  {
    assert widths[..r + 1] == widths[..r] + [widths[r]];
    SumAppend(widths[..r], [widths[r]]);
    assert [widths[r]][1..] == [];
  }

  lemma {:induction false} StartMonotone(widths: seq<int>, r: nat, q: nat)
    requires NonNegative(widths) && r <= q <= |widths|
    ensures StartOf(widths, r) <= StartOf(widths, q)
    decreases q - r
  {
    if r < q { StartNext(widths, r); StartMonotone(widths, r + 1, q); }
  }

  lemma Inside(widths: seq<int>, r: int, i: int)
    requires NonNegative(widths) && Place(widths, r, i)
    ensures 0 <= Index(widths, r, i) < Sum(widths)
  {
    StartMonotone(widths, 0, r);
    StartNext(widths, r);
    StartMonotone(widths, r + 1, |widths|);
    assert widths[..0] == [] && widths[..|widths|] == widths;
  }

  lemma Distinct(widths: seq<int>, r: int, i: int, q: int, j: int)
    requires NonNegative(widths) && Place(widths, r, i) && Place(widths, q, j) && r < q
    ensures Index(widths, r, i) < Index(widths, q, j)
  {
    StartNext(widths, r);
    StartMonotone(widths, r + 1, q);
  }

  lemma {:induction false} Owner(widths: seq<int>, n: nat, x: int) returns (r: int, i: int)
    requires NonNegative(widths) && n <= |widths| && 0 <= x < StartOf(widths, n)
    ensures Place(widths, r, i) && Index(widths, r, i) == x
    decreases n
  {
    assert n > 0 by { assert widths[..0] == []; }
    StartNext(widths, n - 1);
    if x >= StartOf(widths, n - 1) {
      r, i := n - 1, x - StartOf(widths, n - 1);
    } else {
      r, i := Owner(widths, n - 1, x);
    }
  }

  ghost predicate Owned(widths: seq<int>, x: int) {
    exists r, i :: Place(widths, r, i) && Index(widths, r, i) == x
  }

  /** Numbering the places consecutively is a bijection onto 0 .. total - 1. */
  ghost predicate Tiles(widths: seq<int>, total: int) {
    && (forall r, i :: Place(widths, r, i) ==> 0 <= Index(widths, r, i) < total)
    && (forall r, i, q, j :: Place(widths, r, i) && Place(widths, q, j) && Index(widths, r, i) == Index(widths, q, j) ==> r == q && i == j)
    && (forall x :: 0 <= x < total ==> Owned(widths, x))
  }

  lemma RangesTile(widths: seq<int>)
    requires NonNegative(widths)
    ensures Tiles(widths, Sum(widths))
  {
    forall r, i | Place(widths, r, i) ensures 0 <= Index(widths, r, i) < Sum(widths) { Inside(widths, r, i); }
    forall r, i, q, j | Place(widths, r, i) && Place(widths, q, j) && Index(widths, r, i) == Index(widths, q, j) ensures r == q && i == j {
      if r < q { Distinct(widths, r, i, q, j); }
      if q < r { Distinct(widths, q, j, r, i); }
    }
    forall x | 0 <= x < Sum(widths) ensures Owned(widths, x) {
      assert widths[..|widths|] == widths;
      var r, i := Owner(widths, |widths|, x);
    }
  }

  // ---------------------------------------------------------------- layers and files of the stages

  function SavesPerLayer(layers: int): int { if layers < 30 then 1 else 2 }

  function Scaled(widths: seq<int>, k: int): (s: seq<int>)
    ensures |s| == |widths| && forall r :: 0 <= r < |s| ==> s[r] == widths[r] * k
  {
    seq(|widths|, r requires 0 <= r < |widths| => widths[r] * k)
  }

  lemma {:induction false} SumScaled(widths: seq<int>, k: int)
    ensures Sum(Scaled(widths, k)) == Sum(widths) * k
  {
    if widths != [] {
      assert Scaled(widths, k)[1..] == Scaled(widths[1..], k);
      SumScaled(widths[1..], k);
      Division.Expand(widths[0], Sum(widths[1..]), k);
    }
  }

  /** The number of the file that rank `r` writes as its `i`-th. */
  function SaveIndex(shards: seq<int>, saves: int, r: int, i: int): int
    requires 0 <= r < |shards|
  {
    StartOf(shards, r) * saves + i
  }

  lemma SaveIndexScaled(shards: seq<int>, saves: int, r: int, i: int)
    requires 0 <= r < |shards|
    ensures SaveIndex(shards, saves, r, i) == Index(Scaled(shards, saves), r, i)
  {
    assert Scaled(shards, saves)[..r] == Scaled(shards[..r], saves);
    SumScaled(shards[..r], saves);
  }

  /** With the stages found by the partition search, every layer of the model belongs to exactly one rank under the
      renumbering `start + local`, and the ranks' files are numbered 0 to saves_total - 1 without clash or gap. */
  lemma StagesTile(layers: int, stages: int)
    requires Shards(layers, stages).Ok?
    ensures var s := Shards(layers, stages).value; Tiles(s, layers)
    ensures var s := Shards(layers, stages).value;
            Tiles(Scaled(s, SavesPerLayer(layers)), if layers < 30 then layers else 2 * layers)
    ensures forall r, i :: 0 <= r < stages ==> SaveIndex(Shards(layers, stages).value, SavesPerLayer(layers), r, i)
                                               == Index(Scaled(Shards(layers, stages).value, SavesPerLayer(layers)), r, i)
  {
    hide Tiles, Shards, Index, SaveIndex;
    var s, k := Shards(layers, stages).value, SavesPerLayer(layers);
    ShardsOptimal(layers, stages, s);
    RangesTile(s);
    SumScaled(s, k);
    assert NonNegative(Scaled(s, k)) by {
      forall r | 0 <= r < |s| ensures Scaled(s, k)[r] >= 0 { Division.MulMono(0, s[r], k); }
    }
    RangesTile(Scaled(s, k));
    forall r, i | 0 <= r < stages ensures SaveIndex(s, k, r, i) == Index(Scaled(s, k), r, i) { SaveIndexScaled(s, k, r, i); }
  }

  // ---------------------------------------------------------------- the renumbering loop

  /** A state dict in key order: the local layer number in each key, if the key belongs to a layer. */
  type Dict = seq<Option<nat>>

  function MaxLayer(d: Dict): nat {
    if d == [] then 0 else
      var m := MaxLayer(d[..|d| - 1]);
      var last := d[|d| - 1];
      if last.Some? && last.value > m then last.value else m
  }

  function Shifted(d: Dict, offset: int): seq<Option<int>> {
    seq(|d|, i requires 0 <= i < |d| => match d[i] case None => None case Some(l) => Some(l + offset))
  }

  function Renumbered(ds: seq<Dict>, start: int): seq<seq<Option<int>>> {
    if ds == [] then [] else [Shifted(ds[0], start)] + Renumbered(ds[1..], start + MaxLayer(ds[0]) + 1)
  }

  predicate HasLayer(d: Dict, l: nat) { Some(l) in d }

  /** The dict describes layers 0 to n - 1, all of them. */
  ghost predicate Describes(d: Dict, n: int) {
    && (forall i :: 0 <= i < |d| && d[i].Some? ==> d[i].value < n)
    && (forall l :: 0 <= l < n ==> HasLayer(d, l))
  }

  lemma {:induction false} MaxLayerBound(d: Dict)
    ensures forall i :: 0 <= i < |d| && d[i].Some? ==> d[i].value <= MaxLayer(d)
    ensures MaxLayer(d) == 0 || Some(MaxLayer(d)) in d
    decreases |d|
  {
    if d != [] { MaxLayerBound(d[..|d| - 1]); }
  }

  lemma MaxLayerExact(d: Dict, n: int)
    requires n >= 0 && Describes(d, n)
    ensures MaxLayer(d) + 1 == if n == 0 then 1 else n
  {
    MaxLayerBound(d);
    if n > 0 { assert HasLayer(d, n - 1); }
  }

  /** The offset under which dict `k` is renumbered. */
  function OffsetOf(ds: seq<Dict>, start: int, k: nat): int
    requires k <= |ds|
    decreases k
  {
    if k == 0 then start else OffsetOf(ds, start, k - 1) + MaxLayer(ds[k - 1]) + 1
  }

  lemma {:induction false} RenumberedAt(ds: seq<Dict>, start: int, k: nat)
    requires k < |ds|
    ensures |Renumbered(ds, start)| == |ds| && Renumbered(ds, start)[k] == Shifted(ds[k], OffsetOf(ds, start, k))
    decreases |ds|
  {
    if k > 0 {
      OffsetTail(ds, start, k);
      RenumberedAt(ds[1..], start + MaxLayer(ds[0]) + 1, k - 1);
    } else if |ds| > 1 {
      RenumberedAt(ds[1..], start + MaxLayer(ds[0]) + 1, 0);
    }
  }

  lemma {:induction false} OffsetTail(ds: seq<Dict>, start: int, k: nat)
    requires 0 < k <= |ds|
    ensures OffsetOf(ds, start, k) == OffsetOf(ds[1..], start + MaxLayer(ds[0]) + 1, k - 1)
    decreases k
  {
    if k > 1 { OffsetTail(ds, start, k - 1); }
  }

  /** If dict `k` describes `widths[k]` layers, the loop numbers it from the sum of the widths before it exactly if none of
      the dicts before it is without layers: such a dict still advances the numbering by one. */
  lemma {:induction false} RenumberExactly(ds: seq<Dict>, widths: seq<int>, start: int, k: nat)
    requires |ds| == |widths| && k < |ds| && NonNegative(widths)
    requires forall j :: 0 <= j < |ds| ==> Describes(ds[j], widths[j])
    ensures |Renumbered(ds, start)| == |ds| && |Renumbered(ds, start)[k]| == |ds[k]|
    ensures forall i :: 0 <= i < |ds[k]| && ds[k][i].None? ==> Renumbered(ds, start)[k][i] == None
    ensures forall i :: 0 <= i < |ds[k]| && ds[k][i].Some? ==>
              && Renumbered(ds, start)[k][i].Some?
              && Renumbered(ds, start)[k][i].value >= start + Sum(widths[..k]) + ds[k][i].value
              && (Renumbered(ds, start)[k][i].value == start + Sum(widths[..k]) + ds[k][i].value
                  <==> forall j :: 0 <= j < k ==> widths[j] > 0)
  {
    hide Describes, Renumbered, OffsetOf;
    RenumberedAt(ds, start, k);
    OffsetExactly(ds, widths, start, k);
  }

  lemma {:induction false} OffsetExactly(ds: seq<Dict>, widths: seq<int>, start: int, k: nat)
    requires |ds| == |widths| && k < |ds| && NonNegative(widths)
    requires forall j :: 0 <= j < |ds| ==> Describes(ds[j], widths[j])
    ensures OffsetOf(ds, start, k) >= start + StartOf(widths, k)
    ensures OffsetOf(ds, start, k) == start + StartOf(widths, k) <==> forall j :: 0 <= j < k ==> widths[j] > 0
    decreases k
  {
    hide Describes, StartOf, MaxLayer;
    StartZero(widths);
    if k > 0 {
      OffsetExactly(ds, widths, start, k - 1);
      MaxLayerExact(ds[k - 1], widths[k - 1]);
      StartNext(widths, k - 1);
    }
  }

  /** Dict `k` describes `widths[k]` layers, and none is without. */
  ghost predicate DescribedBy(ds: seq<Dict>, widths: seq<int>) {
    |widths| == |ds| && forall k :: 0 <= k < |ds| ==> widths[k] > 0 && Describes(ds[k], widths[k])
  }

  ghost predicate SameShape(ds: seq<Dict>, out: seq<seq<Option<int>>>) {
    |out| == |ds| && forall k :: 0 <= k < |ds| ==> |out[k]| == |ds[k]|
  }

  /** Local layer l of dict k becomes start plus the layers before the dict plus l, and a key of no layer stays one. */
  ghost predicate Placed(ds: seq<Dict>, widths: seq<int>, start: int, out: seq<seq<Option<int>>>)
    requires SameShape(ds, out) && |widths| == |ds|
  {
    forall k, i :: 0 <= k < |ds| && 0 <= i < |ds[k]| ==>
      out[k][i] == if ds[k][i].None? then None else Some(start + Sum(widths[..k]) + ds[k][i].value)
  }

  ghost predicate Written(out: seq<seq<Option<int>>>, x: int) {
    exists k, i :: 0 <= k < |out| && 0 <= i < |out[k]| && out[k][i] == Some(x)
  }

  /** The numbers written are 0 .. total - 1, each for one local layer of one dict. */
  ghost predicate Covered(ds: seq<Dict>, total: int, out: seq<seq<Option<int>>>)
    requires SameShape(ds, out)
  {
    && (forall x :: 0 <= x < total <==> Written(out, x))
    && (forall k, i, q, j :: 0 <= k < |out| && 0 <= i < |out[k]| && 0 <= q < |out| && 0 <= j < |out[q]| ==>
          out[k][i].Some? && out[k][i] == out[q][j] ==> k == q && ds[k][i] == ds[q][j])
  }

  lemma RenumberShape(ds: seq<Dict>, start: int)
    ensures SameShape(ds, Renumbered(ds, start))
  {
    forall k | 0 <= k < |ds| ensures |Renumbered(ds, start)| == |ds| && |Renumbered(ds, start)[k]| == |ds[k]| {
      RenumberedAt(ds, start, k);
    }
  }

  lemma RenumberPlaces(ds: seq<Dict>, widths: seq<int>, start: int)
    requires DescribedBy(ds, widths)
    ensures SameShape(ds, Renumbered(ds, start)) && Placed(ds, widths, start, Renumbered(ds, start))
  {
    hide Describes, Renumbered;
    RenumberShape(ds, start);
    forall k, i | 0 <= k < |ds| && 0 <= i < |ds[k]|
      ensures Renumbered(ds, start)[k][i] == if ds[k][i].None? then None else Some(start + Sum(widths[..k]) + ds[k][i].value)
    {
      RenumberExactly(ds, widths, start, k);
    }
  }

  lemma PlacesCover(ds: seq<Dict>, widths: seq<int>, out: seq<seq<Option<int>>>)
    requires SameShape(ds, out) && DescribedBy(ds, widths) && Placed(ds, widths, 0, out)
    ensures Covered(ds, Sum(widths), out)
  {
    hide Sum, Index;
    RangesTile(widths);
    forall k, i | 0 <= k < |out| && 0 <= i < |out[k]| && out[k][i].Some?
      ensures ds[k][i].Some? && Place(widths, k, ds[k][i].value) && out[k][i] == Some(Index(widths, k, ds[k][i].value))
    {
      AtItsPlace(ds, widths, out, k, i);
    }
    forall x | 0 <= x < Sum(widths) ensures Written(out, x) {
      assert Owned(widths, x);
      var k, l :| Place(widths, k, l) && Index(widths, k, l) == x;
      assert HasLayer(ds[k], l);
      var i :| 0 <= i < |ds[k]| && ds[k][i] == Some(l);
      AtItsPlace(ds, widths, out, k, i);
    }
  }

  lemma AtItsPlace(ds: seq<Dict>, widths: seq<int>, out: seq<seq<Option<int>>>, k: nat, i: nat)
    requires SameShape(ds, out) && DescribedBy(ds, widths) && Placed(ds, widths, 0, out)
    requires k < |ds| && i < |ds[k]|
    ensures out[k][i].Some? <==> ds[k][i].Some?
    ensures ds[k][i].Some? ==> Place(widths, k, ds[k][i].value) && out[k][i] == Some(Index(widths, k, ds[k][i].value))
  {
    hide Sum;
    assert Describes(ds[k], widths[k]);
  }

  /** The layer numbers the merger writes into the keys of each dict in turn: when the dicts describe layers and none is without,
      every layer gets its own number, in order. */
  method RenumberLayers(ds: seq<Dict>, start: int) returns (out: seq<seq<Option<int>>>)
    ensures out == Renumbered(ds, start) && SameShape(ds, out)
    ensures forall widths :: DescribedBy(ds, widths) ==> Placed(ds, widths, start, out)
    ensures forall widths :: DescribedBy(ds, widths) && start == 0 ==> Covered(ds, Sum(widths), out)
  {
    out := [];
    var layersCum := start;
    for k := 0 to |ds|
      invariant out + Renumbered(ds[k..], layersCum) == Renumbered(ds, start)
    {
      var d := ds[k];
      var layersHandled: nat := 0;
      var named: seq<Option<int>> := [];
      for i := 0 to |d|
        invariant layersHandled == MaxLayer(d[..i])
        invariant named == Shifted(d[..i], layersCum)
      {
        assert d[..i + 1][..i] == d[..i];
        if d[i].Some? {
          if d[i].value > layersHandled { layersHandled := d[i].value; }
          named := named + [Some(d[i].value + layersCum)];
        } else {
          named := named + [None];
        }
      }
      assert d[..|d|] == d && ds[k..][1..] == ds[k + 1..] && ds[k..][0] == d;
      ghost var rest := Renumbered(ds[k + 1..], layersCum + layersHandled + 1);
      assert out + ([named] + rest) == (out + [named]) + rest;
      out := out + [named];
      layersCum := layersCum + layersHandled + 1;
    }
    assert ds[|ds|..] == [] && out == Renumbered(ds, start);
    RenumberShape(ds, start);
    forall widths | DescribedBy(ds, widths) ensures Placed(ds, widths, start, out) { RenumberPlaces(ds, widths, start); }
    forall widths | DescribedBy(ds, widths) && start == 0 ensures Covered(ds, Sum(widths), out) {
      RenumberPlaces(ds, widths, start);
      PlacesCover(ds, widths, out);
    }
  }

  /** For instance a dict without layers before a dict with one: that layer is numbered 1 where its place is 0. */
  lemma EmptyStageShifts()
    ensures var ds, widths := [[None], [Some(0)]], [0, 1];
            && (forall j :: 0 <= j < 2 ==> Describes(ds[j], widths[j]))
            && StartOf(widths, 1) == 0
            && |Renumbered(ds, 0)| == 2 && Renumbered(ds, 0)[1] == [Some(1)]
  {
    var ds: seq<Dict>, widths := [[None], [Some(0)]], [0, 1];
    assert HasLayer(ds[1], 0) by { assert ds[1][0] == Some(0); }
    forall j | 0 <= j < 2 ensures Describes(ds[j], widths[j]) {}
    RenumberExactly(ds, widths, 0, 1);
    SumOfOne(0);
    assert widths[..1] == [0];
    assert MaxLayer(ds[0]) == 0 by { assert ds[0][..0] == []; }
    assert OffsetOf(ds, 0, 1) == 1;
  }
}
