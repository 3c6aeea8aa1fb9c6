/** Distributing layers over pipeline stages: get_dynamic_pipeline_shards of verl/model_merger/megatron_model_merger.py. */
module PipelineShards {
  import opened Outcomes
  import opened Sequences
  import Division

  datatype ShardError = TooFewLayers | TooFewStages | NothingFound

  type Found = seq<(seq<int>, int)>

  function Abs(x: int): nat { if x < 0 then -x else x }

  /** What is left for the first and last stage when every middle stage takes `middle` layers. */
  function Ends(layers: int, stages: int, middle: int): int { layers - middle * (stages - 2) }

  predicate Admissible(layers: int, stages: int, middle: int) {
    var ends := Ends(layers, stages, middle);
    0 < ends / 2 <= middle && 0 < ends - ends / 2 <= middle
  }

  function Candidate(layers: int, stages: int, middle: int): (seq<int>, int)
    requires stages >= 2
  {
    var ends := Ends(layers, stages, middle);
    ([ends / 2] + Copies(middle, stages - 2) + [ends - ends / 2], Abs(ends / 2 - middle))
  }

  function Ceil(layers: int, stages: int): int
    requires stages > 0
  {
    (layers + stages - 1) / stages
  }

  /** The exact condition under which the search finds a distribution. */
  predicate Feasible(layers: int, stages: int)
    requires stages > 0
  {
    layers % stages == 0 || layers % stages + 2 * (layers / stages) >= stages
  }

  /** The closed form of the search. */
  function Shards(layers: int, stages: int): Result<seq<int>, ShardError> {
    if layers < stages then Err(TooFewLayers)
    else if stages < 1 then Err(TooFewStages)
    else if stages == 1 then Ok([layers])
    else if stages == 2 then Ok([layers / 2, layers - layers / 2])
    else if Feasible(layers, stages) then Ok(Candidate(layers, stages, Ceil(layers, stages)).0)
    else Err(NothingFound)
  }

  /** sorted(found, key=second)[0]: the first of the entries with the least second component. */
  method FirstLeast(found: Found) returns (k: nat)
    requires found != []
    ensures k < |found|
    ensures forall i :: 0 <= i < |found| ==> found[k].1 <= found[i].1
    ensures forall i :: 0 <= i < k ==> found[k].1 < found[i].1
  {
    k := 0;
    for i := 1 to |found|
      invariant k < i
      invariant forall j :: 0 <= j < i ==> found[k].1 <= found[j].1
      invariant forall j :: 0 <= j < k ==> found[k].1 < found[j].1
    {
      if found[i].1 < found[k].1 { k := i; }
    }
  }

  method GetDynamicPipelineShards(layers: int, stages: int) returns (r: Result<seq<int>, ShardError>)
    ensures r == Shards(layers, stages)
  {
    if layers < stages { return Err(TooFewLayers); }
    if stages < 1 { return Err(TooFewStages); }
    if stages == 1 { return Ok([layers]); }
    if stages == 2 { return Ok([layers / 2, layers - layers / 2]); }
    var strategies: Found := [];
    ghost var tried: seq<int> := [];
    for middle := 0 to layers
      invariant |tried| == |strategies|
      invariant forall i :: 0 <= i < |tried| ==> 0 <= tried[i] < middle && Admissible(layers, stages, tried[i])
                                                 && strategies[i] == Candidate(layers, stages, tried[i])
      invariant forall m :: 0 <= m < middle && Admissible(layers, stages, m) ==> m in tried
    {
      var ends := layers - middle * (stages - 2);
      var first := ends / 2;
      var last := ends - ends / 2;
      if 0 < first <= middle && 0 < last <= middle {
        strategies := strategies + [([first] + Copies(middle, stages - 2) + [last], Abs(first - middle))];
        tried := tried + [middle];
      }
    }
    Search(layers, stages);
    if strategies == [] { return Err(NothingFound); }
    var k := FirstLeast(strategies);
    LeastIsCeil(layers, stages, tried, k);
    r := Ok(strategies[k].0);
  }

  // ---------------------------------------------------------------- the search, in closed form

  lemma DivFacts(layers: int, stages: int)
    requires stages > 0
    ensures layers == stages * (layers / stages) + layers % stages && 0 <= layers % stages < stages
    ensures Ceil(layers, stages) == layers / stages + (if layers % stages == 0 then 0 else 1)
  {
    var q, rho := layers / stages, layers % stages;
    var n := layers + stages - 1;
    if rho == 0 {
      assert n == stages * q + (stages - 1);
      Division.Unique(n, stages, q, stages - 1);
    } else {
      assert n == stages * (q + 1) + (rho - 1);
      Division.Unique(n, stages, q + 1, rho - 1);
    }
  }

  lemma AverageAtLeastOne(layers: int, stages: int)
    requires layers >= stages >= 1
    ensures layers / stages >= 1
  {
    DivFacts(layers, stages);
    if layers / stages <= 0 {
      Division.MulMono(layers / stages, 0, stages);
      assert false;
    }
  }

  /** Stages of `m` layers suffice exactly from the rounded-up average on. */
  lemma CeilIsLeast(layers: int, stages: int, m: int)
    requires stages > 0
    ensures layers <= m * stages <==> Ceil(layers, stages) <= m
  {
    DivFacts(layers, stages);
    var c := Ceil(layers, stages);
    if m >= c { assert m * stages >= c * stages; } else { assert m * stages <= (c - 1) * stages; }
  }

  lemma AdmissibleExactly(layers: int, stages: int, m: int)
    requires stages >= 3
    ensures Admissible(layers, stages, m) <==> Ceil(layers, stages) <= m && Ends(layers, stages, m) >= 2
  {
    CeilIsLeast(layers, stages, m);
    assert Ends(layers, stages, m) == layers - m * stages + 2 * m;
  }

  /** The ends that the rounded-up average leaves, without the product. */
  lemma EndsAtCeil(layers: int, stages: int)
    requires stages >= 3
    ensures var q, rho, c := layers / stages, layers % stages, Ceil(layers, stages);
            Ends(layers, stages, c) == 2 * q + (if rho == 0 then 0 else rho - stages + 2)
  {
    DivFacts(layers, stages);
    var q, c := layers / stages, Ceil(layers, stages);
    assert c * (stages - 2) == c * stages - 2 * c;
    assert c * stages == stages * q + (if layers % stages == 0 then 0 else stages);
  }

  /** The search succeeds exactly if the rounded-up average is admissible, and then nothing smaller is. */
  lemma Search(layers: int, stages: int)
    requires layers >= stages >= 3
    ensures 0 < Ceil(layers, stages) < layers
    ensures Feasible(layers, stages) <==> Admissible(layers, stages, Ceil(layers, stages))
    ensures forall m :: Admissible(layers, stages, m) ==> Feasible(layers, stages) && Ceil(layers, stages) <= m
  {
    hide Ends;
    var c := Ceil(layers, stages);
    DivFacts(layers, stages);
    AverageAtLeastOne(layers, stages);
    Division.MulMono(3, stages, layers / stages);
    EndsAtCeil(layers, stages);
    AdmissibleExactly(layers, stages, c);
    forall m | Admissible(layers, stages, m) ensures Feasible(layers, stages) && c <= m {
      AdmissibleExactly(layers, stages, m);
      EndsShrink(layers, stages, c, m);
    }
  }

  lemma EndsShrink(layers: int, stages: int, m: int, n: int)
    requires stages >= 2 && m <= n
    ensures Ends(layers, stages, n) <= Ends(layers, stages, m)
  {
    Division.MulMono(m, n, stages - 2);
  }

  /** The imbalance grows with the size of the middle stages, so the least imbalance is the smallest size. */
  lemma LeastIsCeil(layers: int, stages: int, tried: seq<int>, k: nat)
    requires layers >= stages >= 3 && k < |tried|
    requires forall i :: 0 <= i < |tried| ==> Admissible(layers, stages, tried[i])
    requires forall m :: 0 <= m < layers && Admissible(layers, stages, m) ==> m in tried
    requires forall i :: 0 <= i < |tried| ==> Candidate(layers, stages, tried[k]).1 <= Candidate(layers, stages, tried[i]).1
    ensures Feasible(layers, stages) && tried[k] == Ceil(layers, stages)
  {
    Search(layers, stages);
    var c := Ceil(layers, stages);
    assert Admissible(layers, stages, tried[k]);
    assert c in tried;
    var i :| 0 <= i < |tried| && tried[i] == c;
    if c < tried[k] { ImbalanceGrows(layers, stages, c, tried[k]); }
  }

  lemma ImbalanceGrows(layers: int, stages: int, m: int, n: int)
    requires stages >= 3 && m < n && Admissible(layers, stages, m) && Admissible(layers, stages, n)
    ensures Candidate(layers, stages, m).1 < Candidate(layers, stages, n).1
  {
    hide Ends;
    EndsShrink(layers, stages, m, n);
  }

  // ---------------------------------------------------------------- what the result is worth

  lemma {:induction false} SumAtMost(s: seq<int>, top: int)
    requires forall i :: 0 <= i < |s| ==> s[i] <= top
    ensures Sum(s) <= top * |s|
  {
    if s != [] {
      SumAtMost(s[1..], top);
      assert top * |s| == top * |s[1..]| + top;
    }
  }

  /** A distribution of the layers: one positive number for every stage. */
  ghost predicate Distributes(s: seq<int>, layers: int, stages: int) {
    && |s| == stages
    && (forall i :: 0 <= i < |s| ==> s[i] > 0)
    && Sum(s) == layers
  }

  lemma CandidateSum(layers: int, stages: int, m: int)
    requires stages >= 2
    ensures Sum(Candidate(layers, stages, m).0) == layers
  {
    hide Sum;
    var ends := Ends(layers, stages, m);
    SumAppend([ends / 2] + Copies(m, stages - 2), [ends - ends / 2]);
    SumAppend([ends / 2], Copies(m, stages - 2));
    SumRepeat(m, stages - 2);
    SumOfOne(ends / 2);
    SumOfOne(ends - ends / 2);
  }

  /** For all inputs: a distribution is found exactly if every stage can have a layer and either the layers divide evenly, or the
      remainder and twice the rounded-down average reach the number of stages. */
  lemma FoundExactly(layers: int, stages: int)
    ensures Shards(layers, stages).Ok?
       <==> 1 <= stages <= layers && (layers % stages == 0 || stages <= layers % stages + 2 * (layers / stages))
  {
    if 1 <= stages <= layers { AverageAtLeastOne(layers, stages); }
  }

  /** What is returned distributes all layers, every stage gets one, the largest stage is the rounded-up average, all but the first
      and last are of that size and these two share the rest, the last taking the odd layer; and no distribution whatever has a
      smaller largest stage. */
  lemma ShardsOptimal(layers: int, stages: int, other: seq<int>)
    requires Shards(layers, stages).Ok?
    ensures var s := Shards(layers, stages).value;
            && Distributes(s, layers, stages)
            && (forall i :: 0 <= i < |s| ==> s[i] <= Ceil(layers, stages))
            && (forall i :: 0 < i < |s| - 1 ==> s[i] == Ceil(layers, stages))
            && (stages > 1 ==> s[0] <= s[stages - 1] <= s[0] + 1)
    ensures Distributes(other, layers, stages) ==> exists i :: 0 <= i < |other| && other[i] >= Ceil(layers, stages)
  {
    hide Sum;
    var s, c := Shards(layers, stages).value, Ceil(layers, stages);
    if stages >= 3 {
      Search(layers, stages);
      CandidateSum(layers, stages, c);
    } else if stages == 2 {
      SumAppend([layers / 2], [layers - layers / 2]);
      SumOfOne(layers / 2);
      SumOfOne(layers - layers / 2);
      assert s == [layers / 2] + [layers - layers / 2];
    } else {
      SumOfOne(layers);
    }
    if Distributes(other, layers, stages) && forall i :: 0 <= i < |other| ==> other[i] <= c - 1 {
      SumAtMost(other, c - 1);
      CeilIsLeast(layers, stages, c - 1);
    }
  }

  /** The search gives up on layer counts that can be distributed evenly: `rho` stages of the rounded-up average and the
      others of one layer less always work. */
  lemma EvenSplit(layers: int, stages: int) returns (s: seq<int>)
    requires layers >= stages >= 1
    ensures Distributes(s, layers, stages)
    ensures forall i :: 0 <= i < |s| ==> layers / stages <= s[i] <= Ceil(layers, stages) <= layers / stages + 1
  {
    DivFacts(layers, stages);
    AverageAtLeastOne(layers, stages);
    s := TwoKinds(layers / stages, layers % stages, stages - layers % stages);
  }

  lemma TwoKinds(q: int, more: nat, fewer: nat) returns (s: seq<int>)
    requires q >= 1
    ensures |s| == more + fewer && Sum(s) == (more + fewer) * q + more
    ensures forall i :: 0 <= i < |s| ==> s[i] == if i < more then q + 1 else q
  {
    hide Sum;
    s := Copies(q + 1, more) + Copies(q, fewer);
    SumTwoKinds(q, more, fewer);
  }

  /** For instance, five layers on four stages. */
  lemma FiveOnFour()
    ensures Shards(5, 4) == Err(NothingFound)
    ensures Distributes([2, 1, 1, 1], 5, 4)
  {
    assert Sum([2, 1, 1, 1]) == 5;
  }

  /** The result is as even as a distribution can be (no two stages differ by more than one layer) exactly if the layers
      divide evenly or at most two stages are short of the rounded-up average. */
  lemma EvenExactly(layers: int, stages: int)
    requires layers >= stages >= 3 && Shards(layers, stages).Ok?
    ensures (forall i, j :: 0 <= i < stages && 0 <= j < stages ==> Shards(layers, stages).value[i] <= Shards(layers, stages).value[j] + 1)
            <==> layers % stages == 0 || layers % stages >= stages - 2
  {
    hide Ends;
    var s, c := Shards(layers, stages).value, Ceil(layers, stages);
    Search(layers, stages);
    DivFacts(layers, stages);
    EndsAtCeil(layers, stages);
    var ends := Ends(layers, stages, c);
    assert s[0] == ends / 2 && s[1] == c && s[stages - 1] == ends - ends / 2;
    assert forall i :: 0 <= i < stages ==> s[i] == ends / 2 || s[i] == c || s[i] == ends - ends / 2;
  }
}
