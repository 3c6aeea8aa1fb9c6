/** Row layout of attention weights: the interleaving of q, k and v by key/value head in scripts/converter_hf_to_mcore.py, and
    its undoing in verl/model_merger/megatron_model_merger.py (whole matrix) and scripts/legacy_model_merger.py
    (tensor-parallel shards). A matrix is the sequence of its rows. */
module QkvLayout {
  import opened Outcomes
  import opened Sequences
  import opened TorchRows
  import Division

  datatype LayoutError = NoKvHeads | HeadsNotDivisible | NoShards | RowsNotDivisible | NoGroups | SplitMismatch | NotTwoHalves

  datatype Qkv<R> = Qkv(q: seq<R>, k: seq<R>, v: seq<R>)

  function Nothing<R>(): Qkv<R> { Qkv([], [], []) }

  function Join<R>(a: Qkv<R>, b: Qkv<R>): Qkv<R> { Qkv(a.q + b.q, a.k + b.k, a.v + b.v) }

  /** The parts collected so far, followed by what the remaining rows give. */
  function Then<R>(a: Qkv<R>, r: Result<Qkv<R>, LayoutError>): (q: Result<Qkv<R>, LayoutError>)
    ensures a == Nothing() ==> q == r
    ensures r == Ok(Nothing()) ==> q == Ok(a)
  {
    match r
    case Err(e) => Err(e)
    case Ok(v) =>
      assert [] + v.q == v.q && [] + v.k == v.k && [] + v.v == v.v;
      assert a.q + [] == a.q && a.k + [] == a.k && a.v + [] == a.v;
      Ok(Join(a, v))
  }

  lemma ThenAssoc<R>(a: Qkv<R>, b: Qkv<R>, r: Result<Qkv<R>, LayoutError>)
    ensures Then(Join(a, b), r) == Then(a, Then(b, r))
  {
    if r.Ok? {
      var c := r.value;
      assert (a.q + b.q) + c.q == a.q + (b.q + c.q);
      assert (a.k + b.k) + c.k == a.k + (b.k + c.k);
      assert (a.v + b.v) + c.v == a.v + (b.v + c.v);
    }
  }

  // ---------------------------------------------------------------- interleave

  /** `groups` blocks, each of `qs` rows of q, `ks` rows of k and `ks` rows of v. */
  function Groups<R>(q: seq<R>, k: seq<R>, v: seq<R>, groups: nat, qs: nat, ks: nat): (bs: seq<seq<R>>)
    requires |q| == groups * qs && |k| == groups * ks && |v| == groups * ks
    ensures |bs| == groups && forall i :: 0 <= i < groups ==> |bs[i]| == qs + ks + ks
    decreases groups
  {
    if groups == 0 then [] else
      Division.Peel(groups, qs); Division.Peel(groups, ks);
      [q[..qs] + k[..ks] + v[..ks]] + Groups(q[qs..], k[ks..], v[ks..], groups - 1, qs, ks)
  }

  /** The matrix that the converter builds: q, k and v viewed by key/value head and concatenated head by head. */
  function Interleave<R>(q: seq<R>, k: seq<R>, v: seq<R>, heads: nat, kvHeads: nat, headDim: nat): seq<R>
    requires kvHeads > 0 && heads % kvHeads == 0
    requires |q| == headDim * heads && |k| == headDim * kvHeads && |v| == headDim * kvHeads
  {
    ConverterBlock(heads, kvHeads, headDim);
    Flat(Groups(q, k, v, kvHeads, headDim * heads / kvHeads, headDim))
  }

  lemma ConverterBlock(heads: nat, kvHeads: nat, headDim: nat)
    requires kvHeads > 0 && heads % kvHeads == 0
    ensures headDim * heads / kvHeads == headDim * (heads / kvHeads)
    ensures headDim * heads == kvHeads * (headDim * heads / kvHeads)
  {
    var perKv := heads / kvHeads;
    assert heads == kvHeads * perKv;
    Reorder(headDim, kvHeads, perKv);
    Division.Exact(kvHeads, headDim * perKv);
  }

  lemma Reorder(a: nat, b: nat, c: nat)
    ensures a * (b * c) == b * (a * c) == c * (a * b)
  {
  }

  // ---------------------------------------------------------------- de-interleave

  /** chunk.split([qs, ks, ks]). */
  function Three<R>(chunk: seq<R>, qs: nat, ks: nat): Qkv<R>
    requires |chunk| == qs + ks + ks
  {
    Qkv(chunk[..qs], chunk[qs..qs + ks], chunk[qs + ks..])
  }

  /** The inner loop: every chunk is split in three, and the parts are collected. */
  function SplitAll<R>(chunks: seq<seq<R>>, qs: nat, ks: nat): Result<Qkv<R>, LayoutError> {
    if chunks == [] then Ok(Nothing())
    else if |chunks[0]| != qs + ks + ks then Err(SplitMismatch)
    else Then(Three(chunks[0], qs, ks), SplitAll(chunks[1..], qs, ks))
  }

  /** One shard, as both mergers treat it: its rows are `kvSize` for k, as many for v, and `perKv` times as many for q. */
  function SplitShard<R>(t: seq<R>, perKv: nat, kvSize: nat, groups: nat): Result<Qkv<R>, LayoutError> {
    if groups == 0 then Err(NoGroups) else SplitAll(ChunkRows(t, groups), kvSize * perKv / groups, kvSize / groups)
  }

  method SplitShardLoop<R>(t: seq<R>, perKv: nat, kvSize: nat, groups: nat) returns (r: Result<Qkv<R>, LayoutError>)
    ensures r == SplitShard(t, perKv, kvSize, groups)
  {
    if groups == 0 { return Err(NoGroups); }
    var chunks := ChunkRows(t, groups);
    var q, k, v := [], [], [];
    for i := 0 to |chunks|
      invariant SplitAll(chunks, kvSize * perKv / groups, kvSize / groups)
             == Then(Qkv(q, k, v), SplitAll(chunks[i..], kvSize * perKv / groups, kvSize / groups))
    {
      var qs, ks := kvSize * perKv / groups, kvSize / groups;
      var chunk := chunks[i];
      assert chunks[i..][0] == chunk && chunks[i..][1..] == chunks[i + 1..];
      if |chunk| != qs + ks + ks { return Err(SplitMismatch); }
      ThenAssoc(Qkv(q, k, v), Three(chunk, qs, ks), SplitAll(chunks[i + 1..], qs, ks));
      q := q + chunk[..qs];
      k := k + chunk[qs..qs + ks];
      v := v + chunk[qs + ks..];
    }
    r := Ok(Qkv(q, k, v));
  }

  function MergeShards<R>(shards: seq<seq<R>>, perKv: nat, kvSize: nat, groups: nat): Result<Qkv<R>, LayoutError> {
    if shards == [] then Ok(Nothing()) else
      match SplitShard(shards[0], perKv, kvSize, groups)
      case Err(e) => Err(e)
      case Ok(first) => Then(first, MergeShards(shards[1..], perKv, kvSize, groups))
  }

  /** Sizes are taken from the first shard. */
  function MergeTp<R>(shards: seq<seq<R>>, heads: nat, kvHeads: nat, tpSize: nat): Result<Qkv<R>, LayoutError>
    requires tpSize > 0
  {
    if kvHeads == 0 then Err(NoKvHeads)
    else if heads % kvHeads != 0 then Err(HeadsNotDivisible)
    else if shards == [] then Err(NoShards)
    else if |shards[0]| % (heads / kvHeads + 2) != 0 then Err(RowsNotDivisible)
    else MergeShards(shards, heads / kvHeads, |shards[0]| / (heads / kvHeads + 2), kvHeads / tpSize)
  }

  /** _merge_across_tp for a qkv matrix. */
  method MergeAcrossTp<R>(shards: seq<seq<R>>, heads: nat, kvHeads: nat, tpSize: nat) returns (r: Result<Qkv<R>, LayoutError>)
    requires tpSize > 0
    ensures r == MergeTp(shards, heads, kvHeads, tpSize)
  {
    if kvHeads == 0 { return Err(NoKvHeads); }
    if heads % kvHeads != 0 { return Err(HeadsNotDivisible); }
    if shards == [] { return Err(NoShards); }
    var perKv := heads / kvHeads;
    if |shards[0]| % (perKv + 2) != 0 { return Err(RowsNotDivisible); }
    var kvSize, groups := |shards[0]| / (perKv + 2), kvHeads / tpSize;
    var all: Qkv<R> := Nothing();
    for i := 0 to |shards|
      invariant MergeShards(shards, perKv, kvSize, groups) == Then(all, MergeShards(shards[i..], perKv, kvSize, groups))
    {
      assert shards[i..][0] == shards[i] && shards[i..][1..] == shards[i + 1..];
      var one := SplitShardLoop(shards[i], perKv, kvSize, groups);
      if one.Err? { return one; }
      ThenAssoc(all, one.value, MergeShards(shards[i + 1..], perKv, kvSize, groups));
      all := Join(all, one.value);
    }
    r := Ok(all);
  }

  /** _split_tensors on the whole matrix: the same as merging a single shard. */
  method SplitTensors<R>(t: seq<R>, heads: nat, kvHeads: nat) returns (r: Result<Qkv<R>, LayoutError>)
    ensures r == MergeTp([t], heads, kvHeads, 1)
  {
    if kvHeads == 0 { return Err(NoKvHeads); }
    if heads % kvHeads != 0 { return Err(HeadsNotDivisible); }
    var perKv := heads / kvHeads;
    if |t| % (perKv + 2) != 0 { return Err(RowsNotDivisible); }
    var kvSize := |t| / (perKv + 2);
    r := SplitShardLoop(t, perKv, kvSize, kvHeads);
    OneShard(t, perKv, kvSize, kvHeads);
  }

  lemma OneShard<R>(t: seq<R>, perKv: nat, kvSize: nat, groups: nat)
    ensures MergeShards([t], perKv, kvSize, groups) == SplitShard(t, perKv, kvSize, groups)
  {
    assert [t][1..] == [];
  }

  // ---------------------------------------------------------------- round trip

  lemma {:induction false} FlatLength<R>(bs: seq<seq<R>>, size: nat)
    requires forall i :: 0 <= i < |bs| ==> |bs[i]| == size
    ensures |Flat(bs)| == |bs| * size
  {
    if bs != [] { FlatLength(bs[1..], size); Division.Peel(|bs|, size); }
  }

  /** Cutting equal blocks where they were joined gives the blocks back. */
  lemma {:induction false} PiecesOfFlat<R>(bs: seq<seq<R>>, size: nat)
    requires size > 0 && bs != [] && forall i :: 0 <= i < |bs| ==> |bs[i]| == size
    ensures Pieces(Flat(bs), size) == bs
  {
    var t := Flat(bs);
    if |bs| == 1 {
      assert bs[1..] == [] && t == bs[0];
    } else {
      FlatLength(bs[1..], size);
      Division.Peel(|bs| - 1, size);
      assert t[..size] == bs[0] && t[size..] == Flat(bs[1..]);
      PiecesOfFlat(bs[1..], size);
      assert bs == [bs[0]] + bs[1..];
    }
  }

  lemma ChunkOfFlat<R>(bs: seq<seq<R>>, size: nat)
    requires bs != [] && forall i :: 0 <= i < |bs| ==> |bs[i]| == size
    ensures ChunkRows(Flat(bs), |bs|) == bs
  {
    FlatLength(bs, size);
    Division.Exact(|bs|, size);
    if size > 0 {
      Division.Peel(|bs|, size);
      PiecesOfFlat(bs, size);
    } else {
      assert Flat(bs) == [];
      assert forall i :: 0 <= i < |bs| ==> bs[i] == [];
    }
  }

  lemma {:induction false} SplitGroups<R>(q: seq<R>, k: seq<R>, v: seq<R>, groups: nat, qs: nat, ks: nat)
    requires |q| == groups * qs && |k| == groups * ks && |v| == groups * ks
    ensures SplitAll(Groups(q, k, v, groups, qs, ks), qs, ks) == Ok(Qkv(q, k, v))
    decreases groups
  {
    if groups == 0 {
      assert q == [] && k == [] && v == [];
    } else {
      Division.Peel(groups, qs); Division.Peel(groups, ks);
      SplitGroups(q[qs..], k[ks..], v[ks..], groups - 1, qs, ks);
      var rest := Groups(q[qs..], k[ks..], v[ks..], groups - 1, qs, ks);
      var b := q[..qs] + k[..ks] + v[..ks];
      assert Groups(q, k, v, groups, qs, ks) == [b] + rest;
      SplitBlock(q, k, v, qs, ks, rest);
    }
  }

  lemma SplitBlock<R>(q: seq<R>, k: seq<R>, v: seq<R>, qs: nat, ks: nat, rest: seq<seq<R>>)
    requires qs <= |q| && ks <= |k| && ks <= |v|
    requires SplitAll(rest, qs, ks) == Ok(Qkv(q[qs..], k[ks..], v[ks..]))
    ensures SplitAll([q[..qs] + k[..ks] + v[..ks]] + rest, qs, ks) == Ok(Qkv(q, k, v))
  {
    var b := q[..qs] + k[..ks] + v[..ks];
    var bs := [b] + rest;
    assert bs[0] == b && bs[1..] == rest;
    assert b[..qs] == q[..qs] && b[qs..qs + ks] == k[..ks] && b[qs + ks..] == v[..ks];
    assert q == q[..qs] + q[qs..] && k == k[..ks] + k[ks..] && v == v[..ks] + v[ks..];
  }

  function Both<R>(a: Result<Qkv<R>, LayoutError>, b: Result<Qkv<R>, LayoutError>): Result<Qkv<R>, LayoutError> {
    if a.Err? then a else Then(a.value, b)
  }

  lemma {:induction false} SplitAllAppend<R>(a: seq<seq<R>>, b: seq<seq<R>>, qs: nat, ks: nat)
    ensures SplitAll(a + b, qs, ks) == Both(SplitAll(a, qs, ks), SplitAll(b, qs, ks))
  {
    if a == [] {
      assert a + b == b;
    } else {
      assert (a + b)[1..] == a[1..] + b && (a + b)[0] == a[0];
      SplitAllAppend(a[1..], b, qs, ks);
      if |a[0]| == qs + ks + ks && SplitAll(a[1..], qs, ks).Ok? {
        ThenAssoc(Three(a[0], qs, ks), SplitAll(a[1..], qs, ks).value, SplitAll(b, qs, ks));
      }
    }
  }

  /** `tpSize` equal consecutive row shards. */
  function RowShards<R>(t: seq<R>, tpSize: nat): seq<seq<R>>
    requires tpSize > 0
  {
    ChunkRows(t, tpSize)
  }

  /** Blocks in runs of `per`. */
  function Runs<R>(bs: seq<seq<R>>, per: nat, n: nat): (runs: seq<seq<seq<R>>>)
    requires |bs| == n * per
    ensures |runs| == n && forall i :: 0 <= i < n ==> |runs[i]| == per
    decreases n
  {
    if n == 0 then [] else Division.Peel(n, per); [bs[..per]] + Runs(bs[per..], per, n - 1)
  }

  function Flats<R>(runs: seq<seq<seq<R>>>): (s: seq<seq<R>>)
    ensures |s| == |runs| && forall i :: 0 <= i < |runs| ==> s[i] == Flat(runs[i])
  {
    seq(|runs|, i requires 0 <= i < |runs| => Flat(runs[i]))
  }

  lemma {:induction false} FlatFlats<R>(runs: seq<seq<seq<R>>>)
    ensures Flat(Flats(runs)) == Flat(Flat(runs))
  {
    if runs != [] {
      assert Flats(runs)[1..] == Flats(runs[1..]);
      FlatFlats(runs[1..]);
      FlatAppend(runs[0], Flat(runs[1..]));
    } else {
      assert Flats(runs) == [];
    }
  }

  lemma {:induction false} RunsSound<R>(bs: seq<seq<R>>, per: nat, n: nat, size: nat)
    requires |bs| == n * per && forall i :: 0 <= i < |bs| ==> |bs[i]| == size
    ensures forall i :: 0 <= i < n ==> Uniform(Runs(bs, per, n)[i], per, size)
    ensures Flat(Runs(bs, per, n)) == bs
    decreases n
  {
    if n > 0 {
      Division.Peel(n, per);
      RunsSound(bs[per..], per, n - 1, size);
      assert bs == bs[..per] + bs[per..];
      assert Runs(bs, per, n)[1..] == Runs(bs[per..], per, n - 1);
    } else {
      assert bs == [];
    }
  }

  predicate Uniform<R>(run: seq<seq<R>>, per: nat, size: nat) {
    |run| == per && forall i :: 0 <= i < per ==> |run[i]| == size
  }

  /** A shard made of whole blocks splits as its blocks do. */
  lemma ShardOfRun<R>(run: seq<seq<R>>, perKv: nat, qs: nat, ks: nat, kvSize: nat)
    requires run != [] && qs == ks * perKv && kvSize == |run| * ks
    requires forall i :: 0 <= i < |run| ==> |run[i]| == qs + ks + ks
    ensures SplitShard(Flat(run), perKv, kvSize, |run|) == SplitAll(run, qs, ks)
  {
    hide SplitAll, Flat, ChunkRows;
    ChunkOfFlat(run, qs + ks + ks);
    Division.Exact(|run|, ks);
    Division.Exact(|run|, qs);
    assert kvSize * perKv == |run| * qs;
  }

  /** Merging shards made of whole blocks is splitting the blocks. */
  lemma {:induction false} MergeRuns<R>(runs: seq<seq<seq<R>>>, per: nat, perKv: nat, qs: nat, ks: nat, kvSize: nat)
    requires per > 0 && qs == ks * perKv && kvSize == per * ks
    requires forall i :: 0 <= i < |runs| ==> Uniform(runs[i], per, qs + ks + ks)
    ensures MergeShards(Flats(runs), perKv, kvSize, per) == SplitAll(Flat(runs), qs, ks)
  {
    hide SplitShard, SplitAll, Then;
    if runs != [] {
      assert Flats(runs)[1..] == Flats(runs[1..]);
      MergeRuns(runs[1..], per, perKv, qs, ks, kvSize);
      ShardOfRun(runs[0], perKv, qs, ks, kvSize);
      SplitAllAppend(runs[0], Flat(runs[1..]), qs, ks);
    } else {
      assert Flats(runs) == [];
      SplitNone<R>(qs, ks);
    }
  }

  lemma SplitNone<R>(qs: nat, ks: nat)
    ensures SplitAll<R>([], qs, ks) == Ok(Nothing())
  {
  }

  /** The row shards of a matrix made of equal blocks are the runs of its blocks. */
  lemma ShardsAreRuns<R>(bs: seq<seq<R>>, per: nat, n: nat, size: nat)
    requires n > 0 && |bs| == n * per && forall i :: 0 <= i < |bs| ==> |bs[i]| == size
    ensures RowShards(Flat(bs), n) == Flats(Runs(bs, per, n))
    ensures |RowShards(Flat(bs), n)[0]| == per * size
  {
    hide ChunkRows, Flat, Runs;
    var shards := Flats(Runs(bs, per, n));
    RunsSound(bs, per, n, size);
    FlatFlats(Runs(bs, per, n));
    forall i | 0 <= i < n ensures |shards[i]| == per * size { FlatLength(Runs(bs, per, n)[i], size); }
    ChunkOfFlat(shards, per * size);
  }

  /** For all head counts with kvHeads dividing heads, any head size, and any tensor-parallel size dividing kvHeads: merging
      the row shards of the converter's matrix gives back q, k and v. */
  lemma QkvRoundTrip<R>(q: seq<R>, k: seq<R>, v: seq<R>, heads: nat, kvHeads: nat, headDim: nat, tpSize: nat)
    requires kvHeads > 0 && heads % kvHeads == 0 && tpSize > 0 && kvHeads % tpSize == 0
    requires |q| == headDim * heads && |k| == headDim * kvHeads && |v| == headDim * kvHeads
    ensures MergeTp(RowShards(Interleave(q, k, v, heads, kvHeads, headDim), tpSize), heads, kvHeads, tpSize) == Ok(Qkv(q, k, v))
  {
    hide RowShards, Flat, Groups, SplitAll, MergeShards, Runs, Flats;
    var perKv, per := heads / kvHeads, kvHeads / tpSize;
    var qs := headDim * perKv;
    var size := qs + headDim + headDim;
    ConverterBlock(heads, kvHeads, headDim);
    assert kvHeads == tpSize * per;
    Division.PositiveFactors(tpSize, per);
    var bs := Groups(q, k, v, kvHeads, qs, headDim);
    SplitGroups(q, k, v, kvHeads, qs, headDim);
    ShardsAreRuns(bs, per, tpSize, size);
    RunsSound(bs, per, tpSize, size);
    MergeRuns(Runs(bs, per, tpSize), per, perKv, qs, headDim, per * headDim);
    ShardRows(per, perKv, headDim);
  }

  /** Without tensor parallelism: splitting the whole matrix. */
  lemma WholeRoundTrip<R>(q: seq<R>, k: seq<R>, v: seq<R>, heads: nat, kvHeads: nat, headDim: nat)
    requires kvHeads > 0 && heads % kvHeads == 0
    requires |q| == headDim * heads && |k| == headDim * kvHeads && |v| == headDim * kvHeads
    ensures MergeTp([Interleave(q, k, v, heads, kvHeads, headDim)], heads, kvHeads, 1) == Ok(Qkv(q, k, v))
  {
    QkvRoundTrip(q, k, v, heads, kvHeads, headDim, 1);
    var whole := Interleave(q, k, v, heads, kvHeads, headDim);
    assert Division.CeilDiv(|whole|, 1) == |whole|;
    assert RowShards(whole, 1) == [whole];
  }

  lemma ShardRows(per: nat, perKv: nat, headDim: nat)
    ensures per * (headDim * perKv + headDim + headDim) % (perKv + 2) == 0
    ensures per * (headDim * perKv + headDim + headDim) / (perKv + 2) == per * headDim
  {
    assert headDim * perKv + headDim + headDim == headDim * (perKv + 2);
    Reorder(per, headDim, perKv + 2);
    Division.Exact(perKv + 2, per * headDim);
  }

  // ---------------------------------------------------------------- when merging succeeds

  /** The rows of a shard come apart in pieces of `each` when chunked in `groups`. */
  predicate Splits(rows: nat, groups: nat, each: nat)
    requires groups > 0
  {
    if rows == 0 then each == 0 else each > 0 && Division.CeilDiv(rows, groups) == each && rows % each == 0
  }

  /** The rows of one piece: a share of q's rows, and one each of k's and of v's. */
  function Each(perKv: nat, kvSize: nat, groups: nat): nat
    requires groups > 0
  {
    kvSize * perKv / groups + 2 * (kvSize / groups)
  }

  predicate AllSplit<R>(shards: seq<seq<R>>, perKv: nat, kvSize: nat, groups: nat) {
    groups > 0 && forall i :: 0 <= i < |shards| ==> Splits(|shards[i]|, groups, Each(perKv, kvSize, groups))
  }

  lemma {:induction false} PiecesAre<R>(t: seq<R>, size: nat)
    requires size > 0 && t != []
    ensures (forall i :: 0 <= i < |Pieces(t, size)| ==> |Pieces(t, size)[i]| == size) <==> |t| % size == 0
    ensures Pieces(t, size) != [] && (|Pieces(t, size)[0]| == size <==> size <= |t|)
    decreases |t|
  {
    if |t| <= size {
      assert Pieces(t, size) == [t] && |Pieces(t, size)[0]| == |t|;
      if |t| < size { Division.Unique(|t|, size, 0, |t|); } else { Division.Unique(|t|, size, 1, 0); }
    } else {
      var rest := Pieces(t[size..], size);
      PiecesAre(t[size..], size);
      Division.AddMultiple(|t| - size, 1, size);
      assert Pieces(t, size) == [t[..size]] + rest;
      assert forall i :: 1 <= i < |Pieces(t, size)| ==> Pieces(t, size)[i] == rest[i - 1];
      assert forall i :: 0 <= i < |rest| ==> rest[i] == Pieces(t, size)[i + 1];
    }
  }

  lemma {:induction false} SplitAllExactly<R>(chunks: seq<seq<R>>, qs: nat, ks: nat)
    ensures SplitAll(chunks, qs, ks).Ok? <==> forall i :: 0 <= i < |chunks| ==> |chunks[i]| == qs + ks + ks
  {
    if chunks != [] {
      SplitAllExactly(chunks[1..], qs, ks);
      assert chunks == [chunks[0]] + chunks[1..];
    }
  }

  lemma SplitShardExactly<R>(t: seq<R>, perKv: nat, kvSize: nat, groups: nat)
    ensures SplitShard(t, perKv, kvSize, groups).Ok?
       <==> groups > 0 && Splits(|t|, groups, Each(perKv, kvSize, groups))
  {
    if groups > 0 {
      hide SplitAll, ChunkRows, Splits;
      var qs, ks := kvSize * perKv / groups, kvSize / groups;
      SplitAllExactly(ChunkRows(t, groups), qs, ks);
      ChunksAre(t, groups, qs + ks + ks);
    }
  }

  lemma ChunksAre<R>(t: seq<R>, groups: nat, each: nat)
    requires groups > 0
    ensures (forall i :: 0 <= i < |ChunkRows(t, groups)| ==> |ChunkRows(t, groups)[i]| == each) <==> Splits(|t|, groups, each)
  {
    var chunks := ChunkRows(t, groups);
    if t == [] {
      assert |chunks[0]| == 0;
    } else {
      var size := Division.CeilDiv(|t|, groups);
      PiecesAre(t, size);
      Division.CeilAtMost(|t|, groups);
      assert |chunks[0]| == size;
    }
  }

  lemma {:induction false} MergeShardsExactly<R>(shards: seq<seq<R>>, perKv: nat, kvSize: nat, groups: nat)
    requires shards != []
    ensures MergeShards(shards, perKv, kvSize, groups).Ok? <==> AllSplit(shards, perKv, kvSize, groups)
  {
    hide SplitShard, Splits, Each;
    SplitShardExactly(shards[0], perKv, kvSize, groups);
    if |shards| > 1 { MergeShardsExactly(shards[1..], perKv, kvSize, groups); }
    assert shards == [shards[0]] + shards[1..];
  }

  /** Merging succeeds exactly when the head counts divide, the first shard divides into its heads' parts, and every shard's rows
      come apart in as many equal pieces as a shard has key/value heads, rounded down. */
  lemma MergeTpExactly<R>(shards: seq<seq<R>>, heads: nat, kvHeads: nat, tpSize: nat)
    requires tpSize > 0
    ensures MergeTp(shards, heads, kvHeads, tpSize).Ok?
       <==> && kvHeads > 0 && heads % kvHeads == 0 && shards != [] && |shards[0]| % (heads / kvHeads + 2) == 0
            && AllSplit(shards, heads / kvHeads, |shards[0]| / (heads / kvHeads + 2), kvHeads / tpSize)
  {
    hide MergeShards, AllSplit;
    if kvHeads > 0 && heads % kvHeads == 0 && shards != [] && |shards[0]| % (heads / kvHeads + 2) == 0 {
      MergeShardsExactly(shards, heads / kvHeads, |shards[0]| / (heads / kvHeads + 2), kvHeads / tpSize);
    }
  }

  /** It can succeed on shards that cut a head in two, and scramble the rows: three heads of two rows over two ranks. */
  lemma ThreeHeadsOnTwo(q: seq<int>, k: seq<int>, v: seq<int>)
    requires |q| == |k| == |v| == 6
    ensures MergeTp(RowShards(Interleave(q, k, v, 3, 3, 2), 2), 3, 3, 2)
         == Ok(Qkv([q[0], q[1], k[0], k[3], v[2], v[3]], [k[1], v[0], v[1], q[4], q[5], k[4]], [q[2], q[3], k[2], k[5], v[4], v[5]]))
  {
    hide Interleave, RowShards, MergeTp;
    var t := Interleave(q, k, v, 3, 3, 2);
    ThreeHeads(q, k, v);
    TwoShards(t);
    MergeTwo(t[..9], t[9..]);
    ScrambledRows(q, k, v, t);
  }

  lemma ScrambledRows(q: seq<int>, k: seq<int>, v: seq<int>, t: seq<int>)
    requires |q| == |k| == |v| == 6 && |t| == 18
    requires t == q[..2] + k[..2] + v[..2] + (q[2..4] + k[2..4] + v[2..4]) + (q[4..] + k[4..] + v[4..])
    ensures t[..9][..3] + t[9..][..3] == [q[0], q[1], k[0], k[3], v[2], v[3]]
    ensures t[..9][3..6] + t[9..][3..6] == [k[1], v[0], v[1], q[4], q[5], k[4]]
    ensures t[..9][6..] + t[9..][6..] == [q[2], q[3], k[2], k[5], v[4], v[5]]
  {
    assert t[0] == q[0] && t[1] == q[1] && t[2] == k[0] && t[9] == k[3] && t[10] == v[2] && t[11] == v[3];
    assert t[3] == k[1] && t[4] == v[0] && t[5] == v[1] && t[12] == q[4] && t[13] == q[5] && t[14] == k[4];
    assert t[6] == q[2] && t[7] == q[3] && t[8] == k[2] && t[15] == k[5] && t[16] == v[4] && t[17] == v[5];
    assert t[..9][..3] == [t[0], t[1], t[2]] && t[9..][..3] == [t[9], t[10], t[11]];
    assert t[..9][3..6] == [t[3], t[4], t[5]] && t[9..][3..6] == [t[12], t[13], t[14]];
    assert t[..9][6..] == [t[6], t[7], t[8]] && t[9..][6..] == [t[15], t[16], t[17]];
  }

  lemma TwoShards(t: seq<int>)
    requires |t| == 18
    ensures RowShards(t, 2) == [t[..9], t[9..]]
  {
    assert Pieces(t[9..], 9) == [t[9..]];
  }

  lemma MergeTwo(a: seq<int>, b: seq<int>)
    requires |a| == |b| == 9
    ensures MergeTp([a, b], 3, 3, 2) == Ok(Qkv(a[..3] + b[..3], a[3..6] + b[3..6], a[6..] + b[6..]))
  {
    hide SplitShard;
    var x, y := Qkv(a[..3], a[3..6], a[6..]), Qkv(b[..3], b[3..6], b[6..]);
    NineRows(a, x);
    NineRows(b, y);
    OneShard(b, 1, 3, 1);
    assert [a, b][1..] == [b];
    assert MergeShards([a, b], 1, 3, 1) == Then(x, MergeShards([b], 1, 3, 1));
    assert MergeTp([a, b], 3, 3, 2) == MergeShards([a, b], 1, 3, 1);
  }

  lemma TwoFlat<R>(a: seq<R>, b: seq<R>)
    ensures Flat([a, b]) == a + b
  {
    assert [a, b][1..] == [b] && [b][1..] == [];
    assert Flat([b]) == b + Flat([b][1..]) == b;
  }

  lemma ThreeHeads(q: seq<int>, k: seq<int>, v: seq<int>)
    requires |q| == |k| == |v| == 6
    ensures Interleave(q, k, v, 3, 3, 2)
         == q[..2] + k[..2] + v[..2] + (q[2..4] + k[2..4] + v[2..4]) + (q[4..] + k[4..] + v[4..])
  {
    var b0, b1, b2 := q[..2] + k[..2] + v[..2], q[2..4] + k[2..4] + v[2..4], q[4..] + k[4..] + v[4..];
    assert q[2..][2..] == q[4..] && k[2..][2..] == k[4..] && v[2..][2..] == v[4..];
    assert q[4..][..2] == q[4..] && k[4..][..2] == k[4..] && v[4..][..2] == v[4..];
    assert q[2..][..2] == q[2..4] && k[2..][..2] == k[2..4] && v[2..][..2] == v[2..4];
    NextGroup(q, k, v, 3, 2, 2);
    NextGroup(q[2..], k[2..], v[2..], 2, 2, 2);
    NextGroup(q[4..], k[4..], v[4..], 1, 2, 2);
    var none := Groups(q[4..][2..], k[4..][2..], v[4..][2..], 0, 2, 2);
    assert [b0] + ([b1] + ([b2] + none)) == [b0, b1, b2];
    assert [b0, b1, b2][1..] == [b1, b2];
    TwoFlat(b1, b2);
    assert Flat([b0, b1, b2]) == b0 + Flat([b0, b1, b2][1..]) == b0 + (b1 + b2);
  }

  lemma NextGroup<R>(q: seq<R>, k: seq<R>, v: seq<R>, groups: nat, qs: nat, ks: nat)
    requires groups > 0 && |q| == groups * qs && |k| == groups * ks && |v| == groups * ks
    ensures groups * qs - qs == (groups - 1) * qs && groups * ks - ks == (groups - 1) * ks && qs <= |q| && ks <= |k|
    ensures Groups(q, k, v, groups, qs, ks)
         == [q[..qs] + k[..ks] + v[..ks]] + Groups(q[qs..], k[ks..], v[ks..], groups - 1, qs, ks)
  {
    Division.Peel(groups, qs);
    Division.Peel(groups, ks);
  }

  lemma NineRows(t: seq<int>, r: Qkv<int>)
    requires |t| == 9 && r == Qkv(t[..3], t[3..6], t[6..])
    ensures SplitShard(t, 1, 3, 1) == Ok(r)
  {
    assert ChunkRows(t, 1) == [t];
    assert [t][1..] == [] && Three(t, 3, 3) == r;
    SplitNone<int>(3, 3);
    assert SplitAll([t], 3, 3) == Then(Three(t, 3, 3), SplitAll([t][1..], 3, 3));
  }

  // ---------------------------------------------------------------- gate and up

  /** `gate, up = shard.chunk(2)` on every shard, the halves collected. */
  function MergeHalves<R>(shards: seq<seq<R>>): Result<(seq<R>, seq<R>), LayoutError> {
    if shards == [] then Ok(([], []))
    else if |ChunkRows(shards[0], 2)| != 2 then Err(NotTwoHalves)
    else
      Behind(ChunkRows(shards[0], 2)[0], ChunkRows(shards[0], 2)[1], MergeHalves(shards[1..]))
  }

  method MergeGateUp<R>(shards: seq<seq<R>>) returns (r: Result<(seq<R>, seq<R>), LayoutError>)
    ensures r == MergeHalves(shards)
  {
    var gate, up: seq<R> := [], [];
    for i := 0 to |shards|
      invariant MergeHalves(shards) == Behind(gate, up, MergeHalves(shards[i..]))
    {
      assert shards[i..][0] == shards[i] && shards[i..][1..] == shards[i + 1..];
      var halves := ChunkRows(shards[i], 2);
      if |halves| != 2 { return Err(NotTwoHalves); }
      BehindAssoc(gate, up, halves[0], halves[1], MergeHalves(shards[i + 1..]));
      gate := gate + halves[0];
      up := up + halves[1];
    }
    r := Ok((gate, up));
  }

  function Behind<R>(gate: seq<R>, up: seq<R>, r: Result<(seq<R>, seq<R>), LayoutError>)
      : (s: Result<(seq<R>, seq<R>), LayoutError>)
    ensures gate == up == [] ==> s == r
    ensures r == Ok(([], [])) ==> s == Ok((gate, up))
  {
    match r
    case Err(e) => Err(e)
    case Ok((g, u)) =>
      assert [] + g == g && [] + u == u && gate + [] == gate && up + [] == up;
      Ok((gate + g, up + u))
  }

  lemma BehindAssoc<R>(gate: seq<R>, up: seq<R>, g: seq<R>, u: seq<R>, r: Result<(seq<R>, seq<R>), LayoutError>)
    ensures Behind(gate + g, up + u, r) == Behind(gate, up, Behind(g, u, r))
  {
    if r.Ok? {
      assert gate + g + r.value.0 == gate + (g + r.value.0) && up + u + r.value.1 == up + (u + r.value.1);
    }
  }

  ghost predicate Stacked<R>(shards: seq<seq<R>>, gates: seq<seq<R>>, ups: seq<seq<R>>) {
    && |shards| == |gates| == |ups|
    && forall i :: 0 <= i < |shards| ==> |gates[i]| == |ups[i]| && shards[i] == gates[i] + ups[i]
  }

  /** Merging tensor-parallel shards, each its part of gate on top of its part of up, gives gate and up whole. */
  lemma {:induction false} HalvesRoundTrip<R>(shards: seq<seq<R>>, gates: seq<seq<R>>, ups: seq<seq<R>>)
    requires Stacked(shards, gates, ups)
    ensures MergeHalves(shards) == Ok((Flat(gates), Flat(ups)))
  {
    if shards != [] {
      var pair := [gates[0], ups[0]];
      assert pair[1..] == [ups[0]] && [ups[0]][1..] == [];
      assert Flat(pair[1..]) == ups[0] + Flat([]);
      assert Flat(pair) == gates[0] + ups[0];
      ChunkOfFlat(pair, |gates[0]|);
      HalvesRoundTrip(shards[1..], gates[1..], ups[1..]);
    }
  }

  /** A shard that cannot be unpacked in two is exactly one of a single row. */
  lemma HalvesExactly<R>(shards: seq<seq<R>>)
    ensures MergeHalves(shards).Ok? <==> forall i :: 0 <= i < |shards| ==> |shards[i]| != 1
  {
    if shards != [] {
      HalvesExactly(shards[1..]);
      TwoHalves(shards[0]);
      assert shards == [shards[0]] + shards[1..];
    }
  }

  lemma TwoHalves<R>(t: seq<R>)
    ensures |ChunkRows(t, 2)| == 2 <==> |t| != 1
  {
    if |t| > 1 {
      var size := Division.CeilDiv(|t|, 2);
      assert size < |t| <= 2 * size;
      assert Pieces(t, size) == [t[..size]] + Pieces(t[size..], size);
      assert |Pieces(t[size..], size)| == 1;
    }
  }
}
