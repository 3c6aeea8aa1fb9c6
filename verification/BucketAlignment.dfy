/** Where the packing puts weights of several element sizes: a weight is handed on as a view of its bytes in the bucket, which
    torch refuses where they do not start at a multiple of the element size
    (verl/checkpoint_engine/base.py, merge_weight_chunks; mooncake_checkpoint_engine.py, receive_weights). */
module BucketAlignment {
  import opened Outcomes
  import opened Sequences
  import opened WeightChunks
  import opened BucketPacking
  import Division

  /** Every weight that fits a bucket lies in its bucket at a multiple of its element size. */
  ghost predicate AllAligned(bs: seq<Bucket>, size: nat) {
    forall k, i :: 0 <= k < |bs| && 0 <= i < |bs[k]| ==> Lands(bs[k][i], size)
  }

  lemma {:induction false} FlatLands(bs: seq<Bucket>, size: nat)
    ensures AllLand(Flat(bs), size) <==> AllAligned(bs, size)
  {
    hide Lands;
    if bs != [] {
      FlatLands(bs[1..], size);
      LandsBoth(bs[0], Flat(bs[1..]), size);
      FirstAligned(bs, size);
    }
  }

  lemma FirstAligned(bs: seq<Bucket>, size: nat)
    requires bs != []
    ensures AllAligned(bs, size) <==> AllLand(bs[0], size) && AllAligned(bs[1..], size)
  {
    hide Lands;
    if AllAligned(bs, size) {
      forall k, i | 0 <= k < |bs[1..]| && 0 <= i < |bs[1..][k]| ensures Lands(bs[1..][k][i], size) {
        assert bs[1..][k] == bs[k + 1];
      }
    }
    if AllLand(bs[0], size) && AllAligned(bs[1..], size) {
      forall k, i | 0 <= k < |bs| && 0 <= i < |bs[k]| ensures Lands(bs[k][i], size) {
        if k > 0 { assert bs[k] == bs[1..][k - 1]; }
      }
    }
  }

  lemma LandsBoth(a: seq<Chunk>, b: seq<Chunk>, size: nat)
    ensures AllLand(a + b, size) <==> AllLand(a, size) && AllLand(b, size)
  {
    hide Lands;
    if AllLand(a + b, size) {
      forall i | 0 <= i < |a| ensures Lands(a[i], size) { assert (a + b)[i] == a[i]; }
      forall i | 0 <= i < |b| ensures Lands(b[i], size) { assert (a + b)[|a| + i] == b[i]; }
    }
  }

  // ---------------------------------------------------------------- one element size

  /** The chunk is of elements of d bytes, a whole number of them. */
  predicate Of(c: Chunk, d: nat)
    requires d > 0
  {
    c.meta.itemSize == d && c.meta.chunkSize % d == 0
  }

  predicate AllOf(cs: seq<Chunk>, d: nat)
    requires d > 0
  {
    forall i :: 0 <= i < |cs| ==> Of(cs[i], d)
  }

  lemma {:induction false} ChunksOf(w: Weight, off: nat, size: nat, d: nat)
    requires size > 0 && d > 0 && size % d == 0 && off % d == 0 && w.tensor.itemSize == d
    ensures AllOf(ChunksFrom(w, off, size), d)
    decreases |w.tensor.bytes| - off
  {
    if off < |w.tensor.bytes| {
      BytesOf(w);
      Division.SumMultiple(|w.tensor.bytes|, off, d);
      var n := Min(size, |w.tensor.bytes| - off);
      Division.SumMultiple(off, n, d);
      ChunksOf(w, off + n, size, d);
    }
  }

  lemma BytesOf(w: Weight)
    requires w.tensor.itemSize > 0
    ensures |w.tensor.bytes| % w.tensor.itemSize == 0
  {
    Division.Exact(w.tensor.itemSize, Numel(w.tensor.shape));
  }

  lemma {:induction false} SplitOf(ws: seq<Weight>, size: nat, d: nat)
    requires size > 0 && d > 0 && size % d == 0 && forall i :: 0 <= i < |ws| ==> ws[i].tensor.itemSize == d
    ensures AllOf(Split(ws, size), d)
  {
    hide Of;
    if ws != [] {
      Division.Unique(0, d, 0, 0);
      ChunksOf(ws[0], 0, size, d);
      SplitOf(ws[1..], size, d);
    }
  }

  lemma {:induction false} TotalOf(b: Bucket, d: nat)
    requires d > 0 && AllOf(b, d)
    ensures Total(b) % d == 0
    decreases |b|
  {
    if b == [] {
      Division.Unique(0, d, 0, 0);
    } else {
      var n := |b| - 1;
      assert b == b[..n] + [b[n]] && Of(b[n], d);
      TotalOf(b[..n], d);
      TotalExtend(b[..n], b[n]);
      Division.SumMultiple(Total(b[..n]), b[n].meta.chunkSize, d);
    }
  }

  lemma {:induction false} BucketsOf(bs: seq<Bucket>, d: nat, k: nat)
    requires d > 0 && AllOf(Flat(bs), d) && k < |bs|
    ensures AllOf(bs[k], d)
  {
    hide Of;
    var rest := Flat(bs[1..]);
    assert Flat(bs) == bs[0] + rest;
    if k == 0 {
      forall i | 0 <= i < |bs[0]| ensures Of(bs[0][i], d) { assert Flat(bs)[i] == bs[0][i]; }
    } else {
      forall i | 0 <= i < |rest| ensures Of(rest[i], d) { assert Flat(bs)[|bs[0]| + i] == rest[i]; }
      BucketsOf(bs[1..], d, k - 1);
    }
  }

  /** Entries of a tiled bucket of one element size start at multiples of it. */
  lemma OffsetsOf(b: Bucket, size: nat, d: nat, i: nat)
    requires d > 0 && ValidBucket(b, size) && AllOf(b, d) && i < |b|
    ensures b[i].meta.offset.Some? && b[i].meta.offset.value % d == 0
  {
    assert AllOf(b[..i], d);
    TotalOf(b[..i], d);
  }

  lemma OffsetsAside(cs: seq<Chunk>, d: nat)
    requires d > 0 && AllOf(WithoutOffset(cs), d)
    ensures AllOf(cs, d)
  {
    forall i | 0 <= i < |cs| ensures Of(cs[i], d) { assert Of(WithoutOffset(cs)[i], d); }
  }

  /** With one element size for all weights, which the bucket size is a multiple of, every packing is aligned. */
  lemma OneElementSize(ws: seq<Weight>, size: nat, d: nat)
    requires size > 0 && DistinctWeights(ws) && d > 0 && size % d == 0
    requires forall i :: 0 <= i < |ws| ==> ws[i].tensor.itemSize == d
    ensures Pack(Split(ws, size), size).Ok? && AllAligned(Pack(Split(ws, size), size).value, size)
  {
    hide Pack, Split, Flat, Of, AllOf, ValidBucket, Total;
    PackSplit(ws, size);
    SplitOf(ws, size, d);
    var bs := Pack(Split(ws, size), size).value;
    OffsetsAside(Flat(bs), d);
    forall k, i | 0 <= k < |bs| && 0 <= i < |bs[k]| ensures Lands(bs[k][i], size) {
      BucketsOf(bs, d, k);
      OffsetsOf(bs[k], size, d, i);
      ItemSize(bs[k], d, i);
    }
  }

  lemma ItemSize(b: Bucket, d: nat, i: nat)
    requires d > 0 && AllOf(b, d) && i < |b|
    ensures b[i].meta.itemSize == d
  {
    assert Of(b[i], d);
  }

  /** With two it need not be: two bytes, then a number of four bytes at offset two. */
  lemma MixedElementSizes(junk: Byte)
    ensures var ws := [Weight("a", RawTensor([1], 2, [1, 2])), Weight("b", RawTensor([1], 4, [3, 4, 5, 6]))];
            && DistinctWeights(ws) && Pack(Split(ws, 6), 6).Ok?
            && !AllAligned(Pack(Split(ws, 6), 6).value, 6)
            && MergeFrom(Idle, Flat(Pack(Split(ws, 6), 6).value), 6, junk) == Err(BadView)
  {
    assert Numel([1]) == 1 by { assert [1][1..] == []; }
    var a, b := Weight("a", RawTensor([1], 2, [1, 2])), Weight("b", RawTensor([1], 4, [3, 4, 5, 6]));
    var ws := [a, b];
    var x, y := ChunkAt(a, 0, 2), ChunkAt(b, 0, 4);
    OneChunk(a, 6);
    OneChunk(b, 6);
    assert ws[1..] == [b] && [b][1..] == [];
    assert Split([b], 6) == [y] + Split([b][1..], 6) == [y];
    assert Split(ws, 6) == [x] + Split(ws[1..], 6) == [x, y];
    TwoFit(x, y, 6);
    var bucket: Bucket := [At(x, 0), At(y, 2)];
    var bs: seq<Bucket> := [bucket];
    assert bs[1..] == [] && Flat(bs) == bucket + Flat(bs[1..]) == bucket;
    assert !Lands(bucket[1], 6) && bs[0][1] == bucket[1];
    PackSplit(ws, 6);
    RoundTrip(ws, 6, junk);
    MergePlaced(Idle, bucket, 6, junk);
  }

  lemma OneChunk(w: Weight, size: nat)
    requires 0 < |w.tensor.bytes| <= size
    ensures ChunksFrom(w, 0, size) == [ChunkAt(w, 0, |w.tensor.bytes|)]
  {
    assert ChunksFrom(w, |w.tensor.bytes|, size) == [];
  }

  lemma TwoFit(x: Chunk, y: Chunk, size: nat)
    requires x.meta.chunkSize + y.meta.chunkSize <= size && x.meta.name != y.meta.name
    ensures Pack([x, y], size) == Ok([[At(x, 0), At(y, x.meta.chunkSize)]])
  {
    var first, second := At(x, 0), At(y, x.meta.chunkSize);
    assert [x, y][1..] == [y] && [y][1..] == [];
    assert [] + [first] == [first] && [first] + [second] == [first, second];
    assert PackFrom([first, second], x.meta.chunkSize + y.meta.chunkSize, [y][1..], size) == Ok([[first, second]]);
    assert PackFrom([first], x.meta.chunkSize, [y], size) == Ok([[first, second]]);
  }

  // ---------------------------------------------------------------- Mooncake

  lemma {:induction false} WholeOf(ws: seq<Weight>, d: nat)
    requires d > 0 && forall i :: 0 <= i < |ws| ==> ws[i].tensor.itemSize == d
    ensures AllOf(Whole(ws), d)
  {
    forall i | 0 <= i < |ws| ensures Of(Whole(ws)[i], d) { BytesOf(ws[i]); }
  }

  /** Where bucket k starts: Mooncake's two buckets are the halves of one buffer, used in turn. */
  function HalfAt(k: nat, size: nat): nat { if k % 2 == 0 then 0 else size }

  /** Entry i of bucket k can be viewed. */
  predicate InHalf(b: Bucket, k: nat, i: nat, size: nat, d: nat)
    requires i < |b| && d > 0
  {
    b[i].meta.offset.Some? && (HalfAt(k, size) + b[i].meta.offset.value) % d == 0
  }

  /** Mooncake gives all weights one element size d. Then all its views succeed exactly when the second half starts at a multiple
      of d, or is not used. */
  lemma {:induction false} MooncakeViews(ws: seq<Weight>, size: nat, d: nat, bs: seq<Bucket>)
    requires d > 0 && DistinctWeights(ws) && Pack(Whole(ws), size) == Ok(bs)
    requires forall i :: 0 <= i < |ws| ==> ws[i].tensor.itemSize == d
    ensures (forall k, i :: 0 <= k < |bs| && 0 <= i < |bs[k]| ==> InHalf(bs[k], k, i, size, d)) <==> size % d == 0 || |bs| == 1
  {
    hide Pack, Packed, Whole, Flat, Of, AllOf, ValidBucket, Total, InHalf;
    PackWhole(ws, size);
    AllPacked(Whole(ws), size, bs);
    WholeOf(ws, d);
    OffsetsAside(Flat(bs), d);
    forall k, i | 0 <= k < |bs| && 0 <= i < |bs[k]| ensures InHalf(bs[k], k, i, size, d) <==> k % 2 == 0 || size % d == 0 {
      BucketsOf(bs, d, k);
      OffsetsOf(bs[k], size, d, i);
      HalfStarts(bs[k], k, i, size, d);
    }
    if |bs| > 1 {
      SecondUsed(ws, size, bs);
      assert InHalf(bs[1], 1, 0, size, d) <==> size % d == 0;
    }
  }

  lemma HalfStarts(b: Bucket, k: nat, i: nat, size: nat, d: nat)
    requires d > 0 && i < |b| && b[i].meta.offset.Some? && b[i].meta.offset.value % d == 0
    ensures InHalf(b, k, i, size, d) <==> k % 2 == 0 || size % d == 0
  {
    var off, start := b[i].meta.offset.value, HalfAt(k, size);
    Division.Unique(0, d, 0, 0);
    if start % d == 0 { Division.SumMultiple(start, off, d); }
    if (start + off) % d == 0 { Division.SumMultiple(start + off, off, d); }
  }

  lemma {:induction false} SecondUsed(ws: seq<Weight>, size: nat, bs: seq<Bucket>)
    requires DistinctWeights(ws) && Pack(Whole(ws), size) == Ok(bs) && |bs| > 1
    ensures bs[1] != []
  {
    PackWhole(ws, size);
    AllPacked(Whole(ws), size, bs);
  }
}
