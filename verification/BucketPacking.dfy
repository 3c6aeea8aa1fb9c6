/** The sender's greedy packing of chunks into fixed-size buckets
    (verl/checkpoint_engine/nccl_checkpoint_engine.py and nixl_checkpoint_engine.py, send_weights). */
module BucketPacking {
  import opened Outcomes
  import opened Sequences
  import opened WeightChunks
  import opened Division

  /** The bucket's metadata dictionary in insertion order, each entry with the bytes copied for it. */
  type Bucket = seq<Chunk>

  /** The two assertions made before a chunk is copied into the bucket. */
  datatype PackError = TooLarge | NameTwice

  function SizeOf(c: Chunk): nat { c.meta.chunkSize }

  function Total(cs: seq<Chunk>): nat { TotalBy(cs, SizeOf) }

  function At(c: Chunk, off: nat): Chunk { c.(meta := c.meta.(offset := Some(off))) }

  predicate HasName(b: Bucket, name: string) { exists i :: 0 <= i < |b| && b[i].meta.name == name }

  /** `open` is the bucket being filled and `off` the bytes already in it. */
  function PackFrom(open: Bucket, off: nat, cs: seq<Chunk>, size: nat): PackResult
    decreases |cs|
  {
    if cs == [] then Ok([open])
    else
      var c := cs[0];
      var flush := off + c.meta.chunkSize > size;
      var (open1, off1) := if flush then ([], 0) else (open, off);
      if off1 + c.meta.chunkSize > size then Err(TooLarge)
      else if HasName(open1, c.meta.name) then Err(NameTwice)
      else
        Behind(if flush then [open] else [], PackFrom(open1 + [At(c, off1)], off1 + c.meta.chunkSize, cs[1..], size))
  }

  type PackResult = Result<seq<Bucket>, PackError>

  /** The buckets posted so far, followed by those still to come. */
  function Behind(posted: seq<Bucket>, r: PackResult): (q: PackResult)
    ensures posted == [] ==> q == r
  {
    match r
    case Err(e) => r
    case Ok(bs) => assert posted == [] ==> posted + bs == bs; Ok(posted + bs)
  }

  lemma BehindBehind(a: seq<Bucket>, b: seq<Bucket>, r: PackResult)
    ensures Behind(a, Behind(b, r)) == Behind(a + b, r)
  {
    if r.Ok? { assert a + (b + r.value) == (a + b) + r.value; }
  }

  function Pack(cs: seq<Chunk>, size: nat): PackResult { PackFrom([], 0, cs, size) }

  method PackBuckets(cs: seq<Chunk>, size: nat) returns (r: PackResult)
    ensures r == Pack(cs, size)
  {
    var posted: seq<Bucket> := [];
    var bucketMeta: Bucket := [];
    var offset: nat := 0;
    for i := 0 to |cs|
      invariant Pack(cs, size) == Behind(posted, PackFrom(bucketMeta, offset, cs[i..], size))
    {
      var c := cs[i];
      ghost var rest := cs[i + 1..];
      assert cs[i..][0] == c && cs[i..][1..] == rest;
      ghost var posted0, bucketMeta0 := posted, bucketMeta;
      if offset + c.meta.chunkSize > size {
        posted := posted + [bucketMeta];
        bucketMeta, offset := [], 0;
      }
      if offset + c.meta.chunkSize > size { return Err(TooLarge); }
      if HasName(bucketMeta, c.meta.name) { return Err(NameTwice); }
      bucketMeta := bucketMeta + [At(c, offset)];
      offset := offset + c.meta.chunkSize;
      if posted != posted0 {
        BehindBehind(posted0, [bucketMeta0], PackFrom(bucketMeta, offset, rest, size));
      }
    }
    r := Ok(posted + [bucketMeta]);
  }

  // ---------------------------------------------------------------- what a posted bucket looks like

  /** The entries tile a prefix of the buffer in order, without gap or overlap, and fit. */
  ghost predicate ValidBucket(b: Bucket, size: nat) {
    && Total(b) <= size
    && forall i :: 0 <= i < |b| ==> b[i].meta.offset == Some(Total(b[..i]))
  }

  ghost predicate DistinctNames(b: Bucket) {
    forall i, j :: 0 <= i < j < |b| ==> b[i].meta.name != b[j].meta.name
  }

  lemma TotalAppend(a: seq<Chunk>, b: seq<Chunk>)
    ensures Total(a + b) == Total(a) + Total(b)
  {
    TotalByAppend(a, b, SizeOf);
  }

  lemma TotalExtend(cs: seq<Chunk>, c: Chunk)
    ensures Total(cs + [c]) == Total(cs) + c.meta.chunkSize
  {
    TotalAppend(cs, [c]);
    TotalByOne(c, SizeOf);
  }

  lemma TotalOne(c: Chunk)
    ensures Total([c]) == c.meta.chunkSize && Total([]) == 0
  {
    TotalByOne(c, SizeOf);
  }

  lemma ValidExtend(b: Bucket, c: Chunk, size: nat)
    requires ValidBucket(b, size) && Total(b) + c.meta.chunkSize <= size
    ensures ValidBucket(b + [At(c, Total(b))], size)
  {
    var e := b + [At(c, Total(b))];
    TotalExtend(b, At(c, Total(b)));
    forall i | 0 <= i < |e| ensures e[i].meta.offset == Some(Total(e[..i])) {
      assert e[..i] == b[..i];
      assert b[..|b|] == b;
    }
  }

  /** Entry `i` ends before entry `j` begins, and inside the buffer. */
  lemma {:induction false} EntriesDisjoint(b: Bucket, i: nat, j: nat, size: nat)
    requires ValidBucket(b, size) && i < j <= |b|
    ensures Total(b[..i]) + b[i].meta.chunkSize <= Total(b[..j]) <= size
    decreases |b| - j, j
  {
    hide Total;
    TotalPrefix(b, i + 1, j);
    TotalPrefix(b, j, |b|);
    assert b[..|b|] == b;
    assert b[..i + 1] == b[..i] + [b[i]];
    TotalExtend(b[..i], b[i]);
  }

  lemma TotalPrefix(b: Bucket, i: nat, j: nat)
    requires i <= j <= |b|
    ensures Total(b[..i]) <= Total(b[..j])
  {
    assert b[..j] == b[..i] + b[i..j];
    TotalAppend(b[..i], b[i..j]);
  }

  /** A name comes back only after a chunk that fills a whole bucket: true of every split of distinct weights. */
  ghost predicate FullBeforeRepeat(cs: seq<Chunk>, size: nat) {
    && (forall i :: 0 <= i < |cs| ==> cs[i].meta.chunkSize <= size)
    && (forall i, j :: 0 <= i < j < |cs| && cs[i].meta.name == cs[j].meta.name ==> cs[i].meta.chunkSize == size && cs[j].meta.chunkSize > 0)
  }

  /** Neighbouring buckets do not fit into one. */
  ghost predicate Greedy(bs: seq<Bucket>, size: nat) {
    forall i :: 0 <= i < |bs| - 1 ==> Total(bs[i]) + Total(bs[i + 1]) > size
  }

  ghost predicate Packed(open: Bucket, cs: seq<Chunk>, size: nat, bs: seq<Bucket>) {
    && |bs| > 0
    && (forall i :: 0 <= i < |bs| ==> ValidBucket(bs[i], size) && DistinctNames(bs[i]))
    && (forall i :: 0 <= i < |bs| && bs[i] == [] ==> open + cs == [])
    && Greedy(bs, size)
    && WithoutOffset(Flat(bs)) == WithoutOffset(open) + WithoutOffset(cs)
    && open <= bs[0]
  }

  lemma WithoutOffsetAppend(a: seq<Chunk>, b: seq<Chunk>)
    ensures WithoutOffset(a + b) == WithoutOffset(a) + WithoutOffset(b)
  {
  }

  /** The two ways a chunk enters: into the open bucket, or into a new one behind it. */
  lemma PackedInto(open: Bucket, e: Chunk, c: Chunk, cs: seq<Chunk>, size: nat, bs: seq<Bucket>)
    requires Packed(open + [e], cs, size, bs)
    requires WithoutOffset([e]) == WithoutOffset([c])
    ensures Packed(open, [c] + cs, size, bs)
  {
    hide ValidBucket, DistinctNames, Greedy, Flat, WithoutOffset;
    WithoutOffsetAppend(open, [e]);
    WithoutOffsetAppend([c], cs);
    assert WithoutOffset(open) + WithoutOffset([e]) + WithoutOffset(cs)
        == WithoutOffset(open) + (WithoutOffset([c]) + WithoutOffset(cs));
  }

  lemma TotalOfNone(b: Bucket)
    ensures b == [] ==> Total(b) == 0
  {
  }

  lemma PackedBehind(open: Bucket, e: Chunk, c: Chunk, cs: seq<Chunk>, size: nat, bs: seq<Bucket>)
    requires ValidBucket(open, size) && DistinctNames(open) && c.meta.chunkSize <= size
    requires Packed([e], cs, size, bs)
    requires e.meta.chunkSize == c.meta.chunkSize && Total(open) + c.meta.chunkSize > size
    requires WithoutOffset([e]) == WithoutOffset([c])
    ensures Packed(open, [c] + cs, size, [open] + bs)
  {
    hide ValidBucket, DistinctNames, WithoutOffset, Total;
    var all := [open] + bs;
    assert all[1..] == bs;
    WithoutOffsetAppend([c], cs);
    WithoutOffsetAppend(open, Flat(bs));
    TotalStart(bs[0], e);
    TotalOfNone(open);
    forall i | 0 <= i < |all| ensures ValidBucket(all[i], size) && DistinctNames(all[i]) && all[i] != [] {
      if i > 0 { assert all[i] == bs[i - 1]; }
    }
    forall i | 0 <= i < |all| - 1 ensures Total(all[i]) + Total(all[i + 1]) > size {
      if i > 0 { assert all[i] == bs[i - 1] && all[i + 1] == bs[i - 1 + 1]; }
    }
  }

  lemma {:induction false} PackFromProperties(open: Bucket, cs: seq<Chunk>, size: nat)
    requires ValidBucket(open, size) && DistinctNames(open)
    requires FullBeforeRepeat(open + cs, size)
    ensures PackFrom(open, Total(open), cs, size).Ok?
    ensures Packed(open, cs, size, PackFrom(open, Total(open), cs, size).value)
    decreases |cs|
  {
    if cs == [] {
      PackedDone(open, size);
    } else if Total(open) + cs[0].meta.chunkSize > size {
      var e := At(cs[0], 0);
      Opened(open, e, cs, size);
      FlushStep(open, e, cs, size);
      PackFromProperties([e], cs[1..], size);
      PackedBehind(open, e, cs[0], cs[1..], size, PackFrom([e], Total([e]), cs[1..], size).value);
    } else {
      var e := At(cs[0], Total(open));
      Extended(open, e, cs, size);
      KeepStep(open, e, cs, size);
      PackFromProperties(open + [e], cs[1..], size);
      PackedInto(open, e, cs[0], cs[1..], size, PackFrom(open + [e], Total(open + [e]), cs[1..], size).value);
    }
  }

  lemma FlushStep(open: Bucket, e: Chunk, cs: seq<Chunk>, size: nat)
    requires cs != [] && e == At(cs[0], 0) && Total([e]) == cs[0].meta.chunkSize <= size
    requires Total(open) + cs[0].meta.chunkSize > size
    ensures PackFrom(open, Total(open), cs, size) == Behind([open], PackFrom([e], Total([e]), cs[1..], size))
  {
    assert [] + [e] == [e];
  }

  lemma KeepStep(open: Bucket, e: Chunk, cs: seq<Chunk>, size: nat)
    requires cs != [] && e == At(cs[0], Total(open)) && !HasName(open, cs[0].meta.name)
    requires Total(open + [e]) == Total(open) + cs[0].meta.chunkSize <= size
    ensures PackFrom(open, Total(open), cs, size) == PackFrom(open + [e], Total(open + [e]), cs[1..], size)
  {
  }

  lemma PackedDone(open: Bucket, size: nat)
    requires ValidBucket(open, size) && DistinctNames(open)
    ensures Packed(open, [], size, [open])
  {
    assert Flat([open][1..]) == [] && Flat([open]) == open + [] == open;
    assert open + [] == open;
  }

  lemma Opened(open: Bucket, e: Chunk, cs: seq<Chunk>, size: nat)
    requires cs != [] && e == At(cs[0], 0)
    requires FullBeforeRepeat(open + cs, size)
    ensures cs[0].meta.chunkSize <= size && [cs[0]] + cs[1..] == cs
    ensures ValidBucket([e], size) && DistinctNames([e]) && Total([e]) == cs[0].meta.chunkSize
    ensures FullBeforeRepeat([e] + cs[1..], size)
  {
    hide ValidBucket, Total;
    assert cs[0] == (open + cs)[|open|];
    FirstEntry(e, cs[0], size);
    StillFullBehind(open, e, cs, size);
  }

  lemma FirstEntry(e: Chunk, c: Chunk, size: nat)
    requires e == At(c, 0) && c.meta.chunkSize <= size
    ensures ValidBucket([e], size) && DistinctNames([e]) && Total([e]) == c.meta.chunkSize
  {
    TotalOne(e);
    assert [e][..0] == [];
  }

  lemma StillFullBehind(open: Bucket, e: Chunk, cs: seq<Chunk>, size: nat)
    requires cs != [] && FullBeforeRepeat(open + cs, size)
    requires e.meta.name == cs[0].meta.name && e.meta.chunkSize == cs[0].meta.chunkSize
    ensures [cs[0]] + cs[1..] == cs && FullBeforeRepeat([e] + cs[1..], size)
  {
    hide FullBeforeRepeat;
    assert [cs[0]] + cs[1..] == cs;
    assert [] + [e] == [e];
    StillFull(open, [], e, cs[0], cs[1..], size);
  }

  lemma Extended(open: Bucket, e: Chunk, cs: seq<Chunk>, size: nat)
    requires cs != [] && e == At(cs[0], Total(open)) && Total(open) + cs[0].meta.chunkSize <= size
    requires ValidBucket(open, size) && DistinctNames(open) && FullBeforeRepeat(open + cs, size)
    ensures [cs[0]] + cs[1..] == cs && !HasName(open, cs[0].meta.name)
    ensures ValidBucket(open + [e], size) && DistinctNames(open + [e])
    ensures Total(open + [e]) == Total(open) + cs[0].meta.chunkSize
    ensures FullBeforeRepeat((open + [e]) + cs[1..], size)
  {
    hide FullBeforeRepeat, ValidBucket, Total;
    NoRepeat(open, cs[0], cs, size);
    ValidExtend(open, cs[0], size);
    TotalExtend(open, e);
    assert [cs[0]] + cs[1..] == cs;
    StillFull(open, open, e, cs[0], cs[1..], size);
  }

  lemma StillFull(open: Bucket, open1: Bucket, e: Chunk, c: Chunk, cs: seq<Chunk>, size: nat)
    requires FullBeforeRepeat(open + ([c] + cs), size) && (open1 == [] || open1 == open)
    requires e.meta.name == c.meta.name && e.meta.chunkSize == c.meta.chunkSize
    ensures FullBeforeRepeat((open1 + [e]) + cs, size)
  {
    var all, all1 := open + ([c] + cs), (open1 + [e]) + cs;
    var skip := |open| - |open1|;
    forall i | 0 <= i < |all1|
      ensures all1[i].meta.name == all[skip + i].meta.name && all1[i].meta.chunkSize == all[skip + i].meta.chunkSize
    {
    }
  }

  /** The name assertion: a chunk that still fits cannot share its bucket with a chunk of the same name. */
  lemma NoRepeat(open: Bucket, c: Chunk, cs: seq<Chunk>, size: nat)
    requires FullBeforeRepeat(open + cs, size) && cs != [] && c == cs[0]
    requires ValidBucket(open, size)
    ensures Total(open) + c.meta.chunkSize <= size ==> !HasName(open, c.meta.name)
  {
    if HasName(open, c.meta.name) {
      var i :| 0 <= i < |open| && open[i].meta.name == c.meta.name;
      assert (open + cs)[i] == open[i] && (open + cs)[|open|] == c;
      EntriesDisjoint(open, i, |open|, size);
      assert open[..|open|] == open;
    }
  }

  lemma TotalStart(b: Bucket, e: Chunk)
    requires [e] <= b
    ensures e.meta.chunkSize <= Total(b)
  {
    assert b == [e] + b[1..];
    TotalAppend([e], b[1..]);
    TotalOne(e);
  }

  // ---------------------------------------------------------------- packing the split of a weight list

  ghost predicate DistinctWeights(ws: seq<Weight>) {
    forall i, j :: 0 <= i < j < |ws| ==> ws[i].name != ws[j].name
  }

  /** Chunk `i` of a weight cut into `n`: every chunk but the last one fills a bucket. */
  ghost predicate Cut(c: Chunk, i: int, n: nat, w: Weight, size: nat) {
    && c.meta.name == w.name
    && 0 < c.meta.chunkSize <= size
    && (i < n - 1 ==> c.meta.chunkSize == size)
    && c.meta.offset == None
  }

  ghost predicate CutsOf(cs: seq<Chunk>, w: Weight, size: nat) {
    forall i :: 0 <= i < |cs| ==> Cut(cs[i], i, |cs|, w, size)
  }

  lemma {:induction false} ChunksShape(w: Weight, off: nat, size: nat)
    requires size > 0
    ensures CutsOf(ChunksFrom(w, off, size), w, size)
    decreases |w.tensor.bytes| - off
  {
    if off < |w.tensor.bytes| {
      var next := off + Min(size, |w.tensor.bytes| - off);
      var cs, rest := ChunksFrom(w, off, size), ChunksFrom(w, next, size);
      assert cs == [ChunkAt(w, off, next - off)] + rest;
      ChunksShape(w, next, size);
      assert next == |w.tensor.bytes| ==> rest == [];
      forall i | 0 <= i < |cs| ensures Cut(cs[i], i, |cs|, w, size) {
        if i > 0 { assert cs[i] == rest[i - 1] && Cut(rest[i - 1], i - 1, |rest|, w, size); }
      }
    }
  }

  lemma {:induction false} SplitShape(ws: seq<Weight>, size: nat)
    requires size > 0 && DistinctWeights(ws)
    ensures FullBeforeRepeat(Split(ws, size), size)
    ensures forall i :: 0 <= i < |Split(ws, size)| ==> NamedIn(Split(ws, size)[i], ws)
    ensures WithoutOffset(Split(ws, size)) == Split(ws, size)
  {
    if ws != [] {
      var a, b := ChunksFrom(ws[0], 0, size), Split(ws[1..], size);
      ChunksShape(ws[0], 0, size);
      SplitShape(ws[1..], size);
      forall i | 0 <= i < |b| ensures b[i].meta.name != ws[0].name && NamedIn(b[i], ws) {
        var k :| 0 <= k < |ws[1..]| && b[i].meta.name == ws[1..][k].name;
        assert ws[1..][k] == ws[k + 1];
      }
      forall i | 0 <= i < |a| ensures NamedIn(a[i], ws) {
        assert Cut(a[i], i, |a|, ws[0], size);
      }
      SplitFull(ws[0], a, b, size);
      assert forall i :: 0 <= i < |a| ==> Cut(a[i], i, |a|, ws[0], size);
    }
  }

  ghost predicate NamedIn(c: Chunk, ws: seq<Weight>) {
    exists k :: 0 <= k < |ws| && c.meta.name == ws[k].name
  }

  lemma SplitFull(w: Weight, a: seq<Chunk>, b: seq<Chunk>, size: nat)
    requires CutsOf(a, w, size) && FullBeforeRepeat(b, size)
    requires forall i :: 0 <= i < |b| ==> b[i].meta.name != w.name
    ensures FullBeforeRepeat(a + b, size)
  {
    var cs := a + b;
    forall i | 0 <= i < |cs| ensures cs[i].meta.chunkSize <= size {
      if i < |a| { assert Cut(a[i], i, |a|, w, size); } else { assert cs[i] == b[i - |a|]; }
    }
    forall i, j | 0 <= i < |a| <= j < |cs| ensures cs[i].meta.name != cs[j].meta.name {
      assert Cut(a[i], i, |a|, w, size) && cs[j] == b[j - |a|];
    }
    forall i, j | 0 <= i < j < |cs| && cs[i].meta.name == cs[j].meta.name
      ensures cs[i].meta.chunkSize == size && cs[j].meta.chunkSize > 0
    {
      if j < |a| {
        assert Cut(a[i], i, |a|, w, size) && Cut(a[j], j, |a|, w, size);
      } else if i >= |a| {
        assert b[i - |a|].meta.chunkSize == size;
      }
    }
  }

  /** For weights of distinct names no assertion of the sending loop can fire, and the buckets it posts carry the
      chunks of the split in order, tiled without gap or overlap, never empty unless nothing is sent, with no name
      twice in a bucket, and at most `2 * total / size + 1` of them. */
  lemma PackSplit(ws: seq<Weight>, size: nat)
    requires size > 0 && DistinctWeights(ws)
    ensures var cs := Split(ws, size);
            && Pack(cs, size).Ok?
            && var bs := Pack(cs, size).value;
               && |bs| > 0
               && (forall i :: 0 <= i < |bs| ==> ValidBucket(bs[i], size) && DistinctNames(bs[i]))
               && (forall i :: 0 <= i < |bs| && bs[i] == [] ==> cs == [])
               && WithoutOffset(Flat(bs)) == cs
               && |bs| * size <= 2 * Total(cs) + size
  {
    hide FullBeforeRepeat, ValidBucket, DistinctNames, DistinctWeights, Packed, Total, Flat, WithoutOffset, Pack, Split;
    SplitShape(ws, size);
    var cs := Split(ws, size);
    assert [] + cs == cs;
    PackAll(cs, size);
    var bs := Pack(cs, size).value;
    AllPacked(cs, size, bs);
    CountBound(bs, size);
    TotalWithoutOffset(Flat(bs));
  }

  /** The loop starts from an empty bucket. */
  lemma PackAll(cs: seq<Chunk>, size: nat)
    requires FullBeforeRepeat([] + cs, size)
    ensures Pack(cs, size).Ok? && Packed([], cs, size, Pack(cs, size).value)
  {
    hide FullBeforeRepeat, Packed, PackFrom;
    PackFromProperties([], cs, size);
  }

  lemma AllPacked(cs: seq<Chunk>, size: nat, bs: seq<Bucket>)
    requires Packed([], cs, size, bs) && WithoutOffset(cs) == cs
    ensures |bs| > 0 && Greedy(bs, size) && WithoutOffset(Flat(bs)) == cs
    ensures forall i :: 0 <= i < |bs| ==> ValidBucket(bs[i], size) && DistinctNames(bs[i])
    ensures forall i :: 0 <= i < |bs| && bs[i] == [] ==> cs == []
  {
    hide ValidBucket, DistinctNames, Greedy, Total, Flat;
    assert WithoutOffset([]) + cs == cs;
    assert [] + cs == cs;
  }

  lemma TotalWithoutOffset(cs: seq<Chunk>)
    ensures Total(WithoutOffset(cs)) == Total(cs)
  {
    assert Sizes(WithoutOffset(cs), SizeOf) == Sizes(cs, SizeOf);
  }

  lemma DropTwo(bs: seq<Bucket>, size: nat)
    requires |bs| >= 2 && Greedy(bs, size)
    ensures Greedy(bs[2..], size)
    ensures Total(Flat(bs)) >= size + Total(Flat(bs[2..]))
  {
    assert bs[1..][1..] == bs[2..] && bs[1..][0] == bs[1];
    TotalAppend(bs[0], Flat(bs[1..]));
    TotalAppend(bs[1], Flat(bs[2..]));
    forall i | 0 <= i < |bs[2..]| - 1 ensures Total(bs[2..][i]) + Total(bs[2..][i + 1]) > size {
      assert bs[2..][i] == bs[i + 2] && bs[2..][i + 1] == bs[i + 2 + 1];
    }
  }

  /** Greedy packing uses at most twice the room it needs, plus one bucket. */
  lemma {:induction false} CountBound(bs: seq<Bucket>, size: nat)
    requires Greedy(bs, size)
    ensures |bs| * size <= 2 * Total(Flat(bs)) + size
  {
    hide Greedy, Total, Flat;
    if |bs| >= 2 {
      DropTwo(bs, size);
      CountBound(bs[2..], size);
      Peel(|bs|, size);
      Peel(|bs| - 1, size);
    } else {
      MulMono(|bs|, 1, size);
    }
  }

  // ---------------------------------------------------------------- packing whole weights (Mooncake)

  /** The Mooncake sender does not split: every weight, even an empty one, is one entry. */
  function Whole(ws: seq<Weight>): (cs: seq<Chunk>)
    ensures |cs| == |ws|
    ensures forall i :: 0 <= i < |ws| ==> cs[i] == ChunkAt(ws[i], 0, |ws[i].tensor.bytes|)
  {
    if ws == [] then [] else [ChunkAt(ws[0], 0, |ws[0].tensor.bytes|)] + Whole(ws[1..])
  }

  lemma {:induction false} PackTooLarge(open: Bucket, off: nat, cs: seq<Chunk>, size: nat)
    requires exists i :: 0 <= i < |cs| && cs[i].meta.chunkSize > size
    ensures PackFrom(open, off, cs, size).Err?
    decreases |cs|
  {
    var c := cs[0];
    var (open1, off1) := if off + c.meta.chunkSize > size then ([], 0) else (open, off);
    if c.meta.chunkSize <= size && !HasName(open1, c.meta.name) {
      var i :| 0 <= i < |cs| && cs[i].meta.chunkSize > size;
      assert cs[1..][i - 1] == cs[i];
      PackTooLarge(open1 + [At(c, off1)], off1 + c.meta.chunkSize, cs[1..], size);
    }
  }

  lemma WholeFull(ws: seq<Weight>, size: nat)
    requires DistinctWeights(ws) && forall i :: 0 <= i < |ws| ==> |ws[i].tensor.bytes| <= size
    ensures FullBeforeRepeat([] + Whole(ws), size)
  {
    assert [] + Whole(ws) == Whole(ws);
  }

  /** Whole weights of distinct names can be sent exactly when each of them fits into a bucket. */
  lemma PackWhole(ws: seq<Weight>, size: nat)
    requires DistinctWeights(ws)
    ensures Pack(Whole(ws), size).Ok? <==> forall i :: 0 <= i < |ws| ==> |ws[i].tensor.bytes| <= size
    ensures Pack(Whole(ws), size).Ok? ==> Packed([], Whole(ws), size, Pack(Whole(ws), size).value)
    ensures WithoutOffset(Whole(ws)) == Whole(ws)
  {
    hide Packed, FullBeforeRepeat, PackFrom, ChunkAt;
    var cs := Whole(ws);
    if forall i :: 0 <= i < |ws| ==> |ws[i].tensor.bytes| <= size {
      WholeFull(ws, size);
      PackFromProperties([], cs, size);
    } else {
      var i :| 0 <= i < |ws| && |ws[i].tensor.bytes| > size;
      ChunkAtSize(ws[i]);
      assert cs[i].meta.chunkSize > size;
      PackTooLarge([], 0, cs, size);
    }
    WholeUnplaced(ws);
  }

  lemma ChunkAtSize(w: Weight)
    ensures ChunkAt(w, 0, |w.tensor.bytes|).meta.chunkSize == |w.tensor.bytes|
  {
  }

  lemma WholeUnplaced(ws: seq<Weight>)
    ensures WithoutOffset(Whole(ws)) == Whole(ws)
  {
  }
}
