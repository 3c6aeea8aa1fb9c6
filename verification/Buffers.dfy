/** Two-buffer memory shared by the weight-transfer protocols: what it means for a buffer to hold a bucket,
    and how single-byte transfers and in-place writes change that. */
module Buffers {
  import opened WeightChunks
  import opened BucketPacking
  import opened Outcomes
  import opened Sequences

  /** Index of one of the two buffers of a rank. */
  type Bit = i: int | 0 <= i < 2

  function Other(i: Bit): Bit { 1 - i }

  type Buffer = seq<Byte>
  type TwoBuffers = b: seq<Buffer> | |b| == 2 witness [[], []]

  /** What travels with a bucket: the descriptions of its entries, and whether it is the last bucket. */
  datatype Metadata = Metadata(entries: seq<TensorMeta>, isLast: bool)

  function MetaOf(buckets: seq<Bucket>, k: nat): Metadata
    requires k < |buckets|
  {
    var b := buckets[k];
    Metadata(seq(|b|, i requires 0 <= i < |b| => b[i].meta), k == |buckets| - 1)
  }

  predicate InRange(m: TensorMeta, buf: Buffer) {
    m.offset.Some? && m.offset.value + m.chunkSize <= |buf|
  }

  /** The slice of the buffer a receiver yields for an entry. */
  function View(buf: Buffer, m: TensorMeta): Chunk
    requires InRange(m, buf)
  {
    RawChunk(m, buf[m.offset.value..m.offset.value + m.chunkSize])
  }

  /** The first `j` entries of the bucket are in the buffer, at their offsets. */
  ghost predicate HoldsPrefix(buf: Buffer, b: Bucket, j: nat)
    requires j <= |b|
  {
    forall i :: 0 <= i < j ==> InRange(b[i].meta, buf) && View(buf, b[i].meta) == b[i]
  }

  ghost predicate Holds(buf: Buffer, b: Bucket) { HoldsPrefix(buf, b, |b|) }

  lemma MetaEntries(buckets: seq<Bucket>, k: nat)
    requires k < |buckets|
    ensures MetaOf(buckets, k).isLast == (k == |buckets| - 1)
    ensures |MetaOf(buckets, k).entries| == |buckets[k]|
    ensures forall i :: 0 <= i < |buckets[k]| ==> MetaOf(buckets, k).entries[i] == buckets[k][i].meta
  {
  }

  lemma HeldEntry(buf: Buffer, b: Bucket, i: nat)
    requires Holds(buf, b) && i < |b|
    ensures InRange(b[i].meta, buf) && View(buf, b[i].meta) == b[i]
  {
  }

  lemma EntryFits(b: Bucket, i: nat, size: nat)
    requires ValidBucket(b, size) && i < |b|
    ensures b[i].meta.offset.Some? && b[i].meta.offset.value + b[i].meta.chunkSize <= size
  {
    EntriesDisjoint(b, i, |b|, size);
    assert b[..|b|] == b;
  }

  function Write(buf: Buffer, c: Chunk): (r: Buffer)
    requires InRange(c.meta, buf)
    ensures |r| == |buf|
  {
    Overwrite(buf, c.meta.offset.value, c.bytes)
  }

  lemma EarlierKept(buf: Buffer, b: Bucket, i: nat, j: nat)
    requires ValidBucket(b, |buf|) && i < j < |b| && InRange(b[j].meta, buf)
    requires InRange(b[i].meta, buf) && View(buf, b[i].meta) == b[i]
    ensures View(Write(buf, b[j]), b[i].meta) == b[i]
  {
    hide Total;
    EntriesDisjoint(b, i, j, |buf|);
    var w := Write(buf, b[j]);
    var off, end := b[i].meta.offset.value, b[i].meta.offset.value + b[i].meta.chunkSize;
    assert forall p :: off <= p < end ==> w[p] == buf[p];
    assert w[off..end] == buf[off..end];
  }

  lemma JustWritten(buf: Buffer, c: Chunk)
    requires InRange(c.meta, buf) && |c.bytes| == c.meta.chunkSize
    ensures View(Write(buf, c), c.meta) == c
  {
  }

  /** Writing the next entry keeps the entries before it: their places do not overlap. */
  lemma WriteNext(buf: Buffer, b: Bucket, j: nat)
    requires ValidBucket(b, |buf|) && j < |b| && HoldsPrefix(buf, b, j)
    ensures InRange(b[j].meta, buf)
    ensures HoldsPrefix(Write(buf, b[j]), b, j + 1)
  {
    hide ValidBucket, View, Write;
    EntryFits(b, j, |buf|);
    var w := Write(buf, b[j]);
    forall i | 0 <= i < j + 1 ensures InRange(b[i].meta, w) && View(w, b[i].meta) == b[i] {
      if i < j { EarlierKept(buf, b, i, j); } else { JustWritten(buf, b[j]); }
    }
  }

  /** The positions of a buffer of `n` bytes. */
  function Positions(n: nat): (r: set<nat>)
    ensures forall p: nat :: p in r <==> p < n
    ensures |r| == n
  {
    if n == 0 then {} else Positions(n - 1) + {n - 1}
  }

  lemma CopiedBound(copied: set<nat>, n: nat)
    requires copied <= Positions(n)
    ensures |copied| <= n
  {
    SubsetSize(copied, Positions(n));
  }

  /** The positions already copied agree with the source. */
  ghost predicate Agrees(dst: Buffer, src: Buffer, copied: set<nat>) {
    forall p :: p in copied ==> p < |dst| && p < |src| && dst[p] == src[p]
  }

  lemma FullCopy(dst: Buffer, src: Buffer, copied: set<nat>)
    requires |dst| == |src| && Agrees(dst, src, copied) && Positions(|dst|) <= copied
    ensures dst == src
  {
    forall p | 0 <= p < |dst| ensures dst[p] == src[p] { assert p in Positions(|dst|); }
  }

  lemma SameView(dst: Buffer, src: Buffer, copied: set<nat>, m: TensorMeta, top: nat)
    requires |dst| == |src| && Agrees(dst, src, copied) && Positions(top) <= copied
    requires InRange(m, src) && m.offset.value + m.chunkSize <= top
    ensures InRange(m, dst) && View(dst, m) == View(src, m)
  {
    hide Positions;
    var off, end := m.offset.value, m.offset.value + m.chunkSize;
    forall p | off <= p < end ensures dst[p] == src[p] { assert p in Positions(top); }
    assert dst[off..end] == src[off..end];
  }

  /** It is enough to copy the bytes the bucket occupies. */
  lemma PartialCopy(dst: Buffer, src: Buffer, copied: set<nat>, b: Bucket)
    requires |dst| == |src| && Agrees(dst, src, copied) && Positions(Total(b)) <= copied
    requires ValidBucket(b, |src|) && Holds(src, b)
    ensures Holds(dst, b)
  {
    hide View, InRange, Agrees, Positions, Total, ValidBucket;
    forall i | 0 <= i < |b| ensures InRange(b[i].meta, dst) && View(dst, b[i].meta) == b[i] {
      HeldEntry(src, b, i);
      EntryBelow(b, i, |src|);
      SameView(dst, src, copied, b[i].meta, Total(b));
    }
  }

  lemma EntryBelow(b: Bucket, i: nat, size: nat)
    requires ValidBucket(b, size) && i < |b|
    ensures b[i].meta.offset.Some? && b[i].meta.offset.value + b[i].meta.chunkSize <= Total(b)
  {
    EntriesDisjoint(b, i, |b|, size);
    assert b[..|b|] == b;
  }

  lemma FlatExtend(buckets: seq<Bucket>, k: nat)
    requires k < |buckets|
    ensures Flat(buckets[..k + 1]) == Flat(buckets[..k]) + buckets[k]
  {
    assert buckets[..k + 1] == buckets[..k] + [buckets[k]];
    FlatPush(buckets[..k], buckets[k]);
  }

  lemma FlatPrefix(buckets: seq<Bucket>, k: nat, j: nat)
    requires k < |buckets| && j <= |buckets[k]|
    ensures Flat(buckets[..k]) + buckets[k][..j] <= Flat(buckets)
  {
    FlatExtend(buckets, k);
    assert buckets == buckets[..k + 1] + buckets[k + 1..];
    FlatAppend(buckets[..k + 1], buckets[k + 1..]);
    var all := Flat(buckets);
    assert all == (Flat(buckets[..k]) + buckets[k]) + Flat(buckets[k + 1..]);
    assert buckets[k] == buckets[k][..j] + buckets[k][j..];
    assert all == (Flat(buckets[..k]) + buckets[k][..j]) + (buckets[k][j..] + Flat(buckets[k + 1..]));
  }

  /** `size` bytes per buffer; `buckets` as packed by rank 0; rollout ranks are 1 to `last`. */
  datatype Config = Config(size: nat, buckets: seq<Bucket>, last: nat)

  ghost predicate ValidConfig(c: Config) {
    && |c.buckets| > 0 && c.last > 0
    && forall k :: 0 <= k < |c.buckets| ==> ValidBucket(c.buckets[k], c.size)
  }

  function Bucketed(c: Config, i: nat): Bucket { if i < |c.buckets| then c.buckets[i] else [] }

  function MaxEntries(bs: seq<Bucket>): (n: nat)
    ensures forall k :: 0 <= k < |bs| ==> |bs[k]| <= n
  {
    if bs == [] then 0 else
      var n := MaxEntries(bs[1..]);
      assert forall k :: 0 < k < |bs| ==> bs[k] == bs[1..][k - 1];
      if |bs[0]| > n then |bs[0]| else n
  }

  lemma Product(a: nat, b: nat, n: nat)
    requires a <= b
    ensures a * n + n <= (b + 1) * n
  {
    assert (b + 1) * n == b * n + n && a * n <= b * n;
  }
}
