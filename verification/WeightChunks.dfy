/** Splitting a stream of named tensors into byte chunks and merging them again
    (verl/checkpoint_engine/base.py). */
module WeightChunks {
  import opened Outcomes

  type Byte = b: int | 0 <= b < 256

  function Numel(shape: seq<nat>): nat {
    if shape == [] then 1 else shape[0] * Numel(shape[1..])
  }

  datatype RawTensor = RawTensor(shape: seq<nat>, itemSize: nat, bytes: seq<Byte>)

  /** A tensor owns exactly the bytes its shape and element size call for. */
  type Tensor = t: RawTensor | |t.bytes| == Numel(t.shape) * t.itemSize witness RawTensor([], 0, [])

  datatype Weight = Weight(name: string, tensor: Tensor)

  /** `offset` is the place in the bucket; it is unset until the sender packs the chunk. */
  datatype TensorMeta = TensorMeta(name: string, shape: seq<nat>, itemSize: nat,
                                   chunkOffset: nat, chunkSize: nat, offset: Option<nat>)

  datatype RawChunk = RawChunk(meta: TensorMeta, bytes: seq<Byte>)

  type Chunk = c: RawChunk | |c.bytes| == c.meta.chunkSize witness RawChunk(TensorMeta("", [], 0, 0, 0, None), [])

  function Min(a: nat, b: nat): nat { if a < b then a else b }

  // ---------------------------------------------------------------- split

  function ChunkAt(w: Weight, off: nat, size: nat): Chunk
    requires off + size <= |w.tensor.bytes|
  {
    RawChunk(TensorMeta(w.name, w.tensor.shape, w.tensor.itemSize, off, size, None), w.tensor.bytes[off..off + size])
  }

  function ChunksFrom(w: Weight, off: nat, bucketSize: nat): seq<Chunk>
    requires bucketSize > 0
    decreases |w.tensor.bytes| - off
  {
    if off >= |w.tensor.bytes| then []
    else
      var size := Min(bucketSize, |w.tensor.bytes| - off);
      [ChunkAt(w, off, size)] + ChunksFrom(w, off + size, bucketSize)
  }

  function Split(ws: seq<Weight>, bucketSize: nat): seq<Chunk>
    requires bucketSize > 0
  {
    if ws == [] then [] else ChunksFrom(ws[0], 0, bucketSize) + Split(ws[1..], bucketSize)
  }

  method SplitWeightChunks(ws: seq<Weight>, bucketSize: nat) returns (chunks: seq<Chunk>)
    requires bucketSize > 0
    ensures chunks == Split(ws, bucketSize)
  {
    chunks := [];
    for i := 0 to |ws|
      invariant chunks + Split(ws[i..], bucketSize) == Split(ws, bucketSize)
    {
      var w := ws[i];
      var chunkOffset := 0;
      ghost var before := chunks;
      assert ws[i..][1..] == ws[i + 1..];
      while chunkOffset < |w.tensor.bytes|
        invariant chunks + ChunksFrom(w, chunkOffset, bucketSize) == before + ChunksFrom(w, 0, bucketSize)
        decreases |w.tensor.bytes| - chunkOffset
      {
        var chunkSize := Min(bucketSize, |w.tensor.bytes| - chunkOffset);
        ghost var rest := ChunksFrom(w, chunkOffset + chunkSize, bucketSize);
        assert chunks + ([ChunkAt(w, chunkOffset, chunkSize)] + rest) == (chunks + [ChunkAt(w, chunkOffset, chunkSize)]) + rest;
        chunks := chunks + [ChunkAt(w, chunkOffset, chunkSize)];
        chunkOffset := chunkOffset + chunkSize;
      }
      assert ChunksFrom(w, chunkOffset, bucketSize) == [];
      assert chunks == before + ChunksFrom(w, 0, bucketSize);
      assert chunks + Split(ws[i + 1..], bucketSize) == before + (ChunksFrom(w, 0, bucketSize) + Split(ws[i + 1..], bucketSize));
    }
  }

  // ---------------------------------------------------------------- merge

  /** The assertions of the merging loop, in order, plus the two slice operations that can fail. */
  datatype MergeError = WeightPending | BadView | OffsetNotZero | NameMismatch | OffsetGap | BadSlice

  datatype MergeState = Idle | Merging(name: string, shape: seq<nat>, itemSize: nat, buffer: seq<Byte>, offset: nat)

  ghost predicate ValidState(st: MergeState) {
    st.Merging? ==> |st.buffer| == Numel(st.shape) * st.itemSize
  }

  function NBytes(m: TensorMeta): nat { Numel(m.shape) * m.itemSize }

  /** torch views bytes as wider elements only where they start at a multiple of the element size. A chunk without a place in
      a bucket starts a tensor of its own. */
  predicate Aligned(m: TensorMeta) { m.offset.Some? && m.itemSize > 1 ==> m.offset.value % m.itemSize == 0 }

  /** Contents of freshly allocated, uninitialised memory: the caller cannot rely on `junk`. */
  function Fresh(n: nat, junk: Byte): (s: seq<Byte>)
    ensures |s| == n
  {
    seq(n, _ => junk)
  }

  function Overwrite(buf: seq<Byte>, off: nat, bytes: seq<Byte>): (r: seq<Byte>)
    requires off + |bytes| <= |buf|
    ensures |r| == |buf|
    ensures r[off..off + |bytes|] == bytes
    ensures forall p :: 0 <= p < |buf| && !(off <= p < off + |bytes|) ==> r[p] == buf[p]
  {
    buf[..off] + bytes + buf[off + |bytes|..]
  }

  /** One iteration: the next state and the weight yielded, if any. */
  function MergeStep(st: MergeState, c: Chunk, bucketSize: nat, junk: Byte): (r: MergeResult)
    requires ValidState(st)
    ensures r.Ok? ==> ValidState(r.value.0)
  {
    var n := NBytes(c.meta);
    if n <= bucketSize then
      if st.Merging? then Err(WeightPending)
      else if |c.bytes| != n || !Aligned(c.meta) then Err(BadView)
      else Ok((Idle, [Weight(c.meta.name, RawTensor(c.meta.shape, c.meta.itemSize, c.bytes))]))
    else if st.Idle? && c.meta.chunkOffset != 0 then Err(OffsetNotZero)
    else
      var st1 := if st.Idle? then Merging(c.meta.name, c.meta.shape, c.meta.itemSize, Fresh(n, junk), 0) else st;
      if c.meta.name != st1.name then Err(NameMismatch)
      else if st1.offset != c.meta.chunkOffset then Err(OffsetGap)
      else if c.meta.chunkOffset + c.meta.chunkSize > |st1.buffer| then Err(BadSlice)
      else
        var buffer := Overwrite(st1.buffer, c.meta.chunkOffset, c.bytes);
        if c.meta.chunkOffset + c.meta.chunkSize == n then
          Ok((Idle, [Weight(st1.name, RawTensor(st1.shape, st1.itemSize, buffer))]))
        else
          Ok((st1.(buffer := buffer, offset := st1.offset + c.meta.chunkSize), []))
  }

  /** A chunk of a whole tensor is accepted exactly between two tensors, with all of its bytes, and starting at a multiple of the
      element size in its bucket. */
  lemma WholeExactly(st: MergeState, c: Chunk, bucketSize: nat, junk: Byte)
    requires ValidState(st) && Numel(c.meta.shape) * c.meta.itemSize <= bucketSize
    ensures MergeStep(st, c, bucketSize, junk).Ok?
       <==> && st.Idle? && |c.bytes| == Numel(c.meta.shape) * c.meta.itemSize
            && (c.meta.offset.None? || c.meta.itemSize <= 1
                || c.meta.offset.value == c.meta.itemSize * (c.meta.offset.value / c.meta.itemSize))
  {
  }

  type MergeResult = Result<(MergeState, seq<Weight>), MergeError>

  function After(ws: seq<Weight>, r: MergeResult): (q: MergeResult)
    ensures ws == [] ==> q == r
    ensures r.Ok? && r.value.1 == [] ==> q == Ok((r.value.0, ws))
  {
    match r
    case Err(e) => r
    case Ok((st, ws2)) =>
      assert ws == [] ==> ws + ws2 == ws2;
      assert ws2 == [] ==> ws + ws2 == ws;
      Ok((st, ws + ws2))
  }

  lemma AfterAfter(a: seq<Weight>, b: seq<Weight>, r: MergeResult)
    ensures After(a, After(b, r)) == After(a + b, r)
  {
    if r.Ok? { assert a + (b + r.value.1) == (a + b) + r.value.1; }
  }

  function MergeFrom(st: MergeState, cs: seq<Chunk>, bucketSize: nat, junk: Byte): (r: MergeResult)
    requires ValidState(st)
    ensures r.Ok? ==> ValidState(r.value.0)
    decreases |cs|
  {
    if cs == [] then Ok((st, []))
    else
      match MergeStep(st, cs[0], bucketSize, junk)
      case Err(e) => Err(e)
      case Ok((st1, ws)) => After(ws, MergeFrom(st1, cs[1..], bucketSize, junk))
  }

  method WriteSlice(buf: array<Byte>, off: nat, bytes: seq<Byte>)
    requires off + |bytes| <= buf.Length
    modifies buf
    ensures buf[..] == Overwrite(old(buf[..]), off, bytes)
  {
    forall p | 0 <= p < |bytes| { buf[off + p] := bytes[p]; }
  }

  /** The receiving loop with its in-place merge buffer. It yields `ws` and ends in state `st`, or raises. */
  method MergeWeightChunks(cs: seq<Chunk>, bucketSize: nat, junk: Byte) returns (r: MergeResult)
    ensures r == MergeFrom(Idle, cs, bucketSize, junk)
  {
    var ws: seq<Weight> := [];
    var mergeName: Option<string> := None;
    var mergeShape: seq<nat>, mergeItemSize: nat, mergeOffset: nat := [], 0, 0;
    var mergeBuffer := new Byte[0];
    ghost var st := Idle;
    for i := 0 to |cs|
      invariant fresh(mergeBuffer)
      invariant ValidState(st)
      invariant st == if mergeName.None? then Idle
                      else Merging(mergeName.value, mergeShape, mergeItemSize, mergeBuffer[..], mergeOffset)
      invariant MergeFrom(Idle, cs, bucketSize, junk) == After(ws, MergeFrom(st, cs[i..], bucketSize, junk))
    {
      var meta, chunk := cs[i].meta, cs[i].bytes;
      var nbytes := NBytes(meta);
      ghost var step := MergeStep(st, cs[i], bucketSize, junk);
      assert cs[i..][0] == cs[i] && cs[i..][1..] == cs[i + 1..];
      if step.Ok? { AfterAfter(ws, step.value.1, MergeFrom(step.value.0, cs[i + 1..], bucketSize, junk)); }
      if nbytes <= bucketSize {
        if mergeName.Some? { return Err(WeightPending); }
        if |chunk| != nbytes || !Aligned(meta) { return Err(BadView); }
        ws := ws + [Weight(meta.name, RawTensor(meta.shape, meta.itemSize, chunk))];
      } else {
        if mergeName.None? {
          if meta.chunkOffset != 0 { return Err(OffsetNotZero); }
          mergeName, mergeShape, mergeItemSize := Some(meta.name), meta.shape, meta.itemSize;
          mergeBuffer := new Byte[nbytes](_ => junk);
          mergeOffset := 0;
          assert mergeBuffer[..] == Fresh(nbytes, junk);
        }
        if meta.name != mergeName.value { return Err(NameMismatch); }
        if mergeOffset != meta.chunkOffset { return Err(OffsetGap); }
        if meta.chunkOffset + meta.chunkSize > mergeBuffer.Length { return Err(BadSlice); }
        WriteSlice(mergeBuffer, meta.chunkOffset, chunk);
        mergeOffset := mergeOffset + meta.chunkSize;
        if meta.chunkOffset + meta.chunkSize == nbytes {
          ws := ws + [Weight(mergeName.value, RawTensor(mergeShape, mergeItemSize, mergeBuffer[..]))];
          mergeName := None;
        }
      }
      st := step.value.0;
    }
    assert cs[|cs|..] == [];
    var final := if mergeName.None? then Idle
                 else Merging(mergeName.value, mergeShape, mergeItemSize, mergeBuffer[..], mergeOffset);
    r := Ok((final, ws));
  }

  // ---------------------------------------------------------------- round trip

  lemma {:induction false} MergeAppend(st: MergeState, a: seq<Chunk>, b: seq<Chunk>, bucketSize: nat, junk: Byte)
    requires ValidState(st) && MergeFrom(st, a, bucketSize, junk).Ok?
    ensures var (st1, ws1) := MergeFrom(st, a, bucketSize, junk).value;
            MergeFrom(st, a + b, bucketSize, junk) == After(ws1, MergeFrom(st1, b, bucketSize, junk))
    decreases |a|
  {
    hide MergeStep, After;
    if a == [] {
      assert a + b == b;
    } else {
      var (st1, ws1) := MergeStep(st, a[0], bucketSize, junk).value;
      var rest := MergeFrom(st1, a[1..], bucketSize, junk);
      MergeFirst(st, a, bucketSize, junk);
      MergeAppend(st1, a[1..], b, bucketSize, junk);
      assert (a + b)[0] == a[0] && (a + b)[1..] == a[1..] + b;
      MergeFirst(st, a + b, bucketSize, junk);
      AfterAfter(ws1, rest.value.1, MergeFrom(rest.value.0, b, bucketSize, junk));
    }
  }

  lemma MergeFirst(st: MergeState, cs: seq<Chunk>, bucketSize: nat, junk: Byte)
    requires ValidState(st) && cs != [] && MergeStep(st, cs[0], bucketSize, junk).Ok?
    ensures var (st1, ws1) := MergeStep(st, cs[0], bucketSize, junk).value;
            var rest := MergeFrom(st1, cs[1..], bucketSize, junk);
            MergeFrom(st, cs, bucketSize, junk) == if rest.Ok? then Ok((rest.value.0, ws1 + rest.value.1)) else rest
  {
    hide MergeStep;
  }

  /** From the middle of a large weight on, merging its remaining chunks completes exactly that weight. */
  lemma {:induction false} MergeTail(w: Weight, st: MergeState, bucketSize: nat, junk: Byte)
    requires 0 < bucketSize < |w.tensor.bytes|
    requires st.Merging? && ValidState(st) && st.name == w.name && st.shape == w.tensor.shape && st.itemSize == w.tensor.itemSize
    requires st.offset < |w.tensor.bytes| && st.buffer[..st.offset] == w.tensor.bytes[..st.offset]
    ensures MergeFrom(st, ChunksFrom(w, st.offset, bucketSize), bucketSize, junk) == Ok((Idle, [w]))
    decreases |w.tensor.bytes| - st.offset
  {
    var bytes, off := w.tensor.bytes, st.offset;
    var size := Min(bucketSize, |bytes| - off);
    var cs, c := ChunksFrom(w, off, bucketSize), ChunkAt(w, off, size);
    assert cs[0] == c && cs[1..] == ChunksFrom(w, off + size, bucketSize);
    var buffer := Overwrite(st.buffer, off, c.bytes);
    assert buffer[..off + size] == bytes[..off + size];
    if off + size == |bytes| {
      assert buffer == buffer[..off + size] && bytes == bytes[..off + size];
      assert MergeStep(st, c, bucketSize, junk) == Ok((Idle, [w]));
      assert MergeFrom(Idle, cs[1..], bucketSize, junk) == Ok((Idle, []));
    } else {
      var st1 := st.(buffer := buffer, offset := off + size);
      assert MergeStep(st, c, bucketSize, junk) == Ok((st1, []));
      MergeTail(w, st1, bucketSize, junk);
    }
  }

  lemma MergeOne(w: Weight, bucketSize: nat, junk: Byte)
    requires bucketSize > 0
    ensures MergeFrom(Idle, ChunksFrom(w, 0, bucketSize), bucketSize, junk) ==
            Ok((Idle, if w.tensor.bytes == [] then [] else [w]))
  {
    var bytes := w.tensor.bytes;
    var cs := ChunksFrom(w, 0, bucketSize);
    if 0 < |bytes| <= bucketSize {
      assert ChunksFrom(w, |bytes|, bucketSize) == [];
      assert cs == [ChunkAt(w, 0, |bytes|)];
      assert cs[0].bytes == bytes;
      assert MergeStep(Idle, cs[0], bucketSize, junk) == Ok((Idle, [w]));
      assert MergeFrom(Idle, cs[1..], bucketSize, junk) == Ok((Idle, []));
    } else if |bytes| > 0 {
      // the first chunk allocates the buffer; from then on it is as if merging had already begun
      var st := Merging(w.name, w.tensor.shape, w.tensor.itemSize, Fresh(|bytes|, junk), 0);
      assert MergeStep(st, cs[0], bucketSize, junk) == MergeStep(Idle, cs[0], bucketSize, junk);
      MergeTail(w, st, bucketSize, junk);
    }
  }

  function NonEmpty(ws: seq<Weight>): seq<Weight> {
    if ws == [] then [] else (if ws[0].tensor.bytes == [] then [] else [ws[0]]) + NonEmpty(ws[1..])
  }

  /** Merging undoes splitting for every bucket size, up to the zero-byte weights, and no assertion fires. */
  lemma {:induction false} RoundTrip(ws: seq<Weight>, bucketSize: nat, junk: Byte)
    requires bucketSize > 0
    ensures MergeFrom(Idle, Split(ws, bucketSize), bucketSize, junk) == Ok((Idle, NonEmpty(ws)))
  {
    if ws != [] {
      MergeOne(ws[0], bucketSize, junk);
      MergeAppend(Idle, ChunksFrom(ws[0], 0, bucketSize), Split(ws[1..], bucketSize), bucketSize, junk);
      RoundTrip(ws[1..], bucketSize, junk);
    }
  }

  function Payload(cs: seq<Chunk>): seq<Byte> {
    if cs == [] then [] else cs[0].bytes + Payload(cs[1..])
  }

  function Contents(ws: seq<Weight>): seq<Byte> {
    if ws == [] then [] else ws[0].tensor.bytes + Contents(ws[1..])
  }

  function Pending(st: MergeState): seq<Byte>
    requires st.Merging? ==> st.offset <= |st.buffer|
  {
    if st.Idle? then [] else st.buffer[..st.offset]
  }

  /** Chunks of one name describe one tensor, and agree with the tensor being merged. */
  ghost predicate Coherent(st: MergeState, cs: seq<Chunk>) {
    && (forall i, j :: 0 <= i < |cs| && 0 <= j < |cs| && cs[i].meta.name == cs[j].meta.name ==> NBytes(cs[i].meta) == NBytes(cs[j].meta))
    && (st.Merging? ==> st.offset <= |st.buffer| && forall i :: 0 <= i < |cs| && cs[i].meta.name == st.name ==> NBytes(cs[i].meta) == |st.buffer|)
  }

  /** A large weight is completed by a chunk that ends where the buffer ends: the chunk that began the weight and the one that
      completes it call it equally long. */
  predicate EndsWhole(st: MergeState, c: Chunk, bucketSize: nat) {
    st.Merging? && NBytes(c.meta) > bucketSize && c.meta.chunkOffset + c.meta.chunkSize == NBytes(c.meta)
    ==> NBytes(c.meta) == |st.buffer|
  }

  predicate AllEndWhole(st: MergeState, cs: seq<Chunk>, bucketSize: nat, junk: Byte)
    requires ValidState(st)
    decreases |cs|
  {
    cs == [] ||
    (EndsWhole(st, cs[0], bucketSize)
     && var r := MergeStep(st, cs[0], bucketSize, junk);
        r.Ok? ==> AllEndWhole(r.value.0, cs[1..], bucketSize, junk))
  }

  /** A step takes in the bytes of its chunk, or puts out more. */
  lemma StepConservesBytes(st: MergeState, c: Chunk, bucketSize: nat, junk: Byte)
    requires ValidState(st) && Started(st) && MergeStep(st, c, bucketSize, junk).Ok?
    ensures var (st1, ws) := MergeStep(st, c, bucketSize, junk).value;
            && Started(st1)
            && |Pending(st)| + |c.bytes| <= |Contents(ws)| + |Pending(st1)|
            && (EndsWhole(st, c, bucketSize) ==> Pending(st) + c.bytes == Contents(ws) + Pending(st1))
            && (!EndsWhole(st, c, bucketSize) ==> |Pending(st)| + |c.bytes| < |Contents(ws)| + |Pending(st1)|)
  {
    var (st1, ws) := MergeStep(st, c, bucketSize, junk).value;
    if ws != [] {
      assert ws[1..] == [];
      assert Contents(ws) == ws[0].tensor.bytes;
    }
  }

  ghost predicate Started(st: MergeState) { st.Merging? ==> st.offset <= |st.buffer| }

  /** However a stream was cut: an accepted one loses, repeats and reorders no byte, so that the bytes yielded followed by the
      bytes still pending are the bytes received, exactly when every large weight is completed where its buffer ends. */
  lemma {:induction false} ConservesExactly(st: MergeState, cs: seq<Chunk>, bucketSize: nat, junk: Byte)
    requires ValidState(st) && Started(st)
    requires MergeFrom(st, cs, bucketSize, junk).Ok?
    ensures var (st2, ws) := MergeFrom(st, cs, bucketSize, junk).value;
            && Started(st2)
            && |Pending(st)| + |Payload(cs)| <= |Contents(ws)| + |Pending(st2)|
            && (Pending(st) + Payload(cs) == Contents(ws) + Pending(st2) <==> AllEndWhole(st, cs, bucketSize, junk))
            && (!AllEndWhole(st, cs, bucketSize, junk) ==> |Pending(st)| + |Payload(cs)| < |Contents(ws)| + |Pending(st2)|)
    decreases |cs|
  {
    if cs != [] {
      hide MergeStep, EndsWhole, Contents, Pending;
      var c := cs[0];
      var (st1, ws1) := MergeStep(st, c, bucketSize, junk).value;
      StepConservesBytes(st, c, bucketSize, junk);
      ConservesExactly(st1, cs[1..], bucketSize, junk);
      var (st2, ws2) := MergeFrom(st1, cs[1..], bucketSize, junk).value;
      ContentsAppend(ws1, ws2);
      if AllEndWhole(st, cs, bucketSize, junk) {
        Regroup(Pending(st), c.bytes, Payload(cs[1..]), Contents(ws1), Pending(st1), Contents(ws2), Pending(st2));
      } else {
        assert |Pending(st) + Payload(cs)| < |Contents(ws1 + ws2) + Pending(st2)|;
      }
    } else {
      assert Contents([]) == [] && Pending(st) + [] == [] + Pending(st);
    }
  }

  /** In particular when chunks of one name describe one tensor. */
  lemma {:induction false} MergeConservesBytes(st: MergeState, cs: seq<Chunk>, bucketSize: nat, junk: Byte)
    requires ValidState(st) && Coherent(st, cs)
    requires MergeFrom(st, cs, bucketSize, junk).Ok?
    ensures var (st2, ws) := MergeFrom(st, cs, bucketSize, junk).value;
            && (st2.Merging? ==> st2.offset <= |st2.buffer|)
            && Pending(st) + Payload(cs) == Contents(ws) + Pending(st2)
  {
    CoherentEndsWhole(st, cs, bucketSize, junk);
    ConservesExactly(st, cs, bucketSize, junk);
  }

  lemma {:induction false} CoherentEndsWhole(st: MergeState, cs: seq<Chunk>, bucketSize: nat, junk: Byte)
    requires ValidState(st) && Coherent(st, cs)
    requires MergeFrom(st, cs, bucketSize, junk).Ok?
    ensures AllEndWhole(st, cs, bucketSize, junk)
    decreases |cs|
  {
    if cs != [] {
      var r := MergeStep(st, cs[0], bucketSize, junk);
      StepCoherent(st, cs, bucketSize, junk);
      CoherentEndsWhole(r.value.0, cs[1..], bucketSize, junk);
    }
  }

  lemma StepCoherent(st: MergeState, cs: seq<Chunk>, bucketSize: nat, junk: Byte)
    requires ValidState(st) && cs != [] && Coherent(st, cs) && MergeStep(st, cs[0], bucketSize, junk).Ok?
    ensures EndsWhole(st, cs[0], bucketSize) && Coherent(MergeStep(st, cs[0], bucketSize, junk).value.0, cs[1..])
  {
    hide Overwrite, Fresh, Aligned;
    var c, st1 := cs[0], MergeStep(st, cs[0], bucketSize, junk).value.0;
    if st1.Merging? {
      assert st1.name == c.meta.name && |st1.buffer| == NBytes(c.meta);
      forall i | 0 <= i < |cs[1..]| && cs[1..][i].meta.name == st1.name ensures NBytes(cs[1..][i].meta) == |st1.buffer| {
        assert cs[1..][i] == cs[i + 1];
      }
    }
  }

  /** For instance two chunks that call one tensor four and three bytes long are accepted, and complete a weight whose last byte
      is whatever the memory held. */
  lemma DisagreeingChunks(junk: Byte)
    ensures var meta := TensorMeta("w", [4], 1, 0, 2, None);
            var cs := [RawChunk(meta, [1, 2]), RawChunk(meta.(shape := [3], chunkOffset := 2, chunkSize := 1), [3])];
            MergeFrom(Idle, cs, 2, junk) == Ok((Idle, [Weight("w", RawTensor([4], 1, [1, 2, 3, junk]))]))
  {
    var meta := TensorMeta("w", [4], 1, 0, 2, None);
    var first: Chunk, second: Chunk := RawChunk(meta, [1, 2]), RawChunk(meta.(shape := [3], chunkOffset := 2, chunkSize := 1), [3]);
    assert [first, second][1..] == [second] && [second][1..] == [];
    assert Numel([4]) == 4 && Numel([3]) == 3 by { assert [4][1..] == [3][1..] == []; }
    var begun := Merging("w", [4], 1, [1, 2, junk, junk], 2);
    assert NBytes(first.meta) == 4 && NBytes(second.meta) == 3;
    assert Overwrite(Fresh(4, junk), 0, [1, 2]) == [1, 2, junk, junk];
    assert Overwrite([1, 2, junk, junk], 2, [3]) == [1, 2, 3, junk];
    assert MergeStep(Idle, first, 2, junk) == Ok((begun, []));
    assert MergeStep(begun, second, 2, junk) == Ok((Idle, [Weight("w", RawTensor([4], 1, [1, 2, 3, junk]))]));
    assert MergeFrom(Idle, [second][1..], 2, junk) == Ok((Idle, []));
    assert MergeFrom(begun, [second], 2, junk) == Ok((Idle, [Weight("w", RawTensor([4], 1, [1, 2, 3, junk]))]));
  }

  lemma Regroup(p: seq<Byte>, c: seq<Byte>, rest: seq<Byte>, w1: seq<Byte>, p1: seq<Byte>, w2: seq<Byte>, p2: seq<Byte>)
    requires p + c == w1 + p1 && p1 + rest == w2 + p2
    ensures p + (c + rest) == (w1 + w2) + p2
  {
    assert p + (c + rest) == (p + c) + rest;
    assert (w1 + p1) + rest == w1 + (p1 + rest);
    assert w1 + (w2 + p2) == (w1 + w2) + p2;
  }

  lemma {:induction false} ContentsAppend(a: seq<Weight>, b: seq<Weight>)
    ensures Contents(a + b) == Contents(a) + Contents(b)
  {
    if a == [] {
      assert a + b == b;
    } else {
      assert (a + b)[1..] == a[1..] + b;
      ContentsAppend(a[1..], b);
    }
  }

  function WithoutOffset(cs: seq<Chunk>): (r: seq<Chunk>)
    ensures |r| == |cs|
    ensures forall i :: 0 <= i < |cs| ==> r[i].bytes == cs[i].bytes && r[i].meta == cs[i].meta.(offset := None)
  {
    seq(|cs|, i requires 0 <= i < |cs| => cs[i].(meta := cs[i].meta.(offset := None)))
  }

  // ---------------------------------------------------------------- the place in the bucket

  /** A weight that is viewed in the bucket lies at a multiple of its element size. */
  predicate Lands(c: Chunk, bucketSize: nat) { NBytes(c.meta) <= bucketSize ==> Aligned(c.meta) }

  predicate AllLand(cs: seq<Chunk>, bucketSize: nat) { forall i :: 0 <= i < |cs| ==> Lands(cs[i], bucketSize) }

  /** The place a chunk has in its bucket decides only whether a small weight can be viewed. */
  lemma {:induction false} MergePlaced(st: MergeState, cs: seq<Chunk>, bucketSize: nat, junk: Byte)
    requires ValidState(st)
    ensures AllLand(cs, bucketSize) ==> MergeFrom(st, cs, bucketSize, junk) == MergeFrom(st, WithoutOffset(cs), bucketSize, junk)
    ensures MergeFrom(st, cs, bucketSize, junk).Ok? ==> AllLand(cs, bucketSize)
    ensures !AllLand(cs, bucketSize) && MergeFrom(st, WithoutOffset(cs), bucketSize, junk).Ok? ==>
              MergeFrom(st, cs, bucketSize, junk) == Err(BadView)
    decreases |cs|
  {
    if cs != [] {
      hide MergeStep, Lands;
      var bare := WithoutOffset(cs);
      var r := MergeStep(st, bare[0], bucketSize, junk);
      StepPlaced(st, cs[0], bucketSize, junk);
      assert bare[0] == cs[0].(meta := cs[0].meta.(offset := None)) && bare[1..] == WithoutOffset(cs[1..]);
      if r.Ok? { MergePlaced(r.value.0, cs[1..], bucketSize, junk); }
      assert AllLand(cs, bucketSize) <==> Lands(cs[0], bucketSize) && AllLand(cs[1..], bucketSize);
    }
  }

  lemma StepPlaced(st: MergeState, c: Chunk, bucketSize: nat, junk: Byte)
    requires ValidState(st)
    ensures var bare := MergeStep(st, c.(meta := c.meta.(offset := None)), bucketSize, junk);
            && (Lands(c, bucketSize) ==> MergeStep(st, c, bucketSize, junk) == bare)
            && (!Lands(c, bucketSize) ==> MergeStep(st, c, bucketSize, junk) == if bare.Ok? then Err(BadView) else bare)
  {
  }

  lemma {:induction false} MergePrefix(st: MergeState, a: seq<Chunk>, cs: seq<Chunk>, bucketSize: nat, junk: Byte)
    requires ValidState(st) && a <= cs && MergeFrom(st, cs, bucketSize, junk).Ok?
    ensures MergeFrom(st, a, bucketSize, junk).Ok?
    decreases |a|
  {
    if a != [] {
      assert a[0] == cs[0] && a[1..] <= cs[1..];
      MergePrefix(MergeStep(st, a[0], bucketSize, junk).value.0, a[1..], cs[1..], bucketSize, junk);
    }
  }
}
