/** Cutting a DataProto into pieces and joining them again (verl/protocol.py): chunk, split and DataProtoFuture. */
module DataChunks {
  import opened DataRows
  import opened Outcomes
  import opened Sequences
  import Division
  import TorchRows

  function Nth<C>(pieces: seq<Col<C>>, i: nat): Col<C> { if i < |pieces| then pieces[i] else [] }

  // ---------------------------------------------------------------- the two libraries

  /** The sizes of torch's pieces of n rows. */
  function TorchSizes(n: nat, chunks: nat): seq<nat>
    requires chunks > 0
  {
    if n == 0 then seq(chunks, _ => 0) else SplitSizes(n, Division.CeilDiv(n, chunks))
  }

  function SplitSizes(n: nat, size: nat): (s: seq<nat>)
    requires size > 0
    ensures s != []
  {
    if n <= size then [n] else [size] + SplitSizes(n - size, size)
  }

  /** numpy's array_split at the given cut points, the first piece starting at `lo`. */
  function ArrayCut<C>(c: Col<C>, lo: nat, cuts: seq<nat>): seq<Col<C>>
    decreases |cuts|
  {
    if cuts == [] then [SliceCol(c, lo, |c|)] else [SliceCol(c, lo, cuts[0])] + ArrayCut(c, cuts[0], cuts[1..])
  }

  /** numpy's cumsum. */
  function CumSum(sizes: seq<nat>, base: nat): (s: seq<nat>)
    ensures |s| == |sizes|
  {
    if sizes == [] then [] else [base + sizes[0]] + CumSum(sizes[1..], base + sizes[0])
  }

  /** The sizes of numpy's array_split into `chunks` pieces: the first n % chunks are one longer. */
  function NumpySizes(n: nat, chunks: nat): (s: seq<nat>)
    requires chunks > 0
    ensures |s| == chunks
  {
    seq(n % chunks, _ => n / chunks + 1) + seq(chunks - n % chunks, _ => n / chunks)
  }

  // ---------------------------------------------------------------- chunk

  function Cuts(sizes: seq<nat>): seq<nat>
    requires sizes != []
  {
    CumSum(sizes, 0)[..|sizes| - 1]
  }

  /** DataProto.chunk. */
  function Chunk<C>(d: Data<C>, chunks: nat, padding: bool): Result<seq<Data<C>>, DataError>
    requires Aligned(d)
  {
    if chunks == 0 then if padding && d.batch.None? && d.arrays == [] then Ok([]) else Err(ZeroDivisor)
    else if !padding && Len(d) % chunks != 0 then Err(UnequalChunks)
    else if d.batch.Some? then
      var sizes := TorchSizes(Len(d), chunks);
      if |sizes| != chunks then Err(TooFewChunks)
      else Ok(seq(chunks, i requires 0 <= i < chunks =>
        Data(Some(Batch(sizes[i], MapCols(d.batch.value.cols, c => Nth(TorchRows.ChunkRows(c, chunks), i)))),
             MapCols(d.arrays, c => Nth(ArrayCut(c, 0, Cuts(sizes)), i)))))
    else
      Ok(seq(chunks, i requires 0 <= i < chunks =>
        Data(None, MapCols(d.arrays, c => Nth(ArrayCut(c, 0, Cuts(NumpySizes(|c|, chunks))), i)))))
  }

  /** The sizes of the chunks: torch decides where there are tensors, numpy otherwise. */
  function ChunkSizes<C>(d: Data<C>, chunks: nat): seq<nat>
    requires chunks > 0
  {
    if d.batch.Some? then TorchSizes(Len(d), chunks) else NumpySizes(Len(d), chunks)
  }

  /** Consecutive index ranges of the given sizes. */
  function Parts(sizes: seq<nat>, base: nat): (p: seq<seq<nat>>)
    ensures |p| == |sizes|
  {
    if sizes == [] then [] else [Range(base, base + sizes[0])] + Parts(sizes[1..], base + sizes[0])
  }

  lemma {:induction false} FlatParts(sizes: seq<nat>, base: nat)
    ensures Flat(Parts(sizes, base)) == Range(base, base + Sum(sizes))
  {
    if sizes != [] {
      FlatParts(sizes[1..], base + sizes[0]);
      assert Parts(sizes, base)[1..] == Parts(sizes[1..], base + sizes[0]);
    }
  }

  lemma {:induction false} SplitSizesSum(n: nat, size: nat)
    requires size > 0
    ensures Sum(SplitSizes(n, size)) == n
    decreases n
  {
    if n > size { SplitSizesSum(n - size, size); }
    assert [n][1..] == [];
  }

  lemma GatherRange<C>(c: Col<C>, lo: nat, hi: nat)
    requires lo <= hi <= |c|
    ensures Gather(c, Range(lo, hi)) == c[lo..hi] == SliceCol(c, lo, hi)
  {
  }

  /** torch's pieces are the rows of the consecutive ranges. */
  lemma {:induction false} TorchSplitRows<C>(c: Col<C>, base: nat, rest: Col<C>, size: nat, i: nat)
    requires size > 0 && base <= |c| && rest == c[base..] && i < |SplitSizes(|rest|, size)|
    ensures Nth(TorchRows.Pieces(rest, size), i) == Gather(c, Parts(SplitSizes(|rest|, size), base)[i])
    decreases |rest|
  {
    hide Gather;
    if |rest| > size {
      GatherRange(c, base, base + size);
      if i > 0 { TorchSplitRows(c, base + size, rest[size..], size, i - 1); }
    } else {
      GatherRange(c, base, |c|);
    }
  }

  lemma CutsTail(sizes: seq<nat>, base: nat)
    requires |sizes| > 1
    ensures CumSum(sizes, base)[..|sizes| - 1] == [base + sizes[0]] + CumSum(sizes[1..], base + sizes[0])[..|sizes| - 2]
  {
  }

  /** numpy's pieces at the cumulative sizes are the rows of the same ranges. */
  lemma {:induction false} ArrayCutRows<C>(c: Col<C>, base: nat, sizes: seq<nat>, i: nat)
    requires i < |sizes| && base + Sum(sizes) == |c|
    ensures Nth(ArrayCut(c, base, CumSum(sizes, base)[..|sizes| - 1]), i) == Gather(c, Parts(sizes, base)[i])
    decreases |sizes|
  {
    hide Gather, SliceCol, CumSum;
    var rest, next := sizes[1..], base + sizes[0];
    GatherRange(c, base, next);
    if rest != [] {
      CutsTail(sizes, base);
      if i > 0 { ArrayCutRows(c, next, rest, i - 1); }
    }
  }

  lemma NumpySizesSum(n: nat, chunks: nat)
    requires chunks > 0
    ensures Sum(NumpySizes(n, chunks)) == n
  {
    hide Sum;
    assert NumpySizes(n, chunks) == Copies(n / chunks + 1, n % chunks) + Copies(n / chunks, chunks - n % chunks);
    SumTwoKinds(n / chunks, n % chunks, chunks - n % chunks);
  }

  lemma TorchSizesSum(n: nat, chunks: nat)
    requires chunks > 0
    ensures TorchSizes(n, chunks) != [] && Sum(TorchSizes(n, chunks)) == n
  {
    if n == 0 {
      assert TorchSizes(n, chunks) == Copies(0, chunks);
      SumRepeat(0, chunks);
    } else {
      SplitSizesSum(n, Division.CeilDiv(n, chunks));
    }
  }

  lemma TorchChunkRows<C>(c: Col<C>, chunks: nat, i: nat)
    requires chunks > 0 && i < |TorchSizes(|c|, chunks)|
    ensures Nth(TorchRows.ChunkRows(c, chunks), i) == Gather(c, Parts(TorchSizes(|c|, chunks), 0)[i])
  {
    if c == [] {
      ZeroPart(chunks, 0, i);
    } else {
      TorchSplitRows(c, 0, c, Division.CeilDiv(|c|, chunks), i);
    }
  }

  lemma {:induction false} ZeroPart(k: nat, base: nat, i: nat)
    requires i < k
    ensures |Parts(seq(k, _ => 0), base)[i]| == 0
  {
    assert seq(k, _ => 0)[1..] == seq(k - 1, _ => 0);
    if i > 0 { ZeroPart(k - 1, base, i - 1); }
  }

  lemma {:induction false} PartSize(sizes: seq<nat>, base: nat, i: nat)
    requires i < |sizes|
    ensures |Parts(sizes, base)[i]| == sizes[i]
  {
    if i > 0 { PartSize(sizes[1..], base + sizes[0], i - 1); }
  }

  /** Each chunk holds the rows of one range, tensors and arrays alike. */
  lemma ChunkRows<C>(d: Data<C>, chunks: nat, padding: bool)
    requires Aligned(d) && chunks > 0 && Chunk(d, chunks, padding).Ok?
    ensures |ChunkSizes(d, chunks)| == chunks && Sum(ChunkSizes(d, chunks)) == Len(d)
    ensures AreRows(d, Parts(ChunkSizes(d, chunks), 0), Chunk(d, chunks, padding).value)
  {
    var sizes, ds := ChunkSizes(d, chunks), Chunk(d, chunks, padding).value;
    if d.batch.Some? { TorchSizesSum(Len(d), chunks); } else { NumpySizesSum(Len(d), chunks); }
    forall i | 0 <= i < chunks ensures ds[i] == Rows(d, Parts(sizes, 0)[i]) {
      OneChunk(d, chunks, padding, i);
    }
  }

  lemma OneChunk<C>(d: Data<C>, chunks: nat, padding: bool, i: nat)
    requires Aligned(d) && i < chunks && Chunk(d, chunks, padding).Ok?
    requires |ChunkSizes(d, chunks)| == chunks && Sum(ChunkSizes(d, chunks)) == Len(d)
    ensures Chunk(d, chunks, padding).value[i] == Rows(d, Parts(ChunkSizes(d, chunks), 0)[i])
  {
    hide ArrayCut, TorchRows.ChunkRows, Gather, Parts, Cuts, Nth, TorchSizes, NumpySizes, Sum;
    var sizes := ChunkSizes(d, chunks);
    var piece, rows := Chunk(d, chunks, padding).value[i], Rows(d, Parts(sizes, 0)[i]);
    ArrayPieces(d.arrays, Len(d), sizes, i);
    assert piece.arrays == rows.arrays;
    if d.batch.Some? {
      TorchPieces(d.batch.value.cols, Len(d), chunks, i);
      assert piece.batch.value.cols == rows.batch.value.cols;
      PartSize(sizes, 0, i);
    }
  }

  lemma ArrayPieces<C>(cs: Cols<C>, n: nat, sizes: seq<nat>, i: nat)
    requires AllHave(cs, n) && i < |sizes| && Sum(sizes) == n
    ensures forall j :: 0 <= j < |cs| ==> Nth(ArrayCut(cs[j].1, 0, Cuts(sizes)), i) == Gather(cs[j].1, Parts(sizes, 0)[i])
  {
    hide ArrayCut, Gather, Parts, Nth, Sum;
    forall j | 0 <= j < |cs| ensures Nth(ArrayCut(cs[j].1, 0, Cuts(sizes)), i) == Gather(cs[j].1, Parts(sizes, 0)[i]) {
      ArrayCutRows(cs[j].1, 0, sizes, i);
    }
  }

  lemma TorchPieces<C>(cs: Cols<C>, n: nat, chunks: nat, i: nat)
    requires AllHave(cs, n) && chunks > 0 && i < |TorchSizes(n, chunks)|
    ensures forall j :: 0 <= j < |cs| ==>
              Nth(TorchRows.ChunkRows(cs[j].1, chunks), i) == Gather(cs[j].1, Parts(TorchSizes(n, chunks), 0)[i])
  {
    hide TorchRows.ChunkRows, Gather, Parts, Nth, TorchSizes;
    forall j | 0 <= j < |cs| ensures Nth(TorchRows.ChunkRows(cs[j].1, chunks), i) == Gather(cs[j].1, Parts(TorchSizes(n, chunks), 0)[i]) {
      TorchChunkRows(cs[j].1, chunks, i);
    }
  }

  /** Concatenating all chunks is the original. */
  lemma ChunkConcat<C>(d: Data<C>, chunks: nat, padding: bool)
    requires Aligned(d) && chunks > 0 && Chunk(d, chunks, padding).Ok?
    ensures Concat(Chunk(d, chunks, padding).value) == Ok(d)
  {
    hide Chunk, ChunkSizes, Rows, Aligned, Concat, Parts;
    var sizes := ChunkSizes(d, chunks);
    ChunkRows(d, chunks, padding);
    ConcatRows(d, Parts(sizes, 0), Chunk(d, chunks, padding).value);
    FlatParts(sizes, 0);
    AllRows(d);
  }

  // ---------------------------------------------------------------- when chunk succeeds

  lemma {:induction false} SplitCount(n: nat, size: nat)
    requires size > 0 && n > 0
    ensures |SplitSizes(n, size)| == Division.CeilDiv(n, size)
    decreases n
  {
    if n <= size {
      if n < size { Division.Unique(n, size, 0, n); } else { Division.Unique(n, size, 1, 0); }
    } else {
      SplitCount(n - size, size);
      Division.AddMultiple(n - size, 1, size);
    }
  }

  /** The exact condition under which chunk returns its pieces. */
  lemma ChunkExactly<C>(d: Data<C>, chunks: nat, padding: bool)
    requires Aligned(d) && chunks > 0
    ensures Division.CeilDiv(Len(d), chunks) == 0 <==> Len(d) == 0
    ensures Chunk(d, chunks, padding).Ok?
       <==> && (padding || Len(d) % chunks == 0)
            && (d.batch.None? || Len(d) == 0 || Division.CeilDiv(Len(d), Division.CeilDiv(Len(d), chunks)) == chunks)
  {
    if Len(d) > 0 { SplitCount(Len(d), Division.CeilDiv(Len(d), chunks)); } else { Division.Unique(0, chunks, 0, 0); }
  }

  /** No chunks at all can be asked for only of nothing, and only with padding enabled. */
  lemma NoChunks<C>(d: Data<C>, padding: bool)
    requires Aligned(d)
    ensures Chunk(d, 0, padding) == Ok([]) <==> padding && d == Data(None, [])
    ensures Chunk(d, 0, padding).Ok? ==> Chunk(d, 0, padding) == Ok([]) && Len(d) == 0
  {
  }

  lemma {:induction false} EqualSplit(k: nat, size: nat)
    requires size > 0 && k > 0
    ensures SplitSizes(k * size, size) == seq(k, _ => size)
  {
    if k == 1 {
    } else {
      Division.Peel(k, size);
      Division.Peel(k - 1, size);
      EqualSplit(k - 1, size);
    }
  }

  /** Without padding there is always a result once the length divides, and all chunks are equal. */
  lemma EqualChunks<C>(d: Data<C>, chunks: nat, padding: bool)
    requires Aligned(d) && chunks > 0 && Len(d) % chunks == 0
    ensures Chunk(d, chunks, padding).Ok?
    ensures ChunkSizes(d, chunks) == seq(chunks, _ => Len(d) / chunks)
  {
    var n := Len(d);
    var each := n / chunks;
    assert n == chunks * each;
    if n > 0 {
      Division.PositiveFactors(chunks, each);
      EqualSplit(chunks, each);
    }
  }

  /** Five rows cannot be chunked in four: rounding up to two rows a piece leaves three pieces. */
  lemma FiveInFour<C>(d: Data<C>)
    requires Aligned(d) && d.batch.Some? && Len(d) == 5
    ensures Chunk(d, 4, true) == Err(TooFewChunks)
  {
    assert SplitSizes(5, 2) == [2, 2, 1];
  }

  // ---------------------------------------------------------------- split

  /** The slices [i:i + size] for i in range(start, n, size). */
  function SplitFrom<C>(d: Data<C>, start: nat, size: nat): seq<Data<C>>
    requires size > 0
    decreases if start < Len(d) then Len(d) - start else 0
  {
    if start >= Len(d) then [] else [Slice(d, start, start + size)] + SplitFrom(d, start + size, size)
  }

  function Split<C>(d: Data<C>, size: nat): Result<seq<Data<C>>, DataError> {
    if size == 0 then Err(ZeroDivisor) else Ok(SplitFrom(d, 0, size))
  }

  lemma {:induction false} SplitRows<C>(d: Data<C>, start: nat, size: nat) returns (parts: seq<seq<nat>>)
    requires Aligned(d) && size > 0
    ensures AreRows(d, parts, SplitFrom(d, start, size)) && Flat(parts) == Range(start, Len(d))
    decreases if start < Len(d) then Len(d) - start else 0
  {
    hide Slice, Rows, Aligned;
    if start >= Len(d) {
      parts := [];
    } else {
      var rest := SplitRows(d, start + size, size);
      parts := [SliceIdx(Len(d), start, start + size)] + rest;
      SliceIsRows(d, start, start + size);
      assert parts[1..] == rest;
    }
  }

  /** Splitting and concatenating is the identity on every batch that has rows; a batch without rows gives nothing to join. */
  lemma SplitConcat<C>(d: Data<C>, size: nat)
    requires Aligned(d) && size > 0
    ensures Concat(Split(d, size).value) == Ok(d) <==> Len(d) > 0
  {
    var parts := SplitRows(d, 0, size);
    if Len(d) > 0 {
      ConcatRows(d, parts, SplitFrom(d, 0, size));
      AllRows(d);
    }
  }

  // ---------------------------------------------------------------- futures

  /** DataProtoFuture.get on the i-th of the chunks of a future: all outputs concatenated, chunked again, one piece kept. */
  function FutureGet<C>(outputs: seq<Data<C>>, chunks: nat, i: nat, padding: bool): Result<Data<C>, DataError>
    requires i < chunks
  {
    match Concat(outputs)
    case Err(e) => Err(e)
    case Ok(d) =>
      if !Aligned(d) then Err(Mismatch) else
      match Chunk(d, chunks, padding)
      case Err(e) => Err(e)
      case Ok(ds) => if i < |ds| then Ok(ds[i]) else Err(OutOfRange)
  }

  /** Each chunk of a future can be got exactly when the concatenated outputs can be chunked. */
  lemma FutureExactly<C>(outputs: seq<Data<C>>, d: Data<C>, chunks: nat, i: nat, padding: bool)
    requires Concat(outputs) == Ok(d) && Aligned(d) && i < chunks
    ensures Division.CeilDiv(Len(d), chunks) == 0 <==> Len(d) == 0
    ensures FutureGet(outputs, chunks, i, padding).Ok?
       <==> && (padding || Len(d) % chunks == 0)
            && (d.batch.None? || Len(d) == 0 || Division.CeilDiv(Len(d), Division.CeilDiv(Len(d), chunks)) == chunks)
  {
    hide Concat;
    ChunkExactly(d, chunks, padding);
    if Chunk(d, chunks, padding).Ok? { ChunkRows(d, chunks, padding); }
  }

  /** The chunks of a future, got one by one and concatenated, are the concatenated outputs. */
  lemma FutureConcat<C>(outputs: seq<Data<C>>, d: Data<C>, chunks: nat, padding: bool, got: seq<Data<C>>)
    requires Concat(outputs) == Ok(d) && Aligned(d) && chunks > 0 && |got| == chunks
    requires forall i :: 0 <= i < chunks ==> FutureGet(outputs, chunks, i, padding) == Ok(got[i])
    ensures Concat(got) == Ok(d)
  {
    assert FutureGet(outputs, chunks, 0, padding) == Ok(got[0]);
    ChunkRows(d, chunks, padding);
    ChunkConcat(d, chunks, padding);
    var ds := Chunk(d, chunks, padding).value;
    forall i | 0 <= i < chunks ensures got[i] == ds[i] { assert FutureGet(outputs, chunks, i, padding) == Ok(got[i]); }
    assert got == ds;
  }
}
