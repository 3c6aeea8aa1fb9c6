/** Row operations on DataProto batches (verl/protocol.py): every one of them selects rows of its input, the same rows for the
    tensor columns and for the numpy columns, although it computes them with two different library calls. */
module DataRows {
  import opened Outcomes
  import opened Sequences
  import Division

  /** A column is the sequence of its rows, a row the sequence of its entries along the second dimension. */
  type Col<C> = seq<seq<C>>

  type Cols<C> = seq<(string, Col<C>)>

  datatype Batch<C> = Batch(size: nat, cols: Cols<C>)

  datatype Data<C> = Data(batch: Option<Batch<C>>, arrays: Cols<C>)

  datatype DataError = NothingToConcat | Mismatch | UnequalChunks | TooFewChunks | ZeroDivisor | NoSplitKeys | BadShape
                     | OutOfRange | FloatCounts

  // ---------------------------------------------------------------- rows

  function Len<C>(d: Data<C>): nat {
    if d.batch.Some? then d.batch.value.size else if d.arrays != [] then |d.arrays[0].1| else 0
  }

  predicate NoColumns<C>(d: Data<C>) { d.arrays == [] && (d.batch.None? || d.batch.value.cols == []) }

  predicate AllHave<C>(cs: Cols<C>, n: nat) { forall i :: 0 <= i < |cs| ==> |cs[i].1| == n }

  /** Every column, tensor or numpy, has one entry per row. */
  predicate Aligned<C>(d: Data<C>) {
    AllHave(d.arrays, Len(d)) && (d.batch.Some? ==> AllHave(d.batch.value.cols, Len(d)))
  }

  function MapCols<C>(cs: Cols<C>, f: Col<C> -> Col<C>): (r: Cols<C>)
    ensures |r| == |cs| && forall i :: 0 <= i < |cs| ==> r[i] == (cs[i].0, f(cs[i].1))
  {
    seq(|cs|, i requires 0 <= i < |cs| => (cs[i].0, f(cs[i].1)))
  }

  function Gather<C>(col: Col<C>, idx: seq<nat>): (r: Col<C>)
    ensures |r| == |idx|
  {
    seq(|idx|, i requires 0 <= i < |idx| => if idx[i] < |col| then col[idx[i]] else [])
  }

  /** The rows of `d` at the given indices: the meaning of all operations below. */
  function Rows<C>(d: Data<C>, idx: seq<nat>): Data<C> {
    Data(if d.batch.None? then None else Some(Batch(|idx|, MapCols(d.batch.value.cols, c => Gather(c, idx)))),
         MapCols(d.arrays, c => Gather(c, idx)))
  }

  function Range(lo: nat, hi: nat): (r: seq<nat>)
    ensures lo <= hi ==> |r| == hi - lo && forall i :: 0 <= i < hi - lo ==> r[i] == lo + i
    ensures hi <= lo ==> r == []
  {
    if lo <= hi then seq(hi - lo, i requires 0 <= i => lo + i) else []
  }

  function Residue(i: nat, n: nat): (r: nat)
    requires n > 0
    ensures r < n
  {
    i % n
  }

  /** 0, 1, .., n - 1, 0, 1, ..: the rows of a padded batch. */
  function Cycle(m: nat, n: nat): (r: seq<nat>)
    requires n > 0
    ensures |r| == m
  {
    seq(m, i requires 0 <= i => Residue(i, n))
  }

  lemma GatherAll<C>(col: Col<C>)
    ensures Gather(col, Range(0, |col|)) == col
  {
  }

  lemma AllRows<C>(d: Data<C>)
    requires Aligned(d)
    ensures Rows(d, Range(0, Len(d))) == d
  {
    var idx := Range(0, Len(d));
    forall i | 0 <= i < |d.arrays| ensures Gather(d.arrays[i].1, idx) == d.arrays[i].1 { GatherAll(d.arrays[i].1); }
    assert Rows(d, idx).arrays == d.arrays;
    if d.batch.Some? {
      var cs := d.batch.value.cols;
      forall i | 0 <= i < |cs| ensures Gather(cs[i].1, idx) == cs[i].1 { GatherAll(cs[i].1); }
      assert Rows(d, idx).batch.value.cols == cs;
    }
  }

  /** Selecting rows keeps a batch aligned, and gives as many rows as indices. */
  lemma RowsAligned<C>(d: Data<C>, idx: seq<nat>)
    ensures Aligned(Rows(d, idx))
    ensures d.batch.Some? || d.arrays != [] ==> Len(Rows(d, idx)) == |idx|
  {
  }

  /** Selecting twice is selecting once. */
  lemma RowsOfRows<C>(d: Data<C>, idx: seq<nat>, again: seq<nat>)
    requires forall i :: 0 <= i < |again| ==> again[i] < |idx|
    ensures Rows(Rows(d, idx), again) == Rows(d, seq(|again|, i requires 0 <= i < |again| => idx[again[i]]))
  {
    var both := seq(|again|, i requires 0 <= i < |again| => idx[again[i]]);
    forall c: Col<C> ensures Gather(Gather(c, idx), again) == Gather(c, both) {}
    assert Rows(Rows(d, idx), again).arrays == Rows(d, both).arrays;
    if d.batch.Some? { assert Rows(Rows(d, idx), again).batch.value.cols == Rows(d, both).batch.value.cols; }
  }

  // ---------------------------------------------------------------- slice and concat

  /** The indices of a slice [lo:hi] of n rows. */
  function SliceIdx(n: nat, lo: nat, hi: nat): seq<nat> { Range(lo, if hi < n then hi else n) }

  function SliceCol<C>(c: Col<C>, lo: nat, hi: nat): Col<C> {
    var top := if hi < |c| then hi else |c|;
    if lo <= top then c[lo..top] else []
  }

  function Slice<C>(d: Data<C>, lo: nat, hi: nat): Data<C> {
    Data(if d.batch.None? then None
         else Some(Batch(|SliceIdx(d.batch.value.size, lo, hi)|, MapCols(d.batch.value.cols, c => SliceCol(c, lo, hi)))),
         MapCols(d.arrays, c => SliceCol(c, lo, hi)))
  }

  lemma SliceIsRows<C>(d: Data<C>, lo: nat, hi: nat)
    requires Aligned(d)
    ensures Slice(d, lo, hi) == Rows(d, SliceIdx(Len(d), lo, hi))
  {
    var idx := SliceIdx(Len(d), lo, hi);
    forall c: Col<C> | |c| == Len(d) ensures SliceCol(c, lo, hi) == Gather(c, idx) {}
    assert Slice(d, lo, hi).arrays == Rows(d, idx).arrays;
    if d.batch.Some? { assert Slice(d, lo, hi).batch.value.cols == Rows(d, idx).batch.value.cols; }
  }

  predicate SameKeys<C>(a: Cols<C>, b: Cols<C>) {
    |a| == |b| && forall i :: 0 <= i < |a| ==> a[i].0 == b[i].0
  }

  function AppendCols<C>(a: Cols<C>, b: Cols<C>): (r: Cols<C>)
    requires SameKeys(a, b)
    ensures |r| == |a| && forall i :: 0 <= i < |a| ==> r[i] == (a[i].0, a[i].1 + b[i].1)
  {
    seq(|a|, i requires 0 <= i < |a| => (a[i].0, a[i].1 + b[i].1))
  }

  predicate Joinable<C>(d: Data<C>, e: Data<C>) {
    && SameKeys(d.arrays, e.arrays)
    && (d.batch.Some? <==> e.batch.Some?)
    && (d.batch.Some? ==> SameKeys(d.batch.value.cols, e.batch.value.cols))
  }

  function Append<C>(d: Data<C>, e: Data<C>): Data<C>
    requires Joinable(d, e)
  {
    Data(if d.batch.None? then None
         else Some(Batch(d.batch.value.size + e.batch.value.size, AppendCols(d.batch.value.cols, e.batch.value.cols))),
         AppendCols(d.arrays, e.arrays))
  }

  /** DataProto.concat: torch.cat on the tensors and np.concatenate on the arrays, key by key. */
  function Concat<C>(ds: seq<Data<C>>): Result<Data<C>, DataError>
    decreases |ds|
  {
    if ds == [] then Err(NothingToConcat)
    else if |ds| == 1 then Ok(ds[0])
    else
      match Concat(ds[1..])
      case Err(e) => Err(e)
      case Ok(rest) => if Joinable(ds[0], rest) then Ok(Append(ds[0], rest)) else Err(Mismatch)
  }

  lemma AppendRows<C>(d: Data<C>, a: seq<nat>, b: seq<nat>)
    ensures Joinable(Rows(d, a), Rows(d, b)) && Append(Rows(d, a), Rows(d, b)) == Rows(d, a + b)
  {
    forall c: Col<C> ensures Gather(c, a) + Gather(c, b) == Gather(c, a + b) {}
    assert Append(Rows(d, a), Rows(d, b)).arrays == Rows(d, a + b).arrays;
    if d.batch.Some? {
      assert Append(Rows(d, a), Rows(d, b)).batch.value.cols == Rows(d, a + b).batch.value.cols;
    }
  }

  /** Two batches with the same columns join column by column; */
  lemma ConcatTwo<C>(d: Data<C>, e: Data<C>)
    requires |d.arrays| == |e.arrays| && forall i :: 0 <= i < |d.arrays| ==> d.arrays[i].0 == e.arrays[i].0
    requires d.batch.Some? <==> e.batch.Some?
    requires d.batch.Some? ==> |d.batch.value.cols| == |e.batch.value.cols|
    requires d.batch.Some? ==>
               forall i :: 0 <= i < |d.batch.value.cols| ==> d.batch.value.cols[i].0 == e.batch.value.cols[i].0
    ensures Concat([d, e]).Ok? && |Concat([d, e]).value.arrays| == |d.arrays|
    ensures forall i :: 0 <= i < |d.arrays| ==>
              Concat([d, e]).value.arrays[i] == (d.arrays[i].0, d.arrays[i].1 + e.arrays[i].1)
    ensures d.batch.Some? ==>
              && Concat([d, e]).value.batch.Some? && |Concat([d, e]).value.batch.value.cols| == |d.batch.value.cols|
              && Concat([d, e]).value.batch.value.size == d.batch.value.size + e.batch.value.size
              && forall i :: 0 <= i < |d.batch.value.cols| ==>
                   Concat([d, e]).value.batch.value.cols[i]
                   == (d.batch.value.cols[i].0, d.batch.value.cols[i].1 + e.batch.value.cols[i].1)
  {
    assert [d, e][1..] == [e];
  }

  predicate Names<C>(cs: Cols<C>, name: string) { exists i :: 0 <= i < |cs| && cs[i].0 == name }

  /** and a column that the first lacks is an error. */
  lemma ConcatNames<C>(d: Data<C>, e: Data<C>, name: string)
    requires (Names(e.arrays, name) && !Names(d.arrays, name))
          || (d.batch.Some? && e.batch.Some? && Names(e.batch.value.cols, name) && !Names(d.batch.value.cols, name))
    ensures Concat([d, e]).Err?
  {
    assert [d, e][1..] == [e];
  }

  ghost predicate AreRows<C>(d: Data<C>, parts: seq<seq<nat>>, ds: seq<Data<C>>) {
    |ds| == |parts| && forall i :: 0 <= i < |ds| ==> ds[i] == Rows(d, parts[i])
  }

  /** Concatenating selections selects by the concatenated indices. */
  lemma {:induction false} ConcatRows<C>(d: Data<C>, parts: seq<seq<nat>>, ds: seq<Data<C>>)
    requires ds != [] && AreRows(d, parts, ds)
    ensures Concat(ds) == Ok(Rows(d, Flat(parts)))
  {
    if |ds| == 1 {
      assert parts[1..] == [] && parts[0] + [] == parts[0];
    } else {
      ConcatRows(d, parts[1..], ds[1..]);
      AppendRows(d, parts[0], Flat(parts[1..]));
    }
  }

  // ---------------------------------------------------------------- padding

  ghost predicate MultipleOf(m: nat, n: nat) { exists q: nat :: m == n * q }

  lemma NextMultiple(m: nat, n: nat)
    requires MultipleOf(m, n)
    ensures MultipleOf(m + n, n)
  {
    var q: nat :| m == n * q;
    assert m + n == n * (q + 1);
  }

  lemma NoMultiple(n: nat)
    ensures MultipleOf(0, n)
  {
    assert 0 == n * 0;
  }

  lemma ResidueAfter(m: nat, i: nat, n: nat)
    requires n > 0 && MultipleOf(m, n)
    ensures Residue(m + i, n) == Residue(i, n)
    ensures i < n ==> Residue(i, n) == i
  {
    var q: nat :| m == n * q;
    Division.AddMultiple(i, q, n);
  }

  lemma CycleGrows(m: nat, take: nat, n: nat)
    requires n > 0 && take <= n && MultipleOf(m, n)
    ensures Cycle(m, n) + Range(0, take) == Cycle(m + take, n)
  {
    hide Residue, MultipleOf;
    forall j | m <= j < m + take ensures Residue(j, n) == j - m { ResidueAfter(m, j - m, n); }
  }

  lemma FullCycle(pad: nat, n: nat)
    requires n > 0
    ensures Range(0, n) + Cycle(pad, n) == Cycle(n + pad, n)
    ensures Cycle(n + pad, n)[..n] == Range(0, n) && Cycle(n, n) == Range(0, n)
  {
    hide Residue, MultipleOf;
    NoMultiple(n);
    NextMultiple(0, n);
    forall j | n <= j < n + pad ensures Residue(j, n) == Residue(j - n, n) { ResidueAfter(n, j - n, n); }
    forall i | 0 <= i < n ensures Residue(i, n) == i { ResidueAfter(0, i, n); }
  }

  /** The loop of pad_dataproto_to_divisor: leading slices of at most the whole batch, until enough rows are added. */
  method PadBy<C>(d: Data<C>, padSize: nat) returns (r: Data<C>)
    requires Aligned(d) && Len(d) > 0
    ensures r == Rows(d, Cycle(Len(d) + padSize, Len(d)))
  {
    hide Rows, Cycle, Slice, Concat, Aligned, MultipleOf, AreRows, Flat;
    var n := Len(d);
    var remaining, protos: seq<Data<C>> := padSize, [];
    ghost var parts: seq<seq<nat>> := [];
    NoMultiple(n);
    NoParts(d, n);
    while remaining > 0
      invariant 0 <= remaining <= padSize
      invariant remaining == 0 || MultipleOf(padSize - remaining, n)
      invariant AreRows(d, parts, protos) && Flat(parts) == Cycle(padSize - remaining, n)
    {
      var take := if remaining < n then remaining else n;
      SliceIsRows(d, 0, take);
      CycleGrows(padSize - remaining, take, n);
      OneMorePart(d, parts, protos, Range(0, take));
      NextMultiple(padSize - remaining, n);
      protos := protos + [Slice(d, 0, take)];
      parts := parts + [Range(0, take)];
      remaining := remaining - take;
    }
    AllRows(d);
    WithFirst(d, parts, protos, Range(0, n));
    FullCycle(padSize, n);
    return Concat([d] + protos).value;
  }

  /** pad_dataproto_to_divisor: the first rows again and again, up to the next multiple of the divisor. */
  method Pad<C>(d: Data<C>, divisor: nat) returns (r: Result<(Data<C>, nat), DataError>)
    requires Aligned(d)
    ensures r.Err? <==> divisor == 0
    ensures r.Ok? && Len(d) == 0 ==> r.value == (d, 0)
    ensures r.Ok? && Len(d) > 0 ==> r.value.1 < divisor && (Len(d) + r.value.1) % divisor == 0
    ensures r.Ok? && Len(d) > 0 ==> r.value.0 == Rows(d, Cycle(Len(d) + r.value.1, Len(d)))
  {
    hide Rows, Cycle, Aligned;
    if divisor == 0 { return Err(ZeroDivisor); }
    if Len(d) % divisor == 0 {
      AllRows(d);
      if Len(d) > 0 { FullCycle(0, Len(d)); }
      return Ok((d, 0));
    }
    var padSize := divisor - Len(d) % divisor;
    PaddedLength(Len(d), divisor);
    var padded := PadBy(d, padSize);
    return Ok((padded, padSize));
  }

  lemma NoParts<C>(d: Data<C>, n: nat)
    requires n > 0
    ensures AreRows(d, [], []) && Flat<nat>([]) == Cycle(0, n)
  {
  }

  lemma OneMorePart<C>(d: Data<C>, parts: seq<seq<nat>>, ds: seq<Data<C>>, part: seq<nat>)
    requires AreRows(d, parts, ds)
    ensures AreRows(d, parts + [part], ds + [Rows(d, part)]) && Flat(parts + [part]) == Flat(parts) + part
  {
    FlatPush(parts, part);
  }

  lemma WithFirst<C>(d: Data<C>, parts: seq<seq<nat>>, ds: seq<Data<C>>, part: seq<nat>)
    requires AreRows(d, parts, ds)
    ensures Concat([Rows(d, part)] + ds) == Ok(Rows(d, part + Flat(parts)))
  {
    ConcatRows(d, [part] + parts, [Rows(d, part)] + ds);
    assert ([part] + parts)[1..] == parts;
  }

  lemma PaddedLength(n: nat, divisor: nat)
    requires divisor > 0
    ensures (n + (divisor - n % divisor)) % divisor == 0
  {
    Division.Unique(n + (divisor - n % divisor), divisor, n / divisor + 1, 0);
  }

  /** unpad_dataproto: data[:-pad_size]. */
  method Unpad<C>(d: Data<C>, padSize: nat) returns (r: Data<C>)
    requires Aligned(d)
    ensures r == Rows(d, Range(0, if padSize <= Len(d) then Len(d) - padSize else 0))
  {
    AllRows(d);
    if padSize == 0 { return d; }
    var top := if padSize <= Len(d) then Len(d) - padSize else 0;
    SliceIsRows(d, 0, top);
    r := Slice(d, 0, top);
  }

  /** Unpadding what padding gave is the original, whatever the divisor, even when it is larger than the batch. */
  lemma PadRoundTrip<C>(d: Data<C>, pad: nat)
    requires Aligned(d) && Len(d) > 0
    ensures Rows(Rows(d, Cycle(Len(d) + pad, Len(d))), Range(0, Len(d))) == d
  {
    var n := Len(d);
    var idx := Cycle(n + pad, n);
    FullCycle(pad, n);
    assert seq(n, i requires 0 <= i < n => idx[Range(0, n)[i]]) == idx[..n];
    RowsOfRows(d, idx, Range(0, n));
    AllRows(d);
  }
}
