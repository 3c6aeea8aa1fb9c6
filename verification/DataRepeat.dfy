/** Multiplying the rows of a DataProto (verl/protocol.py): repeat, sample_level_repeat, unfold_column_chunks, padding, reorder. */
module DataRepeat {
  import opened DataRows
  import opened Outcomes
  import opened Sequences
  import Division

  function At<C>(c: Col<C>, i: nat): seq<C> { if i < |c| then c[i] else [] }

  // ---------------------------------------------------------------- the two libraries

  /** torch's repeat_interleave with one count, on storage positions. */
  function TorchInterleave<C>(c: Col<C>, times: nat): Col<C> {
    seq(|c| * times, i requires 0 <= i < |c| * times => if times > 0 then At(c, i / times) else [])
  }

  /** torch's unsqueeze, expand and reshape. */
  function TorchExpand<C>(c: Col<C>, times: nat): Col<C> {
    seq(times * |c|, i requires 0 <= i < times * |c| => if |c| > 0 then At(c, Residue(i, |c|)) else [])
  }

  /** numpy's repeat with one count. */
  function RepeatEach<X>(s: seq<X>, times: nat): seq<X> {
    if s == [] then [] else Copies(s[0], times) + RepeatEach(s[1..], times)
  }

  /** Both libraries' repeat with a count for every element. */
  function RepeatBy<X>(s: seq<X>, times: seq<nat>): seq<X>
    requires |s| == |times|
  {
    if s == [] then [] else Copies(s[0], times[0]) + RepeatBy(s[1..], times[1..])
  }

  /** numpy's tile. */
  function Tile<X>(s: seq<X>, times: nat): seq<X> { if times == 0 then [] else s + Tile(s, times - 1) }

  // ---------------------------------------------------------------- both as row selections

  lemma GatherAppend<C>(c: Col<C>, a: seq<nat>, b: seq<nat>)
    ensures Gather(c, a + b) == Gather(c, a) + Gather(c, b)
  {
  }

  lemma GatherCopies<C>(c: Col<C>, k: nat, times: nat)
    ensures Gather(c, Copies(k, times)) == Copies(At(c, k), times)
  {
  }

  lemma {:induction false} GatherRepeat<C>(c: Col<C>, idx: seq<nat>, times: nat)
    ensures Gather(c, RepeatEach(idx, times)) == RepeatEach(Gather(c, idx), times)
  {
    if idx != [] {
      GatherAppend(c, Copies(idx[0], times), RepeatEach(idx[1..], times));
      GatherCopies(c, idx[0], times);
      GatherRepeat(c, idx[1..], times);
      assert Gather(c, idx)[1..] == Gather(c, idx[1..]);
    }
  }

  lemma {:induction false} GatherRepeatBy<C>(c: Col<C>, idx: seq<nat>, times: seq<nat>)
    requires |idx| == |times|
    ensures Gather(c, RepeatBy(idx, times)) == RepeatBy(Gather(c, idx), times)
  {
    if idx != [] {
      GatherAppend(c, Copies(idx[0], times[0]), RepeatBy(idx[1..], times[1..]));
      GatherCopies(c, idx[0], times[0]);
      GatherRepeatBy(c, idx[1..], times[1..]);
      assert Gather(c, idx)[1..] == Gather(c, idx[1..]);
    }
  }

  lemma {:induction false} GatherTile<C>(c: Col<C>, idx: seq<nat>, times: nat)
    ensures Gather(c, Tile(idx, times)) == Tile(Gather(c, idx), times)
  {
    if times > 0 {
      GatherAppend(c, idx, Tile(idx, times - 1));
      GatherTile(c, idx, times - 1);
    }
  }

  /** Element i of the repetition is element i / times of the original. */
  lemma {:induction false} RepeatAt<X>(s: seq<X>, times: nat, i: nat)
    ensures |RepeatEach(s, times)| == |s| * times
    ensures i < |s| * times ==> times > 0 && i / times < |s| && RepeatEach(s, times)[i] == s[i / times]
  {
    if s != [] {
      Division.Peel(|s|, times);
      if i < times {
        RepeatAt(s[1..], times, 0);
        Division.Unique(i, times, 0, i);
      } else {
        RepeatAt(s[1..], times, i - times);
        if times > 0 { Division.AddMultiple(i - times, 1, times); }
      }
    }
  }

  lemma {:induction false} TileAt<X>(s: seq<X>, times: nat, i: nat)
    ensures |Tile(s, times)| == times * |s|
    ensures i < times * |s| ==> |s| > 0 && Tile(s, times)[i] == s[Residue(i, |s|)]
  {
    if times > 0 {
      Division.Peel(times, |s|);
      if i < |s| {
        TileAt(s, times - 1, 0);
        Division.Unique(i, |s|, 0, i);
      } else {
        TileAt(s, times - 1, i - |s|);
        if |s| > 0 { Division.AddMultiple(i - |s|, 1, |s|); }
      }
    }
  }

  lemma InterleaveIsRepeat<C>(c: Col<C>, times: nat)
    ensures TorchInterleave(c, times) == RepeatEach(c, times)
  {
    RepeatAt(c, times, 0);
    forall i | 0 <= i < |c| * times ensures TorchInterleave(c, times)[i] == RepeatEach(c, times)[i] { RepeatAt(c, times, i); }
  }

  lemma ExpandIsTile<C>(c: Col<C>, times: nat)
    ensures TorchExpand(c, times) == Tile(c, times)
  {
    hide Residue;
    TileAt(c, times, 0);
    forall i | 0 <= i < times * |c| ensures TorchExpand(c, times)[i] == Tile(c, times)[i] { TileAt(c, times, i); }
  }

  // ---------------------------------------------------------------- repeat

  /** DataProto.repeat. */
  function Repeat<C>(d: Data<C>, times: nat, interleave: bool): Data<C> {
    Data(if d.batch.None? then None
         else Some(Batch(d.batch.value.size * times,
                         MapCols(d.batch.value.cols, c => if interleave then TorchInterleave(c, times) else TorchExpand(c, times)))),
         MapCols(d.arrays, c => if interleave then RepeatEach(c, times) else Tile(c, times)))
  }

  function RepeatIdx(n: nat, times: nat, interleave: bool): seq<nat> {
    if interleave then RepeatEach(Range(0, n), times) else Tile(Range(0, n), times)
  }

  lemma RepeatCol<C>(c: Col<C>, times: nat, interleave: bool)
    ensures (if interleave then RepeatEach(c, times) else Tile(c, times)) == Gather(c, RepeatIdx(|c|, times, interleave))
    ensures (if interleave then TorchInterleave(c, times) else TorchExpand(c, times))
         == Gather(c, RepeatIdx(|c|, times, interleave))
  {
    hide Gather, RepeatEach, Tile, TorchInterleave, TorchExpand;
    GatherAll(c);
    InterleaveIsRepeat(c, times);
    ExpandIsTile(c, times);
    GatherRepeat(c, Range(0, |c|), times);
    GatherTile(c, Range(0, |c|), times);
  }

  /** In both modes tensors and arrays select the same rows: row i is the original's row i / times when interleaved and
      i mod n when stacked. */
  lemma RepeatRows<C>(d: Data<C>, times: nat, interleave: bool)
    requires Aligned(d)
    ensures Repeat(d, times, interleave) == Rows(d, RepeatIdx(Len(d), times, interleave))
  {
    hide RepeatEach, Tile, TorchInterleave, TorchExpand, RepeatIdx, Gather;
    var idx := RepeatIdx(Len(d), times, interleave);
    forall c: Col<C> | |c| == Len(d)
      ensures (if interleave then RepeatEach(c, times) else Tile(c, times)) == Gather(c, idx)
      ensures (if interleave then TorchInterleave(c, times) else TorchExpand(c, times)) == Gather(c, idx)
    {
      RepeatCol(c, times, interleave);
    }
    assert Repeat(d, times, interleave).arrays == Rows(d, idx).arrays;
    RepeatLength(Len(d), times, interleave);
    if d.batch.Some? { assert Repeat(d, times, interleave).batch.value.cols == Rows(d, idx).batch.value.cols; }
  }

  lemma RepeatLength(n: nat, times: nat, interleave: bool)
    ensures |RepeatIdx(n, times, interleave)| == n * times
  {
    RepeatAt(Range(0, n), times, 0);
    TileAt(Range(0, n), times, 0);
  }

  lemma RepeatIdxAt(n: nat, times: nat, i: nat)
    requires i < n * times
    ensures n > 0 && times > 0
    ensures |RepeatIdx(n, times, true)| == |RepeatIdx(n, times, false)| == n * times
    ensures RepeatIdx(n, times, true)[i] == i / times && RepeatIdx(n, times, false)[i] == i % n
  {
    hide RepeatEach, Tile;
    RepeatLength(n, times, true);
    RepeatLength(n, times, false);
    var all := Range(0, n);
    RepeatAt(all, times, i);
    assert RepeatEach(all, times)[i] == all[i / times] == i / times;
    TileAt(all, times, i);
    assert Tile(all, times)[i] == all[Residue(i, n)] == Residue(i, n);
  }

  // ---------------------------------------------------------------- sample_level_repeat

  /** Counts for every element, or one count for all. */
  function RepeatCounts<C>(c: Col<C>, times: seq<nat>): Result<Col<C>, DataError> {
    if |times| == |c| then Ok(RepeatBy(c, times))
    else if |times| == 1 then Ok(RepeatEach(c, times[0]))
    else Err(Mismatch)
  }

  function MapResult<C>(cs: Cols<C>, f: (string, Col<C>) -> Result<Col<C>, DataError>): (r: Result<Cols<C>, DataError>)
    ensures r.Ok? ==> |r.value| == |cs|
    ensures r.Ok? ==> forall i :: 0 <= i < |cs| ==> f(cs[i].0, cs[i].1).Ok? && r.value[i] == (cs[i].0, f(cs[i].0, cs[i].1).value)
    ensures r.Err? ==> exists i :: 0 <= i < |cs| && f(cs[i].0, cs[i].1).Err?
  {
    if cs == [] then Ok([]) else
      match f(cs[0].0, cs[0].1)
      case Err(e) => Err(e)
      case Ok(c) =>
        var rest := MapResult(cs[1..], f);
        if rest.Ok? then Ok([(cs[0].0, c)] + rest.value) else
          assert exists i :: 0 <= i < |cs| && f(cs[i].0, cs[i].1).Err? by {
            var i :| 0 <= i < |cs| - 1 && f(cs[1..][i].0, cs[1..][i].1).Err?;
            assert cs[i + 1] == cs[1..][i];
          }
          Err(rest.error)
  }

  /** The checks of the two constructors. */
  function Make<C>(d: Data<C>): Result<Data<C>, DataError> { if Aligned(d) then Ok(d) else Err(Mismatch) }

  /** DataProto.sample_level_repeat. An empty list of counts becomes a tensor of floats, which neither library takes. */
  function SampleLevelRepeat<C>(d: Data<C>, times: seq<nat>): Result<Data<C>, DataError> {
    if times == [] && (d.batch.Some? || d.arrays != []) then Err(FloatCounts) else
    match MapResult(d.arrays, (_, c) => RepeatCounts(c, times))
    case Err(e) => Err(e)
    case Ok(arrays) =>
      if d.batch.None? then Make(Data(None, arrays)) else
      match MapResult(d.batch.value.cols, (_, c) => RepeatCounts(c, times))
      case Err(e) => Err(e)
      case Ok(cols) => Make(Data(Some(Batch(Sum(times), cols)), arrays))
  }

  lemma {:induction false} RepeatByLength<X>(s: seq<X>, times: seq<nat>)
    requires |s| == |times|
    ensures |RepeatBy(s, times)| == Sum(times)
  {
    if s != [] { RepeatByLength(s[1..], times[1..]); }
  }

  lemma RepeatByCol<C>(c: Col<C>, times: seq<nat>)
    requires |c| == |times|
    ensures RepeatBy(c, times) == Gather(c, RepeatBy(Range(0, |c|), times))
  {
    GatherAll(c);
    GatherRepeatBy(c, Range(0, |c|), times);
  }

  /** With one count per row, row j is repeated in place times[j] times; a batch without rows is refused, unless it has neither
      tensors nor arrays. */
  lemma SampleLevelRows<C>(d: Data<C>, times: seq<nat>)
    requires Aligned(d) && |times| == Len(d)
    ensures SampleLevelRepeat(d, times)
         == if Len(d) == 0 && (d.batch.Some? || d.arrays != []) then Err(FloatCounts)
            else Ok(Rows(d, RepeatBy(Range(0, Len(d)), times)))
  {
    hide Gather, RepeatBy, RepeatEach;
    if Len(d) == 0 && (d.batch.Some? || d.arrays != []) { return; }
    var idx := RepeatBy(Range(0, Len(d)), times);
    forall c: Col<C> | |c| == Len(d) ensures RepeatCounts(c, times) == Ok(Gather(c, idx)) { RepeatByCol(c, times); }
    RepeatByLength(Range(0, Len(d)), times);
    var arrays := MapResult(d.arrays, (_, c) => RepeatCounts(c, times));
    assert arrays.Ok? && arrays.value == Rows(d, idx).arrays;
    if d.batch.Some? {
      var cols := MapResult(d.batch.value.cols, (_, c) => RepeatCounts(c, times));
      assert cols.Ok? && cols.value == Rows(d, idx).batch.value.cols;
    }
    RowsAligned(d, idx);
  }

  /** A single count for other than one row repeats every row that often where there are no tensors. Where there are, the result is
      refused, since the counts add up to less than its rows, unless the count is 0 or there are no columns at all. */
  lemma OneCount<C>(d: Data<C>, n: nat)
    requires Aligned(d) && Len(d) != 1
    ensures d.batch.None? ==> SampleLevelRepeat(d, [n]) == Ok(Rows(d, RepeatIdx(Len(d), n, true)))
    ensures d.batch.Some? ==> (SampleLevelRepeat(d, [n]).Ok? <==> n == 0 || NoColumns(d))
  {
    hide Gather, RepeatIdx, RepeatCounts;
    var m, idx := Len(d), RepeatIdx(Len(d), n, true);
    forall c: Col<C> | |c| == m ensures RepeatCounts(c, [n]) == Ok(Gather(c, idx)) { OneCountCol(c, n); }
    var arrays := MapResult(d.arrays, (_, c) => RepeatCounts(c, [n]));
    assert arrays.Ok? && arrays.value == Rows(d, idx).arrays;
    assert Sum([n]) == n + Sum([n][1..]) == n;
    RowsAligned(d, idx);
    RepeatLength(m, n, true);
    if d.batch.Some? {
      var cols := MapResult(d.batch.value.cols, (_, c) => RepeatCounts(c, [n]));
      assert cols.Ok? && cols.value == Rows(d, idx).batch.value.cols;
      NotAsMany(m, n);
    }
  }

  lemma OneCountCol<C>(c: Col<C>, n: nat)
    requires |c| != 1
    ensures RepeatCounts(c, [n]) == Ok(Gather(c, RepeatIdx(|c|, n, true)))
  {
    hide Gather, RepeatIdx, RepeatEach;
    RepeatCol(c, n, true);
  }

  lemma NotAsMany(m: nat, n: nat)
    requires m != 1
    ensures m * n == n <==> n == 0
  {
    if m > 1 && n > 0 { Division.MulMono(2, m, n); }
  }

  /** Other numbers of counts are refused by every column. */
  lemma WrongCounts<C>(d: Data<C>, times: seq<nat>)
    requires Aligned(d) && |times| != 1 && |times| != Len(d) && !NoColumns(d)
    ensures SampleLevelRepeat(d, times).Err?
  {
  }

  function Occurrences(s: seq<nat>, j: nat): nat {
    if s == [] then 0 else (if s[0] == j then 1 else 0) + Occurrences(s[1..], j)
  }

  lemma {:induction false} OccurrencesAppend(a: seq<nat>, b: seq<nat>, j: nat)
    ensures Occurrences(a + b, j) == Occurrences(a, j) + Occurrences(b, j)
  {
    if a == [] { assert a + b == b; } else {
      assert (a + b)[1..] == a[1..] + b;
      OccurrencesAppend(a[1..], b, j);
    }
  }

  lemma {:induction false} OccurrencesCopies(x: nat, times: nat, j: nat)
    ensures Occurrences(Copies(x, times), j) == if j == x then times else 0
  {
    if times > 0 {
      assert Copies(x, times)[1..] == Copies(x, times - 1);
      OccurrencesCopies(x, times - 1, j);
    }
  }

  /** Every row is selected as often as its count says, and no other row is. */
  lemma {:induction false} RepeatByCounts(lo: nat, hi: nat, times: seq<nat>, j: nat)
    requires lo <= hi && |times| == hi - lo
    ensures Occurrences(RepeatBy(Range(lo, hi), times), j) == if lo <= j < hi then times[j - lo] else 0
    decreases hi - lo
  {
    if lo < hi {
      assert Range(lo, hi)[1..] == Range(lo + 1, hi);
      OccurrencesAppend(Copies(lo, times[0]), RepeatBy(Range(lo + 1, hi), times[1..]), j);
      OccurrencesCopies(lo, times[0], j);
      RepeatByCounts(lo + 1, hi, times[1..], j);
    }
  }

  // ---------------------------------------------------------------- unfold_column_chunks

  function Flatten<C>(c: Col<C>): seq<C> { if c == [] then [] else c[0] + Flatten(c[1..]) }

  function Width<C>(c: Col<C>): nat { if c == [] then 0 else |c[0]| }

  predicate Rect<C>(c: Col<C>) { forall i :: 0 <= i < |c| ==> |c[i]| == Width(c) }

  /** reshape to `count` rows of width w. */
  function Regroup<C>(flat: seq<C>, count: nat, w: nat): (r: Col<C>)
    requires |flat| == count * w
    ensures |r| == count
    decreases count
  {
    if count == 0 then [] else Division.Peel(count, w); [flat[..w]] + Regroup(flat[w..], count - 1, w)
  }

  function UnfoldCol<C>(c: Col<C>, pieces: nat): Result<Col<C>, DataError> {
    if pieces == 0 then Err(ZeroDivisor)
    else if |Flatten(c)| != |c| * pieces * (Width(c) / pieces) then Err(BadShape)
    else Ok(Regroup(Flatten(c), |c| * pieces, Width(c) / pieces))
  }

  predicate Chosen(name: string, keys: Option<set<string>>) { keys.Some? && name in keys.value }

  function UnfoldTensor<C>(name: string, c: Col<C>, pieces: nat, keys: Option<set<string>>): Result<Col<C>, DataError> {
    if Chosen(name, keys) then UnfoldCol(c, pieces) else Ok(TorchInterleave(c, pieces))
  }

  /** Without a key set the test for membership fails on the first array. */
  function UnfoldArray<C>(name: string, c: Col<C>, pieces: nat, keys: Option<set<string>>): Result<Col<C>, DataError> {
    if keys.None? then Err(NoSplitKeys)
    else if Chosen(name, keys) then UnfoldCol(c, pieces) else Ok(RepeatEach(c, pieces))
  }

  /** DataProto.unfold_column_chunks. */
  function UnfoldColumnChunks<C>(d: Data<C>, pieces: nat, keys: Option<set<string>>): Result<Data<C>, DataError> {
    var cols := if d.batch.None? then Ok([]) else MapResult(d.batch.value.cols, (name, c) => UnfoldTensor(name, c, pieces, keys));
    if cols.Err? then Err(cols.error) else
    match MapResult(d.arrays, (name, c) => UnfoldArray(name, c, pieces, keys))
    case Err(e) => Err(e)
    case Ok(arrays) =>
      Make(Data(if d.batch.None? then None else Some(Batch(d.batch.value.size * pieces, cols.value)), arrays))
  }

  lemma {:induction false} FlattenLength<C>(c: Col<C>)
    requires Rect(c)
    ensures |Flatten(c)| == |c| * Width(c)
  {
    if |c| > 1 {
      FlattenLength(c[1..]);
      Division.Peel(|c|, Width(c));
    } else if |c| == 1 {
      assert c[1..] == [];
    }
  }

  /** Unfolding a column succeeds exactly when its width divides, or when it has no rows. */
  lemma UnfoldExactly<C>(c: Col<C>, pieces: nat)
    requires Rect(c) && pieces > 0
    ensures UnfoldCol(c, pieces).Ok? <==> c == [] || Width(c) % pieces == 0
  {
    FlattenLength(c);
    if c != [] { WidthDivides(|c|, Width(c), pieces); }
  }

  lemma WidthDivides(n: nat, w: nat, pieces: nat)
    requires n > 0 && pieces > 0
    ensures n * w == n * pieces * (w / pieces) <==> w % pieces == 0
  {
    var q := w / pieces;
    assert w == pieces * q + w % pieces;
    assert n * w == n * (pieces * q) + n * (w % pieces);
    assert n * pieces * q == n * (pieces * q);
    if w % pieces > 0 { Division.MulMono(1, w % pieces, n); }
  }

  lemma RegroupFirst<C>(row: seq<C>, rest: seq<C>, n: nat, w: nat)
    requires |row| == w && |rest| == n * w
    ensures |row + rest| == (n + 1) * w && Regroup(row + rest, n + 1, w) == [row] + Regroup(rest, n, w)
  {
    Division.Peel(n + 1, w);
    assert (row + rest)[..w] == row && (row + rest)[w..] == rest;
  }

  lemma {:induction false} RegroupAppend<C>(a: seq<C>, m: nat, b: seq<C>, n: nat, w: nat)
    requires |a| == m * w && |b| == n * w
    ensures m * w + n * w == (m + n) * w
    ensures Regroup(a + b, m + n, w) == Regroup(a, m, w) + Regroup(b, n, w)
    decreases m
  {
    Division.Expand(m, n, w);
    if m == 0 {
      assert a + b == b;
    } else {
      hide Regroup;
      Division.Peel(m, w);
      var row, rest := a[..w], a[w..];
      RegroupAppend(rest, m - 1, b, n, w);
      RegroupFirst(row, rest, m - 1, w);
      RegroupFirst(row, rest + b, m - 1 + n, w);
      assert a == row + rest && a + b == row + (rest + b);
      assert [row] + (Regroup(rest, m - 1, w) + Regroup(b, n, w)) == ([row] + Regroup(rest, m - 1, w)) + Regroup(b, n, w);
    }
  }

  lemma Assoc(a: int, b: int, c: int)
    ensures a * (b * c) == (a * b) * c
  {
  }

  /** Unfolding the first row and unfolding the others. */
  lemma UnfoldFirst<C>(c: Col<C>, pieces: nat, w: nat)
    requires pieces > 0 && Rect(c) && c != [] && Width(c) == pieces * w
    ensures |Flatten(c)| == (|c| * pieces) * w && |Flatten(c[1..])| == (|c[1..]| * pieces) * w
    ensures |c| * pieces == pieces + |c[1..]| * pieces
    ensures Regroup(Flatten(c), |c| * pieces, w) == Regroup(c[0], pieces, w) + Regroup(Flatten(c[1..]), |c[1..]| * pieces, w)
  {
    hide Regroup;
    var rest := c[1..];
    FlattenLength(c);
    FlattenLength(rest);
    Division.Peel(|c|, pieces);
    Assoc(|c|, pieces, w);
    Assoc(|rest|, pieces, w);
    if rest == [] { assert Flatten(rest) == []; }
    RegroupAppend(c[0], pieces, Flatten(rest), |rest| * pieces, w);
  }

  /** Row i * pieces + j of the unfolded column is piece j of row i. */
  lemma {:induction false} UnfoldAt<C>(c: Col<C>, pieces: nat, w: nat, i: nat, j: nat)
    requires pieces > 0 && Rect(c) && i < |c| && j < pieces && Width(c) == pieces * w
    ensures |Flatten(c)| == (|c| * pieces) * w
    ensures i * pieces + j < |c| * pieces
    ensures Regroup(Flatten(c), |c| * pieces, w)[i * pieces + j] == Regroup(c[i], pieces, w)[j]
    decreases |c|
  {
    hide Regroup, Flatten;
    UnfoldFirst(c, pieces, w);
    if i > 0 {
      UnfoldAt(c[1..], pieces, w, i - 1, j);
      Division.Peel(i, pieces);
    }
  }

  lemma {:induction false} RegroupAt<C>(row: seq<C>, count: nat, w: nat, j: nat)
    requires |row| == count * w && j < count
    ensures (j + 1) * w == j * w + w <= |row|
    ensures Regroup(row, count, w)[j] == row[j * w..j * w + w]
    decreases count
  {
    Division.Peel(count, w);
    Division.Peel(j + 1, w);
    Division.MulMono(j + 1, count, w);
    if j > 0 {
      RegroupAt(row[w..], count - 1, w, j - 1);
      Division.Peel(j, w);
    }
  }

  /** Folding the pieces of a row again gives the row. */
  lemma {:induction false} FlattenRegroup<C>(row: seq<C>, count: nat, w: nat)
    requires |row| == count * w
    ensures Flatten(Regroup(row, count, w)) == row
    decreases count
  {
    if count > 0 {
      Division.Peel(count, w);
      FlattenRegroup(row[w..], count - 1, w);
      assert row == row[..w] + row[w..];
    }
  }

  /** Row alignment of unfolding: row r of a split column is piece r % pieces of row r / pieces, and row r of any other
      column, tensor or array, is a copy of row r / pieces. */
  lemma UnfoldAligned<C>(split: Col<C>, other: Col<C>, pieces: nat, r: nat)
    requires pieces > 0 && Rect(split) && Width(split) % pieces == 0 && |other| == |split| && r < |split| * pieces
    ensures UnfoldCol(split, pieces).Ok?
    ensures r / pieces < |split| && |UnfoldCol(split, pieces).value| == |RepeatEach(other, pieces)| == |split| * pieces
    ensures |split[r / pieces]| == pieces * (Width(split) / pieces)
    ensures UnfoldCol(split, pieces).value[r] == Regroup(split[r / pieces], pieces, Width(split) / pieces)[r % pieces]
    ensures RepeatEach(other, pieces)[r] == other[r / pieces] && TorchInterleave(other, pieces) == RepeatEach(other, pieces)
  {
    hide RepeatEach, Regroup, Flatten, TorchInterleave;
    var w, i, j := Width(split) / pieces, r / pieces, r % pieces;
    UnfoldExactly(split, pieces);
    RepeatAt(other, pieces, r);
    InterleaveIsRepeat(other, pieces);
    UnfoldAt(split, pieces, w, i, j);
    assert i * pieces + j == r;
  }

  /** The rows of an unfolded column, each from row r / pieces of the old one. */
  ghost predicate FromRows<C>(c: Col<C>, unfolded: Col<C>, pieces: nat, split: bool)
    requires pieces > 0
  {
    |unfolded| == |c| * pieces && forall r :: 0 <= r < |unfolded| ==> FromRow(c, unfolded, pieces, split, r)
  }

  predicate FromRow<C(==)>(c: Col<C>, unfolded: Col<C>, pieces: nat, split: bool, r: nat)
    requires pieces > 0 && r < |unfolded|
  {
    r / pieces < |c| &&
    if split then |c[r / pieces]| == pieces * (Width(c) / pieces)
      && unfolded[r] == Regroup(c[r / pieces], pieces, Width(c) / pieces)[r % pieces]
    else unfolded[r] == c[r / pieces]
  }

  predicate Divides<C>(name: string, c: Col<C>, pieces: nat, keys: Option<set<string>>)
    requires pieces > 0
  {
    Chosen(name, keys) ==> c == [] || Width(c) % pieces == 0
  }

  predicate AllDivide<C>(cs: Cols<C>, pieces: nat, keys: Option<set<string>>)
    requires pieces > 0
  {
    forall i :: 0 <= i < |cs| ==> Divides(cs[i].0, cs[i].1, pieces, keys)
  }

  predicate AllRect<C>(cs: Cols<C>) { forall i :: 0 <= i < |cs| ==> Rect(cs[i].1) }

  lemma UnfoldOne<C>(name: string, c: Col<C>, pieces: nat, keys: Option<set<string>>)
    requires pieces > 0 && Rect(c)
    ensures UnfoldTensor(name, c, pieces, keys).Ok? <==> Divides(name, c, pieces, keys)
    ensures UnfoldArray(name, c, pieces, keys)
         == if keys.None? then Err(NoSplitKeys) else UnfoldTensor(name, c, pieces, keys)
    ensures UnfoldTensor(name, c, pieces, keys).Ok? ==>
      FromRows(c, UnfoldTensor(name, c, pieces, keys).value, pieces, Chosen(name, keys))
  {
    hide RepeatEach, Regroup, Flatten, TorchInterleave;
    InterleaveIsRepeat(c, pieces);
    RepeatAt(c, pieces, 0);
    if Chosen(name, keys) { UnfoldExactly(c, pieces); }
    if UnfoldTensor(name, c, pieces, keys).Ok? {
      var unfolded := UnfoldTensor(name, c, pieces, keys).value;
      forall r | 0 <= r < |unfolded| ensures FromRow(c, unfolded, pieces, Chosen(name, keys), r) {
        RepeatAt(c, pieces, r);
        if Chosen(name, keys) { UnfoldAligned(c, c, pieces, r); }
      }
    }
  }

  /** Unfolding succeeds exactly when the arrays, if there are any, come with a key set and every column to be split has a width
      that divides; then every row r of every column comes from row r / pieces, so the columns stay aligned. */
  lemma UnfoldExactlyAligned<C>(d: Data<C>, pieces: nat, keys: Option<set<string>>)
    requires pieces > 0 && Aligned(d) && AllRect(d.arrays) && (d.batch.Some? ==> AllRect(d.batch.value.cols))
    ensures UnfoldColumnChunks(d, pieces, keys).Ok?
       <==> && (d.arrays != [] ==> keys.Some?) && AllDivide(d.arrays, pieces, keys)
            && (d.batch.Some? ==> AllDivide(d.batch.value.cols, pieces, keys))
    ensures UnfoldColumnChunks(d, pieces, keys).Ok? ==>
      var u := UnfoldColumnChunks(d, pieces, keys).value;
      && Aligned(u) && SameKeys(u.arrays, d.arrays) && (u.batch.Some? <==> d.batch.Some?)
      && (forall i :: 0 <= i < |d.arrays| ==>
            FromRows(d.arrays[i].1, u.arrays[i].1, pieces, keys.Some? && d.arrays[i].0 in keys.value))
      && (d.batch.Some? ==> SameKeys(u.batch.value.cols, d.batch.value.cols))
      && (d.batch.Some? ==>
            forall i :: 0 <= i < |d.batch.value.cols| ==>
                 FromRows(d.batch.value.cols[i].1, u.batch.value.cols[i].1, pieces,
                          keys.Some? && d.batch.value.cols[i].0 in keys.value))
  {
    hide UnfoldTensor, UnfoldArray, Divides, FromRow, Rect;
    forall i | 0 <= i < |d.arrays|
      ensures UnfoldTensor(d.arrays[i].0, d.arrays[i].1, pieces, keys).Ok? <==> Divides(d.arrays[i].0, d.arrays[i].1, pieces, keys)
      ensures UnfoldArray(d.arrays[i].0, d.arrays[i].1, pieces, keys)
           == if keys.None? then Err(NoSplitKeys) else UnfoldTensor(d.arrays[i].0, d.arrays[i].1, pieces, keys)
      ensures UnfoldTensor(d.arrays[i].0, d.arrays[i].1, pieces, keys).Ok? ==>
        FromRows(d.arrays[i].1, UnfoldTensor(d.arrays[i].0, d.arrays[i].1, pieces, keys).value, pieces, Chosen(d.arrays[i].0, keys))
    {
      UnfoldOne(d.arrays[i].0, d.arrays[i].1, pieces, keys);
    }
    if d.batch.Some? {
      var cs := d.batch.value.cols;
      forall i | 0 <= i < |cs|
        ensures UnfoldTensor(cs[i].0, cs[i].1, pieces, keys).Ok? <==> Divides(cs[i].0, cs[i].1, pieces, keys)
        ensures UnfoldTensor(cs[i].0, cs[i].1, pieces, keys).Ok? ==>
          FromRows(cs[i].1, UnfoldTensor(cs[i].0, cs[i].1, pieces, keys).value, pieces, Chosen(cs[i].0, keys))
      {
        UnfoldOne(cs[i].0, cs[i].1, pieces, keys);
      }
    }
  }

  /** For instance a row of three to be split in two; and an array without a key set. */
  lemma UnfoldFails()
    ensures UnfoldColumnChunks(Data(Some(Batch(1, [("x", [[1, 2, 3]])])), []), 2, Some({"x"})) == Err(BadShape)
    ensures UnfoldColumnChunks(Data(None, [("y", [[1]])]), 2, None) == Err(NoSplitKeys)
  {
    var row := [[1, 2, 3]];
    assert row[1..] == [] && Flatten(row) == row[0] + [];
  }

  // ---------------------------------------------------------------- in place: padding and reorder

  predicate Indexable(indices: seq<int>, n: int) { forall i :: 0 <= i < |indices| ==> -n <= indices[i] < n }

  /** The rows that the indices mean: a negative one counts from the end. */
  function Places(indices: seq<int>, n: nat): (p: seq<nat>)
    requires Indexable(indices, n)
    ensures |p| == |indices| && forall i :: 0 <= i < |p| ==> p[i] < n && (p[i] == indices[i] || p[i] == indices[i] + n)
  {
    seq(|indices|, i requires 0 <= i < |indices| => if indices[i] < 0 then indices[i] + n else indices[i])
  }

  /** Indexing a column by a vector of indices. */
  method IndexCol<C>(c: Col<C>, indices: seq<int>) returns (r: Option<Col<C>>)
    ensures r.Some? <==> Indexable(indices, |c|)
    ensures r.Some? ==> r.value == Gather(c, Places(indices, |c|))
  {
    var taken: Col<C> := [];
    for i := 0 to |indices|
      invariant Indexable(indices[..i], |c|)
      invariant taken == Gather(c, Places(indices[..i], |c|))
    {
      var at := if indices[i] < 0 then indices[i] + |c| else indices[i];
      if !(0 <= at < |c|) { return None; }
      taken := taken + [c[at]];
    }
    assert indices[..|indices|] == indices;
    return Some(taken);
  }

  method IndexCols<C>(cs: Cols<C>, indices: seq<int>, n: nat) returns (r: Option<Cols<C>>)
    requires AllHave(cs, n)
    ensures r.Some? <==> cs == [] || Indexable(indices, n)
    ensures r.Some? ==> |r.value| == |cs|
    ensures r.Some? && cs != [] ==> r.value == MapCols(cs, c => Gather(c, Places(indices, n)))
  {
    var taken: Cols<C> := [];
    for i := 0 to |cs|
      invariant |taken| == i && (i > 0 ==> Indexable(indices, n))
      invariant forall j :: 0 <= j < i ==> taken[j] == (cs[j].0, Gather(cs[j].1, Places(indices, n)))
    {
      var c := IndexCol(cs[i].1, indices);
      if c.None? { return None; }
      taken := taken + [(cs[i].0, c.value)];
    }
    return Some(taken);
  }

  class Proto<C> {
    var batch: Option<Batch<C>>
    var arrays: Cols<C>

    function Now(): Data<C>
      reads this
    {
      Data(batch, arrays)
    }

    /** DataProto.padding: copies of the first or the last row are appended; a column without rows has neither. */
    method Padding(size: nat, first: bool) returns (ok: bool)
      requires Aligned(Now())
      modifies this
      ensures ok <==> size == 0 || old(Len(Now())) > 0 || old(arrays == [] && (batch.None? || batch.value.cols == []))
      ensures !ok ==> Now() == old(Now())
      ensures ok && size == 0 ==> Now() == old(Now())
      ensures ok && size > 0 && (first || old(Len(Now())) == 0) ==>
        Now() == Rows(old(Now()), Range(0, old(Len(Now()))) + Copies<nat>(0, size))
      ensures ok && size > 0 && !first && old(Len(Now())) > 0 ==>
        Now() == Rows(old(Now()), Range(0, old(Len(Now()))) + Copies<nat>(old(Len(Now())) - 1, size))
    {
      hide Rows, Repeat, Concat, Aligned;
      if size == 0 { return true; }
      var d := Now();
      var n := Len(d);
      if n == 0 && !NoColumns(d) { return false; }
      var pick := if first || n == 0 then 0 else n - 1;
      var candidate := Rows(d, [pick]);
      var part := Repeat(candidate, size, true);
      PaddingPart(d, pick, size);
      AllRows(d);
      var padded := Concat([d, part]);
      JoinTwo(d, Range(0, n), Copies(pick, size));
      batch, arrays := padded.value.batch, padded.value.arrays;
      return true;
    }

    /** DataProto.reorder: the tensor columns first, then the arrays. Without tensor columns nothing checks the indices before
        the arrays do. */
    method Reorder(indices: seq<int>) returns (ok: bool)
      requires Aligned(Now())
      modifies this
      ensures ok ==> old(batch.Some?)
      ensures old(batch.Some? && batch.value.cols == [] == arrays) ==> ok
      ensures old(batch.Some? && !(batch.value.cols == [] == arrays)) ==>
        (ok <==> forall i :: 0 <= i < |indices| ==> 0 <= old(Len(Now())) + indices[i] && indices[i] < old(Len(Now())))
      ensures ok && Indexable(indices, old(Len(Now()))) ==> Now() == Rows(old(Now()), Places(indices, old(Len(Now()))))
      ensures ok && !Indexable(indices, old(Len(Now()))) ==> Now() == Data(Some(Batch(|indices|, [])), [])
      ensures !ok ==> arrays == old(arrays)
      ensures !ok ==> batch == if old(batch.Some? && batch.value.cols == []) then Some(Batch(|indices|, [])) else old(batch)
    {
      if batch.None? { return false; }
      var n := batch.value.size;
      var cols := IndexCols(batch.value.cols, indices, n);
      if cols.None? { return false; }
      batch := Some(Batch(|indices|, cols.value));
      var rest := IndexCols(arrays, indices, n);
      if rest.None? { return false; }
      arrays := rest.value;
      return true;
    }
  }

  lemma JoinTwo<C>(d: Data<C>, a: seq<nat>, b: seq<nat>)
    ensures Concat([Rows(d, a), Rows(d, b)]) == Ok(Rows(d, a + b))
  {
    var parts, ds := [a, b], [Rows(d, a), Rows(d, b)];
    var last := parts[1..];
    assert last == [b] && |last[1..]| == 0;
    assert Flat(last) == b + Flat(last[1..]) == b;
    assert Flat(parts) == a + Flat(last);
    ConcatRows(d, parts, ds);
  }

  lemma PaddingPart<C>(d: Data<C>, pick: nat, size: nat)
    requires Aligned(d) && (pick < Len(d) || NoColumns(d))
    ensures Repeat(Rows(d, [pick]), size, true) == Rows(d, Copies(pick, size))
  {
    if NoColumns(d) { return; }
    var one := Rows(d, [pick]);
    RowsAligned(d, [pick]);
    RepeatRows(one, size, true);
    RepeatLength(1, size, true);
    var idx := RepeatIdx(1, size, true);
    forall i | 0 <= i < size ensures idx[i] == 0 { RepeatIdxAt(1, size, i); Division.Unique(i, size, 0, i); }
    RowsOfRows(d, [pick], idx);
    assert seq(|idx|, i requires 0 <= i < |idx| => [pick][idx[i]]) == Copies(pick, size);
  }

  /** Reordering by a permutation and then by its inverse changes nothing. */
  lemma ReorderInverse<C>(d: Data<C>, p: seq<nat>, inverse: seq<nat>)
    requires Aligned(d) && |p| == |inverse| == Len(d)
    requires forall i :: 0 <= i < |p| ==> inverse[i] < |p| && p[inverse[i]] == i
    ensures Rows(Rows(d, p), inverse) == d
  {
    RowsOfRows(d, p, inverse);
    assert seq(|inverse|, i requires 0 <= i < |inverse| => p[inverse[i]]) == Range(0, Len(d));
    AllRows(d);
  }
}
