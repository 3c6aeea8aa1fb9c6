/** Dealing tensors to ranks and packing each rank's share: ckpt_get_named_tensor_buckets of
    verl/checkpoint_engine/kimi_checkpoint_engine.py. */
module KimiBuckets {
  import opened Outcomes
  import opened Sequences
  import Division

  datatype Item = Item(name: string, size: nat)

  /** A bucket is a dictionary in insertion order. */
  type Bucket = seq<Item>

  datatype BucketError = NoCapacity | NoRanks

  function SizeOf(x: Item): nat { x.size }

  function Total(b: Bucket): nat { TotalBy(b, SizeOf) }

  /** dict assignment: a name already there keeps its place. */
  function Put(b: Bucket, x: Item): Bucket {
    if b == [] then [x] else if b[0].name == x.name then [x] + b[1..] else [b[0]] + Put(b[1..], x)
  }

  function Names(xs: seq<Item>): (names: seq<string>)
    ensures |names| == |xs| && forall i :: 0 <= i < |xs| ==> names[i] == xs[i].name
  {
    seq(|xs|, i requires 0 <= i < |xs| => xs[i].name)
  }

  lemma {:induction false} PutNew(b: Bucket, x: Item)
    requires forall i :: 0 <= i < |b| ==> b[i].name != x.name
    ensures Put(b, x) == b + [x]
  {
    if b != [] { PutNew(b[1..], x); }
  }

  /** The tensors a rank deals with: every world-th one. */
  function Share(items: seq<Item>, world: nat, rank: nat): seq<Item>
    requires world > 0
  {
    if items == [] then [] else
      var n := |items| - 1;
      Share(items[..n], world, rank) + if Mine(n, world, rank) then [items[n]] else []
  }

  /** At most the limit, unless a single tensor is larger by itself. */
  predicate Fits(b: Bucket, limit: nat) { b != [] && (Total(b) <= limit || |b| == 1) }

  predicate AllFit(bs: seq<Bucket>, limit: nat) { forall i :: 0 <= i < |bs| ==> Fits(bs[i], limit) }

  /** A bucket was closed only because the next tensor did not fit. */
  ghost predicate Greedy(bs: seq<Bucket>, limit: nat) {
    forall i, j :: 0 <= i < j < |bs| && j == i + 1 ==> Overflows(bs[i], bs[j], limit)
  }

  predicate Overflows(b: Bucket, next: Bucket, limit: nat) { next != [] && Total(b) + next[0].size > limit }

  predicate Mine(i: nat, world: nat, rank: nat)
    requires world > 0
  {
    i % world == rank
  }

  lemma TotalAppend(b: Bucket, x: Item)
    ensures Total(b + [x]) == Total(b) + x.size
  {
    TotalByAppend(b, [x], SizeOf);
    TotalByOne(x, SizeOf);
  }

  /** For distinct names, a rank's buckets are its share in order, none empty, none too full but for a lone tensor, and none
      closed early. */
  method NamedTensorBuckets(items: seq<Item>, limit: int, world: nat, rank: nat) returns (r: Result<seq<Bucket>, BucketError>)
    ensures r.Err? <==> limit <= 0 || (world == 0 && items != [])
    ensures r.Ok? && world == 0 ==> r.value == []
    ensures r.Ok? && world > 0 && Distinct(Names(items)) ==> Packed(items, limit, world, rank, r.value)
  {
    hide Distinct, Packed, Mine, Share, Put;
    if limit <= 0 { return Err(NoCapacity); }
    if world == 0 { return if items == [] then Ok([]) else Err(NoRanks); }
    var done: seq<Bucket>, current: Bucket, size: nat := [], [], 0;
    NothingPacked(limit, world, rank);
    for i := 0 to |items|
      invariant Distinct(Names(items)) ==> Packed(items[..i], limit, world, rank, Closed(done, current))
      invariant Distinct(Names(items)) ==> size == Total(current) && (current == [] ==> done == [])
    {
      if Mine(i, world, rank) {
        var x := items[i];
        if Distinct(Names(items)) { PackOne(items, i, limit, world, rank, done, current); }
        if size + x.size > limit && current != [] {
          done, current, size := done + [current], [], 0;
        }
        current, size := Put(current, x), size + x.size;
      } else {
        ShareSkips(items, i, world, rank);
        KeepPacked(items, i, limit, world, rank, Closed(done, current));
      }
    }
    assert items[..|items|] == items;
    return Ok(Closed(done, current));
  }

  /** The buckets as they are when the input ends here. */
  function Closed(done: seq<Bucket>, current: Bucket): seq<Bucket> { if current == [] then done else done + [current] }

  ghost predicate Packed(items: seq<Item>, limit: nat, world: nat, rank: nat, bs: seq<Bucket>)
    requires world > 0
  {
    Flat(bs) == Share(items, world, rank) && AllFit(bs, limit) && Greedy(bs, limit)
  }

  lemma NothingPacked(limit: nat, world: nat, rank: nat)
    requires world > 0
    ensures Packed([], limit, world, rank, [])
  {
  }

  lemma ShareSkips(items: seq<Item>, i: nat, world: nat, rank: nat)
    requires world > 0 && i < |items|
    ensures Share(items[..i + 1], world, rank) == Share(items[..i], world, rank) + if Mine(i, world, rank) then [items[i]] else []
  {
    assert items[..i + 1][..i] == items[..i];
  }

  lemma KeepPacked(items: seq<Item>, i: nat, limit: nat, world: nat, rank: nat, bs: seq<Bucket>)
    requires world > 0 && i < |items| && Share(items[..i + 1], world, rank) == Share(items[..i], world, rank)
    ensures Packed(items[..i], limit, world, rank, bs) ==> Packed(items[..i + 1], limit, world, rank, bs)
  {
  }

  lemma NewBucket(bs: seq<Bucket>, x: Item, limit: nat)
    requires AllFit(bs, limit) && Greedy(bs, limit) && (bs != [] ==> Total(bs[|bs| - 1]) + x.size > limit)
    ensures AllFit(bs + [[x]], limit) && Greedy(bs + [[x]], limit) && Flat(bs + [[x]]) == Flat(bs) + [x]
  {
    hide Total, Flat, Fits;
    FlatPush(bs, [x]);
    LoneFits(x, limit);
    var all := bs + [[x]];
    forall i, j | 0 <= i < j < |all| && j == i + 1 ensures Overflows(all[i], all[j], limit) {
      if j < |bs| { assert Overflows(bs[i], bs[j], limit); }
    }
    forall i | 0 <= i < |all| ensures Fits(all[i], limit) { if i < |bs| { assert all[i] == bs[i]; } }
  }

  lemma LoneFits(x: Item, limit: nat)
    ensures Fits([x], limit)
  {
  }

  lemma GrownFits(b: Bucket, x: Item, limit: nat)
    requires b != [] && Total(b) + x.size <= limit
    ensures Fits(b + [x], limit)
  {
    TotalAppend(b, x);
  }

  lemma GrowBucket(done: seq<Bucket>, current: Bucket, x: Item, limit: nat)
    requires current != [] && AllFit(done + [current], limit) && Greedy(done + [current], limit)
    requires Total(current) + x.size <= limit
    ensures AllFit(done + [current + [x]], limit) && Greedy(done + [current + [x]], limit)
    ensures Flat(done + [current + [x]]) == Flat(done + [current]) + [x]
  {
    hide Total, Flat, Fits;
    GrownFits(current, x, limit);
    FlatPush(done, current);
    FlatPush(done, current + [x]);
    assert Flat(done) + (current + [x]) == Flat(done) + current + [x];
    var was, all := done + [current], done + [current + [x]];
    forall i | 0 <= i < |all| ensures Fits(all[i], limit) { if i < |done| { assert all[i] == was[i]; } }
    forall i, j | 0 <= i < j < |all| && j == i + 1 ensures Overflows(all[i], all[j], limit) {
      assert Overflows(was[i], was[j], limit);
    }
  }

  lemma PackOne(items: seq<Item>, i: nat, limit: nat, world: nat, rank: nat, done: seq<Bucket>, current: Bucket)
    requires world > 0 && i < |items| && Mine(i, world, rank) && Distinct(Names(items))
    requires Packed(items[..i], limit, world, rank, Closed(done, current)) && (current == [] ==> done == [])
    ensures Put([], items[i]) == [items[i]] && Total([items[i]]) == items[i].size
    ensures Total(current) + items[i].size > limit && current != [] ==>
      Packed(items[..i + 1], limit, world, rank, Closed(done + [current], [items[i]]))
    ensures !(Total(current) + items[i].size > limit && current != []) ==>
      && Packed(items[..i + 1], limit, world, rank, Closed(done, Put(current, items[i])))
      && Put(current, items[i]) == current + [items[i]] && Total(Put(current, items[i])) == Total(current) + items[i].size
  {
    hide AllFit, Greedy, Mine, Share, Distinct, Flat, Total;
    var x := items[i];
    ShareSkips(items, i, world, rank);
    TotalAppend([], x);
    NoTotal();
    TotalAppend(current, x);
    assert [] + [x] == [x];
    if current == [] {
      NewBucket([], x, limit);
      assert [] + [[x]] == [[x]];
    } else {
      Last(done, current);
      if Total(current) + x.size > limit { NewBucket(done + [current], x, limit); } else { GrowBucket(done, current, x, limit); }
      NewName(items, i, world, rank, done, current);
      PutNew(current, x);
    }
  }

  lemma NoTotal()
    ensures Total([]) == 0
  {
  }

  lemma Last(done: seq<Bucket>, current: Bucket)
    ensures (done + [current])[|done + [current]| - 1] == current
  {
  }

  lemma NewName(items: seq<Item>, i: nat, world: nat, rank: nat, done: seq<Bucket>, current: Bucket)
    requires world > 0 && i < |items| && Distinct(Names(items)) && Flat(done + [current]) == Share(items[..i], world, rank)
    ensures forall j :: 0 <= j < |current| ==> current[j].name != items[i].name
  {
    hide Mine, Share, Flat;
    ShareNames(items, i, world, rank);
    FlatPush(done, current);
    forall j | 0 <= j < |current| ensures current[j].name != items[i].name {
      assert (Flat(done) + current)[|Flat(done)| + j] == current[j];
      assert current[j] in Share(items[..i], world, rank);
    }
  }

  lemma {:induction false} ShareNames(items: seq<Item>, i: nat, world: nat, rank: nat)
    requires world > 0 && i < |items| && Distinct(Names(items))
    ensures forall y :: y in Share(items[..i], world, rank) ==> y.name != items[i].name
  {
    ShareFrom(items[..i], world, rank);
  }

  lemma {:induction false} ShareFrom(items: seq<Item>, world: nat, rank: nat)
    requires world > 0
    ensures forall y :: y in Share(items, world, rank) ==> y in items
  {
    if items != [] { ShareFrom(items[..|items| - 1], world, rank); }
  }

  /** A bucket is a dictionary: a name it has keeps its place and gets the new tensor, a new one goes to the end. */
  lemma {:induction false} PutExactly(b: Bucket, x: Item, i: nat)
    requires i < |b| && forall j :: 0 <= j < i ==> b[j].name != b[i].name
    ensures x.name == b[i].name ==> Put(b, x) == b[i := x]
    ensures (forall j :: 0 <= j < |b| ==> b[j].name != x.name) ==> Put(b, x) == b + [x]
  {
    if i == 0 {
      if forall j :: 0 <= j < |b| ==> b[j].name != x.name { PutNew(b, x); }
    } else {
      PutExactly(b[1..], x, i - 1);
      assert [b[0]] + b[1..] == b && [b[0]] + b[1..][i - 1 := x] == b[i := x];
    }
  }

  // ---------------------------------------------------------------- the shares partition the tensors

  /** A rank's share of n tensors has as many as there are indices congruent to the rank below n. */
  lemma {:induction false} ShareLength(items: seq<Item>, world: nat, rank: nat)
    requires world > 0 && rank < world
    ensures |Share(items, world, rank)| == |items| / world + if rank < |items| % world then 1 else 0
  {
    if items != [] {
      ShareLength(items[..|items| - 1], world, rank);
      NextQuotient(|items| - 1, world);
    } else {
      Division.Unique(0, world, 0, 0);
    }
  }

  lemma NextQuotient(n: nat, world: nat)
    requires world > 0
    ensures if n % world == world - 1 then (n + 1) / world == n / world + 1 && (n + 1) % world == 0
            else (n + 1) / world == n / world && (n + 1) % world == n % world + 1
  {
    var q, r := n / world, n % world;
    if r == world - 1 {
      assert n + 1 == world * (q + 1);
      Division.Unique(n + 1, world, q + 1, 0);
    } else {
      Division.Unique(n + 1, world, q, r + 1);
    }
  }

  /** Every tensor is in exactly one rank's share, at position i / world of it. */
  lemma {:induction false} DealtOnce(items: seq<Item>, world: nat, i: nat, rank: nat, k: nat)
    requires world > 0 && i < |items| && rank < world
    ensures k * world + rank == i <==> rank == i % world && k == i / world
    ensures i / world < |Share(items, world, i % world)| && Share(items, world, i % world)[i / world] == items[i]
    decreases |items|
  {
    if k * world + rank == i { Division.Unique(i, world, k, rank); }
    var front := items[..|items| - 1];
    if i < |front| { DealtOnce(front, world, i, rank, k); } else { ShareLength(front, world, i % world); }
  }

  lemma LengthOfOthers(items: seq<Item>, world: nat, rank: nat)
    requires world > 0 && rank < world && Mine(|items|, world, rank)
    ensures |Share(items, world, rank)| == |items| / world
  {
    ShareLength(items, world, rank);
  }

  lemma Recompose(n: nat, world: nat, rank: nat, k: nat)
    requires world > 0 && Mine(n, world, rank) && k == n / world
    ensures k * world + rank == n
  {
  }

  /** And a share holds nothing else: position k of it is tensor k * world + rank. */
  lemma {:induction false} ShareAt(items: seq<Item>, world: nat, rank: nat, k: nat)
    requires world > 0 && rank < world && k < |Share(items, world, rank)|
    ensures k * world + rank < |items| && Share(items, world, rank)[k] == items[k * world + rank]
  {
    hide Mine;
    if items != [] {
      var n := |items| - 1;
      if k < |Share(items[..n], world, rank)| {
        ShareAt(items[..n], world, rank, k);
      } else {
        assert Mine(n, world, rank);
        LengthOfOthers(items[..n], world, rank);
        Recompose(n, world, rank, k);
      }
    }
  }
}
