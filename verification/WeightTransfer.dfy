/** End to end: the weights that leave rank 0 are the weights every rollout rank hands to its server. */
module WeightTransfer {
  import opened Outcomes
  import opened Sequences
  import opened WeightChunks
  import opened BucketPacking
  import opened BucketAlignment
  import opened Buffers
  import NixlRelay
  import NcclBroadcast
  import MooncakeRelay
  import MooncakeRepeat

  ghost predicate Sends(c: Config, ws: seq<Weight>) {
    && c.size > 0 && c.last > 0 && DistinctWeights(ws)
    && Pack(Split(ws, c.size), c.size) == Ok(c.buckets)
  }

  lemma SendsValid(c: Config, ws: seq<Weight>)
    requires Sends(c, ws)
    ensures ValidConfig(c)
  {
    PackSplit(ws, c.size);
  }

  /** What a rank gets out of the sender's chunks: the non-empty weights, or the error of a view that does not start at a
      multiple of the element size. */
  function Expected(c: Config, ws: seq<Weight>): MergeResult {
    if AllLand(Flat(c.buckets), c.size) then Ok((Idle, NonEmpty(ws))) else Err(BadView)
  }

  lemma MergeDelivered(c: Config, ws: seq<Weight>, junk: Byte)
    requires Sends(c, ws)
    ensures MergeFrom(Idle, Flat(c.buckets), c.size, junk) == Expected(c, ws)
    ensures Expected(c, ws) == Ok((Idle, NonEmpty(ws))) <==> AllAligned(c.buckets, c.size)
  {
    hide Flat, AllLand;
    PackSplit(ws, c.size);
    MergePlaced(Idle, Flat(c.buckets), c.size, junk);
    RoundTrip(ws, c.size, junk);
    FlatLands(c.buckets, c.size);
  }

  /** Before the end, a rank's merge has failed exactly when it has met such a weight. */
  lemma MergeSoFar(c: Config, ws: seq<Weight>, out: seq<Chunk>, junk: Byte)
    requires Sends(c, ws) && out <= Flat(c.buckets)
    ensures MergeFrom(Idle, out, c.size, junk).Ok? <==> AllLand(out, c.size)
    ensures MergeFrom(Idle, out, c.size, junk).Err? ==> MergeFrom(Idle, out, c.size, junk) == Err(BadView)
  {
    hide Flat, AllLand, Split;
    PackSplit(ws, c.size);
    RoundTrip(ws, c.size, junk);
    assert WithoutOffset(out) <= WithoutOffset(Flat(c.buckets));
    MergePrefix(Idle, WithoutOffset(out), Split(ws, c.size), c.size, junk);
    MergePlaced(Idle, out, c.size, junk);
  }

  /** NIXL: split, packed, relayed along the chain and merged, in any interleaving. At the end every rank has the weights
      exactly when the packing puts each weight that fits a bucket at a multiple of its element size. */
  lemma NixlEndToEnd(c: Config, ws: seq<Weight>, s: NixlRelay.State, schedule: seq<NixlRelay.Move>, t: NixlRelay.State, junk: Byte)
    requires Sends(c, ws) && NixlRelay.Init(c, s) && NixlRelay.Reaches(c, s, schedule, t)
    ensures NixlRelay.Shape(c, t) && |schedule| <= NixlRelay.Work(c, s)
    ensures forall r :: 0 < r <= c.last ==> (MergeFrom(Idle, t.ranks[r].out, c.size, junk).Ok? <==> AllLand(t.ranks[r].out, c.size))
    ensures (forall m :: !NixlRelay.CanMove(c, t, m)) ==> forall r :: 0 < r <= c.last ==>
              && MergeFrom(Idle, t.ranks[r].out, c.size, junk) == Expected(c, ws)
              && (MergeFrom(Idle, t.ranks[r].out, c.size, junk) == Ok((Idle, NonEmpty(ws))) <==> AllAligned(c.buckets, c.size))
  {
    hide NixlRelay.CanMove, NixlRelay.Reaches, NixlRelay.Init, NixlRelay.Work, Sends, Expected, AllAligned, AllLand;
    SendsValid(c, ws);
    MergeDelivered(c, ws, junk);
    NixlRelay.RelayDelivers(c, s, schedule, t);
    NixlRelay.RelaySafety(c, s, schedule, t);
    forall r | 0 < r <= c.last
      ensures MergeFrom(Idle, t.ranks[r].out, c.size, junk).Ok? <==> AllLand(t.ranks[r].out, c.size)
    {
      MergeSoFar(c, ws, t.ranks[r].out, junk);
    }
  }

  /** NCCL: the same, broadcast to all ranks, whether or not a broadcast waits for its participants. */
  lemma NcclEndToEnd(c: Config, ws: seq<Weight>, s: NcclBroadcast.State, schedule: seq<NcclBroadcast.Move>, t: NcclBroadcast.State, junk: Byte)
    requires Sends(c, ws) && NcclBroadcast.Init(c, s) && NcclBroadcast.Reaches(c, s, schedule, t)
    ensures |schedule| <= NcclBroadcast.Work(c, s) && |t.receivers| == c.last
    ensures forall r :: 0 <= r < c.last ==>
              (MergeFrom(Idle, t.receivers[r].out, c.size, junk).Ok? <==> AllLand(t.receivers[r].out, c.size))
    ensures (forall m :: NcclBroadcast.CanMove(c, t, m) ==> !NcclBroadcast.Met(t, m)) ==> forall r :: 0 <= r < c.last ==>
              && MergeFrom(Idle, t.receivers[r].out, c.size, junk) == Expected(c, ws)
              && (MergeFrom(Idle, t.receivers[r].out, c.size, junk) == Ok((Idle, NonEmpty(ws))) <==> AllAligned(c.buckets, c.size))
  {
    hide NcclBroadcast.CanMove, NcclBroadcast.Met, NcclBroadcast.Reaches, NcclBroadcast.Init, NcclBroadcast.Work;
    hide Sends, Expected, AllAligned, AllLand;
    SendsValid(c, ws);
    MergeDelivered(c, ws, junk);
    NcclBroadcast.BroadcastDelivers(c, s, schedule, t);
    NcclBroadcast.BroadcastSafety(c, s, schedule, t);
    forall r | 0 <= r < c.last
      ensures MergeFrom(Idle, t.receivers[r].out, c.size, junk).Ok? <==> AllLand(t.receivers[r].out, c.size)
    {
      MergeSoFar(c, ws, t.receivers[r].out, junk);
    }
  }

  lemma WholePacked(c: Config, ws: seq<Weight>)
    requires DistinctWeights(ws) && Pack(Whole(ws), c.size) == Ok(c.buckets)
    ensures (c.last > 0 ==> ValidConfig(c)) && WithoutOffset(Flat(c.buckets)) == Whole(ws)
  {
    hide Pack, Packed, Greedy, ValidBucket, DistinctNames, DistinctWeights, Flat, Whole, WithoutOffset;
    PackWhole(ws, c.size);
    AllPacked(Whole(ws), c.size, c.buckets);
  }

  /** Mooncake: whole weights of distinct names that fit a bucket each reach every rollout rank as they are, the empty ones
      included, whatever flags are up at the start as long as none of them is awaited. */
  lemma MooncakeEndToEnd(c: Config, ws: seq<Weight>, s: MooncakeRelay.State, schedule: seq<MooncakeRelay.Move>, t: MooncakeRelay.State)
    requires c.last > 0 && DistinctWeights(ws) && Pack(Whole(ws), c.size) == Ok(c.buckets)
    requires MooncakeRepeat.Start(c, s) && MooncakeRepeat.AwaitedDown(c, s) && MooncakeRelay.Reaches(c, s, schedule, t)
    ensures MooncakeRelay.Shape(c, t) && |schedule| <= MooncakeRelay.Work(c, s)
    ensures (forall m :: !MooncakeRelay.CanMove(c, t, m)) ==>
              forall r :: 0 < r <= c.last ==> WithoutOffset(t.ranks[r].out) == Whole(ws)
  {
    WholePacked(c, ws);
    MooncakeRepeat.DownDelivers(c, s, schedule, t);
  }
}
