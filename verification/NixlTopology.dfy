/** The chain that NIXL's build_topology sets up (verl/checkpoint_engine/nixl_checkpoint_engine.py), and the checks that
    build_process_group (verl/checkpoint_engine/base.py) and init_process_group make of it. */
module NixlTopology {
  import opened Outcomes

  /** What one worker is told: its rank, and the metadata of its neighbours. */
  datatype Plan<M> = Plan(ranks: seq<int>, prev: seq<Option<M>>, next: seq<Option<M>>)

  datatype Topology<M> = Topology(worldSize: nat, actors: Plan<M>, rollouts: Plan<M>)

  datatype TopologyError = IndexError | WrongLength

  // ---------------------------------------------------------------- Python's sequences

  function Times<T>(x: T, n: int): (s: seq<T>)
    ensures |s| == if n > 0 then n else 0
    ensures forall i :: 0 <= i < |s| ==> s[i] == x
  {
    if n > 0 then seq(n, _ => x) else []
  }

  /** The position an index or a slice bound stands for: negative ones count from the end. */
  function Position(n: nat, i: int): int { if i < 0 then n + i else i }

  function Bound(n: nat, i: int): (b: nat)
    ensures b <= n
  {
    var p := Position(n, i);
    if p < 0 then 0 else if p > n then n else p
  }

  function Index<T>(s: seq<T>, i: int): Option<T> {
    if 0 <= Position(|s|, i) < |s| then Some(s[Position(|s|, i)]) else None
  }

  function Slice<T>(s: seq<T>, lo: int, hi: int): seq<T> {
    if Bound(|s|, lo) <= Bound(|s|, hi) then s[Bound(|s|, lo)..Bound(|s|, hi)] else []
  }

  function Known<M>(ms: seq<M>): (r: seq<Option<M>>)
    ensures |r| == |ms| && forall i :: 0 <= i < |ms| ==> r[i] == Some(ms[i])
  {
    seq(|ms|, i requires 0 <= i < |ms| => Some(ms[i]))
  }

  // ---------------------------------------------------------------- the topology

  function BuildTopology<M>(actors: nat, rollouts: nat, metadata: seq<M>): Result<Topology<M>, TopologyError> {
    var back: int := rollouts;
    if Index(metadata, -back).None? || Index(metadata, 0).None? then Err(IndexError) else
    Ok(Topology(rollouts + 1,
      Plan([0] + Times(-1, actors - 1),
           Times(None, actors),
           [Index(metadata, -back)] + Times(None, actors - 1)),
      Plan(seq(rollouts, i => i + 1),
           [Index(metadata, 0)] + Known(Slice(metadata, -back, -1)),
           Known(Slice(metadata, -back + 1, |metadata|)) + [None])))
  }

  predicate HasLength<M>(p: Plan<M>, n: nat) { |p.ranks| == |p.prev| == |p.next| == n }

  /** init_process_group's assertions. */
  predicate Accepts<M>(rank: int, worldSize: nat, prev: Option<M>, next: Option<M>) {
    && (rank < 0 ==> prev.None? && next.None?)
    && (rank == 0 ==> prev.None? && next.Some?)
    && (0 < rank < worldSize - 1 ==> prev.Some? && next.Some?)
    && (0 < rank == worldSize - 1 ==> prev.Some? && next.None?)
  }

  predicate AllAccept<M>(p: Plan<M>, worldSize: nat) {
    && HasLength(p, |p.ranks|)
    && forall i :: 0 <= i < |p.ranks| ==> Accepts(p.ranks[i], worldSize, p.prev[i], p.next[i])
  }

  /** build_process_group: the two length checks. */
  function Checked<M>(actors: nat, rollouts: nat, metadata: seq<M>): Result<Topology<M>, TopologyError> {
    match BuildTopology(actors, rollouts, metadata)
    case Err(e) => Err(e)
    case Ok(t) => if HasLength(t.actors, actors) && HasLength(t.rollouts, rollouts) then Ok(t) else Err(WrongLength)
  }

  /** The metadata list must have an entry for the first actor and for as many workers as are counted back. */
  lemma BuildsExactly<M>(actors: nat, rollouts: nat, metadata: seq<M>)
    ensures BuildTopology(actors, rollouts, metadata).Ok? <==> metadata != [] && rollouts <= |metadata|
  {
  }

  /** Whose metadata rank r's neighbours must hold: the first actor is rank 0, rollout worker j is rank j + 1. */
  function OfRank<M>(actors: nat, metadata: seq<M>, r: nat): M
    requires 0 < actors && actors + r - 1 < |metadata|
  {
    if r == 0 then metadata[0] else metadata[actors + r - 1]
  }

  /** With one metadata entry per worker, the topology passes the length checks exactly for at least one actor and at least two
      rollout workers. */
  lemma ChecksExactly<M>(actors: nat, rollouts: nat, metadata: seq<M>)
    requires |metadata| == actors + rollouts
    ensures Checked(actors, rollouts, metadata).Ok? <==> actors >= 1 && rollouts >= 2
  {
  }

  /** The actors' part: the first is rank 0 and next to rank 1, the others take no part. */
  lemma ActorsChain<M>(actors: nat, rollouts: nat, metadata: seq<M>)
    requires |metadata| == actors + rollouts && actors >= 1 && rollouts >= 2
    ensures var t := BuildTopology(actors, rollouts, metadata).value;
      && BuildTopology(actors, rollouts, metadata).Ok? && HasLength(t.actors, actors) && t.worldSize == rollouts + 1
      && t.actors.ranks[0] == 0 && t.actors.prev[0] == None && t.actors.next[0] == Some(OfRank(actors, metadata, 1))
      && forall i :: 1 <= i < actors ==> t.actors.ranks[i] == -1 && t.actors.prev[i] == None && t.actors.next[i] == None
  {
  }

  /** The rollout workers' part: worker j is rank j + 1, between ranks j and j + 2. */
  lemma RolloutsChain<M>(actors: nat, rollouts: nat, metadata: seq<M>)
    requires |metadata| == actors + rollouts && actors >= 1 && rollouts >= 2
    ensures var t := BuildTopology(actors, rollouts, metadata).value;
      && BuildTopology(actors, rollouts, metadata).Ok? && HasLength(t.rollouts, rollouts)
      && forall j :: 0 <= j < rollouts ==>
           && t.rollouts.ranks[j] == j + 1
           && t.rollouts.prev[j] == Some(OfRank(actors, metadata, j))
           && t.rollouts.next[j] == if j + 1 < rollouts then Some(OfRank(actors, metadata, j + 2)) else None
  {
    var back: int := rollouts;
    assert Slice(metadata, -back, -1) == metadata[actors..actors + rollouts - 1];
    assert Slice(metadata, -back + 1, |metadata|) == metadata[actors + 1..];
  }

  /** Then every worker accepts its part, and the links form the single chain 0, 1, .., rollouts. */
  lemma OneChain<M>(actors: nat, rollouts: nat, metadata: seq<M>)
    requires |metadata| == actors + rollouts && Checked(actors, rollouts, metadata).Ok?
    ensures actors >= 1 && rollouts >= 2
    ensures var t := Checked(actors, rollouts, metadata).value;
      && t.worldSize == rollouts + 1 && AllAccept(t.actors, t.worldSize) && AllAccept(t.rollouts, t.worldSize)
      && t.actors.ranks[0] == 0 && t.actors.next[0] == Some(OfRank(actors, metadata, 1))
      && (forall i :: 1 <= i < actors ==> t.actors.ranks[i] == -1)
      && (forall j :: 0 <= j < rollouts ==>
            && t.rollouts.ranks[j] == j + 1
            && t.rollouts.prev[j] == Some(OfRank(actors, metadata, j))
            && t.rollouts.next[j] == if j + 1 < rollouts then Some(OfRank(actors, metadata, j + 2)) else None)
  {
    ChecksExactly(actors, rollouts, metadata);
    hide BuildTopology;
    ActorsChain(actors, rollouts, metadata);
    RolloutsChain(actors, rollouts, metadata);
  }

  /** With a single rollout worker the slice from -1 + 1 is the whole list, and the length check fails. */
  lemma OneRolloutFails<M>(actors: nat, metadata: seq<M>)
    requires actors >= 1 && |metadata| == actors + 1
    ensures Checked(actors, 1, metadata) == Err(WrongLength)
    ensures |BuildTopology(actors, 1, metadata).value.rollouts.next| == actors + 2
  {
  }
}
