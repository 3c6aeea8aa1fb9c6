/** The chain relay of verl/checkpoint_engine/mooncake_checkpoint_engine.py. A rank reads each bucket from the previous
    rank's half-buffer, forwards the description, yields, and then raises a completion flag in one of the previous rank's
    two slots; a half-buffer is refilled only after its flag has been seen and cleared.

    One transfer, from cleared slots. Reads are split into single bytes as in NixlRelay. */
module MooncakeRelay {
  import opened Outcomes
  import opened Sequences
  import opened WeightChunks
  import opened BucketPacking
  import opened Buffers

  // ---------------------------------------------------------------- state

  /** The description sent along the chain: half-buffer, completion slot, entries, bytes used. */
  datatype Info = Info(ptr: Bit, magic: Bit, metadata: Metadata, len: nat)

  datatype Pc = Filling | RootWait | FinalWait | Receiving | SlotWait | Reading | Forwarding | Yielding | Finished

  /** `k` is the number of the current bucket, `k % 2` its half-buffer. */
  datatype Rank = Rank(pc: Pc, k: nat, j: nat, bufs: TwoBuffers, info: Info, copied: set<nat>, out: seq<Chunk>)

  type Slots = s: seq<bool> | |s| == 2 witness [false, false]

  /** `msgs[e]` runs from rank `e` to `e + 1`; `slots[e]` belongs to rank `e` and is set by rank `e + 1`. */
  datatype State = State(ranks: seq<Rank>, msgs: seq<seq<Info>>, slots: seq<Slots>)

  predicate Shape(c: Config, s: State) {
    |s.ranks| == c.last + 1 && |s.msgs| == c.last && |s.slots| == c.last
  }

  ghost predicate Init(c: Config, s: State) {
    && Shape(c, s)
    && (forall e :: 0 <= e < c.last ==> s.msgs[e] == [] && s.slots[e] == [false, false])
    && (forall r :: 0 <= r <= c.last ==>
         var x := s.ranks[r];
         && x.pc == (if r == 0 then Filling else Receiving)
         && x.k == 0 && x.j == 0 && x.out == [] && |x.bufs[0]| == c.size && |x.bufs[1]| == c.size)
  }

  // ---------------------------------------------------------------- steps

  datatype Action = Put | Post | RootClear | FinalClear
                  | TakeInfo | ClearSlot | Copy(p: nat) | EndRead | Forward | Yield | Signal

  predicate OfRoot(a: Action) { a.Put? || a.Post? || a.RootClear? || a.FinalClear? }

  /** What rank `r` sees: its queue ends, its own slots, and the previous rank's slots and buffers. */
  datatype Local = Local(x: Rank, fromPrev: seq<Info>, toNext: seq<Info>, slots: Slots, prevSlots: Slots, prevBufs: TwoBuffers)

  function Half(k: nat): Bit { k % 2 }

  predicate Enabled(c: Config, r: nat, v: Local, a: Action) {
    var x := v.x;
    && (r == 0 <==> OfRoot(a))
    && match a
       case Put => x.pc == Filling && x.k < |c.buckets| && x.j < |c.buckets[x.k]| && InRange(c.buckets[x.k][x.j].meta, x.bufs[Half(x.k)])
       case Post => x.pc == Filling && x.k < |c.buckets| && x.j == |c.buckets[x.k]|
       case RootClear => x.pc == RootWait && v.slots[Half(x.k)]
       case FinalClear => x.pc == FinalWait && v.slots[Half(x.k)]
       case TakeInfo => x.pc == Receiving && v.fromPrev != []
       case ClearSlot => x.pc == SlotWait && v.slots[Half(x.k)]
       case Copy(p) => x.pc == Reading && p < x.info.len && p !in x.copied && p < |x.bufs[Half(x.k)]| && p < |v.prevBufs[x.info.ptr]|
       case EndRead => x.pc == Reading && Positions(x.info.len) <= x.copied
       case Forward => x.pc == Forwarding
       case Yield => x.pc == Yielding && x.j < |x.info.metadata.entries| && InRange(x.info.metadata.entries[x.j], x.bufs[Half(x.k)])
       case Signal => x.pc == Yielding && x.j == |x.info.metadata.entries|
  }

  function Act(c: Config, r: nat, v: Local, a: Action): Local
    requires Enabled(c, r, v, a)
  {
    var x := v.x;
    match a
    case Put => v.(x := x.(bufs := x.bufs[Half(x.k) := Write(x.bufs[Half(x.k)], c.buckets[x.k][x.j])], j := x.j + 1))
    case Post =>
      var info := Info(Half(x.k), Half(x.k), MetaOf(c.buckets, x.k), Total(c.buckets[x.k]));
      var y := if info.metadata.isLast then x.(pc := FinalWait)
               else x.(pc := if x.k == 0 then Filling else RootWait, k := x.k + 1, j := 0);
      v.(x := y, toNext := v.toNext + [info])
    case RootClear => v.(x := x.(pc := Filling), slots := v.slots[Half(x.k) := false])
    case FinalClear => v.(x := x.(pc := Finished), slots := v.slots[Half(x.k) := false])
    case TakeInfo =>
      v.(x := x.(pc := if x.k >= 2 && r < c.last then SlotWait else Reading, info := v.fromPrev[0], copied := {}),
         fromPrev := v.fromPrev[1..])
    case ClearSlot => v.(x := x.(pc := Reading), slots := v.slots[Half(x.k) := false])
    case Copy(p) =>
      v.(x := x.(bufs := x.bufs[Half(x.k) := x.bufs[Half(x.k)][p := v.prevBufs[x.info.ptr][p]]], copied := x.copied + {p}))
    case EndRead => v.(x := x.(pc := Forwarding))
    case Forward =>
      v.(x := x.(pc := Yielding, j := 0),
         toNext := if r < c.last then v.toNext + [x.info.(ptr := Half(x.k), magic := Half(x.k))] else v.toNext)
    case Yield => v.(x := x.(out := x.out + [View(x.bufs[Half(x.k)], x.info.metadata.entries[x.j])], j := x.j + 1))
    case Signal =>
      v.(x := if x.info.metadata.isLast then x.(pc := Finished) else x.(pc := Receiving, k := x.k + 1),
         prevSlots := v.prevSlots[x.info.magic := true])
  }

  datatype Move = Move(r: nat, a: Action)

  function LocalOf(c: Config, s: State, r: nat): Local
    requires Shape(c, s) && r <= c.last
  {
    Local(s.ranks[r],
          if r > 0 then s.msgs[r - 1] else [], if r < c.last then s.msgs[r] else [],
          if r < c.last then s.slots[r] else [false, false], if r > 0 then s.slots[r - 1] else [false, false],
          if r > 0 then s.ranks[r - 1].bufs else [[], []])
  }

  predicate CanMove(c: Config, s: State, m: Move)
    requires Shape(c, s)
  {
    m.r <= c.last && Enabled(c, m.r, LocalOf(c, s, m.r), m.a)
  }

  function Next(c: Config, s: State, m: Move): (t: State)
    requires Shape(c, s) && CanMove(c, s, m)
    ensures Shape(c, t)
  {
    var r := m.r;
    var v := Act(c, r, LocalOf(c, s, r), m.a);
    var msgs := if r > 0 then s.msgs[r - 1 := v.fromPrev] else s.msgs;
    var slots := if r > 0 then s.slots[r - 1 := v.prevSlots] else s.slots;
    State(s.ranks[r := v.x], if r < c.last then msgs[r := v.toNext] else msgs, if r < c.last then slots[r := v.slots] else slots)
  }

  ghost predicate Reaches(c: Config, s: State, schedule: seq<Move>, t: State)
    requires Shape(c, s)
    decreases |schedule|
  {
    if schedule == [] then s == t
    else CanMove(c, s, schedule[0]) && Reaches(c, Next(c, s, schedule[0]), schedule[1..], t)
  }

  // ---------------------------------------------------------------- invariant

  function Minus(a: nat, b: nat): nat { if a < b then 0 else a - b }

  /** Buckets described to the next rank, descriptions taken, buckets finished (flag raised), flags seen and cleared. */
  function Described(x: Rank): nat {
    if x.pc == FinalWait || x.pc == Yielding || x.pc == Finished then x.k + 1 else x.k
  }

  function Taken(x: Rank): nat { if x.pc == Receiving then x.k else x.k + 1 }

  function Signalled(x: Rank): nat { if x.pc == Finished then x.k + 1 else x.k }

  function Cleared(x: Rank): nat {
    if x.pc == RootWait || x.pc == Receiving || x.pc == SlotWait then Minus(x.k, 2) else Minus(x.k, 1)
  }

  function InfoOf(c: Config, i: nat): Info
    requires i < |c.buckets|
  {
    Info(Half(i), Half(i), MetaOf(c.buckets, i), Total(c.buckets[i]))
  }

  ghost predicate RootOk(c: Config, x: Rank)
    requires x.k < |c.buckets|
  {
    match x.pc
    case Filling => x.j <= |c.buckets[x.k]| && HoldsPrefix(x.bufs[Half(x.k)], c.buckets[x.k], x.j)
    case RootWait => x.k >= 2 && x.j == 0
    case FinalWait | Finished => x.k == |c.buckets| - 1
    case _ => false
  }

  function YieldedHere(c: Config, x: Rank): nat
    requires x.k < |c.buckets|
  {
    if x.pc == Finished then |c.buckets[x.k]| else if x.pc == Yielding && x.j <= |c.buckets[x.k]| then x.j else 0
  }

  ghost predicate RelayOk(c: Config, r: nat, x: Rank)
    requires x.k < |c.buckets|
  {
    && (x.pc == Receiving || x.pc == SlotWait || x.pc == Reading || x.pc == Forwarding || x.pc == Yielding || x.pc == Finished)
    && (x.pc != Receiving ==> x.info == InfoOf(c, x.k))
    && (x.pc == SlotWait ==> x.k >= 2 && r < c.last && x.copied == {})
    && (x.pc == Reading ==> x.copied <= Positions(Total(c.buckets[x.k])))
    && (x.pc == Forwarding ==> Holds(x.bufs[Half(x.k)], c.buckets[x.k]))
    && (x.pc == Yielding ==> x.j <= |c.buckets[x.k]|)
    && (x.pc == Finished ==> x.k == |c.buckets| - 1)
    && x.out == Flat(c.buckets[..x.k]) + c.buckets[x.k][..YieldedHere(c, x)]
  }

  /** Every bucket that the next rank may still read is whole in its half-buffer. */
  ghost predicate RankOk(c: Config, r: nat, x: Rank) {
    && x.k < |c.buckets|
    && |x.bufs[0]| == c.size && |x.bufs[1]| == c.size
    && (forall q :: Cleared(x) <= q < Described(x) ==> Holds(x.bufs[Half(q)], c.buckets[q]))
    && if r == 0 then x.out == [] && RootOk(c, x) else RelayOk(c, r, x)
  }

  /** Slot `i` holds the flag of one of the (at most two) buckets from `lo` up to `hi`. */
  predicate Flagged(i: Bit, lo: nat, hi: nat) {
    (lo < hi && Half(lo) == i) || (lo + 1 < hi && Half(lo + 1) == i)
  }

  ghost predicate Flags(slots: Slots, lo: nat, hi: nat) {
    forall i: Bit :: slots[i] == Flagged(i, lo, hi)
  }

  function Infos(c: Config, lo: nat, hi: nat): (q: seq<Info>)
    requires lo <= hi <= |c.buckets|
    ensures |q| == hi - lo
    decreases hi - lo
  {
    if lo == hi then [] else [InfoOf(c, lo)] + Infos(c, lo + 1, hi)
  }

  lemma {:induction false} InfosPush(c: Config, lo: nat, hi: nat)
    requires lo <= hi < |c.buckets|
    ensures Infos(c, lo, hi + 1) == Infos(c, lo, hi) + [InfoOf(c, hi)]
    decreases hi - lo
  {
    if lo < hi { InfosPush(c, lo + 1, hi); }
  }

  ghost predicate SlotsOk(c: Config, r: nat, a: Rank, slots: Slots, signalled: nat) {
    if r == 0 && a.pc == Finished then
      // the last flag has been cleared, the one before it has not
      signalled == |c.buckets| && !slots[Half(a.k)] && slots[Other(Half(a.k))] == (|c.buckets| >= 2)
    else
      Flags(slots, Cleared(a), signalled)
  }

  ghost predicate LinkOk(c: Config, r: nat, a: Rank, b: Rank, msgs: seq<Info>, slots: Slots)
    requires r > 0
  {
    && Cleared(a) <= Signalled(b) <= Taken(b) <= Described(a) <= |c.buckets|
    && Described(a) <= Cleared(a) + 2
    && msgs == Infos(c, Taken(b), Described(a))
    && SlotsOk(c, r - 1, a, slots, Signalled(b))
    && ReadSoFar(a, b)
  }

  /** What b has read so far of a's half-buffer is what is there. */
  ghost predicate ReadSoFar(a: Rank, b: Rank) {
    b.pc == Reading ==> Agrees(b.bufs[Half(b.k)], a.bufs[Half(b.k)], b.copied)
  }

  ghost predicate Inv(c: Config, s: State) {
    && Shape(c, s)
    && (forall r :: 0 <= r <= c.last ==> RankOk(c, r, s.ranks[r]))
    && (forall r :: 0 < r <= c.last ==> LinkOk(c, r, s.ranks[r - 1], s.ranks[r], s.msgs[r - 1], s.slots[r - 1]))
  }

  lemma InitInv(c: Config, s: State)
    requires ValidConfig(c) && Init(c, s)
    ensures Inv(c, s)
  {
    forall r | 0 <= r <= c.last ensures RankOk(c, r, s.ranks[r]) { assert c.buckets[..0] == [] && c.buckets[0][..0] == []; }
    forall r | 0 < r <= c.last ensures LinkOk(c, r, s.ranks[r - 1], s.ranks[r], s.msgs[r - 1], s.slots[r - 1]) {}
  }

  // ---------------------------------------------------------------- every step keeps the invariant

  ghost predicate LocalOk(c: Config, r: nat, v: Local, w: Rank, z: Rank) {
    && r <= c.last
    && RankOk(c, r, v.x)
    && (r > 0 ==> RankOk(c, r - 1, w) && LinkOk(c, r, w, v.x, v.fromPrev, v.prevSlots) && v.prevBufs == w.bufs)
    && (r < c.last ==> RankOk(c, r + 1, z) && LinkOk(c, r + 1, v.x, z, v.toNext, v.slots))
    && (r == 0 ==> v.fromPrev == [])
  }

  ghost predicate Head(c: Config, v: Local) {
    v.fromPrev != [] ==> Taken(v.x) < |c.buckets| && v.fromPrev[0] == InfoOf(c, Taken(v.x))
  }

  lemma HeadOk(c: Config, r: nat, v: Local, w: Rank, z: Rank)
    requires LocalOk(c, r, v, w, z)
    ensures Head(c, v)
  {
    hide RankOk;
  }

  lemma PutRank(c: Config, v: Local)
    requires ValidConfig(c) && RankOk(c, 0, v.x) && Enabled(c, 0, v, Put)
    ensures RankOk(c, 0, Act(c, 0, v, Put).x)
  {
    hide ValidBucket, InRange, View, Write, HoldsPrefix, MetaOf, Flat;
    WriteNext(v.x.bufs[Half(v.x.k)], c.buckets[v.x.k], v.x.j);
  }

  lemma RootRank(c: Config, v: Local, a: Action)
    requires RankOk(c, 0, v.x) && Enabled(c, 0, v, a) && !a.Put?
    ensures RankOk(c, 0, Act(c, 0, v, a).x)
  {
    hide InRange, View, Write;
    MetaEntries(c.buckets, v.x.k);
  }

  lemma TakeRank(c: Config, r: nat, v: Local, a: Action)
    requires RankOk(c, r, v.x) && Head(c, v) && Enabled(c, r, v, a) && (a.TakeInfo? || a.ClearSlot?)
    ensures RankOk(c, r, Act(c, r, v, a).x)
  {
    hide HoldsPrefix, Flat, View, Write, InRange, MetaOf;
  }

  lemma CopyRank(c: Config, r: nat, v: Local, p: nat)
    requires RankOk(c, r, v.x) && Enabled(c, r, v, Copy(p))
    ensures RankOk(c, r, Act(c, r, v, Copy(p)).x)
  {
    hide Holds, HoldsPrefix, Flat, MetaOf, InRange, View, Total, Half;
    var x, y := v.x, Act(c, r, v, Copy(p)).x;
    forall q | Cleared(x) <= q < Described(x) ensures Holds(y.bufs[Half(q)], c.buckets[q]) {
      HalfNext(q);
    }
  }

  lemma HalfNext(q: nat)
    ensures Half(q + 1) == Other(Half(q)) && Half(q + 2) == Half(q)
  {
  }

  /** A completed read has brought the whole bucket. */
  lemma Arrived(c: Config, r: nat, x: Rank, w: Rank, msgs: seq<Info>, slots: Slots)
    requires ValidConfig(c) && r > 0 && RankOk(c, r, x) && RankOk(c, r - 1, w) && LinkOk(c, r, w, x, msgs, slots)
    requires x.pc == Reading && Positions(x.info.len) <= x.copied
    ensures Holds(x.bufs[Half(x.k)], c.buckets[x.k])
  {
    hide HoldsPrefix, Holds, Flat, Infos, SlotsOk, ValidBucket, MetaOf, Positions, Agrees;
    assert Cleared(w) <= x.k < Described(w);
    PartialCopy(x.bufs[Half(x.k)], w.bufs[Half(x.k)], x.copied, c.buckets[x.k]);
  }

  lemma EndReadRank(c: Config, r: nat, x: Rank)
    requires r > 0 && RankOk(c, r, x) && x.pc == Reading && Holds(x.bufs[Half(x.k)], c.buckets[x.k])
    ensures RankOk(c, r, x.(pc := Forwarding))
  {
    hide HoldsPrefix, Flat, MetaOf;
  }

  lemma ForwardRank(c: Config, r: nat, v: Local)
    requires RankOk(c, r, v.x) && Enabled(c, r, v, Forward)
    ensures RankOk(c, r, Act(c, r, v, Forward).x)
  {
    hide HoldsPrefix, Flat, MetaOf, InRange, View;
  }

  lemma YieldRank(c: Config, r: nat, v: Local)
    requires RankOk(c, r, v.x) && Enabled(c, r, v, Yield)
    ensures RankOk(c, r, Act(c, r, v, Yield).x)
  {
    hide HoldsPrefix, Flat, MetaOf, InRange;
    var x := v.x;
    var b := c.buckets[x.k];
    MetaEntries(c.buckets, x.k);
    assert Holds(x.bufs[Half(x.k)], c.buckets[x.k]);
    HeldEntry(x.bufs[Half(x.k)], b, x.j);
    assert b[..x.j + 1] == b[..x.j] + [b[x.j]];
  }

  lemma SignalRank(c: Config, r: nat, v: Local)
    requires RankOk(c, r, v.x) && Enabled(c, r, v, Signal)
    ensures RankOk(c, r, Act(c, r, v, Signal).x)
  {
    hide HoldsPrefix, Flat, MetaOf, InRange, View;
    var b := c.buckets[v.x.k];
    MetaEntries(c.buckets, v.x.k);
    FlatExtend(c.buckets, v.x.k);
    assert b[..|b|] == b;
    if v.x.k + 1 < |c.buckets| { assert c.buckets[v.x.k + 1][..0] == []; }
  }

  lemma RankStep(c: Config, r: nat, v: Local, a: Action, w: Rank, z: Rank)
    requires ValidConfig(c) && LocalOk(c, r, v, w, z) && Enabled(c, r, v, a)
    ensures RankOk(c, r, Act(c, r, v, a).x)
  {
    hide RankOk, LinkOk, ValidConfig, InRange, View, Write, MetaOf;
    HeadOk(c, r, v, w, z);
    match a
    case Put => PutRank(c, v);
    case Post | RootClear | FinalClear => RootRank(c, v, a);
    case TakeInfo | ClearSlot => TakeRank(c, r, v, a);
    case Copy(p) => CopyRank(c, r, v, p);
    case EndRead => Arrived(c, r, v.x, w, v.fromPrev, v.prevSlots); EndReadRank(c, r, v.x);
    case Forward => ForwardRank(c, r, v);
    case Yield => YieldRank(c, r, v);
    case Signal => SignalRank(c, r, v);
  }

  // ---------------------------------------------------------------- flags and queues

  /** Raising the next flag: its slot is clear, as at most one other flag is up. */
  lemma FlagRaise(slots: Slots, lo: nat, hi: nat)
    requires Flags(slots, lo, hi)
    requires lo <= hi < lo + 2
    ensures !slots[Half(hi)]
    ensures Flags(slots[Half(hi) := true], lo, hi + 1)
  {
  }

  /** A flag seen in the slot of the oldest bucket is that bucket's flag. */
  lemma FlagClear(slots: Slots, lo: nat, hi: nat)
    requires Flags(slots, lo, hi)
    requires lo <= hi <= lo + 2 && slots[Half(lo)]
    ensures lo < hi
    ensures Flags(slots[Half(lo) := false], lo + 1, hi)
  {
    HalfNext(lo);
  }

  ghost predicate Counted(c: Config, r: nat, v: Local, a: Action)
    requires Enabled(c, r, v, a)
  {
    var x, y := v.x, Act(c, r, v, a).x;
    && (r > 0 ==> Taken(y) == Taken(x) + (if a.TakeInfo? then 1 else 0))
    && (r > 0 ==> Signalled(y) == Signalled(x) + (if a.Signal? then 1 else 0))
    && Described(y) == Described(x) + (if a.Post? || a.Forward? then 1 else 0) <= |c.buckets|
    && (r < c.last ==> Cleared(y) == Cleared(x) + (if a.RootClear? || a.ClearSlot? then 1 else 0))
    && (a.RootClear? || a.ClearSlot? ==> Half(x.k) == Half(Cleared(x)))
    && (a.Post? || (a.Forward? && r < c.last) ==>
          Described(x) < |c.buckets| && Act(c, r, v, a).toNext == v.toNext + [InfoOf(c, Described(x))])
    && (a.Signal? ==> x.info.magic == Half(Signalled(x)))
  }

  lemma RootCounters(c: Config, v: Local, a: Action)
    requires v.x.k < |c.buckets| && RootOk(c, v.x) && Enabled(c, 0, v, a)
    ensures Counted(c, 0, v, a)
  {
    hide Holds, HoldsPrefix, Positions, Flat, View, Write, InRange, Total, MetaOf;
    MetaEntries(c.buckets, v.x.k);
    if v.x.k >= 2 { HalfNext(v.x.k - 2); }
  }

  lemma ReadCounters(c: Config, r: nat, v: Local, a: Action)
    requires r > 0 && v.x.k < |c.buckets| && RelayOk(c, r, v.x) && Head(c, v) && Enabled(c, r, v, a)
    requires a.TakeInfo? || a.ClearSlot?
    ensures Counted(c, r, v, a)
  {
    hide Holds, HoldsPrefix, Positions, Flat, View, Write, InRange, Total, MetaOf, YieldedHere, Half, InfoOf;
    if v.x.k >= 2 { HalfNext(v.x.k - 2); }
  }

  lemma CopyCounters(c: Config, r: nat, v: Local, a: Action)
    requires r > 0 && v.x.k < |c.buckets| && RelayOk(c, r, v.x) && Enabled(c, r, v, a) && (a.Copy? || a.EndRead?)
    ensures Counted(c, r, v, a)
  {
    hide Holds, HoldsPrefix, Positions, Flat, View, Write, InRange, Total, MetaOf, YieldedHere, Half, InfoOf;
  }

  lemma YieldCounters(c: Config, r: nat, v: Local, a: Action)
    requires r > 0 && v.x.k < |c.buckets| && RelayOk(c, r, v.x) && Enabled(c, r, v, a)
    requires a.Forward? || a.Yield? || a.Signal?
    ensures Counted(c, r, v, a)
  {
    hide Holds, HoldsPrefix, Positions, Flat, View, Write, InRange, Total, MetaOf, YieldedHere, Half;
    MetaEntries(c.buckets, v.x.k);
  }

  lemma RelayCounters(c: Config, r: nat, v: Local, a: Action)
    requires r > 0 && v.x.k < |c.buckets| && RelayOk(c, r, v.x) && Head(c, v) && Enabled(c, r, v, a)
    ensures Counted(c, r, v, a)
  {
    hide RelayOk, Head, Counted;
    if a.Forward? || a.Yield? || a.Signal? { YieldCounters(c, r, v, a); }
    else if a.Copy? || a.EndRead? { CopyCounters(c, r, v, a); }
    else { ReadCounters(c, r, v, a); }
  }

  lemma Counters(c: Config, r: nat, v: Local, a: Action)
    requires RankOk(c, r, v.x) && Head(c, v) && Enabled(c, r, v, a)
    ensures Counted(c, r, v, a)
  {
    hide Counted, RootOk, RelayOk, Head, Enabled, Holds;
    if r == 0 { RootCounters(c, v, a); } else { RelayCounters(c, r, v, a); }
  }

  lemma LeftLink(c: Config, r: nat, v: Local, a: Action, w: Rank)
    requires r > 0 && RankOk(c, r, v.x) && LinkOk(c, r, w, v.x, v.fromPrev, v.prevSlots) && v.prevBufs == w.bufs
    requires Head(c, v) && Enabled(c, r, v, a) && !a.Copy?
    ensures LinkOk(c, r, w, Act(c, r, v, a).x, Act(c, r, v, a).fromPrev, Act(c, r, v, a).prevSlots)
  {
    hide HoldsPrefix, Flat, View, Cleared, Described, Flagged, Half, MetaOf, InfoOf, ReadSoFar;
    Counters(c, r, v, a);
    LeftRead(c, r, v, a, w);
    if a.Signal? {
      NotAllSignalled(c, r, v.x);
      FlagRaise(v.prevSlots, Cleared(w), Signalled(v.x));
    }
  }

  lemma LeftRead(c: Config, r: nat, v: Local, a: Action, w: Rank)
    requires r > 0 && ReadSoFar(w, v.x) && RankOk(c, r, v.x) && Enabled(c, r, v, a) && !a.Copy?
    ensures ReadSoFar(w, Act(c, r, v, a).x)
  {
    hide HoldsPrefix, Holds, Flat, View, Half, MetaOf, InRange, Write;
  }

  lemma NotAllSignalled(c: Config, r: nat, x: Rank)
    requires r > 0 && RankOk(c, r, x) && x.pc == Yielding
    ensures Signalled(x) == x.k < |c.buckets|
    ensures Taken(x) == Signalled(x) + 1
  {
    hide HoldsPrefix, Flat;
  }

  lemma LeftLinkCopy(c: Config, r: nat, v: Local, p: nat, w: Rank)
    requires r > 0 && RankOk(c, r, v.x) && LinkOk(c, r, w, v.x, v.fromPrev, v.prevSlots) && v.prevBufs == w.bufs
    requires Enabled(c, r, v, Copy(p))
    ensures LinkOk(c, r, w, Act(c, r, v, Copy(p)).x, v.fromPrev, v.prevSlots)
  {
    hide HoldsPrefix, Holds, Flat, SlotsOk, Infos, MetaOf, Total, Positions, Half;
  }

  lemma LinkFrame(c: Config, r: nat, x: Rank, y: Rank, z: Rank, msgs: seq<Info>, slots: Slots)
    requires r > 0 && LinkOk(c, r, x, z, msgs, slots)
    requires Cleared(y) == Cleared(x) && Described(y) == Described(x) && y.k == x.k && (y.pc == Finished <==> x.pc == Finished)
    requires z.pc == Reading ==> y.bufs[Half(z.k)] == x.bufs[Half(z.k)]
    ensures LinkOk(c, r, y, z, msgs, slots)
  {
    hide Cleared, Described, Taken, Signalled, Infos, Flagged, Half;
  }

  /** A rank writes the half-buffer that the next rank has finished with. */
  lemma OtherHalf(c: Config, r: nat, v: Local, a: Action, q: nat)
    requires RankOk(c, r, v.x) && Enabled(c, r, v, a) && (a.Put? || a.Copy?) && Cleared(v.x) <= q < Described(v.x)
    ensures Half(q) == Other(Half(v.x.k))
  {
    hide HoldsPrefix, Flat, View, MetaOf, InRange;
    HalfNext(q);
  }

  lemma RightLinkWrite(c: Config, r: nat, v: Local, a: Action, z: Rank)
    requires r < c.last && RankOk(c, r, v.x) && LinkOk(c, r + 1, v.x, z, v.toNext, v.slots)
    requires Enabled(c, r, v, a) && (a.Put? || a.Copy?)
    ensures LinkOk(c, r + 1, Act(c, r, v, a).x, z, v.toNext, v.slots)
  {
    hide RankOk, SlotsOk, Infos, Half, Write, InRange, View;
    if z.pc == Reading {
      OtherHalf(c, r, v, a, z.k);
    }
    LinkFrame(c, r + 1, v.x, Act(c, r, v, a).x, z, v.toNext, v.slots);
  }

  lemma RightLinkQueue(c: Config, r: nat, v: Local, a: Action, z: Rank)
    requires r < c.last && RankOk(c, r, v.x) && LinkOk(c, r + 1, v.x, z, v.toNext, v.slots)
    requires Head(c, v) && Enabled(c, r, v, a) && !a.Put? && !a.Copy? && !a.FinalClear?
    requires RankOk(c, r, Act(c, r, v, a).x)
    ensures LinkOk(c, r + 1, Act(c, r, v, a).x, z, Act(c, r, v, a).toNext, Act(c, r, v, a).slots)
  {
    hide RankOk, Holds, Infos, Agrees, Positions, HoldsPrefix, Flat, View, Cleared, Described, Taken, Signalled, Flagged;
    hide Half, MetaOf, InfoOf, InRange, Total, Head;
    Counters(c, r, v, a);
    WindowOk(c, r, Act(c, r, v, a).x);
    if a.Post? || a.Forward? { InfosPush(c, Taken(z), Described(v.x)); }
    if a.RootClear? || a.ClearSlot? { FlagClear(v.slots, Cleared(v.x), Signalled(z)); }
  }

  lemma WindowOk(c: Config, r: nat, x: Rank)
    requires RankOk(c, r, x)
    ensures Described(x) <= Cleared(x) + 2
  {
    hide HoldsPrefix, Flat;
  }

  /** The sender's last wait: the flag it sees can only be the last bucket's. */
  lemma RightLinkFinal(c: Config, v: Local, z: Rank)
    requires c.last > 0 && RankOk(c, 0, v.x) && LinkOk(c, 1, v.x, z, v.toNext, v.slots) && Enabled(c, 0, v, FinalClear)
    ensures Signalled(z) == |c.buckets|
    ensures LinkOk(c, 1, Act(c, 0, v, FinalClear).x, z, v.toNext, Act(c, 0, v, FinalClear).slots)
  {
    hide HoldsPrefix, Holds, Flat, Infos, Flagged, Flags, Half, MetaOf, InRange, View, Write, ReadSoFar, Signalled, Taken;
    AtFinalWait(c, v.x);
    LastFlag(v.slots, v.x.k, Signalled(z));
    ReadStays(v.x, Act(c, 0, v, FinalClear).x, z);
  }

  lemma AtFinalWait(c: Config, x: Rank)
    requires RankOk(c, 0, x) && x.pc == FinalWait
    ensures x.k == |c.buckets| - 1 && Cleared(x) == Minus(x.k, 1) && Described(x) == |c.buckets|
  {
    hide HoldsPrefix, Holds, Flat, Half;
  }

  /** With the flag of bucket k up and none after it raised, flags k - 1 and k are the ones between the cleared and the raised. */
  lemma LastFlag(slots: Slots, k: nat, hi: nat)
    requires Minus(k, 1) <= hi <= k + 1 && Flags(slots, Minus(k, 1), hi) && slots[Half(k)]
    ensures hi == k + 1 && slots[Other(Half(k))] == (k >= 1)
  {
    if k > 0 { HalfNext(k - 1); }
    assert slots[Half(k)] == Flagged(Half(k), Minus(k, 1), hi);
    assert slots[Other(Half(k))] == Flagged(Other(Half(k)), Minus(k, 1), hi);
  }

  lemma ReadStays(x: Rank, y: Rank, z: Rank)
    requires ReadSoFar(x, z) && y.bufs == x.bufs
    ensures ReadSoFar(y, z)
  {
    hide Half;
  }

  lemma LocalStep(c: Config, r: nat, v: Local, a: Action, w: Rank, z: Rank)
    requires ValidConfig(c) && LocalOk(c, r, v, w, z) && Enabled(c, r, v, a)
    ensures LocalOk(c, r, Act(c, r, v, a), w, z)
  {
    hide RankOk, LinkOk, ValidConfig, View, Write, InRange, MetaOf, Head;
    HeadOk(c, r, v, w, z);
    RankStep(c, r, v, a, w, z);
    if r > 0 {
      if a.Copy? { LeftLinkCopy(c, r, v, a.p, w); } else { LeftLink(c, r, v, a, w); }
    }
    if r < c.last {
      if a.Put? || a.Copy? { RightLinkWrite(c, r, v, a, z); }
      else if a.FinalClear? { RightLinkFinal(c, v, z); }
      else { RightLinkQueue(c, r, v, a, z); }
    }
  }

  lemma StepInv(c: Config, s: State, m: Move)
    requires ValidConfig(c) && Inv(c, s) && CanMove(c, s, m)
    ensures Inv(c, Next(c, s, m))
  {
    hide RankOk, LinkOk, Enabled, Act;
    var r, a, v, t := m.r, m.a, LocalOf(c, s, m.r), Next(c, s, m);
    var w := if r > 0 then s.ranks[r - 1] else s.ranks[r];
    var z := if r < c.last then s.ranks[r + 1] else s.ranks[r];
    assert LocalOk(c, r, v, w, z);
    LocalStep(c, r, v, a, w, z);
    forall q | 0 < q <= c.last ensures LinkOk(c, q, t.ranks[q - 1], t.ranks[q], t.msgs[q - 1], t.slots[q - 1]) {}
  }

  // ---------------------------------------------------------------- safety of every run

  lemma {:induction false} RunInv(c: Config, s: State, schedule: seq<Move>, t: State)
    requires ValidConfig(c) && Inv(c, s) && Reaches(c, s, schedule, t)
    ensures Inv(c, t)
    decreases |schedule|
  {
    hide RankOk, LinkOk, CanMove, Next;
    if schedule != [] {
      StepInv(c, s, schedule[0]);
      RunInv(c, Next(c, s, schedule[0]), schedule[1..], t);
    }
  }

  lemma YieldedPrefix(c: Config, r: nat, x: Rank)
    requires r > 0 && RankOk(c, r, x)
    ensures x.out <= Flat(c.buckets)
    ensures x.pc == Finished ==> x.out == Flat(c.buckets)
  {
    hide Holds;
    var b := c.buckets[x.k];
    FlatPrefix(c.buckets, x.k, YieldedHere(c, x));
    if x.pc == Finished {
      FlatExtend(c.buckets, x.k);
      assert b[..|b|] == b && c.buckets[..|c.buckets|] == c.buckets;
    }
  }

  predicate Writes(x: Rank, a: Action) { a.Put? || a.Copy? }

  /** Half-buffer `b` of rank `r` is described to the next rank and not yet finished with, or being yielded from. */
  predicate InUse(c: Config, s: State, r: nat, b: Bit)
    requires Shape(c, s) && r <= c.last
  {
    || (r < c.last && exists i :: 0 <= i < |s.msgs[r]| && s.msgs[r][i].ptr == b)
    || (r < c.last && s.ranks[r + 1].pc != Receiving && s.ranks[r + 1].pc != Finished && s.ranks[r + 1].info.ptr == b)
    || (s.ranks[r].pc == Yielding && Half(s.ranks[r].k) == b)
  }

  lemma {:induction false} InfosAt(c: Config, lo: nat, hi: nat, i: nat)
    requires lo <= hi <= |c.buckets| && i < hi - lo
    ensures Infos(c, lo, hi)[i] == InfoOf(c, lo + i)
    decreases hi - lo
  {
    if i > 0 { InfosAt(c, lo + 1, hi, i - 1); }
  }

  /** A half-buffer is refilled only after the next rank has raised its flag for the bucket that was in it. */
  lemma RefillWaits(c: Config, s: State, schedule: seq<Move>, t: State, m: Move)
    requires ValidConfig(c) && Init(c, s) && Reaches(c, s, schedule, t)
    requires Shape(c, t) && CanMove(c, t, m) && Writes(t.ranks[m.r], m.a)
    ensures !InUse(c, t, m.r, Half(t.ranks[m.r].k))
    ensures m.r < c.last ==> t.ranks[m.r].k <= Signalled(t.ranks[m.r + 1]) + 1
  {
    InitInv(c, s);
    RunInv(c, s, schedule, t);
    WriteIsFree(c, t, m);
  }

  lemma WriteIsFree(c: Config, t: State, m: Move)
    requires ValidConfig(c) && Inv(c, t) && CanMove(c, t, m) && Writes(t.ranks[m.r], m.a)
    ensures !InUse(c, t, m.r, Half(t.ranks[m.r].k))
    ensures m.r < c.last ==> t.ranks[m.r].k <= Signalled(t.ranks[m.r + 1]) + 1
  {
    hide RankOk, LinkOk, Half, InRange;
    var r, x := m.r, t.ranks[m.r];
    if r < c.last {
      NextDoneWith(c, r, LocalOf(c, t, r), m.a, t.ranks[r + 1]);
    }
    NotYielding(x, m.a, LocalOf(c, t, r), c, r);
  }

  lemma NotYielding(x: Rank, a: Action, v: Local, c: Config, r: nat)
    requires v.x == x && Enabled(c, r, v, a) && Writes(x, a)
    ensures x.pc != Yielding
  {
  }

  lemma NextDoneWith(c: Config, r: nat, v: Local, a: Action, z: Rank)
    requires r < c.last && RankOk(c, r, v.x) && RankOk(c, r + 1, z) && LinkOk(c, r + 1, v.x, z, v.toNext, v.slots)
    requires Enabled(c, r, v, a) && Writes(v.x, a)
    ensures forall i :: 0 <= i < |v.toNext| ==> v.toNext[i].ptr != Half(v.x.k)
    ensures z.pc != Receiving && z.pc != Finished ==> z.info.ptr != Half(v.x.k)
    ensures v.x.k <= Signalled(z) + 1
  {
    hide Infos, HoldsPrefix, Holds, Flat, SlotsOk, Half, Total, MetaOf, InRange, View, Positions, Agrees;
    if z.pc != Receiving && z.pc != Finished {
      OtherHalf(c, r, v, a, z.k);
    }
    forall i | 0 <= i < |v.toNext| ensures v.toNext[i].ptr != Half(v.x.k) {
      InfosAt(c, Taken(z), Described(v.x), i);
      OtherHalf(c, r, v, a, Taken(z) + i);
    }
  }

  /** A flag is raised at most once between two clearings. */
  lemma FlagRaisedOnce(c: Config, s: State, schedule: seq<Move>, t: State, r: nat)
    requires ValidConfig(c) && Init(c, s) && Reaches(c, s, schedule, t)
    requires Shape(c, t) && CanMove(c, t, Move(r, Signal))
    ensures r > 0 && !t.slots[r - 1][t.ranks[r].info.magic]
  {
    hide RankOk, LinkOk, Act;
    InitInv(c, s);
    RunInv(c, s, schedule, t);
    var w, x := t.ranks[r - 1], t.ranks[r];
    assert RankOk(c, r, x) && LinkOk(c, r, w, x, t.msgs[r - 1], t.slots[r - 1]);
    SignalFresh(c, r, w, LocalOf(c, t, r), t.msgs[r - 1], t.slots[r - 1]);
  }

  lemma SignalFresh(c: Config, r: nat, w: Rank, v: Local, msgs: seq<Info>, slots: Slots)
    requires r > 0 && RankOk(c, r, v.x) && LinkOk(c, r, w, v.x, msgs, slots) && Enabled(c, r, v, Signal)
    ensures !slots[v.x.info.magic]
  {
    hide Holds, HoldsPrefix, Flat, Half, Flagged, MetaOf, Total, Infos, Positions, Agrees;
    NotAllSignalled(c, r, v.x);
    FlagRaise(slots, Cleared(w), Signalled(v.x));
  }

  /** What is yielded is a prefix of what was sent, all of it at the end; and when the sender's last wait returns,
      rank 1 has finished every bucket, although the sender waits for the last flag only. */
  lemma RelaySafety(c: Config, s: State, schedule: seq<Move>, t: State)
    requires ValidConfig(c) && Init(c, s) && Reaches(c, s, schedule, t)
    ensures Shape(c, t)
    ensures forall r :: 0 < r <= c.last ==> t.ranks[r].out <= Flat(c.buckets)
    ensures forall r :: 0 < r <= c.last && t.ranks[r].pc == Finished ==> t.ranks[r].out == Flat(c.buckets)
    ensures t.ranks[0].pc == Finished ==> t.ranks[1].pc == Finished
  {
    hide RankOk, LinkOk;
    InitInv(c, s);
    RunInv(c, s, schedule, t);
    forall r | 0 < r <= c.last
      ensures t.ranks[r].out <= Flat(c.buckets)
      ensures t.ranks[r].pc == Finished ==> t.ranks[r].out == Flat(c.buckets)
    {
      YieldedPrefix(c, r, t.ranks[r]);
    }
    if t.ranks[0].pc == Finished {
      AllSignalled(c, t.ranks[0], t.ranks[1], t.msgs[0], t.slots[0]);
    }
  }

  lemma AllSignalled(c: Config, w: Rank, x: Rank, msgs: seq<Info>, slots: Slots)
    requires RankOk(c, 1, x) && LinkOk(c, 1, w, x, msgs, slots) && w.pc == Finished
    ensures x.pc == Finished
  {
    hide HoldsPrefix, Flat, Infos;
  }

  // ---------------------------------------------------------------- progress

  ghost predicate Final(c: Config, s: State)
    requires Shape(c, s)
  {
    forall r :: 0 <= r <= c.last ==> s.ranks[r].pc == Finished
  }

  predicate BlockedOnPrev(c: Config, s: State, r: nat)
    requires Shape(c, s) && 0 < r <= c.last
  {
    s.ranks[r].pc == Receiving && s.msgs[r - 1] == []
  }

  predicate WaitsForFlag(x: Rank) { x.pc == RootWait || x.pc == SlotWait || x.pc == FinalWait }

  /** A rank waiting for a flag waits for one that can still be raised. */
  lemma NextCanAct(c: Config, s: State, r: nat)
    requires Inv(c, s) && r < c.last && WaitsForFlag(s.ranks[r]) && !s.slots[r][Half(s.ranks[r].k)]
    ensures !BlockedOnPrev(c, s, r + 1) && s.ranks[r + 1].pc != Finished
  {
    hide HoldsPrefix, Holds, Flat, MetaOf, Positions, Half;
    var x, z := s.ranks[r], s.ranks[r + 1];
    assert RankOk(c, r, x) && RankOk(c, r + 1, z);
    assert LinkOk(c, r + 1, x, z, s.msgs[r], s.slots[r]);
    if x.k >= 2 { HalfNext(x.k - 2); }
    if x.k >= 1 { HalfNext(x.k - 1); }
    assert s.slots[r][Half(x.k)] == Flagged(Half(x.k), Cleared(x), Signalled(z));
  }

  lemma ReadingFits(c: Config, r: nat, x: Rank)
    requires ValidConfig(c) && r > 0 && RankOk(c, r, x) && x.pc == Reading
    ensures x.info.len <= c.size
  {
    hide Flat, HoldsPrefix, ValidConfig;
    BucketFits(c, x.k);
  }

  lemma BuffersFull(c: Config, r: nat, x: Rank, b: Bit)
    requires RankOk(c, r, x)
    ensures |x.bufs[b]| == c.size
  {
    hide Flat, Holds, RootOk, RelayOk;
  }

  lemma ReadMoves(c: Config, s: State, r: nat) returns (m: Move)
    requires ValidConfig(c) && Inv(c, s) && 0 < r <= c.last && s.ranks[r].pc == Reading
    ensures CanMove(c, s, m) && m.r == r
  {
    hide RankOk, LinkOk, Half, InRange;
    var x := s.ranks[r];
    ReadingFits(c, r, x);
    BuffersFull(c, r, x, Half(x.k));
    BuffersFull(c, r - 1, s.ranks[r - 1], x.info.ptr);
    if p :| p in Positions(x.info.len) && p !in x.copied {
      m := Move(r, Copy(p));
    } else {
      m := Move(r, EndRead);
    }
  }

  lemma YieldMoves(c: Config, s: State, r: nat) returns (m: Move)
    requires Inv(c, s) && 0 < r <= c.last && s.ranks[r].pc == Yielding
    ensures CanMove(c, s, m) && m.r == r
  {
    hide Flat, LinkOk, HoldsPrefix, MetaOf, RootOk, View, Half;
    var x := s.ranks[r];
    assert RankOk(c, r, x);
    MetaEntries(c.buckets, x.k);
    if x.j < |c.buckets[x.k]| {
      assert Holds(x.bufs[Half(x.k)], c.buckets[x.k]);
      HeldEntry(x.bufs[Half(x.k)], c.buckets[x.k], x.j);
      m := Move(r, Yield);
    } else {
      m := Move(r, Signal);
    }
  }

  lemma RelayPc(c: Config, r: nat, x: Rank)
    requires r > 0 && RankOk(c, r, x)
    ensures x.pc == Receiving || x.pc == SlotWait || x.pc == Reading || x.pc == Forwarding || x.pc == Yielding || x.pc == Finished
    ensures x.pc == SlotWait ==> r < c.last
  {
    hide HoldsPrefix, Flat;
  }

  /** A rank that does not wait for its predecessor can act, or some later rank can. */
  lemma {:induction false} Forwards(c: Config, s: State, r: nat) returns (m: Move)
    requires ValidConfig(c) && Inv(c, s) && 0 < r <= c.last && s.ranks[r].pc != Finished && !BlockedOnPrev(c, s, r)
    ensures CanMove(c, s, m)
    decreases c.last - r
  {
    hide RankOk, LinkOk, Half, InRange;
    var x := s.ranks[r];
    RelayPc(c, r, x);
    if x.pc == Reading {
      m := ReadMoves(c, s, r);
    } else if x.pc == Yielding {
      m := YieldMoves(c, s, r);
    } else if x.pc == SlotWait && !s.slots[r][Half(x.k)] {
      NextCanAct(c, s, r);
      m := Forwards(c, s, r + 1);
    } else {
      m := Move(r, match x.pc case Receiving => TakeInfo case SlotWait => ClearSlot case _ => Forward);
    }
  }

  lemma BucketFits(c: Config, k: nat)
    requires ValidConfig(c) && k < |c.buckets|
    ensures Total(c.buckets[k]) <= c.size
  {
  }

  lemma RootMoves(c: Config, s: State) returns (m: Move)
    requires ValidConfig(c) && Inv(c, s) && s.ranks[0].pc != Finished
    ensures CanMove(c, s, m)
  {
    hide LinkOk, RankOk, Half, Enabled;
    var x := s.ranks[0];
    assert RankOk(c, 0, x);
    if (x.pc == RootWait || x.pc == FinalWait) && !s.slots[0][Half(x.k)] {
      NextCanAct(c, s, 0);
      m := Forwards(c, s, 1);
    } else {
      var a := RootEnabled(c, LocalOf(c, s, 0));
      m := Move(0, a);
    }
  }

  lemma RootEnabled(c: Config, v: Local) returns (a: Action)
    requires ValidConfig(c) && RankOk(c, 0, v.x) && v.x.pc != Finished
    requires v.x.pc == RootWait || v.x.pc == FinalWait ==> v.slots[Half(v.x.k)]
    ensures Enabled(c, 0, v, a)
  {
    hide Flat, Holds, HoldsPrefix, Half, ValidBucket;
    var x := v.x;
    if x.pc == Filling && x.j < |c.buckets[x.k]| { EntryFits(c.buckets[x.k], x.j, c.size); }
    a := match x.pc
         case Filling => if x.j < |c.buckets[x.k]| then Put else Post
         case RootWait => RootClear
         case _ => FinalClear;
  }

  lemma PrevCanAct(c: Config, s: State, r: nat)
    requires Inv(c, s) && 0 < r <= c.last && BlockedOnPrev(c, s, r)
    ensures s.ranks[r - 1].pc != Finished
  {
    hide Flat, HoldsPrefix, SlotsOk;
    var w, x := s.ranks[r - 1], s.ranks[r];
    assert RankOk(c, r - 1, w) && RankOk(c, r, x) && LinkOk(c, r, w, x, s.msgs[r - 1], s.slots[r - 1]);
  }

  lemma {:induction false} Backwards(c: Config, s: State, r: nat) returns (m: Move)
    requires ValidConfig(c) && Inv(c, s) && r <= c.last && s.ranks[r].pc != Finished
    ensures CanMove(c, s, m)
    decreases r
  {
    hide RankOk, LinkOk, CanMove;
    if r == 0 {
      m := RootMoves(c, s);
    } else if BlockedOnPrev(c, s, r) {
      PrevCanAct(c, s, r);
      m := Backwards(c, s, r - 1);
    } else {
      m := Forwards(c, s, r);
    }
  }

  lemma NoDeadlock(c: Config, s: State, schedule: seq<Move>, t: State)
    requires ValidConfig(c) && Init(c, s) && Reaches(c, s, schedule, t)
    ensures Shape(c, t) && (Final(c, t) || exists m :: CanMove(c, t, m))
  {
    InitInv(c, s);
    RunInv(c, s, schedule, t);
    hide RankOk, LinkOk, CanMove;
    if !Final(c, t) {
      var r :| 0 <= r <= c.last && t.ranks[r].pc != Finished;
      var m := Backwards(c, t, r);
    }
  }

  // ---------------------------------------------------------------- termination

  function Round(c: Config): nat { MaxEntries(c.buckets) + c.size + 8 }

  function Within(c: Config, x: Rank): nat {
    match x.pc
    case Filling => 1 + x.j
    case RootWait => 0
    case FinalWait => 2 + |Bucketed(c, x.k)|
    case Receiving => 0
    case SlotWait => 1
    case Reading => 2 + |x.copied|
    case Forwarding => 3 + c.size
    case Yielding => 4 + c.size + x.j
    case Finished => 5 + c.size + |Bucketed(c, x.k)|
  }

  function RankLeft(c: Config, x: Rank): nat {
    var budget, done := (|c.buckets| + 1) * Round(c), x.k * Round(c) + Within(c, x);
    if done <= budget then budget - done else 0
  }

  lemma LeftLess(c: Config, x: Rank, y: Rank)
    requires Within(c, x) < Round(c) && Within(c, y) < Round(c) && y.k <= |c.buckets|
    requires y.k == x.k + 1 || (y.k == x.k && Within(c, x) < Within(c, y))
    ensures RankLeft(c, y) < RankLeft(c, x)
  {
    hide Within, Round;
    Product(x.k, |c.buckets|, Round(c));
    Product(y.k, |c.buckets|, Round(c));
    assert (x.k + 1) * Round(c) == x.k * Round(c) + Round(c);
  }

  lemma WithinBound(c: Config, r: nat, x: Rank)
    requires ValidConfig(c) && RankOk(c, r, x)
    ensures Within(c, x) < Round(c)
  {
    hide HoldsPrefix, Flat, ValidConfig;
    BucketFits(c, x.k);
    if x.pc == Reading {
      assert Positions(Total(c.buckets[x.k])) <= Positions(c.size);
      CopiedBound(x.copied, c.size);
    }
    assert |Bucketed(c, x.k)| <= MaxEntries(c.buckets);
  }

  lemma Advances(c: Config, r: nat, v: Local, a: Action)
    requires ValidConfig(c) && RankOk(c, r, v.x) && Enabled(c, r, v, a)
    ensures var x, y := v.x, Act(c, r, v, a).x; y.k == x.k + 1 || (y.k == x.k && Within(c, x) < Within(c, y))
  {
    hide HoldsPrefix, Flat, View, Write, InRange, MetaOf, ValidConfig, Positions, Within;
    WithinBound(c, r, v.x);
    if r == 0 { RootAdvances(c, v, a); } else { RelayAdvances(c, r, v, a); }
  }

  lemma RootAdvances(c: Config, v: Local, a: Action)
    requires RankOk(c, 0, v.x) && Enabled(c, 0, v, a)
    ensures var x, y := v.x, Act(c, 0, v, a).x; y.k == x.k + 1 || (y.k == x.k && Within(c, x) < Within(c, y))
  {
    hide HoldsPrefix, Flat, View, Write, InRange, Positions;
    MetaEntries(c.buckets, v.x.k);
  }

  lemma RelayAdvances(c: Config, r: nat, v: Local, a: Action)
    requires ValidConfig(c) && r > 0 && RankOk(c, r, v.x) && Enabled(c, r, v, a)
    ensures var x, y := v.x, Act(c, r, v, a).x; y.k == x.k + 1 || (y.k == x.k && Within(c, x) < Within(c, y))
  {
    hide Holds, Flat, ValidConfig, RelayOk, Act, Within, Enabled, Total, MetaOf;
    CopiedFits(c, r, v.x);
    if a.Copy? { CopyAdvances(c, r, v, a.p); } else { OtherAdvances(c, r, v, a); }
  }

  lemma CopiedFits(c: Config, r: nat, x: Rank)
    requires ValidConfig(c) && r > 0 && RankOk(c, r, x)
    ensures x.pc == Reading ==> |x.copied| <= c.size
  {
    hide Holds, Flat, ValidConfig, Total, MetaOf;
    BucketFits(c, x.k);
    if x.pc == Reading { CopiedBound(x.copied, Total(c.buckets[x.k])); }
  }

  lemma CopyAdvances(c: Config, r: nat, v: Local, p: nat)
    requires Enabled(c, r, v, Copy(p))
    ensures var x, y := v.x, Act(c, r, v, Copy(p)).x; y.k == x.k && Within(c, x) < Within(c, y)
  {
    hide Half, Total, MetaOf, View, Write;
  }

  lemma OtherAdvances(c: Config, r: nat, v: Local, a: Action)
    requires r > 0 && v.x.k < |c.buckets| && RelayOk(c, r, v.x) && Enabled(c, r, v, a) && !a.Copy?
    requires v.x.pc == Reading ==> |v.x.copied| <= c.size
    ensures var x, y := v.x, Act(c, r, v, a).x; y.k == x.k + 1 || (y.k == x.k && Within(c, x) < Within(c, y))
  {
    hide Holds, Flat, View, Write, InRange, MetaOf, Positions, Total, Half;
    MetaEntries(c.buckets, v.x.k);
  }

  function Work(c: Config, s: State): nat
    requires Shape(c, s)
  {
    Sum(seq(c.last + 1, r requires 0 <= r < c.last + 1 => RankLeft(c, s.ranks[r])))
  }

  lemma StepWork(c: Config, s: State, m: Move)
    requires ValidConfig(c) && Inv(c, s) && CanMove(c, s, m)
    ensures Work(c, Next(c, s, m)) < Work(c, s)
  {
    hide LinkOk, Enabled, Act, RankLeft, RootOk, RelayOk, Holds, ValidConfig, Within, Round;
    StepInv(c, s, m);
    var t := Next(c, s, m);
    var x, y := s.ranks[m.r], t.ranks[m.r];
    assert RankOk(c, m.r, x) && RankOk(c, m.r, y);
    WithinBound(c, m.r, x);
    WithinBound(c, m.r, y);
    Advances(c, m.r, LocalOf(c, s, m.r), m.a);
    LeftLess(c, x, y);
    var f := seq(c.last + 1, r requires 0 <= r < c.last + 1 => RankLeft(c, s.ranks[r]));
    var g := seq(c.last + 1, r requires 0 <= r < c.last + 1 => RankLeft(c, t.ranks[r]));
    assert g == f[m.r := g[m.r]];
    SumUpdate(f, m.r, g[m.r]);
  }

  lemma {:induction false} RunsEnd(c: Config, s: State, schedule: seq<Move>, t: State)
    requires ValidConfig(c) && Inv(c, s) && Reaches(c, s, schedule, t)
    ensures Shape(c, t) && |schedule| + Work(c, t) <= Work(c, s)
    decreases |schedule|
  {
    hide RankOk, LinkOk, CanMove, Next, Work;
    if schedule != [] {
      StepInv(c, s, schedule[0]);
      StepWork(c, s, schedule[0]);
      RunsEnd(c, Next(c, s, schedule[0]), schedule[1..], t);
    }
  }

  /** Every schedule is finite; one that cannot be continued has delivered everything, and leaves completion flags up:
      both flags of every middle rank (one, if there was a single bucket), and the sender's flag of the last bucket but one.
      Nothing lowers them before the next transfer. */
  lemma RelayDelivers(c: Config, s: State, schedule: seq<Move>, t: State)
    requires ValidConfig(c) && Init(c, s) && Reaches(c, s, schedule, t)
    ensures Shape(c, t) && |schedule| <= Work(c, s)
    ensures (forall m :: !CanMove(c, t, m)) ==>
              && (forall r :: 0 < r <= c.last ==> t.ranks[r].out == Flat(c.buckets))
              && (forall r, i: Bit :: 0 < r < c.last ==> (t.slots[r][i] <==> i < |c.buckets|))
              && (forall i: Bit :: t.slots[0][i] <==> (|c.buckets| >= 2 && i == Half(|c.buckets|)))
  {
    hide RankOk, LinkOk, CanMove, Work;
    InitInv(c, s);
    RunInv(c, s, schedule, t);
    RunsEnd(c, s, schedule, t);
    NoDeadlock(c, s, schedule, t);
    RelaySafety(c, s, schedule, t);
    if forall m :: !CanMove(c, t, m) {
      forall r, i: Bit | 0 < r < c.last ensures t.slots[r][i] <==> i < |c.buckets| { LeftUp(c, t, r, i); }
      forall i: Bit ensures t.slots[0][i] <==> (|c.buckets| >= 2 && i == Half(|c.buckets|)) { LeftUp(c, t, 0, i); }
    }
  }

  lemma LeftUp(c: Config, t: State, r: nat, i: Bit)
    requires Inv(c, t) && Final(c, t) && r < c.last
    ensures r > 0 ==> (t.slots[r][i] <==> i < |c.buckets|)
    ensures r == 0 ==> (t.slots[r][i] <==> (|c.buckets| >= 2 && i == Half(|c.buckets|)))
  {
    hide HoldsPrefix, Flat, Infos;
    var x, z := t.ranks[r], t.ranks[r + 1];
    assert RankOk(c, r, x) && RankOk(c, r + 1, z) && LinkOk(c, r + 1, x, z, t.msgs[r], t.slots[r]);
    HalfNext(x.k);
    if x.k > 0 { HalfNext(x.k - 1); }
    assert i == Half(x.k) || i == Other(Half(x.k));
  }

  /** From every state of a run there is a way to continue until nothing more can happen. */
  lemma {:induction false} Completes(c: Config, s: State) returns (schedule: seq<Move>, t: State)
    requires ValidConfig(c) && Inv(c, s)
    ensures Reaches(c, s, schedule, t) && Shape(c, t) && forall m :: !CanMove(c, t, m)
    decreases Work(c, s)
  {
    hide RankOk, LinkOk, CanMove, Next, Work;
    if m :| CanMove(c, s, m) {
      StepInv(c, s, m);
      StepWork(c, s, m);
      var rest, last := Completes(c, Next(c, s, m));
      schedule, t := [m] + rest, last;
      assert schedule[1..] == rest;
    } else {
      schedule, t := [], s;
    }
  }

  function Beginning(c: Config): State {
    var blank := Copies<Byte>(0, c.size);
    var x := Rank(Receiving, 0, 0, [blank, blank], Info(0, 0, Metadata([], false), 0), {}, []);
    State(Copies(x, c.last + 1)[0 := x.(pc := Filling)], Copies([], c.last), Copies([false, false], c.last))
  }

  /** Every transfer has a start, and a run from it that delivers. */
  lemma SomeRun(c: Config) returns (schedule: seq<Move>, t: State)
    requires ValidConfig(c)
    ensures Init(c, Beginning(c)) && Reaches(c, Beginning(c), schedule, t) && Shape(c, t) && forall m :: !CanMove(c, t, m)
    ensures forall r :: 0 < r <= c.last ==> t.ranks[r].out == Flat(c.buckets)
  {
    hide Reaches, Work, CanMove;
    InitInv(c, Beginning(c));
    schedule, t := Completes(c, Beginning(c));
    RelayDelivers(c, Beginning(c), schedule, t);
  }
}
