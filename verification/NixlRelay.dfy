/** The chain relay of verl/checkpoint_engine/nixl_checkpoint_engine.py: rank 0 sends buckets to rank 1, every rollout
    rank reads each bucket from the previous rank, offers it to the next one and yields it, all ranks running at once
    with two buffers each.

    A one-sided read is split into its beginning, one step for every byte (in any order, at any time) and its completion,
    so that a source overwritten during a read would be seen. Message and notification queues are first-in first-out. */
module NixlRelay {
  import opened Outcomes
  import opened Sequences
  import opened WeightChunks
  import opened BucketPacking
  import opened Buffers

  // ---------------------------------------------------------------- state

  datatype Message = Message(notifyKey: nat, desc: Bit, metadata: Metadata)

  /** A read under way: `copied` bytes have arrived; `done` once the transfer has completed and notified. */
  datatype ReadOp = ReadOp(src: Bit, dst: Bit, key: nat, copied: set<nat>, done: bool)

  /** Where a rank is in its program. The first four belong to rank 0; `Crashed` is a failed notify-key assertion. */
  datatype Pc = Filling | Ready | FinalWait | Finished
              | AwaitFirst | FirstRead | Top | Sent | Yielding | WaitNext | WaitRead | Crashed

  /** `send` is the index of send_buf, the other buffer is recv_buf; `key` is the notify key of the bucket offered last;
      `k` numbers the current bucket and `j` the entries of it written (rank 0) or yielded (others). */
  datatype Rank = Rank(pc: Pc, k: nat, j: nat, bufs: TwoBuffers, send: Bit, meta: Metadata, nextMeta: Metadata,
                       op: Option<ReadOp>, key: Option<nat>, out: seq<Chunk>)

  /** Queue `e` runs between ranks `e` and `e + 1`: messages downstream, notifications upstream. */
  datatype State = State(ranks: seq<Rank>, msgs: seq<seq<Message>>, notifs: seq<seq<nat>>)

  predicate Shape(c: Config, s: State) {
    |s.ranks| == c.last + 1 && |s.msgs| == c.last && |s.notifs| == c.last
  }

  /** Buffers start with arbitrary contents. */
  ghost predicate Init(c: Config, s: State) {
    && Shape(c, s)
    && (forall e :: 0 <= e < c.last ==> s.msgs[e] == [] && s.notifs[e] == [])
    && (forall r :: 0 <= r <= c.last ==>
         && s.ranks[r].pc == (if r == 0 then Filling else AwaitFirst)
         && s.ranks[r].k == 0 && s.ranks[r].j == 0 && s.ranks[r].send == 0
         && s.ranks[r].op == None && s.ranks[r].key == None && s.ranks[r].out == []
         && |s.ranks[r].bufs[0]| == c.size && |s.ranks[r].bufs[1]| == c.size)
  }

  // ---------------------------------------------------------------- steps

  datatype Action =
    | Put | RootAck | RootPost | RootFinish
    | BeginFirst | EndFirst | Offer | BeginRead | SkipRead | Yield | EndYield | AckNext | EndRead
    | Copy(p: nat) | Complete

  predicate OfRoot(a: Action) { a.Put? || a.RootAck? || a.RootPost? || a.RootFinish? }

  /** What one rank sees and can change: itself, its four queue ends, and the previous rank's buffers (read only). */
  datatype Local = Local(x: Rank, fromPrev: seq<Message>, toNext: seq<Message>,
                         fromNext: seq<nat>, toPrev: seq<nat>, prevBufs: TwoBuffers)

  predicate Enabled(c: Config, r: nat, v: Local, a: Action) {
    var x := v.x;
    && (r == 0 <==> OfRoot(a))
    && match a
       case Put => x.pc == Filling && x.k < |c.buckets| && x.j < |c.buckets[x.k]| && InRange(c.buckets[x.k][x.j].meta, x.bufs[x.send])
       case RootAck => x.pc == Filling && x.k < |c.buckets| && x.j == |c.buckets[x.k]| && (x.key.Some? ==> v.fromNext != [])
       case RootPost => x.pc == Ready && x.k < |c.buckets|
       case RootFinish => x.pc == FinalWait && v.fromNext != []
       case BeginFirst => x.pc == AwaitFirst && v.fromPrev != []
       case EndFirst => x.pc == FirstRead && x.op.Some? && x.op.value.done
       case Offer => x.pc == Top
       case BeginRead => x.pc == Sent && !x.meta.isLast && v.fromPrev != []
       case SkipRead => x.pc == Sent && x.meta.isLast
       case Yield => x.pc == Yielding && x.j < |x.meta.entries| && InRange(x.meta.entries[x.j], x.bufs[x.send])
       case EndYield => x.pc == Yielding && x.j == |x.meta.entries|
       case AckNext => x.pc == WaitNext && (x.key.Some? ==> v.fromNext != [])
       case EndRead => x.pc == WaitRead && x.op.Some? && x.op.value.done
       case Copy(p) => && x.op.Some? && !x.op.value.done && p !in x.op.value.copied
                       && p < |x.bufs[x.op.value.dst]| && p < |v.prevBufs[x.op.value.src]|
       case Complete => x.op.Some? && !x.op.value.done && Positions(|x.bufs[x.op.value.dst]|) <= x.op.value.copied
  }

  /** wait_for_complete of the bucket offered last: the notification must carry its key. */
  function Acknowledged(x: Rank, notification: nat, next: Pc): Rank {
    x.(pc := if x.key == Some(notification) then next else Crashed)
  }

  function StartRead(x: Rank, m: Message): ReadOp { ReadOp(m.desc, Other(x.send), m.notifyKey, {}, false) }

  function Act(c: Config, r: nat, v: Local, a: Action): Local
    requires Enabled(c, r, v, a)
  {
    var x := v.x;
    match a
    case Put => v.(x := x.(bufs := x.bufs[x.send := Write(x.bufs[x.send], c.buckets[x.k][x.j])], j := x.j + 1))
    case RootAck =>
      if x.key.None? then v.(x := x.(pc := Ready))
      else v.(x := Acknowledged(x, v.fromNext[0], Ready), fromNext := v.fromNext[1..])
    case RootPost =>
      var m := Message(x.k, x.send, MetaOf(c.buckets, x.k));
      var y := if m.metadata.isLast then x.(pc := FinalWait, key := Some(x.k))
               else x.(pc := Filling, key := Some(x.k), send := Other(x.send), k := x.k + 1, j := 0);
      v.(x := y, toNext := v.toNext + [m])
    case RootFinish => v.(x := Acknowledged(x, v.fromNext[0], Finished), fromNext := v.fromNext[1..])
    case BeginFirst =>
      var m := v.fromPrev[0];
      v.(x := x.(pc := FirstRead, meta := m.metadata, op := Some(StartRead(x, m))), fromPrev := v.fromPrev[1..])
    case EndFirst => v.(x := x.(pc := Top, op := None, send := Other(x.send)))
    case Offer =>
      if r < c.last then v.(x := x.(pc := Sent, key := Some(x.k)), toNext := v.toNext + [Message(x.k, x.send, x.meta)])
      else v.(x := x.(pc := Sent, key := None))
    case BeginRead =>
      var m := v.fromPrev[0];
      v.(x := x.(pc := Yielding, j := 0, nextMeta := m.metadata, op := Some(StartRead(x, m))), fromPrev := v.fromPrev[1..])
    case SkipRead => v.(x := x.(pc := Yielding, j := 0))
    case Yield => v.(x := x.(out := x.out + [View(x.bufs[x.send], x.meta.entries[x.j])], j := x.j + 1))
    case EndYield => v.(x := x.(pc := WaitNext))
    case AckNext =>
      var next := if x.meta.isLast then Finished else WaitRead;
      if x.key.None? then v.(x := x.(pc := next))
      else v.(x := Acknowledged(x, v.fromNext[0], next), fromNext := v.fromNext[1..])
    case EndRead => v.(x := x.(pc := Top, k := x.k + 1, meta := x.nextMeta, op := None, send := Other(x.send)))
    case Copy(p) =>
      var op := x.op.value;
      var bufs := x.bufs[op.dst := x.bufs[op.dst][p := v.prevBufs[op.src][p]]];
      v.(x := x.(bufs := bufs, op := Some(op.(copied := op.copied + {p}))))
    case Complete => v.(x := x.(op := Some(x.op.value.(done := true))), toPrev := v.toPrev + [x.op.value.key])
  }

  /** One step of rank `r` in the whole system. */
  datatype Move = Move(r: nat, a: Action)

  function LocalOf(c: Config, s: State, r: nat): Local
    requires Shape(c, s) && r <= c.last
  {
    Local(s.ranks[r],
          if r > 0 then s.msgs[r - 1] else [], if r < c.last then s.msgs[r] else [],
          if r < c.last then s.notifs[r] else [], if r > 0 then s.notifs[r - 1] else [],
          if r > 0 then s.ranks[r - 1].bufs else [[], []])
  }

  predicate CanMove(c: Config, s: State, m: Move)
    requires Shape(c, s)
  {
    m.r <= c.last && Enabled(c, m.r, LocalOf(c, s, m.r), m.a)
  }

  function Next(c: Config, s: State, m: Move): (t: State)
    requires Shape(c, s) && CanMove(c, s, m)
    ensures Shape(c, t)
  {
    var r := m.r;
    var v := Act(c, r, LocalOf(c, s, r), m.a);
    var msgs := if r > 0 then s.msgs[r - 1 := v.fromPrev] else s.msgs;
    var notifs := if r > 0 then s.notifs[r - 1 := v.toPrev] else s.notifs;
    State(s.ranks[r := v.x],
          if r < c.last then msgs[r := v.toNext] else msgs,
          if r < c.last then notifs[r := v.fromNext] else notifs)
  }

  /** The state reached by a schedule: any interleaving of the ranks' steps and byte transfers. */
  ghost predicate Reaches(c: Config, s: State, schedule: seq<Move>, t: State)
    requires Shape(c, s)
    decreases |schedule|
  {
    if schedule == [] then s == t
    else CanMove(c, s, schedule[0]) && Reaches(c, Next(c, s, schedule[0]), schedule[1..], t)
  }

  // ---------------------------------------------------------------- invariant

  /** How many buckets a rank has taken metadata for, finished reading, offered, and had acknowledged. */
  function Base(x: Rank): nat { if x.pc == AwaitFirst || x.pc == FirstRead then 0 else x.k + 1 }

  function Taken(x: Rank): nat { Base(x) + if x.op.Some? then 1 else 0 }

  function ReadDone(x: Rank): nat { Base(x) + if x.op.Some? && x.op.value.done then 1 else 0 }

  function Offered(x: Rank): nat {
    match x.pc
    case Filling | Ready | Top => x.k
    case AwaitFirst | FirstRead => 0
    case _ => x.k + 1
  }

  function Acked(x: Rank): nat {
    match x.pc
    case Filling => if x.k == 0 then 0 else x.k - 1
    case WaitRead | Finished => x.k + 1
    case AwaitFirst | FirstRead => 0
    case _ => x.k
  }

  /** Rank 0 fills bucket 0 in its first send buffer, the others receive it in their first receive buffer. */
  function Home(r: nat, i: nat): Bit { if r == 0 then i % 2 else (i + 1) % 2 }

  lemma HomeFlips(r: nat, i: nat)
    ensures Home(r, i + 1) == Other(Home(r, i))
  {
  }

  ghost predicate OpOk(c: Config, r: nat, x: Rank) {
    x.op.Some? ==>
      var op, i := x.op.value, Base(x);
      && r > 0 && i < |c.buckets|
      && op.dst == Other(x.send) && op.src == Home(r - 1, i) && op.key == i
      && op.copied <= Positions(c.size)
      && (op.done ==> Holds(x.bufs[op.dst], c.buckets[i]))
      && (x.pc == FirstRead ==> x.meta == MetaOf(c.buckets, 0))
      && (x.pc != FirstRead ==> x.nextMeta == MetaOf(c.buckets, i))
  }

  ghost predicate RootOk(c: Config, x: Rank)
    requires x.k < |c.buckets|
  {
    && x.op == None && x.out == [] && x.send == Home(0, x.k)
    && match x.pc
       case Filling =>
         && x.j <= |c.buckets[x.k]| && HoldsPrefix(x.bufs[x.send], c.buckets[x.k], x.j)
         && (if x.k == 0 then x.key == None else x.key == Some((x.k - 1) as nat) && Holds(x.bufs[Other(x.send)], c.buckets[x.k - 1]))
       case Ready => Holds(x.bufs[x.send], c.buckets[x.k])
       case FinalWait => x.k == |c.buckets| - 1 && x.key == Some(x.k) && Holds(x.bufs[x.send], c.buckets[x.k])
       case Finished => x.k == |c.buckets| - 1
       case _ => false
  }

  ghost predicate RelayOk(c: Config, r: nat, x: Rank)
    requires x.k < |c.buckets|
  {
    if x.pc == AwaitFirst || x.pc == FirstRead then
      x.k == 0 && x.send == 0 && x.out == [] && (x.op.Some? <==> x.pc == FirstRead)
    else
      && (x.pc == Top || x.pc == Sent || x.pc == Yielding || x.pc == WaitNext || x.pc == WaitRead || x.pc == Finished)
      && x.send == Home(r, x.k) && x.meta == MetaOf(c.buckets, x.k) && Holds(x.bufs[x.send], c.buckets[x.k])
      && (x.op.Some? <==> (x.pc == Yielding || x.pc == WaitNext || x.pc == WaitRead) && x.k < |c.buckets| - 1)
      && (x.pc == WaitRead ==> x.k < |c.buckets| - 1)
      && (x.pc == Finished ==> x.k == |c.buckets| - 1)
      && (x.pc == Sent || x.pc == Yielding || x.pc == WaitNext ==> x.key == if r < c.last then Some(x.k) else None)
      && (x.pc == Yielding ==> x.j <= |c.buckets[x.k]|)
      && x.out == Flat(c.buckets[..x.k]) + c.buckets[x.k][..YieldedHere(c, x)]
  }

  function YieldedHere(c: Config, x: Rank): nat
    requires x.k < |c.buckets|
  {
    if x.pc == Top || x.pc == Sent then 0 else if x.pc == Yielding && x.j <= |c.buckets[x.k]| then x.j else |c.buckets[x.k]|
  }

  ghost predicate RankOk(c: Config, r: nat, x: Rank) {
    && x.k < |c.buckets|
    && |x.bufs[0]| == c.size && |x.bufs[1]| == c.size
    && OpOk(c, r, x)
    && if r == 0 then RootOk(c, x) else RelayOk(c, r, x)
  }

  function OfferOf(c: Config, r: nat, i: nat): Message
    requires i < |c.buckets|
  {
    Message(i, Home(r, i), MetaOf(c.buckets, i))
  }

  /** The messages of rank `r` for buckets `lo` up to `hi`, and the notify keys of buckets `lo` up to `hi`. */
  function Messages(c: Config, r: nat, lo: nat, hi: nat): (q: seq<Message>)
    requires lo <= hi <= |c.buckets|
    ensures |q| == hi - lo
    decreases hi - lo
  {
    if lo == hi then [] else [OfferOf(c, r, lo)] + Messages(c, r, lo + 1, hi)
  }

  lemma {:induction false} MessagesPush(c: Config, r: nat, lo: nat, hi: nat)
    requires lo <= hi < |c.buckets|
    ensures Messages(c, r, lo, hi + 1) == Messages(c, r, lo, hi) + [OfferOf(c, r, hi)]
    decreases hi - lo
  {
    if lo < hi { MessagesPush(c, r, lo + 1, hi); }
  }

  function Keys(lo: nat, hi: nat): (q: seq<nat>)
    requires lo <= hi
    ensures |q| == hi - lo
    decreases hi - lo
  {
    if lo == hi then [] else [lo] + Keys(lo + 1, hi)
  }

  lemma {:induction false} KeysPush(lo: nat, hi: nat)
    requires lo <= hi
    ensures Keys(lo, hi + 1) == Keys(lo, hi) + [hi]
    decreases hi - lo
  {
    if lo < hi { KeysPush(lo + 1, hi); }
  }

  /** Between rank `r - 1` (`a`) and rank `r` (`b`): the queues hold exactly what was offered and not taken, and what was
      read and not acknowledged; a read under way agrees with its source. */
  ghost predicate LinkOk(c: Config, r: nat, a: Rank, b: Rank, msgs: seq<Message>, notifs: seq<nat>)
    requires r > 0
  {
    && Acked(a) <= ReadDone(b) && Taken(b) <= Offered(a) <= |c.buckets|
    && msgs == Messages(c, r - 1, Taken(b), Offered(a))
    && notifs == Keys(Acked(a), ReadDone(b))
    && ReadSoFar(a, b)
  }

  /** What b has read so far of a's buffer is what is there. */
  ghost predicate ReadSoFar(a: Rank, b: Rank) {
    b.op.Some? && !b.op.value.done ==> Agrees(b.bufs[b.op.value.dst], a.bufs[b.op.value.src], b.op.value.copied)
  }

  ghost predicate Inv(c: Config, s: State) {
    && Shape(c, s)
    && (forall r :: 0 <= r <= c.last ==> RankOk(c, r, s.ranks[r]))
    && (forall r :: 0 < r <= c.last ==> LinkOk(c, r, s.ranks[r - 1], s.ranks[r], s.msgs[r - 1], s.notifs[r - 1]))
  }

  lemma InitInv(c: Config, s: State)
    requires ValidConfig(c) && Init(c, s)
    ensures Inv(c, s)
  {
    forall r | 0 <= r <= c.last ensures RankOk(c, r, s.ranks[r]) {}
    forall r | 0 < r <= c.last ensures LinkOk(c, r, s.ranks[r - 1], s.ranks[r], s.msgs[r - 1], s.notifs[r - 1]) {}
  }

  // ---------------------------------------------------------------- every step keeps the invariant

  /** The invariant as rank `r` sees it, with its neighbours `w` and `z`. */
  ghost predicate LocalOk(c: Config, r: nat, v: Local, w: Rank, z: Rank) {
    && r <= c.last
    && RankOk(c, r, v.x)
    && (r > 0 ==> RankOk(c, r - 1, w) && LinkOk(c, r, w, v.x, v.fromPrev, v.toPrev) && v.prevBufs == w.bufs)
    && (r < c.last ==> RankOk(c, r + 1, z) && LinkOk(c, r + 1, v.x, z, v.toNext, v.fromNext))
    && (r == 0 ==> v.fromPrev == []) && (r == c.last ==> v.fromNext == [])
  }

  /** The bucket a read is taking is whole in the source buffer as long as the read has not completed. */
  lemma SourceHolds(c: Config, r: nat, x: Rank, i: nat)
    requires RankOk(c, r, x) && Acked(x) <= i < Offered(x)
    ensures i < |c.buckets| && Holds(x.bufs[Home(r, i)], c.buckets[i])
    ensures r > 0 ==> Home(r, i) == x.send
    ensures r == 0 && x.pc == Filling ==> Home(r, i) == Other(x.send)
  {
    hide HoldsPrefix, Holds, Home, Flat, MetaOf, OpOk;
    if x.k > 0 { HomeFlips(r, x.k - 1); }
  }

  /** The head of each incoming queue is the one this rank expects. */
  ghost predicate Heads(c: Config, r: nat, v: Local) {
    && (v.fromPrev != [] ==> r > 0 && Taken(v.x) < |c.buckets| && v.fromPrev[0] == OfferOf(c, r - 1, Taken(v.x)))
    && (v.fromNext != [] ==> r < c.last && v.fromNext[0] == Acked(v.x))
  }

  lemma HoldsNothing(c: Config)
    ensures forall buf: Buffer, k :: 0 <= k < |c.buckets| ==> HoldsPrefix(buf, c.buckets[k], 0)
  {
  }

  lemma PutRank(c: Config, v: Local)
    requires ValidConfig(c) && RankOk(c, 0, v.x) && Enabled(c, 0, v, Put)
    ensures RankOk(c, 0, Act(c, 0, v, Put).x)
  {
    hide ValidBucket;
    WriteNext(v.x.bufs[v.x.send], c.buckets[v.x.k], v.x.j);
  }

  lemma RootRank(c: Config, v: Local, a: Action)
    requires RankOk(c, 0, v.x) && Heads(c, 0, v) && Enabled(c, 0, v, a) && !a.Put?
    ensures RankOk(c, 0, Act(c, 0, v, a).x)
  {
    hide HoldsPrefix;
    HoldsNothing(c);
  }

  lemma ReadRank(c: Config, r: nat, v: Local, a: Action)
    requires RankOk(c, r, v.x) && Heads(c, r, v) && Enabled(c, r, v, a) && (a.BeginFirst? || a.BeginRead? || a.SkipRead?)
    ensures RankOk(c, r, Act(c, r, v, a).x)
  {
    hide HoldsPrefix, Holds, Flat, View, Write, InRange, MetaOf, OpOk;
    MetaEntries(c.buckets, v.x.k);
    BegunOp(c, r, v, a);
  }

  lemma BegunOp(c: Config, r: nat, v: Local, a: Action)
    requires RankOk(c, r, v.x) && Heads(c, r, v) && Enabled(c, r, v, a) && (a.BeginFirst? || a.BeginRead? || a.SkipRead?)
    ensures OpOk(c, r, Act(c, r, v, a).x)
  {
    hide HoldsPrefix, Holds, Flat, View, Write, InRange, MetaOf, YieldedHere;
    MetaEntries(c.buckets, v.x.k);
  }

  lemma EndFirstRank(c: Config, r: nat, v: Local)
    requires RankOk(c, r, v.x) && Enabled(c, r, v, EndFirst)
    ensures RankOk(c, r, Act(c, r, v, EndFirst).x)
  {
    hide HoldsPrefix, View, Write, InRange, MetaOf;
    assert c.buckets[..0] == [] && c.buckets[v.x.k][..0] == [];
  }

  /** At the end of a bucket everything up to it has been yielded. */
  lemma AllYielded(c: Config, r: nat, x: Rank)
    requires x.k + 1 < |c.buckets| && RelayOk(c, r, x) && x.pc == WaitRead
    ensures x.out == Flat(c.buckets[..x.k + 1]) + c.buckets[x.k + 1][..0]
  {
    hide HoldsPrefix, MetaOf, Flat;
    FlatExtend(c.buckets, x.k);
    assert c.buckets[x.k][..|c.buckets[x.k]|] == c.buckets[x.k];
    assert c.buckets[x.k + 1][..0] == [];
  }

  lemma EndReadRank(c: Config, r: nat, v: Local)
    requires RankOk(c, r, v.x) && Enabled(c, r, v, EndRead)
    ensures RankOk(c, r, Act(c, r, v, EndRead).x)
  {
    hide HoldsPrefix, Holds, View, Write, InRange, Flat, MetaOf, Positions, Home, OpOk, RelayOk, RootOk;
    NextBucket(c, r, v.x);
  }

  lemma NextBucket(c: Config, r: nat, x: Rank)
    requires RankOk(c, r, x) && r > 0 && x.pc == WaitRead && x.op.Some? && x.op.value.done
    ensures RankOk(c, r, x.(pc := Top, k := x.k + 1, meta := x.nextMeta, op := None, send := Other(x.send)))
  {
    hide HoldsPrefix, Holds, Flat, MetaOf, Positions, Home, RootOk;
    AllYielded(c, r, x);
    HomeFlips(r, x.k);
  }

  lemma YieldRank(c: Config, r: nat, v: Local)
    requires RankOk(c, r, v.x) && Enabled(c, r, v, Yield)
    ensures RankOk(c, r, Act(c, r, v, Yield).x)
  {
    hide HoldsPrefix, Flat, Write, InRange, MetaOf;
    var x := v.x;
    MetaEntries(c.buckets, x.k);
    var b := c.buckets[x.k];
    HeldEntry(x.bufs[x.send], b, x.j);
    assert b[..x.j + 1] == b[..x.j] + [b[x.j]];
  }

  lemma OfferRank(c: Config, r: nat, v: Local)
    requires RankOk(c, r, v.x) && Enabled(c, r, v, Offer)
    ensures RankOk(c, r, Act(c, r, v, Offer).x)
  {
    hide HoldsPrefix, Flat, View, Write, InRange, MetaOf;
  }

  lemma OpKept(c: Config, r: nat, x: Rank, y: Rank)
    requires OpOk(c, r, x) && y.op == x.op && y.bufs == x.bufs && y.send == x.send && y.k == x.k && y.nextMeta == x.nextMeta
    requires x.pc != AwaitFirst && x.pc != FirstRead && y.pc != AwaitFirst && y.pc != FirstRead
    ensures OpOk(c, r, y)
  {
  }

  lemma EndYieldRank(c: Config, r: nat, v: Local)
    requires RankOk(c, r, v.x) && Enabled(c, r, v, EndYield)
    ensures RankOk(c, r, Act(c, r, v, EndYield).x)
  {
    hide HoldsPrefix, Holds, Home, Flat, View, Write, InRange, MetaOf, OpOk;
    MetaEntries(c.buckets, v.x.k);
    OpKept(c, r, v.x, Act(c, r, v, EndYield).x);
  }

  lemma AckRank(c: Config, r: nat, v: Local)
    requires RankOk(c, r, v.x) && Heads(c, r, v) && Enabled(c, r, v, AckNext)
    ensures RankOk(c, r, Act(c, r, v, AckNext).x)
  {
    hide HoldsPrefix, Holds, Home, Flat, View, Write, InRange, MetaOf, OpOk, RelayOk;
    AckedKey(c, r, v);
    Onward(c, r, v.x);
    OpKept(c, r, v.x, Act(c, r, v, AckNext).x);
  }

  lemma AckedKey(c: Config, r: nat, v: Local)
    requires RankOk(c, r, v.x) && Heads(c, r, v) && Enabled(c, r, v, AckNext)
    ensures Act(c, r, v, AckNext).x == v.x.(pc := if v.x.meta.isLast then Finished else WaitRead)
  {
    hide HoldsPrefix, Holds, Home, Flat, View, Write, InRange, MetaOf, OpOk;
  }

  lemma Onward(c: Config, r: nat, x: Rank)
    requires x.k < |c.buckets| && RelayOk(c, r, x) && x.pc == WaitNext
    ensures RelayOk(c, r, x.(pc := if x.meta.isLast then Finished else WaitRead))
  {
    hide HoldsPrefix, Holds, Home, Flat, MetaOf;
    MetaEntries(c.buckets, x.k);
  }

  lemma HeadsOk(c: Config, r: nat, v: Local, w: Rank, z: Rank)
    requires LocalOk(c, r, v, w, z)
    ensures Heads(c, r, v)
  {
    hide RankOk;
  }

  /** What each step does to a rank's four counters, and to the queue of its offers. */
  ghost predicate Counted(c: Config, r: nat, v: Local, a: Action)
    requires Enabled(c, r, v, a)
  {
    var x, y := v.x, Act(c, r, v, a).x;
    && (r > 0 ==> Taken(y) == Taken(x) + (if a.BeginFirst? || a.BeginRead? then 1 else 0))
    && (r > 0 ==> ReadDone(y) == ReadDone(x) + (if a.Complete? then 1 else 0))
    && Offered(y) == Offered(x) + (if a.RootPost? || a.Offer? then 1 else 0) <= |c.buckets|
    && Acked(y) == Acked(x) + (if (a.RootAck? && x.key.Some?) || a.RootFinish? || a.AckNext? then 1 else 0)
    && (a.RootPost? || (a.Offer? && r < c.last) ==>
          Offered(x) < |c.buckets| && Act(c, r, v, a).toNext == v.toNext + [OfferOf(c, r, Offered(x))])
    && (a.Complete? ==> x.op.Some? && x.op.value.key == ReadDone(x))
    && (a.AckNext? && r < c.last ==> x.key.Some?)
  }

  lemma RootCounters(c: Config, v: Local, a: Action)
    requires v.x.k < |c.buckets| && RootOk(c, v.x) && Heads(c, 0, v) && Enabled(c, 0, v, a)
    ensures Counted(c, 0, v, a)
  {
    hide HoldsPrefix, Flat, View, Write, MetaOf, InRange, Positions;
  }

  predicate OfRead(a: Action) { a.BeginFirst? || a.EndFirst? || a.BeginRead? || a.EndRead? || a.Copy? || a.Complete? }

  lemma ReadCounters(c: Config, r: nat, v: Local, a: Action)
    requires r > 0 && v.x.k < |c.buckets| && RelayOk(c, r, v.x) && OpOk(c, r, v.x) && Heads(c, r, v) && Enabled(c, r, v, a)
    requires OfRead(a)
    ensures Counted(c, r, v, a)
  {
    hide HoldsPrefix, Holds, Flat, View, Write, MetaOf, InRange, Positions, YieldedHere, Home, OfferOf;
  }

  lemma OtherCounters(c: Config, r: nat, v: Local, a: Action)
    requires r > 0 && v.x.k < |c.buckets| && RelayOk(c, r, v.x) && Heads(c, r, v) && Enabled(c, r, v, a)
    requires !OfRead(a)
    ensures Counted(c, r, v, a)
  {
    hide HoldsPrefix, Holds, Flat, View, Write, MetaOf, InRange, Positions, YieldedHere, Home;
  }

  lemma RelayCounters(c: Config, r: nat, v: Local, a: Action)
    requires r > 0 && v.x.k < |c.buckets| && RelayOk(c, r, v.x) && OpOk(c, r, v.x) && Heads(c, r, v) && Enabled(c, r, v, a)
    ensures Counted(c, r, v, a)
  {
    hide Counted, RelayOk, OpOk, Heads, Enabled, OfRead;
    if OfRead(a) { ReadCounters(c, r, v, a); } else { OtherCounters(c, r, v, a); }
  }

  lemma Counters(c: Config, r: nat, v: Local, a: Action)
    requires RankOk(c, r, v.x) && Heads(c, r, v) && Enabled(c, r, v, a)
    ensures Counted(c, r, v, a)
  {
    hide Counted, RootOk, RelayOk, OpOk, Heads, Enabled;
    if r == 0 { RootCounters(c, v, a); } else { RelayCounters(c, r, v, a); }
  }

  lemma LeftLink(c: Config, r: nat, v: Local, a: Action, w: Rank)
    requires r > 0 && LinkOk(c, r, w, v.x, v.fromPrev, v.toPrev) && v.prevBufs == w.bufs
    requires RankOk(c, r, v.x) && Heads(c, r, v) && Enabled(c, r, v, a) && !a.Copy?
    ensures LinkOk(c, r, w, Act(c, r, v, a).x, Act(c, r, v, a).fromPrev, Act(c, r, v, a).toPrev)
  {
    hide RankOk, View, Taken, ReadDone, Offered, Acked, Heads, MetaOf, OfferOf, Write, InRange, ReadSoFar;
    Counters(c, r, v, a);
    LeftRead(c, r, v, a, w);
    if a.Complete? { KeysPush(Acked(w), ReadDone(v.x)); }
  }

  lemma LeftRead(c: Config, r: nat, v: Local, a: Action, w: Rank)
    requires r > 0 && ReadSoFar(w, v.x) && v.prevBufs == w.bufs
    requires RankOk(c, r, v.x) && Enabled(c, r, v, a) && !a.Copy?
    ensures ReadSoFar(w, Act(c, r, v, a).x)
  {
    hide View, Taken, ReadDone, Offered, Acked, Heads, MetaOf, OfferOf, Write, InRange, HoldsPrefix, Flat, Holds;
  }

  lemma LeftLinkCopy(c: Config, r: nat, v: Local, p: nat, w: Rank)
    requires r > 0 && RankOk(c, r, v.x) && LinkOk(c, r, w, v.x, v.fromPrev, v.toPrev) && v.prevBufs == w.bufs
    requires Enabled(c, r, v, Copy(p))
    ensures LinkOk(c, r, w, Act(c, r, v, Copy(p)).x, v.fromPrev, v.toPrev)
  {
    hide HoldsPrefix, Flat;
  }

  /** A rank writes only the buffer that it has not offered. */
  lemma WritesOther(c: Config, r: nat, v: Local, a: Action, i: nat)
    requires RankOk(c, r, v.x) && Enabled(c, r, v, a) && (a.Put? || a.Copy?) && Acked(v.x) <= i < Offered(v.x)
    ensures Home(r, i) == if a.Put? then Other(v.x.send) else Other(v.x.op.value.dst)
  {
    hide HoldsPrefix, Holds, Home, Flat, Write, View, InRange, MetaOf, Positions;
    SourceHolds(c, r, v.x, i);
  }

  lemma OtherBuffer(c: Config, r: nat, v: Local, a: Action, z: Rank)
    requires r < c.last && RankOk(c, r, v.x) && Enabled(c, r, v, a) && (a.Put? || a.Copy?)
    requires RankOk(c, r + 1, z) && z.op.Some? && Acked(v.x) <= Base(z) < Offered(v.x)
    ensures z.op.value.src == if a.Put? then Other(v.x.send) else Other(v.x.op.value.dst)
  {
    hide HoldsPrefix, Holds, Home, Enabled, MetaOf, Acked, Offered, RelayOk, RootOk;
    WritesOther(c, r, v, a, Base(z));
  }

  lemma LinkFrame(c: Config, r: nat, x: Rank, y: Rank, z: Rank, msgs: seq<Message>, notifs: seq<nat>)
    requires r > 0 && LinkOk(c, r, x, z, msgs, notifs) && Acked(y) == Acked(x) && Offered(y) == Offered(x)
    requires z.op.Some? && !z.op.value.done ==> y.bufs[z.op.value.src] == x.bufs[z.op.value.src]
    ensures LinkOk(c, r, y, z, msgs, notifs)
  {
    hide Messages, Keys, Acked, Offered, Taken, ReadDone;
  }

  /** Writing does not disturb the next rank's read: it takes the other buffer. */
  lemma RightLinkWrite(c: Config, r: nat, v: Local, a: Action, z: Rank)
    requires r < c.last && RankOk(c, r, v.x) && LinkOk(c, r + 1, v.x, z, v.toNext, v.fromNext)
    requires Enabled(c, r, v, a) && (a.Put? || a.Copy?) && RankOk(c, r + 1, z)
    ensures LinkOk(c, r + 1, Act(c, r, v, a).x, z, v.toNext, v.fromNext)
  {
    hide RankOk, Messages, Keys, Write, View, InRange;
    if z.op.Some? && !z.op.value.done {
      OtherBuffer(c, r, v, a, z);
    }
    LinkFrame(c, r + 1, v.x, Act(c, r, v, a).x, z, v.toNext, v.fromNext);
  }

  lemma RightLinkQueue(c: Config, r: nat, v: Local, a: Action, z: Rank)
    requires r < c.last && LinkOk(c, r + 1, v.x, z, v.toNext, v.fromNext)
    requires RankOk(c, r, v.x) && Heads(c, r, v) && Enabled(c, r, v, a) && !a.Put? && !a.Copy?
    ensures LinkOk(c, r + 1, Act(c, r, v, a).x, z, Act(c, r, v, a).toNext, Act(c, r, v, a).fromNext)
  {
    hide RankOk, View, Taken, ReadDone, Offered, Acked, Heads, MetaOf, OfferOf;
    Counters(c, r, v, a);
    if a.RootPost? || a.Offer? { MessagesPush(c, r, Taken(z), Offered(v.x)); }
  }

  lemma CopyRank(c: Config, r: nat, v: Local, p: nat)
    requires RankOk(c, r, v.x) && Enabled(c, r, v, Copy(p))
    ensures RankOk(c, r, Act(c, r, v, Copy(p)).x)
  {
    hide HoldsPrefix, Holds, Home, Flat, MetaOf, Write, View, InRange, YieldedHere, RelayOk;
    var x, y := v.x, Act(c, r, v, Copy(p)).x;
    assert OpOk(c, r, y);
    CopyKept(c, r, x, y);
  }

  lemma CopyKept(c: Config, r: nat, x: Rank, y: Rank)
    requires x.k < |c.buckets| && x.op.Some? && y.op.Some? && y == x.(bufs := y.bufs, op := y.op)
    requires y.bufs[x.send] == x.bufs[x.send] && RelayOk(c, r, x)
    ensures RelayOk(c, r, y)
  {
    hide HoldsPrefix, Holds, Home, Flat, MetaOf;
  }

  lemma Arrived(c: Config, r: nat, x: Rank, w: Rank, msgs: seq<Message>, notifs: seq<nat>)
    requires r > 0 && RankOk(c, r, x) && RankOk(c, r - 1, w) && LinkOk(c, r, w, x, msgs, notifs)
    requires x.op.Some? && !x.op.value.done && Positions(|x.bufs[x.op.value.dst]|) <= x.op.value.copied
    ensures Base(x) < |c.buckets| && Holds(x.bufs[x.op.value.dst], c.buckets[Base(x)])
  {
    hide HoldsPrefix, Holds, Flat, Messages, Keys, RelayOk, RootOk, Agrees, Positions, Home, MetaOf;
    SourceHolds(c, r - 1, w, Base(x));
    assert |w.bufs[x.op.value.src]| == c.size;
    FullCopy(x.bufs[x.op.value.dst], w.bufs[x.op.value.src], x.op.value.copied);
  }

  lemma CompleteRank(c: Config, r: nat, x: Rank)
    requires r > 0 && RankOk(c, r, x) && x.op.Some? && Base(x) < |c.buckets| && Holds(x.bufs[x.op.value.dst], c.buckets[Base(x)])
    ensures RankOk(c, r, x.(op := Some(x.op.value.(done := true))))
  {
    hide HoldsPrefix, Flat, MetaOf, Positions;
  }

  lemma LocalStep(c: Config, r: nat, v: Local, a: Action, w: Rank, z: Rank)
    requires ValidConfig(c) && LocalOk(c, r, v, w, z) && Enabled(c, r, v, a)
    ensures LocalOk(c, r, Act(c, r, v, a), w, z)
  {
    hide RankOk, HoldsPrefix, Flat, ValidConfig, LinkOk, View, Write, InRange, MetaOf;
    HeadsOk(c, r, v, w, z);
    if a.Put? { PutRank(c, v); }
    else if r == 0 { RootRank(c, v, a); }
    else if a.Copy? { CopyRank(c, r, v, a.p); }
    else if a.Complete? { Arrived(c, r, v.x, w, v.fromPrev, v.toPrev); CompleteRank(c, r, v.x); }
    else if a.BeginFirst? || a.BeginRead? || a.SkipRead? { ReadRank(c, r, v, a); }
    else if a.EndFirst? { EndFirstRank(c, r, v); }
    else if a.EndRead? { EndReadRank(c, r, v); }
    else if a.Yield? { YieldRank(c, r, v); }
    else if a.Offer? { OfferRank(c, r, v); }
    else if a.EndYield? { EndYieldRank(c, r, v); }
    else { AckRank(c, r, v); }
    if r > 0 {
      if a.Copy? { LeftLinkCopy(c, r, v, a.p, w); } else { LeftLink(c, r, v, a, w); }
    }
    if r < c.last {
      if a.Put? || a.Copy? { RightLinkWrite(c, r, v, a, z); } else { RightLinkQueue(c, r, v, a, z); }
    }
  }

  lemma StepInv(c: Config, s: State, m: Move)
    requires ValidConfig(c) && Inv(c, s) && CanMove(c, s, m)
    ensures Inv(c, Next(c, s, m))
  {
    hide RankOk, LinkOk, Enabled, Act;
    var r, a, v, t := m.r, m.a, LocalOf(c, s, m.r), Next(c, s, m);
    var w := if r > 0 then s.ranks[r - 1] else s.ranks[r];
    var z := if r < c.last then s.ranks[r + 1] else s.ranks[r];
    assert LocalOk(c, r, v, w, z);
    LocalStep(c, r, v, a, w, z);
    forall q | 0 < q <= c.last ensures LinkOk(c, q, t.ranks[q - 1], t.ranks[q], t.msgs[q - 1], t.notifs[q - 1]) {}
  }

  // ---------------------------------------------------------------- safety of every run

  lemma {:induction false} RunInv(c: Config, s: State, schedule: seq<Move>, t: State)
    requires ValidConfig(c) && Inv(c, s) && Reaches(c, s, schedule, t)
    ensures Inv(c, t)
    decreases |schedule|
  {
    hide RankOk, LinkOk, CanMove, Next;
    if schedule != [] {
      StepInv(c, s, schedule[0]);
      RunInv(c, Next(c, s, schedule[0]), schedule[1..], t);
    }
  }

  /** Whatever the interleaving: no notify-key assertion fails, what a rollout rank has yielded is a prefix of the sender's
      chunks, and a rank that has finished has yielded them all. */
  lemma RelaySafety(c: Config, s: State, schedule: seq<Move>, t: State)
    requires ValidConfig(c) && Init(c, s) && Reaches(c, s, schedule, t)
    ensures Shape(c, t)
    ensures forall r :: 0 <= r <= c.last ==> t.ranks[r].pc != Crashed
    ensures forall r :: 0 < r <= c.last ==> t.ranks[r].out <= Flat(c.buckets)
    ensures forall r :: 0 < r <= c.last && t.ranks[r].pc == Finished ==> t.ranks[r].out == Flat(c.buckets)
  {
    hide RankOk, LinkOk;
    InitInv(c, s);
    RunInv(c, s, schedule, t);
    forall r | 0 <= r <= c.last ensures t.ranks[r].pc != Crashed { NotCrashed(c, r, t.ranks[r]); }
    forall r | 0 < r <= c.last
      ensures t.ranks[r].out <= Flat(c.buckets)
      ensures t.ranks[r].pc == Finished ==> t.ranks[r].out == Flat(c.buckets)
    {
      YieldedPrefix(c, r, t.ranks[r]);
    }
  }

  lemma YieldedPrefix(c: Config, r: nat, x: Rank)
    requires r > 0 && RankOk(c, r, x)
    ensures x.pc != Crashed && x.out <= Flat(c.buckets)
    ensures x.pc == Finished ==> x.out == Flat(c.buckets)
  {
    hide Holds;
    if x.pc != AwaitFirst && x.pc != FirstRead {
      var b := c.buckets[x.k];
      FlatPrefix(c.buckets, x.k, YieldedHere(c, x));
      if x.pc == Finished {
        FlatExtend(c.buckets, x.k);
        assert b[..|b|] == b && c.buckets[..|c.buckets|] == c.buckets;
      }
    }
  }

  predicate Writes(x: Rank, a: Action, b: Bit) {
    (a.Put? && b == x.send) || (a.Copy? && x.op.Some? && b == x.op.value.dst)
  }

  /** Buffer `b` of rank `r` is offered to the next rank, being read by it, or being yielded from. */
  predicate InUse(c: Config, s: State, r: nat, b: Bit)
    requires Shape(c, s) && r <= c.last
  {
    || (r < c.last && exists i :: 0 <= i < |s.msgs[r]| && s.msgs[r][i].desc == b)
    || (r < c.last && s.ranks[r + 1].op.Some? && !s.ranks[r + 1].op.value.done && s.ranks[r + 1].op.value.src == b)
    || (s.ranks[r].pc == Yielding && s.ranks[r].send == b)
  }

  lemma {:induction false} MessagesAt(c: Config, r: nat, lo: nat, hi: nat, i: nat)
    requires lo <= hi <= |c.buckets| && i < hi - lo
    ensures Messages(c, r, lo, hi)[i] == OfferOf(c, r, lo + i)
    decreases hi - lo
  {
    if i > 0 { MessagesAt(c, r, lo + 1, hi, i - 1); }
  }

  /** No step of any run writes into a buffer that is offered, being read, or being yielded. */
  lemma NoOverwrite(c: Config, s: State, schedule: seq<Move>, t: State, m: Move, b: Bit)
    requires ValidConfig(c) && Init(c, s) && Reaches(c, s, schedule, t)
    requires Shape(c, t) && CanMove(c, t, m) && Writes(t.ranks[m.r], m.a, b)
    ensures !InUse(c, t, m.r, b)
  {
    InitInv(c, s);
    RunInv(c, s, schedule, t);
    WriteIsFree(c, t, m, b);
  }

  lemma WriteIsFree(c: Config, t: State, m: Move, b: Bit)
    requires ValidConfig(c) && Inv(c, t) && CanMove(c, t, m) && Writes(t.ranks[m.r], m.a, b)
    ensures !InUse(c, t, m.r, b)
  {
    hide ValidConfig, RankOk, LinkOk, Enabled;
    var r, x := m.r, t.ranks[m.r];
    assert RankOk(c, r, x);
    WriterNotYielding(c, r, LocalOf(c, t, r), m.a, b);
    if r < c.last {
      var z := t.ranks[r + 1];
      assert RankOk(c, r + 1, z) && LinkOk(c, r + 1, x, z, t.msgs[r], t.notifs[r]);
      if z.op.Some? && !z.op.value.done { NotBeingRead(c, r, LocalOf(c, t, r), m.a, b, z, t.msgs[r], t.notifs[r]); }
      NotOffered(c, r, LocalOf(c, t, r), m.a, b, z, t.msgs[r], t.notifs[r]);
    }
  }

  lemma WriterNotYielding(c: Config, r: nat, v: Local, a: Action, b: Bit)
    requires RankOk(c, r, v.x) && Enabled(c, r, v, a) && Writes(v.x, a, b)
    ensures !(v.x.pc == Yielding && v.x.send == b)
  {
    hide HoldsPrefix, Flat, MetaOf, Messages, Keys;
  }

  lemma NotBeingRead(c: Config, r: nat, v: Local, a: Action, b: Bit, z: Rank, msgs: seq<Message>, notifs: seq<nat>)
    requires r < c.last && RankOk(c, r, v.x) && Enabled(c, r, v, a) && Writes(v.x, a, b) && RankOk(c, r + 1, z)
    requires LinkOk(c, r + 1, v.x, z, msgs, notifs) && z.op.Some? && !z.op.value.done
    ensures z.op.value.src != b
  {
    hide RankOk, Enabled, MetaOf, Messages, Keys, Acked, Offered;
    OtherBuffer(c, r, v, a, z);
  }

  lemma NotOffered(c: Config, r: nat, v: Local, a: Action, b: Bit, z: Rank, msgs: seq<Message>, notifs: seq<nat>)
    requires r < c.last && RankOk(c, r, v.x) && Enabled(c, r, v, a) && Writes(v.x, a, b) && RankOk(c, r + 1, z)
    requires LinkOk(c, r + 1, v.x, z, msgs, notifs)
    ensures forall i :: 0 <= i < |msgs| ==> msgs[i].desc != b
  {
    hide RankOk, Enabled, Home, Messages, Keys, MetaOf, Acked, Offered, Taken, ReadDone;
    AtLeastRead(z);
    forall i | 0 <= i < |msgs| ensures msgs[i].desc != b {
      MessagesAt(c, r, Taken(z), Offered(v.x), i);
      WritesOther(c, r, v, a, Taken(z) + i);
    }
  }

  lemma AtLeastRead(z: Rank)
    ensures ReadDone(z) <= Taken(z)
  {
  }

  // ---------------------------------------------------------------- progress

  ghost predicate Final(c: Config, s: State)
    requires Shape(c, s)
  {
    forall r :: 0 <= r <= c.last ==> s.ranks[r].pc == Finished
  }

  /** The step that takes a read under way further. */
  lemma ReadMoves(c: Config, r: nat, v: Local) returns (a: Action)
    requires 0 < r && v.x.op.Some? && !v.x.op.value.done && |v.x.bufs[v.x.op.value.dst]| == c.size
    requires |v.prevBufs[0]| == c.size && |v.prevBufs[1]| == c.size
    ensures Enabled(c, r, v, a)
  {
    var op := v.x.op.value;
    if p :| p in Positions(c.size) && p !in op.copied { a := Copy(p); } else { a := Complete; }
  }

  predicate BlockedOnPrev(c: Config, s: State, r: nat)
    requires Shape(c, s) && 0 < r <= c.last
  {
    (s.ranks[r].pc == AwaitFirst || (s.ranks[r].pc == Sent && !s.ranks[r].meta.isLast)) && s.msgs[r - 1] == []
  }

  /** A rank waiting for an acknowledgement waits for one that can still come. */
  lemma NextCanAct(c: Config, s: State, r: nat)
    requires Inv(c, s) && r < c.last && s.notifs[r] == [] && Acked(s.ranks[r]) < Offered(s.ranks[r])
    ensures !BlockedOnPrev(c, s, r + 1) && s.ranks[r + 1].pc != Finished
  {
    hide HoldsPrefix, Flat;
    assert RankOk(c, r, s.ranks[r]) && RankOk(c, r + 1, s.ranks[r + 1]);
    assert LinkOk(c, r + 1, s.ranks[r], s.ranks[r + 1], s.msgs[r], s.notifs[r]);
  }

  /** What a rollout rank does next when nothing holds it up. */
  function OwnAction(x: Rank): Action {
    match x.pc
    case AwaitFirst => BeginFirst
    case FirstRead => EndFirst
    case Top => Offer
    case Sent => if x.meta.isLast then SkipRead else BeginRead
    case Yielding => if x.j < |x.meta.entries| then Yield else EndYield
    case WaitNext => AckNext
    case _ => EndRead
  }

  lemma OwnEnabled(c: Config, r: nat, v: Local)
    requires r > 0 && RankOk(c, r, v.x) && v.x.pc != Finished && (v.x.op.Some? ==> v.x.op.value.done)
    requires v.x.pc == AwaitFirst || (v.x.pc == Sent && !v.x.meta.isLast) ==> v.fromPrev != []
    requires v.x.pc == WaitNext && v.x.key.Some? ==> v.fromNext != []
    ensures Enabled(c, r, v, OwnAction(v.x))
  {
    hide Flat, HoldsPrefix, MetaOf, RootOk, OpOk, View;
    var x := v.x;
    MetaEntries(c.buckets, x.k);
    if x.pc == Yielding && x.j < |x.meta.entries| { HeldEntry(x.bufs[x.send], c.buckets[x.k], x.j); }
  }

  /** A rank that does not wait for its predecessor can act, or some later rank can. */
  lemma {:induction false} Forward(c: Config, s: State, r: nat) returns (m: Move)
    requires Inv(c, s) && 0 < r <= c.last && s.ranks[r].pc != Finished && !BlockedOnPrev(c, s, r)
    ensures CanMove(c, s, m)
    decreases c.last - r
  {
    hide LinkOk, RootOk, RelayOk, OpOk, Enabled;
    var x, v := s.ranks[r], LocalOf(c, s, r);
    assert RankOk(c, r, x) && RankOk(c, r - 1, s.ranks[r - 1]);
    if x.op.Some? && !x.op.value.done {
      var a := ReadMoves(c, r, v);
      m := Move(r, a);
    } else if x.pc == WaitNext && x.key.Some? && v.fromNext == [] {
      KeyMeansNext(c, r, x);
      WaitsForAck(c, r, x);
      NextCanAct(c, s, r);
      m := Forward(c, s, r + 1);
    } else {
      OwnEnabled(c, r, v);
      m := Move(r, OwnAction(x));
    }
  }

  /** Only a rank with a successor keeps a notify key. */
  lemma KeyMeansNext(c: Config, r: nat, x: Rank)
    requires r > 0 && RankOk(c, r, x) && x.pc == WaitNext && x.key.Some?
    ensures r < c.last
  {
    hide Flat, HoldsPrefix, MetaOf, OpOk;
  }

  lemma WaitsForAck(c: Config, r: nat, x: Rank)
    requires RankOk(c, r, x) && (x.pc == WaitNext || (r == 0 && x.pc == Filling && x.key.Some?) || x.pc == FinalWait)
    ensures Acked(x) < Offered(x)
  {
    hide Flat, HoldsPrefix, MetaOf, OpOk, RelayOk;
  }

  lemma RootMoves(c: Config, s: State) returns (m: Move)
    requires ValidConfig(c) && Inv(c, s) && s.ranks[0].pc != Finished
    ensures CanMove(c, s, m)
  {
    hide LinkOk, RelayOk, RankOk, Enabled;
    var x, v := s.ranks[0], LocalOf(c, s, 0);
    assert RankOk(c, 0, x);
    if (x.pc == FinalWait || (x.pc == Filling && x.key.Some?)) && v.fromNext == [] {
      WaitsForAck(c, 0, x);
      NextCanAct(c, s, 0);
      m := Forward(c, s, 1);
    } else {
      var a := RootEnabled(c, v);
      m := Move(0, a);
    }
  }

  lemma RootEnabled(c: Config, v: Local) returns (a: Action)
    requires ValidConfig(c) && RankOk(c, 0, v.x) && v.x.pc != Finished
    requires v.x.pc == FinalWait || (v.x.pc == Filling && v.x.key.Some?) ==> v.fromNext != []
    ensures Enabled(c, 0, v, a)
  {
    hide Flat, HoldsPrefix, ValidBucket;
    var x := v.x;
    var b := c.buckets[x.k];
    if x.pc == Filling && x.j < |b| {
      EntryFits(b, x.j, c.size);
      a := Put;
    } else {
      a := match x.pc case Ready => RootPost case Filling => RootAck case _ => RootFinish;
    }
  }

  lemma PrevCanAct(c: Config, s: State, r: nat)
    requires Inv(c, s) && 0 < r <= c.last && BlockedOnPrev(c, s, r)
    ensures s.ranks[r - 1].pc != Finished
  {
    hide Flat, HoldsPrefix;
    var w, x := s.ranks[r - 1], s.ranks[r];
    assert RankOk(c, r - 1, w) && RankOk(c, r, x) && LinkOk(c, r, w, x, s.msgs[r - 1], s.notifs[r - 1]);
    MetaEntries(c.buckets, x.k);
  }

  /** A rank that waits for its predecessor waits for one that has not finished; and so back to rank 0. */
  lemma {:induction false} Backward(c: Config, s: State, r: nat) returns (m: Move)
    requires ValidConfig(c) && Inv(c, s) && r <= c.last && s.ranks[r].pc != Finished
    ensures CanMove(c, s, m)
    decreases r
  {
    hide RankOk, LinkOk, CanMove;
    if r == 0 {
      m := RootMoves(c, s);
    } else if BlockedOnPrev(c, s, r) {
      PrevCanAct(c, s, r);
      m := Backward(c, s, r - 1);
    } else {
      m := Forward(c, s, r);
    }
  }

  /** The relay never deadlocks: in every state of every run, some step is possible until all ranks have finished. */
  lemma NoDeadlock(c: Config, s: State, schedule: seq<Move>, t: State)
    requires ValidConfig(c) && Init(c, s) && Reaches(c, s, schedule, t)
    ensures Shape(c, t) && (Final(c, t) || exists m :: CanMove(c, t, m))
  {
    InitInv(c, s);
    RunInv(c, s, schedule, t);
    if !Final(c, t) {
      var r :| 0 <= r <= c.last && t.ranks[r].pc != Finished;
      var m := Backward(c, t, r);
    }
  }

  // ---------------------------------------------------------------- termination

  /** More than the number of steps a rank can take for one bucket. */
  function Round(c: Config): nat { MaxEntries(c.buckets) + c.size + 8 }

  function ReadProgress(x: Rank): nat {
    if x.op.None? then 0 else |x.op.value.copied| + if x.op.value.done then 1 else 0
  }

  /** How far a rank is within its current round, and the round. */
  function Within(c: Config, x: Rank): nat {
    var n := |Bucketed(c, x.k)|;
    match x.pc
    case Filling => x.j
    case Ready => n + 1
    case FinalWait => n + 2
    case AwaitFirst => 0
    case FirstRead => 1 + ReadProgress(x)
    case Top => 0
    case Sent => 1
    case Yielding => 2 + x.j + ReadProgress(x)
    case WaitNext => 3 + n + ReadProgress(x)
    case WaitRead => 4 + n + ReadProgress(x)
    case Finished => 4 + n
    case Crashed => 0
  }

  function RoundOf(r: nat, x: Rank): nat { if r == 0 then x.k else Base(x) }

  function Done(c: Config, r: nat, x: Rank): nat { RoundOf(r, x) * Round(c) + Within(c, x) }

  function Budget(c: Config): nat { (|c.buckets| + 1) * Round(c) }

  lemma ProgressBound(c: Config, r: nat, x: Rank)
    requires OpOk(c, r, x)
    ensures ReadProgress(x) <= c.size + 1
  {
    hide HoldsPrefix, MetaOf, Positions;
    if x.op.Some? { CopiedBound(x.op.value.copied, c.size); }
  }

  lemma WithinRound(c: Config, r: nat, x: Rank)
    requires RankOk(c, r, x)
    ensures Within(c, x) < Round(c) && RoundOf(r, x) <= |c.buckets|
  {
    hide HoldsPrefix, Flat, MetaOf, Positions, ReadProgress;
    ProgressBound(c, r, x);
    assert |Bucketed(c, x.k)| <= MaxEntries(c.buckets);
  }

  lemma WithinBound(c: Config, r: nat, x: Rank)
    requires RankOk(c, r, x)
    ensures Within(c, x) < Round(c) && RoundOf(r, x) <= |c.buckets|
    ensures Done(c, r, x) <= Budget(c)
  {
    hide RankOk, Within, RoundOf, Round;
    WithinRound(c, r, x);
    Product(RoundOf(r, x), |c.buckets|, Round(c));
  }

  lemma RoundStepRoot(c: Config, v: Local, a: Action)
    requires RankOk(c, 0, v.x) && Enabled(c, 0, v, a) && RankOk(c, 0, Act(c, 0, v, a).x)
    ensures var x, y := v.x, Act(c, 0, v, a).x;
            y.k == x.k + 1 || (y.k == x.k && Within(c, x) < Within(c, y))
  {
    hide HoldsPrefix, Write, InRange, MetaOf, OpOk;
  }

  /** A step of a rollout rank starts its next round or takes it further in this one. */
  ghost predicate Ahead(c: Config, x: Rank, y: Rank) {
    Base(y) == Base(x) + 1 || (Base(y) == Base(x) && Within(c, x) < Within(c, y))
  }

  lemma CopyAdvances(c: Config, r: nat, v: Local, p: nat)
    requires r > 0 && v.x.k < |c.buckets| && RelayOk(c, r, v.x) && Enabled(c, r, v, Copy(p))
    ensures Ahead(c, v.x, Act(c, r, v, Copy(p)).x)
  {
    hide Holds, Home, Flat, MetaOf, Positions, View;
  }

  lemma ReadAdvances(c: Config, r: nat, v: Local, a: Action)
    requires r > 0 && v.x.k < |c.buckets| && RelayOk(c, r, v.x) && Enabled(c, r, v, a)
    requires a.BeginFirst? || a.EndFirst? || a.BeginRead? || a.SkipRead? || a.EndRead? || a.Complete?
    ensures Ahead(c, v.x, Act(c, r, v, a).x)
  {
    hide Holds, Home, Flat, MetaOf, Positions, View, Write;
    MetaEntries(c.buckets, v.x.k);
  }

  lemma YieldAdvances(c: Config, r: nat, v: Local, a: Action)
    requires r > 0 && v.x.k < |c.buckets| && RelayOk(c, r, v.x) && Enabled(c, r, v, a) && !Act(c, r, v, a).x.pc.Crashed?
    requires a.Offer? || a.Yield? || a.EndYield? || a.AckNext?
    ensures Ahead(c, v.x, Act(c, r, v, a).x)
  {
    hide Holds, Home, Flat, MetaOf, Positions, View, Write, InRange;
    MetaEntries(c.buckets, v.x.k);
  }

  lemma RoundStep(c: Config, r: nat, v: Local, a: Action)
    requires r > 0 && v.x.k < |c.buckets| && RelayOk(c, r, v.x) && Enabled(c, r, v, a) && !Act(c, r, v, a).x.pc.Crashed?
    ensures Ahead(c, v.x, Act(c, r, v, a).x)
  {
    hide RelayOk, Act, Ahead;
    match a {
      case Copy(p) => CopyAdvances(c, r, v, p);
      case BeginFirst | EndFirst | BeginRead | SkipRead | EndRead | Complete => ReadAdvances(c, r, v, a);
      case _ => YieldAdvances(c, r, v, a);
    }
  }

  /** Every step takes its rank further. */
  lemma Advances(c: Config, r: nat, v: Local, a: Action)
    requires RankOk(c, r, v.x) && Enabled(c, r, v, a) && RankOk(c, r, Act(c, r, v, a).x)
    ensures Done(c, r, v.x) < Done(c, r, Act(c, r, v, a).x)
  {
    hide Enabled, Act, OpOk, RelayOk, RootOk, Within, Round;
    var x, y := v.x, Act(c, r, v, a).x;
    WithinBound(c, r, x);
    NotCrashed(c, r, y);
    if r == 0 { RoundStepRoot(c, v, a); } else { RoundStep(c, r, v, a); }
    if RoundOf(r, y) == RoundOf(r, x) + 1 { Product(RoundOf(r, x), RoundOf(r, x), Round(c)); }
  }

  lemma NotCrashed(c: Config, r: nat, x: Rank)
    requires RankOk(c, r, x)
    ensures x.pc != Crashed
  {
    hide HoldsPrefix, Flat, MetaOf, OpOk;
  }

  function Remaining(c: Config, r: nat, x: Rank): nat {
    if Done(c, r, x) <= Budget(c) then Budget(c) - Done(c, r, x) else 0
  }

  /** The steps that all ranks together can still take, at most. */
  function Work(c: Config, s: State): nat
    requires Shape(c, s)
  {
    Sum(seq(c.last + 1, r requires 0 <= r < c.last + 1 => Remaining(c, r, s.ranks[r])))
  }

  lemma StepWork(c: Config, s: State, m: Move)
    requires ValidConfig(c) && Inv(c, s) && CanMove(c, s, m)
    ensures Work(c, Next(c, s, m)) < Work(c, s)
  {
    hide RankOk, LinkOk, Enabled, Act, Done, Budget;
    StepInv(c, s, m);
    var t := Next(c, s, m);
    assert RankOk(c, m.r, t.ranks[m.r]);
    Advances(c, m.r, LocalOf(c, s, m.r), m.a);
    WithinBound(c, m.r, t.ranks[m.r]);
    var f := seq(c.last + 1, r requires 0 <= r < c.last + 1 => Remaining(c, r, s.ranks[r]));
    var g := seq(c.last + 1, r requires 0 <= r < c.last + 1 => Remaining(c, r, t.ranks[r]));
    assert g == f[m.r := g[m.r]];
    SumUpdate(f, m.r, g[m.r]);
  }

  /** Every step uses up work, so no run is longer than the work at its start. */
  lemma {:induction false} RunsEnd(c: Config, s: State, schedule: seq<Move>, t: State)
    requires ValidConfig(c) && Inv(c, s) && Reaches(c, s, schedule, t)
    ensures Shape(c, t) && |schedule| + Work(c, t) <= Work(c, s)
    decreases |schedule|
  {
    hide RankOk, LinkOk, CanMove, Next, Work;
    if schedule != [] {
      StepInv(c, s, schedule[0]);
      StepWork(c, s, schedule[0]);
      RunsEnd(c, Next(c, s, schedule[0]), schedule[1..], t);
    }
  }

  /** Putting it together: every schedule is finite, and one that cannot be continued has brought every rollout rank
      exactly the sender's chunks, in order. */
  lemma RelayDelivers(c: Config, s: State, schedule: seq<Move>, t: State)
    requires ValidConfig(c) && Init(c, s) && Reaches(c, s, schedule, t)
    ensures Shape(c, t) && |schedule| <= Work(c, s)
    ensures (forall m :: !CanMove(c, t, m)) ==> forall r :: 0 < r <= c.last ==> t.ranks[r].out == Flat(c.buckets)
  {
    hide RankOk, LinkOk, CanMove, Work;
    InitInv(c, s);
    RunsEnd(c, s, schedule, t);
    NoDeadlock(c, s, schedule, t);
    RelaySafety(c, s, schedule, t);
  }

  /** From every state of a run there is a way to continue until nothing more can happen. */
  lemma {:induction false} Completes(c: Config, s: State) returns (schedule: seq<Move>, t: State)
    requires ValidConfig(c) && Inv(c, s)
    ensures Reaches(c, s, schedule, t) && Shape(c, t) && forall m :: !CanMove(c, t, m)
    decreases Work(c, s)
  {
    hide RankOk, LinkOk, CanMove, Next, Work;
    if m :| CanMove(c, s, m) {
      StepInv(c, s, m);
      StepWork(c, s, m);
      var rest, last := Completes(c, Next(c, s, m));
      schedule, t := [m] + rest, last;
      assert schedule[1..] == rest;
    } else {
      schedule, t := [], s;
    }
  }

  /** Every transfer has a start, and a run from it that delivers. */
  lemma SomeRun(c: Config) returns (s: State, schedule: seq<Move>, t: State)
    requires ValidConfig(c)
    ensures Init(c, s) && Reaches(c, s, schedule, t) && Shape(c, t)
    ensures forall r :: 0 < r <= c.last ==> t.ranks[r].out == Flat(c.buckets)
  {
    hide Reaches, Work, CanMove;
    var blank := Copies<Byte>(0, c.size);
    var x := Rank(AwaitFirst, 0, 0, [blank, blank], 0, Metadata([], false), Metadata([], false), None, None, []);
    s := State(Copies(x, c.last + 1)[0 := x.(pc := Filling)], Copies([], c.last), Copies([], c.last));
    InitInv(c, s);
    schedule, t := Completes(c, s);
    RelayDelivers(c, s, schedule, t);
  }
}
