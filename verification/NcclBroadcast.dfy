/** The double-buffered broadcast of verl/checkpoint_engine/nccl_checkpoint_engine.py: rank 0 packs and broadcasts one
    bucket while it fills the next, every rollout rank receives bucket k + 1 while it yields bucket k.

    Broadcasts are matched in the order in which they are issued. Safety is proved for every timing of the bytes: rank 0's
    operation hands its buffer over byte by byte, a receiver picks up any byte handed over at any later time, and rank 0
    may run ahead of receivers that have not even joined. Progress and delivery are proved for every transport between that
    one and the most reluctant one, `Met`, in which no byte leaves rank 0 before every receiver has joined the broadcast, and
    rank 0's wait ends only after every receiver's has. */
module NcclBroadcast {
  import opened Outcomes
  import opened Sequences
  import opened WeightChunks
  import opened BucketPacking
  import opened Buffers

  // ---------------------------------------------------------------- state

  /** One broadcast under way: the metadata published for it, the bytes handed over so far. */
  datatype Wire = Wire(metadata: Metadata, bytes: Buffer, sent: set<nat>)

  datatype RootOp = RootOp(buf: Bit, wire: nat)

  datatype RootPc = Filling | Ready | FinalWait | RootFinished

  datatype Root = Root(pc: RootPc, k: nat, j: nat, bufs: TwoBuffers, send: Bit, op: Option<RootOp>)

  datatype RecvOp = RecvOp(dst: Bit, wire: nat, metadata: Option<Metadata>, copied: set<nat>)

  datatype RecvPc = Start | FirstWait | Top | Yielding | WaitOp | Finished

  /** `issued` counts the broadcasts this rank has taken part in. */
  datatype Receiver = Receiver(pc: RecvPc, k: nat, j: nat, bufs: TwoBuffers, send: Bit, metadata: Metadata,
                               op: Option<RecvOp>, issued: nat, out: seq<Chunk>)

  datatype State = State(root: Root, wires: seq<Wire>, receivers: seq<Receiver>)

  ghost predicate Init(c: Config, s: State) {
    && s.root.pc == Filling && s.root.k == 0 && s.root.j == 0 && s.root.send == 0 && s.root.op == None
    && |s.root.bufs[0]| == c.size && |s.root.bufs[1]| == c.size
    && s.wires == [] && |s.receivers| == c.last
    && forall r :: 0 <= r < c.last ==>
         var x := s.receivers[r];
         && x.pc == Start && x.k == 0 && x.j == 0 && x.send == 0 && x.op == None && x.issued == 0 && x.out == []
         && |x.bufs[0]| == c.size && |x.bufs[1]| == c.size
  }

  // ---------------------------------------------------------------- steps

  datatype RootAction = Put | WaitPrevious | Broadcast | FinishLast | Inject(p: nat)

  datatype RecvAction = IssueFirst | EndFirst | Issue | IssueNone | Yield | EndYield | EndNext | TakeMetadata | Copy(p: nat)

  predicate Handed(c: Config, w: Wire) { Positions(c.size) <= w.sent }

  predicate RootOpDone(c: Config, x: Root, wires: seq<Wire>) {
    x.op.Some? ==> x.op.value.wire < |wires| && Handed(c, wires[x.op.value.wire])
  }

  predicate RootEnabled(c: Config, x: Root, wires: seq<Wire>, a: RootAction) {
    match a
    case Put => x.pc == Filling && x.k < |c.buckets| && x.j < |c.buckets[x.k]| && InRange(c.buckets[x.k][x.j].meta, x.bufs[x.send])
    case WaitPrevious => x.pc == Filling && x.k < |c.buckets| && x.j == |c.buckets[x.k]| && RootOpDone(c, x, wires)
    case Broadcast => x.pc == Ready && x.k < |c.buckets|
    case FinishLast => x.pc == FinalWait && RootOpDone(c, x, wires)
    case Inject(p) => x.op.Some? && x.op.value.wire < |wires| && p < |x.bufs[x.op.value.buf]|
                      && p < |wires[x.op.value.wire].bytes| && p !in wires[x.op.value.wire].sent
  }

  function RootAct(c: Config, x: Root, wires: seq<Wire>, a: RootAction): (Root, seq<Wire>)
    requires RootEnabled(c, x, wires, a)
  {
    match a
    case Put => (x.(bufs := x.bufs[x.send := Write(x.bufs[x.send], c.buckets[x.k][x.j])], j := x.j + 1), wires)
    case WaitPrevious => (x.(pc := Ready, op := None), wires)
    case Broadcast =>
      var w := Wire(MetaOf(c.buckets, x.k), seq(c.size, _ => 0), {});
      var y := x.(op := Some(RootOp(x.send, |wires|)));
      (if w.metadata.isLast then y.(pc := FinalWait)
       else y.(pc := Filling, send := Other(x.send), k := x.k + 1, j := 0), wires + [w])
    case FinishLast => (x.(pc := RootFinished, op := None), wires)
    case Inject(p) =>
      var w := wires[x.op.value.wire];
      (x, wires[x.op.value.wire := w.(bytes := w.bytes[p := x.bufs[x.op.value.buf][p]], sent := w.sent + {p})])
  }

  predicate RecvOpDone(c: Config, x: Receiver) {
    x.op.Some? && x.op.value.metadata.Some? && Positions(c.size) <= x.op.value.copied
  }

  predicate RecvEnabled(c: Config, x: Receiver, wires: seq<Wire>, a: RecvAction) {
    match a
    case IssueFirst => x.pc == Start
    case EndFirst => x.pc == FirstWait && RecvOpDone(c, x)
    case Issue => x.pc == Top && !x.metadata.isLast
    case IssueNone => x.pc == Top && x.metadata.isLast
    case Yield => x.pc == Yielding && x.j < |x.metadata.entries| && InRange(x.metadata.entries[x.j], x.bufs[x.send])
    case EndYield => x.pc == Yielding && x.j == |x.metadata.entries|
    case EndNext => x.pc == WaitOp && RecvOpDone(c, x)
    case TakeMetadata => x.op.Some? && x.op.value.metadata.None? && x.op.value.wire < |wires|
    case Copy(p) => x.op.Some? && x.op.value.metadata.Some? && x.op.value.wire < |wires|
                    && p in wires[x.op.value.wire].sent && p !in x.op.value.copied
                    && p < |x.bufs[x.op.value.dst]| && p < |wires[x.op.value.wire].bytes|
  }

  function NewOp(x: Receiver): RecvOp { RecvOp(Other(x.send), x.issued, None, {}) }

  function RecvAct(c: Config, x: Receiver, wires: seq<Wire>, a: RecvAction): Receiver
    requires RecvEnabled(c, x, wires, a)
  {
    match a
    case IssueFirst => x.(pc := FirstWait, op := Some(NewOp(x)), issued := x.issued + 1)
    case EndFirst => x.(pc := Top, metadata := x.op.value.metadata.value, op := None, send := Other(x.send))
    case Issue => x.(pc := Yielding, j := 0, op := Some(NewOp(x)), issued := x.issued + 1)
    case IssueNone => x.(pc := Yielding, j := 0)
    case Yield => x.(out := x.out + [View(x.bufs[x.send], x.metadata.entries[x.j])], j := x.j + 1)
    case EndYield => x.(pc := if x.metadata.isLast then Finished else WaitOp)
    case EndNext => x.(pc := Top, k := x.k + 1, metadata := x.op.value.metadata.value, op := None, send := Other(x.send))
    case TakeMetadata => x.(op := Some(x.op.value.(metadata := Some(wires[x.op.value.wire].metadata))))
    case Copy(p) =>
      var op := x.op.value;
      x.(bufs := x.bufs[op.dst := x.bufs[op.dst][p := wires[op.wire].bytes[p]]], op := Some(op.(copied := op.copied + {p})))
  }

  datatype Move = OfRoot(a: RootAction) | OfReceiver(r: nat, b: RecvAction)

  predicate CanMove(c: Config, s: State, m: Move) {
    match m
    case OfRoot(a) => RootEnabled(c, s.root, s.wires, a)
    case OfReceiver(r, a) => r < |s.receivers| && RecvEnabled(c, s.receivers[r], s.wires, a)
  }

  function Next(c: Config, s: State, m: Move): State
    requires CanMove(c, s, m)
  {
    match m
    case OfRoot(a) => var (root, wires) := RootAct(c, s.root, s.wires, a); s.(root := root, wires := wires)
    case OfReceiver(r, a) => s.(receivers := s.receivers[r := RecvAct(c, s.receivers[r], s.wires, a)])
  }

  ghost predicate Reaches(c: Config, s: State, schedule: seq<Move>, t: State)
    decreases |schedule|
  {
    if schedule == [] then s == t
    else CanMove(c, s, schedule[0]) && Reaches(c, Next(c, s, schedule[0]), schedule[1..], t)
  }

  /** What a transport that lets rank 0 run ahead of nobody allows: a byte is handed over once every receiver has joined
      that broadcast, and rank 0 stops waiting for a broadcast once every receiver has. */
  ghost predicate Met(s: State, m: Move) {
    m.OfRoot? && s.root.op.Some? ==>
      && (m.a.Inject? ==> forall r :: 0 <= r < |s.receivers| ==> s.receivers[r].issued > s.root.op.value.wire)
      && (m.a.WaitPrevious? || m.a.FinishLast? ==>
            forall r :: 0 <= r < |s.receivers| ==> Base(s.receivers[r]) > s.root.op.value.wire)
  }

  /** The number of broadcasts a receiver has finished waiting for. */
  function Base(x: Receiver): nat { if x.pc == Start || x.pc == FirstWait then 0 else x.k + 1 }

  // ---------------------------------------------------------------- invariant

  ghost predicate WireOk(c: Config, i: nat, w: Wire, x: Root) {
    && i < |c.buckets| && w.metadata == MetaOf(c.buckets, i) && |w.bytes| == c.size
    && (Handed(c, w) ==> Holds(w.bytes, c.buckets[i]))
    && (!Handed(c, w) ==> x.op.Some? && x.op.value.wire == i)
  }

  ghost predicate RootOpOk(c: Config, x: Root, wires: seq<Wire>) {
    x.op.Some? ==>
      var op := x.op.value;
      && op.wire == |wires| - 1 && op.wire < |c.buckets| && wires[op.wire].sent <= Positions(c.size)
      && Holds(x.bufs[op.buf], c.buckets[op.wire]) && Agrees(wires[op.wire].bytes, x.bufs[op.buf], wires[op.wire].sent)
      && op.buf == (if x.pc == Filling then Other(x.send) else x.send)
  }

  ghost predicate RootOk(c: Config, x: Root, wires: seq<Wire>) {
    && x.k < |c.buckets| && |x.bufs[0]| == c.size && |x.bufs[1]| == c.size
    && |wires| == (if x.pc == Filling || x.pc == Ready then x.k else x.k + 1)
    && (x.pc == Filling ==> x.j <= |c.buckets[x.k]| && HoldsPrefix(x.bufs[x.send], c.buckets[x.k], x.j))
    && (x.pc == Ready ==> Holds(x.bufs[x.send], c.buckets[x.k]))
    && (x.pc == FinalWait || x.pc == RootFinished ==> x.k == |c.buckets| - 1)
    && (x.op.Some? <==> (x.pc == Filling && x.k > 0) || x.pc == FinalWait)
    && RootOpOk(c, x, wires)
  }

  ghost predicate RecvOpOk(c: Config, x: Receiver, wires: seq<Wire>) {
    x.op.Some? ==>
      var op := x.op.value;
      && op.dst == Other(x.send) && op.wire == Base(x) < |c.buckets|
      && op.copied <= Positions(c.size)
      && (op.metadata.None? ==> op.copied == {})
      && (op.metadata.Some? ==> && op.metadata.value == MetaOf(c.buckets, op.wire) && op.wire < |wires|
                                && op.copied <= wires[op.wire].sent && Agrees(x.bufs[op.dst], wires[op.wire].bytes, op.copied))
  }

  function YieldedHere(c: Config, x: Receiver): nat
    requires x.k < |c.buckets|
  {
    if x.pc == Top then 0 else if x.pc == Yielding && x.j <= |c.buckets[x.k]| then x.j else |c.buckets[x.k]|
  }

  ghost predicate RecvProgram(c: Config, x: Receiver)
    requires x.k < |c.buckets|
  {
    if x.pc == Start || x.pc == FirstWait then x.k == 0 && x.out == [] && (x.op.Some? <==> x.pc == FirstWait)
    else
      && x.metadata == MetaOf(c.buckets, x.k) && Holds(x.bufs[x.send], c.buckets[x.k])
      && (x.op.Some? <==> (x.pc == Yielding || x.pc == WaitOp) && x.k < |c.buckets| - 1)
      && (x.pc == WaitOp ==> x.k < |c.buckets| - 1)
      && (x.pc == Finished ==> x.k == |c.buckets| - 1)
      && (x.pc == Yielding ==> x.j <= |c.buckets[x.k]|)
      && x.out == Flat(c.buckets[..x.k]) + c.buckets[x.k][..YieldedHere(c, x)]
  }

  ghost predicate RecvOk(c: Config, x: Receiver, wires: seq<Wire>) {
    && x.k < |c.buckets| && |x.bufs[0]| == c.size && |x.bufs[1]| == c.size
    && x.issued == Base(x) + (if x.op.Some? then 1 else 0)
    && RecvOpOk(c, x, wires)
    && RecvProgram(c, x)
  }

  ghost predicate WiresOk(c: Config, x: Root, wires: seq<Wire>) {
    forall i :: 0 <= i < |wires| ==> WireOk(c, i, wires[i], x)
  }

  ghost predicate Inv(c: Config, s: State) {
    && RootOk(c, s.root, s.wires)
    && WiresOk(c, s.root, s.wires)
    && |s.receivers| == c.last
    && forall r :: 0 <= r < c.last ==> RecvOk(c, s.receivers[r], s.wires)
  }

  lemma InitInv(c: Config, s: State)
    requires ValidConfig(c) && Init(c, s)
    ensures Inv(c, s)
  {
    forall r | 0 <= r < c.last ensures RecvOk(c, s.receivers[r], s.wires) {}
  }

  // ---------------------------------------------------------------- rank 0

  lemma PutOk(c: Config, x: Root, wires: seq<Wire>)
    requires ValidConfig(c) && RootOk(c, x, wires) && RootEnabled(c, x, wires, Put)
    ensures RootOk(c, RootAct(c, x, wires, Put).0, wires)
  {
    hide ValidBucket;
    WriteNext(x.bufs[x.send], c.buckets[x.k], x.j);
  }

  lemma BroadcastOk(c: Config, x: Root, wires: seq<Wire>)
    requires RootOk(c, x, wires) && RootEnabled(c, x, wires, Broadcast)
    ensures RootOk(c, RootAct(c, x, wires, Broadcast).0, RootAct(c, x, wires, Broadcast).1)
  {
    hide InRange, View, Write;
    MetaEntries(c.buckets, x.k);
  }

  lemma InjectOk(c: Config, x: Root, wires: seq<Wire>, p: nat)
    requires RootOk(c, x, wires) && RootEnabled(c, x, wires, Inject(p))
    ensures RootOk(c, x, RootAct(c, x, wires, Inject(p)).1)
  {
    hide HoldsPrefix;
  }

  lemma RootStep(c: Config, x: Root, wires: seq<Wire>, a: RootAction)
    requires ValidConfig(c) && RootOk(c, x, wires) && RootEnabled(c, x, wires, a)
    ensures RootOk(c, RootAct(c, x, wires, a).0, RootAct(c, x, wires, a).1)
  {
    hide HoldsPrefix, ValidConfig, MetaOf, InRange, Write;
    match a
    case Put => PutOk(c, x, wires);
    case Broadcast => BroadcastOk(c, x, wires);
    case Inject(p) => InjectOk(c, x, wires, p);
    case _ =>
  }

  /** Later wires only add: bytes handed over and metadata published stay as they are. */
  ghost predicate Extends(w1: seq<Wire>, w2: seq<Wire>) {
    && |w1| <= |w2|
    && forall i :: 0 <= i < |w1| ==> WireExtends(w1[i], w2[i])
  }

  ghost predicate WireExtends(w1: Wire, w2: Wire) {
    && w2.metadata == w1.metadata && w1.sent <= w2.sent && |w2.bytes| == |w1.bytes|
    && forall p :: p in w1.sent && p < |w1.bytes| ==> w2.bytes[p] == w1.bytes[p]
  }

  lemma WiresStep(c: Config, x: Root, wires: seq<Wire>, a: RootAction)
    requires RootOk(c, x, wires) && WiresOk(c, x, wires) && RootEnabled(c, x, wires, a)
    ensures WiresOk(c, RootAct(c, x, wires, a).0, RootAct(c, x, wires, a).1)
    ensures Extends(wires, RootAct(c, x, wires, a).1)
  {
    hide RootOk, WireOk, WireExtends, RootEnabled, RootAct;
    var (y, wires2) := RootAct(c, x, wires, a);
    WireCount(c, x, wires, a);
    forall i | 0 <= i < |wires2| ensures WireOk(c, i, wires2[i], y) && (i < |wires| ==> WireExtends(wires[i], wires2[i])) {
      if i < |wires| { OldWire(c, x, wires, a, i); } else { EmptyWire(c, x, wires, y); }
    }
  }

  lemma WireCount(c: Config, x: Root, wires: seq<Wire>, a: RootAction)
    requires RootEnabled(c, x, wires, a)
    ensures |RootAct(c, x, wires, a).1| == |wires| + if a.Broadcast? then 1 else 0
  {
  }

  lemma OldWire(c: Config, x: Root, wires: seq<Wire>, a: RootAction, i: nat)
    requires RootOk(c, x, wires) && i < |wires| && WireOk(c, i, wires[i], x) && RootEnabled(c, x, wires, a)
    ensures i < |RootAct(c, x, wires, a).1|
    ensures WireOk(c, i, RootAct(c, x, wires, a).1[i], RootAct(c, x, wires, a).0)
    ensures WireExtends(wires[i], RootAct(c, x, wires, a).1[i])
  {
    hide HoldsPrefix, Holds, Agrees, InRange, Write, View, MetaOf;
    var (y, wires2) := RootAct(c, x, wires, a);
    if a.Inject? {
      InjectOk(c, x, wires, a.p);
      if i == x.op.value.wire && Handed(c, wires2[i]) { FullCopy(wires2[i].bytes, x.bufs[x.op.value.buf], wires2[i].sent); }
    }
  }

  /** A broadcast of zero-size buffers is complete at once, and its bucket is whole: it has no bytes. */
  lemma EmptyWire(c: Config, x: Root, wires: seq<Wire>, y: Root)
    requires RootOk(c, x, wires) && RootEnabled(c, x, wires, Broadcast)
    requires y == RootAct(c, x, wires, Broadcast).0
    ensures WireOk(c, |wires|, RootAct(c, x, wires, Broadcast).1[|wires|], y)
  {
    hide HoldsPrefix, InRange, Write, View, MetaOf;
    var w := RootAct(c, x, wires, Broadcast).1[|wires|];
    if Handed(c, w) {
      FullCopy(w.bytes, x.bufs[x.send], w.sent);
    }
  }

  // ---------------------------------------------------------------- receivers

  lemma RecvStable(c: Config, x: Receiver, w1: seq<Wire>, w2: seq<Wire>)
    requires RecvOk(c, x, w1) && Extends(w1, w2)
    ensures RecvOk(c, x, w2)
  {
    hide RecvProgram, MetaOf;
    if x.op.Some? && x.op.value.metadata.Some? {
      assert WireExtends(w1[x.op.value.wire], w2[x.op.value.wire]);
    }
  }

  /** A receiver's complete operation has brought it the whole bucket. */
  lemma Arrived(c: Config, x: Receiver, root: Root, wires: seq<Wire>)
    requires RecvOk(c, x, wires) && WiresOk(c, root, wires) && RecvOpDone(c, x)
    ensures Holds(x.bufs[x.op.value.dst], c.buckets[x.op.value.wire])
  {
    hide RecvProgram, MetaOf, HoldsPrefix;
    var op := x.op.value;
    assert WireOk(c, op.wire, wires[op.wire], root);
    FullCopy(x.bufs[op.dst], wires[op.wire].bytes, op.copied);
  }

  lemma TakeOk(c: Config, x: Receiver, root: Root, wires: seq<Wire>)
    requires RecvOk(c, x, wires) && WiresOk(c, root, wires) && RecvEnabled(c, x, wires, TakeMetadata)
    ensures RecvOk(c, RecvAct(c, x, wires, TakeMetadata), wires)
  {
    hide Holds, HoldsPrefix, MetaOf, Flat, InRange, View, Handed, Positions;
    assert WireOk(c, x.op.value.wire, wires[x.op.value.wire], root);
  }

  lemma CopyOk(c: Config, x: Receiver, root: Root, wires: seq<Wire>, p: nat)
    requires RecvOk(c, x, wires) && WiresOk(c, root, wires) && RecvEnabled(c, x, wires, Copy(p))
    ensures RecvOk(c, RecvAct(c, x, wires, Copy(p)), wires)
  {
    hide Holds, HoldsPrefix, MetaOf, Flat, InRange, View, Handed, Positions;
    assert WireOk(c, x.op.value.wire, wires[x.op.value.wire], root);
  }

  lemma EndOk(c: Config, x: Receiver, root: Root, wires: seq<Wire>, a: RecvAction)
    requires RecvOk(c, x, wires) && WiresOk(c, root, wires) && RecvEnabled(c, x, wires, a) && (a.EndFirst? || a.EndNext?)
    ensures RecvOk(c, RecvAct(c, x, wires, a), wires)
  {
    Arrived(c, x, root, wires);
    hide HoldsPrefix, MetaOf, InRange, View, WiresOk, Positions;
    var b, k2 := c.buckets[x.k], x.op.value.wire;
    FlatExtend(c.buckets, x.k);
    assert b[..|b|] == b && c.buckets[k2][..0] == [] && c.buckets[..0] == [];
  }

  lemma YieldOk(c: Config, x: Receiver, wires: seq<Wire>)
    requires RecvOk(c, x, wires) && RecvEnabled(c, x, wires, Yield)
    ensures RecvOk(c, RecvAct(c, x, wires, Yield), wires)
  {
    hide HoldsPrefix, MetaOf, Flat, InRange, Agrees;
    var b := c.buckets[x.k];
    MetaEntries(c.buckets, x.k);
    HeldEntry(x.bufs[x.send], b, x.j);
    assert b[..x.j + 1] == b[..x.j] + [b[x.j]];
  }

  lemma ProgramOk(c: Config, x: Receiver, wires: seq<Wire>, a: RecvAction)
    requires RecvOk(c, x, wires) && RecvEnabled(c, x, wires, a)
    requires a.IssueFirst? || a.Issue? || a.IssueNone? || a.EndYield?
    ensures RecvOk(c, RecvAct(c, x, wires, a), wires)
  {
    hide HoldsPrefix, MetaOf, Flat, InRange, View;
    var b := c.buckets[x.k];
    MetaEntries(c.buckets, x.k);
    assert b[..|b|] == b;
  }

  lemma RecvStep(c: Config, x: Receiver, root: Root, wires: seq<Wire>, a: RecvAction)
    requires RecvOk(c, x, wires) && WiresOk(c, root, wires) && RecvEnabled(c, x, wires, a)
    ensures RecvOk(c, RecvAct(c, x, wires, a), wires)
  {
    hide RecvOk, WiresOk, RecvEnabled, RecvAct;
    match a
    case TakeMetadata => TakeOk(c, x, root, wires);
    case Copy(p) => CopyOk(c, x, root, wires, p);
    case EndFirst | EndNext => EndOk(c, x, root, wires, a);
    case Yield => YieldOk(c, x, wires);
    case _ => ProgramOk(c, x, wires, a);
  }

  lemma StepInv(c: Config, s: State, m: Move)
    requires ValidConfig(c) && Inv(c, s) && CanMove(c, s, m)
    ensures Inv(c, Next(c, s, m))
  {
    hide RootOk, WiresOk, RecvOk, RootAct, RecvAct, RootEnabled, RecvEnabled, Extends, ValidConfig;
    match m
    case OfRoot(a) =>
      RootStep(c, s.root, s.wires, a);
      WiresStep(c, s.root, s.wires, a);
      forall r | 0 <= r < c.last ensures RecvOk(c, s.receivers[r], Next(c, s, m).wires) {
        RecvStable(c, s.receivers[r], s.wires, Next(c, s, m).wires);
      }
    case OfReceiver(r, a) => RecvStep(c, s.receivers[r], s.root, s.wires, a);
  }

  // ---------------------------------------------------------------- safety of every run

  lemma {:induction false} RunInv(c: Config, s: State, schedule: seq<Move>, t: State)
    requires ValidConfig(c) && Inv(c, s) && Reaches(c, s, schedule, t)
    ensures Inv(c, t)
    decreases |schedule|
  {
    hide Inv, CanMove, Next;
    if schedule != [] {
      StepInv(c, s, schedule[0]);
      RunInv(c, Next(c, s, schedule[0]), schedule[1..], t);
    }
  }

  lemma YieldedPrefix(c: Config, x: Receiver, wires: seq<Wire>)
    requires RecvOk(c, x, wires)
    ensures x.out <= Flat(c.buckets)
    ensures x.pc == Finished ==> x.out == Flat(c.buckets)
  {
    hide Holds, RecvOpOk;
    if x.pc != Start && x.pc != FirstWait {
      var b := c.buckets[x.k];
      FlatPrefix(c.buckets, x.k, YieldedHere(c, x));
      if x.pc == Finished {
        FlatExtend(c.buckets, x.k);
        assert b[..|b|] == b && c.buckets[..|c.buckets|] == c.buckets;
      }
    }
  }

  /** The buffer a step writes is never the one being broadcast, or being yielded from. */
  ghost predicate SafeMove(c: Config, s: State, m: Move)
    requires CanMove(c, s, m) && |s.receivers| == c.last
  {
    var t := Next(c, s, m);
    && (s.root.op.Some? && t.root.op == s.root.op ==> t.root.bufs[s.root.op.value.buf] == s.root.bufs[s.root.op.value.buf])
    && (forall r :: 0 <= r < c.last && s.receivers[r].pc == Yielding ==>
          t.receivers[r].bufs[s.receivers[r].send] == s.receivers[r].bufs[s.receivers[r].send])
    && (m.OfRoot? && m.a.Broadcast? ==> s.root.op.None?)
    && (m.OfReceiver? && (m.b.Issue? || m.b.IssueFirst?) ==> s.receivers[m.r].op.None?)
  }

  /** In every run: a rank has at most one broadcast outstanding, the bytes being broadcast stay put until it completes,
      a yielded view keeps its bytes as long as the rank is yielding, and what is yielded is a prefix of the sender's
      chunks, all of them at the end. */
  lemma BroadcastSafety(c: Config, s: State, schedule: seq<Move>, t: State)
    requires ValidConfig(c) && Init(c, s) && Reaches(c, s, schedule, t)
    ensures |t.receivers| == c.last
    ensures forall m :: CanMove(c, t, m) ==> SafeMove(c, t, m)
    ensures forall r :: 0 <= r < c.last ==> t.receivers[r].out <= Flat(c.buckets)
    ensures forall r :: 0 <= r < c.last && t.receivers[r].pc == Finished ==> t.receivers[r].out == Flat(c.buckets)
  {
    hide RootOk, WiresOk, RecvOk, CanMove, SafeMove;
    InitInv(c, s);
    RunInv(c, s, schedule, t);
    forall m | CanMove(c, t, m) ensures SafeMove(c, t, m) { MoveIsSafe(c, t, m); }
    forall r | 0 <= r < c.last
      ensures t.receivers[r].out <= Flat(c.buckets)
      ensures t.receivers[r].pc == Finished ==> t.receivers[r].out == Flat(c.buckets)
    {
      YieldedPrefix(c, t.receivers[r], t.wires);
    }
  }

  lemma MoveIsSafe(c: Config, s: State, m: Move)
    requires Inv(c, s) && CanMove(c, s, m)
    ensures SafeMove(c, s, m)
  {
    hide HoldsPrefix, Flat, MetaOf, WiresOk, View, Write, InRange, Agrees;
    if m.OfReceiver? { assert RecvOk(c, s.receivers[m.r], s.wires); }
  }

  // ---------------------------------------------------------------- progress

  ghost predicate Final(c: Config, s: State) {
    s.root.pc == RootFinished && forall r :: 0 <= r < |s.receivers| ==> s.receivers[r].pc == Finished
  }

  /** Rank 0 can move when every receiver has finished with the broadcast under way, or has joined one that is not handed
      over yet. */
  lemma RootMoves(c: Config, s: State) returns (m: Move)
    requires ValidConfig(c) && Inv(c, s) && s.root.pc != RootFinished
    requires s.root.op.Some? ==> forall r :: 0 <= r < c.last ==>
               && s.receivers[r].issued > s.root.op.value.wire
               && (Handed(c, s.wires[s.root.op.value.wire]) ==> Base(s.receivers[r]) > s.root.op.value.wire)
    ensures CanMove(c, s, m) && Met(s, m)
  {
    hide HoldsPrefix, MetaOf, Agrees, RecvOk;
    var x := s.root;
    if x.op.Some? && !Handed(c, s.wires[x.op.value.wire]) {
      assert WireOk(c, x.op.value.wire, s.wires[x.op.value.wire], x);
      var p :| p in Positions(c.size) && p !in s.wires[x.op.value.wire].sent;
      m := OfRoot(Inject(p));
    } else if x.pc == Filling && x.j < |c.buckets[x.k]| {
      var b := c.buckets[x.k];
      EntryFits(b, x.j, c.size);
      m := OfRoot(Put);
    } else {
      m := OfRoot(match x.pc case Filling => WaitPrevious case Ready => Broadcast case _ => FinishLast);
    }
  }

  /** A receiver can move as long as the broadcast it has joined, if any, is handed over. */
  lemma ReceiverMoves(c: Config, s: State, r: nat) returns (m: Move)
    requires ValidConfig(c) && Inv(c, s) && r < c.last && s.receivers[r].pc != Finished
    requires s.receivers[r].op.Some? ==>
               s.receivers[r].op.value.wire < |s.wires| && Handed(c, s.wires[s.receivers[r].op.value.wire])
    ensures CanMove(c, s, m) && Met(s, m)
  {
    hide HoldsPrefix, MetaOf, Agrees, ValidConfig, Flat;
    var x := s.receivers[r];
    assert RecvOk(c, x, s.wires);
    MetaEntries(c.buckets, x.k);
    if x.op.Some? && x.op.value.metadata.None? {
      m := OfReceiver(r, TakeMetadata);
    } else if x.op.Some? && !(Positions(c.size) <= x.op.value.copied) {
      var i := x.op.value.wire;
      assert WireOk(c, i, s.wires[i], s.root);
      var p :| p in Positions(c.size) && p !in x.op.value.copied;
      m := OfReceiver(r, Copy(p));
    } else {
      if x.pc == Yielding && x.j < |c.buckets[x.k]| { HeldEntry(x.bufs[x.send], c.buckets[x.k], x.j); }
      m := OfReceiver(r, match x.pc
                         case Start => IssueFirst
                         case FirstWait => EndFirst
                         case Top => if x.metadata.isLast then IssueNone else Issue
                         case Yielding => if x.j < |x.metadata.entries| then Yield else EndYield
                         case _ => EndNext);
    }
  }

  /** A receiver that has not joined broadcast i, or has not finished waiting for it once it is handed over, can move when
      every broadcast before i is handed over. */
  lemma BehindMoves(c: Config, s: State, r: nat, i: nat) returns (m: Move)
    requires ValidConfig(c) && Inv(c, s) && r < c.last && i < |s.wires| && i < |c.buckets|
    requires s.root.op.Some? ==> s.root.op.value.wire == i
    requires s.receivers[r].issued <= i || (Base(s.receivers[r]) <= i && Handed(c, s.wires[i]))
    ensures CanMove(c, s, m) && Met(s, m)
  {
    hide HoldsPrefix, MetaOf, Agrees, ValidConfig, Flat, CanMove, Met;
    var x := s.receivers[r];
    assert RecvOk(c, x, s.wires);
    if x.op.Some? { assert WireOk(c, x.op.value.wire, s.wires[x.op.value.wire], s.root); }
    m := ReceiverMoves(c, s, r);
  }

  /** Some move is possible, even for the most reluctant transport. */
  lemma SomeMove(c: Config, s: State) returns (m: Move)
    requires ValidConfig(c) && Inv(c, s) && !Final(c, s)
    ensures CanMove(c, s, m) && Met(s, m)
  {
    hide HoldsPrefix, MetaOf, Agrees, ValidConfig, CanMove, Met, WiresOk, RecvOk;
    if s.root.pc == RootFinished {
      var r :| 0 <= r < |s.receivers| && s.receivers[r].pc != Finished;
      m := LastMoves(c, s, r);
    } else if s.root.op.Some? {
      var i := s.root.op.value.wire;
      if r :| 0 <= r < c.last && (s.receivers[r].issued <= i || (Base(s.receivers[r]) <= i && Handed(c, s.wires[i]))) {
        m := BehindMoves(c, s, r, i);
      } else {
        m := RootMoves(c, s);
      }
    } else {
      m := RootMoves(c, s);
    }
  }

  lemma LastMoves(c: Config, s: State, r: nat) returns (m: Move)
    requires ValidConfig(c) && Inv(c, s) && r < c.last && s.receivers[r].pc != Finished && s.root.pc == RootFinished
    ensures CanMove(c, s, m) && Met(s, m)
  {
    hide HoldsPrefix, MetaOf, Agrees, ValidConfig, Flat, CanMove, Met;
    var x := s.receivers[r];
    assert RecvOk(c, x, s.wires);
    if x.op.Some? { assert WireOk(c, x.op.value.wire, s.wires[x.op.value.wire], s.root); }
    m := ReceiverMoves(c, s, r);
  }

  /** No run is ever stuck short of its end, under any transport that allows at least the moves of the most reluctant one. */
  lemma NoDeadlock(c: Config, s: State, schedule: seq<Move>, t: State)
    requires ValidConfig(c) && Init(c, s) && Reaches(c, s, schedule, t)
    ensures Final(c, t) || exists m :: CanMove(c, t, m) && Met(t, m)
  {
    InitInv(c, s);
    RunInv(c, s, schedule, t);
    hide Inv, CanMove, Met, Final;
    if !Final(c, t) { var m := SomeMove(c, t); }
  }

  // ---------------------------------------------------------------- termination

  function Round(c: Config): nat { MaxEntries(c.buckets) + 2 * c.size + 8 }

  function Budget(c: Config): nat { (|c.buckets| + 1) * Round(c) }

  function SentNow(x: Root, wires: seq<Wire>): nat {
    if x.op.Some? && x.op.value.wire < |wires| then |wires[x.op.value.wire].sent| else 0
  }

  function RootWithin(c: Config, x: Root, wires: seq<Wire>): nat {
    var n := |Bucketed(c, x.k)|;
    match x.pc
    case Filling => x.j + SentNow(x, wires)
    case Ready => n + c.size + 1
    case FinalWait => n + c.size + 2 + SentNow(x, wires)
    case RootFinished => n + 2 * c.size + 3
  }

  function OpProgress(x: Receiver): nat {
    if x.op.None? then 0 else |x.op.value.copied| + if x.op.value.metadata.Some? then 1 else 0
  }

  function RecvWithin(c: Config, x: Receiver): nat {
    var n := |Bucketed(c, x.k)|;
    match x.pc
    case Start => 0
    case FirstWait => 1 + OpProgress(x)
    case Top => 0
    case Yielding => 1 + x.j + OpProgress(x)
    case WaitOp => 2 + n + OpProgress(x)
    case Finished => 2 + n
  }

  function Left(budget: nat, round: nat, size: nat, within: nat): nat {
    if round * size + within <= budget then budget - (round * size + within) else 0
  }

  lemma LeftLess(c: Config, round: nat, within: nat, round2: nat, within2: nat)
    requires within2 < Round(c) && round2 <= |c.buckets| && within < Round(c)
    requires round2 == round + 1 || (round2 == round && within < within2)
    ensures Left(Budget(c), round2, Round(c), within2) < Left(Budget(c), round, Round(c), within)
  {
    Product(round2, |c.buckets|, Round(c));
    Product(round, |c.buckets|, Round(c));
    assert (round + 1) * Round(c) == round * Round(c) + Round(c);
  }

  function RootLeft(c: Config, x: Root, wires: seq<Wire>): nat { Left(Budget(c), x.k, Round(c), RootWithin(c, x, wires)) }

  function RecvLeft(c: Config, x: Receiver): nat { Left(Budget(c), Base(x), Round(c), RecvWithin(c, x)) }

  function Work(c: Config, s: State): nat {
    RootLeft(c, s.root, s.wires) + Sum(seq(|s.receivers|, r requires 0 <= r < |s.receivers| => RecvLeft(c, s.receivers[r])))
  }

  lemma RootBound(c: Config, x: Root, wires: seq<Wire>)
    requires RootOk(c, x, wires)
    ensures RootWithin(c, x, wires) < Round(c)
  {
    hide HoldsPrefix;
    if x.op.Some? { CopiedBound(wires[x.op.value.wire].sent, c.size); }
    assert |Bucketed(c, x.k)| <= MaxEntries(c.buckets);
  }

  lemma RecvBound(c: Config, x: Receiver, wires: seq<Wire>)
    requires RecvOk(c, x, wires)
    ensures RecvWithin(c, x) < Round(c)
  {
    hide HoldsPrefix, Flat;
    if x.op.Some? { CopiedBound(x.op.value.copied, c.size); }
    assert |Bucketed(c, x.k)| <= MaxEntries(c.buckets);
  }

  lemma RootAdvances(c: Config, x: Root, wires: seq<Wire>, a: RootAction)
    requires RootOk(c, x, wires) && RootEnabled(c, x, wires, a)
    requires RootOk(c, RootAct(c, x, wires, a).0, RootAct(c, x, wires, a).1)
    ensures var (y, wires2) := RootAct(c, x, wires, a);
            y.k == x.k + 1 || (y.k == x.k && RootWithin(c, x, wires) < RootWithin(c, y, wires2))
  {
    hide HoldsPrefix, MetaOf, View, Write, InRange;
    if x.op.Some? { CopiedBound(wires[x.op.value.wire].sent, c.size); }
  }

  lemma RecvAdvances(c: Config, x: Receiver, wires: seq<Wire>, a: RecvAction)
    requires RecvOk(c, x, wires) && RecvEnabled(c, x, wires, a)
    ensures var y := RecvAct(c, x, wires, a);
            Base(y) == Base(x) + 1 || (Base(y) == Base(x) && RecvWithin(c, x) < RecvWithin(c, y))
  {
    hide HoldsPrefix, MetaOf, View, InRange, Flat, Positions;
    MetaEntries(c.buckets, x.k);
  }

  lemma StepWork(c: Config, s: State, m: Move)
    requires ValidConfig(c) && Inv(c, s) && CanMove(c, s, m)
    ensures Work(c, Next(c, s, m)) < Work(c, s)
  {
    hide RootWithin, RecvWithin, RootAct, RecvAct, RootEnabled, RecvEnabled, RootOpOk, RecvOpOk, RecvProgram, WiresOk;
    hide Left, Budget, Round, HoldsPrefix;
    StepInv(c, s, m);
    var t := Next(c, s, m);
    var f := seq(|s.receivers|, r requires 0 <= r < |s.receivers| => RecvLeft(c, s.receivers[r]));
    var g := seq(|t.receivers|, r requires 0 <= r < |t.receivers| => RecvLeft(c, t.receivers[r]));
    match m
    case OfRoot(a) =>
      assert f == g;
      RootBound(c, s.root, s.wires);
      RootBound(c, t.root, t.wires);
      RootAdvances(c, s.root, s.wires, a);
      LeftLess(c, s.root.k, RootWithin(c, s.root, s.wires), t.root.k, RootWithin(c, t.root, t.wires));
    case OfReceiver(r, a) =>
      var x, y := s.receivers[r], t.receivers[r];
      assert RecvOk(c, x, s.wires) && RecvOk(c, y, t.wires);
      RecvBound(c, x, s.wires);
      RecvBound(c, y, t.wires);
      RecvAdvances(c, x, s.wires, a);
      assert Base(y) <= |c.buckets|;
      LeftLess(c, Base(x), RecvWithin(c, x), Base(y), RecvWithin(c, y));
      assert g == f[r := g[r]];
      SumUpdate(f, r, g[r]);
  }

  lemma {:induction false} RunsEnd(c: Config, s: State, schedule: seq<Move>, t: State)
    requires ValidConfig(c) && Inv(c, s) && Reaches(c, s, schedule, t)
    ensures |schedule| + Work(c, t) <= Work(c, s)
    decreases |schedule|
  {
    hide Inv, CanMove, Next, Work;
    if schedule != [] {
      StepInv(c, s, schedule[0]);
      StepWork(c, s, schedule[0]);
      RunsEnd(c, Next(c, s, schedule[0]), schedule[1..], t);
    }
  }

  /** Every schedule is finite, and one that cannot be continued, by whichever transport between the two extremes, has
      brought every rollout rank exactly the sender's chunks. */
  lemma BroadcastDelivers(c: Config, s: State, schedule: seq<Move>, t: State)
    requires ValidConfig(c) && Init(c, s) && Reaches(c, s, schedule, t)
    ensures |schedule| <= Work(c, s) && |t.receivers| == c.last
    ensures (forall m :: CanMove(c, t, m) ==> !Met(t, m)) ==>
              forall r :: 0 <= r < c.last ==> t.receivers[r].out == Flat(c.buckets)
  {
    hide RootOk, WiresOk, RecvOk, CanMove, Met, Work;
    InitInv(c, s);
    RunsEnd(c, s, schedule, t);
    NoDeadlock(c, s, schedule, t);
    BroadcastSafety(c, s, schedule, t);
  }

  /** From every state of a run there is a way to continue until nothing more can happen. */
  lemma {:induction false} Completes(c: Config, s: State) returns (schedule: seq<Move>, t: State)
    requires ValidConfig(c) && Inv(c, s)
    ensures Reaches(c, s, schedule, t) && forall m :: !CanMove(c, t, m)
    decreases Work(c, s)
  {
    hide Inv, CanMove, Next, Work;
    if m :| CanMove(c, s, m) {
      StepInv(c, s, m);
      StepWork(c, s, m);
      var rest, last := Completes(c, Next(c, s, m));
      schedule, t := [m] + rest, last;
      assert schedule[1..] == rest;
    } else {
      schedule, t := [], s;
    }
  }

  /** Every transfer has a start, and a run from it that delivers. */
  lemma SomeRun(c: Config) returns (s: State, schedule: seq<Move>, t: State)
    requires ValidConfig(c)
    ensures Init(c, s) && Reaches(c, s, schedule, t) && |t.receivers| == c.last
    ensures forall r :: 0 <= r < c.last ==> t.receivers[r].out == Flat(c.buckets)
  {
    hide Reaches, Work, CanMove;
    var blank := Copies<Byte>(0, c.size);
    var x := Receiver(Start, 0, 0, [blank, blank], 0, Metadata([], false), None, 0, []);
    s := State(Root(Filling, 0, 0, [blank, blank], 0, None), [], Copies(x, c.last));
    InitInv(c, s);
    schedule, t := Completes(c, s);
    BroadcastDelivers(c, s, schedule, t);
  }
}
