/** What a flag left up does to the weights in Mooncake's relay (verl/checkpoint_engine/mooncake_checkpoint_engine.py): a run in
    which rank 1 hands on, under the name of a weight of the first bucket, bytes of the third. */
module MooncakeMixup {
  import opened Outcomes
  import opened Sequences
  import opened WeightChunks
  import opened BucketPacking
  import opened Buffers
  import opened MooncakeRelay
  import opened MooncakeRepeat

  lemma {:induction false} ReachesThen(c: Config, s: State, first: seq<Move>, t: State, more: seq<Move>, u: State)
    requires Shape(c, s) && Reaches(c, s, first, t) && Shape(c, t) && Reaches(c, t, more, u)
    ensures Reaches(c, s, first + more, u)
    decreases |first|
  {
    hide CanMove, Next;
    if first == [] {
      assert first + more == more;
    } else {
      assert (first + more)[1..] == first[1..] + more;
      ReachesThen(c, Next(c, s, first[0]), first[1..], t, more, u);
    }
  }

  lemma RunOne(c: Config, s: State, m: Move)
    requires Shape(c, s) && CanMove(c, s, m)
    ensures Reaches(c, s, [m], Next(c, s, m))
  {
    hide CanMove, Next;
    ReachesMore(c, s, [], s, m);
    assert [] + [m] == [m];
  }

  // ---------------------------------------------------------------- the sender alone, up to its first wait

  /** With three buckets or more the sender reaches its first wait by itself. */
  lemma {:induction false} RootToWait(c: Config, u: State) returns (schedule: seq<Move>, t: State)
    requires ValidConfig(c) && Inv(c, u) && |c.buckets| >= 3
    requires (u.ranks[0].pc == Filling && u.ranks[0].k <= 1) || (u.ranks[0].pc == RootWait && u.ranks[0].k == 2)
    ensures Reaches(c, u, schedule, t) && Inv(c, t) && t.ranks[0].pc == RootWait && t.ranks[0].k == 2 && t.ranks[1] == u.ranks[1]
    decreases Work(c, u)
  {
    hide LinkOk, Work, Enabled, Act, Next, Holds, HoldsPrefix;
    if u.ranks[0].pc == RootWait {
      schedule, t := [], u;
    } else {
      assert RankOk(c, 0, u.ranks[0]);
      var a := RootEnabled(c, LocalOf(c, u, 0));
      var m := Move(0, a);
      RootStep(c, u, m);
      StepInv(c, u, m);
      StepWork(c, u, m);
      var rest, last := RootToWait(c, Next(c, u, m));
      schedule, t := [m] + rest, last;
      assert schedule[1..] == rest;
    }
  }

  lemma RootStep(c: Config, u: State, m: Move)
    requires Inv(c, u) && |c.buckets| >= 3 && c.last > 0 && CanMove(c, u, m) && m.r == 0
    requires u.ranks[0].pc == Filling && u.ranks[0].k <= 1
    ensures var t := Next(c, u, m);
            && t.ranks[1] == u.ranks[1]
            && ((t.ranks[0].pc == Filling && t.ranks[0].k <= 1) || (t.ranks[0].pc == RootWait && t.ranks[0].k == 2))
  {
    hide LinkOk, Write, InRange, MetaOf, Total, Half, Holds, HoldsPrefix;
    assert RankOk(c, 0, u.ranks[0]);
    MetaEntries(c.buckets, u.ranks[0].k);
  }

  /** Then the description of the first bucket is the next one rank 1 will take. */
  lemma FirstInfo(c: Config, u: State)
    requires Inv(c, u) && c.last > 0 && |c.buckets| >= 3 && u.ranks[0].pc == RootWait && u.ranks[0].k == 2
    requires u.ranks[1].pc == Receiving && u.ranks[1].k == 0
    ensures u.msgs[0] != [] && u.msgs[0][0] == InfoOf(c, 0)
  {
    hide Holds, HoldsPrefix, SlotsOk, Half, InfoOf;
    assert LinkOk(c, 1, u.ranks[0], u.ranks[1], u.msgs[0], u.slots[0]);
  }

  // ---------------------------------------------------------------- rank 1 reads what is there

  /** Rank 1 is about to read, or is reading, the first bucket out of the sender's first half-buffer. */
  predicate ReadsFirst(c: Config, s: State) {
    && Shape(c, s) && c.last > 0 && |c.buckets| > 0
    && s.ranks[1].k == 0 && s.ranks[1].out == []
    && |s.ranks[0].bufs[0]| == |s.ranks[1].bufs[0]| == c.size
  }

  predicate SameSoFar(a: Rank, b: Rank, copied: set<nat>) {
    forall p :: p in copied && p < |a.bufs[0]| && p < |b.bufs[0]| ==> b.bufs[0][p] == a.bufs[0][p]
  }

  lemma {:induction false} CopyIn(c: Config, s: State) returns (schedule: seq<Move>, t: State)
    requires ReadsFirst(c, s) && s.ranks[1].pc == Reading && s.ranks[1].info == InfoOf(c, 0) && Total(c.buckets[0]) <= c.size
    requires SameSoFar(s.ranks[0], s.ranks[1], s.ranks[1].copied)
    ensures Reaches(c, s, schedule, t) && ReadsFirst(c, t) && t.ranks[0] == s.ranks[0]
    ensures t.ranks[1].pc == Reading && t.ranks[1].info == InfoOf(c, 0) && Positions(Total(c.buckets[0])) <= t.ranks[1].copied
    ensures SameSoFar(t.ranks[0], t.ranks[1], t.ranks[1].copied)
    decreases Positions(Total(c.buckets[0])) - s.ranks[1].copied
  {
    hide Reaches, MetaOf, Total;
    if p :| p in Positions(Total(c.buckets[0])) && p !in s.ranks[1].copied {
      var m := Move(1, Copy(p));
      var s1 := Next(c, s, m);
      OneCopied(c, s, p);
      RunOne(c, s, m);
      var rest, last := CopyIn(c, s1);
      ReachesThen(c, s, [m], s1, rest, last);
      schedule, t := [m] + rest, last;
    } else {
      schedule, t := [], s;
      RunNone(c, s);
    }
  }

  lemma RunNone(c: Config, s: State)
    requires Shape(c, s)
    ensures Reaches(c, s, [], s)
  {
  }

  lemma OneCopied(c: Config, s: State, p: nat)
    requires ReadsFirst(c, s) && s.ranks[1].pc == Reading && s.ranks[1].info == InfoOf(c, 0) && Total(c.buckets[0]) <= c.size
    requires SameSoFar(s.ranks[0], s.ranks[1], s.ranks[1].copied)
    requires p < Total(c.buckets[0]) && p !in s.ranks[1].copied
    ensures CanMove(c, s, Move(1, Copy(p)))
    ensures var t := Next(c, s, Move(1, Copy(p)));
            && ReadsFirst(c, t) && t.ranks[0] == s.ranks[0] && t.ranks[1].pc == Reading && t.ranks[1].info == InfoOf(c, 0)
            && t.ranks[1].copied == s.ranks[1].copied + {p} && SameSoFar(t.ranks[0], t.ranks[1], t.ranks[1].copied)
  {
    hide MetaOf, Total;
  }

  /** Rank 1 takes the description, reads all bytes, forwards and yields the first entry: out of whatever the sender's first
      half-buffer holds by then. */
  lemma YieldsWhatIsThere(c: Config, s: State) returns (schedule: seq<Move>, t: State)
    requires ReadsFirst(c, s) && s.ranks[1].pc == Receiving && s.msgs[0] != [] && s.msgs[0][0] == InfoOf(c, 0)
    requires ValidConfig(c) && c.buckets[0] != [] && c.buckets[0][0].bytes != []
    ensures Reaches(c, s, schedule, t) && Shape(c, t) && |t.ranks[1].out| == 1
    ensures t.ranks[1].out[0].meta == c.buckets[0][0].meta && |t.ranks[1].out[0].bytes| > 0
    ensures |s.ranks[0].bufs[0]| > 0 && t.ranks[1].out[0].bytes[0] == s.ranks[0].bufs[0][0]
  {
    hide Reaches, MetaOf, Total, ValidConfig, CanMove, Next;
    FirstEntryAt(c, 0);
    var s1 := Takes(c, s);
    RunOne(c, s, Move(1, TakeInfo));
    var run, s2 := CopyIn(c, s1);
    ReachesThen(c, s, [Move(1, TakeInfo)], s1, run, s2);
    var before := [Move(1, TakeInfo)] + run;
    var s3, s4 := Forwards(c, s2);
    ReachesMore(c, s, before, s2, Move(1, EndRead));
    ReachesMore(c, s, before + [Move(1, EndRead)], s3, Move(1, Forward));
    t := YieldsFirst(c, s4);
    ReachesMore(c, s, before + [Move(1, EndRead)] + [Move(1, Forward)], s4, Move(1, Yield));
    schedule := before + [Move(1, EndRead)] + [Move(1, Forward)] + [Move(1, Yield)];
  }

  /** A bucket's first entry starts at 0, inside the bucket. */
  lemma FirstEntryAt(c: Config, k: nat)
    requires ValidConfig(c) && k < |c.buckets| && c.buckets[k] != []
    ensures c.buckets[k][0].meta.offset == Some(0) && c.buckets[k][0].meta.chunkSize <= Total(c.buckets[k]) <= c.size
  {
    var b := c.buckets[k];
    assert b[..0] == [];
    TotalOne(b[0]);
    assert [b[0]] <= b;
    TotalStart(b, b[0]);
  }

  lemma Takes(c: Config, s: State) returns (t: State)
    requires ReadsFirst(c, s) && s.ranks[1].pc == Receiving && s.msgs[0] != [] && s.msgs[0][0] == InfoOf(c, 0)
    ensures CanMove(c, s, Move(1, TakeInfo)) && t == Next(c, s, Move(1, TakeInfo))
    ensures ReadsFirst(c, t) && t.ranks[0] == s.ranks[0] && t.ranks[1].pc == Reading
    ensures t.ranks[1].info == InfoOf(c, 0) && t.ranks[1].copied == {}
  {
    hide MetaOf, Total;
    t := Next(c, s, Move(1, TakeInfo));
  }

  lemma Forwards(c: Config, s: State) returns (t: State, u: State)
    requires ReadsFirst(c, s) && s.ranks[1].pc == Reading && s.ranks[1].info == InfoOf(c, 0)
    requires Positions(Total(c.buckets[0])) <= s.ranks[1].copied
    ensures CanMove(c, s, Move(1, EndRead)) && t == Next(c, s, Move(1, EndRead))
    ensures CanMove(c, t, Move(1, Forward)) && u == Next(c, t, Move(1, Forward))
    ensures u.ranks[1] == s.ranks[1].(pc := Yielding, j := 0) && u.ranks[0] == s.ranks[0]
  {
    hide MetaOf, Total;
    t := Next(c, s, Move(1, EndRead));
    u := Next(c, t, Move(1, Forward));
  }

  lemma YieldsFirst(c: Config, s: State) returns (t: State)
    requires Shape(c, s) && c.last > 0 && |c.buckets| > 0 && s.ranks[1].pc == Yielding && s.ranks[1].j == 0 && s.ranks[1].k == 0
    requires s.ranks[1].out == [] && s.ranks[1].info == InfoOf(c, 0) && |s.ranks[1].bufs[0]| == c.size
    requires c.buckets[0] != [] && c.buckets[0][0].bytes != [] && c.buckets[0][0].meta.offset == Some(0)
    requires c.buckets[0][0].meta.chunkSize <= c.size
    ensures CanMove(c, s, Move(1, Yield)) && t == Next(c, s, Move(1, Yield))
    ensures |t.ranks[1].out| == 1 && t.ranks[1].out[0].meta == c.buckets[0][0].meta
    ensures |t.ranks[1].out[0].bytes| > 0 && t.ranks[1].out[0].bytes[0] == s.ranks[1].bufs[0][0]
  {
    hide Total;
    t := Next(c, s, Move(1, Yield));
  }

  // ---------------------------------------------------------------- the two together

  /** The sender, past its wait, writes the first entry of the third bucket. */
  lemma Overwritten(c: Config, s: State) returns (t: State)
    requires Shape(c, s) && c.last > 0 && ValidConfig(c) && |c.buckets| >= 3 && s.ranks[0].pc == Filling && s.ranks[0].k == 2
    requires s.ranks[0].j == 0 && |s.ranks[0].bufs[0]| == c.size && c.buckets[2] != [] && c.buckets[2][0].bytes != []
    ensures CanMove(c, s, Move(0, Put)) && t == Next(c, s, Move(0, Put))
    ensures t.ranks[1] == s.ranks[1] && t.msgs == s.msgs
    ensures |t.ranks[0].bufs[0]| == c.size > 0 && t.ranks[0].bufs[0][0] == c.buckets[2][0].bytes[0]
  {
    hide Total, ValidConfig;
    FirstEntryAt(c, 2);
    t := Next(c, s, Move(0, Put));
    var e := c.buckets[2][0];
    assert t.ranks[0].bufs[0][0..0 + |e.bytes|] == e.bytes;
  }

  /** From a start with the flag of the sender's first slot up, three buckets or more, and first entries of the first and the
      third that begin with different bytes: a run in which rank 1 has yielded the first entry of the first bucket with the
      third bucket's byte. */
  lemma YieldsWrong(c: Config, s: State) returns (schedule: seq<Move>, t: State)
    requires ValidConfig(c) && Start(c, s) && |c.buckets| >= 3 && s.slots[0][0]
    requires c.buckets[0] != [] && c.buckets[0][0].bytes != [] && c.buckets[2] != [] && c.buckets[2][0].bytes != []
    ensures Reaches(c, s, schedule, t) && Shape(c, t) && |t.ranks[1].out| == 1
    ensures t.ranks[1].out[0].meta == c.buckets[0][0].meta && |t.ranks[1].out[0].bytes| > 0
    ensures t.ranks[1].out[0].bytes[0] == c.buckets[2][0].bytes[0]
    ensures c.buckets[0][0].bytes[0] != c.buckets[2][0].bytes[0] ==> !(t.ranks[1].out <= Flat(c.buckets))
  {
    hide Inv, Reaches, CanMove, Next, Work, Stalled, Covers, ReadsFirst;
    LastPositive(c);
    SmallHalves();
    var clean := Cleaned(c, s);
    StartCovers(c, s, 0);
    StartPcs(c, s);
    var prefix, u := RootToWait(c, clean);
    FirstInfo(c, u);
    var t0 := CoverRun(c, s, s, clean, 0, prefix, u);
    CoverShape(c, s, t0, u, 0);
    WaitIsStall(c, u);
    StallKeeps(c, s, t0, u, 0, 0);
    var go := PastWait(c, u, t0, 0, 0);
    var t1 := Next(c, t0, go);
    ReachesMore(c, s, prefix, t0, go);
    RootBufs(c, u);
    var t2 := Overwritten(c, t1);
    ReachesMore(c, s, prefix + [go], t1, Move(0, Put));
    assert ReadsFirst(c, t2) by { FirstRead(c, t2); }
    var run, last := YieldsWhatIsThere(c, t2);
    ReachesThen(c, s, prefix + [go] + [Move(0, Put)], t2, run, last);
    schedule, t := prefix + [go] + [Move(0, Put)] + run, last;
    FirstOfFlat(c);
  }

  lemma StartPcs(c: Config, s: State)
    requires Start(c, s) && c.last > 0
    ensures Cleaned(c, s).ranks[0].pc == Filling && Cleaned(c, s).ranks[0].k == 0
    ensures Cleaned(c, s).ranks[1].pc == Receiving && Cleaned(c, s).ranks[1].k == 0 && Cleaned(c, s).ranks[1].out == []
    ensures |Cleaned(c, s).ranks[1].bufs[0]| == c.size
  {
  }

  lemma WaitIsStall(c: Config, u: State)
    requires Shape(c, u) && c.last > 0 && u.ranks[0].pc == RootWait && u.ranks[0].k == 2
    requires u.ranks[1].pc == Receiving && u.ranks[1].k == 0
    ensures Stalled(c, u, 0, 0)
  {
  }

  lemma RootBufs(c: Config, u: State)
    requires Inv(c, u) && u.ranks[0].pc == RootWait
    ensures |u.ranks[0].bufs[0]| == c.size && u.ranks[0].j == 0
  {
    hide LinkOk, Holds;
    assert RankOk(c, 0, u.ranks[0]);
  }

  lemma FirstRead(c: Config, s: State)
    requires Shape(c, s) && c.last > 0 && |c.buckets| > 0 && s.ranks[1].k == 0 && s.ranks[1].out == []
    requires |s.ranks[0].bufs[0]| == |s.ranks[1].bufs[0]| == c.size
    ensures ReadsFirst(c, s)
  {
  }

  lemma FirstOfFlat(c: Config)
    requires |c.buckets| > 0 && c.buckets[0] != []
    ensures Flat(c.buckets) != [] && Flat(c.buckets)[0] == c.buckets[0][0]
  {
  }

  /** A whole transfer of an even number of buckets, at least four, and then a run of the same transfer on its flags that
      corrupts a weight. */
  lemma SecondCorrupts(c: Config) returns (first: seq<Move>, t: State, schedule: seq<Move>, u: State)
    requires ValidConfig(c) && |c.buckets| >= 4 && |c.buckets| % 2 == 0
    requires c.buckets[0] != [] && c.buckets[0][0].bytes != [] && c.buckets[2] != [] && c.buckets[2][0].bytes != []
    ensures Reaches(c, Beginning(c), first, t) && Shape(c, t) && forall m :: !CanMove(c, t, m)
    ensures Start(c, Beginning(c).(slots := t.slots)) && Reaches(c, Beginning(c).(slots := t.slots), schedule, u)
    ensures Shape(c, u) && |u.ranks[1].out| == 1 && u.ranks[1].out[0].meta == c.buckets[0][0].meta
    ensures |u.ranks[1].out[0].bytes| > 0 && u.ranks[1].out[0].bytes[0] == c.buckets[2][0].bytes[0]
    ensures c.buckets[0][0].bytes[0] != c.buckets[2][0].bytes[0] ==> !(u.ranks[1].out <= Flat(c.buckets))
  {
    hide Reaches, CanMove, Work;
    LastPositive(c);
    first, t := SomeRun(c);
    RelayDelivers(c, Beginning(c), first, t);
    var s := Beginning(c).(slots := t.slots);
    assert Half(|c.buckets|) == 0;
    schedule, u := YieldsWrong(c, s);
  }

  function OneByte(name: string, byte: Byte): (b: Bucket)
    ensures Total(b) == 1 && ValidBucket(b, 1) && |b| == 1 && b[0].meta.name == name && b[0].bytes == [byte]
  {
    var b := [RawChunk(TensorMeta(name, [1], 1, 0, 1, Some(0)), [byte])];
    TotalOne(b[0]);
    assert b[..0] == [];
    b
  }

  /** For instance four weights of one byte each: sent a second time, rank 1 receives the third's byte as the first. */
  lemma FourBytes() returns (c: Config, first: seq<Move>, t: State, schedule: seq<Move>, u: State)
    ensures ValidConfig(c) && Greedy(c.buckets, c.size) && c.last == 1 && c.size == 1
    ensures c.buckets == [OneByte("k", 1), OneByte("o", 2), OneByte("q", 3), OneByte("v", 4)]
    ensures Reaches(c, Beginning(c), first, t) && Shape(c, t) && forall m :: !CanMove(c, t, m)
    ensures Reaches(c, Beginning(c).(slots := t.slots), schedule, u)
    ensures Shape(c, u) && |u.ranks[1].out| == 1 && u.ranks[1].out[0].meta.name == "k" && |u.ranks[1].out[0].bytes| > 0
    ensures u.ranks[1].out[0].bytes[0] == 3
  {
    hide Reaches, CanMove;
    c := Config(1, [OneByte("k", 1), OneByte("o", 2), OneByte("q", 3), OneByte("v", 4)], 1);
    first, t, schedule, u := SecondCorrupts(c);
  }
}
