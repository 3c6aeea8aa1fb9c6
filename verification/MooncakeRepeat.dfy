/** Mooncake's chain relay started with completion flags already up, as a transfer leaves them for the next one
    (verl/checkpoint_engine/mooncake_checkpoint_engine.py clears no slot between transfers): exactly when it is still sound. */
module MooncakeRepeat {
  import opened Outcomes
  import opened Sequences
  import opened WeightChunks
  import opened BucketPacking
  import opened Buffers
  import opened MooncakeRelay

  // ---------------------------------------------------------------- starts, and what is wanted of all runs

  /** The same start with all flags down. */
  function Cleaned(c: Config, s: State): State { s.(slots := Copies([false, false], c.last)) }

  /** A start with any flags up. */
  ghost predicate Start(c: Config, s: State) { Shape(c, s) && Init(c, Cleaned(c, s)) }

  /** No write goes to a half-buffer in use or ahead of the next rank's signal, and the sender ends after rank 1. */
  ghost predicate Sound(c: Config, t: State)
    requires Shape(c, t)
  {
    && (forall m :: CanMove(c, t, m) && m.r <= c.last && Writes(t.ranks[m.r], m.a) ==> Refills(c, t, m.r))
    && (c.last > 0 && t.ranks[0].pc == Finished ==> t.ranks[1].pc == Finished)
  }

  ghost predicate Refills(c: Config, t: State, r: nat)
    requires Shape(c, t) && r <= c.last
  {
    && !InUse(c, t, r, Half(t.ranks[r].k))
    && (r < c.last ==> t.ranks[r].k <= Signalled(t.ranks[r + 1]) + 1)
  }

  ghost predicate AllRunsSound(c: Config, s: State)
    requires Shape(c, s)
  {
    forall schedule, t :: Reaches(c, s, schedule, t) ==> Shape(c, t) && Sound(c, t)
  }

  /** Slot `i` of rank `r` is waited for: before bucket k from the third on, and by the sender for the last bucket. */
  ghost predicate Awaited(n: nat, r: nat, i: Bit) {
    (exists k: nat :: 2 <= k < n && Half(k) == i) || (r == 0 && n > 0 && Half(n - 1) == i)
  }

  ghost predicate AwaitedDown(c: Config, s: State)
    requires Shape(c, s)
  {
    forall r, i: Bit :: 0 <= r < c.last && Awaited(|c.buckets|, r, i) ==> !s.slots[r][i]
  }

  // ---------------------------------------------------------------- awaited slots down: a run looks like one from cleared slots

  /** `t` is `u`, with the flags that were up at the start `s` in addition. */
  ghost predicate Shadows(c: Config, s: State, t: State, u: State) {
    && Shape(c, s) && Shape(c, t) && Shape(c, u)
    && t.ranks == u.ranks && t.msgs == u.msgs
    && forall r :: 0 <= r < c.last ==> Plus(t.slots[r], u.slots[r], s.slots[r])
  }

  /** Slots `a` are slots `b` with the flags of `up` in addition. */
  ghost predicate Plus(a: Slots, b: Slots, up: Slots) { forall i: Bit :: a[i] <==> b[i] || up[i] }

  lemma WaitsAreAwaited(c: Config, r: nat, x: Rank)
    requires RankOk(c, r, x) && (x.pc == RootWait || x.pc == SlotWait || x.pc == FinalWait)
    ensures Awaited(|c.buckets|, r, Half(x.k))
    ensures x.pc != FinalWait ==> x.k >= 2
    ensures x.pc == RootWait || x.pc == FinalWait ==> r == 0
    ensures x.pc == SlotWait ==> 0 < r < c.last
  {
    hide HoldsPrefix, Holds, Flat, Half;
    assert x.k >= 2 && x.k < |c.buckets| ==> Awaited(|c.buckets|, r, Half(x.k));
  }

  lemma ShadowEnabled(c: Config, s: State, t: State, u: State, m: Move)
    requires Inv(c, u) && Shadows(c, s, t, u) && AwaitedDown(c, s)
    ensures CanMove(c, t, m) <==> CanMove(c, u, m)
  {
    hide RankOk, LinkOk, Half, Enabled, Awaited;
    if m.r <= c.last {
      var x := u.ranks[m.r];
      if x.pc == RootWait || x.pc == SlotWait || x.pc == FinalWait { WaitsAreAwaited(c, m.r, x); }
      SameGuards(c, m.r, LocalOf(c, u, m.r), LocalOf(c, t, m.r), m.a);
    }
  }

  /** The guards look at the slots only where a rank waits. */
  lemma SameGuards(c: Config, r: nat, v: Local, w: Local, a: Action)
    requires w == v.(slots := w.slots, prevSlots := w.prevSlots)
    requires v.x.pc == RootWait || v.x.pc == SlotWait || v.x.pc == FinalWait ==> v.slots[Half(v.x.k)] == w.slots[Half(v.x.k)]
    ensures Enabled(c, r, v, a) <==> Enabled(c, r, w, a)
  {
    hide Half, InRange, Positions;
  }

  /** The same step seen from two starts: everything but the slots comes out the same. */
  lemma ShadowAct(c: Config, r: nat, v: Local, w: Local, a: Action, own: Slots, prev: Slots)
    requires w == v.(slots := w.slots, prevSlots := w.prevSlots) && Plus(v.slots, w.slots, own) && Plus(v.prevSlots, w.prevSlots, prev)
    requires Enabled(c, r, v, a) && Enabled(c, r, w, a)
    requires a.RootClear? || a.FinalClear? || a.ClearSlot? ==> !own[Half(v.x.k)]
    ensures Act(c, r, w, a) == Act(c, r, v, a).(slots := Act(c, r, w, a).slots, prevSlots := Act(c, r, w, a).prevSlots)
    ensures Plus(Act(c, r, v, a).slots, Act(c, r, w, a).slots, own)
    ensures Plus(Act(c, r, v, a).prevSlots, Act(c, r, w, a).prevSlots, prev)
  {
    hide Write, View, MetaOf, Total, InRange, Half, Positions;
  }

  function SlotsAt(c: Config, s: State, r: int): Slots
    requires Shape(c, s)
  {
    if 0 <= r < c.last then s.slots[r] else [false, false]
  }

  lemma SlotsNext(c: Config, s: State, m: Move, q: nat)
    requires Shape(c, s) && CanMove(c, s, m) && q < c.last
    ensures Next(c, s, m).slots[q] == if q == m.r then Act(c, m.r, LocalOf(c, s, m.r), m.a).slots
                                      else if q + 1 == m.r then Act(c, m.r, LocalOf(c, s, m.r), m.a).prevSlots
                                      else s.slots[q]
  {
    hide Act, Enabled;
  }

  lemma ShadowStep(c: Config, s: State, t: State, u: State, m: Move)
    requires Inv(c, u) && Shadows(c, s, t, u) && AwaitedDown(c, s) && CanMove(c, t, m)
    ensures CanMove(c, u, m) && Shadows(c, s, Next(c, t, m), Next(c, u, m))
  {
    hide Inv, Act, Enabled, AwaitedDown, Plus, Half;
    ShadowEnabled(c, s, t, u, m);
    ClearsAwaited(c, s, u, m);
    NonePlus();
    ShadowAct(c, m.r, LocalOf(c, t, m.r), LocalOf(c, u, m.r), m.a, SlotsAt(c, s, m.r), SlotsAt(c, s, m.r - 1));
    forall q | 0 <= q < c.last ensures Plus(Next(c, t, m).slots[q], Next(c, u, m).slots[q], s.slots[q]) {
      SlotsNext(c, t, m, q);
      SlotsNext(c, u, m, q);
    }
  }

  lemma NonePlus()
    ensures Plus([false, false], [false, false], [false, false])
  {
  }

  lemma ClearsAwaited(c: Config, s: State, u: State, m: Move)
    requires Inv(c, u) && Shape(c, s) && AwaitedDown(c, s) && CanMove(c, u, m)
    ensures m.a.RootClear? || m.a.FinalClear? || m.a.ClearSlot? ==> !SlotsAt(c, s, m.r)[Half(u.ranks[m.r].k)]
  {
    hide RankOk, LinkOk, Half, InRange, Awaited;
    if m.a.RootClear? || m.a.FinalClear? || m.a.ClearSlot? { WaitsAreAwaited(c, m.r, u.ranks[m.r]); }
  }

  /** Any run from a start whose awaited slots are down is, step by step, a run from cleared slots. */
  lemma {:induction false} ShadowRun(c: Config, s: State, t: State, u: State, schedule: seq<Move>, t2: State) returns (u2: State)
    requires ValidConfig(c) && Inv(c, u) && Shadows(c, s, t, u) && AwaitedDown(c, s) && Reaches(c, t, schedule, t2)
    ensures Inv(c, u2) && Reaches(c, u, schedule, u2) && Shadows(c, s, t2, u2)
    decreases |schedule|
  {
    hide RankOk, LinkOk, CanMove, Next, Shadows;
    if schedule == [] {
      u2 := u;
    } else {
      ShadowStep(c, s, t, u, schedule[0]);
      ShapeOf(c, s, t, u);
      StepInv(c, u, schedule[0]);
      u2 := ShadowRun(c, s, Next(c, t, schedule[0]), Next(c, u, schedule[0]), schedule[1..], t2);
    }
  }

  lemma ShapeOf(c: Config, s: State, t: State, u: State)
    requires Shadows(c, s, t, u)
    ensures Shape(c, s) && Shape(c, t) && Shape(c, u)
  {
  }

  lemma StartShadows(c: Config, s: State)
    requires ValidConfig(c) && Start(c, s)
    ensures Inv(c, Cleaned(c, s)) && Shadows(c, s, s, Cleaned(c, s))
  {
    InitInv(c, Cleaned(c, s));
  }

  lemma DownIsSound(c: Config, s: State)
    requires ValidConfig(c) && Start(c, s) && AwaitedDown(c, s)
    ensures AllRunsSound(c, s)
  {
    hide RankOk, LinkOk, Init, InUse, Reaches, CanMove, AwaitedDown;
    StartShadows(c, s);
    forall schedule, t | Reaches(c, s, schedule, t) ensures Shape(c, t) && Sound(c, t) {
      var u := ShadowRun(c, s, s, Cleaned(c, s), schedule, t);
      RelaySafety(c, Cleaned(c, s), schedule, u);
      forall m | CanMove(c, t, m) && m.r <= c.last && Writes(t.ranks[m.r], m.a) ensures Refills(c, t, m.r) {
        ShadowEnabled(c, s, t, u, m);
        RefillWaits(c, Cleaned(c, s), schedule, u, m);
        SameUse(c, t, u, m.r, Half(t.ranks[m.r].k));
      }
    }
  }

  lemma SameUse(c: Config, t: State, u: State, r: nat, b: Bit)
    requires Shape(c, t) && Shape(c, u) && t.ranks == u.ranks && t.msgs == u.msgs && r <= c.last
    ensures InUse(c, t, r, b) <==> InUse(c, u, r, b)
  {
  }

  /** The flags a transfer of `n` buckets leaves up. */
  predicate LeftUpAfter(n: nat, r: nat, i: Bit) { if r == 0 then n >= 2 && i == Half(n) else i < n }

  /** Then the transfer also delivers, and adds its own flags to those that were up. */
  lemma DownDelivers(c: Config, s: State, schedule: seq<Move>, t: State)
    requires ValidConfig(c) && Start(c, s) && AwaitedDown(c, s) && Reaches(c, s, schedule, t)
    ensures Shape(c, t) && |schedule| <= Work(c, s)
    ensures (forall m :: !CanMove(c, t, m)) ==>
              && (forall r :: 0 < r <= c.last ==> t.ranks[r].out == Flat(c.buckets))
              && (forall r, i: Bit :: 0 <= r < c.last ==> (t.slots[r][i] <==> LeftUpAfter(|c.buckets|, r, i) || s.slots[r][i]))
  {
    hide RankOk, LinkOk, Reaches, CanMove, AwaitedDown, Init;
    StartShadows(c, s);
    var u := ShadowRun(c, s, s, Cleaned(c, s), schedule, t);
    RelayDelivers(c, Cleaned(c, s), schedule, u);
    if forall m :: !CanMove(c, t, m) {
      forall m ensures !CanMove(c, u, m) { ShadowEnabled(c, s, t, u, m); }
    }
  }

  // ---------------------------------------------------------------- an awaited slot up: the run that goes wrong

  /** Rank `r` waits for the flag of bucket `h` before bucket h + 2, and the next rank has yet to raise it. */
  ghost predicate Stalled(c: Config, t: State, r: nat, h: nat)
    requires Shape(c, t) && r < c.last
  {
    && (t.ranks[r].pc == RootWait || t.ranks[r].pc == SlotWait)
    && t.ranks[r].k == h + 2 && Signalled(t.ranks[r + 1]) == h
  }

  predicate Stuck(c: Config, t: State, r: nat)
    requires Shape(c, t) && r < c.last
  {
    WaitsForFlag(t.ranks[r]) && !t.slots[r][Half(t.ranks[r].k)]
  }

  lemma Unfinished(c: Config, t: State, r: nat, h: nat)
    requires Inv(c, t) && r < c.last && Signalled(t.ranks[r + 1]) <= h && h + 2 < |c.buckets|
    ensures t.ranks[r].pc != Finished && t.ranks[r].pc != FinalWait
  {
    hide Holds, HoldsPrefix, Flat, Infos, Half;
    assert RankOk(c, r, t.ranks[r]) && LinkOk(c, r + 1, t.ranks[r], t.ranks[r + 1], t.msgs[r], t.slots[r]);
  }

  lemma StuckBehind(c: Config, t: State, r: nat)
    requires Inv(c, t) && r < c.last && Stuck(c, t, r) && t.ranks[r].pc != FinalWait
    ensures t.ranks[r].k == Signalled(t.ranks[r + 1]) + 2
  {
    hide Holds, HoldsPrefix, Flat, Infos, Half, MetaOf, Total;
    var x, z := t.ranks[r], t.ranks[r + 1];
    assert RankOk(c, r, x) && LinkOk(c, r + 1, x, z, t.msgs[r], t.slots[r]);
    HalfNext(x.k - 2);
    assert t.slots[r][Half(x.k)] == Flagged(Half(x.k), Cleared(x), Signalled(z));
  }

  /** Unless rank `r` is stuck itself, some rank up to it can move: going on from one that does not wait for its predecessor. */
  lemma {:induction false} Onward(c: Config, t: State, q: nat, r: nat) returns (m: Move)
    requires ValidConfig(c) && Inv(c, t) && 0 < q <= r < c.last && !Stuck(c, t, r)
    requires t.ranks[q].pc != Finished && !BlockedOnPrev(c, t, q)
    ensures CanMove(c, t, m) && m.r <= r
    decreases r - q
  {
    hide RankOk, LinkOk, Half, InRange, Stuck;
    var x := t.ranks[q];
    RelayPc(c, q, x);
    if x.pc == Reading {
      m := ReadMoves(c, t, q);
    } else if x.pc == Yielding {
      m := YieldMoves(c, t, q);
    } else if x.pc == SlotWait && !t.slots[q][Half(x.k)] {
      assert Stuck(c, t, q) by { IsStuck(c, t, q); }
      NextCanAct(c, t, q);
      m := Onward(c, t, q + 1, r);
    } else {
      m := Move(q, match x.pc case Receiving => TakeInfo case SlotWait => ClearSlot case _ => Forward);
    }
  }

  lemma IsStuck(c: Config, t: State, q: nat)
    requires Shape(c, t) && q < c.last && WaitsForFlag(t.ranks[q]) && !t.slots[q][Half(t.ranks[q].k)]
    ensures Stuck(c, t, q)
  {
  }

  /** The same, going back from rank `q` to the one it waits for. */
  lemma {:induction false} Upstream(c: Config, t: State, q: nat, r: nat) returns (m: Move)
    requires ValidConfig(c) && Inv(c, t) && q <= r < c.last && !Stuck(c, t, r) && t.ranks[q].pc != Finished
    ensures CanMove(c, t, m) && m.r <= r
    decreases q
  {
    hide RankOk, LinkOk, Half, Enabled;
    if q == 0 {
      var x := t.ranks[0];
      assert RankOk(c, 0, x);
      if (x.pc == RootWait || x.pc == FinalWait) && !t.slots[0][Half(x.k)] {
        NextCanAct(c, t, 0);
        m := Onward(c, t, 1, r);
      } else {
        var a := RootEnabled(c, LocalOf(c, t, 0));
        m := Move(0, a);
      }
    } else if BlockedOnPrev(c, t, q) {
      PrevCanAct(c, t, q);
      m := Upstream(c, t, q - 1, r);
    } else {
      m := Onward(c, t, q, r);
    }
  }

  /** A step towards the stall: it is not the next rank's signal for bucket `h`. */
  lemma Approach(c: Config, t: State, r: nat, h: nat) returns (m: Move)
    requires ValidConfig(c) && Inv(c, t) && r < c.last && h + 2 < |c.buckets|
    requires Signalled(t.ranks[r + 1]) <= h && !Stalled(c, t, r, h)
    ensures CanMove(c, t, m) && (m.r == r + 1 && m.a.Signal? ==> Signalled(t.ranks[r + 1]) < h)
  {
    hide RankOk, LinkOk, CanMove, Half, Signalled;
    Unfinished(c, t, r, h);
    if Stuck(c, t, r) {
      StuckBehind(c, t, r);
      m := AnyMove(c, t, r);
    } else {
      m := Upstream(c, t, r, r);
    }
  }

  lemma AnyMove(c: Config, t: State, r: nat) returns (m: Move)
    requires ValidConfig(c) && Inv(c, t) && r <= c.last && t.ranks[r].pc != Finished
    ensures CanMove(c, t, m)
  {
    m := Backwards(c, t, r);
  }

  lemma CountersOf(c: Config, t: State, m: Move)
    requires Inv(c, t) && CanMove(c, t, m)
    ensures Counted(c, m.r, LocalOf(c, t, m.r), m.a)
  {
    hide RankOk, LinkOk, Enabled, Counted;
    var r, v := m.r, LocalOf(c, t, m.r);
    var w := if r > 0 then t.ranks[r - 1] else t.ranks[r];
    var z := if r < c.last then t.ranks[r + 1] else t.ranks[r];
    assert LocalOk(c, r, v, w, z);
    HeadOk(c, r, v, w, z);
    Counters(c, r, v, m.a);
  }

  lemma SignalledNext(c: Config, t: State, m: Move, q: nat)
    requires Inv(c, t) && CanMove(c, t, m) && 0 < q <= c.last
    ensures Signalled(Next(c, t, m).ranks[q]) == Signalled(t.ranks[q]) + if m.r == q && m.a.Signal? then 1 else 0
  {
    hide RankOk, LinkOk, Enabled, Act, Signalled, Taken, Described, Cleared, Half, InfoOf;
    CountersOf(c, t, m);
  }

  /** From every state of a run in which the next rank has not signalled bucket `h`, the stall can be reached. */
  lemma {:induction false} Stall(c: Config, u: State, r: nat, h: nat) returns (schedule: seq<Move>, t: State)
    requires ValidConfig(c) && Inv(c, u) && r < c.last && h + 2 < |c.buckets| && Signalled(u.ranks[r + 1]) <= h
    ensures Reaches(c, u, schedule, t) && Inv(c, t) && Stalled(c, t, r, h)
    decreases Work(c, u)
  {
    hide RankOk, LinkOk, CanMove, Next, Work, Signalled, Stalled;
    if Stalled(c, u, r, h) {
      schedule, t := [], u;
    } else {
      var m := Approach(c, u, r, h);
      StepInv(c, u, m);
      StepWork(c, u, m);
      SignalledNext(c, u, m, r + 1);
      var rest, last := Stall(c, Next(c, u, m), r, h);
      schedule, t := [m] + rest, last;
      assert schedule[1..] == rest;
    }
  }

  // ---------------------------------------------------------------- flags that are up only help a run along

  /** `t` is `u` with further flags up, among them those of rank `r` that were up at the start `s` and not yet cleared. */
  ghost predicate Covers(c: Config, s: State, t: State, u: State, r: nat) {
    && Shape(c, s) && Shape(c, t) && Shape(c, u) && r < c.last
    && t.ranks == u.ranks && t.msgs == u.msgs
    && (forall q :: 0 <= q < c.last ==> Above(t.slots[q], u.slots[q]))
    && Keeps(t.slots[r], s.slots[r], u.ranks[r])
  }

  ghost predicate Above(a: Slots, b: Slots) { forall i: Bit :: b[i] ==> a[i] }

  ghost predicate Passed(n: nat, i: Bit) { exists q: nat :: q < n && Half(q) == i }

  ghost predicate Keeps(a: Slots, start: Slots, x: Rank) {
    x.pc != Finished ==> forall i: Bit :: start[i] && !Passed(Cleared(x), i) ==> a[i]
  }

  lemma CoverEnabled(c: Config, r: nat, v: Local, w: Local, a: Action)
    requires w == v.(slots := w.slots, prevSlots := w.prevSlots) && Above(v.slots, w.slots) && Enabled(c, r, w, a)
    ensures Enabled(c, r, v, a)
  {
    hide InRange, Half, Positions;
  }

  lemma CoverAct(c: Config, r: nat, v: Local, w: Local, a: Action)
    requires w == v.(slots := w.slots, prevSlots := w.prevSlots) && Above(v.slots, w.slots) && Above(v.prevSlots, w.prevSlots)
    requires Enabled(c, r, v, a) && Enabled(c, r, w, a)
    ensures Act(c, r, w, a) == Act(c, r, v, a).(slots := Act(c, r, w, a).slots, prevSlots := Act(c, r, w, a).prevSlots)
    ensures Above(Act(c, r, v, a).slots, Act(c, r, w, a).slots)
    ensures Above(Act(c, r, v, a).prevSlots, Act(c, r, w, a).prevSlots)
  {
    hide Write, View, MetaOf, Total, InRange, Half, Positions;
  }

  /** A rank's own step clears at most the slot of the bucket it counts as cleared. */
  lemma KeepsAct(c: Config, r: nat, v: Local, w: Local, a: Action, start: Slots)
    requires r < c.last && w == v.(slots := w.slots, prevSlots := w.prevSlots)
    requires Enabled(c, r, v, a) && Enabled(c, r, w, a) && Counted(c, r, w, a) && Keeps(v.slots, start, w.x)
    ensures Keeps(Act(c, r, v, a).slots, start, Act(c, r, w, a).x)
  {
    hide Write, View, MetaOf, Total, InRange, Half, Positions, Cleared, Taken, Signalled, Described, InfoOf;
    var x, y := w.x, Act(c, r, w, a).x;
    if a.RootClear? || a.ClearSlot? {
      forall i: Bit | start[i] && !Passed(Cleared(y), i) ensures Act(c, r, v, a).slots[i] {
        NotPassed(Cleared(x), i);
      }
    }
  }

  lemma NotPassed(n: nat, i: Bit)
    requires !Passed(n + 1, i)
    ensures !Passed(n, i) && Half(n) != i
  {
  }

  /** Raising a flag keeps what is up. */
  lemma KeepsPrevious(c: Config, r: nat, v: Local, a: Action, start: Slots, x: Rank)
    requires Enabled(c, r, v, a) && Keeps(v.prevSlots, start, x)
    ensures Keeps(Act(c, r, v, a).prevSlots, start, x)
  {
    hide Write, View, MetaOf, Total, InRange, Half, Positions, Cleared;
  }

  lemma CoverStep(c: Config, s: State, t: State, u: State, r: nat, m: Move)
    requires Inv(c, u) && Covers(c, s, t, u, r) && CanMove(c, u, m)
    ensures CanMove(c, t, m) && Covers(c, s, Next(c, t, m), Next(c, u, m), r)
  {
    hide Inv, Act, Enabled, Above, Keeps, Half, Counted;
    var v, w := LocalOf(c, t, m.r), LocalOf(c, u, m.r);
    NoneAbove();
    CoverEnabled(c, m.r, v, w, m.a);
    CoverAct(c, m.r, v, w, m.a);
    forall q | 0 <= q < c.last ensures Above(Next(c, t, m).slots[q], Next(c, u, m).slots[q]) {
      SlotsNext(c, t, m, q);
      SlotsNext(c, u, m, q);
    }
    SlotsNext(c, t, m, r);
    if m.r == r {
      CountersOf(c, u, m);
      KeepsAct(c, r, v, w, m.a, s.slots[r]);
    } else if m.r == r + 1 {
      KeepsPrevious(c, m.r, v, m.a, s.slots[r], u.ranks[r]);
    }
  }

  lemma NoneAbove()
    ensures Above([false, false], [false, false])
  {
  }

  lemma {:induction false} CoverRun(c: Config, s: State, t: State, u: State, r: nat, schedule: seq<Move>, u2: State) returns (t2: State)
    requires ValidConfig(c) && Inv(c, u) && Covers(c, s, t, u, r) && Reaches(c, u, schedule, u2)
    ensures Reaches(c, t, schedule, t2) && Covers(c, s, t2, u2, r)
    decreases |schedule|
  {
    hide Inv, CanMove, Next, Covers;
    CoverShape(c, s, t, u, r);
    if schedule == [] {
      t2 := t;
    } else {
      CoverStep(c, s, t, u, r, schedule[0]);
      StepInv(c, u, schedule[0]);
      t2 := CoverRun(c, s, Next(c, t, schedule[0]), Next(c, u, schedule[0]), r, schedule[1..], u2);
    }
  }

  lemma CoverShape(c: Config, s: State, t: State, u: State, r: nat)
    requires Covers(c, s, t, u, r)
    ensures Shape(c, s) && Shape(c, t) && Shape(c, u) && r < c.last
  {
  }

  // ---------------------------------------------------------------- what goes wrong

  lemma {:induction false} ReachesMore(c: Config, s: State, schedule: seq<Move>, t: State, m: Move)
    requires Shape(c, s) && Reaches(c, s, schedule, t) && Shape(c, t) && CanMove(c, t, m)
    ensures Reaches(c, s, schedule + [m], Next(c, t, m))
    decreases |schedule|
  {
    hide CanMove, Next;
    if schedule == [] {
      assert [m][1..] == [] && [] + [m] == [m];
    } else {
      assert (schedule + [m])[1..] == schedule[1..] + [m];
      ReachesMore(c, Next(c, s, schedule[0]), schedule[1..], t, m);
    }
  }

  /** In a stall the next rank still has bucket `h` before it, in the half-buffer that bucket h + 2 will take. */
  lemma StillInUse(c: Config, u: State, r: nat, h: nat)
    requires Inv(c, u) && r < c.last && Stalled(c, u, r, h) && h + 2 < |c.buckets|
    ensures InUse(c, u, r, Half(h + 2))
  {
    hide Holds, HoldsPrefix, Flat, MetaOf, Total, Half, Positions, Agrees, SlotsOk;
    var x, z := u.ranks[r], u.ranks[r + 1];
    assert RankOk(c, r, x) && RankOk(c, r + 1, z) && LinkOk(c, r + 1, x, z, u.msgs[r], u.slots[r]);
    HalfNext(h);
    if z.pc == Receiving { InfosAt(c, Taken(z), Described(x), 0); }
  }

  /** Every bucket of a packing of more than one has bytes. */
  lemma BucketsHaveBytes(c: Config, k: nat)
    requires ValidConfig(c) && Greedy(c.buckets, c.size) && 0 < k < |c.buckets|
    ensures c.buckets[k] != [] && Total(c.buckets[k]) > 0
  {
    hide Total;
    assert Total(c.buckets[k - 1]) + Total(c.buckets[k - 1 + 1]) > c.size;
    BucketFits(c, k - 1);
    TotalOfNone(c.buckets[k]);
  }

  /** Once past its wait, the stalled rank can write into the half-buffer. */
  lemma CanOverwrite(c: Config, u: State, t: State, r: nat, h: nat) returns (go: Move, m: Move)
    requires ValidConfig(c) && Greedy(c.buckets, c.size) && Inv(c, u) && r < c.last && Stalled(c, u, r, h) && h + 2 < |c.buckets|
    requires Shape(c, t) && t.ranks == u.ranks && t.msgs == u.msgs && t.slots[r][Half(h + 2)]
    ensures CanMove(c, t, go) && go.r == m.r == r
    ensures CanMove(c, Next(c, t, go), m) && Writes(Next(c, t, go).ranks[r], m.a)
    ensures Next(c, t, go).ranks[r].k == h + 2 == Signalled(Next(c, t, go).ranks[r + 1]) + 2
    ensures InUse(c, Next(c, t, go), r, Half(h + 2))
  {
    hide RankOk, LinkOk, ValidConfig, Greedy, InUse, CanMove, Half;
    go := PastWait(c, u, t, r, h);
    var t2 := Next(c, t, go);
    StillInUse(c, u, r, h);
    StalledUse(c, u, t, t2, r, Half(h + 2));
    m := CanWrite(c, u, t2, r, h);
  }

  lemma PastWait(c: Config, u: State, t: State, r: nat, h: nat) returns (go: Move)
    requires Inv(c, u) && r < c.last && Stalled(c, u, r, h)
    requires Shape(c, t) && t.ranks == u.ranks && t.msgs == u.msgs && t.slots[r][Half(h + 2)]
    ensures CanMove(c, t, go) && go.r == r && Next(c, t, go).msgs == u.msgs
    ensures Next(c, t, go).ranks == u.ranks[r := u.ranks[r].(pc := if r == 0 then Filling else Reading)]
  {
    hide RankOk, LinkOk, Half, Awaited;
    WaitsAreAwaited(c, r, u.ranks[r]);
    go := Move(r, if r == 0 then RootClear else ClearSlot);
  }

  lemma CanWrite(c: Config, u: State, t: State, r: nat, h: nat) returns (m: Move)
    requires ValidConfig(c) && Greedy(c.buckets, c.size) && Inv(c, u) && r < c.last && Stalled(c, u, r, h) && h + 2 < |c.buckets|
    requires Shape(c, t) && t.ranks == u.ranks[r := u.ranks[r].(pc := if r == 0 then Filling else Reading)]
    ensures CanMove(c, t, m) && m.r == r && Writes(t.ranks[r], m.a)
  {
    hide RankOk, ValidConfig, Greedy, ValidBucket, Total, MetaOf, LinkOk, InRange, View, Write, Half, CanMove;
    assert RankOk(c, r, u.ranks[r]);
    AtWait(c, r, u.ranks[r]);
    BucketsHaveBytes(c, h + 2);
    BuffersFull(c, r, u.ranks[r], Half(h + 2));
    BucketFits(c, h + 2);
    if r == 0 {
      EntryAt(c, h + 2, 0);
      EntryInRange(c.buckets[h + 2][0], u.ranks[0].bufs[Half(h + 2)], c.size);
      m := RootPuts(c, t);
    } else {
      BuffersFull(c, r - 1, u.ranks[r - 1], u.ranks[r].info.ptr);
      m := RelayCopies(c, t, r);
    }
  }

  lemma AtWait(c: Config, r: nat, x: Rank)
    requires RankOk(c, r, x) && (x.pc == RootWait || x.pc == SlotWait)
    ensures if r == 0 then x.j == 0 else x.k < |c.buckets| && x.copied == {} && x.info == InfoOf(c, x.k)
  {
    hide Holds, HoldsPrefix, Flat, Half, MetaOf, Total;
  }

  lemma RootPuts(c: Config, t: State) returns (m: Move)
    requires Shape(c, t) && t.ranks[0].pc == Filling && t.ranks[0].j == 0
    requires t.ranks[0].k < |c.buckets| && c.buckets[t.ranks[0].k] != []
    requires InRange(c.buckets[t.ranks[0].k][0].meta, t.ranks[0].bufs[Half(t.ranks[0].k)])
    ensures CanMove(c, t, m) && m == Move(0, Put)
  {
    m := Move(0, Put);
  }

  lemma RelayCopies(c: Config, t: State, r: nat) returns (m: Move)
    requires Shape(c, t) && 0 < r <= c.last && t.ranks[r].pc == Reading && t.ranks[r].copied == {} && t.ranks[r].info.len > 0
    requires |t.ranks[r].bufs[Half(t.ranks[r].k)]| > 0 && |t.ranks[r - 1].bufs[t.ranks[r].info.ptr]| > 0
    ensures CanMove(c, t, m) && m == Move(r, Copy(0))
  {
    m := Move(r, Copy(0));
  }

  lemma EntryAt(c: Config, k: nat, i: nat)
    requires ValidConfig(c) && k < |c.buckets| && i < |c.buckets[k]|
    ensures c.buckets[k][i].meta.offset.Some?
    ensures c.buckets[k][i].meta.offset.value + c.buckets[k][i].meta.chunkSize <= c.size
  {
    EntryFits(c.buckets[k], i, c.size);
  }

  lemma EntryInRange(e: Chunk, buf: Buffer, size: nat)
    requires e.meta.offset.Some? && e.meta.offset.value + e.meta.chunkSize <= size == |buf|
    ensures InRange(e.meta, buf)
  {
  }

  lemma StalledUse(c: Config, u: State, t: State, t2: State, r: nat, b: Bit)
    requires Shape(c, u) && Shape(c, t2) && r < c.last && InUse(c, u, r, b) && u.ranks[r].pc != Yielding
    requires t2.msgs == u.msgs && t2.ranks[r + 1] == u.ranks[r + 1]
    ensures InUse(c, t2, r, b)
  {
  }

  /** With the flag for bucket h + 2 up at the start (h is 0 or 1), a run overwrites a half-buffer that the next rank has yet to
      finish reading. */
  lemma Overwrites(c: Config, s: State, r: nat, h: nat) returns (schedule: seq<Move>, t: State, m: Move)
    requires ValidConfig(c) && Greedy(c.buckets, c.size) && Start(c, s) && r < c.last
    requires h <= 1 && h + 2 < |c.buckets| && s.slots[r][Half(h + 2)]
    ensures Reaches(c, s, schedule, t) && Shape(c, t) && CanMove(c, t, m) && m.r == r && Writes(t.ranks[r], m.a)
    ensures t.ranks[r].k == h + 2 == Signalled(t.ranks[r + 1]) + 2 && InUse(c, t, r, Half(h + 2))
  {
    hide Inv, Reaches, CanMove, Next, InUse, Work, ValidConfig, Greedy, Init;
    var clean := Cleaned(c, s);
    StartCovers(c, s, r);
    StartSignals(c, s, r);
    var prefix, u := Stall(c, clean, r, h);
    var t0 := CoverRun(c, s, s, clean, r, prefix, u);
    StallKeeps(c, s, t0, u, r, h);
    var go, write := CanOverwrite(c, u, t0, r, h);
    ReachesMore(c, s, prefix, t0, go);
    schedule, t, m := prefix + [go], Next(c, t0, go), write;
  }

  lemma StartCovers(c: Config, s: State, r: nat)
    requires ValidConfig(c) && Start(c, s) && r < c.last
    ensures Inv(c, Cleaned(c, s)) && Covers(c, s, s, Cleaned(c, s), r)
  {
    InitInv(c, Cleaned(c, s));
  }

  lemma StartSignals(c: Config, s: State, r: nat)
    requires Start(c, s) && r < c.last
    ensures Signalled(Cleaned(c, s).ranks[r + 1]) == 0
  {
  }

  lemma StallKeeps(c: Config, s: State, t: State, u: State, r: nat, h: nat)
    requires Inv(c, u) && Covers(c, s, t, u, r) && Stalled(c, u, r, h) && h <= 1 && s.slots[r][Half(h + 2)]
    ensures Shape(c, t) && t.ranks == u.ranks && t.msgs == u.msgs && t.slots[r][Half(h + 2)]
  {
    hide Inv;
    assert Cleared(u.ranks[r]) == h;
    assert !Passed(h, Half(h + 2));
  }

  // ---------------------------------------------------------------- the sender's last wait

  /** With at most two buckets the sender reaches its last wait by itself. */
  lemma {:induction false} RootFills(c: Config, u: State) returns (schedule: seq<Move>, t: State)
    requires ValidConfig(c) && Inv(c, u) && |c.buckets| <= 2
    requires u.ranks[0].pc == Filling || u.ranks[0].pc == FinalWait
    ensures Reaches(c, u, schedule, t) && Inv(c, t) && t.ranks[0].pc == FinalWait && t.ranks[1] == u.ranks[1]
    decreases Work(c, u)
  {
    hide LinkOk, Work, Enabled, Act, Next, Holds, HoldsPrefix;
    if u.ranks[0].pc == FinalWait {
      schedule, t := [], u;
    } else {
      assert RankOk(c, 0, u.ranks[0]);
      var a := RootEnabled(c, LocalOf(c, u, 0));
      var m := Move(0, a);
      RootOnly(c, u, m);
      StepInv(c, u, m);
      StepWork(c, u, m);
      var rest, last := RootFills(c, Next(c, u, m));
      schedule, t := [m] + rest, last;
      assert schedule[1..] == rest;
    }
  }

  lemma RootOnly(c: Config, u: State, m: Move)
    requires Inv(c, u) && |c.buckets| <= 2 && c.last > 0 && CanMove(c, u, m) && m.r == 0 && u.ranks[0].pc == Filling
    ensures Next(c, u, m).ranks[1] == u.ranks[1]
    ensures Next(c, u, m).ranks[0].pc == Filling || Next(c, u, m).ranks[0].pc == FinalWait
  {
    hide LinkOk, Write, InRange, MetaOf, Total, Half, Holds, HoldsPrefix;
    assert RankOk(c, 0, u.ranks[0]);
    MetaEntries(c.buckets, u.ranks[0].k);
  }

  /** With the flag of the last bucket up at the start, and at most two buckets, the sender ends while rank 1 has not begun. */
  lemma EndsEarly(c: Config, s: State) returns (schedule: seq<Move>, t: State)
    requires ValidConfig(c) && Start(c, s) && |c.buckets| <= 2 && s.slots[0][Half(|c.buckets| - 1)]
    ensures Reaches(c, s, schedule, t) && Shape(c, t) && t.ranks[0].pc == Finished && t.ranks[1].pc == Receiving
  {
    hide LinkOk, Reaches, Next, Work, ValidConfig, Enabled, Holds, HoldsPrefix;
    assert c.last > 0 by { LastPositive(c); }
    var clean := Cleaned(c, s);
    StartCovers(c, s, 0);
    var prefix, u := RootFills(c, clean);
    var t0 := CoverRun(c, s, s, clean, 0, prefix, u);
    FinalKeeps(c, s, t0, u);
    LastStep(c, t0);
    ReachesMore(c, s, prefix, t0, Move(0, FinalClear));
    schedule, t := prefix + [Move(0, FinalClear)], Next(c, t0, Move(0, FinalClear));
  }

  lemma LastPositive(c: Config)
    requires ValidConfig(c)
    ensures c.last > 0 && |c.buckets| > 0
  {
  }

  lemma FinalKeeps(c: Config, s: State, t: State, u: State)
    requires Inv(c, u) && Covers(c, s, t, u, 0) && u.ranks[0].pc == FinalWait && 0 < |c.buckets| <= 2
    requires s.slots[0][Half(|c.buckets| - 1)]
    ensures Shape(c, t) && t.ranks == u.ranks && t.ranks[0].k == |c.buckets| - 1 && t.slots[0][Half(t.ranks[0].k)]
  {
    hide LinkOk, Holds, HoldsPrefix, Half;
    assert RankOk(c, 0, u.ranks[0]);
    assert Cleared(u.ranks[0]) == 0;
    assert !Passed(0, Half(|c.buckets| - 1));
  }

  lemma LastStep(c: Config, t: State)
    requires Shape(c, t) && c.last > 0 && t.ranks[0].pc == FinalWait && t.slots[0][Half(t.ranks[0].k)]
    ensures CanMove(c, t, Move(0, FinalClear))
    ensures Next(c, t, Move(0, FinalClear)).ranks[0].pc == Finished
    ensures Next(c, t, Move(0, FinalClear)).ranks[1] == t.ranks[1]
  {
  }

  // ---------------------------------------------------------------- exactly when a start is sound

  /** Every run from a start is sound exactly when no awaited slot is up at that start. */
  lemma SoundExactly(c: Config, s: State)
    requires ValidConfig(c) && Greedy(c.buckets, c.size) && Start(c, s)
    ensures AllRunsSound(c, s) <==> AwaitedDown(c, s)
  {
    hide Inv, Reaches, CanMove, Next, InUse, ValidConfig, Greedy, Init, Half;
    if AwaitedDown(c, s) {
      DownIsSound(c, s);
    } else {
      var r, i: Bit :| 0 <= r < c.last && Awaited(|c.buckets|, r, i) && s.slots[r][i];
      var n := |c.buckets|;
      AwaitedBit(n, r, i);
      if n >= 3 {
        var schedule, t, m := Overwrites(c, s, r, i);
        assert !Refills(c, t, r);
        assert Writes(t.ranks[m.r], m.a) && m.r <= c.last;
        assert !Sound(c, t);
      } else {
        var schedule, t := EndsEarly(c, s);
        assert !Sound(c, t);
      }
    }
  }

  /** In closed form: with three or more buckets slot 0 is awaited, with four or more also slot 1, by every rank that forwards;
      with fewer, only the sender's last slot. */
  lemma AwaitedBit(n: nat, r: nat, i: Bit)
    requires n > 0
    ensures Awaited(n, r, i) <==> if n >= 3 then i + 2 < n else r == 0 && i == Half(n - 1)
    ensures Half(i + 2) == i
  {
    if i + 2 < n { assert Half(i + 2) == i; }
  }

  // ---------------------------------------------------------------- a second transfer

  /** Transfer `c` starts with the flags up that one of `n` buckets from cleared slots leaves up. */
  ghost predicate Follows(n: nat, c: Config, s: State) {
    Start(c, s) && forall r, i: Bit :: 0 <= r < c.last ==> (s.slots[r][i] <==> LeftUpAfter(n, r, i))
  }

  /** A complete first transfer from cleared slots is followed by starts of just this kind. */
  lemma FirstLeaves(first: Config, s: State, schedule: seq<Move>, t: State, c: Config, next: State)
    requires ValidConfig(first) && Init(first, s) && Reaches(first, s, schedule, t) && Shape(first, t)
    requires (forall m :: !CanMove(first, t, m)) && Start(c, next) && c.last == first.last && next.slots == t.slots
    ensures Follows(|first.buckets|, c, next)
  {
    hide Reaches, CanMove, Work;
    RelayDelivers(first, s, schedule, t);
  }

  /** Whether a transfer of `n` buckets after one of `before` can go wrong: not if the sender's leftover flag is not awaited, and
      no rank in between awaits one of its own. */
  predicate Repeatable(before: nat, n: nat, last: nat)
    requires n > 0
  {
    (before < 2 || (n <= 3 && Half(before) != Half(n - 1))) && (last < 2 || n <= 2)
  }

  /** The exact condition for the second of two transfers, of any numbers of buckets over any number of ranks. */
  lemma SecondExactly(before: nat, c: Config, s: State)
    requires before > 0 && ValidConfig(c) && Greedy(c.buckets, c.size) && Follows(before, c, s)
    ensures AllRunsSound(c, s) <==> Repeatable(before, |c.buckets|, c.last)
  {
    hide AllRunsSound, ValidBucket, Greedy, Init, Awaited, Half;
    var n := |c.buckets|;
    SoundExactly(c, s);
    LastPositive(c);
    forall r: nat, i: Bit ensures Awaited(n, r, i) <==> if n >= 3 then i + 2 < n else r == 0 && i == Half(n - 1) {
      AwaitedBit(n, r, i);
    }
    SmallHalves();
    if !Repeatable(before, n, c.last) {
      var r: nat := if before < 2 || (n <= 3 && Half(before) != Half(n - 1)) then 1 else 0;
      var i: Bit := if r == 1 then 0 else Half(before);
      assert LeftUpAfter(before, r, i) && Awaited(n, r, i) && s.slots[r][i];
    }
  }

  lemma SmallHalves()
    ensures Half(0) == 0 && Half(1) == 1 && Half(2) == 0
  {
  }

  /** Sending the same number of buckets again, which is what training does, is sound exactly for up to two buckets, or three
      with a single rollout rank; and then the flags are left as they were found, so it stays so for every later transfer. */
  lemma RepeatExactly(c: Config, s: State)
    requires ValidConfig(c) && Greedy(c.buckets, c.size) && Follows(|c.buckets|, c, s)
    ensures AllRunsSound(c, s) <==> |c.buckets| <= 2 || (|c.buckets| == 3 && c.last == 1)
    ensures AllRunsSound(c, s) ==> forall schedule, t ::
      Reaches(c, s, schedule, t) && Shape(c, t) && (forall m :: !CanMove(c, t, m)) ==>
        t.slots == s.slots && forall r :: 0 < r <= c.last ==> t.ranks[r].out == Flat(c.buckets)
  {
    hide AllRunsSound, Reaches, CanMove, Greedy, Init, Work, AwaitedDown;
    LastPositive(c);
    SecondExactly(|c.buckets|, c, s);
    SoundExactly(c, s);
    if AllRunsSound(c, s) {
      forall schedule, t | Reaches(c, s, schedule, t) && Shape(c, t) && (forall m :: !CanMove(c, t, m))
        ensures t.slots == s.slots && forall r :: 0 < r <= c.last ==> t.ranks[r].out == Flat(c.buckets)
      {
        DownDelivers(c, s, schedule, t);
        forall r | 0 <= r < c.last ensures t.slots[r] == s.slots[r] {
          assert forall i: Bit :: t.slots[r][i] <==> s.slots[r][i];
          SameSlots(t.slots[r], s.slots[r]);
        }
      }
    }
  }

  lemma SameSlots(a: Slots, b: Slots)
    requires forall i: Bit :: a[i] <==> b[i]
    ensures a == b
  {
    assert a[0] == b[0] && a[1] == b[1];
  }

  /** A whole first transfer of four buckets or more, and after it a run of the same transfer in which the sender writes into a
      half-buffer that rank 1 has yet to finish reading. */
  lemma SecondOverwrites(c: Config) returns (first: seq<Move>, t: State, schedule: seq<Move>, u: State, m: Move)
    requires ValidConfig(c) && Greedy(c.buckets, c.size) && |c.buckets| >= 4
    ensures Reaches(c, Beginning(c), first, t) && Shape(c, t) && forall m :: !CanMove(c, t, m)
    ensures Start(c, Beginning(c).(slots := t.slots)) && Reaches(c, Beginning(c).(slots := t.slots), schedule, u) && Shape(c, u)
    ensures CanMove(c, u, m) && m.r == 0 && Writes(u.ranks[0], m.a) && InUse(c, u, 0, Half(u.ranks[0].k))
    ensures u.ranks[0].k == Signalled(u.ranks[1]) + 2
  {
    hide Reaches, CanMove, Greedy, InUse, Work;
    LastPositive(c);
    first, t := SomeRun(c);
    RelayDelivers(c, Beginning(c), first, t);
    var s := Beginning(c).(slots := t.slots);
    var i := Half(|c.buckets|);
    AwaitedBit(|c.buckets|, 0, i);
    schedule, u, m := Overwrites(c, s, 0, i);
  }

  /** A transfer of one bucket after one of an even number ends on the sender's side before rank 1 has begun. */
  lemma SecondEndsEarly(before: nat, c: Config, s: State) returns (schedule: seq<Move>, t: State)
    requires before >= 2 && before % 2 == 0 && ValidConfig(c) && |c.buckets| == 1 && Follows(before, c, s)
    ensures Reaches(c, s, schedule, t) && Shape(c, t) && t.ranks[0].pc == Finished && t.ranks[1].pc == Receiving
  {
    hide Reaches, Init;
    LastPositive(c);
    SmallHalves();
    schedule, t := EndsEarly(c, s);
  }
}
