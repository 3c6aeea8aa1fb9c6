/** Choosing the checkpoint from which a failed rollout is replayed: src/toolagent/training/b_ndsr.py and jass.py.
    Scores are counted in quarter points. */
module JassSelection {
  import opened Outcomes

  datatype Flags = Flags(jsonError: bool, invalidToolName: bool, toolExecutionError: bool, earlyFinalAnswer: bool,
                         repeatedToolLoop: bool, readCount: int, writeExecuted: bool, distinctReadTools: seq<string>,
                         validToolCalls: int, hasKeyEntity: bool)

  datatype Kind = BeforeWrite | AfterRead | OtherKind(name: string)

  datatype ToolName = GetReservationDetails | GetUserDetails | SearchDirectFlight | SearchOnestopFlight | ListAllAirports
                    | OtherTool(name: string) | NoTool

  datatype Checkpoint = Checkpoint(kind: Kind, turnIdx: int, tool: ToolName, toolError: bool)

  datatype Trace = Trace(flags: Flags, checkpoints: seq<Checkpoint>)

  datatype Candidate = Candidate(id: nat, traceIdx: nat, checkpoint: Checkpoint, score: int)

  // ---------------------------------------------------------------- b_ndsr.py

  predicate Replayable(flags: Flags, c: Checkpoint) {
    && !flags.jsonError && !flags.invalidToolName && !flags.toolExecutionError
    && !flags.earlyFinalAnswer && !flags.repeatedToolLoop
    && flags.readCount > 0
    && (flags.writeExecuted ==> c.kind == BeforeWrite)
  }

  method CheckpointScore(c: Checkpoint, flags: Flags) returns (score: int)
    ensures score == Score(flags, c)
  {
    score := 0;
    score := score + if flags.readCount > 0 then 8 else 0;
    score := score + 4 * |set t | t in flags.distinctReadTools|;
    score := score + 2 * flags.validToolCalls;
    score := score + if flags.hasKeyEntity then 6 else 0;
    score := score + if c.turnIdx >= 2 then 4 else 0;
    if c.kind == BeforeWrite {
      score := score + 16;
    } else if c.kind == AfterRead {
      score := score + 8;
    }
    match c.tool {
      case GetReservationDetails | GetUserDetails => score := score + 4;
      case SearchDirectFlight | SearchOnestopFlight => score := score + 3;
      case ListAllAirports => score := score - 2;
      case _ =>
    }
    if c.toolError { score := score - 12; }
  }

  /** The part of the score that is the same for all checkpoints of a trace. */
  function TraceScore(flags: Flags): int {
    (if flags.readCount > 0 then 8 else 0) + 4 * |set t | t in flags.distinctReadTools|
    + 2 * flags.validToolCalls + (if flags.hasKeyEntity then 6 else 0)
  }

  /** The part that is the checkpoint's own. */
  function OwnScore(c: Checkpoint): int {
    (if c.turnIdx >= 2 then 4 else 0)
    + (if c.kind == BeforeWrite then 16 else if c.kind == AfterRead then 8 else 0)
    + (match c.tool
       case GetReservationDetails | GetUserDetails => 4
       case SearchDirectFlight | SearchOnestopFlight => 3
       case ListAllAirports => -2
       case _ => 0)
    - (if c.toolError then 12 else 0)
  }

  function Score(flags: Flags, c: Checkpoint): int { TraceScore(flags) + OwnScore(c) }

  function OfKind(flags: Flags, cs: seq<Checkpoint>, kind: Kind): (r: seq<Checkpoint>)
    ensures forall c :: c in r <==> c in cs && c.kind == kind && Replayable(flags, c)
  {
    if cs == [] then []
    else if cs[0].kind == kind && Replayable(flags, cs[0]) then [cs[0]] + OfKind(flags, cs[1..], kind)
    else OfKind(flags, cs[1..], kind)
  }

  predicate FirstMax(scores: seq<int>, k: nat) {
    k < |scores| && (forall i :: 0 <= i < |scores| ==> scores[i] <= scores[k])
    && (forall i :: 0 <= i < k ==> scores[i] < scores[k])
  }

  /** max(): the first of the largest. */
  function IndexOfMax(scores: seq<int>): (k: nat)
    requires scores != []
    ensures FirstMax(scores, k)
  {
    if |scores| == 1 then 0 else
      var k := IndexOfMax(scores[1..]);
      assert forall i :: 0 <= i < |scores| - 1 ==> scores[1..][i] == scores[i + 1];
      if scores[0] >= scores[k + 1] then 0 else k + 1
  }

  lemma FirstMaxUnique(scores: seq<int>, j: nat, k: nat)
    requires FirstMax(scores, j) && FirstMax(scores, k)
    ensures j == k
  {
    assert scores[j] == scores[k];
  }

  function Scores(flags: Flags, cs: seq<Checkpoint>): seq<int> {
    seq(|cs|, i requires 0 <= i < |cs| => Score(flags, cs[i]))
  }

  function SelectBestCheckpoint(trace: Option<Trace>): (r: Option<Checkpoint>)
    ensures r.Some? ==> trace.Some?
  {
    match trace
    case None => None
    case Some(t) =>
      var beforeWrite := OfKind(t.flags, t.checkpoints, BeforeWrite);
      var cs := if beforeWrite != [] then beforeWrite else OfKind(t.flags, t.checkpoints, AfterRead);
      if cs == [] then None else Some(cs[IndexOfMax(Scores(t.flags, cs))])
  }

  /** What a selected checkpoint is: replayable, of one of the two kinds, never after a read when the trace has a replayable
      one before a write, and with the largest score of its kind. */
  ghost predicate Admissible(t: Trace, c: Checkpoint) {
    && c in t.checkpoints && Replayable(t.flags, c)
    && (c.kind == BeforeWrite || c.kind == AfterRead)
    && (c.kind == AfterRead ==>
          forall d :: d in t.checkpoints && d.kind == BeforeWrite ==> !Replayable(t.flags, d))
    && (forall d :: d in t.checkpoints && d.kind == c.kind && Replayable(t.flags, d) ==> Score(t.flags, d) <= Score(t.flags, c))
  }

  lemma SelectedIsAdmissible(t: Trace)
    ensures SelectBestCheckpoint(Some(t)).Some? ==> Admissible(t, SelectBestCheckpoint(Some(t)).value)
    ensures SelectBestCheckpoint(Some(t)).None? <==>
              forall c :: c in t.checkpoints && Replayable(t.flags, c) ==> c.kind != BeforeWrite && c.kind != AfterRead
  {
    var beforeWrite := OfKind(t.flags, t.checkpoints, BeforeWrite);
    var afterRead := OfKind(t.flags, t.checkpoints, AfterRead);
    if SelectBestCheckpoint(Some(t)).Some? {
      var cs := if beforeWrite != [] then beforeWrite else afterRead;
      var k := IndexOfMax(Scores(t.flags, cs));
      assert cs[k] in cs;
      forall d | d in t.checkpoints && d.kind == cs[k].kind && Replayable(t.flags, d) ensures Score(t.flags, d) <= Score(t.flags, cs[k]) {
        var i :| 0 <= i < |cs| && cs[i] == d;
        assert Scores(t.flags, cs)[i] <= Scores(t.flags, cs)[k];
      }
      forall d | d in t.checkpoints && d.kind == BeforeWrite && Replayable(t.flags, d) ensures cs[k].kind != AfterRead {
        assert d in beforeWrite;
      }
    } else {
      assert beforeWrite == [] && afterRead == [];
      assert forall c :: c in t.checkpoints && Replayable(t.flags, c) && c.kind == BeforeWrite ==> c in beforeWrite;
      assert forall c :: c in t.checkpoints && Replayable(t.flags, c) && c.kind == AfterRead ==> c in afterRead;
    }
  }

  /** The flags under which nothing of a trace may be replayed. */
  predicate Spoilt(flags: Flags) {
    flags.jsonError || flags.invalidToolName || flags.toolExecutionError || flags.earlyFinalAnswer || flags.repeatedToolLoop
    || flags.readCount <= 0
  }

  predicate HasKind(t: Trace, kind: Kind) { exists i :: 0 <= i < |t.checkpoints| && t.checkpoints[i].kind == kind }

  /** Nothing is selected from a spoilt trace. From any other it is a checkpoint before a write if there is one; failing that, one
      after a read, but only if the trace has not written. */
  lemma SelectedByFlags(t: Trace)
    ensures SelectBestCheckpoint(Some(t)).Some? <==>
              !Spoilt(t.flags) && (HasKind(t, BeforeWrite) || (HasKind(t, AfterRead) && !t.flags.writeExecuted))
    ensures SelectBestCheckpoint(Some(t)).Some? ==>
              SelectBestCheckpoint(Some(t)).value.kind == if HasKind(t, BeforeWrite) then BeforeWrite else AfterRead
  {
    SelectedIsAdmissible(t);
    if HasKind(t, BeforeWrite) {
      var i :| 0 <= i < |t.checkpoints| && t.checkpoints[i].kind == BeforeWrite;
      assert t.checkpoints[i] in t.checkpoints;
    }
    if HasKind(t, AfterRead) {
      var i :| 0 <= i < |t.checkpoints| && t.checkpoints[i].kind == AfterRead;
      assert t.checkpoints[i] in t.checkpoints;
    }
  }

  /** The selected checkpoint is the first of the best of its kind in its trace. */
  lemma SelectedScoresMost(t: Trace, i: nat)
    requires SelectBestCheckpoint(Some(t)).Some? && i < |t.checkpoints|
    requires t.checkpoints[i].kind == SelectBestCheckpoint(Some(t)).value.kind
    ensures Score(t.flags, t.checkpoints[i]) <= Score(t.flags, SelectBestCheckpoint(Some(t)).value)
    ensures Score(t.flags, t.checkpoints[i]) == Score(t.flags, SelectBestCheckpoint(Some(t)).value) ==>
              SelectBestCheckpoint(Some(t)).value in t.checkpoints[..i + 1]
  {
    hide Score, OfKind, SelectBestCheckpoint;
    SelectedIsAdmissible(t);
    SelectedByFlags(t);
    assert t.checkpoints[i] in t.checkpoints && Replayable(t.flags, t.checkpoints[i]);
    if Score(t.flags, t.checkpoints[i]) == Score(t.flags, SelectBestCheckpoint(Some(t)).value) {
      var kind := t.checkpoints[i].kind;
      var k := SelectedFirst(t, kind);
      FirstOfKind(t.flags, t.checkpoints, kind, k, i);
    }
  }

  lemma SelectedFirst(t: Trace, kind: Kind) returns (k: nat)
    requires SelectBestCheckpoint(Some(t)).Some? && SelectBestCheckpoint(Some(t)).value.kind == kind
    ensures k < |OfKind(t.flags, t.checkpoints, kind)|
    ensures SelectBestCheckpoint(Some(t)).value == OfKind(t.flags, t.checkpoints, kind)[k]
    ensures forall j :: 0 <= j < k ==>
              Score(t.flags, OfKind(t.flags, t.checkpoints, kind)[j]) < Score(t.flags, SelectBestCheckpoint(Some(t)).value)
  {
    hide Score, IndexOfMax;
    var beforeWrite, afterRead := OfKind(t.flags, t.checkpoints, BeforeWrite), OfKind(t.flags, t.checkpoints, AfterRead);
    var cs := if beforeWrite != [] then beforeWrite else afterRead;
    k := IndexOfMax(Scores(t.flags, cs));
    assert cs[k] in cs;
    forall j | 0 <= j < k ensures Score(t.flags, cs[j]) < Score(t.flags, cs[k]) {
      assert Scores(t.flags, cs)[j] < Scores(t.flags, cs)[k];
    }
  }

  lemma {:induction false} FirstOfKind(flags: Flags, cs: seq<Checkpoint>, kind: Kind, k: nat, i: nat)
    requires k < |OfKind(flags, cs, kind)| && i < |cs| && cs[i].kind == kind && Replayable(flags, cs[i])
    requires forall j :: 0 <= j < k ==> Score(flags, OfKind(flags, cs, kind)[j]) < Score(flags, cs[i])
    ensures OfKind(flags, cs, kind)[k] in cs[..i + 1]
  {
    hide Score, Replayable;
    var all, rest := OfKind(flags, cs, kind), OfKind(flags, cs[1..], kind);
    if cs[0].kind == kind && Replayable(flags, cs[0]) {
      assert all == [cs[0]] + rest;
      if k == 0 {
        assert cs[0] in cs[..i + 1];
      } else {
        assert Score(flags, all[0]) < Score(flags, cs[i]);
        forall j | 0 <= j < k - 1 ensures Score(flags, rest[j]) < Score(flags, cs[i]) { assert rest[j] == all[j + 1]; }
        FirstOfKind(flags, cs[1..], kind, k - 1, i - 1);
        InLonger(cs, all[k], i);
      }
    } else {
      FirstOfKind(flags, cs[1..], kind, k, i - 1);
      InLonger(cs, all[k], i);
    }
  }

  lemma InLonger(cs: seq<Checkpoint>, c: Checkpoint, i: nat)
    requires i < |cs| && c in cs[1..][..i]
    ensures c in cs[..i + 1]
  {
    var j :| 0 <= j < i && cs[1..][..i][j] == c;
    assert cs[..i + 1][j + 1] == c;
  }

  /** What each feature of a checkpoint is worth, in quarter points. */
  lemma CheckpointWeights(flags: Flags, c: Checkpoint, name: string)
    ensures Score(flags, c)
         == Score(flags, c.(kind := OtherKind(name))) + match c.kind case BeforeWrite => 16 case AfterRead => 8 case _ => 0
    ensures Score(flags, c) == Score(flags, c.(tool := NoTool))
              + match c.tool case GetReservationDetails | GetUserDetails => 4
                             case SearchDirectFlight | SearchOnestopFlight => 3
                             case ListAllAirports => -2
                             case _ => 0
    ensures Score(flags, c) == Score(flags, c.(turnIdx := 0)) + if c.turnIdx >= 2 then 4 else 0
    ensures Score(flags, c) == Score(flags, c.(toolError := false)) - if c.toolError then 12 else 0
  {
    hide TraceScore;
  }

  /** And of a trace; */
  lemma TraceWeights(flags: Flags, c: Checkpoint, read: string)
    ensures Score(flags, c) == Score(flags.(hasKeyEntity := false), c) + if flags.hasKeyEntity then 6 else 0
    ensures Score(flags, c) == Score(flags.(readCount := 0), c) + if flags.readCount > 0 then 8 else 0
    ensures Score(flags, c) == Score(flags.(validToolCalls := 0), c) + 2 * flags.validToolCalls
    ensures Score(flags.(distinctReadTools := [read] + flags.distinctReadTools), c)
         == Score(flags, c) + if read in flags.distinctReadTools then 0 else 4
  {
    hide OwnScore;
    var tools, more := set t | t in flags.distinctReadTools, set t | t in [read] + flags.distinctReadTools;
    assert more == tools + {read};
  }

  /** without any feature the score is 0. */
  lemma NoFeatures(name: string)
    ensures Score(Flags(false, false, false, false, false, 0, false, [], 0, false), Checkpoint(OtherKind(name), 0, NoTool, false)) == 0
  {
    var none: seq<string> := [];
    assert (set t | t in none) == {};
  }

  /** The candidates of the first n traces, in trace order. */
  function Collected(traces: seq<Option<Trace>>, n: nat): (cs: seq<Candidate>)
    requires n <= |traces|
    ensures forall i :: 0 <= i < |cs| ==> cs[i].id == i
  {
    if n == 0 then [] else
      var cs := Collected(traces, n - 1);
      match SelectBestCheckpoint(traces[n - 1])
      case None => cs
      case Some(c) => cs + [Candidate(|cs|, n - 1, c, Score(traces[n - 1].value.flags, c))]
  }

  function ScoresOf(cs: seq<Candidate>): (s: seq<int>)
    ensures |s| == |cs| && forall i :: 0 <= i < |cs| ==> s[i] == cs[i].score
  {
    seq(|cs|, i requires 0 <= i < |cs| => cs[i].score)
  }

  function Pick(c: Candidate): (nat, Checkpoint) { (c.traceIdx, c.checkpoint) }

  function FirstBest(cs: seq<Candidate>): Option<(nat, Checkpoint)> {
    if cs == [] then None else Some(Pick(cs[IndexOfMax(ScoresOf(cs))]))
  }

  /** The linear scan that replaces its choice only by a strictly better one. */
  method SelectBestFailedPrefix(traces: seq<Option<Trace>>) returns (r: Option<(nat, Checkpoint)>)
    ensures r == FirstBest(Collected(traces, |traces|))
  {
    hide Score, SelectBestCheckpoint;
    var best: Option<(int, nat, Checkpoint)> := None;
    ghost var k: nat := 0;
    for idx := 0 to |traces|
      invariant best.None? <==> Collected(traces, idx) == []
      invariant best.Some? ==> FirstMax(ScoresOf(Collected(traces, idx)), k)
      invariant best.Some? ==> best.value.0 == Collected(traces, idx)[k].score
      invariant best.Some? ==> (best.value.1, best.value.2) == Pick(Collected(traces, idx)[k])
    {
      var ckpt := SelectBestCheckpoint(traces[idx]);
      if ckpt.None? { continue; }
      var score := CheckpointScore(ckpt.value, traces[idx].value.flags);
      if best.None? || score > best.value.0 {
        best := Some((score, idx, ckpt.value));
        k := |Collected(traces, idx)|;
      }
    }
    if best.None? { return None; }
    FirstMaxUnique(ScoresOf(Collected(traces, |traces|)), k, IndexOfMax(ScoresOf(Collected(traces, |traces|))));
    return Some((best.value.1, best.value.2));
  }

  // ---------------------------------------------------------------- the stable sort

  /** `x` in front of everything that does not score more. */
  function Insert(x: Candidate, s: seq<Candidate>): seq<Candidate> {
    if s == [] || s[0].score <= x.score then [x] + s else [s[0]] + Insert(x, s[1..])
  }

  /** sort(key=score, reverse=True): a descending permutation (SortHolds, SortDescends) in which candidates of equal score
      keep their order (SortKeepsTies). */
  function SortDescending(s: seq<Candidate>): seq<Candidate> {
    if s == [] then [] else Insert(s[0], SortDescending(s[1..]))
  }

  predicate Descending(s: seq<Candidate>) { forall i, j :: 0 <= i < j < |s| ==> s[i].score >= s[j].score }

  function WithScore(s: seq<Candidate>, score: int): seq<Candidate> {
    if s == [] then [] else (if s[0].score == score then [s[0]] else []) + WithScore(s[1..], score)
  }

  lemma {:induction false} InsertHolds(x: Candidate, s: seq<Candidate>)
    ensures multiset(Insert(x, s)) == multiset(s) + multiset{x} && |Insert(x, s)| == |s| + 1
  {
    if s != [] && s[0].score > x.score {
      InsertHolds(x, s[1..]);
      assert s == [s[0]] + s[1..];
    }
  }

  predicate AtMost(s: seq<Candidate>, top: int) { forall i :: 0 <= i < |s| ==> s[i].score <= top }

  lemma {:induction false} InsertDescends(x: Candidate, s: seq<Candidate>, top: int)
    requires Descending(s) && AtMost(s, top) && x.score <= top
    ensures Descending(Insert(x, s)) && AtMost(Insert(x, s), top)
  {
    if s != [] && s[0].score > x.score {
      InsertDescends(x, s[1..], s[0].score);
    } else if s != [] {
      assert AtMost(s, s[0].score);
    }
  }

  lemma ScoreOfFirst(x: Candidate, s: seq<Candidate>, score: int)
    ensures WithScore([x], score) == if x.score == score then [x] else []
    ensures WithScore([x] + s, score) == WithScore([x], score) + WithScore(s, score)
  {
    assert [x][1..] == [] && ([x] + s)[1..] == s;
  }

  lemma {:induction false} InsertIsStable(x: Candidate, s: seq<Candidate>, score: int)
    ensures WithScore(Insert(x, s), score) == WithScore([x], score) + WithScore(s, score)
  {
    hide WithScore;
    ScoreOfFirst(x, s, score);
    if s != [] && s[0].score > x.score {
      InsertIsStable(x, s[1..], score);
      ScoreOfFirst(s[0], Insert(x, s[1..]), score);
      ScoreOfFirst(s[0], s[1..], score);
      assert s == [s[0]] + s[1..];
    }
  }

  function Top(s: seq<Candidate>): (top: int)
    requires Descending(s)
    ensures AtMost(s, top)
  {
    if s == [] then 0 else s[0].score
  }

  lemma {:induction false} SortHolds(s: seq<Candidate>)
    ensures |SortDescending(s)| == |s| && multiset(SortDescending(s)) == multiset(s)
  {
    if s != [] {
      SortHolds(s[1..]);
      InsertHolds(s[0], SortDescending(s[1..]));
      assert s == [s[0]] + s[1..];
    }
  }

  lemma {:induction false} SortDescends(s: seq<Candidate>)
    ensures Descending(SortDescending(s))
  {
    if s != [] {
      hide Insert, Descending, AtMost;
      var rest := SortDescending(s[1..]);
      SortDescends(s[1..]);
      Loosen(rest, Top(rest), s[0].score);
      InsertDescends(s[0], rest, if Top(rest) > s[0].score then Top(rest) else s[0].score);
    }
  }

  lemma {:induction false} SortKeepsTies(s: seq<Candidate>, score: int)
    ensures WithScore(SortDescending(s), score) == WithScore(s, score)
  {
    if s != [] {
      hide WithScore, Insert;
      SortKeepsTies(s[1..], score);
      InsertIsStable(s[0], SortDescending(s[1..]), score);
      ScoreOfFirst(s[0], s[1..], score);
      assert s == [s[0]] + s[1..];
    }
  }

  lemma Loosen(s: seq<Candidate>, low: int, x: int)
    requires AtMost(s, low)
    ensures AtMost(s, if low > x then low else x)
  {
  }

  /** The head of the sorted list is the first of the best, ties included. */
  lemma {:induction false} HeadOfSort(s: seq<Candidate>)
    requires s != []
    ensures SortDescending(s) != [] && SortDescending(s)[0] == s[IndexOfMax(ScoresOf(s))]
  {
    if |s| == 1 {
      assert s[1..] == [];
    } else {
      HeadOfSort(s[1..]);
      assert ScoresOf(s)[1..] == ScoresOf(s[1..]);
    }
  }

  // ---------------------------------------------------------------- jass.py

  /** xs[:limit] in Python, which counts a negative limit from the end. */
  function SliceTo<T>(xs: seq<T>, limit: int): (ys: seq<T>)
    ensures ys <= xs
    ensures ys == [] <==> xs == [] || limit == 0 || limit <= -|xs|
  {
    if limit >= |xs| then xs
    else if limit >= 0 then xs[..limit]
    else if limit + |xs| <= 0 then []
    else xs[..limit + |xs|]
  }

  function Renumbered(cs: seq<Candidate>): (r: seq<Candidate>)
    ensures |r| == |cs| && forall i :: 0 <= i < |cs| ==> r[i] == cs[i].(id := i)
  {
    seq(|cs|, i requires 0 <= i < |cs| => cs[i].(id := i))
  }

  function Candidates(traces: seq<Option<Trace>>, limit: int): seq<Candidate> {
    Renumbered(SliceTo(SortDescending(Collected(traces, |traces|)), limit))
  }

  method BuildCandidates(traces: seq<Option<Trace>>, limit: int) returns (cs: seq<Candidate>)
    ensures cs == Candidates(traces, limit)
  {
    hide Score, SelectBestCheckpoint, SortDescending;
    cs := [];
    for idx := 0 to |traces|
      invariant cs == Collected(traces, idx)
    {
      var ckpt := SelectBestCheckpoint(traces[idx]);
      if ckpt.None? { continue; }
      var score := CheckpointScore(ckpt.value, traces[idx].value.flags);
      cs := cs + [Candidate(|cs|, idx, ckpt.value, score)];
    }
    cs := SliceTo(SortDescending(cs), limit);
    ghost var kept := cs;
    for id := 0 to |cs|
      invariant |cs| == |kept|
      invariant forall i :: 0 <= i < id ==> cs[i] == kept[i].(id := i)
      invariant forall i :: id <= i < |cs| ==> cs[i] == kept[i]
    {
      cs := cs[id := cs[id].(id := id)];
    }
  }

  datatype Decision = Decision(usedJudge: bool, fallback: bool, selected: nat, count: nat)

  datatype Selection = Selection(pick: (nat, Checkpoint), decision: Decision)

  method HeuristicSelection(traces: seq<Option<Trace>>, limit: int) returns (r: Option<Selection>)
    ensures r.None? <==> Candidates(traces, limit) == []
    ensures r.Some? ==> r.value.pick == Pick(Candidates(traces, limit)[0])
    ensures r.Some? ==> r.value.decision == Decision(false, true, 0, |Candidates(traces, limit)|)
  {
    var cs := BuildCandidates(traces, limit);
    if cs == [] { return None; }
    return Some(Selection(Pick(cs[0]), Decision(false, true, 0, |cs|)));
  }

  // ---------------------------------------------------------------- the judge's reply

  datatype PyError = UrlError | TimedOut | ValueError | KeyError | TypeError | AttributeError | OverflowError | OtherError

  /** The exceptions that select_checkpoint falls back on; a decoding error is a ValueError. */
  predicate Caught(e: PyError) { e.UrlError? || e.TimedOut? || e.ValueError? || e.KeyError? }

  /** A decoded JSON value, as far as int() and float() tell values apart. Texts are integers in decimal, other numbers, or no
      numbers at all; of an object only the two fields that are converted matter. */
  datatype Json = Null | Bool(b: bool) | Int(n: int) | Float(x: real) | Infinite | NotANumber
                | IntText(n: int) | NumberText | OtherText | List
                | Object(selected: Option<Json>, confidence: Option<Json>)

  /** What comes back from the judge: the call raises, the text holds no JSON (a ValueError), or it holds this value. */
  datatype Reply = Raised(e: PyError) | NoJson | Decoded(v: Json)

  function Truncated(x: real): int { if x >= 0.0 then x.Floor else -(-x).Floor }

  /** int(v). */
  function ToInt(v: Json): Result<int, PyError> {
    match v
    case Bool(b) => Ok(if b then 1 else 0)
    case Int(n) => Ok(n)
    case Float(x) => Ok(Truncated(x))
    case IntText(n) => Ok(n)
    case Infinite => Err(OverflowError)
    case NotANumber | NumberText | OtherText => Err(ValueError)
    case Null | List | Object(_, _) => Err(TypeError)
  }

  function Power(n: nat): nat { if n == 0 then 1 else 2 * Power(n - 1) }

  /** From here on an integer rounds to no double. */
  predicate TooLarge(n: int) { n >= Power(1024) - Power(970) || -n >= Power(1024) - Power(970) }

  /** float(v), of which only the exception matters: the number goes into the decision record. */
  function FloatError(v: Json): Option<PyError> {
    match v
    case Bool(_) | Float(_) | Infinite | NotANumber | IntText(_) | NumberText => None
    case Int(n) => if TooLarge(n) then Some(OverflowError) else None
    case OtherText => Some(ValueError)
    case Null | List | Object(_, _) => Some(TypeError)
  }

  /** parsed.get(field, default). */
  function Get(field: Option<Json>, default: Json): Json { if field.Some? then field.value else default }

  /** The try block: the candidate selected, or the first exception. The number is checked before the confidence is read. */
  method Judge(reply: Reply, count: nat) returns (r: Result<nat, PyError>)
    ensures r.Err? && !Caught(r.error) <==> Escapes(reply, count)
    ensures r.Ok? <==> Chooses(reply, count)
    ensures r.Ok? ==> r.value < count && ToInt(Get(reply.v.selected, Int(0))) == Ok(r.value)
  {
    hide TooLarge;
    var v: Json;
    match reply {
      case Raised(e) => return Err(e);
      case NoJson => return Err(ValueError);
      case Decoded(value) => v := value;
    }
    if !v.Object? { return Err(AttributeError); }
    var k := ToInt(Get(v.selected, Int(0)));
    RangeOf(Get(v.selected, Int(0)), count);
    if k.Err? { return Err(k.error); }
    if k.value < 0 || k.value >= count { return Err(ValueError); }
    var confidence := FloatError(Get(v.confidence, Float(0.0)));
    if confidence.Some? { return Err(confidence.value); }
    return Ok(k.value);
  }

  /** null, a list or an object: neither int() nor float() takes it. */
  predicate NoScalar(v: Json) { v.Null? || v.List? || v.Object? }

  predicate InRange(v: Json, count: nat) {
    match v
    case Bool(b) => (if b then 1 else 0) < count
    case Int(n) => 0 <= n < count
    case Float(x) => count > 0 && -1.0 < x < count as real
    case IntText(n) => 0 <= n < count
    case _ => false
  }

  lemma RangeOf(v: Json, count: nat)
    ensures InRange(v, count) <==> ToInt(v).Ok? && 0 <= ToInt(v).value < count
  {
    if v.Float? {
      var f, g := v.x.Floor, (-v.x).Floor;
      assert f as real <= v.x < (f + 1) as real && g as real <= -v.x < (g + 1) as real;
    }
  }

  /** The replies whose exception select_checkpoint does not catch: another exception of the call, a value that is no object, a
      number that is null, a list, an object or infinite, or with a number in range a confidence that is null, a list, an object
      or an integer beyond all doubles. */
  predicate Escapes(reply: Reply, count: nat) {
    match reply
    case Raised(e) => !Caught(e)
    case NoJson => false
    case Decoded(v) =>
      !v.Object? || NoScalar(Get(v.selected, Int(0))) || Get(v.selected, Int(0)).Infinite?
      || (InRange(Get(v.selected, Int(0)), count)
          && (NoScalar(Get(v.confidence, Float(0.0))) || (Get(v.confidence, Float(0.0)).Int? && TooLarge(Get(v.confidence, Float(0.0)).n))))
  }

  /** The replies that choose a candidate: a number in range and a confidence that float() takes. */
  predicate Chooses(reply: Reply, count: nat) {
    reply.Decoded? && reply.v.Object? && InRange(Get(reply.v.selected, Int(0)), count)
    && FloatError(Get(reply.v.confidence, Float(0.0))).None?
  }

  method SelectCheckpoint(traces: seq<Option<Trace>>, limit: int, enabled: bool, reply: Reply)
    returns (r: Result<Option<Selection>, PyError>)
    ensures r.Err? <==> enabled && Candidates(traces, limit) != [] && Escapes(reply, |Candidates(traces, limit)|)
    ensures r.Ok? ==> (r.value.None? <==> Candidates(traces, limit) == [])
    ensures r.Ok? && r.value.Some? ==>
      && r.value.value.decision.selected < |Candidates(traces, limit)| == r.value.value.decision.count
      && r.value.value.pick == Pick(Candidates(traces, limit)[r.value.value.decision.selected])
      && (r.value.value.decision.usedJudge <==> enabled)
      && (r.value.value.decision.fallback <==> !(enabled && Chooses(reply, |Candidates(traces, limit)|)))
      && if r.value.value.decision.fallback then r.value.value.decision.selected == 0
         else ToInt(Get(reply.v.selected, Int(0))) == Ok(r.value.value.decision.selected)
  {
    hide Candidates, Escapes, Chooses;
    var cs := BuildCandidates(traces, limit);
    if cs == [] { return Ok(None); }
    if !enabled {
      var h := HeuristicSelection(traces, limit);
      return Ok(h);
    }
    var judged := Judge(reply, |cs|);
    if judged.Ok? { return Ok(Some(Selection(Pick(cs[judged.value]), Decision(true, false, judged.value, |cs|)))); }
    if !Caught(judged.error) { return Err(judged.error); }
    var fallback := HeuristicSelection(traces, limit);
    if fallback.None? { return Ok(None); }
    return Ok(Some(fallback.value.(decision := fallback.value.decision.(usedJudge := true, fallback := true))));
  }

  /** For instance the reply {"selected_candidate": null}, whatever the candidates; but 99 among four is caught, and then even a
      confidence of null does no harm. */
  lemma NullEscapes(count: nat)
    ensures Escapes(Decoded(Object(Some(Null), None)), count)
    ensures !Escapes(Decoded(Object(Some(Int(99)), Some(Null))), 4)
    ensures Escapes(Decoded(Object(Some(Int(3)), Some(Null))), 4)
  {
  }

  /** An object that names candidate k is a choice of k when k is in range and float() takes the confidence; it escapes when the
      number is in range and the confidence is of the wrong type or too large. No number at all is number 0. */
  lemma NumberedReply(k: int, confidence: Option<Json>, count: nat)
    ensures var reply := Decoded(Object(Some(Int(k)), confidence));
            && (Chooses(reply, count) <==> 0 <= k < count && !Escapes(reply, count) && confidence != Some(OtherText))
            && (Escapes(reply, count) <==>
                  0 <= k < count && match confidence
                                    case Some(Int(n)) => TooLarge(n)
                                    case Some(Null) | Some(List) | Some(Object(_, _)) => true
                                    case _ => false)
    ensures var none, zero := Decoded(Object(None, confidence)), Decoded(Object(Some(Int(0)), confidence));
            (Chooses(none, count) <==> Chooses(zero, count)) && (Escapes(none, count) <==> Escapes(zero, count))
  {
  }

  /** What else names a candidate: a truth value, a whole number as text, and a real number, rounded towards zero. */
  lemma NumberLike(k: int, part: real)
    requires k >= 0 && 0.0 <= part < 1.0
    ensures ToInt(Int(k)) == ToInt(IntText(k)) == ToInt(Float(k as real + part)) == Ok(k)
    ensures ToInt(Int(-k)) == ToInt(IntText(-k)) == ToInt(Float(-(k as real + part))) == Ok(-k)
    ensures ToInt(Bool(false)) == ToInt(Int(0)) && ToInt(Bool(true)) == ToInt(Int(1))
  {
  }

  /** All other replies choose nothing; of them exactly these escape. */
  lemma OtherReply(reply: Reply, count: nat)
    requires reply.Decoded? && reply.v.Object? && reply.v.selected.Some? ==> ToInt(reply.v.selected.value).Err?
    requires reply.Decoded? && reply.v.Object? ==> reply.v.selected.Some?
    ensures !Chooses(reply, count)
    ensures Escapes(reply, count) <==>
              match reply
              case Raised(e) => e == TypeError || e == AttributeError || e == OverflowError || e == OtherError
              case NoJson => false
              case Decoded(Object(selected, _)) =>
                selected != Some(NotANumber) && selected != Some(NumberText) && selected != Some(OtherText)
              case _ => true
  {
  }

  lemma {:induction false} PowerJoins(m: nat, n: nat)
    ensures Power(1) == 2 && Power(m + n) == Power(m) * Power(n)
  {
    if m > 0 { PowerJoins(m - 1, n); }
  }

  /** float() overflows exactly from the middle between the largest double and the next power of two on. */
  lemma OverflowsExactly(n: int)
    ensures TooLarge(n) <==> (if n < 0 then -2 * n else 2 * n) >= (Power(53) - 1) * Power(971) + Power(1024)
  {
    hide Power;
    PowerJoins(53, 971);
    PowerJoins(1, 970);
    assert (Power(53) - 1) * Power(971) == Power(53) * Power(971) - Power(971);
  }

  // ---------------------------------------------------------------- properties

  /** The limits under which truncation leaves something of n candidates. */
  predicate KeepsSome(n: nat, limit: int) { n == 0 || limit >= 1 || (limit < 0 && n + limit > 0) }

  /** Sorting, truncating and taking the head chooses what the strict scan chooses exactly when the limit keeps something. */
  lemma SortHeadIsScan(traces: seq<Option<Trace>>, limit: int)
    ensures (if Candidates(traces, limit) == [] then None else Some(Pick(Candidates(traces, limit)[0])))
            == FirstBest(Collected(traces, |traces|))
       <==> KeepsSome(|Collected(traces, |traces|)|, limit)
  {
    var all := Collected(traces, |traces|);
    SortHolds(all);
    if all != [] { HeadOfSort(all); }
  }

  lemma {:induction false} CollectedFrom(traces: seq<Option<Trace>>, n: nat, i: nat)
    requires n <= |traces| && i < |Collected(traces, n)|
    ensures Collected(traces, n)[i].traceIdx < n
    ensures SelectBestCheckpoint(traces[Collected(traces, n)[i].traceIdx]) == Some(Collected(traces, n)[i].checkpoint)
  {
    hide Score, SelectBestCheckpoint;
    if i < |Collected(traces, n - 1)| { CollectedFrom(traces, n - 1, i); }
  }

  lemma {:induction false} ScoreOfCollected(traces: seq<Option<Trace>>, n: nat, i: nat)
    requires n <= |traces| && i < |Collected(traces, n)|
    ensures var c := Collected(traces, n)[i];
            c.traceIdx < n && traces[c.traceIdx].Some? && c.score == Score(traces[c.traceIdx].value.flags, c.checkpoint)
    ensures forall j :: 0 <= j < i ==> Collected(traces, n)[j].traceIdx < Collected(traces, n)[i].traceIdx
  {
    hide Score, SelectBestCheckpoint;
    if i < |Collected(traces, n - 1)| {
      ScoreOfCollected(traces, n - 1, i);
    } else {
      forall j | 0 <= j < i ensures Collected(traces, n)[j].traceIdx < n - 1 { CollectedFrom(traces, n - 1, j); }
    }
  }

  lemma {:induction false} CollectsAll(traces: seq<Option<Trace>>, n: nat, t: nat) returns (i: nat)
    requires t < n <= |traces| && SelectBestCheckpoint(traces[t]).Some?
    ensures i < |Collected(traces, n)| && Collected(traces, n)[i].traceIdx == t
    ensures SelectBestCheckpoint(traces[t]) == Some(Collected(traces, n)[i].checkpoint)
  {
    hide Score, SelectBestCheckpoint;
    if t < n - 1 { i := CollectsAll(traces, n - 1, t); } else { i := |Collected(traces, n - 1)|; }
  }

  /** What the linear scan returns, said of the traces: nothing exactly when nothing can be selected from any of them, and else the
      selection of the first trace among those whose selection scores most. */
  ghost predicate FirstOfBest(traces: seq<Option<Trace>>, r: Option<(nat, Checkpoint)>) {
    match r
    case None => forall u :: 0 <= u < |traces| ==> SelectBestCheckpoint(traces[u]).None?
    case Some((t, c)) =>
      && t < |traces| && SelectBestCheckpoint(traces[t]) == Some(c)
      && (forall u :: 0 <= u < |traces| && SelectBestCheckpoint(traces[u]).Some? ==>
            SelectedScore(traces[u]) <= SelectedScore(traces[t]) && (u < t ==> SelectedScore(traces[u]) < SelectedScore(traces[t])))
  }

  function SelectedScore(trace: Option<Trace>): int
    requires SelectBestCheckpoint(trace).Some?
  {
    Score(trace.value.flags, SelectBestCheckpoint(trace).value)
  }

  lemma ScanExactly(traces: seq<Option<Trace>>)
    ensures FirstOfBest(traces, FirstBest(Collected(traces, |traces|)))
  {
    hide Score, SelectBestCheckpoint, SelectedScore, Collected, IndexOfMax;
    var n, cs := |traces|, Collected(traces, |traces|);
    if cs == [] {
      forall u: nat | u < n ensures SelectBestCheckpoint(traces[u]).None? {
        if SelectBestCheckpoint(traces[u]).Some? { var _ := CollectsAll(traces, n, u); }
      }
    } else {
      var k := IndexOfMax(ScoresOf(cs));
      CollectedFrom(traces, n, k);
      var t := cs[k].traceIdx;
      forall u: nat | u < n && SelectBestCheckpoint(traces[u]).Some?
        ensures SelectedScore(traces[u]) <= SelectedScore(traces[t]) && (u < t ==> SelectedScore(traces[u]) < SelectedScore(traces[t]))
      {
        BeatenByFirst(traces, k, u);
      }
    }
  }

  lemma BeatenByFirst(traces: seq<Option<Trace>>, k: nat, u: nat)
    requires u < |traces| && SelectBestCheckpoint(traces[u]).Some? && FirstMax(ScoresOf(Collected(traces, |traces|)), k)
    ensures var t := Collected(traces, |traces|)[k].traceIdx;
            && t < |traces| && SelectBestCheckpoint(traces[t]).Some?
            && SelectedScore(traces[u]) <= SelectedScore(traces[t]) && (u < t ==> SelectedScore(traces[u]) < SelectedScore(traces[t]))
  {
    hide Score, SelectBestCheckpoint, Collected;
    var cs := Collected(traces, |traces|);
    CollectedFrom(traces, |traces|, k);
    ScoreOfCollected(traces, |traces|, k);
    var i := CollectsAll(traces, |traces|, u);
    ScoreOfCollected(traces, |traces|, i);
    assert ScoresOf(cs)[i] <= ScoresOf(cs)[k] && (i < k ==> ScoresOf(cs)[i] < ScoresOf(cs)[k]);
  }

  /** A limit that no trace exceeds keeps one candidate of every trace from which something can be selected. */
  lemma CandidateOfEach(traces: seq<Option<Trace>>, limit: int, t: nat) returns (k: nat)
    requires t < |traces| <= limit && SelectBestCheckpoint(traces[t]).Some?
    ensures k < |Candidates(traces, limit)| && Candidates(traces, limit)[k].traceIdx == t
    ensures forall j :: 0 <= j < |Candidates(traces, limit)| && Candidates(traces, limit)[j].traceIdx == t ==> j == k
  {
    hide Score, SelectBestCheckpoint, Collected, SortDescending;
    var all := Collected(traces, |traces|);
    var sorted := SortDescending(all);
    var i := CollectsAll(traces, |traces|, t);
    SortHolds(all);
    CollectedFew(traces, |traces|);
    assert all[i] in multiset(sorted);
    k :| 0 <= k < |sorted| && sorted[k] == all[i];
    forall j | 0 <= j < |sorted| && sorted[j].traceIdx == t ensures j == k {
      if j != k { OneOfEach(traces, sorted, j, k); }
    }
  }

  lemma OneOfEach(traces: seq<Option<Trace>>, sorted: seq<Candidate>, j: nat, k: nat)
    requires multiset(sorted) == multiset(Collected(traces, |traces|))
    requires j < |sorted| && k < |sorted| && j != k
    ensures sorted[j].traceIdx != sorted[k].traceIdx
  {
    hide Collected;
    var all := Collected(traces, |traces|);
    assert sorted[j] in multiset(sorted) && sorted[k] in multiset(sorted);
    var a :| 0 <= a < |all| && all[a] == sorted[j];
    var b :| 0 <= b < |all| && all[b] == sorted[k];
    ScoreOfCollected(traces, |traces|, a);
    ScoreOfCollected(traces, |traces|, b);
    if a == b {
      Twice(sorted, if j < k then j else k, if j < k then k else j);
      forall i | 0 <= i < |all| && i != a ensures all[i] != all[a] { assert all[i].id == i; }
      Once(all, a);
    }
  }

  lemma Twice(s: seq<Candidate>, j: nat, k: nat)
    requires j < k < |s| && s[j] == s[k]
    ensures multiset(s)[s[j]] >= 2
  {
    assert s == s[..j] + [s[j]] + s[j + 1..k] + [s[k]] + s[k + 1..];
  }

  lemma Once(s: seq<Candidate>, i: nat)
    requires i < |s| && forall j :: 0 <= j < |s| && j != i ==> s[j] != s[i]
    ensures multiset(s)[s[i]] == 1
  {
    assert s == s[..i] + [s[i]] + s[i + 1..];
    assert s[i] !in s[..i] && s[i] !in s[i + 1..];
  }

  lemma {:induction false} CollectedFew(traces: seq<Option<Trace>>, n: nat)
    requires n <= |traces|
    ensures |Collected(traces, n)| <= n
  {
    hide Score, SelectBestCheckpoint;
    if n > 0 { CollectedFew(traces, n - 1); }
  }

  /** Whatever the judge answers, a candidate is the best checkpoint of its own trace, and an admissible one. */
  lemma CandidatesAdmissible(traces: seq<Option<Trace>>, limit: int, k: nat)
    requires k < |Candidates(traces, limit)|
    ensures Candidates(traces, limit)[k].id == k && Candidates(traces, limit)[k].traceIdx < |traces|
    ensures traces[Candidates(traces, limit)[k].traceIdx].Some?
    ensures Admissible(traces[Candidates(traces, limit)[k].traceIdx].value, Candidates(traces, limit)[k].checkpoint)
  {
    var all := Collected(traces, |traces|);
    var c := SliceTo(SortDescending(all), limit)[k];
    SortHolds(all);
    assert c in multiset(SortDescending(all));
    assert c in all;
    var i :| 0 <= i < |all| && all[i] == c;
    CollectedFrom(traces, |traces|, i);
    SelectedIsAdmissible(traces[c.traceIdx].value);
  }

  /** So no candidate comes from a spoilt trace, none after a read from a trace that has written, and none after a read from one that
      has a checkpoint before a write. */
  lemma CandidatesByFlags(traces: seq<Option<Trace>>, limit: int, k: nat)
    requires k < |Candidates(traces, limit)|
    ensures Candidates(traces, limit)[k].traceIdx < |traces| && traces[Candidates(traces, limit)[k].traceIdx].Some?
    ensures var t, c := traces[Candidates(traces, limit)[k].traceIdx].value, Candidates(traces, limit)[k].checkpoint;
            && !Spoilt(t.flags)
            && c.kind == (if HasKind(t, BeforeWrite) then BeforeWrite else AfterRead)
            && (t.flags.writeExecuted ==> c.kind == BeforeWrite)
  {
    hide Candidates, SelectBestCheckpoint, Admissible, Spoilt, HasKind;
    CandidatesAdmissible(traces, limit, k);
    var t := traces[Candidates(traces, limit)[k].traceIdx].value;
    FromItsTrace(traces, limit, k);
    SelectedByFlags(t);
  }

  lemma FromItsTrace(traces: seq<Option<Trace>>, limit: int, k: nat)
    requires k < |Candidates(traces, limit)| && Candidates(traces, limit)[k].traceIdx < |traces|
    ensures SelectBestCheckpoint(traces[Candidates(traces, limit)[k].traceIdx]) == Some(Candidates(traces, limit)[k].checkpoint)
  {
    var all := Collected(traces, |traces|);
    var c := SliceTo(SortDescending(all), limit)[k];
    SortHolds(all);
    assert c in multiset(SortDescending(all));
    assert c in all;
    var i :| 0 <= i < |all| && all[i] == c;
    CollectedFrom(traces, |traces|, i);
  }

  /** What truncation drops never scores more than what it keeps. */
  lemma DropsTheWorst(traces: seq<Option<Trace>>, limit: int, k: nat, j: nat)
    requires k < |Candidates(traces, limit)| <= j < |SortDescending(Collected(traces, |traces|))|
    ensures Candidates(traces, limit)[k].score >= SortDescending(Collected(traces, |traces|))[j].score
  {
    SortDescends(Collected(traces, |traces|));
  }
}
