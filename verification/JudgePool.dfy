/** Judging the failed trajectories of a batch at once (src/toolagent/training/llm_judge.py, densify_rewards, pass 2): the
    workers of a thread pool take the trajectories in turn and score their steps over one shared cache. Looking a key up,
    reading its entry, asking the judge and storing the answer are separate steps, between which other workers go on. */
module JudgePool {
  import opened Outcomes
  import opened Sequences
  import opened JudgeReward

  datatype Job = Job(task: string, steps: seq<Step>)

  datatype Config = Config(jobs: seq<Job>, maxChars: nat, maxWorkers: int)

  /** max(1, min(max_workers, len(to_judge))). */
  function Workers(c: Config): nat {
    var n := if c.maxWorkers < |c.jobs| then c.maxWorkers else |c.jobs|;
    if n < 1 then 1 else n
  }

  /** A trajectory is waiting for a worker, or its worker is about to look the next key up, to read its entry, to ask the judge, or
      to store an answer; it is done; or a call has raised an exception that score_steps does not catch. */
  datatype Phase = Queued | Look | Read | Ask | Store(value: real) | Done | Failed

  datatype Work = Work(phase: Phase, scores: seq<real>)

  datatype State = State(works: seq<Work>, cache: Cache)

  predicate Busy(w: Work) { !w.phase.Queued? && !w.phase.Done? && !w.phase.Failed? }

  function BusyOnes(works: seq<Work>): set<nat> { set j: nat | j < |works| && Busy(works[j]) }

  function KeyAt(c: Config, j: nat, i: nat): CacheKey
    requires j < |c.jobs| && i < |c.jobs[j].steps|
  {
    KeyOf(c.jobs[j].task, c.jobs[j].steps[i], c.maxChars)
  }

  function Start(c: Config, cache: Cache): State { State(Copies(Work(Queued, []), |c.jobs|), cache) }

  // ---------------------------------------------------------------- steps

  /** The judge's answer is the mean of the samples, or an exception that is not caught. */
  datatype Action = Take | Find | Fetch | Answer(value: Option<real>) | Keep | Finish

  datatype Move = Move(j: nat, a: Action)

  predicate CanMove(c: Config, s: State, m: Move) {
    && m.j < |s.works| == |c.jobs|
    && var w, n := s.works[m.j], |c.jobs[m.j].steps|;
       match m.a
       case Take => w.phase.Queued? && (forall i :: 0 <= i < m.j ==> !s.works[i].phase.Queued?) && |BusyOnes(s.works)| < Workers(c)
       case Find => w.phase.Look? && |w.scores| < n
       case Fetch => w.phase.Read? && |w.scores| < n && KeyAt(c, m.j, |w.scores|) in s.cache
       case Answer(x) => w.phase.Ask? && |w.scores| < n && (x.Some? ==> InUnit(x.value))
       case Keep => w.phase.Store? && |w.scores| < n
       case Finish => w.phase.Look? && |w.scores| == n
  }

  function Next(c: Config, s: State, m: Move): (t: State)
    requires CanMove(c, s, m)
    ensures |t.works| == |s.works|
  {
    var w := s.works[m.j];
    match m.a
    case Take => s.(works := s.works[m.j := w.(phase := Look)])
    case Find => s.(works := s.works[m.j := w.(phase := if KeyAt(c, m.j, |w.scores|) in s.cache then Read else Ask)])
    case Fetch => s.(works := s.works[m.j := Work(Look, w.scores + [s.cache[KeyAt(c, m.j, |w.scores|)]])])
    case Answer(x) => s.(works := s.works[m.j := w.(phase := if x.Some? then Store(x.value) else Failed)])
    case Keep =>
      State(s.works[m.j := Work(Look, w.scores + [w.phase.value])], s.cache[KeyAt(c, m.j, |w.scores|) := w.phase.value])
    case Finish => s.(works := s.works[m.j := w.(phase := Done)])
  }

  ghost predicate Reaches(c: Config, s: State, schedule: seq<Move>, t: State)
    decreases |schedule|
  {
    if schedule == [] then s == t
    else CanMove(c, s, schedule[0]) && Reaches(c, Next(c, s, schedule[0]), schedule[1..], t)
  }

  lemma {:induction false} ReachesMore(c: Config, s: State, schedule: seq<Move>, t: State, m: Move)
    requires Reaches(c, s, schedule, t) && CanMove(c, t, m)
    ensures Reaches(c, s, schedule + [m], Next(c, t, m))
    decreases |schedule|
  {
    hide CanMove, Next;
    if schedule == [] {
      assert [m][1..] == [] && schedule + [m] == [m];
    } else {
      assert (schedule + [m])[1..] == schedule[1..] + [m];
      ReachesMore(c, Next(c, s, schedule[0]), schedule[1..], t, m);
    }
  }

  lemma {:induction false} ReachesThen(c: Config, s: State, first: seq<Move>, t: State, more: seq<Move>, u: State)
    requires Reaches(c, s, first, t) && Reaches(c, t, more, u)
    ensures Reaches(c, s, first + more, u)
    decreases |first|
  {
    hide CanMove, Next;
    if first == [] {
      assert first + more == more;
    } else {
      assert (first + more)[1..] == first[1..] + more;
      ReachesThen(c, Next(c, s, first[0]), first[1..], t, more, u);
    }
  }

  // ---------------------------------------------------------------- what every schedule keeps

  ghost predicate WorkOk(c: Config, j: nat, w: Work, cache: Cache)
    requires j < |c.jobs|
  {
    && |w.scores| <= |c.jobs[j].steps| && AllInUnit(w.scores)
    && (w.phase.Queued? ==> w.scores == [])
    && (w.phase.Read? || w.phase.Ask? || w.phase.Store? || w.phase.Failed? ==> |w.scores| < |c.jobs[j].steps|)
    && (w.phase.Read? ==> KeyAt(c, j, |w.scores|) in cache)
    && (w.phase.Store? ==> InUnit(w.phase.value))
    && (w.phase.Done? ==> |w.scores| == |c.jobs[j].steps|)
  }

  ghost predicate Inv(c: Config, s: State) {
    && |s.works| == |c.jobs| && CacheInUnit(s.cache) && |BusyOnes(s.works)| <= Workers(c)
    && forall j :: 0 <= j < |c.jobs| ==> WorkOk(c, j, s.works[j], s.cache)
  }

  lemma BusyNext(works: seq<Work>, j: nat, w: Work)
    requires j < |works|
    ensures BusyOnes(works[j := w]) == if Busy(w) then BusyOnes(works) + {j} else BusyOnes(works) - {j}
    ensures |BusyOnes(works[j := w])| <= |BusyOnes(works)| + if Busy(w) && !Busy(works[j]) then 1 else 0
  {
    if Busy(w) && Busy(works[j]) { assert BusyOnes(works) + {j} == BusyOnes(works); }
    SubsetSize(BusyOnes(works) - {j}, BusyOnes(works));
  }

  lemma StartInv(c: Config, cache: Cache)
    requires CacheInUnit(cache)
    ensures Inv(c, Start(c, cache)) && BusyOnes(Start(c, cache).works) == {}
  {
  }

  lemma StepInv(c: Config, s: State, m: Move)
    requires Inv(c, s) && CanMove(c, s, m)
    ensures Inv(c, Next(c, s, m))
  {
    hide KeyAt, Workers, BusyOnes, WorkOk;
    var t := Next(c, s, m);
    assert WorkOk(c, m.j, s.works[m.j], s.cache);
    MovedOk(c, s, m);
    BusyNext(s.works, m.j, t.works[m.j]);
    forall j | 0 <= j < |c.jobs| && j != m.j ensures WorkOk(c, j, t.works[j], t.cache) {
      assert WorkOk(c, j, s.works[j], s.cache);
      LargerCache(c, j, s.works[j], s.cache, t.cache);
    }
  }

  lemma MovedOk(c: Config, s: State, m: Move)
    requires CanMove(c, s, m) && WorkOk(c, m.j, s.works[m.j], s.cache) && CacheInUnit(s.cache)
    ensures WorkOk(c, m.j, Next(c, s, m).works[m.j], Next(c, s, m).cache)
    ensures CacheInUnit(Next(c, s, m).cache) && s.cache.Keys <= Next(c, s, m).cache.Keys
    ensures forall j :: 0 <= j < |c.jobs| && j != m.j ==> Next(c, s, m).works[j] == s.works[j]
    ensures Busy(Next(c, s, m).works[m.j]) ==> m.a.Take? || Busy(s.works[m.j])
  {
    hide KeyAt, Workers, BusyOnes;
  }

  lemma LargerCache(c: Config, j: nat, w: Work, cache: Cache, more: Cache)
    requires j < |c.jobs| && WorkOk(c, j, w, cache) && cache.Keys <= more.Keys
    ensures WorkOk(c, j, w, more)
  {
    hide KeyAt;
  }

  lemma {:induction false} RunInv(c: Config, s: State, schedule: seq<Move>, t: State)
    requires Inv(c, s) && Reaches(c, s, schedule, t)
    ensures Inv(c, t)
    decreases |schedule|
  {
    hide Inv, CanMove, Next;
    if schedule != [] {
      StepInv(c, s, schedule[0]);
      RunInv(c, Next(c, s, schedule[0]), schedule[1..], t);
    }
  }

  /** In every schedule, whatever the judge answers: all scores lie in [0, 1], no more workers are busy than there are, and a
      trajectory that is done has one score for each of its steps. */
  lemma PoolSafety(c: Config, cache: Cache, schedule: seq<Move>, t: State)
    requires CacheInUnit(cache) && Reaches(c, Start(c, cache), schedule, t)
    ensures |t.works| == |c.jobs| && |BusyOnes(t.works)| <= Workers(c) && CacheInUnit(t.cache)
    ensures forall j :: 0 <= j < |c.jobs| ==> AllInUnit(t.works[j].scores)
    ensures forall j :: 0 <= j < |c.jobs| && t.works[j].phase == Done ==> |t.works[j].scores| == |c.jobs[j].steps|
  {
    hide Reaches, Start;
    StartInv(c, cache);
    RunInv(c, Start(c, cache), schedule, t);
    forall j | 0 <= j < |c.jobs| ensures WorkOk(c, j, t.works[j], t.cache) {}
  }

  /** So in every schedule a judged failure gets alpha times the mean of its scores as they are, and no more than alpha. */
  lemma PoolAnchored(c: Config, cache: Cache, schedule: seq<Move>, t: State, j: nat, outcome: real, alpha: real)
    requires CacheInUnit(cache) && Reaches(c, Start(c, cache), schedule, t)
    requires j < |c.jobs| && outcome < 1.0 && 0.0 <= alpha < 1.0
    ensures |t.works| == |c.jobs|
    ensures t.works[j].phase == Done && c.jobs[j].steps != [] ==>
              && t.works[j].scores != []
              && BlendReward(outcome, t.works[j].scores, alpha) == alpha * Mean(t.works[j].scores)
              && 0.0 <= alpha * Mean(t.works[j].scores) <= alpha
  {
    hide Reaches, Start, Mean;
    PoolSafety(c, cache, schedule, t);
    var scores := t.works[j].scores;
    assert Clamped(scores) == scores;
    BlendAnchored(outcome, scores, alpha);
  }

  // ---------------------------------------------------------------- when equal keys get equal scores

  /** Steps of equal keys that have a score have the same one. */
  ghost predicate EqualKeys(c: Config, t: State) {
    forall j: nat, i: nat, j2: nat, i2: nat :: HasScore(c, t, j, i) && HasScore(c, t, j2, i2) && KeyAt(c, j, i) == KeyAt(c, j2, i2) ==>
                                                 t.works[j].scores[i] == t.works[j2].scores[i2]
  }

  predicate HasScore(c: Config, t: State, j: nat, i: nat) {
    j < |t.works| && j < |c.jobs| && i < |t.works[j].scores| && i < |c.jobs[j].steps|
  }

  predicate HasKey(c: Config, j: nat, key: CacheKey)
    requires j < |c.jobs|
  {
    exists i :: 0 <= i < |c.jobs[j].steps| && KeyAt(c, j, i) == key
  }

  /** One worker, or no key outside the starting cache in two trajectories. */
  ghost predicate Apart(c: Config, cache: Cache) {
    c.maxWorkers <= 1 || forall j, j2, key :: 0 <= j < j2 < |c.jobs| && HasKey(c, j, key) && HasKey(c, j2, key) ==> key in cache
  }

  lemma SeveralWorkers(c: Config)
    ensures Workers(c) >= 1 && (Workers(c) > 1 <==> c.maxWorkers > 1 && |c.jobs| > 1)
  {
  }

  /** Every score is its key's entry, and a key about to be stored has none. */
  ghost predicate Entered(c: Config, j: nat, w: Work, cache: Cache)
    requires j < |c.jobs|
  {
    && (forall i :: 0 <= i < |w.scores| && i < |c.jobs[j].steps| ==> ScoredAt(KeyAt(c, j, i), w.scores[i], cache))
    && ((w.phase.Ask? || w.phase.Store?) && |w.scores| < |c.jobs[j].steps| ==> KeyAt(c, j, |w.scores|) !in cache)
  }

  ghost predicate Tidy(c: Config, start: Cache, s: State) {
    && Inv(c, s) && Extends(start, s.cache)
    && forall j :: 0 <= j < |c.jobs| ==> Entered(c, j, s.works[j], s.cache)
  }

  /** Two workers that are asking or storing are at different keys. */
  lemma OtherKey(c: Config, start: Cache, s: State, j: nat, j2: nat)
    requires Tidy(c, start, s) && Apart(c, start) && j < |c.jobs| && j2 < |c.jobs| && j != j2
    requires s.works[j].phase.Store? && (s.works[j2].phase.Ask? || s.works[j2].phase.Store?)
    ensures |s.works[j].scores| < |c.jobs[j].steps| && |s.works[j2].scores| < |c.jobs[j2].steps|
    ensures KeyAt(c, j, |s.works[j].scores|) != KeyAt(c, j2, |s.works[j2].scores|)
  {
    hide KeyAt;
    assert WorkOk(c, j, s.works[j], s.cache) && WorkOk(c, j2, s.works[j2], s.cache);
    assert Entered(c, j, s.works[j], s.cache);
    if c.maxWorkers <= 1 {
      SeveralWorkers(c);
      SubsetSize({j, j2}, BusyOnes(s.works));
      assert false;
    } else {
      CommonKey(c, start, j, |s.works[j].scores|, j2, |s.works[j2].scores|);
    }
  }

  lemma CommonKey(c: Config, start: Cache, j: nat, i: nat, j2: nat, i2: nat)
    requires Apart(c, start) && c.maxWorkers > 1 && j != j2
    requires j < |c.jobs| && j2 < |c.jobs| && i < |c.jobs[j].steps| && i2 < |c.jobs[j2].steps|
    ensures KeyAt(c, j, i) == KeyAt(c, j2, i2) ==> KeyAt(c, j, i) in start
  {
    hide KeyAt, Workers;
    if KeyAt(c, j, i) == KeyAt(c, j2, i2) {
      var key := KeyAt(c, j, i);
      assert HasKey(c, j, key) && HasKey(c, j2, key);
    }
  }

  lemma StepTidy(c: Config, start: Cache, s: State, m: Move)
    requires Tidy(c, start, s) && Apart(c, start) && CanMove(c, s, m)
    ensures Tidy(c, start, Next(c, s, m))
  {
    hide KeyAt, Workers, Apart;
    StepInv(c, s, m);
    var t := Next(c, s, m);
    assert WorkOk(c, m.j, s.works[m.j], s.cache) && Entered(c, m.j, s.works[m.j], s.cache);
    forall j | 0 <= j < |c.jobs| ensures Entered(c, j, t.works[j], t.cache) {
      assert Entered(c, j, s.works[j], s.cache) && WorkOk(c, j, s.works[j], s.cache);
      if m.a.Keep? && j != m.j && (s.works[j].phase.Ask? || s.works[j].phase.Store?) { OtherKey(c, start, s, m.j, j); }
    }
  }

  lemma {:induction false} RunTidy(c: Config, start: Cache, s: State, schedule: seq<Move>, t: State)
    requires Tidy(c, start, s) && Apart(c, start) && Reaches(c, s, schedule, t)
    ensures Tidy(c, start, t)
    decreases |schedule|
  {
    hide Tidy, Apart, CanMove, Next;
    if schedule != [] {
      StepTidy(c, start, s, schedule[0]);
      RunTidy(c, start, Next(c, s, schedule[0]), schedule[1..], t);
    }
  }

  lemma TidyEqual(c: Config, start: Cache, t: State)
    requires Tidy(c, start, t)
    ensures EqualKeys(c, t)
  {
    hide KeyAt;
    forall j: nat, i: nat, j2: nat, i2: nat |
      HasScore(c, t, j, i) && HasScore(c, t, j2, i2) && KeyAt(c, j, i) == KeyAt(c, j2, i2)
      ensures t.works[j].scores[i] == t.works[j2].scores[i2]
    {
      assert Entered(c, j, t.works[j], t.cache) && Entered(c, j2, t.works[j2], t.cache);
      assert ScoredAt(KeyAt(c, j, i), t.works[j].scores[i], t.cache);
      assert ScoredAt(KeyAt(c, j2, i2), t.works[j2].scores[i2], t.cache);
    }
  }

  // ---------------------------------------------------------------- otherwise, a schedule that tells them apart

  /** A worker gets the next score, answers being 0. */
  lemma OneScore(c: Config, s: State, j: nat) returns (schedule: seq<Move>, t: State, x: real)
    requires j < |s.works| == |c.jobs| && s.works[j].phase == Look && |s.works[j].scores| < |c.jobs[j].steps|
    ensures Reaches(c, s, schedule, t)
    ensures t.works == s.works[j := Work(Look, s.works[j].scores + [x])]
    ensures forall key :: key in t.cache ==> key in s.cache || key == KeyAt(c, j, |s.works[j].scores|)
  {
    hide KeyAt, Workers, BusyOnes;
    var find := Move(j, Find);
    var s1 := Next(c, s, find);
    RunOne(c, s, find);
    if KeyAt(c, j, |s.works[j].scores|) in s.cache {
      var fetch := Move(j, Fetch);
      t := Next(c, s1, fetch);
      ReachesMore(c, s, [find], s1, fetch);
      schedule, x := [find] + [fetch], s.cache[KeyAt(c, j, |s.works[j].scores|)];
    } else {
      var answer, keep := Move(j, Answer(Some(0.0))), Move(j, Keep);
      var s2 := Next(c, s1, answer);
      t := Next(c, s2, keep);
      ReachesMore(c, s, [find], s1, answer);
      ReachesMore(c, s, [find] + [answer], s2, keep);
      schedule, x := [find] + [answer] + [keep], 0.0;
    }
  }

  lemma RunOne(c: Config, s: State, m: Move)
    requires CanMove(c, s, m)
    ensures Reaches(c, s, [m], Next(c, s, m))
  {
    hide CanMove, Next;
    ReachesMore(c, s, [], s, m);
    assert [] + [m] == [m];
  }

  /** A worker goes on to step i. The key stays unknown if none of the steps has it. */
  lemma {:induction false} RunJob(c: Config, s: State, j: nat, i: nat, key: CacheKey) returns (schedule: seq<Move>, t: State)
    requires j < |s.works| == |c.jobs| && s.works[j].phase == Look && |s.works[j].scores| <= i <= |c.jobs[j].steps|
    requires key !in s.cache && forall k :: |s.works[j].scores| <= k < i ==> KeyAt(c, j, k) != key
    ensures Reaches(c, s, schedule, t) && key !in t.cache && |t.works| == |s.works|
    ensures t.works[j].phase == Look && |t.works[j].scores| == i
    ensures forall k :: 0 <= k < |s.works| && k != j ==> t.works[k] == s.works[k]
    decreases i - |s.works[j].scores|
  {
    hide KeyAt, CanMove, Next;
    if |s.works[j].scores| == i {
      schedule, t := [], s;
    } else {
      var first, s1, _ := OneScore(c, s, j);
      var rest, last := RunJob(c, s1, j, i, key);
      ReachesThen(c, s, first, s1, rest, last);
      schedule, t := first + rest, last;
    }
  }

  /** A free worker takes the next trajectory. */
  lemma TakeNext(c: Config, s: State, j: nat) returns (t: State)
    requires j < |s.works| == |c.jobs| && s.works[j].phase == Queued && s.works[j].scores == []
    requires (forall i :: 0 <= i < j ==> !s.works[i].phase.Queued?) && |BusyOnes(s.works)| < Workers(c)
    ensures CanMove(c, s, Move(j, Take)) && t == Next(c, s, Move(j, Take))
    ensures t == s.(works := s.works[j := Work(Look, [])])
  {
    t := Next(c, s, Move(j, Take));
  }

  /** A worker does a whole trajectory. */
  lemma WholeJob(c: Config, s: State, j: nat, key: CacheKey) returns (schedule: seq<Move>, t: State)
    requires j < |s.works| == |c.jobs| && s.works[j].phase == Queued && s.works[j].scores == []
    requires (forall i :: 0 <= i < j ==> !s.works[i].phase.Queued?) && |BusyOnes(s.works)| < Workers(c)
    requires key !in s.cache && !HasKey(c, j, key)
    ensures Reaches(c, s, schedule, t) && key !in t.cache && |t.works| == |s.works| && t.works[j].phase == Done
    ensures forall k :: 0 <= k < |s.works| && k != j ==> t.works[k] == s.works[k]
    ensures BusyOnes(t.works) == BusyOnes(s.works)
  {
    hide KeyAt, Workers, Reaches;
    var s1 := TakeNext(c, s, j);
    RunOne(c, s, Move(j, Take));
    var run, s2 := RunJob(c, s1, j, |c.jobs[j].steps|, key);
    ReachesThen(c, s, [Move(j, Take)], s1, run, s2);
    t := Next(c, s2, Move(j, Finish));
    ReachesMore(c, s, [Move(j, Take)] + run, s2, Move(j, Finish));
    schedule := [Move(j, Take)] + run + [Move(j, Finish)];
  }

  /** A free worker does the trajectories from p up to q, one after the other. */
  lemma {:induction false} WholeJobs(c: Config, s: State, p: nat, q: nat, key: CacheKey) returns (schedule: seq<Move>, t: State)
    requires p <= q <= |s.works| == |c.jobs| && forall i :: 0 <= i < p ==> !s.works[i].phase.Queued?
    requires forall i :: p <= i < |c.jobs| ==> s.works[i] == Work(Queued, [])
    requires |BusyOnes(s.works)| < Workers(c) && key !in s.cache && forall i :: p <= i < q ==> !HasKey(c, i, key)
    ensures Reaches(c, s, schedule, t) && key !in t.cache && |t.works| == |s.works|
    ensures forall i :: 0 <= i < |c.jobs| && !(p <= i < q) ==> t.works[i] == s.works[i]
    ensures forall i :: p <= i < q ==> t.works[i].phase == Done
    ensures BusyOnes(t.works) == BusyOnes(s.works)
    decreases q - p
  {
    hide HasKey, Workers, Reaches, BusyOnes;
    if p == q {
      schedule, t := [], s;
      RunNone(c, s);
    } else {
      var first, s1 := WholeJob(c, s, p, key);
      var rest, last := WholeJobs(c, s1, p + 1, q, key);
      ReachesThen(c, s, first, s1, rest, last);
      schedule, t := first + rest, last;
    }
  }

  lemma RunNone(c: Config, s: State)
    ensures Reaches(c, s, [], s)
  {
  }

  /** The first step with a key. */
  lemma {:induction false} FirstStep(c: Config, j: nat, key: CacheKey, from: nat) returns (i: nat)
    requires j < |c.jobs| && exists k :: from <= k < |c.jobs[j].steps| && KeyAt(c, j, k) == key
    ensures from <= i < |c.jobs[j].steps| && KeyAt(c, j, i) == key && forall k :: from <= k < i ==> KeyAt(c, j, k) != key
    decreases |c.jobs[j].steps| - from
  {
    hide KeyAt;
    if KeyAt(c, j, from) == key { i := from; } else { i := FirstStep(c, j, key, from + 1); }
  }

  /** The first trajectory with a key. */
  lemma {:induction false} FirstJob(c: Config, key: CacheKey, from: nat, upTo: nat) returns (j: nat)
    requires from <= upTo < |c.jobs| && HasKey(c, upTo, key)
    ensures from <= j <= upTo && HasKey(c, j, key) && forall k :: from <= k < j ==> !HasKey(c, k, key)
    decreases upTo - from
  {
    hide HasKey;
    if HasKey(c, from, key) { j := from; } else { j := FirstJob(c, key, from + 1, upTo); }
  }

  /** A worker reaches its first step with a key, finds no entry, and is about to ask the judge. */
  lemma Misses(c: Config, s: State, j: nat, key: CacheKey) returns (schedule: seq<Move>, t: State, i: nat)
    requires j < |s.works| == |c.jobs| && s.works[j] == Work(Queued, []) && HasKey(c, j, key) && key !in s.cache
    requires (forall k :: 0 <= k < j ==> !s.works[k].phase.Queued?) && |BusyOnes(s.works)| < Workers(c)
    ensures Reaches(c, s, schedule, t) && key !in t.cache && |t.works| == |s.works|
    ensures i < |c.jobs[j].steps| && KeyAt(c, j, i) == key && t.works[j].phase == Ask && |t.works[j].scores| == i
    ensures forall k :: 0 <= k < |s.works| && k != j ==> t.works[k] == s.works[k]
    ensures BusyOnes(t.works) == BusyOnes(s.works) + {j}
  {
    hide KeyAt, Workers, Reaches;
    i := FirstStep(c, j, key, 0);
    var s1 := TakeNext(c, s, j);
    RunOne(c, s, Move(j, Take));
    var run, s2 := RunJob(c, s1, j, i, key);
    ReachesThen(c, s, [Move(j, Take)], s1, run, s2);
    t := Next(c, s2, Move(j, Find));
    ReachesMore(c, s, [Move(j, Take)] + run, s2, Move(j, Find));
    schedule := [Move(j, Take)] + run + [Move(j, Find)];
  }

  /** Two workers asking about one key get different answers. */
  lemma Differ(c: Config, s: State, j: nat, i: nat, j2: nat, i2: nat) returns (schedule: seq<Move>, t: State)
    requires j < |s.works| == |c.jobs| && j2 < |s.works| && j != j2 && s.works[j].phase == s.works[j2].phase == Ask
    requires |s.works[j].scores| == i < |c.jobs[j].steps| && |s.works[j2].scores| == i2 < |c.jobs[j2].steps|
    ensures Reaches(c, s, schedule, t) && |t.works| == |c.jobs|
    ensures |t.works[j].scores| == i + 1 && t.works[j].scores[i] == 0.0
    ensures |t.works[j2].scores| == i2 + 1 && t.works[j2].scores[i2] == 1.0
  {
    hide KeyAt, Workers, BusyOnes, Reaches;
    var m1, m2, m3, m4 := Move(j, Answer(Some(0.0))), Move(j2, Answer(Some(1.0))), Move(j, Keep), Move(j2, Keep);
    var s1 := Next(c, s, m1);
    var s2 := Next(c, s1, m2);
    var s3 := Next(c, s2, m3);
    t := Next(c, s3, m4);
    RunOne(c, s, m1);
    ReachesMore(c, s, [m1], s1, m2);
    ReachesMore(c, s, [m1] + [m2], s2, m3);
    ReachesMore(c, s, [m1] + [m2] + [m3], s3, m4);
    schedule := [m1] + [m2] + [m3] + [m4];
  }

  lemma Race(c: Config, cache: Cache, j: nat, j2: nat, key: CacheKey) returns (schedule: seq<Move>, t: State)
    requires Workers(c) > 1 && j < j2 < |c.jobs| && HasKey(c, j, key) && HasKey(c, j2, key) && key !in cache
    requires forall k :: 0 <= k < j2 && k != j ==> !HasKey(c, k, key)
    ensures Reaches(c, Start(c, cache), schedule, t) && !EqualKeys(c, t)
  {
    hide KeyAt, HasKey, Workers, Reaches, CanMove, Next;
    var s := Start(c, cache);
    assert BusyOnes(s.works) == {};
    var run1, s1 := WholeJobs(c, s, 0, j, key);
    var run2, s2, i := Misses(c, s1, j, key);
    var run3, s3 := WholeJobs(c, s2, j + 1, j2, key);
    var run4, s4, i2 := Misses(c, s3, j2, key);
    var run5, last := Differ(c, s4, j, i, j2, i2);
    ReachesThen(c, s, run1, s1, run2, s2);
    ReachesThen(c, s, run1 + run2, s2, run3, s3);
    ReachesThen(c, s, run1 + run2 + run3, s3, run4, s4);
    ReachesThen(c, s, run1 + run2 + run3 + run4, s4, run5, last);
    schedule, t := run1 + run2 + run3 + run4 + run5, last;
    assert HasScore(c, t, j, i) && HasScore(c, t, j2, i2);
  }

  /** In all schedules and for all answers equal keys get equal scores, exactly with one worker, or when no key outside the starting
      cache occurs in two of the trajectories. */
  lemma EqualKeysExactly(c: Config, cache: Cache)
    requires CacheInUnit(cache)
    ensures (forall schedule, t :: Reaches(c, Start(c, cache), schedule, t) ==> EqualKeys(c, t)) <==> Apart(c, cache)
  {
    hide Reaches, EqualKeys, HasKey, Workers, Start;
    if Apart(c, cache) {
      forall schedule, t | Reaches(c, Start(c, cache), schedule, t) ensures EqualKeys(c, t) {
        StartTidy(c, cache);
        RunTidy(c, cache, Start(c, cache), schedule, t);
        TidyEqual(c, cache, t);
      }
    } else {
      var j0, j1, key :| 0 <= j0 < j1 < |c.jobs| && HasKey(c, j0, key) && HasKey(c, j1, key) && key !in cache;
      var j := FirstJob(c, key, 0, j0);
      var j2 := FirstJob(c, key, j + 1, j1);
      SeveralWorkers(c);
      var schedule, t := Race(c, cache, j, j2, key);
    }
  }

  lemma StartTidy(c: Config, cache: Cache)
    requires CacheInUnit(cache)
    ensures Tidy(c, cache, Start(c, cache))
  {
    StartInv(c, cache);
  }

  /** For instance two trajectories that both ask about one step: the first gets the scores 0 and 1 for it although it makes the
      same step twice, for the second has overwritten the entry in between. */
  lemma TwoTrajectories(task: string, step: Step, maxChars: nat, maxWorkers: int) returns (schedule: seq<Move>, t: State)
    requires maxWorkers >= 2
    ensures var c := Config([Job(task, [step, step]), Job(task, [step])], maxChars, maxWorkers);
            Reaches(c, Start(c, map[]), schedule, t) && t.works == [Work(Done, [0.0, 1.0]), Work(Done, [1.0])]
  {
    hide Reaches, CanMove, Next;
    var c := Config([Job(task, [step, step]), Job(task, [step])], maxChars, maxWorkers);
    var s := Start(c, map[]);
    var key := KeyAt(c, 0, 0);
    assert s.works == [Work(Queued, []), Work(Queued, [])] && BusyOnes(s.works) == {};
    var s1, s2 := BothTaken(c, s);
    var run, u := BothMiss(c, s2, key);
    assert u == State([Work(Look, [0.0]), Work(Look, [1.0])], map[key := 1.0]);
    var rest, last := FirstHits(c, u, key);
    RunOne(c, s, Move(0, Take));
    ReachesMore(c, s, [Move(0, Take)], s1, Move(1, Take));
    ReachesThen(c, s, [Move(0, Take)] + [Move(1, Take)], s2, run, u);
    ReachesThen(c, s, [Move(0, Take)] + [Move(1, Take)] + run, u, rest, last);
    schedule, t := [Move(0, Take)] + [Move(1, Take)] + run + rest, last;
  }

  lemma FirstHits(c: Config, s: State, key: CacheKey) returns (schedule: seq<Move>, t: State)
    requires |c.jobs| == 2 && |c.jobs[0].steps| == 2 && |c.jobs[1].steps| == 1 && KeyAt(c, 0, 1) == key
    requires s == State([Work(Look, [0.0]), Work(Look, [1.0])], map[key := 1.0])
    ensures Reaches(c, s, schedule, t) && t.works == [Work(Done, [0.0, 1.0]), Work(Done, [1.0])]
  {
    hide KeyAt, BusyOnes, Workers, Reaches;
    var m1, m2, m3, m4 := Move(0, Find), Move(0, Fetch), Move(0, Finish), Move(1, Finish);
    var s1 := Next(c, s, m1);
    var s2 := Next(c, s1, m2);
    assert [0.0] + [1.0] == [0.0, 1.0];
    assert s2.works == [Work(Look, [0.0, 1.0]), Work(Look, [1.0])];
    var s3 := Next(c, s2, m3);
    t := Next(c, s3, m4);
    RunOne(c, s, m1);
    ReachesMore(c, s, [m1], s1, m2);
    ReachesMore(c, s, [m1] + [m2], s2, m3);
    ReachesMore(c, s, [m1] + [m2] + [m3], s3, m4);
    schedule := [m1] + [m2] + [m3] + [m4];
  }

  lemma BothTaken(c: Config, s: State) returns (s1: State, s2: State)
    requires |c.jobs| == 2 && c.maxWorkers >= 2 && s.works == [Work(Queued, []), Work(Queued, [])]
    ensures CanMove(c, s, Move(0, Take)) && s1 == Next(c, s, Move(0, Take))
    ensures CanMove(c, s1, Move(1, Take)) && s2 == Next(c, s1, Move(1, Take))
    ensures s2 == State([Work(Look, []), Work(Look, [])], s.cache)
  {
    assert BusyOnes(s.works) == {};
    s1 := TakeNext(c, s, 0);
    assert s1.works == [Work(Look, []), Work(Queued, [])] && BusyOnes(s1.works) == {0};
    s2 := TakeNext(c, s1, 1);
  }

  lemma BothMiss(c: Config, s: State, key: CacheKey) returns (schedule: seq<Move>, t: State)
    requires |c.jobs| == 2 && |c.jobs[0].steps| > 0 && |c.jobs[1].steps| > 0 && KeyAt(c, 0, 0) == KeyAt(c, 1, 0) == key
    requires s == State([Work(Look, []), Work(Look, [])], map[])
    ensures Reaches(c, s, schedule, t) && t == State([Work(Look, [0.0]), Work(Look, [1.0])], map[key := 1.0])
  {
    hide KeyAt, BusyOnes, Workers, Reaches;
    var m1, m2, m3, m4 := Move(0, Find), Move(1, Find), Move(0, Answer(Some(0.0))), Move(1, Answer(Some(1.0)));
    var m5, m6 := Move(0, Keep), Move(1, Keep);
    var s1 := Next(c, s, m1);
    var s2 := Next(c, s1, m2);
    var s3 := Next(c, s2, m3);
    var s4 := Next(c, s3, m4);
    var s5 := Next(c, s4, m5);
    t := Next(c, s5, m6);
    assert t.cache == map[key := 1.0];
    assert [] + [0.0] == [0.0] && [] + [1.0] == [1.0];
    RunOne(c, s, m1);
    ReachesMore(c, s, [m1], s1, m2);
    ReachesMore(c, s, [m1] + [m2], s2, m3);
    ReachesMore(c, s, [m1] + [m2] + [m3], s3, m4);
    ReachesMore(c, s, [m1] + [m2] + [m3] + [m4], s4, m5);
    ReachesMore(c, s, [m1] + [m2] + [m3] + [m4] + [m5], s5, m6);
    schedule := [m1] + [m2] + [m3] + [m4] + [m5] + [m6];
  }

  // ---------------------------------------------------------------- every schedule ends

  function Left(c: Config, j: nat, w: Work): nat
    requires j < |c.jobs|
  {
    var n := if |w.scores| <= |c.jobs[j].steps| then 3 * (|c.jobs[j].steps| - |w.scores|) else 0;
    match w.phase
    case Queued => n + 2
    case Look => n + 1
    case Read | Ask => n
    case Store(_) => if n > 0 then n - 1 else 0
    case Done | Failed => 0
  }

  function AllLeft(c: Config, s: State): nat {
    Sum(seq(|c.jobs|, j requires 0 <= j < |c.jobs| => if j < |s.works| then Left(c, j, s.works[j]) else 0))
  }

  lemma MoveLeft(c: Config, s: State, m: Move)
    requires CanMove(c, s, m) && WorkOk(c, m.j, s.works[m.j], s.cache)
    ensures Left(c, m.j, Next(c, s, m).works[m.j]) < Left(c, m.j, s.works[m.j])
  {
    hide KeyAt, Workers, BusyOnes;
  }

  lemma StepLeft(c: Config, s: State, m: Move)
    requires Inv(c, s) && CanMove(c, s, m)
    ensures AllLeft(c, Next(c, s, m)) < AllLeft(c, s)
  {
    hide KeyAt, Workers, BusyOnes, WorkOk, Left;
    assert WorkOk(c, m.j, s.works[m.j], s.cache);
    MoveLeft(c, s, m);
    var t := Next(c, s, m);
    var f := seq(|c.jobs|, j requires 0 <= j < |c.jobs| => if j < |s.works| then Left(c, j, s.works[j]) else 0);
    var g := seq(|c.jobs|, j requires 0 <= j < |c.jobs| => if j < |t.works| then Left(c, j, t.works[j]) else 0);
    assert g == f[m.j := g[m.j]];
    SumUpdate(f, m.j, g[m.j]);
  }

  lemma {:induction false} RunsEnd(c: Config, s: State, schedule: seq<Move>, t: State)
    requires Inv(c, s) && Reaches(c, s, schedule, t)
    ensures |schedule| + AllLeft(c, t) <= AllLeft(c, s)
    decreases |schedule|
  {
    hide Inv, CanMove, Next, AllLeft;
    if schedule != [] {
      StepInv(c, s, schedule[0]);
      StepLeft(c, s, schedule[0]);
      RunsEnd(c, Next(c, s, schedule[0]), schedule[1..], t);
    }
  }

  predicate Over(w: Work) { w.phase.Done? || w.phase.Failed? }

  /** Somebody can go on as long as a trajectory is neither done nor failed. */
  lemma SomeMove(c: Config, s: State) returns (m: Move)
    requires Inv(c, s) && exists j :: 0 <= j < |s.works| && !Over(s.works[j])
    ensures CanMove(c, s, m)
  {
    hide KeyAt, Workers;
    if j: nat :| j < |s.works| && Busy(s.works[j]) {
      assert WorkOk(c, j, s.works[j], s.cache);
      m := Move(j, match s.works[j].phase
                   case Look => if |s.works[j].scores| == |c.jobs[j].steps| then Finish else Find
                   case Read => Fetch
                   case Ask => Answer(None)
                   case _ => Keep);
    } else {
      assert BusyOnes(s.works) == {};
      SeveralWorkers(c);
      var j := FirstQueued(s.works, 0);
      m := Move(j, Take);
    }
  }

  lemma {:induction false} FirstQueued(works: seq<Work>, from: nat) returns (j: nat)
    requires exists i :: from <= i < |works| && !Over(works[i])
    requires forall i :: 0 <= i < |works| ==> !Busy(works[i])
    ensures from <= j < |works| && works[j].phase.Queued? && forall i :: from <= i < j ==> !works[i].phase.Queued?
    decreases |works| - from
  {
    if works[from].phase.Queued? { j := from; } else { j := FirstQueued(works, from + 1); }
  }

  /** Every schedule is finite, and one that cannot be continued has judged every trajectory, or a call has raised for it. */
  lemma PoolEnds(c: Config, cache: Cache, schedule: seq<Move>, t: State)
    requires CacheInUnit(cache) && Reaches(c, Start(c, cache), schedule, t)
    ensures |schedule| <= AllLeft(c, Start(c, cache)) && |t.works| == |c.jobs|
    ensures (forall m :: !CanMove(c, t, m)) ==>
              forall j :: 0 <= j < |c.jobs| ==>
                t.works[j].phase == Failed || (t.works[j].phase == Done && |t.works[j].scores| == |c.jobs[j].steps|)
  {
    hide Reaches, Start, AllLeft, CanMove, BusyOnes;
    StartInv(c, cache);
    RunInv(c, Start(c, cache), schedule, t);
    RunsEnd(c, Start(c, cache), schedule, t);
    forall j | 0 <= j < |c.jobs| ensures WorkOk(c, j, t.works[j], t.cache) {}
    if (forall m :: !CanMove(c, t, m)) && exists j :: 0 <= j < |t.works| && !Over(t.works[j]) {
      var m := SomeMove(c, t);
      assert false;
    }
  }
}
