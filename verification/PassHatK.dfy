/** The pass^k estimate of tau_bench/run.py, in exact arithmetic. */
module PassHatK {
  import opened Outcomes
  import opened Division
  import opened Sequences

  datatype RunResult = RunResult(taskId: int, trial: int, reward: real)

  datatype MetricsError = NoResults

  datatype Metrics = Metrics(average: real, passHat: seq<real>)

  predicate IsSuccessful(reward: real) { 1.0 - 0.000001 <= reward <= 1.0 + 0.000001 }

  // ---------------------------------------------------------------- binomial coefficients

  /** math.comb, by Pascal's rule. */
  function Comb(n: nat, k: nat): (c: nat)
    ensures k <= n ==> c > 0
    ensures k > n ==> c == 0
  {
    if k == 0 then 1 else if n == 0 then 0 else Comb(n - 1, k - 1) + Comb(n - 1, k)
  }

  lemma Pascal(n: nat, k: nat)
    requires n > 0 && k > 0
    ensures Comb(n, k) == Comb(n - 1, k - 1) + Comb(n - 1, k)
  {
  }

  lemma {:induction false} Absorb(n: nat, k: nat)
    ensures k <= n ==> (k + 1) * Comb(n, k + 1) == (n - k) * Comb(n, k)
  {
    if 0 < n {
      Absorb(n - 1, k);
      if k > 0 { Absorb(n - 1, k - 1); }
      if 0 < k < n {
        AbsorbStep(n, k, Comb(n - 1, k - 1), Comb(n - 1, k), Comb(n - 1, k + 1));
      }
    }
  }

  lemma AbsorbStep(n: int, k: int, low: int, mid: int, high: int)
    requires (k + 1) * high == (n - 1 - k) * mid && k * mid == (n - k) * low
    ensures (k + 1) * (mid + high) == (n - k) * (low + mid)
  {
  }

  lemma {:induction false} CombGrows(c: nat, n: nat, k: nat)
    requires c <= n
    ensures Comb(c, k) <= Comb(n, k)
    ensures 1 <= k <= n && c < n ==> Comb(c, k) < Comb(n, k)
    decreases n
  {
    if c < n && k > 0 { CombGrows(c, n - 1, k); }
  }

  lemma {:induction false} CombOne(n: nat)
    ensures Comb(n, 1) == n
  {
    if n > 0 { CombOne(n - 1); }
  }

  // ---------------------------------------------------------------- subsets

  ghost function Subsets(s: set<int>, k: nat): set<set<int>> { set t: set<int> | t <= s && |t| == k }

  ghost function WithEach(ts: set<set<int>>, x: int): set<set<int>> { set t | t in ts :: t + {x} }

  lemma {:induction false} WithEachSize(ts: set<set<int>>, x: int)
    requires forall t :: t in ts ==> x !in t
    ensures |WithEach(ts, x)| == |ts|
  {
    if ts == {} {
      assert WithEach({}, x) == {};
    } else {
      hide WithEach;
      var t := SomeElement(ts);
      var rest := ts - {t};
      WithEachSize(rest, x);
      WithOneMore(rest, t, x);
      assert ts == rest + {t};
    }
  }

  lemma WithOneMore(ts: set<set<int>>, t: set<int>, x: int)
    requires t !in ts && x !in t && forall u :: u in ts ==> x !in u
    ensures |WithEach(ts + {t}, x)| == |WithEach(ts, x)| + 1
  {
    forall u | u in ts ensures u + {x} != t + {x} { assert u == (u + {x}) - {x} && t == (t + {x}) - {x}; }
    assert t + {x} !in WithEach(ts, x);
    assert WithEach(ts + {t}, x) == WithEach(ts, x) + {t + {x}};
  }

  /** Comb(|s|, k) counts the k-subsets of s. */
  lemma {:induction false} SubsetsCounted(s: set<int>, k: nat)
    ensures |Subsets(s, k)| == Comb(|s|, k)
    decreases |s|
  {
    if k == 0 || |s| == 0 {
      SubsetsOfNone(s, k);
    } else {
      hide Subsets, WithEach, Comb;
      var x := SomeElement(s);
      var rest := s - {x};
      assert |rest| == |s| - 1;
      SubsetsCounted(rest, k);
      SubsetsCounted(rest, k - 1);
      SubsetsSplit(s, x, k);
      Pascal(|s|, k);
    }
  }

  lemma SomeElement<T>(s: set<T>) returns (x: T)
    requires s != {}
    ensures x in s
  {
    x :| x in s;
  }

  lemma SubsetsOfNone(s: set<int>, k: nat)
    requires k == 0 || |s| == 0
    ensures |Subsets(s, k)| == Comb(|s|, k)
  {
    if k == 0 {
      assert Subsets(s, 0) == {{}};
    } else {
      assert s == {} && Subsets(s, k) == {};
    }
  }

  lemma SubsetsSplit(s: set<int>, x: int, k: nat)
    requires x in s && k > 0
    ensures Subsets(s, k) == Subsets(s - {x}, k) + WithEach(Subsets(s - {x}, k - 1), x)
    ensures |Subsets(s, k)| == |Subsets(s - {x}, k)| + |Subsets(s - {x}, k - 1)|
  {
    var rest := s - {x};
    forall t | t in Subsets(s, k) ensures t in Subsets(rest, k) + WithEach(Subsets(rest, k - 1), x) {
      if x in t {
        assert t - {x} in Subsets(rest, k - 1);
        assert (t - {x}) + {x} == t;
      }
    }
    forall t | t in WithEach(Subsets(rest, k - 1), x) ensures t in Subsets(s, k) {
      var u :| u in Subsets(rest, k - 1) && u + {x} == t;
    }
    WithEachSize(Subsets(rest, k - 1), x);
    assert Subsets(rest, k) !! WithEach(Subsets(rest, k - 1), x);
  }

  // ---------------------------------------------------------------- counting results

  function Count(results: seq<RunResult>, taskId: int): (c: nat)
    ensures c <= |results|
  {
    if results == [] then 0 else
      var last := results[|results| - 1];
      Count(results[..|results| - 1], taskId) + if last.taskId == taskId && IsSuccessful(last.reward) then 1 else 0
  }

  function TaskIds(results: seq<RunResult>): set<int> { set i | 0 <= i < |results| :: results[i].taskId }

  function Trials(results: seq<RunResult>): set<int> { set i | 0 <= i < |results| :: results[i].trial }

  function SumRewards(results: seq<RunResult>): real {
    if results == [] then 0.0 else SumRewards(results[..|results| - 1]) + results[|results| - 1].reward
  }

  /** The dictionary of success counts, keys in order of first appearance. */
  method CountSuccesses(results: seq<RunResult>) returns (order: seq<int>, counts: map<int, nat>)
    ensures Lists(order, results) && counts.Keys == TaskIds(results)
    ensures forall t :: t in counts ==> counts[t] == Count(results, t)
  {
    order, counts := [], map[];
    for n := 0 to |results|
      invariant Lists(order, results[..n]) && counts.Keys == TaskIds(results[..n])
      invariant forall t :: t !in counts ==> Count(results[..n], t) == 0
      invariant forall t :: t in counts ==> counts[t] == Count(results[..n], t)
    {
      var r := results[n];
      assert results[..n + 1][..n] == results[..n];
      OneMoreResult(results[..n + 1], r.taskId);
      if r.taskId !in counts {
        order := order + [r.taskId];
        counts := counts[r.taskId := if IsSuccessful(r.reward) then 1 else 0];
      } else {
        counts := counts[r.taskId := counts[r.taskId] + if IsSuccessful(r.reward) then 1 else 0];
      }
    }
    assert results[..|results|] == results;
  }

  // ---------------------------------------------------------------- the estimate

  function Term(c: nat, n: nat, k: nat): real
    requires k <= n
  {
    Comb(c, k) as real / Comb(n, k) as real
  }

  function SumTerms(results: seq<RunResult>, order: seq<int>, n: nat, k: nat): real
    requires k <= n
  {
    if order == [] then 0.0
    else SumTerms(results, order[..|order| - 1], n, k) + Term(Count(results, order[|order| - 1]), n, k)
  }

  ghost predicate Lists(order: seq<int>, results: seq<RunResult>) {
    Distinct(order) && (forall t :: t in order <==> t in TaskIds(results))
  }

  /** pass^k over the tasks in the order given: the mean of C(c, k) / C(n, k). */
  function PassHat(results: seq<RunResult>, order: seq<int>, k: nat): real
    requires order != [] && k <= |Trials(results)|
  {
    SumTerms(results, order, |Trials(results)|, k) / |order| as real
  }

  lemma NoTerms(results: seq<RunResult>, n: nat, k: nat)
    requires k <= n
    ensures SumTerms(results, [], n, k) == 0.0
  {
  }

  lemma OneMoreTerm(results: seq<RunResult>, order: seq<int>, i: nat, n: nat, k: nat)
    requires i < |order| && k <= n
    ensures SumTerms(results, order[..i + 1], n, k)
            == SumTerms(results, order[..i], n, k) + Comb(Count(results, order[i]), k) as real / Comb(n, k) as real
  {
    assert order[..i + 1][..i] == order[..i];
  }

  method DisplayMetrics(results: seq<RunResult>) returns (r: Result<Metrics, MetricsError>, ghost order: seq<int>)
    ensures r.Err? <==> results == []
    ensures r.Ok? ==> order != [] && Lists(order, results) && |r.value.passHat| == |Trials(results)|
    ensures r.Ok? ==> r.value.average == SumRewards(results) / |results| as real
    ensures r.Ok? ==> forall k :: 1 <= k <= |Trials(results)| ==> r.value.passHat[k - 1] == PassHat(results, order, k)
  {
    hide SumTerms, Comb, Count, Term;
    order := [];
    if results == [] { return Err(NoResults), []; }
    var numTrials := |Trials(results)|;
    var total := 0.0;
    for i := 0 to |results|
      invariant total == SumRewards(results[..i])
    {
      assert results[..i + 1][..i] == results[..i];
      total := total + results[i].reward;
    }
    assert results[..|results|] == results;
    var tasks, counts := CountSuccesses(results);
    assert results[0].taskId in TaskIds(results);
    var passHat: seq<real> := [];
    for k := 1 to numTrials + 1
      invariant |passHat| == k - 1
      invariant forall j :: 1 <= j < k ==> passHat[j - 1] == PassHat(results, tasks, j)
    {
      var sum := 0.0;
      NoTerms(results, numTrials, k);
      for i := 0 to |tasks|
        invariant sum == SumTerms(results, tasks[..i], numTrials, k)
      {
        assert tasks[i] in tasks;
        OneMoreTerm(results, tasks, i, numTrials, k);
        sum := sum + Comb(counts[tasks[i]], k) as real / Comb(numTrials, k) as real;
      }
      assert tasks[..|tasks|] == tasks;
      passHat := passHat + [sum / |tasks| as real];
    }
    return Ok(Metrics(total / |results| as real, passHat)), tasks;
  }

  // ---------------------------------------------------------------- properties

  /** No task has two results for one trial. */
  predicate OnePerTrial(results: seq<RunResult>) {
    forall i, j :: 0 <= i < j < |results| && results[i].taskId == results[j].taskId ==> results[i].trial != results[j].trial
  }

  function Passed(results: seq<RunResult>, taskId: int): (s: set<int>)
    ensures s <= Trials(results)
  {
    set i | 0 <= i < |results| && results[i].taskId == taskId && IsSuccessful(results[i].reward) :: results[i].trial
  }

  lemma OneMoreResult(results: seq<RunResult>, taskId: int)
    requires results != []
    ensures var front, last := results[..|results| - 1], results[|results| - 1];
      && TaskIds(results) == TaskIds(front) + {last.taskId}
      && Passed(results, taskId)
         == Passed(front, taskId) + if last.taskId == taskId && IsSuccessful(last.reward) then {last.trial} else {}
  {
    assert results == results[..|results| - 1] + [results[|results| - 1]];
  }

  /** With one result per trial, the count is the number of trials that passed. */
  lemma {:induction false} CountIsPassed(results: seq<RunResult>, taskId: int)
    requires OnePerTrial(results)
    ensures Count(results, taskId) == |Passed(results, taskId)|
  {
    if results != [] {
      var front, last := results[..|results| - 1], results[|results| - 1];
      CountIsPassed(front, taskId);
      OneMoreResult(results, taskId);
      if last.taskId == taskId { assert last.trial !in Passed(front, taskId); }
    }
  }

  /** Each term is the fraction of the k-subsets of the trials in which every trial passed. */
  lemma TermIsFraction(results: seq<RunResult>, taskId: int, k: nat)
    requires OnePerTrial(results) && k <= |Trials(results)|
    ensures |Subsets(Trials(results), k)| > 0
    ensures Term(Count(results, taskId), |Trials(results)|, k)
            == |Subsets(Passed(results, taskId), k)| as real / |Subsets(Trials(results), k)| as real
    ensures Subsets(Passed(results, taskId), k)
            == set t | t in Subsets(Trials(results), k) && t <= Passed(results, taskId)
  {
    CountIsPassed(results, taskId);
    SubsetsCounted(Passed(results, taskId), k);
    SubsetsCounted(Trials(results), k);
  }

  /** A term is at most 1 exactly when no more results passed than there are trials. */
  lemma TermBounds(c: nat, n: nat, k: nat)
    requires 1 <= k <= n
    ensures Term(c, n, k) >= 0.0
    ensures Term(c, n, k) <= 1.0 <==> c <= n
  {
    if c <= n { CombGrows(c, n, k); } else { CombGrows(n, c, k); }
    Ratio(Comb(c, k) as real, Comb(n, k) as real);
  }

  lemma TermShrinks(c: nat, n: nat, k: nat)
    requires c <= n && k + 1 <= n
    ensures Term(c, n, k + 1) <= Term(c, n, k)
  {
    Absorb(n, k);
    if k <= c { Absorb(c, k); }
    CrossProducts(c, n, k, Comb(c, k), Comb(n, k), Comb(c, k + 1), Comb(n, k + 1));
    Ratios(Comb(c, k + 1), Comb(n, k + 1), Comb(c, k), Comb(n, k));
  }

  lemma CrossProducts(c: nat, n: nat, k: nat, ck: nat, nk: nat, ck1: nat, nk1: nat)
    requires c <= n && k < n && (k + 1) * nk1 == (n - k) * nk
    requires if k <= c then (k + 1) * ck1 == (c - k) * ck else ck1 == 0
    ensures ck1 * nk <= ck * nk1
  {
    if k <= c {
      assert (k + 1) * (ck1 * nk) == (c - k) * (ck * nk);
      assert (k + 1) * (ck * nk1) == (n - k) * (ck * nk);
      MulMono(c - k, n - k, ck * nk);
      Cancel(k + 1, ck1 * nk, ck * nk1);
    }
  }

  lemma Cancel(m: nat, a: nat, b: nat)
    requires m > 0 && m * a <= m * b
    ensures a <= b
  {
    if b < a { MulMono(1, a - b, m); }
  }

  lemma Ratios(a: nat, b: nat, c: nat, d: nat)
    requires b > 0 && d > 0 && a * d <= c * b
    ensures a as real / b as real <= c as real / d as real
  {
    var p, q := a as real / b as real, c as real / d as real;
    assert p * b as real == a as real && q * d as real == c as real;
    assert (a * d) as real == a as real * d as real && (c * b) as real == c as real * b as real;
    assert p * (b as real * d as real) <= q * (b as real * d as real);
    if p > q { Positive(p - q, b as real * d as real); }
  }

  lemma {:induction false} SumBounds(results: seq<RunResult>, order: seq<int>, k: nat)
    requires OnePerTrial(results) && 1 <= k <= |Trials(results)|
    ensures 0.0 <= SumTerms(results, order, |Trials(results)|, k) <= |order| as real
  {
    if order != [] {
      var t := order[|order| - 1];
      SumBounds(results, order[..|order| - 1], k);
      CountIsPassed(results, t);
      SubsetSize(Passed(results, t), Trials(results));
      TermBounds(Count(results, t), |Trials(results)|, k);
    }
  }

  lemma {:induction false} SumShrinks(results: seq<RunResult>, order: seq<int>, k: nat)
    requires OnePerTrial(results) && k + 1 <= |Trials(results)|
    ensures SumTerms(results, order, |Trials(results)|, k + 1) <= SumTerms(results, order, |Trials(results)|, k)
  {
    if order != [] {
      var t := order[|order| - 1];
      SumShrinks(results, order[..|order| - 1], k);
      CountIsPassed(results, t);
      SubsetSize(Passed(results, t), Trials(results));
      TermShrinks(Count(results, t), |Trials(results)|, k);
    }
  }

  /** With one result per trial, pass^k is a probability and never grows with k. */
  lemma PassHatShrinks(results: seq<RunResult>, order: seq<int>, k: nat)
    requires order != [] && OnePerTrial(results) && 1 <= k <= |Trials(results)|
    ensures 0.0 <= PassHat(results, order, k) <= 1.0
    ensures k < |Trials(results)| ==> PassHat(results, order, k + 1) <= PassHat(results, order, k)
  {
    var n := |order| as real;
    var sum := SumTerms(results, order, |Trials(results)|, k);
    SumBounds(results, order, k);
    Divide(0.0, sum, n);
    Divide(sum, n, n);
    if k < |Trials(results)| {
      SumShrinks(results, order, k);
      Divide(SumTerms(results, order, |Trials(results)|, k + 1), sum, n);
    }
  }

  // ---------------------------------------------------------------- k = 1

  function Successes(results: seq<RunResult>): (c: nat)
    ensures c <= |results|
  {
    if results == [] then 0
    else Successes(results[..|results| - 1]) + if IsSuccessful(results[|results| - 1].reward) then 1 else 0
  }

  function SumCounts(results: seq<RunResult>, order: seq<int>): nat {
    if order == [] then 0 else SumCounts(results, order[..|order| - 1]) + Count(results, order[|order| - 1])
  }

  /** How many k-subsets the tasks' successes have, all tasks together. */
  function SumCombs(results: seq<RunResult>, order: seq<int>, k: nat): nat {
    if order == [] then 0 else SumCombs(results, order[..|order| - 1], k) + Comb(Count(results, order[|order| - 1]), k)
  }

  lemma {:induction false} SumRatio(results: seq<RunResult>, order: seq<int>, n: nat, k: nat)
    requires k <= n
    ensures SumTerms(results, order, n, k) == SumCombs(results, order, k) as real / Comb(n, k) as real
  {
    if order != [] {
      SumRatio(results, order[..|order| - 1], n, k);
      AddRatios(SumCombs(results, order[..|order| - 1], k), Comb(Count(results, order[|order| - 1]), k), Comb(n, k));
    }
  }

  /** pass^k for any k: the tasks' k-subsets of successes over as many times the k-subsets of the trials as there are tasks, so it is
      at most 1 exactly when the former are no more than the latter. */
  lemma PassExactly(results: seq<RunResult>, order: seq<int>, k: nat)
    requires order != [] && k <= |Trials(results)|
    ensures |order| * Comb(|Trials(results)|, k) > 0
    ensures PassHat(results, order, k) == SumCombs(results, order, k) as real / (|order| * Comb(|Trials(results)|, k)) as real
    ensures PassHat(results, order, k) <= 1.0 <==> SumCombs(results, order, k) <= |order| * Comb(|Trials(results)|, k)
  {
    SumRatio(results, order, |Trials(results)|, k);
    DivideTwice(SumCombs(results, order, k), Comb(|Trials(results)|, k), |order|);
    Ratio(SumCombs(results, order, k) as real, (|order| * Comb(|Trials(results)|, k)) as real);
  }

  lemma {:induction false} CombsOfOne(results: seq<RunResult>, order: seq<int>)
    ensures SumCombs(results, order, 1) == SumCounts(results, order)
  {
    if order != [] {
      CombsOfOne(results, order[..|order| - 1]);
      CombOne(Count(results, order[|order| - 1]));
    }
  }

  lemma AddRatios(a: nat, b: nat, n: nat)
    requires n >= 1
    ensures a as real / n as real + b as real / n as real == (a + b) as real / n as real
  {
  }

  /** One more result adds to the count of its own task only. */
  lemma {:induction false} CountsOfOneMore(results: seq<RunResult>, order: seq<int>)
    requires results != [] && Distinct(order)
    ensures var last := results[|results| - 1];
            SumCounts(results, order) == SumCounts(results[..|results| - 1], order)
              + if last.taskId in order && IsSuccessful(last.reward) then 1 else 0
  {
    if order != [] {
      CountsOfOneMore(results, order[..|order| - 1]);
      assert order == order[..|order| - 1] + [order[|order| - 1]];
    }
  }

  lemma {:induction false} CountsAreSuccesses(results: seq<RunResult>, order: seq<int>)
    requires Distinct(order) && forall i :: 0 <= i < |results| ==> results[i].taskId in order
    ensures SumCounts(results, order) == Successes(results)
  {
    if results == [] {
      NoCounts(order);
    } else {
      CountsOfOneMore(results, order);
      CountsAreSuccesses(results[..|results| - 1], order);
    }
  }

  lemma {:induction false} NoCounts(order: seq<int>)
    ensures SumCounts([], order) == 0
  {
    if order != [] { NoCounts(order[..|order| - 1]); }
  }

  /** pass^1 is the number of successes over tasks times trials. So it is at most 1 exactly when no more results are successes
      than there are pairs of a task and a trial, whatever is repeated or missing. */
  lemma PassOne(results: seq<RunResult>, order: seq<int>)
    requires results != [] && Lists(order, results)
    ensures order != [] && |Trials(results)| >= 1 && |order| * |Trials(results)| > 0
    ensures PassHat(results, order, 1) == Successes(results) as real / (|order| * |Trials(results)|) as real
    ensures PassHat(results, order, 1) <= 1.0 <==> Successes(results) <= |order| * |Trials(results)|
  {
    assert results[0].taskId in TaskIds(results) && results[0].trial in Trials(results);
    forall i | 0 <= i < |results| ensures results[i].taskId in order { assert results[i].taskId in TaskIds(results); }
    PassExactly(results, order, 1);
    CombOne(|Trials(results)|);
    CombsOfOne(results, order);
    CountsAreSuccesses(results, order);
  }

  /** When every task has exactly one result per trial, pass^1 is the fraction of the results that are successes. */
  lemma PassOneIsSuccessRate(results: seq<RunResult>, order: seq<int>)
    requires results != [] && Lists(order, results) && |results| == |order| * |Trials(results)|
    ensures order != [] && |Trials(results)| >= 1
    ensures PassHat(results, order, 1) == Successes(results) as real / |results| as real <= 1.0
  {
    PassOne(results, order);
  }

  lemma DivideTwice(a: nat, n: nat, m: nat)
    requires n > 0 && m > 0
    ensures m * n > 0 && (a as real / n as real) / m as real == a as real / (m * n) as real
  {
    assert (m * n) as real == m as real * n as real;
    var p := a as real / n as real;
    var q := p / m as real;
    assert p * n as real == a as real && q * m as real == p;
    assert q * (m * n) as real == a as real;
  }

  // ---------------------------------------------------------------- what counts as a success

  /** One more result adds to its own task's count, and to the count of all, exactly when its reward is within a millionth of 1. */
  lemma CountsExactly(results: seq<RunResult>, r: RunResult, taskId: int)
    ensures Count([], taskId) == 0 && Successes([]) == 0
    ensures Count(results + [r], taskId)
         == Count(results, taskId) + if r.taskId == taskId && 0.999999 <= r.reward <= 1.000001 then 1 else 0
    ensures Successes(results + [r]) == Successes(results) + if 0.999999 <= r.reward <= 1.000001 then 1 else 0
    ensures Passed(results + [r], taskId)
         == Passed(results, taskId) + if r.taskId == taskId && 0.999999 <= r.reward <= 1.000001 then {r.trial} else {}
  {
    assert (results + [r])[..|results|] == results;
    OneMoreResult(results + [r], taskId);
  }

  /** What the environment returns. */
  predicate ZeroOrOne(results: seq<RunResult>) {
    forall i :: 0 <= i < |results| ==> results[i].reward == 0.0 || results[i].reward == 1.0
  }

  function Ones(results: seq<RunResult>, taskId: int): set<nat> {
    set i: nat | i < |results| && results[i].taskId == taskId && results[i].reward == 1.0
  }

  /** For such rewards a task's count is the number of its results with reward 1. */
  lemma {:induction false} CountIsOnes(results: seq<RunResult>, taskId: int)
    requires ZeroOrOne(results)
    ensures Count(results, taskId) == |Ones(results, taskId)|
  {
    if results != [] {
      hide Count, Ones;
      var n := |results| - 1;
      CountIsOnes(results[..n], taskId);
      OnesAppend(results[..n], results[n], taskId);
      assert results == results[..n] + [results[n]];
      CountsExactly(results[..n], results[n], taskId);
    }
  }

  lemma OnesAppend(results: seq<RunResult>, r: RunResult, taskId: int)
    ensures Ones([], taskId) == {}
    ensures |Ones(results + [r], taskId)|
         == |Ones(results, taskId)| + if r.taskId == taskId && r.reward == 1.0 then 1 else 0
  {
    var n := |results|;
    var more := if r.taskId == taskId && r.reward == 1.0 then {n} else {};
    forall i: nat ensures i in Ones(results + [r], taskId) <==> i in Ones(results, taskId) + more {
      if i < n { assert (results + [r])[i] == results[i]; }
    }
    assert Ones(results + [r], taskId) == Ones(results, taskId) + more && n !in Ones(results, taskId);
  }

  lemma {:induction false} SuccessesAreRewards(results: seq<RunResult>)
    requires ZeroOrOne(results)
    ensures Successes(results) as real == SumRewards(results)
  {
    if results != [] {
      var n := |results| - 1;
      SuccessesAreRewards(results[..n]);
      assert results == results[..n] + [results[n]];
      CountsExactly(results[..n], results[n], 0);
    }
  }

  /** And with one result per task and trial pass^1 is the reported average. */
  lemma PassOneIsAverage(results: seq<RunResult>, order: seq<int>)
    requires results != [] && ZeroOrOne(results) && Lists(order, results) && |results| == |order| * |Trials(results)|
    ensures order != [] && |Trials(results)| >= 1
    ensures PassHat(results, order, 1) == SumRewards(results) / |results| as real
  {
    PassOneIsSuccessRate(results, order);
    SuccessesAreRewards(results);
  }

  /** The sum of the rewards, one by one. */
  lemma SumRewardsAppend(results: seq<RunResult>, r: RunResult)
    ensures SumRewards([]) == 0.0 && SumRewards(results + [r]) == SumRewards(results) + r.reward
  {
    assert (results + [r])[..|results|] == results;
  }

  /** Two results for one trial, both successful: pass^1 comes out as 2. */
  lemma RepeatedTrial()
    ensures var twice := [RunResult(7, 0, 1.0), RunResult(7, 0, 1.0)];
            |Trials(twice)| == 1 && Lists([7], twice) && PassHat(twice, [7], 1) == 2.0
  {
    var twice := [RunResult(7, 0, 1.0), RunResult(7, 0, 1.0)];
    assert Trials(twice) == {0} && TaskIds(twice) == {7} by {
      assert twice[0].trial == 0 && twice[0].taskId == 7;
    }
    assert twice[..1] == [RunResult(7, 0, 1.0)] && [7][..0] == [] && twice[..1][..0] == [];
    assert Count(twice[..1], 7) == 1;
    assert Count(twice, 7) == 2;
    CombOne(2);
    CombOne(1);
    assert SumTerms(twice, [7], 1, 1) == Term(2, 1, 1);
  }
}
