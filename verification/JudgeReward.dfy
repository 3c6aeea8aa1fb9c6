/** Densifying the rewards of failed rollouts with a judge: src/toolagent/training/llm_judge.py, in exact arithmetic. */
module JudgeReward {
  import opened Outcomes
  import Division

  /** An entry of tool_calls: an object with the name it carries itself, the name in its `function` entry ("" when absent)
      and everything else it says, or something that is not an object. */
  datatype ToolCall = ToolCall(name: string, functionName: string, arguments: string) | NoObject(text: string)

  datatype Message = Malformed | Assistant(text: string, calls: seq<ToolCall>) | Reply(content: string)

  datatype Step = Step(text: string, calls: seq<ToolCall>, observations: seq<string>)

  // ---------------------------------------------------------------- steps

  function Contents(observations: seq<string>): seq<Message> {
    if observations == [] then [] else [Reply(observations[0])] + Contents(observations[1..])
  }

  function Spoken(s: Step): seq<Message> { [Assistant(s.text, s.calls)] + Contents(s.observations) }

  function AllSpoken(steps: seq<Step>): seq<Message> {
    if steps == [] then [] else AllSpoken(steps[..|steps| - 1]) + Spoken(steps[|steps| - 1])
  }

  /** The well-formed messages from the first assistant turn on. */
  function FromFirstTurn(ms: seq<Message>): seq<Message> {
    if ms == [] then [] else
      var before, last := FromFirstTurn(ms[..|ms| - 1]), ms[|ms| - 1];
      if last.Assistant? || (last.Reply? && before != []) then before + [last] else before
  }

  /** A history without an assistant turn gives nothing. */
  lemma {:induction false} NoTurn(ms: seq<Message>)
    requires forall i :: 0 <= i < |ms| ==> !ms[i].Assistant?
    ensures FromFirstTurn(ms) == []
    decreases |ms|
  {
    if ms != [] { NoTurn(ms[..|ms| - 1]); }
  }

  /** Otherwise everything from the first assistant turn on stays, in order, if it is well formed; */
  lemma {:induction false} FromTurn(before: seq<Message>, turn: Message, after: seq<Message>)
    requires forall i :: 0 <= i < |before| ==> !before[i].Assistant?
    requires turn.Assistant? && forall i :: 0 <= i < |after| ==> !after[i].Malformed?
    ensures FromFirstTurn(before + [turn] + after) == [turn] + after
    decreases |after|
  {
    var ms := before + [turn] + after;
    if after == [] {
      assert ms[..|ms| - 1] == before;
      NoTurn(before);
    } else {
      assert ms[..|ms| - 1] == before + [turn] + after[..|after| - 1];
      FromTurn(before, turn, after[..|after| - 1]);
      assert after == after[..|after| - 1] + [after[|after| - 1]];
    }
  }

  /** and a malformed message is as good as none. */
  lemma {:induction false} MalformedIgnored(before: seq<Message>, after: seq<Message>)
    ensures FromFirstTurn(before + [Malformed] + after) == FromFirstTurn(before + after)
    decreases |after|
  {
    var ms, bare := before + [Malformed] + after, before + after;
    if after == [] {
      assert ms[..|ms| - 1] == before && bare == before;
    } else {
      assert ms[..|ms| - 1] == before + [Malformed] + after[..|after| - 1];
      assert bare[..|bare| - 1] == before + after[..|after| - 1];
      MalformedIgnored(before, after[..|after| - 1]);
    }
  }

  lemma {:induction false} ContentsAppend(observations: seq<string>, o: string)
    ensures Contents(observations + [o]) == Contents(observations) + [Reply(o)]
  {
    if observations == [] {
      assert [o][1..] == [] && observations + [o] == [o];
    } else {
      assert (observations + [o])[1..] == observations[1..] + [o];
      ContentsAppend(observations[1..], o);
    }
  }

  /** What the finished steps and the one being collected have taken up. */
  function Taken(steps: seq<Step>, current: Option<Step>): seq<Message> {
    AllSpoken(steps) + if current.Some? then Spoken(current.value) else []
  }

  lemma Finish(steps: seq<Step>, s: Step)
    ensures AllSpoken(steps + [s]) == Taken(steps, Some(s)) != []
  {
    assert (steps + [s])[..|steps|] == steps;
  }

  lemma TakeTurn(steps: seq<Step>, text: string, calls: seq<ToolCall>)
    ensures Taken(steps, Some(Step(text, calls, []))) == AllSpoken(steps) + [Assistant(text, calls)]
  {
  }

  lemma TakeReply(steps: seq<Step>, s: Step, content: string)
    ensures Taken(steps, Some(s.(observations := s.observations + [content]))) == Taken(steps, Some(s)) + [Reply(content)]
  {
    ContentsAppend(s.observations, content);
  }

  /** Splitting a history in steps loses nothing but what precedes the first assistant turn and malformed messages. */
  method ExtractSteps(messages: seq<Message>) returns (steps: seq<Step>)
    ensures AllSpoken(steps) == FromFirstTurn(messages)
  {
    hide Taken, AllSpoken;
    steps := [];
    var current: Option<Step> := None;
    NothingTaken();
    for i := 0 to |messages|
      invariant current.None? ==> steps == []
      invariant FromFirstTurn(messages[..i]) == Taken(steps, current)
    {
      assert messages[..i + 1][..i] == messages[..i];
      if current.Some? { Finish(steps, current.value); }
      match messages[i] {
        case Malformed =>
        case Assistant(text, calls) =>
          if current.Some? {
            steps := steps + [current.value];
          }
          current := Some(Step(text, calls, []));
          TakeTurn(steps, text, calls);
        case Reply(content) =>
          if current.Some? {
            TakeReply(steps, current.value, content);
            current := Some(current.value.(observations := current.value.observations + [content]));
          }
      }
    }
    assert messages[..|messages|] == messages;
    if current.Some? {
      Finish(steps, current.value);
      steps := steps + [current.value];
    }
  }

  lemma NothingTaken()
    ensures AllSpoken([]) == Taken([], None) == []
  {
  }

  // ---------------------------------------------------------------- key steps

  function NameOf(call: ToolCall): string {
    if call.NoObject? then "" else if call.name != "" then call.name else call.functionName
  }

  /** step_tool_names: the names that are there, in order. */
  function ToolNames(calls: seq<ToolCall>): (names: seq<string>)
    ensures forall t :: t in names <==> t != "" && exists i :: 0 <= i < |calls| && NameOf(calls[i]) == t
  {
    if calls == [] then [] else
      assert calls == calls[..|calls| - 1] + [calls[|calls| - 1]];
      var name := NameOf(calls[|calls| - 1]);
      ToolNames(calls[..|calls| - 1]) + if name == "" then [] else [name]
  }

  predicate Writes(s: Step, writeTools: set<string>) {
    exists t :: t in ToolNames(s.calls) && ("*" in writeTools || t in writeTools)
  }

  /** A step writes when one of its calls has the name of a write tool, its own name or, lacking one, that of its function entry;
      with "*" among the write tools any name will do. */
  lemma WritesExactly(s: Step, writeTools: set<string>)
    ensures Writes(s, writeTools) <==>
              exists i :: 0 <= i < |s.calls| && s.calls[i].ToolCall? && (s.calls[i].name != "" || s.calls[i].functionName != "")
                && ("*" in writeTools || s.calls[i].name in writeTools - {""}
                    || (s.calls[i].name == "" && s.calls[i].functionName in writeTools))
  {
    if Writes(s, writeTools) {
      var t :| t in ToolNames(s.calls) && ("*" in writeTools || t in writeTools);
      var i :| 0 <= i < |s.calls| && NameOf(s.calls[i]) == t;
    }
    forall i | 0 <= i < |s.calls| && s.calls[i].ToolCall? && (s.calls[i].name != "" || s.calls[i].functionName != "")
      ensures NameOf(s.calls[i]) in ToolNames(s.calls)
    {
    }
  }

  predicate Increasing(at: seq<nat>, bound: nat) {
    (forall i, j :: 0 <= i < j < |at| ==> at[i] < at[j]) && forall i :: 0 <= i < |at| ==> at[i] < bound
  }

  predicate Picks(steps: seq<Step>, at: seq<nat>, key: seq<Step>) {
    |at| == |key| && forall i :: 0 <= i < |at| ==> at[i] < |steps| && key[i] == steps[at[i]]
  }

  predicate WritesKept(steps: seq<Step>, writeTools: set<string>, n: nat, at: seq<nat>)
    requires n <= |steps|
  {
    forall k :: 0 <= k < n && Writes(steps[k], writeTools) ==> k in at
  }

  predicate BeforeKept(steps: seq<Step>, writeTools: set<string>, n: nat, key: seq<Step>)
    requires n <= |steps|
  {
    forall k :: 0 < k < n && Writes(steps[k], writeTools) ==> steps[k - 1] in key
  }

  predicate NoOthers(steps: seq<Step>, writeTools: set<string>, n: nat, at: seq<nat>)
    requires n <= |steps|
  {
    forall i :: 0 <= i < |at| ==> WriteOrBefore(steps, writeTools, n, at[i])
  }

  predicate WriteOrBefore(steps: seq<Step>, writeTools: set<string>, n: nat, k: nat)
    requires n <= |steps|
  {
    k < n && (Writes(steps[k], writeTools) || (k + 1 < n && Writes(steps[k + 1], writeTools)))
  }

  /** After `n` steps: every write is kept, the step before it is kept or equals a kept one, and nothing else is. */
  predicate Kept(steps: seq<Step>, writeTools: set<string>, n: nat, at: seq<nat>, key: seq<Step>)
    requires n <= |steps|
  {
    && Increasing(at, n) && Picks(steps, at, key)
    && WritesKept(steps, writeTools, n, at) && BeforeKept(steps, writeTools, n, key) && NoOthers(steps, writeTools, n, at)
  }

  /** The key steps in order and at most once each, or all steps when none writes. */
  method SelectKeySteps(steps: seq<Step>, writeTools: set<string>) returns (key: seq<Step>, ghost at: seq<nat>)
    ensures Increasing(at, |steps|) && Picks(steps, at, key)
    ensures (exists k :: 0 <= k < |steps| && Writes(steps[k], writeTools)) ==> Kept(steps, writeTools, |steps|, at, key)
    ensures (forall k :: 0 <= k < |steps| ==> !Writes(steps[k], writeTools)) ==> key == steps
    ensures key == [] <==> steps == []
  {
    hide Writes, WritesKept, BeforeKept, NoOthers, Increasing, Picks;
    key, at := [], [];
    NothingKept(steps, writeTools);
    for idx := 0 to |steps|
      invariant Kept(steps, writeTools, idx, at, key)
    {
      if Writes(steps[idx], writeTools) {
        KeepWrite(steps, writeTools, idx, at, key);
        if idx > 0 && steps[idx - 1] !in key { key, at := key + [steps[idx - 1]], at + [idx - 1]; }
        key, at := key + [steps[idx]], at + [idx];
      } else {
        KeepNothing(steps, writeTools, idx, at, key);
      }
    }
    NoneKept(steps, writeTools, at, key);
    if key == [] {
      key, at := steps, seq(|steps|, i => i);
      AllPicked(steps);
    }
  }

  lemma NothingKept(steps: seq<Step>, writeTools: set<string>)
    ensures Kept(steps, writeTools, 0, [], [])
  {
  }

  lemma AllPicked(steps: seq<Step>)
    ensures Increasing(seq(|steps|, i => i), |steps|) && Picks(steps, seq(|steps|, i => i), steps)
  {
  }

  lemma NoneKept(steps: seq<Step>, writeTools: set<string>, at: seq<nat>, key: seq<Step>)
    requires Kept(steps, writeTools, |steps|, at, key)
    ensures key == [] <==> forall k :: 0 <= k < |steps| ==> !Writes(steps[k], writeTools)
  {
    hide Writes;
    if key != [] { assert WriteOrBefore(steps, writeTools, |steps|, at[0]); }
  }

  lemma KeepNothing(steps: seq<Step>, writeTools: set<string>, idx: nat, at: seq<nat>, key: seq<Step>)
    requires idx < |steps| && Kept(steps, writeTools, idx, at, key) && !Writes(steps[idx], writeTools)
    ensures Kept(steps, writeTools, idx + 1, at, key)
  {
    hide Writes;
    forall i | 0 <= i < |at| ensures WriteOrBefore(steps, writeTools, idx + 1, at[i]) {
      assert WriteOrBefore(steps, writeTools, idx, at[i]);
    }
  }

  lemma KeepWrite(steps: seq<Step>, writeTools: set<string>, idx: nat, at: seq<nat>, key: seq<Step>)
    requires idx < |steps| && Kept(steps, writeTools, idx, at, key) && Writes(steps[idx], writeTools)
    ensures idx > 0 && steps[idx - 1] !in key ==>
      Kept(steps, writeTools, idx + 1, at + [idx - 1] + [idx], key + [steps[idx - 1]] + [steps[idx]])
    ensures !(idx > 0 && steps[idx - 1] !in key) ==> Kept(steps, writeTools, idx + 1, at + [idx], key + [steps[idx]])
  {
    hide Writes, WritesKept, BeforeKept, NoOthers;
    if idx > 0 && steps[idx - 1] !in key {
      NotYetKept(steps, at, key, idx);
      ExtendAt(steps, writeTools, idx, at, [idx - 1] + [idx]);
      ExtendKey(steps, writeTools, idx, key, [steps[idx - 1]] + [steps[idx]]);
      assert at + ([idx - 1] + [idx]) == at + [idx - 1] + [idx];
      assert key + ([steps[idx - 1]] + [steps[idx]]) == key + [steps[idx - 1]] + [steps[idx]];
    } else {
      ExtendAt(steps, writeTools, idx, at, [idx]);
      ExtendKey(steps, writeTools, idx, key, [steps[idx]]);
    }
  }

  lemma ExtendAt(steps: seq<Step>, writeTools: set<string>, idx: nat, at: seq<nat>, more: seq<nat>)
    requires idx < |steps| && WritesKept(steps, writeTools, idx, at) && NoOthers(steps, writeTools, idx, at)
    requires Writes(steps[idx], writeTools) && idx in more && forall k :: k in more ==> k == idx || k + 1 == idx
    ensures WritesKept(steps, writeTools, idx + 1, at + more) && NoOthers(steps, writeTools, idx + 1, at + more)
  {
    hide Writes;
    var all := at + more;
    forall i | 0 <= i < |all| ensures WriteOrBefore(steps, writeTools, idx + 1, all[i]) {
      if i < |at| {
        assert all[i] == at[i] && WriteOrBefore(steps, writeTools, idx, at[i]);
      } else {
        assert all[i] == more[i - |at|] && more[i - |at|] in more;
      }
    }
    assert idx in all;
    forall k | 0 <= k < idx && Writes(steps[k], writeTools) ensures k in all { assert k in at; }
  }

  lemma ExtendKey(steps: seq<Step>, writeTools: set<string>, idx: nat, key: seq<Step>, more: seq<Step>)
    requires idx < |steps| && BeforeKept(steps, writeTools, idx, key)
    requires idx > 0 ==> steps[idx - 1] in key + more
    ensures BeforeKept(steps, writeTools, idx + 1, key + more)
  {
    hide Writes;
    forall k | 0 < k < idx && Writes(steps[k], writeTools) ensures steps[k - 1] in key + more { assert steps[k - 1] in key; }
  }

  lemma NotYetKept(steps: seq<Step>, at: seq<nat>, key: seq<Step>, idx: nat)
    requires 0 < idx <= |steps| && Increasing(at, idx) && Picks(steps, at, key) && steps[idx - 1] !in key
    ensures Increasing(at, idx - 1)
  {
    forall i | 0 <= i < |at| ensures at[i] < idx - 1 { assert key[i] in key; }
  }

  // ---------------------------------------------------------------- scores

  predicate InUnit(x: real) { 0.0 <= x <= 1.0 }

  predicate AllInUnit(xs: seq<real>) { forall i :: 0 <= i < |xs| ==> InUnit(xs[i]) }

  function Clamp(x: real): (c: real)
    ensures InUnit(c) && (InUnit(x) ==> c == x)
  {
    if x < 0.0 then 0.0 else if x > 1.0 then 1.0 else x
  }

  function Total(xs: seq<real>): real { if xs == [] then 0.0 else Total(xs[..|xs| - 1]) + xs[|xs| - 1] }

  /** Clamping keeps the order; being the identity on [0, 1] it takes what is below to 0 and what is above to 1. */
  lemma ClampMonotone(x: real, y: real)
    requires x <= y
    ensures Clamp(x) <= Clamp(y)
    ensures (x <= 0.0 ==> Clamp(x) == 0.0) && (y >= 1.0 ==> Clamp(y) == 1.0)
  {
  }

  lemma {:induction false} TotalAppend(a: seq<real>, b: seq<real>)
    ensures Total(a + b) == Total(a) + Total(b)
    decreases |b|
  {
    if b == [] {
      assert a + b == a;
    } else {
      assert (a + b)[..|a + b| - 1] == a + b[..|b| - 1];
      TotalAppend(a, b[..|b| - 1]);
    }
  }

  lemma {:induction false} TotalBounds(xs: seq<real>)
    requires AllInUnit(xs)
    ensures 0.0 <= Total(xs) <= |xs| as real
  {
    if xs != [] { TotalBounds(xs[..|xs| - 1]); }
  }

  function Mean(xs: seq<real>): real
    requires xs != []
  {
    Total(xs) / |xs| as real
  }

  /** The mean of one score is that score, and means join by weight. */
  lemma MeanJoins(a: seq<real>, b: seq<real>, x: real)
    requires a != [] && b != []
    ensures Mean([x]) == x
    ensures Mean(a + b) * (|a| + |b|) as real == Mean(a) * |a| as real + Mean(b) * |b| as real
  {
    TotalAppend(a, b);
    assert [x][..0] == [] && Total([x]) == Total([x][..0]) + x;
    Weighted(Total(a), |a|);
    Weighted(Total(b), |b|);
    Weighted(Total(a + b), |a + b|);
  }

  lemma Weighted(total: real, n: nat)
    requires n > 0
    ensures total / n as real * n as real == total
  {
  }

  lemma MeanInUnit(xs: seq<real>)
    requires xs != [] && AllInUnit(xs)
    ensures InUnit(Mean(xs))
  {
    TotalBounds(xs);
    Division.Ratio(Total(xs), |xs| as real);
  }

  /** What identifies a step in the cache: its task, a prefix of its text and its calls with their arguments, not its
      observations. */
  datatype CacheKey = CacheKey(task: string, text: string, calls: seq<ToolCall>)

  function KeyOf(task: string, s: Step, maxChars: nat): CacheKey {
    CacheKey(task, if |s.text| <= maxChars then s.text else s.text[..maxChars], s.calls)
  }

  /** Two steps have one key exactly when task and calls are the same and the texts are, or agree up to the limit. */
  lemma SameKeyExactly(task: string, s: Step, task2: string, s2: Step, maxChars: nat)
    ensures KeyOf(task, s, maxChars) == KeyOf(task2, s2, maxChars) <==>
              && task == task2 && s.calls == s2.calls
              && (s.text == s2.text || (|s.text| >= maxChars && |s2.text| >= maxChars
                                        && forall i :: 0 <= i < maxChars ==> s.text[i] == s2.text[i]))
  {
    if |s.text| >= maxChars && |s2.text| >= maxChars {
      assert s.text[..maxChars] == s2.text[..maxChars] <==> forall i :: 0 <= i < maxChars ==> s.text[i] == s2.text[i];
      assert |s.text| == maxChars ==> s.text[..maxChars] == s.text;
      assert |s2.text| == maxChars ==> s2.text[..maxChars] == s2.text;
    }
  }

  type Cache = map<CacheKey, real>

  ghost predicate CacheInUnit(cache: Cache) { forall k :: k in cache ==> InUnit(cache[k]) }

  /** The entry of every step's key is its score. */
  predicate Scored(task: string, steps: seq<Step>, maxChars: nat, scores: seq<real>, cache: Cache) {
    |scores| <= |steps| && forall i :: 0 <= i < |scores| ==> ScoredAt(KeyOf(task, steps[i], maxChars), scores[i], cache)
  }

  predicate ScoredAt(key: CacheKey, score: real, cache: Cache) { key in cache && cache[key] == score }

  predicate Extends(cache: Cache, more: Cache) { forall k :: k in cache ==> k in more && more[k] == cache[k] }

  /** The average of the judge's next answers. */
  method Ensemble(answers: nat -> real, asked: nat, samples: nat) returns (value: real)
    requires samples > 0
    ensures InUnit(value)
  {
    var drawn: seq<real> := [];
    while |drawn| < samples
      invariant |drawn| <= samples && AllInUnit(drawn)
    {
      drawn := drawn + [Clamp(answers(asked + |drawn|))];
    }
    MeanInUnit(drawn);
    value := Mean(drawn);
  }

  /** After `n` steps: the scores are the cache's, no old entry has changed, and the new ones are the steps' keys. */
  ghost predicate Progress(task: string, steps: seq<Step>, maxChars: nat, n: nat, cache: Cache, scores: seq<real>, now: Cache)
    requires n <= |steps|
  {
    && |scores| == n && Scored(task, steps, maxChars, scores, now)
    && Extends(cache, now) && CacheInUnit(now) && AllInUnit(scores)
    && now.Keys == cache.Keys + set i | 0 <= i < n :: KeyOf(task, steps[i], maxChars)
  }

  /** How often the judge is called while one cache grows into another. */
  function Asked(samples: nat, cache: Cache, now: Cache): int { samples * (|now| - |cache|) }

  /** score_steps, on a cache that nobody else writes to in the meantime. `answers(n)` is the n-th reply of the judge, already
      parsed; a failed call counts as 0. Whatever the judge answers, a step's score is its key's entry in the final cache, no entry
      ever changes, and only new keys are asked for. */
  method ScoreSteps(task: string, steps: seq<Step>, maxChars: nat, samples: nat, answers: nat -> real, cache: Cache, asked: nat)
    returns (scores: seq<real>, final: Cache, asked': nat)
    requires samples > 0 && CacheInUnit(cache)
    ensures Progress(task, steps, maxChars, |steps|, cache, scores, final)
    ensures asked' == asked + Asked(samples, cache, final)
  {
    hide Progress, Asked;
    scores, final, asked' := [], cache, asked;
    NoProgress(task, steps, maxChars, cache);
    NothingAsked(samples, cache);
    for i := 0 to |steps|
      invariant Progress(task, steps, maxChars, i, cache, scores, final)
      invariant asked' == asked + Asked(samples, cache, final)
    {
      var key := KeyOf(task, steps[i], maxChars);
      if key in final {
        Hit(task, steps, maxChars, i, cache, scores, final);
        scores := scores + [final[key]];
      } else {
        var value := Ensemble(answers, asked', samples);
        Miss(task, steps, maxChars, i, cache, scores, final, value);
        AskedOnce(samples, cache, final, key, value);
        asked' := asked' + samples;
        final := final[key := value];
        scores := scores + [value];
      }
    }
  }

  lemma NothingAsked(samples: nat, cache: Cache)
    ensures Asked(samples, cache, cache) == 0
  {
  }

  lemma AskedOnce(samples: nat, cache: Cache, now: Cache, key: CacheKey, value: real)
    requires key !in now
    ensures Asked(samples, cache, now[key := value]) == Asked(samples, cache, now) + samples
  {
    Division.Distribute(samples, |now| - |cache|);
  }

  lemma NoProgress(task: string, steps: seq<Step>, maxChars: nat, cache: Cache)
    requires CacheInUnit(cache)
    ensures Progress(task, steps, maxChars, 0, cache, [], cache)
  {
  }

  lemma Hit(task: string, steps: seq<Step>, maxChars: nat, n: nat, cache: Cache, scores: seq<real>, now: Cache)
    requires n < |steps| && Progress(task, steps, maxChars, n, cache, scores, now) && KeyOf(task, steps[n], maxChars) in now
    ensures Progress(task, steps, maxChars, n + 1, cache, scores + [now[KeyOf(task, steps[n], maxChars)]], now)
  {
    hide KeyOf;
    var key := KeyOf(task, steps[n], maxChars);
    ScoreOneMore(task, steps, maxChars, scores, now, now, now[key]);
    KeysOneMore(task, steps, maxChars, n);
  }

  lemma Miss(task: string, steps: seq<Step>, maxChars: nat, n: nat, cache: Cache, scores: seq<real>, now: Cache, value: real)
    requires n < |steps| && Progress(task, steps, maxChars, n, cache, scores, now) && InUnit(value)
    requires KeyOf(task, steps[n], maxChars) !in now
    ensures Progress(task, steps, maxChars, n + 1, cache, scores + [value], now[KeyOf(task, steps[n], maxChars) := value])
  {
    hide KeyOf;
    var key := KeyOf(task, steps[n], maxChars);
    ScoreOneMore(task, steps, maxChars, scores, now, now[key := value], value);
    KeysOneMore(task, steps, maxChars, n);
  }

  lemma KeysOneMore(task: string, steps: seq<Step>, maxChars: nat, n: nat)
    requires n < |steps|
    ensures (set i | 0 <= i < n + 1 :: KeyOf(task, steps[i], maxChars))
         == (set i | 0 <= i < n :: KeyOf(task, steps[i], maxChars)) + {KeyOf(task, steps[n], maxChars)}
  {
  }

  lemma ScoreOneMore(task: string, steps: seq<Step>, maxChars: nat, scores: seq<real>, now: Cache, more: Cache, value: real)
    requires Scored(task, steps, maxChars, scores, now) && Extends(now, more)
    requires |scores| < |steps| && ScoredAt(KeyOf(task, steps[|scores|], maxChars), value, more)
    ensures Scored(task, steps, maxChars, scores + [value], more)
  {
    hide KeyOf;
    forall i | 0 <= i <= |scores| ensures ScoredAt(KeyOf(task, steps[i], maxChars), (scores + [value])[i], more) {
      if i < |scores| { assert ScoredAt(KeyOf(task, steps[i], maxChars), scores[i], now); }
    }
  }

  // ---------------------------------------------------------------- rewards

  function Clamped(xs: seq<real>): (c: seq<real>)
    ensures |c| == |xs| && AllInUnit(c)
  {
    seq(|xs|, i requires 0 <= i < |xs| => Clamp(xs[i]))
  }

  function BlendReward(outcome: real, scores: seq<real>, alpha: real): real {
    if outcome >= 1.0 then 1.0 else if scores == [] then 0.0 else alpha * Mean(Clamped(scores))
  }

  /** A failure never gets more than alpha, a success always exactly 1, whatever the scores. */
  lemma BlendAnchored(outcome: real, scores: seq<real>, alpha: real)
    requires 0.0 <= alpha < 1.0
    ensures outcome >= 1.0 ==> BlendReward(outcome, scores, alpha) == 1.0
    ensures outcome < 1.0 ==> 0.0 <= BlendReward(outcome, scores, alpha) <= alpha
  {
    if outcome < 1.0 && scores != [] {
      MeanInUnit(Clamped(scores));
      Shrink(alpha, Mean(Clamped(scores)));
    }
  }

  /** Without scores a failure gets 0, with scores alpha times the mean of the clamped ones, which are the scores themselves when
      they lie in [0, 1]. */
  lemma BlendIsMean(outcome: real, scores: seq<real>, alpha: real)
    requires outcome < 1.0
    ensures scores == [] ==> BlendReward(outcome, scores, alpha) == 0.0
    ensures scores != [] && AllInUnit(scores) ==> BlendReward(outcome, scores, alpha) == alpha * Mean(scores)
    ensures BlendReward(outcome, scores, alpha) == BlendReward(outcome, Clamped(scores), alpha)
    ensures forall i :: 0 <= i < |scores| ==> Clamped(scores)[i] == Clamp(scores[i])
  {
    if AllInUnit(scores) { assert Clamped(scores) == scores; }
    assert Clamped(Clamped(scores)) == Clamped(scores);
  }

  lemma Shrink(alpha: real, x: real)
    requires 0.0 <= alpha && InUnit(x)
    ensures 0.0 <= alpha * x <= alpha
  {
    assert alpha * (1.0 - x) == alpha - alpha * x;
  }

  function LastTrue(bs: seq<bool>): (r: Option<nat>)
    ensures r.Some? ==> r.value < |bs| && bs[r.value] && forall i :: r.value < i < |bs| ==> !bs[i]
    ensures r.None? ==> forall i :: 0 <= i < |bs| ==> !bs[i]
  {
    if bs == [] then None
    else if bs[|bs| - 1] then Some(|bs| - 1)
    else LastTrue(bs[..|bs| - 1])
  }

  function NonZero(row: seq<real>): (bs: seq<bool>)
    ensures |bs| == |row| && forall i :: 0 <= i < |row| ==> bs[i] == (row[i] != 0.0)
  {
    seq(|row|, i requires 0 <= i < |row| => row[i] != 0.0)
  }

  /** The last response token: the last true of the mask, or the last nonzero entry where there is no mask; failing that, the
      end of the row. */
  ghost predicate IsLast(row: seq<real>, mask: Option<seq<bool>>, idx: nat)
    requires mask.Some? ==> |mask.value| == |row|
  {
    && idx < |row|
    && (mask.Some? && (exists i :: 0 <= i < |row| && mask.value[i]) ==>
          mask.value[idx] && forall j :: idx < j < |row| ==> !mask.value[j])
    && (mask.None? && (exists i :: 0 <= i < |row| && row[i] != 0.0) ==>
          row[idx] != 0.0 && forall j :: idx < j < |row| ==> row[j] == 0.0)
    && (mask.Some? && (forall i :: 0 <= i < |row| ==> !mask.value[i]) ==> idx == |row| - 1)
    && (mask.None? && (forall i :: 0 <= i < |row| ==> row[i] == 0.0) ==> idx == |row| - 1)
  }

  /** There is one such place. */
  lemma OneLast(row: seq<real>, mask: Option<seq<bool>>, idx: nat)
    requires row != [] && (mask.Some? ==> |mask.value| == |row|)
    ensures IsLast(row, mask, idx) <==> idx == RewardIndex(row, mask)
  {
    if IsLast(row, mask, idx) {
      NotBefore(row, mask, idx, RewardIndex(row, mask));
      NotBefore(row, mask, RewardIndex(row, mask), idx);
    }
  }

  lemma NotBefore(row: seq<real>, mask: Option<seq<bool>>, a: nat, b: nat)
    requires mask.Some? ==> |mask.value| == |row|
    requires IsLast(row, mask, a) && IsLast(row, mask, b)
    ensures a <= b
  {
  }

  /** Where the reward of a row is: the last response token, or else the last nonzero entry, or else the end. */
  function RewardIndex(row: seq<real>, mask: Option<seq<bool>>): (idx: nat)
    requires row != [] && (mask.Some? ==> |mask.value| == |row|)
    ensures IsLast(row, mask, idx)
  {
    match LastTrue(if mask.Some? then mask.value else NonZero(row))
    case Some(i) => i
    case None => |row| - 1
  }

  function Dense(outcome: real, scores: Option<seq<real>>, alpha: real): real {
    if scores.Some? then BlendReward(outcome, scores.value, alpha) else outcome
  }

  function NewRow(row: seq<real>, mask: Option<seq<bool>>, scores: Option<seq<real>>, alpha: real): seq<real>
    requires row != [] && (mask.Some? ==> |mask.value| == |row|)
  {
    if Total(row) >= 1.0 then row else row[RewardIndex(row, mask) := Dense(Total(row), scores, alpha)]
  }

  function Row(rm: array2<real>, i: nat): (row: seq<real>)
    requires i < rm.Length0
    reads rm
    ensures |row| == rm.Length1 && forall j :: 0 <= j < rm.Length1 ==> row[j] == rm[i, j]
  {
    seq(rm.Length1, j requires 0 <= j < rm.Length1 reads rm => rm[i, j])
  }

  function MaskRow(mask: Option<seq<seq<bool>>>, i: nat): Option<seq<bool>>
    requires mask.Some? ==> i < |mask.value|
  {
    if mask.Some? then Some(mask.value[i]) else None
  }

  function ScoresAt(judged: map<nat, seq<real>>, i: nat): Option<seq<real>> { if i in judged then Some(judged[i]) else None }

  /** The writing pass of densify_rewards, in place on the reward matrix. */
  method DensifyRewards(rm: array2<real>, mask: Option<seq<seq<bool>>>, judged: map<nat, seq<real>>, alpha: real)
    requires rm.Length1 > 0
    requires mask.Some? ==> |mask.value| == rm.Length0 && forall i :: 0 <= i < rm.Length0 ==> |mask.value[i]| == rm.Length1
    modifies rm
    ensures forall i :: 0 <= i < rm.Length0 ==>
              Row(rm, i) == NewRow(old(Row(rm, i)), MaskRow(mask, i), ScoresAt(judged, i), alpha)
    ensures forall i, j :: 0 <= i < rm.Length0 && 0 <= j < rm.Length1 && Total(old(Row(rm, i))) >= 1.0 ==> rm[i, j] == old(rm[i, j])
    ensures forall i, j :: 0 <= i < rm.Length0 && 0 <= j < rm.Length1 && Total(old(Row(rm, i))) < 1.0 ==>
              rm[i, j] == if !IsLast(old(Row(rm, i)), if mask.None? then None else Some(mask.value[i]), j) then old(rm[i, j])
                          else if i in judged then BlendReward(Total(old(Row(rm, i))), judged[i], alpha)
                          else Total(old(Row(rm, i)))
  {
    hide Total, BlendReward, IsLast;
    ghost var before := seq(rm.Length0, i requires 0 <= i < rm.Length0 reads rm => Row(rm, i));
    for i: nat := 0 to rm.Length0
      invariant forall k :: 0 <= k < i ==> Row(rm, k) == NewRow(before[k], MaskRow(mask, k), ScoresAt(judged, k), alpha)
      invariant forall k :: i <= k < rm.Length0 ==> Row(rm, k) == before[k]
    {
      var row := Row(rm, i);
      var outcome := Total(row);
      if outcome >= 1.0 { continue; }
      var dense := outcome;
      if i in judged { dense := BlendReward(outcome, judged[i], alpha); }
      var idx := RewardIndex(row, MaskRow(mask, i));
      label L:
      rm[i, idx] := dense;
      forall k | 0 <= k < rm.Length0 && k != i ensures Row(rm, k) == old@L(Row(rm, k)) {}
      assert Row(rm, i) == row[idx := dense];
    }
    forall i: nat, j: nat | i < rm.Length0 && j < rm.Length1
      ensures rm[i, j] == NewEntry(before[i], MaskRow(mask, i), ScoresAt(judged, i), alpha, j)
      ensures before[i] == old(Row(rm, i)) && before[i][j] == old(rm[i, j])
    {
      assert rm[i, j] == Row(rm, i)[j];
      NewRowAt(before[i], MaskRow(mask, i), ScoresAt(judged, i), alpha, j);
    }
  }

  ghost function NewEntry(row: seq<real>, mask: Option<seq<bool>>, scores: Option<seq<real>>, alpha: real, j: nat): real
    requires j < |row| && (mask.Some? ==> |mask.value| == |row|)
  {
    if Total(row) >= 1.0 || !IsLast(row, mask, j) then row[j]
    else if scores.Some? then BlendReward(Total(row), scores.value, alpha) else Total(row)
  }

  lemma NewRowAt(row: seq<real>, mask: Option<seq<bool>>, scores: Option<seq<real>>, alpha: real, j: nat)
    requires j < |row| && (mask.Some? ==> |mask.value| == |row|)
    ensures NewRow(row, mask, scores, alpha)[j] == NewEntry(row, mask, scores, alpha, j)
  {
    hide Total, BlendReward, IsLast, RewardIndex;
    OneLast(row, mask, j);
  }

  lemma {:induction false} TotalUpdate(row: seq<real>, idx: nat, x: real)
    requires idx < |row|
    ensures Total(row[idx := x]) == Total(row) - row[idx] + x
  {
    var n := |row| - 1;
    if idx == n {
      assert row[idx := x][..n] == row[..n];
    } else {
      assert row[idx := x][..n] == row[..n][idx := x];
      TotalUpdate(row[..n], idx, x);
    }
  }

  /** Successes keep their row. A failure's new total is its dense reward exactly when its old row was zero in total away from
      the reward index. */
  lemma NewTotal(row: seq<real>, mask: Option<seq<bool>>, scores: Option<seq<real>>, alpha: real)
    requires row != [] && (mask.Some? ==> |mask.value| == |row|)
    ensures Total(row) >= 1.0 ==> NewRow(row, mask, scores, alpha) == row
    ensures Total(row) < 1.0 ==>
      (Total(NewRow(row, mask, scores, alpha)) == Dense(Total(row), scores, alpha) <==> Total(row) == row[RewardIndex(row, mask)])
  {
    TotalUpdate(row, RewardIndex(row, mask), Dense(Total(row), scores, alpha));
  }

  /** Nothing away from the last response token. */
  ghost predicate Concentrated(row: seq<real>, mask: Option<seq<bool>>)
    requires row != [] && (mask.Some? ==> |mask.value| == |row|)
  {
    forall j :: 0 <= j < |row| && !IsLast(row, mask, j) ==> row[j] == 0.0
  }

  lemma {:induction false} TotalOfOne(row: seq<real>, idx: nat)
    requires idx < |row| && forall j :: 0 <= j < |row| && j != idx ==> row[j] == 0.0
    ensures Total(row) == row[idx]
  {
    var n := |row| - 1;
    if idx == n { TotalOfZeros(row[..n]); } else { TotalOfOne(row[..n], idx); }
  }

  lemma {:induction false} TotalOfZeros(row: seq<real>)
    requires forall j :: 0 <= j < |row| ==> row[j] == 0.0
    ensures Total(row) == 0.0
  {
    if row != [] { TotalOfZeros(row[..|row| - 1]); }
  }

  /** Outcome anchoring: for every alpha in [0, 1) and any judge answers, a judged failure ends in [0, alpha], strictly below
      every success, an unjudged failure keeps its total, and a success keeps its row. */
  lemma OutcomeAnchored(row: seq<real>, mask: Option<seq<bool>>, scores: Option<seq<real>>, alpha: real,
                        other: seq<real>, otherMask: Option<seq<bool>>, otherScores: Option<seq<real>>)
    requires row != [] && (mask.Some? ==> |mask.value| == |row|)
    requires other != [] && (otherMask.Some? ==> |otherMask.value| == |other|)
    requires 0.0 <= alpha < 1.0 && Total(row) < 1.0 && Concentrated(row, mask) && Total(other) >= 1.0
    ensures scores.None? ==> Total(NewRow(row, mask, scores, alpha)) == Total(row)
    ensures scores.Some? ==> 0.0 <= Total(NewRow(row, mask, scores, alpha)) <= alpha
    ensures Total(NewRow(row, mask, scores, alpha)) < Total(NewRow(other, otherMask, otherScores, alpha))
    ensures NewRow(other, otherMask, otherScores, alpha) == other
  {
    forall j: nat | j < |row| && j != RewardIndex(row, mask) ensures row[j] == 0.0 { OneLast(row, mask, j); }
    TotalOfOne(row, RewardIndex(row, mask));
    NewTotal(row, mask, scores, alpha);
    if scores.Some? { BlendAnchored(Total(row), scores.value, alpha); }
  }
}
