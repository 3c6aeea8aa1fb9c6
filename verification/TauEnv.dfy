/** The tau-bench environment (tau_bench/envs/base.py) and the rollout's way of calling its tools
    (src/toolagent/verl_integration/tools.py), which must not let the oracle replay show in the episode. */
module TauEnv {
  import opened Outcomes

  type Args = map<string, string>

  datatype Action = Respond(content: string) | Call(tool: string, args: Args)

  /** What invoking a tool does: the data it leaves, and the value it returned or the exception it raised. */
  datatype Invocation<D> = Returned(data: D, text: string) | Raised(data: D, message: string)

  datatype Task = Task(actions: seq<Action>, outputs: seq<string>)

  /** What never changes during an episode. `reply` is the user simulator, on all that was said to it. */
  datatype World<!D> = World(load: D, tools: map<string, (Args, D) -> Invocation<D>>, terminate: set<string>,
                             reply: seq<string> -> string, hash: D -> string)

  datatype State<D> = State(data: D, actions: seq<Action>, task: Task, heard: seq<string>)

  datatype Response = Response(observation: string, reward: real, done: bool)

  const STOP := "###STOP###"

  // ---------------------------------------------------------------- strings

  predicate OccursAt(s: string, part: string, i: nat) { i + |part| <= |s| && s[i..i + |part|] == part }

  predicate Contains(s: string, part: string) { exists i: nat :: i <= |s| && OccursAt(s, part, i) }

  function LowerChar(c: char): char { if 'A' <= c <= 'Z' then c - 'A' + 'a' else c }

  function Lower(s: string): (l: string)
    ensures |l| == |s| && forall i :: 0 <= i < |s| ==> l[i] == LowerChar(s[i])
  {
    seq(|s|, i requires 0 <= i < |s| => LowerChar(s[i]))
  }

  function NoCommas(s: string): (t: string)
    ensures ',' !in t
  {
    if s == "" then "" else if s[0] == ',' then NoCommas(s[1..]) else [s[0]] + NoCommas(s[1..])
  }

  /** The test that counts a required output as said in one response. */
  predicate Said(output: string, content: string) { Contains(NoCommas(Lower(content)), Lower(output)) }

  // ---------------------------------------------------------------- tools

  /** Running a tool, as step does it: exceptions become observations, unknown names leave the data alone. */
  function RunTool<D>(w: World<D>, a: Action, d: D): (D, string)
    requires a.Call?
  {
    if a.tool in w.tools then
      match w.tools[a.tool](a.args, d)
      case Returned(e, text) => (e, text)
      case Raised(e, message) => (e, "Error: " + message)
    else (d, "Unknown action " + a.tool)
  }

  predicate Terminal<D>(w: World<D>, a: Action) { a.Call? && a.tool in w.terminate }

  predicate ToolsOnly(actions: seq<Action>) { forall i :: 0 <= i < |actions| ==> actions[i].Call? }

  /** What an action does to the data; a response to the user does nothing. */
  function Effect<D>(w: World<D>, a: Action, d: D): D { if a.Call? then RunTool(w, a, d).0 else d }

  function Effects<D>(w: World<D>, actions: seq<Action>, d: D): D {
    if actions == [] then d else Effects(w, actions[1..], Effect(w, actions[0], d))
  }

  /** The ground-truth actions that the reward replays. */
  function Replayed<D>(w: World<D>, actions: seq<Action>): (r: seq<Action>)
    ensures ToolsOnly(actions) ==> ToolsOnly(r)
  {
    if actions == [] then []
    else if Terminal(w, actions[0]) then Replayed(w, actions[1..])
    else [actions[0]] + Replayed(w, actions[1..])
  }

  /** Every action but the terminal calls is replayed, in order and as often as it is listed. */
  lemma {:induction false} ReplayedExactly<D>(w: World<D>, actions: seq<Action>, a: Action)
    ensures Replayed(w, []) == []
    ensures Replayed(w, actions + [a]) == Replayed(w, actions) + if a.Call? && a.tool in w.terminate then [] else [a]
  {
    if actions == [] {
      assert [a][1..] == [] && actions + [a] == [a];
    } else {
      assert (actions + [a])[1..] == actions[1..] + [a];
      ReplayedExactly(w, actions[1..], a);
    }
  }

  /** The ground truth calls no tool that ends the episode. */
  predicate NeverEnds<D>(w: World<D>, actions: seq<Action>) {
    forall i :: 0 <= i < |actions| ==> actions[i].Call? && actions[i].tool !in w.terminate
  }

  lemma {:induction false} ReplaysAll<D>(w: World<D>, actions: seq<Action>)
    requires NeverEnds(w, actions)
    ensures Replayed(w, actions) == actions
  {
    if actions != [] { ReplaysAll(w, actions[1..]); }
  }

  // ---------------------------------------------------------------- reward

  ghost predicate SaidIn(output: string, actions: seq<Action>) {
    exists i :: 0 <= i < |actions| && actions[i].Respond? && Said(output, actions[i].content)
  }

  ghost predicate AllSaid(outputs: seq<string>, actions: seq<Action>) {
    forall o :: 0 <= o < |outputs| ==> SaidIn(outputs[o], actions)
  }

  lemma CallsSayNothing(outputs: seq<string>, actions: seq<Action>, calls: seq<Action>)
    requires ToolsOnly(calls)
    ensures AllSaid(outputs, actions + calls) <==> AllSaid(outputs, actions)
  {
    forall o | 0 <= o < |outputs| ensures SaidIn(outputs[o], actions + calls) <==> SaidIn(outputs[o], actions) {
      if SaidIn(outputs[o], actions) {
        var i :| 0 <= i < |actions| && actions[i].Respond? && Said(outputs[o], actions[i].content);
        assert (actions + calls)[i] == actions[i];
      }
    }
  }

  /** The reward of an episode that ended with `data` after `actions`. */
  ghost function RewardOf<D>(w: World<D>, task: Task, data: D, actions: seq<Action>): real
    requires ToolsOnly(task.actions)
  {
    if w.hash(data) == w.hash(Effects(w, Replayed(w, task.actions), w.load)) && AllSaid(task.outputs, actions) then 1.0 else 0.0
  }

  // ---------------------------------------------------------------- what one step does

  /** step: when the episode ends, the data is the oracle's and the history holds the replayed actions. */
  ghost function StepState<D>(w: World<D>, s: State<D>, a: Action): State<D>
    requires ToolsOnly(s.task.actions)
  {
    if StepResponse(w, s, a).done then
      State(Effects(w, Replayed(w, s.task.actions), w.load), s.actions + [a] + Replayed(w, s.task.actions), s.task,
            Hears(s.heard, a))
    else State(Effect(w, a, s.data), s.actions + [a], s.task, Hears(s.heard, a))
  }

  ghost function StepResponse<D>(w: World<D>, s: State<D>, a: Action): Response
    requires ToolsOnly(s.task.actions)
  {
    var observation := if a.Respond? then w.reply(s.heard + [a.content]) else RunTool(w, a, s.data).1;
    var done := if a.Respond? then Contains(observation, STOP) else Terminal(w, a) && a.tool in w.tools;
    Response(observation, if done then RewardOf(w, s.task, Effect(w, a, s.data), s.actions + [a]) else 0.0, done)
  }

  /** execute_tau_tool_action: a terminal tool is run and rewarded, but data and history stay the episode's own. */
  ghost function ExecState<D>(w: World<D>, s: State<D>, a: Action): State<D>
    requires ToolsOnly(s.task.actions)
  {
    if Terminal(w, a) then State(Effect(w, a, s.data), s.actions + [a], s.task, s.heard) else StepState(w, s, a)
  }

  ghost function ExecResponse<D>(w: World<D>, s: State<D>, a: Action): Response
    requires ToolsOnly(s.task.actions)
  {
    if Terminal(w, a) then
      Response(if a.tool in w.tools then RunTool(w, a, s.data).1 else "Error: '" + a.tool + "'",
               RewardOf(w, s.task, Effect(w, a, s.data), s.actions + [a]), true)
    else StepResponse(w, s, a)
  }

  // ---------------------------------------------------------------- the environment

  /** Every required output, looked for in every response. */
  method OutputsSaid(outputs: seq<string>, actions: seq<Action>) returns (all: bool)
    ensures all <==> AllSaid(outputs, actions)
  {
    all := true;
    for o := 0 to |outputs|
      invariant all <==> forall p :: 0 <= p < o ==> SaidIn(outputs[p], actions)
    {
      var found := false;
      for i := 0 to |actions|
        invariant !found
        invariant forall j :: 0 <= j < i ==> !(actions[j].Respond? && Said(outputs[o], actions[j].content))
      {
        if actions[i].Respond? && Said(outputs[o], actions[i].content) {
          found := true;
          break;
        }
      }
      assert found <==> SaidIn(outputs[o], actions);
      if !found { all := false; }
    }
  }

  class Env<D(==)> {
    const world: World<D>
    const tasks: seq<Task>
    var data: D
    var actions: seq<Action>
    var task: Task
    var heard: seq<string>

    ghost function Now(): State<D>
      reads this
    {
      State(data, actions, task, heard)
    }

    constructor (world: World<D>, tasks: seq<Task>, taskIndex: nat)
      requires taskIndex < |tasks|
      ensures this.world == world && this.tasks == tasks
      ensures Now() == State(world.load, [], tasks[taskIndex], [])
    {
      this.world, this.tasks := world, tasks;
      data, actions, task, heard := world.load, [], tasks[taskIndex], [];
    }

    method Reset(taskIndex: nat)
      requires taskIndex < |tasks|
      modifies this
      ensures Now() == State(world.load, [], tasks[taskIndex], [])
    {
      data := world.load;
      task := tasks[taskIndex];
      actions := [];
      heard := [];
    }

    method Step(a: Action) returns (r: Response)
      requires ToolsOnly(task.actions)
      modifies this
      ensures Now() == StepState(world, old(Now()), a)
      ensures r == StepResponse(world, old(Now()), a)
      decreases if a.Respond? || Terminal(world, a) then 3 else 0
    {
      actions := actions + [a];
      var observation, done := "", false;
      if a.Respond? {
        heard := heard + [a.content];
        observation := world.reply(heard);
        done := Contains(observation, STOP);
      } else if a.tool in world.tools {
        match world.tools[a.tool](a.args, data) {
          case Returned(e, text) => data, observation := e, text;
          case Raised(e, message) => data, observation := e, "Error: " + message;
        }
        if a.tool in world.terminate { done := true; }
      } else {
        observation := "Unknown action " + a.tool;
      }
      var reward := 0.0;
      if done { reward := CalculateReward(); }
      return Response(observation, reward, done);
    }

    method CalculateReward() returns (reward: real)
      requires ToolsOnly(task.actions)
      modifies this
      ensures task == old(task) && heard == old(heard)
      ensures reward == RewardOf(world, task, old(data), old(actions))
      ensures data == Effects(world, Replayed(world, task.actions), world.load)
      ensures actions == old(actions) + Replayed(world, task.actions)
      decreases 2
    {
      hide Effects, Replayed, AllSaid;
      var dataHash := world.hash(data);
      reward := 1.0;
      data := world.load;
      Replay();
      if dataHash != world.hash(data) { reward := 0.0; }
      NothingToSay(actions);
      if |task.outputs| > 0 {
        var said := OutputsSaid(task.outputs, actions);
        if !said { reward := 0.0; }
      }
      CallsSayNothing(task.outputs, old(actions), Replayed(world, task.actions));
    }

    /** execute_tau_tool_action. */
    method Execute(a: Action) returns (r: Response, after: D)
      requires ToolsOnly(task.actions)
      modifies this
      ensures Now() == ExecState(world, old(Now()), a)
      ensures r == ExecResponse(world, old(Now()), a)
      ensures after == data
    {
      if !(a.Call? && a.tool in world.terminate) {
        r := Step(a);
        return r, data;
      }
      actions := actions + [a];
      var observation;
      if a.tool in world.tools {
        match world.tools[a.tool](a.args, data) {
          case Returned(e, text) => data, observation := e, text;
          case Raised(e, message) => data, observation := e, "Error: " + message;
        }
      } else {
        observation := "Error: '" + a.tool + "'";
      }
      var postToolData, actionCount := data, |actions|;
      var reward := CalculateReward();
      data := postToolData;
      actions := actions[..actionCount];
      return Response(observation, reward, true), postToolData;
    }

    /** The ground-truth loop of calculate_reward. */
    method Replay()
      requires ToolsOnly(task.actions)
      modifies this
      ensures task == old(task) && heard == old(heard)
      ensures data == Effects(world, Replayed(world, task.actions), old(data))
      ensures actions == old(actions) + Replayed(world, task.actions)
      decreases 1
    {
      for i := 0 to |task.actions|
        invariant task == old(task) && heard == old(heard)
        invariant Effects(world, Replayed(world, task.actions), old(data))
               == Effects(world, Replayed(world, task.actions[i..]), data)
        invariant old(actions) + Replayed(world, task.actions) == actions + Replayed(world, task.actions[i..])
      {
        hide RunTool;
        var a := task.actions[i];
        assert task.actions[i..][0] == a && task.actions[i..][1..] == task.actions[i + 1..];
        if !(a.Call? && a.tool in world.terminate) {
          ghost var rest := Replayed(world, task.actions[i + 1..]);
          assert ([a] + rest)[1..] == rest;
          assert actions + ([a] + rest) == actions + [a] + rest;
          var _ := Step(a);
        }
      }
    }
  }

  lemma NothingToSay(actions: seq<Action>)
    ensures AllSaid([], actions)
  {
  }

  // ---------------------------------------------------------------- rollouts

  datatype Entry = Entry(tool: string, preview: string, isError: bool)

  /** The rollout's own bookkeeping, updated by every tool call. */
  class Rollout {
    var totalReward: real
    var calls: nat
    var done: bool
    var history: seq<Entry>

    constructor ()
      ensures totalReward == 0.0 && calls == 0 && !done && history == []
    {
      totalReward, calls, done, history := 0.0, 0, false, [];
    }

    /** TauBenchToolBase.execute, on arguments already decoded or refused: the model sees the observation and no reward. */
    method Execute<D>(env: Env<D>, tool: string, args: Result<Args, string>) returns (text: string, shown: real)
      requires ToolsOnly(env.task.actions)
      modifies this, env
      ensures shown == 0.0 && calls == old(calls) + 1 && |history| == old(|history|) + 1 && history[..old(|history|)] == old(history)
      ensures args.Err? ==>
        && unchanged(env) && text == "Error: " + args.error
        && totalReward == old(totalReward) && done == old(done) && history[old(|history|)] == Entry(tool, text, true)
      ensures args.Ok? ==>
        && env.Now() == ExecState(env.world, old(env.Now()), Call(tool, args.value))
        && text == ExecResponse(env.world, old(env.Now()), Call(tool, args.value)).observation
        && totalReward == old(totalReward) + ExecResponse(env.world, old(env.Now()), Call(tool, args.value)).reward
        && (done <==> old(done) || ExecResponse(env.world, old(env.Now()), Call(tool, args.value)).done)
        && history[old(|history|)] == Entry(tool, text, "Error:" <= text)
    {
      hide ExecState, ExecResponse;
      calls := calls + 1;
      if args.Err? {
        text := "Error: " + args.error;
        history := history + [Entry(tool, text, true)];
        return text, 0.0;
      }
      var r, _ := env.Execute(Call(tool, args.value));
      totalReward := totalReward + r.reward;
      done := done || r.done;
      history := history + [Entry(tool, r.observation, "Error:" <= r.observation)];
      return r.observation, 0.0;
    }
  }

  // ---------------------------------------------------------------- properties

  /** What the tool call returns is what the environment's own step would, except for a terminal tool it does not have. */
  lemma SameAsStep<D>(w: World<D>, s: State<D>, a: Action)
    requires ToolsOnly(s.task.actions)
    ensures ExecResponse(w, s, a) == StepResponse(w, s, a) <==> !(Terminal(w, a) && a.tool !in w.tools)
  {
  }

  /** What the model is shown of a tool call: what the tool returned, or its exception, or that there is no such tool. */
  lemma ToolShown<D>(w: World<D>, s: State<D>, a: Action)
    requires ToolsOnly(s.task.actions) && a.Call?
    ensures a.tool in w.tools ==>
              match w.tools[a.tool](a.args, s.data)
              case Returned(_, text) => ExecResponse(w, s, a).observation == text
              case Raised(_, message) => ExecResponse(w, s, a).observation == "Error: " + message
    ensures a.tool !in w.tools ==>
              ExecResponse(w, s, a).observation == if a.tool in w.terminate then "Error: '" + a.tool + "'" else "Unknown action " + a.tool
    ensures Effect(w, a, s.data) == if a.tool !in w.tools then s.data else w.tools[a.tool](a.args, s.data).data
  {
  }

  /** The user simulator ends the episode at this action. */
  predicate Stops<D>(w: World<D>, heard: seq<string>, a: Action) {
    a.Respond? && Contains(w.reply(heard + [a.content]), STOP)
  }

  /** One action leaves the state the episode's own, except that a response that stops the episode leaves the oracle's,
      whenever the two differ. */
  lemma LeakExactly<D>(w: World<D>, s: State<D>, a: Action)
    requires ToolsOnly(s.task.actions)
    ensures ExecState(w, s, a).data == Effect(w, a, s.data) && ExecState(w, s, a).actions == s.actions + [a]
       <==> (Stops(w, s.heard, a) ==> Replayed(w, s.task.actions) == [] && s.data == w.load)
  {
    var r := Replayed(w, s.task.actions);
    if Stops(w, s.heard, a) {
      assert |s.actions + [a] + r| == |s.actions + [a]| + |r|;
      if r == [] { assert s.actions + [a] + r == s.actions + [a]; }
    }
  }

  lemma QuietStep<D>(w: World<D>, s: State<D>, a: Action)
    requires ToolsOnly(s.task.actions) && !Stops(w, s.heard, a)
    ensures ExecState(w, s, a) == State(Effect(w, a, s.data), s.actions + [a], s.task, Hears(s.heard, a))
  {
  }

  /** No response of the episode makes the user simulator stop. */
  predicate Quiet<D>(w: World<D>, heard: seq<string>, actions: seq<Action>)
    decreases |actions|
  {
    actions == [] || (!Stops(w, heard, actions[0]) && Quiet(w, Hears(heard, actions[0]), actions[1..]))
  }

  function Hears(heard: seq<string>, a: Action): seq<string> { if a.Respond? then heard + [a.content] else heard }

  function HeardAll(heard: seq<string>, actions: seq<Action>): seq<string>
    decreases |actions|
  {
    if actions == [] then heard else HeardAll(Hears(heard, actions[0]), actions[1..])
  }

  /** The user simulator answers the whole conversation so far: every response, in order, and no tool call. */
  lemma {:induction false} HeardExactly(heard: seq<string>, actions: seq<Action>, a: Action)
    ensures HeardAll(heard, []) == heard
    ensures HeardAll(heard, actions + [a]) == HeardAll(heard, actions) + if a.Respond? then [a.content] else []
    decreases |actions|
  {
    if actions == [] {
      assert [a][1..] == [] && actions + [a] == [a];
    } else {
      assert (actions + [a])[1..] == actions[1..] + [a];
      HeardExactly(Hears(heard, actions[0]), actions[1..], a);
    }
  }

  ghost function ExecRun<D>(w: World<D>, s: State<D>, actions: seq<Action>): (r: (State<D>, seq<Response>))
    requires ToolsOnly(s.task.actions)
    ensures |r.1| == |actions| && r.0.task == s.task
    decreases |actions|
  {
    if actions == [] then (s, []) else
      var rest := ExecRun(w, ExecState(w, s, actions[0]), actions[1..]);
      (rest.0, [ExecResponse(w, s, actions[0])] + rest.1)
  }

  ghost function StepRun<D>(w: World<D>, s: State<D>, actions: seq<Action>): (r: (State<D>, seq<Response>))
    requires ToolsOnly(s.task.actions)
    ensures |r.1| == |actions|
    decreases |actions|
  {
    if actions == [] then (s, []) else
      var rest := StepRun(w, StepState(w, s, actions[0]), actions[1..]);
      (rest.0, [StepResponse(w, s, actions[0])] + rest.1)
  }

  /** Whatever terminal tools an episode calls, and however often, its data is the effect of its own actions alone and its
      history is those actions. */
  lemma {:induction false} EpisodeExact<D>(w: World<D>, s: State<D>, actions: seq<Action>)
    requires ToolsOnly(s.task.actions) && Quiet(w, s.heard, actions)
    ensures ExecRun(w, s, actions).0
         == State(Effects(w, actions, s.data), s.actions + actions, s.task, HeardAll(s.heard, actions))
    decreases |actions|
  {
    if actions == [] {
      assert s.actions + [] == s.actions;
    } else {
      hide ExecState, ExecResponse, Effect;
      var a := actions[0];
      QuietStep(w, s, a);
      EpisodeExact(w, ExecState(w, s, a), actions[1..]);
      assert s.actions + [a] + actions[1..] == s.actions + actions;
    }
  }

  predicate SameView(r: Response, q: Response) { r.observation == q.observation && r.done == q.done }

  /** Non-interference: the ground-truth actions and required outputs of the task change neither what the episode sees nor its
      data and history; they can only change the rewards. */
  lemma {:induction false} OracleInvisible<D>(w: World<D>, s: State<D>, other: Task, actions: seq<Action>)
    requires ToolsOnly(s.task.actions) && ToolsOnly(other.actions) && Quiet(w, s.heard, actions)
    ensures ExecRun(w, s, actions).0 == ExecRun(w, s.(task := other), actions).0.(task := s.task)
    ensures forall i :: 0 <= i < |actions| ==>
              SameView(ExecRun(w, s, actions).1[i], ExecRun(w, s.(task := other), actions).1[i])
    decreases |actions|
  {
    EpisodeExact(w, s, actions);
    EpisodeExact(w, s.(task := other), actions);
    if actions != [] {
      var a := actions[0];
      OracleInvisible(w, ExecState(w, s, a), other, actions[1..]);
      assert ExecState(w, s.(task := other), a) == ExecState(w, s, a).(task := other);
    }
  }

  /** Up to and including the action that ends it, an episode gets the responses that the environment's own step would give. */
  lemma {:induction false} SameUntilDone<D>(w: World<D>, s: State<D>, actions: seq<Action>)
    requires ToolsOnly(s.task.actions) && w.terminate <= w.tools.Keys
    requires forall i :: 0 <= i < |actions| - 1 ==> !ExecRun(w, s, actions).1[i].done
    ensures ExecRun(w, s, actions).1 == StepRun(w, s, actions).1
    decreases |actions|
  {
    if |actions| > 1 {
      var a := actions[0];
      var rest := ExecRun(w, ExecState(w, s, a), actions[1..]).1;
      assert !ExecRun(w, s, actions).1[0].done;
      forall i | 0 <= i < |actions| - 2 ensures !rest[i].done { assert rest[i] == ExecRun(w, s, actions).1[i + 1]; }
      SameUntilDone(w, ExecState(w, s, a), actions[1..]);
    } else if |actions| == 1 {
      assert actions[1..] == [];
    }
  }

  /** This action ends the episode. */
  predicate Ends<D>(w: World<D>, heard: seq<string>, a: Action) { Terminal(w, a) || Stops(w, heard, a) }

  /** The data hashes as the goal does, and every required output was said. */
  ghost predicate Earned<D>(w: World<D>, task: Task, goal: D, data: D, actions: seq<Action>) {
    w.hash(data) == w.hash(goal) && AllSaid(task.outputs, actions)
  }

  /** The reward of any action after any quiet episode: 1 when it ends the episode, the data hashes as the replay of the ground
      truth from a fresh load does and every required output was said; 0 otherwise. */
  lemma EpisodeReward<D>(w: World<D>, s: State<D>, actions: seq<Action>, last: Action)
    requires ToolsOnly(s.task.actions) && Quiet(w, s.heard, actions)
    ensures ExecResponse(w, ExecRun(w, s, actions).0, last).reward
         == if && Ends(w, HeardAll(s.heard, actions), last)
               && Earned(w, s.task, Effects(w, Replayed(w, s.task.actions), w.load), Effects(w, actions + [last], s.data),
                         s.actions + actions + [last])
            then 1.0 else 0.0
  {
    EpisodeExact(w, s, actions);
    EffectsAppend(w, actions, last, s.data);
    hide Effects, Replayed, AllSaid, RunTool, ExecRun, HeardAll;
  }

  lemma {:induction false} EffectsAppend<D>(w: World<D>, actions: seq<Action>, last: Action, d: D)
    ensures Effects(w, actions + [last], d) == Effect(w, last, Effects(w, actions, d))
  {
    if actions == [] {
      assert [last][1..] == [] && actions + [last] == [last];
    } else {
      assert (actions + [last])[1..] == actions[1..] + [last];
      EffectsAppend(w, actions[1..], last, Effect(w, actions[0], d));
    }
  }

  /** Doing exactly what the ground truth asks, its terminal calls left out, and then a terminal call, earns the reward of a task
      without required outputs exactly when that last call leaves the data's hash as it is. */
  lemma GroundTruthRewarded<D>(w: World<D>, task: Task, last: Action)
    requires ToolsOnly(task.actions) && task.outputs == [] && Terminal(w, last)
    ensures ExecResponse(w, ExecRun(w, State(w.load, [], task, []), Replayed(w, task.actions)).0, last).reward == 1.0
       <==> w.hash(Effects(w, Replayed(w, task.actions) + [last], w.load)) == w.hash(Effects(w, Replayed(w, task.actions), w.load))
  {
    var acts := Replayed(w, task.actions);
    CallsAreQuiet(w, [], acts);
    EpisodeReward(w, State(w.load, [], task, []), acts, last);
  }

  /** For a ground truth without terminal calls, doing just what it lists, and then a terminal call that leaves the data's hash as
      it is, earns the reward when no output is required. */
  lemma AskedIsRewarded<D>(w: World<D>, task: Task, last: Action)
    requires NeverEnds(w, task.actions) && task.outputs == [] && Terminal(w, last)
    requires w.hash(Effects(w, task.actions + [last], w.load)) == w.hash(Effects(w, task.actions, w.load))
    ensures ExecResponse(w, ExecRun(w, State(w.load, [], task, []), task.actions).0, last).reward == 1.0
  {
    ReplaysAll(w, task.actions);
    GroundTruthRewarded(w, task, last);
  }

  /** And an episode earns it only by ending with data that hashes as the effect of those actions does. */
  lemma OnlyAskedIsRewarded<D>(w: World<D>, s: State<D>, actions: seq<Action>, last: Action)
    requires NeverEnds(w, s.task.actions) && Quiet(w, s.heard, actions)
    requires w.hash(Effects(w, actions + [last], s.data)) != w.hash(Effects(w, s.task.actions, w.load))
    ensures ExecResponse(w, ExecRun(w, s, actions).0, last).reward == 0.0
  {
    ReplaysAll(w, s.task.actions);
    EpisodeReward(w, s, actions, last);
  }

  lemma {:induction false} CallsAreQuiet<D>(w: World<D>, heard: seq<string>, actions: seq<Action>)
    requires ToolsOnly(actions)
    ensures Quiet(w, heard, actions)
  {
    if actions != [] {
      CallsAreQuiet(w, heard, actions[1..]);
    }
  }

  lemma {:induction false} KeepsCommaFree(s: string)
    requires ',' !in s
    ensures NoCommas(s) == s
  {
    if s != "" { KeepsCommaFree(s[1..]); }
  }

  /** Commas are dropped from a response, wherever they stand, and nothing else is. */
  lemma {:induction false} CommasDropped(s: string, c: char)
    ensures NoCommas("") == ""
    ensures NoCommas(s + [c]) == NoCommas(s) + if c == ',' then "" else [c]
  {
    if s == "" {
      assert [c][1..] == "" && s + [c] == [c];
    } else {
      assert (s + [c])[1..] == s[1..] + [c];
      CommasDropped(s[1..], c);
    }
  }

  lemma {:induction false} NoCommasJoin(s: string, t: string)
    ensures NoCommas(s + t) == NoCommas(s) + NoCommas(t)
  {
    if s == "" {
      assert s + t == t;
    } else {
      assert (s + t)[1..] == s[1..] + t;
      NoCommasJoin(s[1..], t);
    }
  }

  /** An output without commas is said by a response that holds it anywhere. */
  lemma SaidAnywhere(before: string, output: string, after: string)
    requires ',' !in output
    ensures Said(output, before + output + after)
  {
    var lows := Lower(before) + Lower(output) + Lower(after);
    assert Lower(before + output + after) == lows;
    LowerKeepsCommas(output);
    KeepsCommaFree(Lower(output));
    NoCommasJoin(Lower(before) + Lower(output), Lower(after));
    NoCommasJoin(Lower(before), Lower(output));
    var n := |NoCommas(Lower(before))|;
    assert NoCommas(lows)[n..n + |output|] == Lower(output);
    assert OccursAt(NoCommas(lows), Lower(output), n);
  }

  /** Letter case is ignored, and digits may be grouped by commas. */
  lemma CaseAndCommas()
    ensures Lower("AMZ[@amz09") == "amz[@amz09"
    ensures Said("Za 1200", "zA 1,200")
  {
    hide NoCommas;
    assert "1,200" == "1" + "," + "200";
    assert Lower("zA 1,200") == "za 1" + [','] + "200";
    NoCommasJoin("za 1" + [','], "200");
    CommasDropped("za 1", ',');
    KeepsCommaFree("za 1");
    KeepsCommaFree("200");
    assert NoCommas(Lower("zA 1,200")) == "za 1200" == Lower("Za 1200");
    assert OccursAt("za 1200", "za 1200", 0);
  }

  lemma LowerKeepsCommas(s: string)
    ensures ',' in Lower(s) <==> ',' in s
  {
    if ',' in s {
      var i :| 0 <= i < |s| && s[i] == ',';
      assert Lower(s)[i] == ',';
    }
  }

  lemma CommaNeverSaid(output: string, content: string)
    requires ',' in output
    ensures !Said(output, content)
  {
    LowerKeepsCommas(output);
    var i :| 0 <= i < |output| && Lower(output)[i] == ',';
    var said := NoCommas(Lower(content));
    forall j: nat ensures !OccursAt(said, Lower(output), j) {
      if j + |output| <= |said| {
        assert said[j + i] != ',';
        assert said[j..j + |output|][i] == said[j + i];
      }
    }
  }

  /** A required output can be said, by some response, exactly when it has no comma: commas are dropped from the responses and
      not from the outputs. */
  lemma SayableExactly(output: string)
    ensures (exists content: string :: Said(output, content)) <==> ',' !in output
  {
    if ',' in output {
      forall content: string ensures !Said(output, content) { CommaNeverSaid(output, content); }
    } else {
      LowerKeepsCommas(output);
      KeepsCommaFree(Lower(output));
      assert OccursAt(Lower(output), Lower(output), 0);
      assert Said(output, output);
    }
  }

  /** Every required output of the task can be said. */
  predicate Sayable(task: Task) { forall o :: 0 <= o < |task.outputs| ==> ',' !in task.outputs[o] }

  lemma UnsayableReward<D>(w: World<D>, task: Task, data: D, actions: seq<Action>)
    requires ToolsOnly(task.actions) && !Sayable(task)
    ensures RewardOf(w, task, data, actions) == 0.0
  {
    var o :| 0 <= o < |task.outputs| && ',' in task.outputs[o];
    forall i | 0 <= i < |actions| && actions[i].Respond? ensures !Said(task.outputs[o], actions[i].content) {
      CommaNeverSaid(task.outputs[o], actions[i].content);
    }
    assert !SaidIn(task.outputs[o], actions);
  }

  /** In every episode of such a task, whether by tool calls or by plain steps, every single reward is 0. */
  lemma {:induction false} UnsayableNeverRewarded<D>(w: World<D>, s: State<D>, actions: seq<Action>)
    requires ToolsOnly(s.task.actions) && !Sayable(s.task)
    ensures forall i :: 0 <= i < |actions| ==> ExecRun(w, s, actions).1[i].reward == 0.0
    ensures forall i :: 0 <= i < |actions| ==> StepRun(w, s, actions).1[i].reward == 0.0
    decreases |actions|
  {
    if actions != [] {
      var a := actions[0];
      UnsayableReward(w, s.task, Effect(w, a, s.data), s.actions + [a]);
      hide Effect, RunTool, RewardOf;
      UnsayableNeverRewarded(w, ExecState(w, s, a), actions[1..]);
      UnsayableNeverRewarded(w, StepState(w, s, a), actions[1..]);
    }
  }

  /** And exactly such tasks are lost from the start: for any other whose oracle has been matched, saying the outputs and then
      ending the episode earns the reward. */
  lemma RewardableExactly<D>(w: World<D>, task: Task, last: Action)
    requires ToolsOnly(task.actions) && Terminal(w, last)
    requires forall d: D :: Effect(w, last, d) == d
    requires forall heard, a :: !Stops(w, heard, a)
    ensures (exists actions :: ExecResponse(w, ExecRun(w, State(w.load, [], task, []), actions).0, last).reward == 1.0) <==> Sayable(task)
  {
    var s := State(w.load, [], task, []);
    if Sayable(task) {
      var actions := Replayed(w, task.actions) + Responses(task.outputs);
      QuietAll(w, [], actions);
      EffectsOfBoth(w, Replayed(w, task.actions), Responses(task.outputs), w.load);
      ResponsesDoNothing(w, task.outputs, Effects(w, Replayed(w, task.actions), w.load));
      EffectsAppend(w, actions, last, w.load);
      ResponsesSay(task.outputs, Replayed(w, task.actions));
      assert [] + actions == actions;
      CallsSayNothing(task.outputs, actions, [last]);
      EpisodeReward(w, s, actions, last);
      assert ExecResponse(w, ExecRun(w, s, actions).0, last).reward == 1.0;
    } else {
      forall actions: seq<Action> ensures ExecResponse(w, ExecRun(w, s, actions).0, last).reward != 1.0 {
        var t := ExecRun(w, s, actions).0;
        UnsayableReward(w, task, Effect(w, last, t.data), t.actions + [last]);
      }
    }
  }

  function Responses(outputs: seq<string>): (r: seq<Action>)
    ensures |r| == |outputs| && forall o :: 0 <= o < |r| ==> r[o] == Respond(outputs[o])
  {
    seq(|outputs|, o requires 0 <= o < |outputs| => Respond(outputs[o]))
  }

  lemma {:induction false} QuietAll<D>(w: World<D>, heard: seq<string>, actions: seq<Action>)
    requires forall h, a :: !Stops(w, h, a)
    ensures Quiet(w, heard, actions)
    decreases |actions|
  {
    if actions != [] { QuietAll(w, Hears(heard, actions[0]), actions[1..]); }
  }

  lemma {:induction false} EffectsOfBoth<D>(w: World<D>, a: seq<Action>, b: seq<Action>, d: D)
    ensures Effects(w, a + b, d) == Effects(w, b, Effects(w, a, d))
  {
    if a == [] {
      assert a + b == b;
    } else {
      assert (a + b)[1..] == a[1..] + b;
      EffectsOfBoth(w, a[1..], b, Effect(w, a[0], d));
    }
  }

  lemma {:induction false} ResponsesDoNothing<D>(w: World<D>, outputs: seq<string>, d: D)
    ensures Effects(w, Responses(outputs), d) == d
  {
    if outputs != [] {
      assert Responses(outputs)[1..] == Responses(outputs[1..]);
      ResponsesDoNothing(w, outputs[1..], d);
    }
  }

  lemma ResponsesSay(outputs: seq<string>, before: seq<Action>)
    requires forall o :: 0 <= o < |outputs| ==> ',' !in outputs[o]
    ensures AllSaid(outputs, before + Responses(outputs))
  {
    var all := before + Responses(outputs);
    forall o | 0 <= o < |outputs| ensures SaidIn(outputs[o], all) {
      LowerKeepsCommas(outputs[o]);
      KeepsCommaFree(Lower(outputs[o]));
      assert OccursAt(Lower(outputs[o]), Lower(outputs[o]), 0);
      assert all[|before| + o] == Respond(outputs[o]);
    }
  }
}
