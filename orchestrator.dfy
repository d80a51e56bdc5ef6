/** One game of training, src/orchestrator.ts: the step loop that drives the
    simulator with the model's policy and fills the replay memory, and the
    replay that turns a sampled batch into temporal-difference targets. */
module Orchestration {
  import opened Tensors
  import opened ReplayMemory
  import opened CarSimulator
  import opened ValueModel

  const MIN_EPSILON: real := 0.01
  const MAX_EPSILON: real := 0.2
  const LAMBDA: real := 0.01

  /** How a game's step loop ended. */
  datatype Exit =
    | Solved     // `update` reported the goal reached
    | StepLimit  // `maxStepsPerGame` steps were taken
    | Halted     // the loop guard failed: a stop was requested, or no step was allowed

  /** The reward for ending a step at `position`. The branches are tried in
      the source's order, so the first one catches every non-negative
      position and the 10, 20 and 100 rewards are never given. */
  function ComputeReward(position: real): (reward: real)
    ensures reward == if position >= 0.0 then 5.0 else 0.0
  {
    if position >= 0.0 then 5.0
    else if position >= 0.1 then 10.0
    else if position >= 0.25 then 20.0
    else if position >= 0.5 then 100.0
    else 0.0
  }

  /** The exploration rate after `steps` steps; `exp` stands for `Math.exp`.
      While the decay factor lies in `[0, 1]` the rate lies between
      `MIN_EPSILON` and `MAX_EPSILON`, and it stays above `MIN_EPSILON`
      while the factor is positive. */
  function Epsilon(exp: real -> real, steps: nat): (eps: real)
    ensures 0.0 <= exp(-LAMBDA * steps as real) <= 1.0 ==> MIN_EPSILON <= eps <= MAX_EPSILON
    ensures exp(-LAMBDA * steps as real) > 0.0 ==> eps > MIN_EPSILON
  {
    MIN_EPSILON + (MAX_EPSILON - MIN_EPSILON) * exp(-LAMBDA * steps as real)
  }

  /** For an increasing `exp` with `0 < exp(x) <= 1` when `x <= 0`, the
      exploration rate starts at most at `MAX_EPSILON`, strictly decreases
      with every step, and stays above `MIN_EPSILON`. */
  lemma EpsilonDecays(exp: real -> real, j: nat, k: nat)
    requires forall x, y :: x < y ==> exp(x) < exp(y)
    requires forall x :: x <= 0.0 ==> 0.0 < exp(x) <= 1.0
    requires j < k
    ensures MIN_EPSILON < Epsilon(exp, k) < Epsilon(exp, j) <= MAX_EPSILON
  {
    var a, b := -LAMBDA * j as real, -LAMBDA * k as real;
    assert b < a <= 0.0;
    assert 0.0 < exp(b) < exp(a) <= 1.0;
  }

  /** The sum of the rewards of the first `n` steps of `trace`. */
  function RewardSum(trace: seq<Transition>, n: nat): real
    requires n <= |trace|
    decreases n
  {
    if n == 0 then 0.0 else RewardSum(trace, n - 1) + trace[n - 1].reward
  }

  /** The sum of the rewards of `trace`: the running total `run` keeps in
      `totalReward`. */
  function TotalReward(trace: seq<Transition>): real
  {
    RewardSum(trace, |trace|)
  }

  /** The sum over the first `n` steps depends on nothing else in the trace. */
  lemma {:induction false} RewardSumPrefix(a: seq<Transition>, b: seq<Transition>, n: nat)
    requires n <= |a| && n <= |b|
    requires forall i :: 0 <= i < n ==> a[i] == b[i]
    ensures RewardSum(a, n) == RewardSum(b, n)
    decreases n
  {
    if n > 0 {
      RewardSumPrefix(a, b, n - 1);
    }
  }

  /** One more step adds its reward to the total. */
  lemma TotalRewardSnoc(trace: seq<Transition>, t: Transition)
    ensures TotalReward(trace + [t]) == TotalReward(trace) + t.reward
  {
    RewardSumPrefix(trace + [t], trace, |trace|);
  }

  /** The furthest position reached in the first `n` of `states`, or `init`
      if none is beyond it. */
  function FurthestOf(init: real, states: seq<CarState>, n: nat): real
    requires n <= |states|
    decreases n
  {
    if n == 0 then init
    else
      var before := FurthestOf(init, states, n - 1);
      if states[n - 1].position > before then states[n - 1].position else before
  }

  /** The furthest position reached in `states`, or `init` if none is
      beyond it: the running maximum `run` keeps in `maxPosition`. */
  function Furthest(init: real, states: seq<CarState>): real
  {
    FurthestOf(init, states, |states|)
  }

  /** The maximum over the first `n` states depends on nothing else in them. */
  lemma {:induction false} FurthestOfPrefix(init: real, a: seq<CarState>, b: seq<CarState>, n: nat)
    requires n <= |a| && n <= |b|
    requires forall i :: 0 <= i < n ==> a[i] == b[i]
    ensures FurthestOf(init, a, n) == FurthestOf(init, b, n)
    decreases n
  {
    if n > 0 {
      FurthestOfPrefix(init, a, b, n - 1);
    }
  }

  /** One more state raises the maximum to its position if that is further. */
  lemma FurthestSnoc(init: real, states: seq<CarState>, s: CarState)
    ensures Furthest(init, states + [s]) ==
            if s.position > Furthest(init, states) then s.position else Furthest(init, states)
  {
    FurthestOfPrefix(init, states + [s], states, |states|);
  }

  /** `FurthestOf` is the maximum of `init` and the positions of the first
      `n` states. */
  lemma {:induction false} FurthestOfIsMax(init: real, states: seq<CarState>, n: nat)
    requires n <= |states|
    ensures FurthestOf(init, states, n) >= init
    ensures forall i :: 0 <= i < n ==> states[i].position <= FurthestOf(init, states, n)
    ensures FurthestOf(init, states, n) == init ||
            exists i :: 0 <= i < n && states[i].position == FurthestOf(init, states, n)
    decreases n
  {
    if n > 0 {
      FurthestOfIsMax(init, states, n - 1);
    }
  }

  /** `Furthest` is the maximum of `init` and the positions of `states`. */
  lemma FurthestIsMax(init: real, states: seq<CarState>)
    ensures Furthest(init, states) >= init
    ensures forall i :: 0 <= i < |states| ==> states[i].position <= Furthest(init, states)
    ensures Furthest(init, states) == init ||
            exists i :: 0 <= i < |states| && states[i].position == Furthest(init, states)
  {
    FurthestOfIsMax(init, states, |states|);
  }

  /** `nextQ.max()`. */
  function Max(s: seq<real>): (m: real)
    requires |s| > 0
    ensures m in s
    ensures forall i :: 0 <= i < |s| ==> s[i] <= m
    decreases |s|
  {
    if |s| == 1 then s[0]
    else
      var rest := Max(s[1..]);
      if s[0] > rest then s[0] else rest
  }

  function Zeros(n: int): seq<real>
  {
    if n <= 0 then [] else seq(n, i => 0.0)
  }

  /** What replay predicts the next values from: the next state, or zeros of
      width `numStates` for a terminal transition. */
  function NextInput(t: Transition, numStates: int): (input: seq<real>)
    ensures t.nextState != null ==> input == t.nextState.values
    ensures t.nextState == null ==> |input| == (if numStates <= 0 then 0 else numStates)
    ensures t.nextState == null ==> forall i :: 0 <= i < |input| ==> input[i] == 0.0
  {
    if t.nextState == null then Zeros(numStates) else t.nextState.values
  }

  /** The value written into the taken action's slot. */
  function TdValue(reward: real, terminal: bool, nextQ: seq<real>, discountRate: real): real
    requires !terminal ==> |nextQ| > 0
  {
    if terminal then reward else reward + discountRate * Max(nextQ)
  }

  /** The temporal-difference target row: the current prediction with the
      slot of the taken action replaced by the reward, plus the discounted
      best next value unless the transition ended the game. */
  function TdTarget(currentQ: seq<real>, action: int, reward: real, terminal: bool,
                    nextQ: seq<real>, discountRate: real): (target: seq<real>)
    requires 0 <= action < |currentQ|
    requires !terminal ==> |nextQ| > 0
    ensures |target| == |currentQ|
    ensures forall j :: 0 <= j < |currentQ| && j != action ==> target[j] == currentQ[j]
    ensures terminal ==> target[action] == reward
    ensures !terminal ==> target[action] == reward + discountRate * Max(nextQ)
  {
    currentQ[action := TdValue(reward, terminal, nextQ, discountRate)]
  }

  /** A transition replay can build a target for: its action indexes the
      prediction row, and a non-terminal one has next values to maximise. */
  ghost predicate Targetable(t: Transition, predict: seq<real> -> seq<real>, numStates: int)
  {
    && 0 <= t.action < |predict(t.state.values)|
    && |predict(NextInput(t, numStates))| > 0
  }

  function TargetFor(t: Transition, predict: seq<real> -> seq<real>, discountRate: real, numStates: int): seq<real>
    requires Targetable(t, predict, numStates)
  {
    TdTarget(predict(t.state.values), t.action, t.reward, t.nextState == null,
             predict(NextInput(t, numStates)), discountRate)
  }

  /** `xs` and `ys` have one row per transition of `batch`: its state, and
      its target row. */
  ghost predicate TrainingPair(batch: seq<Transition>, xs: seq<seq<real>>, ys: seq<seq<real>>,
                               predict: seq<real> -> seq<real>, discountRate: real, numStates: int)
    requires forall i :: 0 <= i < |batch| ==> Targetable(batch[i], predict, numStates)
  {
    && |xs| == |batch| && |ys| == |batch|
    && (forall i :: 0 <= i < |batch| ==> xs[i] == batch[i].state.values)
    && (forall i :: 0 <= i < |batch| ==> ys[i] == TargetFor(batch[i], predict, discountRate, numStates))
  }

  /** `fit` is what one replay trains on: `batch` is a `sampleSize` draw
      of `batchSize` transitions from `samples`, replay can build a target
      for each of them, and `fit` holds their state rows and target rows. */
  ghost predicate ReplayedOn(batch: seq<Transition>, samples: seq<Transition>, batchSize: int, fit: TrainingBatch,
                             predict: seq<real> -> seq<real>, discountRate: real, numStates: int)
  {
    && (exists positions :: IsDrawOf(batch, positions, samples, batchSize))
    && (forall i :: 0 <= i < |batch| ==> Targetable(batch[i], predict, numStates))
    && TrainingPair(batch, fit.xs, fit.ys, predict, discountRate, numStates)
  }

  /** The replay loop body over the whole batch: push each state onto `xs`
      and its target row onto `ys`. */
  method BuildTargets(batch: seq<Transition>, predict: seq<real> -> seq<real>, discountRate: real, numStates: int)
    returns (xs: seq<seq<real>>, ys: seq<seq<real>>)
    requires forall i :: 0 <= i < |batch| ==> Targetable(batch[i], predict, numStates)
    ensures TrainingPair(batch, xs, ys, predict, discountRate, numStates)
  {
    xs, ys := [], [];
    var index := 0;
    while index < |batch|
      invariant 0 <= index <= |batch|
      invariant |xs| == index && |ys| == index
      invariant forall i :: 0 <= i < index ==> xs[i] == batch[i].state.values
      invariant forall i :: 0 <= i < index ==> ys[i] == TargetFor(batch[i], predict, discountRate, numStates)
    {
      var t := batch[index];
      var currentQ := predict(t.state.values);
      var nextQ := predict(NextInput(t, numStates));
      var target := if t.nextState != null then t.reward + discountRate * Max(nextQ) else t.reward;
      currentQ := currentQ[t.action := target];
      assert target == TdValue(t.reward, t.nextState == null, nextQ, discountRate);
      assert currentQ == TargetFor(t, predict, discountRate, numStates);
      xs := xs + [t.state.values];
      ys := ys + [currentQ];
      index := index + 1;
    }
  }

  /** What memory may hold for replay to work on it: the action is an index
      of the `numActions` predictions and the state has `numStates` values. */
  ghost predicate Storable(t: Transition, numStates: int, numActions: int)
  {
    0 <= t.action < numActions && |t.state.values| == numStates
  }

  ghost predicate WellFormed(q: seq<Transition>, numStates: int, numActions: int)
  {
    forall t :: t in q ==> Storable(t, numStates, numActions)
  }

  /** Adding storable transitions keeps the memory storable. */
  lemma PushedAllWellFormed(q: seq<Transition>, ts: seq<Transition>, maxMemory: int, numStates: int, numActions: int)
    requires WellFormed(q, numStates, numActions)
    requires forall i :: 0 <= i < |ts| ==> Storable(ts[i], numStates, numActions)
    ensures WellFormed(PushedAll(q, ts, maxMemory), numStates, numActions)
  {
    PushedAllFrom(q, ts, maxMemory);
  }

  /** The exploration rate in force at step `i` of a game that started
      with rate `eps0` after `steps0` earlier steps. */
  function EpsAt(eps0: real, steps0: nat, exp: real -> real, i: nat): real
  {
    if i == 0 then eps0 else Epsilon(exp, steps0 + i)
  }

  /** Where a game starts: the car and its start state, and the
      exploration rate and step count the orchestrator had when it began. */
  datatype Game = Game(car: MountainCar, start: CarState, eps0: real, steps0: nat)

  /** Step `i` of a game, starting from car state `prev` with exploration
      rate `eps`: the transition `t` holds the tensor of `prev`, the action
      the policy chose there, the reward for where the car ended up (`now`,
      one step of the dynamics later), and the tensor of `now` or null when
      `now` is a goal state. */
  ghost predicate StepOk(car: MountainCar, t: Transition, i: nat, prev: CarState, now: CarState,
                         policy: (nat, seq<real>, real) -> int, cos: real -> real, eps: real)
  {
    && t.state.values == [prev.position, prev.velocity]
    && t.action == policy(i, t.state.values, eps)
    && now == car.Next(prev, t.action, cos)
    && t.reward == ComputeReward(now.position)
    && (t.nextState == null <==> car.Done(now))
    && (t.nextState != null ==> t.nextState.values == [now.position, now.velocity])
  }

  /** The car state before step `i`: the start, or the state after step `i - 1`. */
  function Before(start: CarState, states: seq<CarState>, i: nat): CarState
    requires i <= |states|
  {
    if i == 0 then start else states[i - 1]
  }

  /** Step `i` starts from the tensor step `i - 1` moved to, which is not null. */
  ghost predicate Linked(trace: seq<Transition>, i: nat)
    requires 0 < i < |trace|
  {
    trace[i - 1].nextState != null && trace[i].state == trace[i - 1].nextState
  }

  /** `trace` and `states` are the first `|trace|` steps of game `g`:
      every step is `StepOk` at the rate then in force, and each step's
      state tensor is the previous step's next-state tensor, which is
      therefore not null. */
  ghost predicate Played(g: Game, policy: (nat, seq<real>, real) -> int, cos: real -> real, exp: real -> real,
                         trace: seq<Transition>, states: seq<CarState>)
  {
    && |states| == |trace|
    && (forall i {:trigger trace[i]} :: 0 <= i < |trace| ==>
          StepOk(g.car, trace[i], i, Before(g.start, states, i), states[i],
                 policy, cos, EpsAt(g.eps0, g.steps0, exp, i)))
    && (forall i {:trigger Linked(trace, i)} :: 0 < i < |trace| ==> Linked(trace, i))
  }

  /** A game played so far, followed by one more step taken from where it
      left off, is a game played one step longer. */
  lemma PlayedExtend(g: Game, policy: (nat, seq<real>, real) -> int, cos: real -> real, exp: real -> real,
                     trace: seq<Transition>, states: seq<CarState>, t: Transition, now: CarState)
    requires Played(g, policy, cos, exp, trace, states)
    requires StepOk(g.car, t, |trace|, Before(g.start, states, |trace|), now,
                    policy, cos, EpsAt(g.eps0, g.steps0, exp, |trace|))
    requires trace != [] ==> trace[|trace| - 1].nextState != null && t.state == trace[|trace| - 1].nextState
    ensures Played(g, policy, cos, exp, trace + [t], states + [now])
  {
    var trace', states' := trace + [t], states + [now];
    forall i {:trigger trace'[i]} | 0 <= i < |trace'|
      ensures StepOk(g.car, trace'[i], i, Before(g.start, states', i), states'[i],
                     policy, cos, EpsAt(g.eps0, g.steps0, exp, i))
    {
      if i < |trace| {
        assert trace'[i] == trace[i] && states'[i] == states[i];
        assert Before(g.start, states', i) == Before(g.start, states, i);
      }
    }
    forall i | 0 < i < |trace'|
      ensures Linked(trace', i)
    {
      if i < |trace| {
        assert Linked(trace, i);
        assert trace'[i - 1] == trace[i - 1] && trace'[i] == trace[i];
      }
    }
  }

  /** Every step of a game played with a policy whose actions index the
      `numActions` predictions can be stored for replay. */
  lemma PlayedStorable(g: Game, policy: (nat, seq<real>, real) -> int, cos: real -> real, exp: real -> real,
                       trace: seq<Transition>, states: seq<CarState>, numActions: int)
    requires Played(g, policy, cos, exp, trace, states)
    requires forall k, v, e :: 0 <= policy(k, v, e) < numActions
    ensures forall i :: 0 <= i < |trace| ==> Storable(trace[i], 2, numActions)
  {
    forall i | 0 <= i < |trace| ensures Storable(trace[i], 2, numActions) {
      assert StepOk(g.car, trace[i], i, Before(g.start, states, i), states[i],
                    policy, cos, EpsAt(g.eps0, g.steps0, exp, i));
    }
  }

  /** In a game played so far, no step but the last reached the goal. */
  lemma PlayedOnlyLastDone(g: Game, policy: (nat, seq<real>, real) -> int, cos: real -> real, exp: real -> real,
                           trace: seq<Transition>, states: seq<CarState>, i: nat)
    requires Played(g, policy, cos, exp, trace, states)
    requires i < |trace| - 1
    ensures !g.car.Done(states[i])
  {
    assert Linked(trace, i + 1);
    assert StepOk(g.car, trace[i], i, Before(g.start, states, i), states[i],
                  policy, cos, EpsAt(g.eps0, g.steps0, exp, i));
  }

  /** After the steps `trace` of game `g`, ending in car state `now`, the
      memory that held `samples0` holds `samples`, the running total and
      maximum are those of the steps so far, and the step count and
      exploration rate have advanced once per step. */
  ghost predicate Advanced(g: Game, policy: (nat, seq<real>, real) -> int, cos: real -> real, exp: real -> real,
                           trace: seq<Transition>, states: seq<CarState>, now: CarState,
                           samples0: seq<Transition>, samples: seq<Transition>, maxMemory: int,
                           totalReward: real, maxPosition: real, steps: nat, eps: real)
  {
    && Played(g, policy, cos, exp, trace, states)
    && samples == PushedAll(samples0, trace, maxMemory)
    && now == Before(g.start, states, |trace|)
    && totalReward == TotalReward(trace)
    && maxPosition == Furthest(-100.0, states)
    && steps == g.steps0 + |trace|
    && eps == EpsAt(g.eps0, g.steps0, exp, |trace|)
  }

  /** The invariant of `run`'s step loop, on values: the game has
      `Advanced`, and `state` is the tensor of `now` (the last next-state
      tensor, if there was one). */
  ghost predicate Progress(g: Game, policy: (nat, seq<real>, real) -> int, cos: real -> real, exp: real -> real,
                           trace: seq<Transition>, states: seq<CarState>, now: CarState,
                           samples0: seq<Transition>, samples: seq<Transition>, maxMemory: int,
                           state: Tensor, totalReward: real, maxPosition: real, steps: nat, eps: real)
  {
    && Advanced(g, policy, cos, exp, trace, states, now, samples0, samples, maxMemory, totalReward, maxPosition, steps, eps)
    && (trace == [] || trace[|trace| - 1].nextState != null ==> state.values == [now.position, now.velocity])
    && (trace != [] && trace[|trace| - 1].nextState != null ==> state == trace[|trace| - 1].nextState)
  }

  /** One pass of the loop body keeps `Progress`: take step `|trace|` from
      `now` to `next`, store it, keep the next state tensor unless the step
      ended the game, add the reward, raise the maximum, count the step and
      decay the rate. */
  lemma ProgressStep(g: Game, policy: (nat, seq<real>, real) -> int, cos: real -> real, exp: real -> real,
                     trace: seq<Transition>, states: seq<CarState>, now: CarState,
                     samples0: seq<Transition>, samples: seq<Transition>, maxMemory: int,
                     state: Tensor, totalReward: real, maxPosition: real, steps: nat, eps: real,
                     t: Transition, next: CarState, state1: Tensor, maxPosition1: real, eps1: real)
    requires Progress(g, policy, cos, exp, trace, states, now, samples0, samples, maxMemory, state, totalReward, maxPosition, steps, eps)
    requires trace != [] ==> trace[|trace| - 1].nextState != null
    requires StepOk(g.car, t, |trace|, now, next, policy, cos, eps)
    requires t.state == state
    requires state1 == if t.nextState != null then t.nextState else state
    requires maxPosition1 == if next.position > maxPosition then next.position else maxPosition
    requires eps1 == Epsilon(exp, steps + 1)
    ensures Progress(g, policy, cos, exp, trace + [t], states + [next], next, samples0, Pushed(samples, t, maxMemory), maxMemory,
                     state1, totalReward + t.reward, maxPosition1, steps + 1, eps1)
  {
    PlayedExtend(g, policy, cos, exp, trace, states, t, next);
    PushedAllSnoc(samples0, trace, t, maxMemory);
    TotalRewardSnoc(trace, t);
    FurthestSnoc(-100.0, states, next);
  }

  /** No poll of `stopRequested()` said yes before any of the first `n`
      steps of a game; `stopRequested` holds the steps before which it
      does. */
  ghost predicate NoStopBefore(stopRequested: iset<nat>, n: nat)
  {
    forall k :: 0 <= k < n ==> k !in stopRequested
  }

  /** Passing the poll before step `n` extends `NoStopBefore` by one step. */
  lemma NoStopBeforeNext(stopRequested: iset<nat>, n: nat)
    requires NoStopBefore(stopRequested, n) && n !in stopRequested
    ensures NoStopBefore(stopRequested, n + 1)
  {
  }

  /** The game whose steps ended in `states` was cut off by the loop guard
      of `run`, not ended by the goal or the step limit: its last step did
      not reach the goal, and either no step was allowed or the stop poll
      before step `|states|` said yes. */
  ghost predicate CutOff(car: MountainCar, states: seq<CarState>, maxStepsPerGame: int, stopRequested: iset<nat>)
  {
    && (states == [] || !car.Done(states[|states| - 1]))
    && (maxStepsPerGame <= 0 || (|states| < maxStepsPerGame && |states| in stopRequested))
  }

  /** How the step loop of `run` ended after the steps leading to `states`,
      with limit `maxStepsPerGame` and the stop poll saying yes before the
      steps in `stopRequested`: no poll before a step taken said stop, no
      more steps than the limit were taken, and `exit` is the goal at the
      last step, the limit reached without it, or the loop guard. */
  ghost predicate Ended(car: MountainCar, states: seq<CarState>, maxStepsPerGame: int, stopRequested: iset<nat>,
                        exit: Exit)
  {
    && NoStopBefore(stopRequested, |states|)
    && (|states| == 0 || |states| <= maxStepsPerGame)
    && (exit == Solved <==> states != [] && car.Done(states[|states| - 1]))
    && (exit == StepLimit <==> states != [] && !car.Done(states[|states| - 1]) && |states| == maxStepsPerGame)
    && (exit == Halted ==> maxStepsPerGame <= 0 || (|states| < maxStepsPerGame && |states| in stopRequested))
  }

  /** A loop that ended as `Ended` describes was ended by its guard exactly
      when the game was cut off. */
  lemma HaltedIffCutOff(car: MountainCar, states: seq<CarState>, maxStepsPerGame: int, stopRequested: iset<nat>,
                        exit: Exit)
    requires Ended(car, states, maxStepsPerGame, stopRequested, exit)
    ensures exit == Halted <==> CutOff(car, states, maxStepsPerGame, stopRequested)
  {
  }

  class Orchestrator {
    const mountainCar: MountainCar
    const model: Model
    const memory: Memory
    /** The exploration rate. */
    var eps: real
    /** Steps taken since construction. */
    var steps: nat
    const maxStepsPerGame: int
    const discountRate: real
    var rewardStore: seq<real>
    var maxPositionStore: seq<real>
    /** The steps `k` of a game before which `stopRequested()` answers true. */
    const stopRequested: iset<nat>

    constructor (mountainCar: MountainCar, model: Model, memory: Memory, discountRate: real,
                 maxStepsPerGame: int, stopRequested: iset<nat>)
      ensures this.mountainCar == mountainCar && this.model == model && this.memory == memory
      ensures this.discountRate == discountRate && this.maxStepsPerGame == maxStepsPerGame
      ensures this.stopRequested == stopRequested
      ensures eps == MAX_EPSILON && steps == 0
      ensures rewardStore == [] && maxPositionStore == []
    {
      this.mountainCar := mountainCar;
      this.model := model;
      this.memory := memory;
      eps := MAX_EPSILON;
      steps := 0;
      this.maxStepsPerGame := maxStepsPerGame;
      this.discountRate := discountRate;
      rewardStore := [];
      maxPositionStore := [];
      this.stopRequested := stopRequested;
    }

    /** One game: `run` plays it with `Play`, then trains on memory with
        `Replay`. `startDraw` is the `Math.random()` draw of
        `setRandomState`; `policy(k, state, eps)` is `chooseAction` at step
        `k`; `cos` and `exp` stand for `Math.cos` and `Math.exp`; `predict`
        is the forward pass replay uses. The ghost results are the stored
        transitions, the car's state after each step, how the step loop
        ended, and the replayed batch. */
    method Run(startDraw: real, policy: (nat, seq<real>, real) -> int, cos: real -> real,
               exp: real -> real, predict: seq<real> -> seq<real>)
      returns (ghost trace: seq<Transition>, ghost states: seq<CarState>, ghost exit: Exit,
               ghost batch: seq<Transition>)
      requires 0.0 <= startDraw < 1.0
      requires memory.Valid()
      requires model.numStates == 2
      requires WellFormed(memory.samples, model.numStates, model.numActions)
      requires forall k, v, e :: 0 <= policy(k, v, e) < model.numActions
      requires forall v :: |predict(v)| == model.numActions
      modifies this, mountainCar, memory, model
      // the game, as `Play` states it
      ensures memory.Valid() && WellFormed(memory.samples, model.numStates, model.numActions)
      ensures memory.samples == PushedAll(old(memory.samples), trace, memory.maxMemory)
      ensures Played(Game(mountainCar, mountainCar.StartState(startDraw), old(eps), old(steps)), policy, cos, exp,
                     trace, states)
      ensures Ended(mountainCar, states, maxStepsPerGame, stopRequested, exit)
      ensures mountainCar.State() == Before(mountainCar.StartState(startDraw), states, |trace|)
      ensures steps == old(steps) + |trace|
      ensures eps == EpsAt(old(eps), old(steps), exp, |trace|)
      ensures exit == Halted ==> rewardStore == old(rewardStore) && maxPositionStore == old(maxPositionStore)
      ensures exit != Halted ==> rewardStore == old(rewardStore) + [TotalReward(trace)]
      ensures exit != Halted ==> maxPositionStore == old(maxPositionStore) + [Furthest(-100.0, states)]
      // the final replay
      ensures |model.trainingLog| == |old(model.trainingLog)| + 1
      ensures model.trainingLog[..|old(model.trainingLog)|] == old(model.trainingLog)
      ensures ReplayedOn(batch, memory.samples, model.batchSize, model.trainingLog[|old(model.trainingLog)|],
                         predict, discountRate, model.numStates)
    {
      trace, states, exit := Play(startDraw, policy, cos, exp);
      PlayedStorable(Game(mountainCar, mountainCar.StartState(startDraw), old(eps), old(steps)), policy, cos, exp,
                     trace, states, model.numActions);
      PushedAllWellFormed(old(memory.samples), trace, memory.maxMemory, model.numStates, model.numActions);
      ghost var fit;
      batch, fit := Replay(predict);
    }

    /** The game part of `run`: reset the car, step it with `Steps` until
        the goal, the step limit or a stop request, storing every step in
        memory, then record the game's total reward and furthest position
        unless the loop guard ended it. */
    method Play(startDraw: real, policy: (nat, seq<real>, real) -> int, cos: real -> real, exp: real -> real)
      returns (ghost trace: seq<Transition>, ghost states: seq<CarState>, ghost exit: Exit)
      requires 0.0 <= startDraw < 1.0
      requires memory.Valid()
      modifies this`eps, this`steps, this`rewardStore, this`maxPositionStore
      modifies mountainCar`position, mountainCar`velocity, memory
      // the memory: one transition added per step, FIFO
      ensures memory.Valid()
      ensures memory.samples == PushedAll(old(memory.samples), trace, memory.maxMemory)
      // the steps
      ensures Played(Game(mountainCar, mountainCar.StartState(startDraw), old(eps), old(steps)), policy, cos, exp,
                     trace, states)
      ensures mountainCar.State() == Before(mountainCar.StartState(startDraw), states, |trace|)
      ensures steps == old(steps) + |trace|
      ensures eps == EpsAt(old(eps), old(steps), exp, |trace|)
      // how the loop ended, and what it recorded
      ensures Ended(mountainCar, states, maxStepsPerGame, stopRequested, exit)
      ensures exit == Halted ==> rewardStore == old(rewardStore) && maxPositionStore == old(maxPositionStore)
      ensures exit != Halted ==> rewardStore == old(rewardStore) + [TotalReward(trace)]
      ensures exit != Halted ==> maxPositionStore == old(maxPositionStore) + [Furthest(-100.0, states)]
    {
      mountainCar.SetRandomState(startDraw);
      var state := mountainCar.GetStateTensor();
      var over, totalReward, maxPosition;
      trace, states, over, totalReward, maxPosition := Steps(state, policy, cos, exp);
      exit := if !over then Halted else if mountainCar.Done(states[|trace| - 1]) then Solved else StepLimit;
      if over {
        Record(totalReward, maxPosition);
      }
    }

    /** The step loop of `run`, from the car's current state and its
        tensor `state`: act until the goal, the step limit or a stop
        request. `over` says whether the goal or the step limit ended it
        (rather than the loop guard); `totalReward` and `maxPosition` are
        the loop's running total and maximum. */
    method Steps(state: Tensor, policy: (nat, seq<real>, real) -> int, cos: real -> real, exp: real -> real)
      returns (ghost trace: seq<Transition>, ghost states: seq<CarState>,
               over: bool, totalReward: real, maxPosition: real)
      requires state.values == [mountainCar.position, mountainCar.velocity]
      requires memory.Valid()
      modifies mountainCar`position, mountainCar`velocity, memory, this`steps, this`eps
      ensures memory.Valid()
      ensures Advanced(Game(mountainCar, old(mountainCar.State()), old(eps), old(steps)), policy, cos, exp,
                       trace, states, mountainCar.State(), old(memory.samples), memory.samples, memory.maxMemory,
                       totalReward, maxPosition, steps, eps)
      ensures |trace| == 0 || |trace| <= maxStepsPerGame
      ensures NoStopBefore(stopRequested, |trace|)
      ensures over ==> trace != [] && (mountainCar.Done(states[|trace| - 1]) || |trace| == maxStepsPerGame)
      ensures !over ==> CutOff(mountainCar, states, maxStepsPerGame, stopRequested)
    {
      var state: Tensor := state;
      totalReward, maxPosition := 0.0, -100.0;
      var step := 0;
      trace, states, over := [], [], false;
      ghost var g := Game(mountainCar, mountainCar.State(), eps, steps);
      while step < maxStepsPerGame && step !in stopRequested
        invariant step == |trace|
        invariant step == 0 || step < maxStepsPerGame
        invariant memory.Valid()
        invariant Progress(g, policy, cos, exp, trace, states, mountainCar.State(), old(memory.samples), memory.samples, memory.maxMemory,
                           state, totalReward, maxPosition, steps, eps)
        invariant trace != [] ==> trace[|trace| - 1].nextState != null
        invariant states == [] || !mountainCar.Done(states[|states| - 1])
        invariant NoStopBefore(stopRequested, step)
        invariant !over
        decreases maxStepsPerGame - step
      {
        var sample, done;
        sample, done, state, totalReward, maxPosition :=
          TakeStep(state, step, policy, cos, exp, totalReward, maxPosition, g, trace, states, old(memory.samples));
        NoStopBeforeNext(stopRequested, step);
        step := step + 1;
        trace, states := trace + [sample], states + [mountainCar.State()];
        if done || step == maxStepsPerGame {
          over := true;
          break;
        }
      }
    }

    /** One pass of the step loop's body, up to counting the step: act
        from the car state tensor `state` at step `step`, raise the running
        maximum, carry the next state tensor forward unless the step ended
        the game, and add the reward. The ghost parameters are the game and
        its steps so far, and the memory's contents before the game. */
    method TakeStep(state: Tensor, step: nat, policy: (nat, seq<real>, real) -> int, cos: real -> real,
                    exp: real -> real, totalReward: real, maxPosition: real,
                    ghost g: Game, ghost trace: seq<Transition>, ghost states: seq<CarState>,
                    ghost samples0: seq<Transition>)
      returns (sample: Transition, done: bool, state1: Tensor, totalReward1: real, maxPosition1: real)
      requires g.car == mountainCar && step == |trace|
      requires memory.Valid()
      requires Progress(g, policy, cos, exp, trace, states, mountainCar.State(), samples0, memory.samples,
                        memory.maxMemory, state, totalReward, maxPosition, steps, eps)
      requires trace != [] ==> trace[|trace| - 1].nextState != null
      modifies mountainCar`position, mountainCar`velocity, memory, this`steps, this`eps
      ensures memory.Valid()
      ensures Progress(g, policy, cos, exp, trace + [sample], states + [mountainCar.State()], mountainCar.State(),
                       samples0, memory.samples, memory.maxMemory, state1, totalReward1, maxPosition1, steps, eps)
      ensures done == mountainCar.Done(mountainCar.State())
      ensures !done ==> sample.nextState != null
    {
      ghost var now, samples := mountainCar.State(), memory.samples;
      ghost var steps0, eps0 := steps, eps;
      sample, done := Act(state, step, policy, cos, exp);
      maxPosition1 := maxPosition;
      if mountainCar.position > maxPosition {
        maxPosition1 := mountainCar.position;
      }
      state1 := state;
      if sample.nextState != null {
        state1 := sample.nextState;
      }
      ProgressStep(g, policy, cos, exp, trace, states, now, samples0, samples, memory.maxMemory,
                   state, totalReward, maxPosition, steps0, eps0, sample, mountainCar.State(), state1, maxPosition1, eps);
      totalReward1 := totalReward + sample.reward;
    }

    /** Record a finished game's total reward and furthest position. */
    method Record(totalReward: real, maxPosition: real)
      modifies this`rewardStore, this`maxPositionStore
      ensures rewardStore == old(rewardStore) + [totalReward]
      ensures maxPositionStore == old(maxPositionStore) + [maxPosition]
    {
      rewardStore := rewardStore + [totalReward];
      maxPositionStore := maxPositionStore + [maxPosition];
    }

    /** One step of a game, from car state tensor `state` at step `step`:
        choose an action with the current exploration rate, move the car,
        store the transition, count the step and decay the exploration
        rate. */
    method Act(state: Tensor, step: nat, policy: (nat, seq<real>, real) -> int, cos: real -> real, exp: real -> real)
      returns (sample: Transition, done: bool)
      requires state.values == [mountainCar.position, mountainCar.velocity]
      modifies mountainCar`position, mountainCar`velocity, memory, this`steps, this`eps
      ensures StepOk(mountainCar, sample, step, old(mountainCar.State()), mountainCar.State(), policy, cos, old(eps))
      ensures sample.state == state
      ensures done == mountainCar.IsDone()
      ensures memory.samples == Pushed(old(memory.samples), sample, memory.maxMemory)
      ensures memory.disposed == old(memory.disposed) + Evicted(old(memory.samples), sample, memory.maxMemory)
      ensures old(memory.Valid()) ==> memory.Valid()
      ensures steps == old(steps) + 1 && eps == Epsilon(exp, steps)
    {
      var action := policy(step, state.values, eps);
      done := mountainCar.Update(action, cos);
      var reward := ComputeReward(mountainCar.position);
      var nextState: Tensor? := mountainCar.GetStateTensor();
      if done {
        nextState := null;
      }
      sample := Transition(state, action, reward, nextState);
      memory.AddSample(sample);
      steps := steps + 1;
      eps := Epsilon(exp, steps);
    }

    /** One training update: sample `batchSize` transitions, build their
        state rows and target rows, and fit the model on them. `predict` is
        the network's forward pass. */
    method Replay(predict: seq<real> -> seq<real>) returns (ghost batch: seq<Transition>, ghost fit: TrainingBatch)
      requires WellFormed(memory.samples, model.numStates, model.numActions)
      requires forall v :: |predict(v)| == model.numActions
      modifies model`trainingLog
      ensures exists positions :: IsDrawOf(batch, positions, memory.samples, model.batchSize)
      ensures forall i :: 0 <= i < |batch| ==> Targetable(batch[i], predict, model.numStates)
      ensures TrainingPair(batch, fit.xs, fit.ys, predict, discountRate, model.numStates)
      ensures forall i :: 0 <= i < |batch| ==> |fit.xs[i]| == model.numStates && |fit.ys[i]| == model.numActions
      ensures model.trainingLog == old(model.trainingLog) + [fit]
    {
      var sampled;
      ghost var positions;
      sampled, positions := memory.Sample(model.batchSize);
      forall i | 0 <= i < |sampled| ensures Targetable(sampled[i], predict, model.numStates) {
        assert sampled[i] in memory.samples;
      }
      var x, y := BuildTargets(sampled, predict, discountRate, model.numStates);
      forall i | 0 <= i < |sampled| ensures |x[i]| == model.numStates && |y[i]| == model.numActions {
        assert sampled[i] in memory.samples;
      }
      model.Train(x, y);
      batch, fit := sampled, TrainingBatch(x, y);
    }
  }
}
