# Mountain-car DQN training core, in Dafny

This project models the training core of a browser agent that learns to drive the
mountain car with deep Q-learning. The agent is written in TypeScript on top of
TensorFlow.js. The model covers five pieces:

- **the replay memory** (`src/memory.ts`): a FIFO buffer of `[state, action, reward,
  nextState]` transitions. It evicts its oldest transition on overflow and disposes
  that transition's tensors.
- **the simulator** (`src/mountainCar.ts`): position and velocity, updated in place
  by a clamped physics step, plus the goal test.
- **the orchestrator** (`src/orchestrator.ts`): one game. The step loop chooses an
  action, moves the car, stores the transition, decays the exploration rate, keeps
  the running reward and furthest position, and records the game's statistics when
  it ends. The replay then turns a sampled batch into temporal-difference targets
  and fits the model on them.
- **the value model** (`src/model.ts`): the layer list built from the hidden-layer
  argument, the stored hyperparameters, and the range of the explore/exploit action
  choice.
- **the policy network** (`src/network.ts`): `train`, which plays one game per fresh
  orchestrator over a shared memory and model and reduces the results with
  `Math.max`, and `hiddenLayerSizes`, which reads the topology back.

Each source file is one module:

| file | module | form |
|---|---|---|
| `tensors.dfy` | `Tensors` | a tensor is an object holding its values |
| `memory.dfy` | `ReplayMemory` | a `Memory` class whose `samples` and `disposed` fields the methods update; specification functions `Pushed` and `PushedAll` |
| `mountain_car.dfy` | `CarSimulator` | a `MountainCar` class with `position` and `velocity` fields; the step as the function `Next` |
| `model.dfy` | `ValueModel` | a `Model` class; topology and action choice as functions |
| `orchestrator.dfy` | `Orchestration` | an `Orchestrator` class; the step loop as a method with invariants, specified by the predicate `Played` |
| `network.dfy` | `PolicyTraining` | a `PolicyNetwork` class; `train` and `hiddenLayerSizes` as loops |

Everything the core cannot compute is a parameter of the model:

- `Math.random()` draws (`startDraw`, `explore`, `uniform`);
- `Math.cos` (`cos`) and `Math.exp` (`exp`);
- the action `chooseAction` returns at step `k` (`policy`);
- the network's forward pass (`predict`);
- which elements lodash `sampleSize` picks (a nondeterministic choice of distinct
  positions);
- the answers of the `stopRequested()` poll:
  - the orchestrator holds the set of step indices before which the poll says yes;
  - `train` holds such a set for the polls before each game.

Design notes:

- Memory and transitions:
  - A transition holds references to its tensors. `Memory.disposed` records every
    tensor the buffer has disposed, and `AddSample` adds exactly the evicted
    transition's tensors to it.
  - `maxMemory <= 0` is handled as the source handles it: the new sample is pushed
    and shifted out again at once.
- Exploration rate:
  - Each orchestrator starts with `eps = MAX_EPSILON` and `steps = 0`. Every game of
    `train` therefore restarts the exploration schedule.
  - The first step of a game uses the rate the orchestrator held on entry.
  - Step `i > 0` uses `Epsilon(exp, steps0 + i)`.
- The rewards 10, 20 and 100 of `computeReward` are unreachable. Its first branch
  already takes every non-negative position, and `ComputeReward` states that.
- Replay targets:
  - `replay` writes the new value into `currentQ[action]`, indexing the prediction
    row by the raw action (`src/orchestrator.ts:157`).
  - The model writes into that slot of the row. It therefore requires every stored
    action to be an index of the row, `0 <= action < numActions`.
  - `chooseAction` returns `floor(u * numActions) - 1` or `k - 1`, so its actions
    lie in `[-1, numActions - 2]` (`ValueModel.Model.ChooseAction`).
  - Its explore branch reaches `-1` (`ValueModel.ExploreReachesMinusOne`), which is
    not such an index.
  - `Orchestrator.Run` and `PolicyNetwork.Train` take the policy with this range
    requirement, as a precondition.
- Game statistics:
  - In the source, `run` pushes the total reward and furthest position inside the
    loop, just before `break`.
  - The model's `Steps` reports whether the loop ended by the goal or by the step
    limit, and `Play` then calls `Record`. What is recorded, and when, is the same.
  - `Orchestration.Ended` fixes how the loop ended from the steps it took, the step
    limit and the stop polls. `Orchestration.CutOff` is the case where the loop
    guard ended it: the last step did not reach the goal, and either no step was
    allowed or the poll before the next step said stop.
  - A game that was cut off records nothing. `train` then reads `undefined` from the
    orchestrator's empty store, and `Math.max` over the collected entries is NaN.
    `Entry` and `JsNumber` model this (`PolicyTraining.JsMaxIsMax`,
    `PolicyTraining.OutcomesMax`).
- Shared tensors:
  - Consecutive steps of a game share a tensor: `state = nextState` makes one
    transition's next state the following transition's state, and `Linked` states
    this of every played game.
  - When the memory shifts out the older transition of such a pair, it disposes
    the state of the transition that is now the oldest
    (`ReplayMemory.EvictionDisposesSharedState`). `replay` can later sample that
    transition and read its state.

## Model

| member | source | states |
|---|---|---|
| ReplayMemory.Evicted | src/memory.ts:23-26 | nothing is disposed while the buffer has room; on overflow the oldest transition's state and its non-null next state are disposed, and no other tensor |
| ReplayMemory.EvictionDisposesSharedState | src/memory.ts:21-27 | when the oldest stored transition's next state is the state of the one after it, an overflow shifts out the oldest and disposes the state of the transition that is now first |
| ReplayMemory.Pushed | src/memory.ts:21-27 | below capacity `addSample` appends; at or over capacity it drops the oldest element and appends; a buffer within capacity stays within it; with positive capacity the new sample is last |
| ReplayMemory.PushedAllSnoc | src/memory.ts:21-27 | adding `ts + [t]` is adding `ts` and then `t` |
| ReplayMemory.PushedAllAppend | src/memory.ts:21-27 | adding `a` and then `b` is adding `a + b`, so the memory shared by several games holds their transitions in order |
| ReplayMemory.PushedAllKeepsLatest | src/memory.ts:21-27 | a buffer within capacity holds, after any additions, exactly the `maxMemory` most recent transitions, in insertion order |
| ReplayMemory.PushedAllShape | src/memory.ts:21-27 | after additions the length is `min(maxMemory, old length + added)`, and when the additions fit they are all at the end |
| ReplayMemory.PushedAllFrom | src/memory.ts:21-27 | everything the buffer holds after additions was there before or was added |
| ReplayMemory.Memory.constructor | src/memory.ts:13-16 | a new buffer is empty, stores `maxMemory` and has disposed nothing |
| ReplayMemory.Memory.AddSample | src/memory.ts:21-27 | new contents are `Pushed(old contents, sample)`; capacity is kept; exactly the evicted transition's state and non-null next state are disposed |
| ReplayMemory.Memory.Sample | src/memory.ts:34-36 | the batch lists the elements at `clamp(n, 0, length of samples)` pairwise distinct positions; the contents are unchanged |
| CarSimulator.Clamp | src/mountainCar.ts:84-93 | `min(max(x, lo), hi)` lies in `[lo, hi]` and is `x` when `x` already does |
| CarSimulator.MountainCar.StartState | src/mountainCar.ts:57-63 | for a draw in `[0, 1)` the velocity is 0 and `-0.6 <= position < -0.4` |
| CarSimulator.MountainCar.Next | src/mountainCar.ts:81-98 | after a step the speed is within `maxSpeed`, the position within the walls, and the car never moves left at the left wall |
| CarSimulator.MountainCar.Done | src/mountainCar.ts:110-114 | the goal test holds iff `position >= 0.5 && velocity >= 0` |
| CarSimulator.MountainCar.IsDone | src/mountainCar.ts:110-114 | `isDone()` holds iff the current position is at least 0.5 and the velocity is non-negative |
| CarSimulator.MountainCar.constructor | src/mountainCar.ts:36-52 | the constants as given, and the state drawn as `setRandomState` draws it |
| CarSimulator.MountainCar.SetRandomState | src/mountainCar.ts:57-63 | only `position` and `velocity` change, to the drawn start state |
| CarSimulator.MountainCar.GetStateTensor | src/mountainCar.ts:68-70 | a fresh tensor holding `[position, velocity]` |
| CarSimulator.MountainCar.Update | src/mountainCar.ts:81-100 | only `position` and `velocity` change, to `Next` of the old state; the speed and position bounds and the inelastic left wall hold; the result is `isDone()` on the new state |
| ValueModel.HiddenSizes | src/model.ts:30-35 | a number `n` becomes the hidden list `[n]`; an array is kept as given |
| ValueModel.Stack | src/model.ts:36-47 | one relu layer per hidden size in order, then a linear output layer of `numActions` units; only the first hidden layer is given the input shape `[numStates]` |
| ValueModel.Model.constructor | src/model.ts:15-53 | for a pretrained model or a non-empty hidden list, `numStates`, `numActions` and `batchSize` are stored as given; the layers are the pretrained model's, or `Stack(HiddenSizes(t))`; nothing trained yet |
| ValueModel.Model.Train | src/model.ts:67-69 | the model records that it was fitted on exactly this batch |
| ValueModel.Model.ChooseAction | src/model.ts:75-88 | explore returns `floor(u * numActions) - 1`, exploit returns the sampled index minus one; either way the action lies in `[-1, numActions - 2]` |
| ValueModel.ExploreReachesMinusOne | src/model.ts:76-77 | the explore branch returns `-1` for the draw 0, so an action can fall outside the prediction row |
| Orchestration.ComputeReward | src/orchestrator.ts:62-74 | the reward is 5 for a non-negative position and 0 otherwise |
| Orchestration.Epsilon | src/orchestrator.ts:107-109 | while the decay factor `exp(-LAMBDA * steps)` is in `[0, 1]` the rate lies in `[MIN_EPSILON, MAX_EPSILON]`, and it stays above `MIN_EPSILON` while the factor is positive |
| Orchestration.EpsilonDecays | src/orchestrator.ts:104-109 | for an increasing `exp` the exploration rate stays in `(MIN_EPSILON, MAX_EPSILON]` and strictly decreases with every step |
| Orchestration.TotalRewardSnoc | src/orchestrator.ts:79-114 | one more step adds exactly its reward to the running total |
| Orchestration.FurthestSnoc | src/orchestrator.ts:94-96 | one more state raises the running maximum to its position iff that is further |
| Orchestration.FurthestOfIsMax | src/orchestrator.ts:80-96 | the running maximum over a prefix is at least its initial value, at least every position in the prefix, and equal to the initial value or to one of them |
| Orchestration.FurthestIsMax | src/orchestrator.ts:80-96 | the recorded `maxPosition` is at least -100, at least every post-step position, and equal to -100 or to one of them |
| Orchestration.Max | src/orchestrator.ts:158 | `nextQ.max()` is an element of the row and at least every element |
| Orchestration.NextInput | src/orchestrator.ts:131-133 | replay predicts from the next state's values, or from `numStates` zeros for a terminal transition |
| Orchestration.TdTarget | src/orchestrator.ts:157-159 | the target row is the prediction row except at the action's slot, which holds `reward` for a terminal transition and `reward + discountRate * max(nextQ)` otherwise |
| Orchestration.BuildTargets | src/orchestrator.ts:152-163 | one `x` row and one `y` row per batch element: the state's values and the target row |
| Orchestration.PushedAllWellFormed | src/orchestrator.ts:102 | adding transitions whose actions index the prediction row keeps every stored transition fit for replay |
| Orchestration.PlayedExtend | src/orchestrator.ts:82-115 | a played prefix of a game followed by one more step, taken from the last next state, is a played prefix one step longer |
| Orchestration.PlayedStorable | src/orchestrator.ts:87-102 | every transition stored by a policy whose actions index the row is fit for replay |
| Orchestration.PlayedOnlyLastDone | src/orchestrator.ts:98-121 | in a played game no step but the last reached the goal |
| Orchestration.ProgressStep | src/orchestrator.ts:86-115 | one loop pass keeps the loop invariant: memory, state tensor, running total and maximum, step count and exploration rate all advance by that step |
| Orchestration.HaltedIffCutOff | src/orchestrator.ts:82-122 | a step loop ended by its guard was cut off: no step allowed, or a stop poll said yes, before the goal or the step limit; and every cut-off loop was ended by its guard |
| Orchestration.Orchestrator.constructor | src/orchestrator.ts:31-56 | the components and parameters as given; `eps = MAX_EPSILON`, `steps = 0`, empty stores |
| Orchestration.Orchestrator.Run | src/orchestrator.ts:76-125 | the game as `Play` states it, including how its loop `Ended`, where the car was left and what the stores gained, then one replay that fits the model on targets for a valid draw from the memory |
| Orchestration.Orchestrator.Play | src/orchestrator.ts:76-123 | each step one transition pushed into memory; the steps are the game `Played` from the drawn start; `steps` rises by one per step; the loop `Ended`: no stop poll said yes before a step taken, at most `maxStepsPerGame` steps, and the exit is the goal at the last step, the step limit reached without it, or the guard (no step allowed, or the poll said stop); the stores gain the total reward and furthest position iff the exit was the goal or the step limit, and nothing otherwise |
| Orchestration.Orchestrator.Steps | src/orchestrator.ts:78-123 | the step loop: the same facts from the current state, and the running total is the sum of the rewards and the running maximum the furthest position; `over` holds iff goal or step limit ended it; a loop ended by its guard allowed no step or met a stop poll before its limit |
| Orchestration.Orchestrator.TakeStep | src/orchestrator.ts:86-114 | one pass of the loop body keeps the loop invariant for the game one step longer; `done` is the goal test on the new state, and a step that did not reach the goal leaves a next-state tensor to carry forward |
| Orchestration.Orchestrator.Record | src/orchestrator.ts:118-121 | each store gains exactly one entry |
| Orchestration.Orchestrator.Act | src/orchestrator.ts:87-109 | one step: the transition holds the old state tensor, the policy's action, the reward of the new position, and a next state that is null iff `update` returned done; memory is `Pushed`; `steps` is one higher and `eps` its decayed value |
| Orchestration.Orchestrator.Replay | src/orchestrator.ts:127-178 | the batch is a `sampleSize` draw of `batchSize` from memory; `x` and `y` have one row per batch element, of widths `numStates` and `numActions`; the model is fitted once, on them |
| PolicyTraining.JsMaxOfIsMax | src/network.ts:79 | `Math.max` over a prefix is minus infinity iff it is empty, NaN iff it holds `undefined`, and otherwise its largest element |
| PolicyTraining.JsMaxIsMax | src/network.ts:79 | `Math.max(...store)` is minus infinity iff no game was played, NaN iff some game recorded nothing, and otherwise the largest recorded position |
| PolicyTraining.HiddenUnits | src/network.ts:151-157 | the units of every layer but the last, in order |
| PolicyTraining.SizesOf | src/network.ts:150-159 | one hidden layer is answered by its bare number of units, any other count by the array of hidden units |
| PolicyTraining.SizesRoundTrip | src/network.ts:150-158 | reading back a network built from a number `n` gives `n`; from an array of two or more sizes, that array; from `[n]`, `n` |
| PolicyTraining.SizesRebuild | src/network.ts:150-158 | feeding the sizes read back to the model's constructor asks for exactly the network's hidden units |
| PolicyTraining.OutcomesMax | src/network.ts:74-79 | over the games' entries `Math.max` is minus infinity iff no game was played, NaN iff some game was cut off, and otherwise the furthest position any game reached |
| PolicyTraining.EpisodesSnoc | src/network.ts:62-76 | one more game, started because no stop was requested, keeps the invariant of `train`'s loop |
| PolicyTraining.FittedSnoc | src/network.ts:62-75 | one more game whose fit replayed a draw from the memory as that game left it extends the per-game record of fits; the fits of the earlier games still refer to the memory as each of them left it |
| PolicyTraining.PolicyNetwork.constructor | src/network.ts:32-35 | a memory of 500 and a model with 2 states, 3 actions and batches of 100, both fresh |
| PolicyTraining.PolicyNetwork.Train | src/network.ts:53-80 | at most `numGames` games, and no further game once a poll says stop; every orchestrator shares the car, the memory and the model; each game was played from a fresh start and its loop `Ended` under the game's stop polls and `maxStepsPerGame`; memory holds all games' transitions pushed in order; the model is fitted once per game, after the fits it already had; a game's entry is `undefined` iff it was cut off, and otherwise its furthest position; the result is `Math.max` of the entries: minus infinity iff no game was played, NaN iff a game was cut off, otherwise the furthest position of all games |
| PolicyTraining.PolicyNetwork.PlayNext | src/network.ts:62-75 | one pass of the game loop keeps its invariant for one more game: the new game was played fresh with this game's draw, policy and stop polls, its entry is `undefined` iff it was cut off, memory holds all games' transitions pushed in order, and the model has one more fit after the earlier ones |
| PolicyTraining.PolicyNetwork.PlayGame | src/network.ts:65-76 | one game with a fresh orchestrator, played from a fresh start, whose loop `Ended` under its stop polls and the step limit; the car is left on the game's last state; the model gains one fit, on temporal-difference targets for a draw from the memory, after its earlier fits; the entry is `undefined` iff the game was cut off, and otherwise the furthest position it reached |
| PolicyTraining.PolicyNetwork.HiddenLayerSizes | src/network.ts:150-159 | the answer is a bare number iff the network has exactly one hidden layer, and otherwise the array of hidden units |

## Left out

- TensorFlow.js numerics:
  - the network's forward pass, `fit`, `sigmoid`, `tf.multinomial` and `tf.tidy`;
  - `predict` and the sampled action index are parameters, and `fit` is recorded
    rather than computed.
- Disposal of the tensors `replay` creates:
  - the temporary prediction tensors and the `tx`/`ty` batches;
  - disposal is modelled only for the tensors the memory evicts.
- Floating point:
  - positions, velocities and rewards are exact reals;
  - `Math.cos` and `Math.exp` are arbitrary functions passed in;
  - `EpsilonDecays` assumes an increasing `exp` bounded by 1 on non-positive inputs.
- The JavaScript semantics of `currentQ[action] = …` on a tensor object:
  - it only sets a property on the object, so the row pushed into `y` would be the
    unchanged prediction;
  - the model performs the intended update of the row's slot.
- Orchestration.Orchestrator.Run: requires the policy's actions to index the
  prediction row (`0 <= action < numActions`), which `chooseAction` does not
  guarantee. This is the precondition of the raw-index write, not a promise of the
  source.
- PolicyTraining.PolicyNetwork.Train: carries the same requirement, and requires
  every start draw to lie in `[0, 1)`.
- Stop polls:
  - the polls of the one `stopRequested` callback are split into independent sets of
    indices, one for `train` and one per game;
  - the order in which one callback is polled across games is not modelled.
- `run` and `replay` return promises. Every `await` is a plain sequential call.
- Rendering and progress hooks: `maybeRenderDuringTraining`, `onGameEnd`, and all of
  `src/index.ts`, which only sets up the user interface.
- Persistence: `saveModel`, `loadModel`, `checkStoredModelStatus` and `removeModel`
  are IndexedDB I/O.
- Class structure:
  - `SaveablePolicyNetwork` extends `PolicyNetwork` only with persistence;
  - its `hiddenLayerSizes` is modelled as a method of `PolicyNetwork`.
- A pretrained `tf.LayersModel`:
  - it is represented by its list of layers;
  - `summary` and `compile` are left out;
  - the relation between a pretrained network and `numStates`/`numActions` is not
    checked, as the source does not check it.
- Tensor allocation in the step loop: `Act` and `Steps` do not state that each
  step's next-state tensor is a new object. Tensors are objects, and `Linked` and
  `Act` compare them by identity.
- Orchestration.Orchestrator.Replay: reads the values of every sampled tensor, also
  of one the memory has disposed (`ReplayMemory.EvictionDisposesSharedState` shows
  how one stays stored). TensorFlow.js refuses to read a disposed tensor; the model
  does not capture that failure, and `Replay` requires nothing of `Memory.disposed`.
- ReplayMemory.Memory.AddSample: records what it disposes in `disposed`, but no
  operation reads that record, and `Orchestrator.TakeStep`, `Orchestrator.Steps`,
  `Orchestrator.Play`, `Orchestrator.Run`, `PolicyNetwork.PlayGame`,
  `PolicyNetwork.PlayNext` and `PolicyNetwork.Train` do not state what it becomes.
  Disposing a tensor that a remaining transition still holds is logged, not
  prevented.
- ValueModel.Model.constructor: requires a pretrained model or a non-empty hidden
  list. For an empty array the output layer would be the first layer and would have
  no input shape, which TensorFlow.js rejects; that error path is not modelled.
- PolicyTraining.PolicyNetwork.constructor: carries the same requirement on the
  hidden-layer argument it passes on.
