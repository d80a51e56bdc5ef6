/** The policy network of src/network.ts: the replay memory and the
    action-value model it owns, the episode loop of `train`, which plays one
    game per fresh orchestrator and reduces the games' furthest positions
    with `Math.max`, and the recovery of the hidden-layer sizes from the
    network's layers. */
module PolicyTraining {
  import opened Tensors
  import opened ReplayMemory
  import opened CarSimulator
  import opened ValueModel
  import opened Orchestration

  /** An element of the array `train` hands to `Math.max`: the furthest
      position of a recorded game, or `undefined` read from an empty
      store. */
  datatype Entry = Recorded(value: real) | Undefined

  /** The numbers `Math.max` can return on such an array. */
  datatype JsNumber = NegInfinity | NaN | Finite(value: real)

  /** One step of `Math.max`: `undefined` is NaN, and NaN absorbs. */
  function JsMax2(m: JsNumber, e: Entry): JsNumber
  {
    match e
    case Undefined => NaN
    case Recorded(x) =>
      match m
      case NaN => NaN
      case NegInfinity => Finite(x)
      case Finite(y) => Finite(if x > y then x else y)
  }

  /** `Math.max` over the first `n` entries of `s`. */
  function JsMaxOf(s: seq<Entry>, n: nat): JsNumber
    requires n <= |s|
    decreases n
  {
    if n == 0 then NegInfinity else JsMax2(JsMaxOf(s, n - 1), s[n - 1])
  }

  /** `Math.max(...s)`. */
  function JsMax(s: seq<Entry>): JsNumber
  {
    JsMaxOf(s, |s|)
  }

  /** `Math.max` over the first `n` entries: minus infinity when there are
      none, NaN exactly when one of them is `undefined`, and otherwise the
      largest of them. */
  lemma {:induction false} JsMaxOfIsMax(s: seq<Entry>, n: nat)
    requires n <= |s|
    ensures JsMaxOf(s, n) == NegInfinity <==> n == 0
    ensures JsMaxOf(s, n) == NaN <==> exists i :: 0 <= i < n && s[i] == Undefined
    ensures JsMaxOf(s, n).Finite? ==>
              (forall i :: 0 <= i < n ==> s[i].Recorded? && s[i].value <= JsMaxOf(s, n).value)
              && exists i :: 0 <= i < n && s[i] == Recorded(JsMaxOf(s, n).value)
    decreases n
  {
    if n > 0 {
      JsMaxOfIsMax(s, n - 1);
      var m := JsMaxOf(s, n - 1);
      if s[n - 1] == Undefined {
        assert JsMaxOf(s, n) == NaN;
      } else if m.Finite? {
        var i :| 0 <= i < n - 1 && s[i] == Recorded(m.value);
        if s[n - 1].value <= m.value {
          assert s[i] == Recorded(JsMaxOf(s, n).value);
        }
      }
    }
  }

  /** `Math.max(...s)` is minus infinity for an empty array, NaN exactly
      when some entry is `undefined`, and otherwise the largest entry. */
  lemma JsMaxIsMax(s: seq<Entry>)
    ensures JsMax(s) == NegInfinity <==> s == []
    ensures JsMax(s) == NaN <==> exists i :: 0 <= i < |s| && s[i] == Undefined
    ensures JsMax(s).Finite? ==>
              (forall i :: 0 <= i < |s| ==> s[i].Recorded? && s[i].value <= JsMax(s).value)
              && exists i :: 0 <= i < |s| && s[i] == Recorded(JsMax(s).value)
  {
    JsMaxOfIsMax(s, |s|);
  }

  /** The units of every layer but the last, in order. */
  function HiddenUnits(layers: seq<Layer>): (units: seq<int>)
    ensures |units| == if layers == [] then 0 else |layers| - 1
    ensures forall i :: 0 <= i < |units| ==> units[i] == layers[i].units
  {
    if layers == [] then [] else seq(|layers| - 1, i requires 0 <= i < |layers| - 1 => layers[i].units)
  }

  /** The answer of `hiddenLayerSizes` for a network with `layers`: a
      bare number when it has exactly one hidden layer, else the array. */
  function SizesOf(layers: seq<Layer>): (sizes: Topology)
    ensures |HiddenUnits(layers)| == 1 ==> sizes == Units(layers[0].units)
    ensures |HiddenUnits(layers)| != 1 ==> sizes == UnitsList(HiddenUnits(layers))
  {
    var units := HiddenUnits(layers);
    if |units| == 1 then Units(units[0]) else UnitsList(units)
  }

  /** The sizes read back from a network the model built from topology
      `t`: a number `n` comes back as `n`, an array that is not a
      singleton comes back equal, and `[n]` comes back as `n`. (An empty
      array builds no network.) */
  lemma SizesRoundTrip(t: Topology, numStates: int, numActions: int)
    ensures t.Units? ==> SizesOf(Layers(Fresh(t), numStates, numActions)) == t
    ensures t.UnitsList? && |t.sizes| >= 2 ==> SizesOf(Layers(Fresh(t), numStates, numActions)) == t
    ensures t.UnitsList? && |t.sizes| == 1 ==> SizesOf(Layers(Fresh(t), numStates, numActions)) == Units(t.sizes[0])
  {
    var layers := Layers(Fresh(t), numStates, numActions);
    assert HiddenUnits(layers) == HiddenSizes(t);
  }

  /** Feeding the sizes read back from any network to the constructor asks
      for exactly that network's hidden units. */
  lemma SizesRebuild(layers: seq<Layer>, numStates: int, numActions: int)
    ensures HiddenSizes(SizesOf(layers)) == HiddenUnits(layers)
    ensures Layers(Fresh(SizesOf(layers)), numStates, numActions)[..|HiddenUnits(layers)|] ==
            seq(|HiddenUnits(layers)|, i requires 0 <= i < |HiddenUnits(layers)| =>
                  HiddenLayer(layers[i].units, i, numStates))
  {
    var units := HiddenUnits(layers);
    if |units| == 1 {
      assert HiddenSizes(SizesOf(layers)) == [units[0]] == units;
    }
  }

  /** One game `train` played: its stored transitions, the car's state
      after each step, and how its step loop ended. */
  datatype GameRecord = GameRecord(trace: seq<Transition>, states: seq<CarState>, exit: Exit)

  /** The entry `train` pushes for a game on `car`: `undefined` when the
      game was cut off and its orchestrator recorded nothing, and otherwise
      the furthest position it reached. */
  ghost function Outcome(car: MountainCar, game: GameRecord, maxStepsPerGame: int, stopRequested: iset<nat>): Entry
  {
    if CutOff(car, game.states, maxStepsPerGame, stopRequested) then Undefined
    else Recorded(Furthest(-100.0, game.states))
  }

  /** `Math.max` over the entries of the games `train` played: minus
      infinity iff there were none, NaN iff one of them was cut off, and
      otherwise the furthest position any of them reached. */
  lemma OutcomesMax(car: MountainCar, games: seq<GameRecord>, store: seq<Entry>, maxStepsPerGame: int,
                    stopInGame: nat -> iset<nat>, best: JsNumber)
    requires |store| == |games|
    requires forall i :: 0 <= i < |games| ==> store[i] == Outcome(car, games[i], maxStepsPerGame, stopInGame(i))
    requires best == JsMax(store)
    ensures best == NegInfinity <==> games == []
    ensures best == NaN <==> exists i :: 0 <= i < |games| && CutOff(car, games[i].states, maxStepsPerGame, stopInGame(i))
    ensures best.Finite? ==> forall i :: 0 <= i < |games| ==> Furthest(-100.0, games[i].states) <= best.value
    ensures best.Finite? ==> exists i :: 0 <= i < |games| && Furthest(-100.0, games[i].states) == best.value
  {
    JsMaxIsMax(store);
    if best == NaN {
      var i :| 0 <= i < |store| && store[i] == Undefined;
      assert CutOff(car, games[i].states, maxStepsPerGame, stopInGame(i));
    }
    if i :| 0 <= i < |games| && CutOff(car, games[i].states, maxStepsPerGame, stopInGame(i)) {
      assert store[i] == Undefined;
    }
    if best.Finite? {
      var i :| 0 <= i < |store| && store[i] == Recorded(best.value);
      assert Furthest(-100.0, games[i].states) == best.value;
      forall j | 0 <= j < |games| ensures Furthest(-100.0, games[j].states) <= best.value {
        assert store[j].Recorded?;
      }
    }
  }

  /** The transitions of the first `n` games, in the order they were played. */
  function TracesOf(games: seq<GameRecord>, n: nat): seq<Transition>
    requires n <= |games|
    decreases n
  {
    if n == 0 then [] else TracesOf(games, n - 1) + games[n - 1].trace
  }

  function Traces(games: seq<GameRecord>): seq<Transition>
  {
    TracesOf(games, |games|)
  }

  lemma {:induction false} TracesOfPrefix(a: seq<GameRecord>, b: seq<GameRecord>, n: nat)
    requires n <= |a| && n <= |b|
    requires forall i :: 0 <= i < n ==> a[i] == b[i]
    ensures TracesOf(a, n) == TracesOf(b, n)
    decreases n
  {
    if n > 0 {
      TracesOfPrefix(a, b, n - 1);
    }
  }

  /** One more game appends its transitions. */
  lemma TracesSnoc(games: seq<GameRecord>, game: GameRecord)
    ensures Traces(games + [game]) == Traces(games) + game.trace
  {
    TracesOfPrefix(games + [game], games, |games|);
  }

  /** Game `game` is what a fresh orchestrator plays on `car`: it starts
      from the state `setRandomState` draws from `startDraw`, with rate
      `MAX_EPSILON` and no earlier steps, and its step loop ended as `run`'s
      does for the step limit and the stop polls `stopRequested`. */
  ghost predicate PlayedFresh(car: MountainCar, game: GameRecord, startDraw: real,
                              policy: (nat, seq<real>, real) -> int, cos: real -> real, exp: real -> real,
                              maxStepsPerGame: int, stopRequested: iset<nat>)
    requires 0.0 <= startDraw < 1.0
  {
    && Played(Game(car, car.StartState(startDraw), MAX_EPSILON, 0), policy, cos, exp, game.trace, game.states)
    && Ended(car, game.states, maxStepsPerGame, stopRequested, game.exit)
  }

  /** The invariant of `train`'s loop, on values: the games so far were not
      stopped before they began, each was played by an orchestrator on
      `car` sharing `memory` and `model`, from a fresh start, and `store`
      holds their outcomes in order. */
  ghost predicate Episodes(car: MountainCar, memory: Memory, model: Model, stopBeforeGame: iset<nat>,
                           startDraws: nat -> real, policies: nat -> ((nat, seq<real>, real) -> int),
                           cos: real -> real, exp: real -> real, maxStepsPerGame: int, stopInGame: nat -> iset<nat>,
                           store: seq<Entry>, games: seq<GameRecord>, orchestrators: seq<Orchestrator>)
    requires forall i :: 0.0 <= startDraws(i) < 1.0
  {
    && |games| == |store| == |orchestrators|
    && (forall j :: 0 <= j < |games| ==> j !in stopBeforeGame)
    && (forall j :: 0 <= j < |orchestrators| ==>
          orchestrators[j].mountainCar == car && orchestrators[j].memory == memory
          && orchestrators[j].model == model)
    && (forall j :: 0 <= j < |games| ==>
          PlayedFresh(car, games[j], startDraws(j), policies(j), cos, exp, maxStepsPerGame, stopInGame(j)))
    && (forall j :: 0 <= j < |games| ==> store[j] == Outcome(car, games[j], maxStepsPerGame, stopInGame(j)))
  }

  /** One more game, started because no stop was requested before it,
      keeps `Episodes`. */
  lemma EpisodesSnoc(car: MountainCar, memory: Memory, model: Model, stopBeforeGame: iset<nat>,
                     startDraws: nat -> real, policies: nat -> ((nat, seq<real>, real) -> int),
                     cos: real -> real, exp: real -> real, maxStepsPerGame: int, stopInGame: nat -> iset<nat>,
                     store: seq<Entry>, games: seq<GameRecord>, orchestrators: seq<Orchestrator>,
                     entry: Entry, game: GameRecord, used: Orchestrator)
    requires forall i :: 0.0 <= startDraws(i) < 1.0
    requires Episodes(car, memory, model, stopBeforeGame, startDraws, policies, cos, exp, maxStepsPerGame, stopInGame,
                      store, games, orchestrators)
    requires |games| !in stopBeforeGame
    requires used.mountainCar == car && used.memory == memory && used.model == model
    requires PlayedFresh(car, game, startDraws(|games|), policies(|games|), cos, exp, maxStepsPerGame, stopInGame(|games|))
    requires entry == Outcome(car, game, maxStepsPerGame, stopInGame(|games|))
    ensures Episodes(car, memory, model, stopBeforeGame, startDraws, policies, cos, exp, maxStepsPerGame, stopInGame,
                     store + [entry], games + [game], orchestrators + [used])
  {
    var store', games', orchestrators' := store + [entry], games + [game], orchestrators + [used];
    forall j | 0 <= j < |games'|
      ensures PlayedFresh(car, games'[j], startDraws(j), policies(j), cos, exp, maxStepsPerGame, stopInGame(j))
    {
      if j < |games| {
        assert games'[j] == games[j];
      }
    }
    assert forall j :: 0 <= j < |games| ==> store'[j] == store[j] && games'[j] == games[j];
    assert forall j :: 0 <= j < |games| ==> orchestrators'[j] == orchestrators[j];
  }

  /** The state a game through `states` from `start` leaves the car in. */
  function LastState(start: CarState, states: seq<CarState>): CarState
  {
    if states == [] then start else states[|states| - 1]
  }

  /** One more fit at the end of a log that already extends `log0`. */
  lemma LogSnoc(log0: seq<TrainingBatch>, before: seq<TrainingBatch>, after: seq<TrainingBatch>)
    requires |log0| <= |before| && before[..|log0|] == log0
    requires |after| == |before| + 1 && after[..|before|] == before
    ensures after == before + [after[|before|]]
    ensures after[..|log0|] == log0
    ensures after[|log0|..] == before[|log0|..] + [after[|before|]]
  {
    assert after == after[..|before|] + [after[|before|]];
  }

  /** Fit `j` of a call of `train` replayed, under `predicts(j)`, a draw
      `batches[j]` from the memory as it stood after game `j`: the old
      contents with the transitions of games `0..j` pushed on. */
  ghost predicate Fitted(samples: seq<Transition>, games: seq<GameRecord>, fits: seq<TrainingBatch>, maxMemory: int,
                         batchSize: int, predicts: nat -> (seq<real> -> seq<real>), discountRate: real,
                         numStates: int, batches: seq<seq<Transition>>)
  {
    && |fits| == |games| && |batches| == |games|
    && forall j :: 0 <= j < |games| ==>
         ReplayedOn(batches[j], PushedAll(samples, TracesOf(games, j + 1), maxMemory), batchSize, fits[j],
                    predicts(j), discountRate, numStates)
  }

  /** One more game whose fit replayed a draw from the memory as that game
      left it keeps `Fitted`. */
  lemma FittedSnoc(samples: seq<Transition>, games: seq<GameRecord>, fits: seq<TrainingBatch>, maxMemory: int,
                   batchSize: int, predicts: nat -> (seq<real> -> seq<real>), discountRate: real,
                   numStates: int, batches: seq<seq<Transition>>,
                   game: GameRecord, fit: TrainingBatch, batch: seq<Transition>)
    requires Fitted(samples, games, fits, maxMemory, batchSize, predicts, discountRate, numStates, batches)
    requires ReplayedOn(batch, PushedAll(samples, Traces(games + [game]), maxMemory), batchSize, fit,
                        predicts(|games|), discountRate, numStates)
    ensures Fitted(samples, games + [game], fits + [fit], maxMemory, batchSize, predicts, discountRate, numStates,
                   batches + [batch])
  {
    var games', fits', batches' := games + [game], fits + [fit], batches + [batch];
    forall j | 0 <= j < |games'|
      ensures ReplayedOn(batches'[j], PushedAll(samples, TracesOf(games', j + 1), maxMemory), batchSize, fits'[j],
                         predicts(j), discountRate, numStates)
    {
      if j < |games| {
        TracesOfPrefix(games', games, j + 1);
        assert batches'[j] == batches[j] && fits'[j] == fits[j];
      }
    }
  }

  class PolicyNetwork {
    const memory: Memory
    const model: Model

    /** What `train` relies on: the memory is within capacity and holds
        transitions replay can use, and the model reads two-value states. */
    ghost predicate Valid()
      reads this, memory
    {
      && memory.Valid()
      && model.numStates == 2
      && WellFormed(memory.samples, model.numStates, model.numActions)
    }

    /** A replay memory of 500 transitions and a model for 2 state values,
        3 actions and batches of 100. */
    constructor (source: ModelSource)
      requires source.Fresh? ==> HiddenSizes(source.topology) != []
      ensures fresh(memory) && fresh(model)
      ensures memory.maxMemory == 500 && memory.samples == [] && memory.disposed == {}
      ensures model.numStates == 2 && model.numActions == 3 && model.batchSize == 100
      ensures model.layers == Layers(source, 2, 3) && model.trainingLog == []
      ensures Valid()
    {
      memory := new Memory(500);
      model := new Model(source, 2, 3, 100);
    }

    /** The invariant of `train`'s loop: `Valid` and `Episodes` hold,
        the memory holds `samples0` with every game's
        transitions pushed on, the model's log is `log0` followed by one
        `Fitted` fit per game, and the car is where the last game left it,
        or in `state0` before the first. */
    ghost predicate Trained(car: MountainCar, discountRate: real, maxStepsPerGame: int,
                            stopBeforeGame: iset<nat>, stopInGame: nat -> iset<nat>, startDraws: nat -> real,
                            policies: nat -> ((nat, seq<real>, real) -> int),
                            predicts: nat -> (seq<real> -> seq<real>), cos: real -> real, exp: real -> real,
                            samples0: seq<Transition>, log0: seq<TrainingBatch>, state0: CarState,
                            store: seq<Entry>, games: seq<GameRecord>, orchestrators: seq<Orchestrator>,
                            batches: seq<seq<Transition>>)
      reads this, memory, model, car
      requires forall i :: 0.0 <= startDraws(i) < 1.0
    {
      && Valid()
      && Episodes(car, memory, model, stopBeforeGame, startDraws, policies, cos, exp, maxStepsPerGame, stopInGame,
                  store, games, orchestrators)
      && memory.samples == PushedAll(samples0, Traces(games), memory.maxMemory)
      && |model.trainingLog| == |log0| + |games| && model.trainingLog[..|log0|] == log0
      && Fitted(samples0, games, model.trainingLog[|log0|..], memory.maxMemory, model.batchSize, predicts,
                discountRate, model.numStates, batches)
      && car.State() == if games == [] then state0
                        else LastState(car.StartState(startDraws(|games| - 1)), games[|games| - 1].states)
    }

    /** `train`: play up to `numGames` games on `car`, each with a fresh
        orchestrator sharing this memory and model, while the poll of
        `stopRequested()` before game `i` (`i in stopBeforeGame`) says
        no; push each game's last recorded furthest position and return
        their `Math.max`. Game `i` draws its start from `startDraws(i)`,
        chooses actions with `policies(i)`, predicts with `predicts(i)`,
        and sees the stop polls `stopInGame(i)` inside its step loop. */
    method Train(car: MountainCar, discountRate: real, numGames: int, maxStepsPerGame: int,
                 stopBeforeGame: iset<nat>, stopInGame: nat -> iset<nat>, startDraws: nat -> real,
                 policies: nat -> ((nat, seq<real>, real) -> int),
                 predicts: nat -> (seq<real> -> seq<real>), cos: real -> real, exp: real -> real)
      returns (best: JsNumber, store: seq<Entry>, ghost games: seq<GameRecord>,
               ghost orchestrators: seq<Orchestrator>, ghost batches: seq<seq<Transition>>)
      requires Valid()
      requires forall i :: 0.0 <= startDraws(i) < 1.0
      requires forall i, k, v, e :: 0 <= policies(i)(k, v, e) < model.numActions
      requires forall i, v :: |predicts(i)(v)| == model.numActions
      modifies car, memory, model
      // `Valid` is kept; every game was started because no stop was polled
      // before it and was played from a fresh start by an orchestrator
      // sharing the car, memory and model; the memory holds all their
      // transitions pushed in order; the log gained one `Fitted` fit per
      // game after the fits it had; the car is where the last game left it
      ensures Trained(car, discountRate, maxStepsPerGame, stopBeforeGame, stopInGame, startDraws, policies,
                      predicts, cos, exp, old(memory.samples), old(model.trainingLog), old(car.State()),
                      store, games, orchestrators, batches)
      // how many games were played, and why no more
      ensures |games| == 0 || |games| <= numGames
      ensures |games| < numGames ==> |games| in stopBeforeGame
      // what was returned: one entry per game, `undefined` iff the game was cut off
      ensures forall i :: 0 <= i < |games| ==>
                (store[i].Undefined? <==> CutOff(car, games[i].states, maxStepsPerGame, stopInGame(i)))
      ensures forall i :: 0 <= i < |games| && store[i].Recorded? ==>
                store[i].value == Furthest(-100.0, games[i].states)
      ensures best == JsMax(store)
      ensures best == NegInfinity <==> games == []
      ensures best == NaN <==> exists i :: 0 <= i < |games| && CutOff(car, games[i].states, maxStepsPerGame, stopInGame(i))
      ensures best.Finite? ==> forall i :: 0 <= i < |games| ==> Furthest(-100.0, games[i].states) <= best.value
      ensures best.Finite? ==> exists i :: 0 <= i < |games| && Furthest(-100.0, games[i].states) == best.value
    {
      store, games, orchestrators, batches := [], [], [], [];
      var i := 0;
      while i < numGames && i !in stopBeforeGame
        invariant i == |games|
        invariant i == 0 || i <= numGames
        invariant Trained(car, discountRate, maxStepsPerGame, stopBeforeGame, stopInGame, startDraws, policies,
                          predicts, cos, exp, old(memory.samples), old(model.trainingLog), old(car.State()),
                          store, games, orchestrators, batches)
        decreases numGames - i
      {
        store, games, orchestrators, batches :=
          PlayNext(car, discountRate, maxStepsPerGame, stopBeforeGame, stopInGame, startDraws, policies, predicts,
                   cos, exp, store, games, orchestrators, batches,
                   old(memory.samples), old(model.trainingLog), old(car.State()));
        i := i + 1;
      }
      best := JsMax(store);
      OutcomesMax(car, games, store, maxStepsPerGame, stopInGame, best);
    }

    /** One pass of `train`'s loop: play the next game with `PlayGame`,
        add its entry, record, orchestrator and replayed batch to those of
        the games before, and so keep `Trained`. */
    method PlayNext(car: MountainCar, discountRate: real, maxStepsPerGame: int,
                    stopBeforeGame: iset<nat>, stopInGame: nat -> iset<nat>, startDraws: nat -> real,
                    policies: nat -> ((nat, seq<real>, real) -> int),
                    predicts: nat -> (seq<real> -> seq<real>), cos: real -> real, exp: real -> real,
                    store: seq<Entry>, ghost games: seq<GameRecord>, ghost orchestrators: seq<Orchestrator>,
                    ghost batches: seq<seq<Transition>>,
                    ghost samples0: seq<Transition>, ghost log0: seq<TrainingBatch>, ghost state0: CarState)
      returns (store': seq<Entry>, ghost games': seq<GameRecord>, ghost orchestrators': seq<Orchestrator>,
               ghost batches': seq<seq<Transition>>)
      requires forall i :: 0.0 <= startDraws(i) < 1.0
      requires forall i, k, v, e :: 0 <= policies(i)(k, v, e) < model.numActions
      requires forall i, v :: |predicts(i)(v)| == model.numActions
      requires |games| !in stopBeforeGame
      requires Trained(car, discountRate, maxStepsPerGame, stopBeforeGame, stopInGame, startDraws, policies,
                       predicts, cos, exp, samples0, log0, state0, store, games, orchestrators, batches)
      modifies car, memory, model
      ensures Trained(car, discountRate, maxStepsPerGame, stopBeforeGame, stopInGame, startDraws, policies,
                      predicts, cos, exp, samples0, log0, state0, store', games', orchestrators', batches')
      ensures |games'| == |games| + 1 && games'[..|games|] == games
      // one fit more, after every fit there was when the game began
      ensures model.trainingLog == old(model.trainingLog) + [model.trainingLog[|old(model.trainingLog)|]]
    {
      var i := |store|;
      assert i == |games|;
      var entry;
      ghost var game, orchestrator, batch;
      ghost var log := model.trainingLog;
      entry, game, orchestrator, batch := PlayGame(car, discountRate, maxStepsPerGame, stopInGame(i), startDraws(i),
                                                policies(i), predicts(i), cos, exp);
      LogSnoc(log0, log, model.trainingLog);
      PushedAllAppend(samples0, Traces(games), game.trace, memory.maxMemory);
      TracesSnoc(games, game);
      EpisodesSnoc(car, memory, model, stopBeforeGame, startDraws, policies, cos, exp, maxStepsPerGame, stopInGame,
                   store, games, orchestrators, entry, game, orchestrator);
      FittedSnoc(samples0, games, log[|log0|..], memory.maxMemory, model.batchSize, predicts, discountRate,
                 model.numStates, batches, game, model.trainingLog[|log|], batch);
      store', games', orchestrators' := store + [entry], games + [game], orchestrators + [orchestrator];
      batches' := batches + [batch];
      assert games'[|games|] == game;
    }

    /** The body of `train`'s loop: play one game on `car` with a fresh
        orchestrator that shares this memory and model, and read the last
        furthest position it recorded. */
    method PlayGame(car: MountainCar, discountRate: real, maxStepsPerGame: int, stopRequested: iset<nat>,
                    startDraw: real, policy: (nat, seq<real>, real) -> int, predict: seq<real> -> seq<real>,
                    cos: real -> real, exp: real -> real)
      returns (entry: Entry, ghost game: GameRecord, ghost used: Orchestrator, ghost batch: seq<Transition>)
      requires Valid()
      requires 0.0 <= startDraw < 1.0
      requires forall k, v, e :: 0 <= policy(k, v, e) < model.numActions
      requires forall v :: |predict(v)| == model.numActions
      modifies car, memory, model
      ensures Valid()
      ensures used.mountainCar == car && used.memory == memory && used.model == model
      ensures PlayedFresh(car, game, startDraw, policy, cos, exp, maxStepsPerGame, stopRequested)
      ensures memory.samples == PushedAll(old(memory.samples), game.trace, memory.maxMemory)
      ensures car.State() == LastState(car.StartState(startDraw), game.states)
      // one fit, on targets for a draw from the memory, after the earlier ones
      ensures |model.trainingLog| == |old(model.trainingLog)| + 1
      ensures model.trainingLog[..|old(model.trainingLog)|] == old(model.trainingLog)
      ensures ReplayedOn(batch, memory.samples, model.batchSize, model.trainingLog[|old(model.trainingLog)|],
                         predict, discountRate, model.numStates)
      // what `train` pushes for the game
      ensures entry.Undefined? <==> CutOff(car, game.states, maxStepsPerGame, stopRequested)
      ensures entry.Recorded? ==> entry.value == Furthest(-100.0, game.states)
    {
      var orchestrator := new Orchestrator(car, model, memory, discountRate, maxStepsPerGame, stopRequested);
      ghost var trace, states, exit;
      trace, states, exit, batch := orchestrator.Run(startDraw, policy, cos, exp, predict);
      var recorded := orchestrator.maxPositionStore;
      entry := if |recorded| == 0 then Undefined else Recorded(recorded[|recorded| - 1]);
      game, used := GameRecord(trace, states, exit), orchestrator;
      HaltedIffCutOff(car, states, maxStepsPerGame, stopRequested, exit);
    }

    /** `hiddenLayerSizes`: collect the units of every layer but the output
        layer, then answer a bare number for a single hidden layer. */
    method HiddenLayerSizes() returns (sizes: Topology)
      ensures sizes == SizesOf(model.layers)
    {
      var layers := model.layers;
      var units: seq<int> := [];
      var i := 0;
      while i < |layers| - 1
        invariant 0 <= i && (i == 0 || i <= |layers| - 1)
        invariant units == HiddenUnits(layers)[..i]
      {
        units := units + [layers[i].units];
        i := i + 1;
      }
      assert units == HiddenUnits(layers);
      sizes := if |units| == 1 then Units(units[0]) else UnitsList(units);
    }
  }
}
