/** The action-value network of src/model.ts, reduced to what the training
    core relies on: its topology, its stored hyperparameters, the log of
    training batches it has been fitted on, and the range of the action it
    chooses. Forward passes and gradient steps are not modelled. */
module ValueModel {

  datatype Activation = Relu | Linear

  /** `inputShape` of a dense layer: given, or left to be inferred. */
  datatype InputShape = Inferred | Given(dims: seq<int>)

  /** A `tf.layers.dense` layer. */
  datatype Layer = Dense(units: int, activation: Activation, inputShape: InputShape)

  /** The hidden-layer argument as a number or an array of numbers. */
  datatype Topology = Units(n: int) | UnitsList(sizes: seq<int>)

  /** The constructor's first argument: a topology, or an already built
      `tf.LayersModel`, represented by its layers. */
  datatype ModelSource = Fresh(topology: Topology) | Pretrained(layers: seq<Layer>)

  /** One call of `network.fit(xBatch, yBatch)`. */
  datatype TrainingBatch = TrainingBatch(xs: seq<seq<real>>, ys: seq<seq<real>>)

  /** The list of hidden sizes the constructor builds from a topology. */
  function HiddenSizes(t: Topology): (sizes: seq<int>)
    ensures t.Units? ==> sizes == [t.n]
    ensures t.UnitsList? ==> sizes == t.sizes
  {
    match t
    case Units(n) => [n]
    case UnitsList(s) => s
  }

  /** The hidden layer at index `i`: relu, and only the first one is told
      the input shape. */
  function HiddenLayer(units: int, i: nat, numStates: int): Layer
  {
    Dense(units, Relu, if i == 0 then Given([numStates]) else Inferred)
  }

  /** The layers `tf.sequential()` receives: one dense relu layer per hidden
      size, in order, then a linear output layer of `numActions` units. */
  function Stack(hidden: seq<int>, numStates: int, numActions: int): (layers: seq<Layer>)
    ensures |layers| == |hidden| + 1
    ensures forall i :: 0 <= i < |hidden| ==> layers[i].units == hidden[i] && layers[i].activation == Relu
    ensures layers[|hidden|] == Dense(numActions, Linear, Inferred)
    ensures forall i :: 0 <= i < |layers| ==> (layers[i].inputShape.Given? <==> i == 0 && hidden != [])
    ensures hidden != [] ==> layers[0].inputShape == Given([numStates])
  {
    seq(|hidden|, i requires 0 <= i < |hidden| => HiddenLayer(hidden[i], i, numStates))
      + [Dense(numActions, Linear, Inferred)]
  }

  /** The layers of the network the constructor ends up with. */
  function Layers(source: ModelSource, numStates: int, numActions: int): seq<Layer>
  {
    match source
    case Pretrained(layers) => layers
    case Fresh(t) => Stack(HiddenSizes(t), numStates, numActions)
  }

  /** `Math.floor` on a real. */
  function Floor(x: real): int
  {
    x.Floor
  }

  /** For `0 <= u < 1` and `n >= 1`, `floor(u * n)` is an index below `n`. */
  lemma FloorScaledBelow(u: real, n: int)
    requires 0.0 <= u < 1.0 && n >= 1
    ensures 0 <= Floor(u * n as real) < n
  {
    assert u * n as real < n as real by {
      assert (1.0 - u) * n as real > 0.0;
    }
  }

  /** The explore branch reaches action -1, which is not an index of a
      prediction row: replay, which indexes the row by the raw action, can
      be handed an action outside it. */
  lemma ExploreReachesMinusOne(m: Model, eps: real)
    requires eps > 0.0 && m.numActions >= 1
    ensures m.ChooseAction(eps, 0.0, 0.0, 0) == -1
  {
  }

  class Model {
    const numStates: int
    const numActions: int
    const batchSize: int
    const layers: seq<Layer>
    /** Every batch `train` has fitted the network on, oldest first. */
    var trainingLog: seq<TrainingBatch>

    /** Stores the hyperparameters and builds the layer list: a pretrained
        model is kept as it is; otherwise a number `n` stands for the hidden
        list `[n]`, one dense layer is added per hidden size, and the output
        layer comes last. A fresh network needs a hidden layer, the first
        layer added, to carry the input shape. */
    constructor (source: ModelSource, numStates: int, numActions: int, batchSize: int)
      requires source.Fresh? ==> HiddenSizes(source.topology) != []
      ensures this.numStates == numStates && this.numActions == numActions && this.batchSize == batchSize
      ensures layers == Layers(source, numStates, numActions)
      ensures trainingLog == []
    {
      this.numStates := numStates;
      this.numActions := numActions;
      this.batchSize := batchSize;
      trainingLog := [];
      match source {
        case Pretrained(given) =>
          layers := given;
        case Fresh(t) =>
          var hidden := HiddenSizes(t);
          var network: seq<Layer> := [];
          for i := 0 to |hidden|
            invariant network == seq(i, k requires 0 <= k < i => HiddenLayer(hidden[k], k, numStates))
          {
            network := network + [HiddenLayer(hidden[i], i, numStates)];
          }
          network := network + [Dense(numActions, Linear, Inferred)];
          layers := network;
      }
    }

    /** `network.fit(xBatch, yBatch)`: the parameters change; the model
        records which batch it was fitted on. */
    method Train(xBatch: seq<seq<real>>, yBatch: seq<seq<real>>)
      modifies this`trainingLog
      ensures trainingLog == old(trainingLog) + [TrainingBatch(xBatch, yBatch)]
    {
      trainingLog := trainingLog + [TrainingBatch(xBatch, yBatch)];
    }

    /** `chooseAction(state, eps)`. `explore` and `uniform` are the two
        `Math.random()` draws; `sampledIndex` is the index `tf.multinomial`
        draws from the normalised sigmoid of the network's prediction for the
        state, and is only drawn on the exploit branch. Either way the action
        is an index shifted down by one. */
    function ChooseAction(eps: real, explore: real, uniform: real, sampledIndex: int): (action: int)
      requires 0.0 <= uniform < 1.0
      requires explore >= eps ==> 0 <= sampledIndex < numActions
      ensures numActions >= 1 ==> -1 <= action <= numActions - 2
      ensures explore < eps ==> action == Floor(uniform * numActions as real) - 1
      ensures explore >= eps ==> action == sampledIndex - 1
    {
      if explore < eps then
        var action := Floor(uniform * numActions as real) - 1;
        if numActions >= 1 then FloorScaledBelow(uniform, numActions); action else action
      else
        sampledIndex - 1
    }
  }
}
