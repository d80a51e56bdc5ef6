/** The one thing the training core needs from a TensorFlow.js tensor: the
    values it holds. A tensor is an object, so two transitions can share
    one; which tensors have been released by `dispose()` is recorded by the
    replay memory that disposes them. */
module Tensors {

  class Tensor {
    /** The tensor's values, flattened; a tensor never changes its values. */
    const values: seq<real>

    constructor (values: seq<real>)
      ensures this.values == values
    {
      this.values := values;
    }
  }
}
