/**
 * The model object of both variants: the unidirectional one
 * (bidirectional == false) and the bidirectional one (bidirectional == true).
 * Only the configuration bookkeeping is modelled; the layers themselves are not.
 */
module Encoder {
  import opened Wrappers
  import opened Config
  import opened Hidden
  import opened Tensors
  import opened Pooling
  import opened Directions

  /** The configuration options the modelled code reads. */
  datatype ModelConfig = ModelConfig(
    rnnType: string,
    hiddenSize: nat,
    rnnNlayers: nat,
    batchSize: nat,
    initialMeanValue: Prior,
    skipInitBias: bool)

  class Model {
    const bidirectional: bool
    const rnnType: string      // self.rnn_type
    const cell: Cell           // the kind of self.rnn
    const hiddenSize: nat
    const numOutputs: nat      // self.num_outputs
    const linearIn: nat        // in_features of self.linear
    const bias: array<real>    // self.linear.bias, one entry per output

    /** The facts the constructor establishes about its fields. */
    predicate Valid()
    {
      && SelectCell(rnnType) == Ok(cell)
      && linearIn == LinearInWidth(hiddenSize, bidirectional)
      && bias.Length == numOutputs
    }

    /** Number of directions of the recurrent layer. */
    function NumDirections(): nat
    {
      if bidirectional then 2 else 1
    }

    /** `__init__` once `rnn_type` is known to be valid (see Build for the error path). */
    constructor (config: ModelConfig, bidirectional: bool)
      requires config.rnnType in RnnTypes
      ensures Valid()
      ensures this.bidirectional == bidirectional && rnnType == config.rnnType
      ensures hiddenSize == config.hiddenSize
      ensures numOutputs == NumOutputs(config.initialMeanValue)
      ensures fresh(bias)
    {
      this.bidirectional := bidirectional;
      rnnType := config.rnnType;
      cell := SelectCell(config.rnnType).value;
      hiddenSize := config.hiddenSize;
      var outputs := NumOutputs(config.initialMeanValue);
      numOutputs := outputs;
      linearIn := LinearInWidth(config.hiddenSize, bidirectional);
      bias := new real[outputs];
    }

    /**
     * `init_hidden`: zero state of size (D * rnn_nlayers, batch_size,
     * hidden_size), D the number of directions; a pair (hidden, context)
     * for LSTM and a single tensor otherwise.
     */
    function InitHidden(config: ModelConfig, requiresGrad: bool): (h: State)
      ensures h.Tuple? <==> rnnType == "LSTM"
      ensures Valid() ==> (h.Tuple? <==> cell == LstmCell)
      ensures h.Leaf? ==>
        IsZeroTensor(h.tensor, NumDirections() * config.rnnNlayers, config.batchSize, config.hiddenSize, requiresGrad)
      ensures h.Tuple? ==> |h.items| == 2 && forall k :: 0 <= k < 2 ==>
        h.items[k].Leaf? &&
        IsZeroTensor(h.items[k].tensor, NumDirections() * config.rnnNlayers, config.batchSize, config.hiddenSize, requiresGrad)
    {
      var zeros := ZeroTensor(NumDirections() * config.rnnNlayers, config.batchSize, config.hiddenSize, requiresGrad);
      if rnnType == "LSTM" then Tuple([Leaf(zeros), Leaf(zeros)]) else Leaf(zeros)
    }

    /**
     * The pooling stage of `forward`, from the unpacked time-major encoder
     * output of width D * H to the linear layer's input: masked mean pooling,
     * preceded for two directions by the split and followed by the merge.
     * Either way the result is the masked mean of every channel of the
     * encoder output and is exactly as wide as the linear layer expects.
     */
    method PoolEncoderOutput(x: Cube, t: nat, n: nat, lens: seq<int>) returns (pooled: Matrix)
      requires Valid()
      requires IsCube(x, t, n, NumDirections() * hiddenSize)
      requires ValidLengths(lens, n, t)
      ensures IsMatrix(pooled, n, linearIn)
      ensures pooled == MeanOverTimeSpec(x, t, n, NumDirections() * hiddenSize, lens, false)
    {
      if bidirectional {
        pooled := PoolDirections(x, t, n, hiddenSize, lens);
      } else {
        var mot := MeanOverTime(x, t, n, hiddenSize, lens, false);
        pooled := Rows(mot);
      }
    }

    /**
     * The bias part of `init_weight`: every bias entry becomes BiasFill's
     * value, or, when the prior cannot be compared with 0, the call fails
     * and the bias is left as it was.
     */
    method InitWeight(config: ModelConfig, logit: real -> real) returns (r: Result<real, ConfigError>)
      modifies bias
      ensures r == BiasFill(config.skipInitBias, config.initialMeanValue, logit)
      ensures r.Ok? ==> forall k :: 0 <= k < bias.Length ==> bias[k] == r.value
      ensures r.Err? ==> unchanged(bias)
    {
      r := BiasFill(config.skipInitBias, config.initialMeanValue, logit);
      if r.Ok? {
        forall k | 0 <= k < bias.Length {
          bias[k] := r.value;
        }
      }
    }
  }

  /** `__init__` with its ValueError: a model exactly when `rnn_type` is one of the four accepted names. */
  method Build(config: ModelConfig, bidirectional: bool) returns (r: Result<Model, ConfigError>)
    ensures r.Err? <==> config.rnnType !in RnnTypes
    ensures r.Err? ==> r.error == InvalidRnnType(config.rnnType)
    ensures r.Ok? ==> fresh(r.value) && fresh(r.value.bias) && r.value.Valid()
    ensures r.Ok? ==> r.value.bidirectional == bidirectional && r.value.rnnType == config.rnnType
    ensures r.Ok? ==> r.value.hiddenSize == config.hiddenSize
    ensures r.Ok? ==> r.value.linearIn == LinearInWidth(config.hiddenSize, bidirectional)
    ensures r.Ok? ==> r.value.numOutputs == NumOutputs(config.initialMeanValue)
  {
    var selected := SelectCell(config.rnnType);
    if selected.Err? {
      return Err(selected.error);
    }
    var m := new Model(config, bidirectional);
    return Ok(m);
  }
}
