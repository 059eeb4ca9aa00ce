/**
 * Configuration handling shared by both models: the `rnn_type` dispatch, the
 * number of outputs, the linear layer's input width and the output-bias branch.
 */
module Config {
  import opened Wrappers

  datatype Nonlinearity = Tanh | Relu

  /** The recurrent layer the constructor builds: nn.LSTM, nn.GRU or nn.RNN with a nonlinearity. */
  datatype Cell = LstmCell | GruCell | RnnCell(nonlinearity: Nonlinearity)

  datatype ConfigError =
    | InvalidRnnType(name: string)   // the constructor's ValueError
    | PriorNotComparable             // `initial_mean_value > 0.` raises: None or a sequence

  /** The prior mean `initial_mean_value`: absent, a number, or a sequence of per-aspect means. */
  datatype Prior = NoPrior | Scalar(p: real) | Vector(ps: seq<real>)

  /** The dictionary {'RNN_TANH': 'tanh', 'RNN_RELU': 'relu'}. */
  const Nonlinearities: map<string, Nonlinearity> := map["RNN_TANH" := Tanh, "RNN_RELU" := Relu]

  /** Every `rnn_type` the constructor accepts. */
  const RnnTypes: set<string> := {"LSTM", "GRU", "RNN_TANH", "RNN_RELU"}

  /** The `rnn_type` string that names a cell. */
  function RnnTypeName(c: Cell): string
  {
    match c
    case LstmCell => "LSTM"
    case GruCell => "GRU"
    case RnnCell(Tanh) => "RNN_TANH"
    case RnnCell(Relu) => "RNN_RELU"
  }

  /**
   * The constructor's choice of recurrent layer: LSTM and GRU by name, the
   * two plain RNNs through the nonlinearity dictionary, anything else an error.
   */
  function SelectCell(rnnType: string): (r: Result<Cell, ConfigError>)
    ensures r.Ok? <==> rnnType in RnnTypes
    ensures r.Ok? ==> RnnTypeName(r.value) == rnnType
    ensures r.Err? ==> r.error == InvalidRnnType(rnnType)
  {
    if rnnType in ["LSTM", "GRU"] then
      Ok(if rnnType == "LSTM" then LstmCell else GruCell)
    else if rnnType in Nonlinearities then
      Ok(RnnCell(Nonlinearities[rnnType]))
    else
      Err(InvalidRnnType(rnnType))
  }

  /** Every cell is selected by its own name, so names and cells correspond one to one. */
  lemma SelectCellName(c: Cell)
    ensures SelectCell(RnnTypeName(c)) == Ok(c)
  {
  }

  /** `len(initial_mean_value)`, or 1 when `len` raises TypeError (a number or None). */
  function NumOutputs(prior: Prior): nat
  {
    match prior
    case Vector(ps) => |ps|
    case _ => 1
  }

  /** Input width of the linear layer: H for one direction, 2H for two. */
  function LinearInWidth(hiddenSize: nat, bidirectional: bool): nat
  {
    if bidirectional then 2 * hiddenSize else hiddenSize
  }

  /**
   * The value `init_weight` fills the output bias with. `logit` stands for
   * p |-> log(p) - log(1 - p). When the bias is not skipped the prior is
   * compared with 0, which Python refuses for None and for a sequence.
   */
  function BiasFill(skipInitBias: bool, prior: Prior, logit: real -> real): (r: Result<real, ConfigError>)
    ensures skipInitBias ==> r == Ok(0.0)
    ensures !skipInitBias ==> (r.Ok? <==> prior.Scalar?)
    ensures r.Err? ==> r.error == PriorNotComparable
    ensures r.Ok? && r.value != 0.0 ==> !skipInitBias && prior.Scalar? && prior.p > 0.0 && r.value == logit(prior.p)
    ensures !skipInitBias && prior.Scalar? && prior.p > 0.0 ==> r == Ok(logit(prior.p))
  {
    if skipInitBias then Ok(0.0)
    else match prior
      case Scalar(p) => Ok(if p > 0.0 then logit(p) else 0.0)
      case _ => Err(PriorNotComparable)
  }

  /**
   * With the linear weights at zero, an untrained model outputs
   * sigmoid(bias); for a prior strictly between 0 and 1 that is the prior
   * itself, given that sigmoid inverts logit there.
   */
  lemma UntrainedOutputIsPrior(p: real, logit: real -> real, sigmoid: real -> real)
    requires 0.0 < p < 1.0
    requires forall q :: 0.0 < q < 1.0 ==> sigmoid(logit(q)) == q
    ensures BiasFill(false, Scalar(p), logit).Ok?
    ensures sigmoid(BiasFill(false, Scalar(p), logit).value) == p
  {
  }
}
