# Masked pooling and configuration logic of the REGP / BREGP essay scorers

The repository scores variable-length token sequences with a value in [0, 1]
using embedding, a convolution, a recurrent encoder, masked mean pooling
over time and a linear layer with a sigmoid. It has a unidirectional model
(`models/regp.py`) and a bidirectional one (`models/bregp.py`). This project
models the parts of both that are index and configuration logic rather than
neural-network layers:

- `mean_over_time` (module `Pooling`): a fresh `[batch_size, input_size]`
  buffer is filled row by row; row `i` is the mean of the first
  `seq_lens[i]` time steps of sequence `i`. A time-major input is permuted
  `(1, 0, 2)` first. Python's slice `[:len]` stops at the number of time
  steps, so a length above it averages all steps; this clamping is modelled.
  Entries are `real`s.
- The bidirectional split and merge (module `Directions`): the `[T, N, 2H]`
  encoder output is viewed as `[T, N, 2, H]`, direction 0 (channels
  `0..H`) is the forward half and direction 1 (channels `H..2H`) the
  backward half, each is pooled, and the pooled halves are concatenated
  forward first. The model proves that the merged matrix is exactly the
  masked mean of every channel of the unsplit output, so the order of the
  halves matches the order of the channels.
- Configuration (module `Config`): the `rnn_type` dispatch over the closed
  set `LSTM`, `GRU`, `RNN_TANH`, `RNN_RELU` (the last two mapped to the
  `tanh` and `relu` nonlinearities, anything else a `ValueError`),
  `num_outputs`, the linear layer's input width `H` or `2H`, and the value
  the output bias is filled with.
- Recurrent state (module `Hidden`): `init_hidden`'s zero state and
  `repackage_hidden`, which detaches every tensor of a nested tuple. A
  tensor carries its size, its entries and a `requiresGrad` flag; `detach`
  keeps size and entries and clears the flag.
- The model object (module `Encoder`): one class `Model` stands for both
  files, with `bidirectional` false for `models/regp.py` (one direction,
  linear width `H`) and true for `models/bregp.py` (two directions, linear
  width `2H`). The constructor's `ValueError` is the `Err` result of `Build`.

Three behaviours of the code are modelled as written:

- A true length greater than the number of padded steps is clamped by the
  slice, not rejected.
- With `skip_init_bias` false, the bias branch evaluates
  `initial_mean_value > 0.`, which raises for `None` and for a sequence;
  only a number reaches the zero-or-logit choice (`BiasFill` returns
  `PriorNotComparable` otherwise). With `skip_init_bias` true the comparison
  is never evaluated and the bias is 0 whatever the prior.
- The bias branch does not guard a prior `>= 1`: it applies the logit to
  it anyway, as `BiasFill` does. The logit is a parameter of the model, so
  what that yields numerically is not modelled.

## Model

| member | source | states |
|---|---|---|
| `Pooling.MeanOverTime` | models/regp.py:73-91 | the result is a fresh `batch_size x input_size` buffer (`input_size` the last axis) whose rows are `MeanOverTimeSpec`: the time-major input is permuted `(1, 0, 2)` and row `i` is the mean of the first `min(seq_lens[i], steps)` steps; requires a positive length per row |
| `Pooling.MeanOverTimeMeaning` | models/bregp.py:76-86 | entry `(i, j)` equals the sum of channel `j` of sequence `i` over its first `n = min(seq_lens[i], steps)` steps, divided by `n`, with `0 < n <= steps`; for `batch_first=False` the summed entries are `seqs[t][i][j]`, for `batch_first=True` `seqs[i][t][j]` |
| `Pooling.PaddingInvariant` | models/bregp.py:86 | two inputs that agree on the first `seq_lens[i]` steps of row `i` pool to the same row `i`: padding never affects the mean, in either layout |
| `Pooling.LengthOne` | models/regp.py:89 | a sequence of true length 1 pools to its first time step exactly |
| `Pooling.RowIndependent` | models/regp.py:88-89 | a row with the same steps and length pools to the same vector at any batch position, so reordering the batch reorders the result |
| `Pooling.SumStepsCongruent` | models/regp.py:89 | sums over `n` steps are equal when the summed entries agree step by step, whatever the rows and channels |
| `Tensors.Permute102` | models/bregp.py:81 | `permute(1, 0, 2)` of a `[d0, d1, d2]` tensor has size `[d1, d0, d2]` and entry `r[b][a] == x[a][b]` |
| `Pooling.Clamp` | models/regp.py:89 | the slice `[:seq_lens[i]]` keeps `min(seq_lens[i], steps)` steps: no more than the length asked for nor than the steps present, and exactly one of the two |
| `Pooling.Mean` | models/regp.py:89 | `torch.mean(..., dim=0)` over `n` steps: the mean times `n` is the column sum over those steps |
| `Directions.View4` | models/bregp.py:111 | `view(T, N, 2, H)` of a `[T, N, 2H]` tensor has size `[T, N, 2, H]` |
| `Directions.Direction` | models/bregp.py:113 | `x[:, :, d, :]` of the view has size `[T, N, H]` |
| `Tensors.PermuteInvolutive` | models/regp.py:84 | `permute(1, 0, 2)` applied twice gives the tensor back |
| `Tensors.CatLast` | models/bregp.py:121 | `cat(dim=-1)` of two matrices: row `i` starts with row `i` of the first and ends with row `i` of the second |
| `Directions.ViewChannel` | models/bregp.py:111 | after `view(T, N, 2, H)`, channel `c < 2H` sits at direction `c / H` (0 or 1), offset `c % H` |
| `Directions.Split` | models/bregp.py:113 | the forward half holds channels `0..H` (`x_for[t][n][j] == x[t][n][j]`), the backward half channels `H..2H` (`x_back[t][n][j] == x[t][n][H + j]`), both of size `[T, N, H]` |
| `Directions.SplitConcat` | models/bregp.py:111-113 | the forward half followed by the backward half is the original channel vector: the split loses and reorders nothing |
| `Directions.PoolHalf` | models/bregp.py:119-120 | pooling a half equals pooling the matching channels of the whole output |
| `Directions.PoolDirections` | models/bregp.py:110-121 | the merged matrix is `N x 2H`, its first `H` columns are the pooled forward half and its last `H` the pooled backward half, and it equals the masked mean of the unsplit output channel by channel |
| `Config.SelectCell` | models/regp.py:24-34 | a layer is selected exactly when `rnn_type` is `LSTM`, `GRU`, `RNN_TANH` or `RNN_RELU`; the selected layer is named by that string (so `RNN_TANH` gives `tanh`, `RNN_RELU` gives `relu`); any other string is `InvalidRnnType` |
| `Config.SelectCellName` | models/bregp.py:25-37 | every layer kind is selected by its own name, so accepted names and layers correspond one to one |
| `Config.BiasFill` | models/regp.py:47-50 | skipped bias is 0; otherwise only a numeric prior is accepted, the bias is `logit(p)` when `p > 0` and 0 when `p <= 0`; a nonzero bias only arises from a positive prior that was not skipped |
| `Config.UntrainedOutputIsPrior` | models/bregp.py:50-51 | for `0 < p < 1`, and `sigmoid` inverting `logit`, the untrained output `sigmoid(bias)` is `p` |
| `Hidden.ZeroTensor` | models/regp.py:64-65 | `new_zeros` gives a tensor of the requested size whose every entry is 0, with the requested `requires_grad` |
| `Hidden.Detach` | models/regp.py:57 | `detach` keeps size and entries and clears `requires_grad` |
| `Hidden.Repackage` | models/regp.py:52-59 | the result has the input's structure (a tensor for a tensor, a tuple of the same length for a tuple) with equal sizes and entries, and no tensor in it requires grad |
| `Hidden.RepackageDetached` | models/bregp.py:55-62 | a state that is already detached is returned unchanged |
| `Hidden.RepackageIdempotent` | models/bregp.py:59-62 | repackaging twice equals repackaging once |
| `Encoder.Build` | models/bregp.py:21-44 | construction fails with `InvalidRnnType` exactly when `rnn_type` is not one of the four accepted names; otherwise the model is valid, keeps `rnn_type`, takes `hidden_size` from the configuration so its linear layer takes `Config.LinearInWidth` inputs: `H`, or `2H` when bidirectional (models/regp.py:41, models/bregp.py:44), and has `len(initial_mean_value)` outputs (1 for a number or `None`) |
| `Encoder.Model.constructor` | models/regp.py:21-41 | the layer matches `rnn_type`, the linear layer takes `H` inputs (`2H` when bidirectional) and has `num_outputs` biases, where `num_outputs` is `Config.NumOutputs`: the length of a sequence prior, and 1 when `len` raises `TypeError` on a number or `None` (models/regp.py:37-40) |
| `Encoder.Model.InitHidden` | models/bregp.py:64-74 | a pair of tensors exactly for `LSTM`, a single tensor otherwise; every tensor is zero of size `(D * rnn_nlayers, batch_size, hidden_size)` with `D = 2` for the bidirectional model and `D = 1` for the unidirectional one (models/regp.py:61-71) |
| `Encoder.Model.InitWeight` | models/bregp.py:46-53 | every bias entry becomes `BiasFill`'s value; on the error path the bias is unchanged |
| `Encoder.Model.PoolEncoderOutput` | models/regp.py:105-108 | the pooling stage of `forward` yields an `N x linear_in` matrix equal to the masked mean of every channel of the encoder output, for one direction and (through the split and merge) for two |

## Left out

- Embedding lookup, the convolution, the LSTM/GRU/RNN cells, `pack_padded_sequence` / `pad_packed_sequence`, `nn.Linear` and `torch.sigmoid`: library layers whose internals are not visible. The pooling stage takes the unpacked encoder output and its lengths as inputs.
- Dropout and Xavier-uniform initialisation (random); the model's bias array starts with arbitrary values, as `nn.Linear`'s random initial bias does. The Xavier step of `init_weight`, which runs before the bias branch even when that branch raises, is not modelled.
- Floating point: tensors hold `real`s, the mean is exact, and `log(p) - log(1 - p)` is the function parameter `logit` (so the non-finite bias a prior `>= 1` produces is not represented).
- Config.BiasFill: a numpy array prior of exactly one element, which Python would compare like a number, is treated like any other sequence (an error).
- Pooling.MeanOverTime: its precondition `ValidLengths` excludes three kinds of input the source does not reject up front: a zero or negative `seq_lens[i]` (the source yields a NaN row for zero and a slice counted from the end for a negative length); a `seq_lens` shorter than the batch (the source raises IndexError at `seq_lens[i]`); and a non-empty batch with zero time steps (every slice is empty and the source yields NaN rows even for positive lengths). The same precondition carries over to the pooling lemmas, `Directions.PoolDirections` and `Encoder.Model.PoolEncoderOutput`.
- `init_hidden` sizes its state from `config.batch_size`, not from the batch at hand; the model keeps that (the batch size is the configuration's) and leaves out the tensor's dtype and device taken from `next(self.parameters())`.
- Autograd beyond the `requires_grad` flag (graph history, gradient flow), `.squeeze()` of the output, device placement.
- The options passed only to layers (`vocab_size`, `emb_dim`, `embedding_pre`, `num_filters`, `window_size`, `cnn_stride`, `cnn_pad_size`, `rnn_nlayers` as a layer argument, `dropout_U`, `dropout_W`) are not part of the configuration record, except `rnn_nlayers` where it sizes the zero state.
