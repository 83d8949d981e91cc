# Aggregator configuration for distributed discrete-Gaussian federated learning

This project models, in Dafny, how the federated-learning experiments of the
`distributed_dp` package configure their server-side aggregator
(`distributed_dp/fl_utils.py`). Given the privacy flags (clip norm, epsilon, delta,
mechanism), the compression flags (bit width, beta, k standard deviations), the client
schedule and a client template, `build_aggregator`

- returns an unweighted mean, clipped when a clip norm is given, when epsilon is unset
  or `-1` (no DP);
- otherwise checks that epsilon and the clip are positive, records the shared
  parameters and dispatches on the lower-cased mechanism name:
  - `gaussian`: one fixed-noise stage whose noise multiplier comes from the privacy
    accountant;
  - `ddgauss`: pads the flattened dimension to a power of two, derives the modular range
    `[-2^(bits-1), 2^(bits-1))`, obtains gamma and the local standard deviation from
    the accountant, takes the scale `1/gamma` (failing when gamma is 0), asks the
    accountant for the L2 bound after rounding, and nests, inner to outer, a sum,
    modular clipping, the discrete DP query, L2 clipping and an unweighted mean;
  - anything else: an "Unsupported mechanism" error naming the flag as given.

Modules:

- `Dimensions` (`dimensions.dfy`): `get_total_dim` as `TotalDim` over a template of
  shapes, and `pad_dim` as `PadDim`, the smallest power of two at least the dimension.
- `Pipeline` (`pipeline.dfy`): the aggregation factories as a nested datatype whose
  tags carry the arguments each factory was built with, and the equivalent flat list of
  stages, innermost first, with the two conversions proved inverse.
- `FlUtils` (`fl_utils.dfy`): the flags, the parameter record, the error cases and
  `build_aggregator` as the method `BuildAggregator`, which rebinds its factory and
  extends its record step by step like the source; each mechanism branch is its own
  method, and each branch's outcome is spelled out by a predicate (`NoDPOutcome`,
  `GaussianOutcome`, `DDGaussOutcome` with `DDGaussScaledOutcome`).

The privacy accountant is a parameter of `BuildAggregator`: a record of three
arbitrary functions (`get_gauss_noise_multiplier`, `ddgauss_params` and
`rounded_l2_norm_bound`), where `None` stands for a call that raises. The division
`1.0 / gamma` (line 113) fails when the accountant returns gamma = 0, and the model
fails with `DivisionByZero` there. The properties proved hold for every choice of the
three functions. They say nothing about the values the model leaves out (see
"## Left out").

The model follows the code, which:

- checks neither `bits`, delta nor the range of the sampling rate. It fails on
  `num_clients == 0` only, by division by zero (line 54). The model does the same. It
  requires `bits >= 1` only when DP is requested, epsilon and the clip pass their
  checks, `num_clients` is not 0 and the mechanism is `ddgauss`, since only then is
  `2**(bits - 1)` evaluated.
- builds the Gaussian branch as one `gaussian_fixed` factory (lines 83-86), with no
  separate clipping or mean stage.
- takes the no-DP branch for `epsilon == -1` whatever the mechanism and delta flags
  say (line 42).

## Model

| member | source | states |
|---|---|---|
| `Dimensions.Product` | distributed_dp/fl_utils.py:29 | the element count of a tensor is 1 for a scalar and is 0 exactly when some axis has extent 0 |
| `Dimensions.ProductAppend` | distributed_dp/fl_utils.py:29 | the element count of a shape is multiplicative over splitting the shape |
| `Dimensions.TotalDim` | distributed_dp/fl_utils.py:27-29 | the flattened dimension is 0 for an empty template, is at least each tensor's element count, and is 0 exactly when every tensor is empty |
| `Dimensions.TotalDimAppend` | distributed_dp/fl_utils.py:27-29 | the flattened dimension is the sum over tensors: it is additive over splitting the template |
| `Dimensions.SingleTensorDim` | distributed_dp/fl_utils.py:27-29 | a one-tensor template has that tensor's element count |
| `Dimensions.PadDim` | distributed_dp/fl_utils.py:32-33 | for dim >= 1 the padded dimension is a power of two in [dim, 2 * dim); for dim = 0 it is 0, as 2^ceil(log2 0) is |
| `Dimensions.PadDimIsLeast` | distributed_dp/fl_utils.py:32-33 | no power of two at least dim is smaller than the padded dimension |
| `Dimensions.PadDimUnique` | distributed_dp/fl_utils.py:32-33 | a power of two is the padded dimension if and only if it lies in [dim, 2 * dim) |
| `Dimensions.PadDimOfPowerOfTwo` | distributed_dp/fl_utils.py:32-33 | a dimension that is already a power of two is left unchanged |
| `Dimensions.PadDimIdempotent` | distributed_dp/fl_utils.py:32-33 | padding a padded dimension changes nothing |
| `Dimensions.PadDimMillion` | distributed_dp/fl_utils.py:32-33 | 1000000 is padded to 1048576 = 2^20 |
| `Pipeline.Layers` | distributed_dp/fl_utils.py:140-169 | the stage list of a nested factory has exactly one innermost stage (a sum or a fixed Gaussian), and it comes first |
| `Pipeline.ComposeLayers` | distributed_dp/fl_utils.py:140-169 | wrapping the stages one at a time, innermost first, rebuilds the factory they were read from |
| `Pipeline.LayersCompose` | distributed_dp/fl_utils.py:140-169 | every stage list with one innermost stage in front is the stage list of the factory it builds |
| `Pipeline.LayersInjective` | distributed_dp/fl_utils.py:140-169 | two factories are equal exactly when their ordered stage lists are, so a stage list fixes the nesting |
| `FlUtils.Lower` | distributed_dp/fl_utils.py:56 | the dispatched mechanism name has the flag's length and lower-cases each of its characters |
| `FlUtils.LowerMatchesIgnoringCase` | distributed_dp/fl_utils.py:56 | the lower-cased flag equals a lower-case name exactly when the flag spells that name in any mix of cases, so dispatch is case-insensitive |
| `FlUtils.LowerIdempotent` | distributed_dp/fl_utils.py:56 | lower-casing twice is lower-casing once |
| `FlUtils.ModularRange` | distributed_dp/fl_utils.py:99-100 | the modular range [lo, hi) has width 2^bits, lo = -hi and lo < 0 < hi |
| `FlUtils.ModularRangeSixteenBits` | distributed_dp/fl_utils.py:99-100 | 16 bits give the range [-32768, 32768) and the modulus 65536 |
| `FlUtils.BuildNoDP` | distributed_dp/fl_utils.py:42-49 | without DP the factory is an unweighted mean of a sum, clipped exactly when a clip is given; construction fails exactly when that clip is not positive; the record holds only the clip |
| `FlUtils.BuildGaussian` | distributed_dp/fl_utils.py:75-90 | the continuous Gaussian factory is a single fixed-noise stage built from the accountant's noise multiplier; the record gains that multiplier; an accountant failure is passed on |
| `FlUtils.ScaleOf` | distributed_dp/fl_utils.py:113 | the quantization scale is defined for a nonzero gamma only, is nonzero, and is gamma's reciprocal |
| `FlUtils.BuildDDGauss` | distributed_dp/fl_utils.py:93-169 | inner to outer the stages are sum, modular clipping over a range of width 2^bits symmetric about 0, the DP query, L2 clipping, mean; the accountant and the query get the padded dimension while the record keeps the raw one; k_stddevs defaults to 4; the query gets the reciprocal of the recorded gamma as its scale; gamma = 0 fails as a division by zero, a failing accountant call fails the construction, and nothing else does |
| `FlUtils.BuildAggregator` | distributed_dp/fl_utils.py:36-174 | epsilon unset or -1 selects the no-DP outcome whatever the accountant; otherwise epsilon and then the clip must be positive before any mechanism is looked at; delta defaults to 1/num_clients; the lower-cased mechanism selects the Gaussian or discrete Gaussian outcome; any other name fails with a message ending in the flag as given |

## Left out

- `FlUtils.BuildDDGauss`: `central_stddev`, `noise_mult_clip` and
  `noise_mult_inflated` (lines 115, 116 and 119) need a square root of the number of
  clients per round. They are not modelled, and the model leaves those three keys out
  of the record. `scale` and `inflated_l2` (lines 113 and 117-118) are modelled, over
  exact reals instead of floats.
- `FlUtils.BuildDDGauss`: the model fails on gamma = 0, which is what Python does when
  gamma is a Python float. If `ddgauss_params` returned a numpy float instead,
  `1.0 / gamma` would give infinity with a warning, and construction would go on.
- `FlUtils.BuildAggregator`: Python's `assert` statements are taken to be active. Under
  `python -O` the three checks at lines 45, 52 and 53 would not run.
- `FlUtils.Lower`: only ASCII letters are lower-cased. Python's `str.lower` also maps
  other characters, but none of them lower-cases to a string made of the letters of
  `gaussian` or `ddgauss`. So the branch taken is the same for every flag, and a
  successful result records exactly `gaussian` or `ddgauss` either way.
- `Dimensions.PadDim`: the source computes `2^ceil(log2(dim))` in floating point and
  returns a float. The model is the exact integer it stands for. Rounding of `log2` at
  very large dimensions is not modelled.
- `Dimensions.TotalDim`: shapes are sequences of natural numbers. Unknown (`None`)
  extents and numpy's integer and float result types are not modelled.
- The privacy accountant (`accounting_utils`) is not part of this model. It is three
  arbitrary functions passed in, so its numeric results are never checked.
- `ModularClippingSumFactory`, `ddpquery_utils.build_ddp_query` and the
  `tff.aggregators` factories are not part of this model. Each one is a tag that
  carries the arguments it is built with. Their runtime behaviour (quantization, noise,
  modular reduction, the mean) is not modelled.
- Logging and `pprint` of the parameter dictionaries are observability only. The record
  is returned instead. Its keys are an enumeration that names the dictionary's keys.
- A missing `dp_mechanism` (which would fail on `.lower()`) is not modelled: the
  mechanism flag is always a string.
- `utils/datasets/emnist_dataset.py` and `optimization/tasks/emnist.py` are dataset
  loading and training-loop code, outside the aggregator configuration.
