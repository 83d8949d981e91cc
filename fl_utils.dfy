/** Construction of the federated aggregator: validation of the privacy flags, choice of
    mechanism (none, continuous Gaussian, distributed discrete Gaussian), derivation of
    the modular range and the record of parameters, and the nesting of the stages. */
module FlUtils {
  import opened Dimensions
  import opened Pipeline

  datatype Option<T> = None | Some(value: T)

  /** The privacy flags: clip norm, epsilon (None or -1 mean "no DP"), delta, mechanism. */
  datatype DPFlags = DPFlags(
    l2NormClip: Option<real>,
    epsilon: Option<real>,
    delta: Option<real>,
    dpMechanism: string)

  /** The compression flags read by the discrete mechanism. */
  datatype CompressionFlags = CompressionFlags(
    kStddevs: Option<real>,
    beta: real,
    numBits: nat)

  /** Arguments of the accountant's continuous Gaussian noise multiplier. */
  datatype GaussRequest = GaussRequest(
    targetEps: real,
    targetDelta: real,
    targetSamplingRate: real,
    steps: int)

  /** Arguments of the accountant's discrete Gaussian parameters. */
  datatype DDGaussRequest = DDGaussRequest(
    q: real,
    epsilon: real,
    l2ClipNorm: real,
    bits: nat,
    numClients: int,
    dim: nat,
    delta: real,
    beta: real,
    steps: int,
    k: real)

  /** The privacy accountant, which this model does not define: any three functions.
      None stands for an accountant that fails; ddgaussParams yields (gamma, local stddev);
      roundedL2NormBound takes an L2 norm, beta and a dimension and yields the norm bound
      after randomized rounding. */
  datatype Accountant = Accountant(
    gaussNoiseMultiplier: GaussRequest -> Option<real>,
    ddgaussParams: DDGaussRequest -> Option<(real, real)>,
    roundedL2NormBound: (real, real, nat) -> Option<real>)

  /** The keys of the parameter record, one per key name of the source's dictionary
      ("epsilon", "delta", "clip", "dim", "sampling_rate", "mechanism", "num_clients",
      "num_clients_per_round", "num_rounds", "noise_mult", "bits", "beta", "padded_dim",
      "gamma", "scale", "k_stddevs", "local_stddev", "inflated_l2"). */
  datatype ParamKey =
    | Epsilon | Delta | Clip | Dim | SamplingRate | Mechanism
    | NumClients | NumClientsPerRound | NumRounds
    | NoiseMult
    | Bits | Beta | PaddedDim | Gamma | Scale | KStddevs | LocalStddev | InflatedL2

  /** A value of the parameter record returned for audit. */
  datatype Param = NoneParam | IntParam(i: int) | RealParam(x: real) | StrParam(s: string)

  /** What construction returns: the outermost factory and the parameter record. */
  datatype Aggregator = Aggregator(factory: Factory, params: map<ParamKey, Param>)

  datatype BuildError =
    | NormClipNotPositive                     // no-DP branch, clip given but not positive
    | EpsilonNotPositive(epsilon: real)       // DP requested with epsilon <= 0
    | ClipNotPositive(clip: Option<real>)     // DP requested without a positive clip
    | DivisionByZero                          // zero clients, or gamma = 0 in 1 / gamma
    | AccountingFailed                        // the accountant could not meet the budget
    | UnsupportedMechanism(message: string)

  datatype Result<T> = Ok(value: T) | Err(error: BuildError)

  /** ASCII lower-casing of one character. */
  function LowerChar(c: char): char
  {
    if 'A' <= c <= 'Z' then (c as int + 32) as char else c
  }

  /** ASCII upper-casing of one character. */
  function UpperChar(c: char): char
  {
    if 'a' <= c <= 'z' then (c as int - 32) as char else c
  }

  /** The mechanism name as it is dispatched on: lower-cased. */
  function Lower(s: string): (r: string)
    ensures |r| == |s|
    ensures forall i :: 0 <= i < |s| ==> r[i] == LowerChar(s[i])
  {
    if s == [] then [] else [LowerChar(s[0])] + Lower(s[1..])
  }

  /** s spells the word w in any mix of upper and lower case. */
  predicate EqualsIgnoringCase(s: string, w: string)
  {
    |s| == |w| && forall i :: 0 <= i < |s| ==> s[i] == w[i] || s[i] == UpperChar(w[i])
  }

  predicate IsLowerWord(w: string)
  {
    forall i :: 0 <= i < |w| ==> 'a' <= w[i] <= 'z'
  }

  /** Lower-casing matches a lower-case word exactly when the string spells that word
      in any case: dispatch on the mechanism name is case-insensitive. */
  lemma LowerMatchesIgnoringCase(s: string, w: string)
    requires IsLowerWord(w)
    ensures Lower(s) == w <==> EqualsIgnoringCase(s, w)
  {
    if EqualsIgnoringCase(s, w) {
      assert forall i :: 0 <= i < |s| ==> Lower(s)[i] == w[i];
    }
  }

  lemma {:induction false} LowerIdempotent(s: string)
    ensures Lower(Lower(s)) == Lower(s)
  {
    if s != [] {
      LowerIdempotent(s[1..]);
      assert Lower(s)[1..] == Lower(s[1..]);
    }
  }

  /** The epsilon flags that select aggregation without DP. */
  predicate IsNoDPSentinel(epsilon: Option<real>)
  {
    epsilon.None? || epsilon.value == -1.0
  }

  /** DP was requested and both checks that precede the mechanism branches pass. */
  predicate PassesDPChecks(dp: DPFlags)
  {
    !IsNoDPSentinel(dp.epsilon) && dp.epsilon.value > 0.0 &&
    dp.l2NormClip.Some? && dp.l2NormClip.value > 0.0
  }

  /** Delta falls back to 1 / num_clients when the flag is unset or zero. */
  function DeltaOrDefault(delta: Option<real>, numClients: int): real
    requires numClients != 0
  {
    if delta.None? || delta.value == 0.0 then 1.0 / numClients as real else delta.value
  }

  /** k_stddevs falls back to 4 when the flag is unset or zero. */
  function KStddevsOrDefault(k: Option<real>): real
  {
    if k.None? || k.value == 0.0 then 4.0 else k.value
  }

  /** The signed range of the modular summation for the given bit width: lower bound
      included, upper bound excluded. */
  function ModularRange(bits: nat): (r: (int, int))
    requires bits >= 1
    ensures r.1 - r.0 == Pow2(bits)
    ensures r.0 == -r.1 && r.0 < 0 < r.1
  {
    (-(Pow2(bits - 1) as int), Pow2(bits - 1))
  }

  /** A 16-bit modular sum wraps at 65536, over [-32768, 32768). */
  lemma ModularRangeSixteenBits()
    ensures ModularRange(16) == (-32768, 32768)
    ensures Pow2(16) == 65536
  {
    assert Pow2(8) == 256;
    Pow2Add(8, 8);
    Pow2Add(7, 8);
  }


  /** The fraction of all clients sampled in each round. */
  function SamplingRateOf(numClients: int, numClientsPerRound: int): real
    requires numClients != 0
  {
    numClientsPerRound as real / numClients as real
  }

  /** The record every DP configuration starts from, before its mechanism adds to it:
      the budget, the raw (unpadded) dimension, the lower-cased mechanism and the schedule. */
  function SharedParams(
    dp: DPFlags, numClients: int, numClientsPerRound: int, numRounds: int, template: Template)
    : map<ParamKey, Param>
    requires PassesDPChecks(dp) && numClients != 0
  {
    map[
      Epsilon := RealParam(dp.epsilon.value),
      Delta := RealParam(DeltaOrDefault(dp.delta, numClients)),
      Clip := RealParam(dp.l2NormClip.value),
      Dim := IntParam(TotalDim(template)),
      SamplingRate := RealParam(SamplingRateOf(numClients, numClientsPerRound)),
      Mechanism := StrParam(Lower(dp.dpMechanism)),
      NumClients := IntParam(numClients),
      NumClientsPerRound := IntParam(numClientsPerRound),
      NumRounds := IntParam(numRounds)]
  }

  /** The stages of the no-DP configuration: the unweighted mean of a plain sum, wrapped in
      L2 clipping when a clip is given. */
  predicate NoDPOutcome(clip: Option<real>, r: Result<Aggregator>)
  {
    match clip
    case None =>
      r.Ok? && Layers(r.value.factory) == [Sum, UnweightedMean] &&
      r.value.params == map[Clip := NoneParam]
    case Some(c) =>
      if c > 0.0 then
        r.Ok? && Layers(r.value.factory) == [Sum, UnweightedMean, L2Clipping(c)] &&
        r.value.params == map[Clip := RealParam(c)]
      else r == Err(NormClipNotPositive)
  }

  /** The continuous Gaussian configuration: a single fixed-noise stage, with neither a
      separate mean nor a separate clipping stage, and the accountant's noise multiplier
      added to the record. */
  predicate GaussianOutcome(
    epsilon: real, delta: real, clip: real, samplingRate: real, numClientsPerRound: int,
    numRounds: int, accountant: Accountant, params: map<ParamKey, Param>, r: Result<Aggregator>)
  {
    match accountant.gaussNoiseMultiplier(GaussRequest(epsilon, delta, samplingRate, numRounds))
    case None => r == Err(AccountingFailed)
    case Some(m) =>
      r.Ok? && Layers(r.value.factory) == [GaussianFixed(m, numClientsPerRound, clip)] &&
      r.value.params == params + map[NoiseMult := RealParam(m)]
  }

  /** The accountant request of the discrete Gaussian configuration: it is given the
      padded dimension and k_stddevs after its default. */
  function DDGaussRequestOf(
    compression: CompressionFlags, epsilon: real, delta: real, clip: real,
    samplingRate: real, numClientsPerRound: int, numRounds: int, template: Template)
    : DDGaussRequest
  {
    DDGaussRequest(
      q := samplingRate,
      epsilon := epsilon,
      l2ClipNorm := clip,
      bits := compression.numBits,
      numClients := numClientsPerRound,
      dim := PadDim(TotalDim(template)),
      delta := delta,
      beta := compression.beta,
      steps := numRounds,
      k := KStddevsOrDefault(compression.kStddevs))
  }

  /** The distributed discrete Gaussian configuration. Inner to outer: a plain sum, modular
      clipping to the range of `bits`, the DP query (given the padded dimension and the
      scale 1 / gamma), L2 clipping, and the unweighted mean. The record keeps the raw
      dimension beside the padded one. It fails when either accountant call fails, and
      when gamma is 0, in the division 1 / gamma. */
  predicate DDGaussOutcome(
    compression: CompressionFlags, epsilon: real, delta: real, clip: real,
    samplingRate: real, numClientsPerRound: int, numRounds: int, template: Template,
    accountant: Accountant, params: map<ParamKey, Param>, r: Result<Aggregator>)
    requires compression.numBits >= 1
  {
    var dim := TotalDim(template);
    var range := ModularRange(compression.numBits);
    match accountant.ddgaussParams(DDGaussRequestOf(
      compression, epsilon, delta, clip, samplingRate, numClientsPerRound, numRounds, template))
    case None => r == Err(AccountingFailed)
    case Some(derived) =>
      if derived.0 == 0.0 then r == Err(DivisionByZero)
      else DDGaussScaledOutcome(compression, clip, template, derived.0, derived.1, accountant,
                                params, r)
  }

  /** The quantization scale: the reciprocal of gamma, which must not be 0. */
  function ScaleOf(gamma: real): (scale: real)
    requires gamma != 0.0
    ensures scale != 0.0 && scale * gamma == 1.0
  {
    1.0 / gamma
  }

  /** The discrete Gaussian configuration once the accountant has given a nonzero gamma
      and the local standard deviation: the query receives the scale 1 / gamma, and the
      record gains the L2 bound after rounding, brought back to the unscaled domain. */
  predicate DDGaussScaledOutcome(
    compression: CompressionFlags, clip: real, template: Template, gamma: real,
    localStddev: real, accountant: Accountant, params: map<ParamKey, Param>,
    r: Result<Aggregator>)
    requires compression.numBits >= 1 && gamma != 0.0
  {
    var dim := TotalDim(template);
    var range := ModularRange(compression.numBits);
    var scale := ScaleOf(gamma);
    match accountant.roundedL2NormBound(clip * scale, compression.beta, PadDim(dim))
    case None => r == Err(AccountingFailed)
    case Some(bound) =>
      var query := DDPQuery("ddgauss", localStddev, clip, compression.beta, PadDim(dim),
                            scale, template);
      r.Ok? &&
      Layers(r.value.factory) ==
        [Sum, ModularClipping(range.0, range.1), DPQuery(query), L2Clipping(clip),
         UnweightedMean] &&
      r.value.params == params + map[
        Bits := IntParam(compression.numBits),
        Beta := RealParam(compression.beta),
        Dim := IntParam(dim),
        PaddedDim := IntParam(PadDim(dim)),
        Gamma := RealParam(gamma),
        Scale := RealParam(scale),
        KStddevs := RealParam(KStddevsOrDefault(compression.kStddevs)),
        LocalStddev := RealParam(localStddev),
        Mechanism := StrParam("ddgauss"),
        InflatedL2 := RealParam(bound / scale)]
  }

  /** The no-DP branch: a mean, clipped when a positive clip is given. */
  method BuildNoDP(clip: Option<real>) returns (r: Result<Aggregator>)
    ensures NoDPOutcome(clip, r)
    ensures r.Ok? <==> clip.None? || clip.value > 0.0
    ensures r.Ok? ==> r.value.params.Keys == {Clip}
  {
    var agg := UnweightedMeanFactory(SumFactory);
    if clip.Some? {
      if !(clip.value > 0.0) {
        return Err(NormClipNotPositive);
      }
      agg := ClippingFactory(clip.value, agg);
    }
    var params := map[Clip := if clip.Some? then RealParam(clip.value) else NoneParam];
    return Ok(Aggregator(agg, params));
  }

  /** The continuous Gaussian branch. */
  method BuildGaussian(
    epsilon: real, delta: real, clip: real, samplingRate: real, numClientsPerRound: int,
    numRounds: int, accountant: Accountant, params: map<ParamKey, Param>)
    returns (r: Result<Aggregator>)
    ensures GaussianOutcome(
      epsilon, delta, clip, samplingRate, numClientsPerRound, numRounds, accountant, params, r)
    ensures r.Ok? ==> |Layers(r.value.factory)| == 1 && NoiseMult in r.value.params
  {
    var noiseMult := accountant.gaussNoiseMultiplier(GaussRequest(
      targetEps := epsilon,
      targetDelta := delta,
      targetSamplingRate := samplingRate,
      steps := numRounds));
    if noiseMult.None? {
      return Err(AccountingFailed);
    }
    var agg := GaussianFixedFactory(noiseMult.value, numClientsPerRound, clip);
    var gaussParams := map[NoiseMult := RealParam(noiseMult.value)];
    return Ok(Aggregator(agg, params + gaussParams));
  }

  /** The distributed discrete Gaussian branch. */
  method BuildDDGauss(
    compression: CompressionFlags, epsilon: real, delta: real, clip: real,
    samplingRate: real, numClientsPerRound: int, numRounds: int, template: Template,
    accountant: Accountant, params: map<ParamKey, Param>)
    returns (r: Result<Aggregator>)
    requires compression.numBits >= 1
    ensures DDGaussOutcome(compression, epsilon, delta, clip, samplingRate,
                           numClientsPerRound, numRounds, template, accountant, params, r)
    // The modular range is [-2^(bits-1), 2^(bits-1)): 2^bits values, symmetric about zero.
    ensures r.Ok? ==>
      var stage := Layers(r.value.factory)[1];
      stage.ModularClipping? && stage.upper - stage.lower == Pow2(compression.numBits) &&
      stage.lower == -stage.upper
    // The accountant and the query see the padded dimension; the record keeps both.
    ensures r.Ok? ==>
      var dim := TotalDim(template);
      Layers(r.value.factory)[2].DPQuery? &&
      Layers(r.value.factory)[2].query.paddedDim == PadDim(dim) &&
      r.value.params[Dim] == IntParam(dim) &&
      r.value.params[PaddedDim] == IntParam(PadDim(dim))
    // The query's scale is the reciprocal of the recorded gamma.
    ensures r.Ok? ==>
      r.value.params[Gamma].RealParam? &&
      Layers(r.value.factory)[2].query.scale * r.value.params[Gamma].x == 1.0
    // Only the accountant or a zero gamma can make this branch fail.
    ensures r.Err? ==> r.error == AccountingFailed || r.error == DivisionByZero
  {
    var paddedDim := PadDim(TotalDim(template));
    var kStddevs := KStddevsOrDefault(compression.kStddevs);
    var beta := compression.beta;
    var bits := compression.numBits;
    // The modular range excludes its upper bound.
    var range := ModularRange(bits);
    var modClipLo, modClipHi := range.0, range.1;

    var derived := accountant.ddgaussParams(DDGaussRequestOf(
      compression, epsilon, delta, clip, samplingRate, numClientsPerRound, numRounds, template));
    if derived.None? {
      return Err(AccountingFailed);
    }
    var gamma, localStddev := derived.value.0, derived.value.1;
    if gamma == 0.0 {
      return Err(DivisionByZero);
    }
    var scale := ScaleOf(gamma);
    var roundedBound := accountant.roundedL2NormBound(clip * ScaleOf(gamma), beta, paddedDim);
    if roundedBound.None? {
      r := Err(AccountingFailed);
      assert DDGaussScaledOutcome(
        compression, clip, template, gamma, localStddev, accountant, params, r);
      return;
    }
    var inflatedL2 := roundedBound.value / scale;

    var discreteParams := map[
      Bits := IntParam(bits),
      Beta := RealParam(beta),
      Dim := IntParam(TotalDim(template)),
      PaddedDim := IntParam(paddedDim),
      Gamma := RealParam(gamma),
      Scale := RealParam(scale),
      KStddevs := RealParam(kStddevs),
      LocalStddev := RealParam(localStddev),
      Mechanism := StrParam("ddgauss"),
      InflatedL2 := RealParam(inflatedL2)];

    // Each wrapping adds one stage outside those built before it.
    var agg := SumFactory;
    agg := ModularClippingSumFactory(modClipLo, modClipHi, agg);
    assert Layers(agg) == [Sum, ModularClipping(modClipLo, modClipHi)];
    var query := DDPQuery("ddgauss", localStddev, clip, beta, paddedDim, scale, template);
    agg := DifferentiallyPrivateFactory(query, agg);
    assert Layers(agg) == [Sum, ModularClipping(modClipLo, modClipHi), DPQuery(query)];
    agg := ClippingFactory(clip, agg);
    assert Layers(agg) ==
      [Sum, ModularClipping(modClipLo, modClipHi), DPQuery(query), L2Clipping(clip)];
    agg := UnweightedMeanFactory(agg);
    assert Layers(agg) ==
      [Sum, ModularClipping(modClipLo, modClipHi), DPQuery(query), L2Clipping(clip),
       UnweightedMean];
    r := Ok(Aggregator(agg, params + discreteParams));
    assert DDGaussScaledOutcome(
      compression, clip, template, gamma, localStddev, accountant, params, r);
  }

  /** Builds the aggregator and its parameter record, or fails before any factory exists. */
  method BuildAggregator(
    compression: CompressionFlags, dp: DPFlags, numClients: int,
    numClientsPerRound: int, numRounds: int, template: Template, accountant: Accountant)
    returns (r: Result<Aggregator>)
    requires PassesDPChecks(dp) && numClients != 0 && Lower(dp.dpMechanism) == "ddgauss" ==>
      compression.numBits >= 1
    // Epsilon None or -1: no DP, whatever the other flags and the accountant.
    ensures IsNoDPSentinel(dp.epsilon) ==> NoDPOutcome(dp.l2NormClip, r)
    // DP requested: epsilon, then the clip, are checked before any mechanism is looked at.
    ensures !IsNoDPSentinel(dp.epsilon) && dp.epsilon.value <= 0.0 ==>
      r == Err(EpsilonNotPositive(dp.epsilon.value))
    ensures !IsNoDPSentinel(dp.epsilon) && dp.epsilon.value > 0.0 &&
            !(dp.l2NormClip.Some? && dp.l2NormClip.value > 0.0) ==>
      r == Err(ClipNotPositive(dp.l2NormClip))
    ensures PassesDPChecks(dp) && numClients == 0 ==> r == Err(DivisionByZero)
    // Dispatch on the lower-cased mechanism; the error names the flag as given.
    ensures PassesDPChecks(dp) && numClients != 0 &&
            Lower(dp.dpMechanism) != "gaussian" && Lower(dp.dpMechanism) != "ddgauss" ==>
      r == Err(UnsupportedMechanism("Unsupported mechanism: " + dp.dpMechanism))
    ensures PassesDPChecks(dp) && numClients != 0 && Lower(dp.dpMechanism) == "gaussian" ==>
      GaussianOutcome(
        dp.epsilon.value, DeltaOrDefault(dp.delta, numClients), dp.l2NormClip.value,
        SamplingRateOf(numClients, numClientsPerRound), numClientsPerRound, numRounds,
        accountant, SharedParams(dp, numClients, numClientsPerRound, numRounds, template), r)
    ensures PassesDPChecks(dp) && numClients != 0 && Lower(dp.dpMechanism) == "ddgauss" ==>
      DDGaussOutcome(
        compression, dp.epsilon.value, DeltaOrDefault(dp.delta, numClients),
        dp.l2NormClip.value, SamplingRateOf(numClients, numClientsPerRound),
        numClientsPerRound, numRounds, template, accountant,
        SharedParams(dp, numClients, numClientsPerRound, numRounds, template), r)
  {
    var clip, epsilon := dp.l2NormClip, dp.epsilon;
    // No DP (the clip is still applied when given).
    if epsilon.None? || epsilon.value == -1.0 {
      r := BuildNoDP(clip);
      return;
    }

    if !(epsilon.value > 0.0) {
      return Err(EpsilonNotPositive(epsilon.value));
    }
    if !(clip.Some? && clip.value > 0.0) {
      return Err(ClipNotPositive(clip));
    }
    if numClients == 0 {
      return Err(DivisionByZero);
    }
    var samplingRate := SamplingRateOf(numClients, numClientsPerRound);
    var delta := DeltaOrDefault(dp.delta, numClients);
    var mechanism := Lower(dp.dpMechanism);
    var params := SharedParams(dp, numClients, numClientsPerRound, numRounds, template);

    if mechanism == "gaussian" {
      r := BuildGaussian(
        epsilon.value, delta, clip.value, samplingRate, numClientsPerRound, numRounds,
        accountant, params);
    } else if mechanism == "ddgauss" {
      r := BuildDDGauss(
        compression, epsilon.value, delta, clip.value, samplingRate, numClientsPerRound,
        numRounds, template, accountant, params);
    } else {
      r := Err(UnsupportedMechanism("Unsupported mechanism: " + dp.dpMechanism));
    }
  }
}
