/** The aggregation pipeline: stages nest, each factory wrapping the one built before
    it. A factory is equally described by its stages listed from the innermost (the
    summation) to the outermost; Layers and Compose convert between the two views. */
module Pipeline {
  import opened Dimensions

  /** Arguments of the distributed discrete Gaussian query. The query itself (quantize,
      add noise, demodulate, rescale) is not part of this model; scale is the
      quantization scale, the reciprocal of the accountant's gamma. */
  datatype DDPQuery = DDPQuery(
    mechanism: string,
    localStddev: real,
    l2NormBound: real,
    beta: real,
    paddedDim: nat,
    scale: real,
    template: Template)

  /** Aggregation factories, each tagged with the arguments it was built with. */
  datatype Factory =
    | SumFactory
    | GaussianFixedFactory(noiseMultiplier: real, clientsPerRound: int, clip: real)
    | ModularClippingSumFactory(lower: int, upper: int, inner: Factory)
    | DifferentiallyPrivateFactory(query: DDPQuery, inner: Factory)
    | ClippingFactory(clippingNorm: real, inner: Factory)
    | UnweightedMeanFactory(inner: Factory)

  /** One stage of the pipeline. Sum and GaussianFixed end a pipeline; every other
      stage wraps the stages inside it. */
  datatype Stage =
    | Sum
    | GaussianFixed(noiseMultiplier: real, clientsPerRound: int, clip: real)
    | ModularClipping(lower: int, upper: int)
    | DPQuery(query: DDPQuery)
    | L2Clipping(clippingNorm: real)
    | UnweightedMean
  {
    predicate IsInnermost() {
      Sum? || GaussianFixed?
    }
  }

  /** A stage list that describes some factory: the innermost stage first, and only there. */
  predicate WellFormed(stages: seq<Stage>)
  {
    |stages| >= 1 && stages[0].IsInnermost() &&
    forall i :: 1 <= i < |stages| ==> !stages[i].IsInnermost()
  }

  /** The stages of a factory, innermost first. */
  function Layers(f: Factory): (stages: seq<Stage>)
    ensures WellFormed(stages)
    ensures |stages| == 1 <==> f.SumFactory? || f.GaussianFixedFactory?
  {
    match f
    case SumFactory => [Sum]
    case GaussianFixedFactory(n, k, c) => [GaussianFixed(n, k, c)]
    case ModularClippingSumFactory(lo, hi, inner) => Layers(inner) + [ModularClipping(lo, hi)]
    case DifferentiallyPrivateFactory(q, inner) => Layers(inner) + [DPQuery(q)]
    case ClippingFactory(c, inner) => Layers(inner) + [L2Clipping(c)]
    case UnweightedMeanFactory(inner) => Layers(inner) + [UnweightedMean]
  }

  /** The factory of an innermost stage. */
  function Innermost(s: Stage): Factory
    requires s.IsInnermost()
  {
    if s.Sum? then SumFactory
    else GaussianFixedFactory(s.noiseMultiplier, s.clientsPerRound, s.clip)
  }

  /** The factory of a wrapping stage around an already built inner factory. */
  function Wrap(s: Stage, inner: Factory): Factory
    requires !s.IsInnermost()
  {
    if s.ModularClipping? then ModularClippingSumFactory(s.lower, s.upper, inner)
    else if s.DPQuery? then DifferentiallyPrivateFactory(s.query, inner)
    else if s.L2Clipping? then ClippingFactory(s.clippingNorm, inner)
    else UnweightedMeanFactory(inner)
  }

  /** Builds a factory from its stages, innermost first, wrapping one stage at a time. */
  function Compose(stages: seq<Stage>): Factory
    requires WellFormed(stages)
    decreases |stages|
  {
    if |stages| == 1 then Innermost(stages[0])
    else Wrap(stages[|stages| - 1], Compose(stages[..|stages| - 1]))
  }

  /** Composing the stages of a factory gives that factory back: the stage list loses
      nothing about the nesting. */
  lemma {:induction false} ComposeLayers(f: Factory)
    ensures Compose(Layers(f)) == f
  {
    match f
    case SumFactory =>
    case GaussianFixedFactory(_, _, _) =>
    case ModularClippingSumFactory(_, _, inner) =>
      ComposeLayers(inner);
      assert Layers(f)[..|Layers(f)| - 1] == Layers(inner);
    case DifferentiallyPrivateFactory(_, inner) =>
      ComposeLayers(inner);
      assert Layers(f)[..|Layers(f)| - 1] == Layers(inner);
    case ClippingFactory(_, inner) =>
      ComposeLayers(inner);
      assert Layers(f)[..|Layers(f)| - 1] == Layers(inner);
    case UnweightedMeanFactory(inner) =>
      ComposeLayers(inner);
      assert Layers(f)[..|Layers(f)| - 1] == Layers(inner);
  }

  /** Every well-formed stage list is the stage list of the factory it composes to. */
  lemma {:induction false} LayersCompose(stages: seq<Stage>)
    requires WellFormed(stages)
    ensures Layers(Compose(stages)) == stages
  {
    var n := |stages| - 1;
    if n == 0 {
      assert Layers(Innermost(stages[0])) == [stages[0]];
    } else {
      LayersCompose(stages[..n]);
      LayersWrap(stages[n], Compose(stages[..n]));
      assert stages == stages[..n] + [stages[n]];
    }
  }

  /** Wrapping a factory adds its stage outside all the others. */
  lemma LayersWrap(s: Stage, inner: Factory)
    requires !s.IsInnermost()
    ensures Layers(Wrap(s, inner)) == Layers(inner) + [s]
  {
  }

  /** Two factories are equal exactly when their stage lists are. */
  lemma LayersInjective(f: Factory, g: Factory)
    ensures Layers(f) == Layers(g) <==> f == g
  {
    ComposeLayers(f);
    ComposeLayers(g);
  }
}
