/** The per-pixel covariate vector the classifiers read, and how it is assembled
    from the input layers for training and for full-extent prediction. */
module Features {
  import opened Options

  /** The band list handed to both classifiers, in the order they read it. */
  const BandNames: seq<string> := ["NDVI", "LST_C", "NDBI", "Slope", "Pop_Density", "Noise"]

  /** Position of the synthetic jitter band in `BandNames`. */
  const NoiseBand: nat := 5

  datatype FeatureVector = FeatureVector(
    ndvi: real,
    lstC: real,
    ndbi: real,
    slope: real,
    popDensity: real,
    noise: real)

  /** One pixel of the extent: whether it lies inside the county boundary, and
      its five input layers, `None` where a layer is masked. */
  datatype Pixel = Pixel(
    inRegion: bool,
    ndvi: Option<real>,
    lstC: Option<real>,
    ndbi: Option<real>,
    slope: Option<real>,
    popDensity: Option<real>)

  /** The value of the band called `name` in `v`; undefined for a name that is
      not a band. */
  function Band(v: FeatureVector, name: string): Option<real> {
    if name == "NDVI" then Some(v.ndvi)
    else if name == "LST_C" then Some(v.lstC)
    else if name == "NDBI" then Some(v.ndbi)
    else if name == "Slope" then Some(v.slope)
    else if name == "Pop_Density" then Some(v.popDensity)
    else if name == "Noise" then Some(v.noise)
    else None
  }

  /** The band values of `v`, in `BandNames` order: position `b` holds the band
      named `BandNames[b]`. */
  function Values(v: FeatureVector): (r: seq<real>)
    ensures |r| == |BandNames|
    ensures forall b :: 0 <= b < |BandNames| ==> Band(v, BandNames[b]) == Some(r[b])
  {
    [v.ndvi, v.lstC, v.ndbi, v.slope, v.popDensity, v.noise]
  }

  /** Reads a band list back into a feature vector. */
  function FromValues(r: seq<real>): (v: FeatureVector)
    requires |r| == |BandNames|
    ensures Values(v) == r
  {
    FeatureVector(r[0], r[1], r[2], r[3], r[4], r[5])
  }

  /** A feature vector is determined by its band list. */
  lemma ValuesRoundTrip(v: FeatureVector)
    ensures FromValues(Values(v)) == v
  {
  }

  /** The input layers of a pixel, in the order they are stacked. */
  function Layers(p: Pixel): seq<Option<real>> {
    [p.ndvi, p.lstC, p.ndbi, p.slope, p.popDensity]
  }

  /** A masked value read as 0, the fill the stacks apply. */
  function Unmask(o: Option<real>): real {
    match o
    case Some(x) => x
    case None => 0.0
  }

  function UnmaskAll(layers: seq<Option<real>>): seq<real> {
    seq(|layers|, i requires 0 <= i < |layers| => Unmask(layers[i]))
  }

  /** The vector a training sample carries: the five layers with masked values
      filled with 0, followed by the jitter band. */
  function TrainingVector(p: Pixel, noise: real): (v: FeatureVector)
    ensures Values(v) == UnmaskAll(Layers(p)) + [noise]
  {
    FeatureVector(Unmask(p.ndvi), Unmask(p.lstC), Unmask(p.ndbi),
                  Unmask(p.slope), Unmask(p.popDensity), noise)
  }

  /** The vector the trained classifiers are applied to over the full extent:
      the same five filled layers, followed by a constant zero jitter band. */
  function PredictionVector(p: Pixel): (v: FeatureVector)
    ensures Values(v) == UnmaskAll(Layers(p)) + [0.0]
  {
    FeatureVector(Unmask(p.ndvi), Unmask(p.lstC), Unmask(p.ndbi),
                  Unmask(p.slope), Unmask(p.popDensity), 0.0)
  }

  /** `v` with its jitter band set to zero. */
  function ZeroNoise(v: FeatureVector): (r: FeatureVector)
    ensures BandNames[NoiseBand] == "Noise" && Band(r, "Noise") == Some(0.0)
    ensures Values(r)[NoiseBand] == 0.0
    ensures forall b :: 0 <= b < |BandNames| && b != NoiseBand ==> Values(r)[b] == Values(v)[b]
  {
    v.(noise := 0.0)
  }

  /** Prediction sees the training layout: same arity, same band order, every
      band but the jitter band unchanged, and the jitter band zero, whatever
      jitter the training vector of that pixel carried. */
  lemma PredictionMatchesTraining(p: Pixel, noise: real)
    ensures PredictionVector(p) == ZeroNoise(TrainingVector(p, noise))
    ensures |Values(PredictionVector(p))| == |Values(TrainingVector(p, noise))| == |BandNames|
    ensures forall b :: 0 <= b < |BandNames| && b != NoiseBand ==>
              Values(PredictionVector(p))[b] == Values(TrainingVector(p, noise))[b]
    ensures Values(PredictionVector(p))[NoiseBand] == 0.0
    ensures Values(TrainingVector(p, noise))[NoiseBand] == noise
  {
  }
}
