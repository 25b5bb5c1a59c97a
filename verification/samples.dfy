/** Labelled samples, the property filters applied to them, and the fixed
    70/30 train/test split on the per-sample random key. */
module Samples {
  import opened Options
  import opened Seqs
  import opened Features
  import opened ProxyLabel

  /** One drawn point: its feature vector, its proxy label, and the random key
      in [0, 1) assigned to it for splitting. */
  datatype Sample = Sample(features: FeatureVector, classLabel: Label, key: real)

  /** A value a sample property can be compared with: a number, or a whole
      collection of samples. */
  datatype Value = Number(n: real) | Collection(items: seq<Sample>)

  /** A filter on the random key: below a bound, at or above a bound, or
      different from a given value. */
  datatype KeyFilter = Lt(bound: real) | Gte(bound: real) | Neq(other: Value)

  predicate Passes(f: KeyFilter, x: Sample) {
    match f
    case Lt(b) => x.key < b
    case Gte(b) => x.key >= b
    case Neq(v) => Number(x.key) != v
  }

  /** The samples of `s` that pass `f`, in order. */
  function Select(s: seq<Sample>, f: KeyFilter): seq<Sample> {
    Filter(s, x => Passes(f, x))
  }

  /** The sample drawn at pixel `p`, whose uniform draw is `u`: the training
      vector with the jitter scaled from `u`, the proxy label under that
      jitter, and the split key; no sample where the label is masked. */
  function MakeSample(p: Pixel, u: real, key: real): (r: Option<Sample>)
    ensures r.Some? <==> LabelPixel(p, NoiseFromUniform(u)).Some?
    ensures r.Some? ==> r.value.features == TrainingVector(p, NoiseFromUniform(u)) && r.value.key == key
    ensures r.Some? && 0.0 <= u < 1.0 ==> ValidNoise(r.value.features.noise)
  {
    var noise := NoiseFromUniform(u);
    match LabelPixel(p, noise)
    case Some(l) => Some(Sample(TrainingVector(p, noise), l, key))
    case None => None
  }

  /** A sample's label is the proxy rule applied to the NDVI, NDBI and jitter
      bands of its own feature vector. */
  lemma SampleLabelFromFeatures(p: Pixel, u: real, key: real)
    requires MakeSample(p, u, key).Some?
    ensures var x := MakeSample(p, u, key).value;
            x.classLabel == ClassOf(x.features.ndvi, x.features.ndbi, x.features.noise)
  {
  }

  /** Share of the samples whose key sends them to the training set. */
  const TrainFraction: real := 0.7

  /** The training half: the samples keyed below 0.7, in order. */
  function TrainSet(s: seq<Sample>): (r: seq<Sample>)
    ensures |r| <= |s|
    ensures forall x :: x in r <==> x in s && x.key < TrainFraction
  {
    Select(s, Lt(TrainFraction))
  }

  /** The test half: the samples keyed at or above 0.7, in order. */
  function TestSet(s: seq<Sample>): (r: seq<Sample>)
    ensures |r| <= |s|
    ensures forall x :: x in r <==> x in s && x.key >= TrainFraction
  {
    Select(s, Gte(TrainFraction))
  }

  /** The split is exact: training keys are below 0.7 and test keys are not, so
      no sample is in both; together the halves hold every sample as often as
      the input does, and their sizes add up to the input's. */
  lemma SplitIsExact(s: seq<Sample>)
    ensures forall x :: x in TrainSet(s) <==> x in s && x.key < TrainFraction
    ensures forall x :: x in TestSet(s) <==> x in s && x.key >= TrainFraction
    ensures forall x :: !(x in TrainSet(s) && x in TestSet(s))
    ensures multiset(TrainSet(s)) + multiset(TestSet(s)) == multiset(s)
    ensures |TrainSet(s)| + |TestSet(s)| == |s|
  {
    FilterSplit(s, x => Passes(Lt(TrainFraction), x), x => Passes(Gte(TrainFraction), x));
  }

  /** The test set is empty exactly when every key is below 0.7. */
  lemma TestSetEmpty(s: seq<Sample>)
    ensures |TestSet(s)| == 0 <==> forall i :: 0 <= i < |s| ==> s[i].key < TrainFraction
  {
    if |TestSet(s)| > 0 {
      var x := TestSet(s)[0];
      assert x in TestSet(s);
      var i :| 0 <= i < |s| && s[i] == x;
    } else {
      forall i | 0 <= i < |s|
        ensures s[i].key < TrainFraction
      {
        assert s[i] !in TestSet(s);
      }
    }
  }
}
