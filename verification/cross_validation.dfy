/** k-fold cross-validation on the random key: fold i validates on the samples
    whose key lies in [i/k, (i+1)/k) and trains a fresh model on the rest. */
module CrossValidation {
  import opened Options
  import opened Seqs
  import opened Features
  import opened ProxyLabel
  import opened Samples
  import opened Evaluation

  /** Number of folds the pipeline uses. */
  const Folds: nat := 5

  /** Whether `key` lies in the range of fold `i` of `k`. */
  predicate InFold(key: real, i: int, k: nat)
    requires 0 < k
  {
    (i as real) / (k as real) <= key < ((i + 1) as real) / (k as real)
  }

  /** The index of the fold whose range holds `key`. */
  function FoldOf(key: real, k: nat): int
    requires 0 < k
  {
    (key * k as real).Floor
  }

  lemma ScaleBound(a: real, x: real, k: real)
    requires 0.0 < k
    ensures a / k <= x <==> a <= x * k
    ensures x < a / k <==> x * k < a
  {
    assert a / k * k == a;
    assert (x - a / k) * k == x * k - a;
  }

  /** A key lies in fold `i` exactly when `i` is the fold the key belongs to. */
  lemma FoldOfIsTheFold(key: real, i: int, k: nat)
    requires 0 < k
    ensures InFold(key, i, k) <==> i == FoldOf(key, k)
  {
    ScaleBound(i as real, key, k as real);
    ScaleBound((i + 1) as real, key, k as real);
  }

  /** Every key in [0, 1) lies in exactly one of the folds 0 .. k-1. */
  lemma ExactlyOneFold(key: real, k: nat)
    requires 0 < k && 0.0 <= key < 1.0
    ensures 0 <= FoldOf(key, k) < k
    ensures InFold(key, FoldOf(key, k), k)
    ensures forall i :: InFold(key, i, k) ==> i == FoldOf(key, k)
  {
    FoldOfIsTheFold(key, FoldOf(key, k), k);
    forall i | InFold(key, i, k)
      ensures i == FoldOf(key, k)
    {
      FoldOfIsTheFold(key, i, k);
    }
    assert 0.0 <= key * k as real < k as real;
  }

  /** The validation samples of fold `i`: keys below (i+1)/k, then keys at or
      above i/k. */
  function ValidationFold(s: seq<Sample>, i: nat, k: nat): (r: seq<Sample>)
    requires i < k
    ensures forall x :: x in r <==> x in s && InFold(x.key, i, k)
  {
    Select(Select(s, Lt(((i + 1) as real) / (k as real))), Gte((i as real) / (k as real)))
  }

  /** The training samples of fold `i` as the pipeline builds them: each key is
      compared for inequality with the validation fold collection itself. */
  function TrainingFoldAsWritten(s: seq<Sample>, i: nat, k: nat): (r: seq<Sample>)
    requires i < k
    ensures forall x :: x in r <==> x in s
  {
    Select(s, Neq(Collection(ValidationFold(s, i, k))))
  }

  /** A number never equals a collection, so the as-written filter removes
      nothing: every validation sample is also a training sample. */
  lemma AsWrittenTrainingOverlaps(s: seq<Sample>, i: nat, k: nat)
    requires i < k
    ensures TrainingFoldAsWritten(s, i, k) == s
    ensures forall x :: x in ValidationFold(s, i, k) ==> x in TrainingFoldAsWritten(s, i, k)
  {
    FilterKeepsAll(s, x => Passes(Neq(Collection(ValidationFold(s, i, k))), x));
  }

  /** A one-sample input on which fold 0 of 5 trains on its own validation
      sample. */
  lemma AsWrittenCounterexample()
    ensures var x := Sample(FeatureVector(0.6, 25.0, 0.2, 3.0, 1000.0, 0.01), 3, 0.1);
            x in ValidationFold([x], 0, Folds) && x in TrainingFoldAsWritten([x], 0, Folds)
  {
    var x := Sample(FeatureVector(0.6, 25.0, 0.2, 3.0, 1000.0, 0.01), 3, 0.1);
    assert InFold(x.key, 0, Folds);
    AsWrittenTrainingOverlaps([x], 0, Folds);
  }

  /** The training samples of fold `i`: every sample whose key is outside the
      fold's range. */
  function TrainingFold(s: seq<Sample>, i: nat, k: nat): (r: seq<Sample>)
    requires i < k
    ensures forall x :: x in r <==> x in s && !InFold(x.key, i, k)
  {
    Filter(s, (x: Sample) => !InFold(x.key, i, k))
  }

  /** Training and validation of one fold are disjoint and together hold every
      sample as often as the input does. */
  lemma TrainingFoldPartitions(s: seq<Sample>, i: nat, k: nat)
    requires i < k
    ensures forall x :: !(x in TrainingFold(s, i, k) && x in ValidationFold(s, i, k))
    ensures multiset(TrainingFold(s, i, k)) + multiset(ValidationFold(s, i, k)) == multiset(s)
    ensures |TrainingFold(s, i, k)| + |ValidationFold(s, i, k)| == |s|
  {
    forall x
      ensures (multiset(TrainingFold(s, i, k)) + multiset(ValidationFold(s, i, k)))[x] == multiset(s)[x]
    {
      FilterCount(s, (y: Sample) => !InFold(y.key, i, k), x);
      ValidationFoldCount(s, i, k, x);
    }
    assert multiset(TrainingFold(s, i, k)) + multiset(ValidationFold(s, i, k)) == multiset(s);
    assert |multiset(TrainingFold(s, i, k))| == |TrainingFold(s, i, k)|;
    assert |multiset(ValidationFold(s, i, k))| == |ValidationFold(s, i, k)|;
  }

  /** Fold `i` keeps every copy of a sample in its range and none of any other. */
  lemma ValidationFoldCount(s: seq<Sample>, i: nat, k: nat, x: Sample)
    requires i < k
    ensures multiset(ValidationFold(s, i, k))[x] == if InFold(x.key, i, k) then multiset(s)[x] else 0
  {
    var lt := Lt(((i + 1) as real) / (k as real));
    var gte := Gte((i as real) / (k as real));
    FilterCount(s, y => Passes(lt, y), x);
    FilterCount(Select(s, lt), y => Passes(gte, y), x);
  }

  /** Distinct folds share no sample. */
  lemma FoldsDisjoint(s: seq<Sample>, i: nat, j: nat, k: nat)
    requires i < k && j < k && i != j
    ensures forall x :: !(x in ValidationFold(s, i, k) && x in ValidationFold(s, j, k))
  {
    forall x | x in ValidationFold(s, i, k) && x in ValidationFold(s, j, k)
      ensures false
    {
      FoldOfIsTheFold(x.key, i, k);
      FoldOfIsTheFold(x.key, j, k);
    }
  }

  /** The validation folds 0 .. k-1, each as a bag of samples. */
  function FoldBags(s: seq<Sample>, k: nat): (bags: seq<multiset<Sample>>)
    ensures |bags| == k
  {
    seq(k, i requires 0 <= i < k => multiset(ValidationFold(s, i, k)))
  }

  /** Fold `i` holds every copy of the samples whose fold index is `i`. */
  lemma FoldCountByIndex(s: seq<Sample>, i: nat, k: nat, x: Sample)
    requires i < k
    ensures multiset(ValidationFold(s, i, k))[x] == if FoldOf(x.key, k) == i then multiset(s)[x] else 0
  {
    ValidationFoldCount(s, i, k, x);
    FoldOfIsTheFold(x.key, i, k);
  }

  /** With every key in [0, 1) the k folds cover the input exactly: their union,
      counted with multiplicity, is the input. */
  lemma FoldsCover(s: seq<Sample>, k: nat)
    requires 0 < k
    requires forall i :: 0 <= i < |s| ==> 0.0 <= s[i].key < 1.0
    ensures SumBags(FoldBags(s, k)) == multiset(s)
    ensures forall x :: x in s ==> exists i :: 0 <= i < k && x in ValidationFold(s, i, k)
  {
    var bags := FoldBags(s, k);
    forall x
      ensures SumBags(bags)[x] == multiset(s)[x]
    {
      forall i | 0 <= i < k
        ensures bags[i][x] == if i == FoldOf(x.key, k) then multiset(s)[x] else 0
      {
        FoldCountByIndex(s, i, k, x);
      }
      SumBagsCount(bags, x, FoldOf(x.key, k), multiset(s)[x]);
      if x in s {
        ExactlyOneFold(x.key, k);
      }
    }
    assert SumBags(bags) == multiset(s);
    forall x | x in s
      ensures exists i :: 0 <= i < k && x in ValidationFold(s, i, k)
    {
      ExactlyOneFold(x.key, k);
      assert x in ValidationFold(s, FoldOf(x.key, k), k);
    }
  }

  /** Accuracy of fold `i`: a fresh model trained on the fold's complement,
      scored on the fold. */
  function FoldAccuracy(s: seq<Sample>, i: nat, k: nat, train: Trainer): (r: Option<real>)
    requires i < k
    ensures r.None? <==> |ValidationFold(s, i, k)| == 0
    ensures r.Some? ==> 0.0 <= r.value <= 1.0
  {
    Evaluate(train(TrainingFold(s, i, k)), ValidationFold(s, i, k))
  }

  /** Maps each fold index 0 .. k-1, in order, to that fold's accuracy. */
  function CrossValidate(s: seq<Sample>, k: nat, train: Trainer): (accuracies: seq<Option<real>>)
    ensures |accuracies| == k
    ensures forall i :: 0 <= i < k ==> accuracies[i] == FoldAccuracy(s, i, k, train)
    ensures forall i :: 0 <= i < k ==> (accuracies[i].None? <==> |ValidationFold(s, i, k)| == 0)
  {
    seq(k, i requires 0 <= i < k => FoldAccuracy(s, i, k, train))
  }
}
