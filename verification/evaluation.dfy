/** Scoring a trained classifier on held-out samples: the confusion matrix of
    (actual, predicted) label pairs and the overall accuracy derived from it. */
module Evaluation {
  import opened Options
  import opened Seqs
  import opened Features
  import opened ProxyLabel
  import opened Samples

  /** A trained model, seen only through its per-vector prediction. */
  type Classifier = FeatureVector -> Label

  /** A training algorithm: from a training set to a fresh model. */
  type Trainer = seq<Sample> -> Classifier

  /** One scored sample: its actual label and the label the model predicted. */
  datatype Outcome = Outcome(actual: Label, predicted: Label)

  predicate IsHit(o: Outcome) {
    o.actual == o.predicted
  }

  predicate IsSquare(m: seq<seq<nat>>) {
    |m| == 3 && |m[0]| == 3 && |m[1]| == 3 && |m[2]| == 3
  }

  /** Counts indexed by actual label (row) and predicted label (column). */
  type Matrix = m: seq<seq<nat>> | IsSquare(m) witness [[0, 0, 0], [0, 0, 0], [0, 0, 0]]

  function Cell(m: Matrix, actual: Label, predicted: Label): nat {
    m[actual - 1][predicted - 1]
  }

  const Empty: Matrix := [[0, 0, 0], [0, 0, 0], [0, 0, 0]]

  /** `m` with the cell of `o` incremented. */
  function Record(m: Matrix, o: Outcome): Matrix {
    var row: seq<nat> := m[o.actual - 1][o.predicted - 1 := Cell(m, o.actual, o.predicted) + 1];
    m[o.actual - 1 := row]
  }

  /** The confusion matrix of a run of outcomes, folded one outcome at a time:
      each cell counts the outcomes with that (actual, predicted) pair. */
  function ErrorMatrix(outcomes: seq<Outcome>): (m: Matrix)
    ensures forall a: Label, p: Label :: Cell(m, a, p) == multiset(outcomes)[Outcome(a, p)]
  {
    if |outcomes| == 0 then Empty
    else
      assert outcomes == [outcomes[0]] + outcomes[1..];
      Record(ErrorMatrix(outcomes[1..]), outcomes[0])
  }

  function RowSum(row: seq<nat>): nat
    requires |row| == 3
  {
    row[0] + row[1] + row[2]
  }

  /** Sum of all cells. */
  function Total(m: Matrix): nat {
    RowSum(m[0]) + RowSum(m[1]) + RowSum(m[2])
  }

  /** Sum of the diagonal: the correctly predicted outcomes. */
  function Trace(m: Matrix): nat {
    m[0][0] + m[1][1] + m[2][2]
  }

  /** Overall accuracy, trace over total; undefined for a matrix with no
      counts, so that it is never confused with a genuine 0. */
  function Accuracy(m: Matrix): (r: Option<real>)
    ensures r.None? <==> Total(m) == 0
    ensures r.Some? ==> 0.0 <= r.value <= 1.0
    ensures r == Some(1.0) <==> Total(m) > 0 && Trace(m) == Total(m)
    ensures r == Some(0.0) <==> Total(m) > 0 && Trace(m) == 0
  {
    if Total(m) == 0 then None
    else
      RatioInUnitInterval(Trace(m) as real, Total(m) as real);
      Some(Trace(m) as real / Total(m) as real)
  }

  lemma RatioInUnitInterval(t: real, n: real)
    requires 0.0 <= t <= n && 0.0 < n
    ensures 0.0 <= t / n <= 1.0
    ensures t / n == 1.0 <==> t == n
    ensures t / n == 0.0 <==> t == 0.0
  {
    var q := t / n;
    assert q * n == t;
    assert (1.0 - q) * n == n - t;
  }

  /** Recording one outcome adds one to the total, and one to the trace exactly
      when it is a hit. */
  lemma RecordCounts(m: Matrix, o: Outcome)
    ensures Total(Record(m, o)) == Total(m) + 1
    ensures Trace(Record(m, o)) == Trace(m) + (if IsHit(o) then 1 else 0)
  {
  }

  /** The matrix of a run holds as many counts as the run has outcomes, and its
      trace is the number of hits. */
  lemma {:induction false} ErrorMatrixTotals(outcomes: seq<Outcome>)
    ensures Total(ErrorMatrix(outcomes)) == |outcomes|
    ensures Trace(ErrorMatrix(outcomes)) == |Filter(outcomes, IsHit)|
  {
    if |outcomes| > 0 {
      ErrorMatrixTotals(outcomes[1..]);
      RecordCounts(ErrorMatrix(outcomes[1..]), outcomes[0]);
    }
  }

  /** Accuracy of a run of outcomes: undefined exactly when the run is empty,
      otherwise the share of hits; it is 1 exactly when every prediction
      equals its actual label. */
  lemma AccuracyOfOutcomes(outcomes: seq<Outcome>)
    ensures Accuracy(ErrorMatrix(outcomes)).None? <==> |outcomes| == 0
    ensures |outcomes| > 0 ==>
              Accuracy(ErrorMatrix(outcomes)) == Some(|Filter(outcomes, IsHit)| as real / |outcomes| as real)
    ensures Accuracy(ErrorMatrix(outcomes)) == Some(1.0) <==>
              |outcomes| > 0 && forall i :: 0 <= i < |outcomes| ==> IsHit(outcomes[i])
  {
    ErrorMatrixTotals(outcomes);
    FilterKeepsAll(outcomes, IsHit);
  }

  /** The samples of `s` whose label `c` predicts from their own features. */
  function CorrectlyPredicted(c: Classifier, s: seq<Sample>): (r: seq<Sample>)
    ensures |r| <= |s|
    ensures forall x :: x in r <==> x in s && c(x.features) == x.classLabel
  {
    Filter(s, (x: Sample) => c(x.features) == x.classLabel)
  }

  /** Applies `c` to each sample's own feature vector: one outcome per sample,
      in order, and the hits are exactly the correctly predicted samples. */
  function Outcomes(c: Classifier, s: seq<Sample>): (r: seq<Outcome>)
    ensures |r| == |s|
    ensures forall i :: 0 <= i < |s| ==> r[i].actual == s[i].classLabel && r[i].predicted == c(s[i].features)
    ensures |Filter(r, IsHit)| == |CorrectlyPredicted(c, s)|
  {
    if |s| == 0 then []
    else
      var rest := Outcomes(c, s[1..]);
      var r := [Outcome(s[0].classLabel, c(s[0].features))] + rest;
      assert r[1..] == rest;
      r
  }

  /** No sample is predicted correctly exactly when the correct ones are none. */
  lemma NoneCorrect(c: Classifier, test: seq<Sample>)
    ensures |CorrectlyPredicted(c, test)| == 0 <==>
              forall i :: 0 <= i < |test| ==> c(test[i].features) != test[i].classLabel
  {
    if |CorrectlyPredicted(c, test)| > 0 {
      assert CorrectlyPredicted(c, test)[0] in CorrectlyPredicted(c, test);
    } else {
      forall i | 0 <= i < |test|
        ensures c(test[i].features) != test[i].classLabel
      {
        assert test[i] !in CorrectlyPredicted(c, test);
      }
    }
  }

  /** Accuracy of `c` on `test`: undefined exactly for an empty test set,
      otherwise the share of test samples whose label `c` predicts from their
      own features; 1 exactly when it predicts every one and 0 exactly when
      it predicts none. */
  function Evaluate(c: Classifier, test: seq<Sample>): (r: Option<real>)
    ensures r.None? <==> |test| == 0
    ensures r.Some? ==> 0.0 <= r.value <= 1.0
    ensures r.Some? ==> r.value == |CorrectlyPredicted(c, test)| as real / |test| as real
    ensures r == Some(1.0) <==>
              |test| > 0 && forall i :: 0 <= i < |test| ==> c(test[i].features) == test[i].classLabel
    ensures r == Some(0.0) <==>
              |test| > 0 && forall i :: 0 <= i < |test| ==> c(test[i].features) != test[i].classLabel
  {
    var outcomes := Outcomes(c, test);
    AccuracyOfOutcomes(outcomes);
    ErrorMatrixTotals(outcomes);
    NoneCorrect(c, test);
    assert (forall i :: 0 <= i < |outcomes| ==> IsHit(outcomes[i])) <==>
           (forall i :: 0 <= i < |test| ==> c(test[i].features) == test[i].classLabel) by {
      assert forall i :: 0 <= i < |outcomes| ==> (IsHit(outcomes[i]) <==> c(test[i].features) == test[i].classLabel);
    }
    Accuracy(ErrorMatrix(outcomes))
  }

  /** Hold-out accuracy: a model trained on the samples keyed below 0.7,
      scored on those keyed at or above it; undefined exactly when no key
      reaches 0.7. */
  function HoldOutAccuracy(s: seq<Sample>, train: Trainer): (r: Option<real>)
    ensures r.None? <==> forall i :: 0 <= i < |s| ==> s[i].key < TrainFraction
    ensures r.Some? ==> 0.0 <= r.value <= 1.0
  {
    TestSetEmpty(s);
    Evaluate(train(TrainSet(s)), TestSet(s))
  }
}
