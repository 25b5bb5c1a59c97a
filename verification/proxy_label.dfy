/** The synthetic "livability" label used to bootstrap training data: crisp
    vegetation / built-up thresholds, with the moderate class blurred by a small
    per-pixel jitter. */
module ProxyLabel {
  import opened Options
  import opened Features

  /** A class label: 1 low, 2 moderate, 3 high livability. */
  type Label = c: int | 1 <= c <= 3 witness 1

  /** The jitter is a uniform draw from [0, 1) scaled by this factor. */
  const NoiseScale: real := 0.05

  predicate ValidNoise(noise: real) {
    0.0 <= noise < NoiseScale
  }

  /** Scales a uniform draw into the jitter band. */
  function NoiseFromUniform(u: real): (noise: real)
    ensures 0.0 <= u < 1.0 ==> ValidNoise(noise)
    ensures noise == 0.0 <==> u == 0.0
  {
    u * NoiseScale
  }

  /** The noise-free test for the high class. */
  predicate ClearlyHigh(ndvi: real, ndbi: real) {
    ndvi > 0.5 && ndbi < 0.3
  }

  /** The jittered test for the moderate class. */
  predicate BlurredModerate(ndvi: real, ndbi: real, noise: real) {
    ndvi > 0.3 + noise && ndbi < 0.4 + noise
  }

  /** The proxy label of one pixel; the first test that holds decides. */
  function ClassOf(ndvi: real, ndbi: real, noise: real): (c: int)
    ensures 1 <= c <= 3
  {
    if ClearlyHigh(ndvi, ndbi) then 3
    else if BlurredModerate(ndvi, ndbi, noise) then 2
    else 1
  }

  /** The label of a pixel, undefined outside the county boundary, to which
      the label raster is clipped, and where NDVI or NDBI is masked. */
  function LabelPixel(p: Pixel, noise: real): (l: Option<Label>)
    ensures l.None? <==> !p.inRegion || p.ndvi.None? || p.ndbi.None?
    ensures l.Some? ==> l.value == ClassOf(TrainingVector(p, noise).ndvi, TrainingVector(p, noise).ndbi, noise)
  {
    if p.inRegion && p.ndvi.Some? && p.ndbi.Some? then Some(ClassOf(p.ndvi.value, p.ndbi.value, noise))
    else None
  }

  /** The tests are taken in order: label 3 exactly when the high test holds,
      whatever the jitter; label 2 exactly when the high test fails and the
      jittered moderate test holds; label 1 otherwise. */
  lemma ShortCircuitOrder(ndvi: real, ndbi: real, noise: real, other: real)
    ensures ClassOf(ndvi, ndbi, noise) == 3 <==> ClearlyHigh(ndvi, ndbi)
    ensures ClassOf(ndvi, ndbi, noise) == 3 <==> ClassOf(ndvi, ndbi, other) == 3
    ensures ClassOf(ndvi, ndbi, noise) == 2 <==> !ClearlyHigh(ndvi, ndbi) && BlurredModerate(ndvi, ndbi, noise)
    ensures ClassOf(ndvi, ndbi, noise) == 1 <==> !ClearlyHigh(ndvi, ndbi) && !BlurredModerate(ndvi, ndbi, noise)
  {
  }

  /** A greener pixel never gets a lower label, and a more built-up one never a
      higher label, under the same jitter. */
  lemma LabelMonotone(ndvi: real, ndvi': real, ndbi: real, ndbi': real, noise: real)
    requires ndvi <= ndvi' && ndbi' <= ndbi
    ensures ClassOf(ndvi, ndbi, noise) <= ClassOf(ndvi', ndbi', noise)
  {
  }

  /** Jitter in [0, 0.05) can change a label only for NDVI in (0.3, 0.35) or
      NDBI in [0.4, 0.45). */
  lemma NoiseOnlyMattersNearBoundary(ndvi: real, ndbi: real, noise: real)
    requires ValidNoise(noise)
    ensures ClassOf(ndvi, ndbi, noise) != ClassOf(ndvi, ndbi, 0.0) ==>
              (0.3 < ndvi < 0.35) || (0.4 <= ndbi < 0.45)
  {
  }

  /** The NDVI band above is tight: every NDVI in (0.3, 0.35) has an NDBI and a
      jitter that change its label. */
  lemma NdviBoundaryIsTight(ndvi: real)
    requires 0.3 < ndvi < 0.35
    ensures exists ndbi, noise :: ValidNoise(noise) && ClassOf(ndvi, ndbi, noise) != ClassOf(ndvi, ndbi, 0.0)
  {
    var noise := ndvi - 0.3;
    assert ClassOf(ndvi, 0.0, noise) == 1;
    assert ClassOf(ndvi, 0.0, 0.0) == 2;
    assert ValidNoise(noise);
  }

  /** The NDBI band above is tight: every NDBI in [0.4, 0.45) has an NDVI and a
      jitter that change its label. */
  lemma NdbiBoundaryIsTight(ndbi: real)
    requires 0.4 <= ndbi < 0.45
    ensures exists ndvi, noise :: ValidNoise(noise) && ClassOf(ndvi, ndbi, noise) != ClassOf(ndvi, ndbi, 0.0)
  {
    var noise := (ndbi - 0.35) / 2.0;
    assert ClassOf(0.4, ndbi, noise) == 2;
    assert ClassOf(0.4, ndbi, 0.0) == 1;
    assert ValidNoise(noise);
  }

  /** The four-pixel example with the jitter fixed at zero. */
  lemma ToyRaster()
    ensures [ClassOf(0.6, 0.2, 0.0), ClassOf(0.35, 0.35, 0.0), ClassOf(0.1, 0.5, 0.0), ClassOf(0.4, 0.2, 0.0)]
         == [3, 2, 1, 2]
  {
  }
}
