/** Full-extent prediction: each trained classifier is applied, pixel by pixel,
    to the prediction stack whose jitter band is held at zero. */
module Prediction {
  import opened Options
  import opened Features
  import opened ProxyLabel
  import opened Evaluation

  /** The predicted label of one pixel. */
  function Predict(c: Classifier, p: Pixel): (l: Label)
    ensures forall noise :: l == c(ZeroNoise(TrainingVector(p, noise)))
  {
    PredictionMatchesTraining(p, 0.0);
    c(PredictionVector(p))
  }

  /** The prediction raster, one entry per pixel, in pixel order: the raster
      is clipped to the county boundary, so a pixel outside it has no label,
      and every pixel inside it has one, masked layers included. */
  function PredictRaster(c: Classifier, pixels: seq<Pixel>): (r: seq<Option<Label>>)
    ensures |r| == |pixels|
    ensures forall i :: 0 <= i < |pixels| ==> (r[i].None? <==> !pixels[i].inRegion)
    ensures forall i :: 0 <= i < |pixels| && pixels[i].inRegion ==> r[i] == Some(Predict(c, pixels[i]))
  {
    seq(|pixels|, i requires 0 <= i < |pixels| =>
      if pixels[i].inRegion then Some(Predict(c, pixels[i])) else None)
  }

  /** The predicted label reads only the pixel's five layers: two pixels with
      the same layer values get the same label, whatever their region flags. */
  lemma PredictDependsOnlyOnLayers(c: Classifier, p: Pixel, q: Pixel)
    requires Layers(p) == Layers(q)
    ensures Predict(c, p) == Predict(c, q)
  {
    assert Layers(p)[0] == Layers(q)[0] && Layers(p)[1] == Layers(q)[1] && Layers(p)[2] == Layers(q)[2];
    assert Layers(p)[3] == Layers(q)[3] && Layers(p)[4] == Layers(q)[4];
  }

  /** Prediction is pixel-local: two pixels on the same side of the county
      boundary with the same layer values get the same entry, at any index of
      either raster. */
  lemma PredictionIsPixelLocal(c: Classifier, pixels: seq<Pixel>, others: seq<Pixel>, i: nat, j: nat)
    requires i < |pixels| && j < |others|
    requires pixels[i].inRegion == others[j].inRegion && Layers(pixels[i]) == Layers(others[j])
    ensures PredictRaster(c, pixels)[i] == PredictRaster(c, others)[j]
  {
    PredictDependsOnlyOnLayers(c, pixels[i], others[j]);
  }
}
