/** The level arithmetic shared by the tone mappers and the exporters: an
    affine map that sends the input black and white levels to the output
    black and white levels. */
module ToneCurve {
  import opened Common

  /** Input range [inBlack, inWhite] and output range [outBlack, outWhite]. */
  datatype Levels = Levels(inBlack: real, inWhite: real, outBlack: real, outWhite: real) {

    /** Both ranges the right way round, the input one non-empty. */
    predicate Ordered() {
      inBlack < inWhite && outBlack <= outWhite
    }

    /** (outWhite - outBlack) / (inWhite - inBlack), a true division whose
        operands are plain Python numbers: an empty input range is a
        ZeroDivisionError. */
    function Scale(): (r: Result<real>)
      ensures r.Ok? <==> inWhite != inBlack
      ensures r.Err? ==> r.error == ZeroDivisionError
      ensures r.Ok? ==> r.value * (inWhite - inBlack) == outWhite - outBlack
    {
      if inWhite == inBlack then Err(ZeroDivisionError)
      else Ok((outWhite - outBlack) / (inWhite - inBlack))
    }

    /** The tone mappers' pre-processing of one sample: the black-level
        correction subtracted, then a clip to the input range. */
    function Corrected(v: real, correction: real): (r: real)
      ensures inBlack <= inWhite ==> inBlack <= r <= inWhite
      ensures inBlack <= v - correction <= inWhite ==> r == v - correction
      ensures v - correction <= inBlack <= inWhite ==> r == inBlack
      ensures inWhite <= v - correction ==> r == inWhite
    {
      Clip(v - correction, inBlack, inWhite)
    }

    /** v -= inBlack; v *= scale; v += outBlack */
    function Affine(v: real): (r: real)
      requires inWhite != inBlack
      ensures v == inBlack ==> r == outBlack
      ensures v == inWhite ==> r == outWhite
    {
      (v - inBlack) * Scale().value + outBlack
    }

    /** v -= inBlack; v /= inWhite - inBlack; v **= 1; v *= outWhite - outBlack; v += outBlack */
    function GammaOne(v: real): (r: real)
      requires inWhite != inBlack
      ensures v == inBlack ==> r == outBlack
      ensures v == inWhite ==> r == outWhite
    {
      (v - inBlack) / (inWhite - inBlack) * (outWhite - outBlack) + outBlack
    }
  }

  /** With ordered levels the affine map is monotone non-decreasing. */
  lemma AffineMonotone(lv: Levels, v: real, w: real)
    requires lv.Ordered() && v <= w
    ensures lv.Affine(v) <= lv.Affine(w)
  {
    var s := lv.Scale().value;
    QuotientNonNegative(lv.outWhite - lv.outBlack, lv.inWhite - lv.inBlack);
    ProductNonNegative(w - v, s);
    assert lv.Affine(w) - lv.Affine(v) == (w - v) * s;
  }

  lemma ProductNonNegative(x: real, y: real)
    requires 0.0 <= x && 0.0 <= y
    ensures 0.0 <= x * y
  {
  }

  lemma QuotientNonNegative(x: real, y: real)
    requires 0.0 <= x && 0.0 < y
    ensures 0.0 <= x / y
  {
  }

  /** With ordered levels the affine map sends the input range into the output range. */
  lemma AffineRange(lv: Levels, v: real)
    requires lv.Ordered() && lv.inBlack <= v <= lv.inWhite
    ensures lv.outBlack <= lv.Affine(v) <= lv.outWhite
  {
    AffineMonotone(lv, lv.inBlack, v);
    AffineMonotone(lv, v, lv.inWhite);
  }

  /** Gamma correction with exponent 1 is the affine map, sample by sample. */
  lemma GammaOneIsAffine(lv: Levels, v: real)
    requires lv.inWhite != lv.inBlack
    ensures lv.GammaOne(v) == lv.Affine(v)
  {
    var d := lv.inWhite - lv.inBlack;
    var s := lv.Scale().value;
    assert s == (lv.outWhite - lv.outBlack) / d;
    assert (v - lv.inBlack) / d * (lv.outWhite - lv.outBlack) == (v - lv.inBlack) * ((lv.outWhite - lv.outBlack) / d);
  }
}
