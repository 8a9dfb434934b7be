/** The exporter-side tone mappers: every level is a constructor argument,
    and the wrapper runs the input clip and the curve only. */
module CoreToneMapper {
  import opened Common
  import opened Raster
  import opened ToneCurve
  import EditToneMapper

  datatype Kind = Linear | Log | GammaCorrection

  datatype ToneMapper = ToneMapper(kind: Kind, correction: real, levels: Levels, gamma: real) {

    /** Why _tone_map cannot produce finite samples, if it cannot: the
        linear scale divides Python integers, the gamma curve divides the
        buffer by the input range; the logarithm and a gamma other than 1
        are left out of this model. */
    function CurveError(): (r: Option<Error>)
      ensures r.None? <==> kind != Log && levels.inWhite != levels.inBlack && (kind == GammaCorrection ==> gamma == 1.0)
      ensures kind == Linear && levels.inWhite == levels.inBlack ==> r == Some(ZeroDivisionError)
    {
      match kind
      case Linear => if levels.inWhite == levels.inBlack then Some(ZeroDivisionError) else None
      case Log => Some(NotModelled)
      case GammaCorrection =>
        if levels.inWhite == levels.inBlack then Some(NonFinite)
        else if gamma != 1.0 then Some(NotModelled)
        else None
    }

    /** _tone_map_pre_process on one sample. */
    function Pre(v: real): real {
      levels.Corrected(v, correction)
    }

    /** _tone_map on one sample. */
    function Curve(v: real): (r: real)
      requires CurveError().None?
      ensures r == levels.Affine(v)
    {
      match kind
      case Linear => levels.Affine(v)
      case GammaCorrection => GammaOneIsAffine(levels, v); levels.GammaOne(v)
    }

    /** One raw sample through the wrapper: pre-process, then the curve. */
    function Sample(v: real): (r: real)
      requires CurveError().None?
      ensures levels.inBlack <= v - correction <= levels.inWhite ==> r == levels.Affine(v - correction)
    {
      Curve(Pre(v))
    }

    /** _tone_map_wrapper: the camera multipliers are not touched. */
    function ToneMap(image: Image): (r: Result<Image>)
      ensures r.Ok? <==> CurveError().None?
      ensures r.Err? ==> r.error == CurveError().value
      ensures r.Ok? ==> SameShape(r.value.raw, image.raw) && r.value.cameraWhiteBalance == image.cameraWhiteBalance
      ensures r.Ok? && image.raw.Mono? ==> forall i, j | InPlane(image.raw.plane, i, j) ::
        r.value.raw.plane[i][j] == Sample(image.raw.plane[i][j])
      ensures r.Ok? && image.raw.Color? ==> forall c: Channel, i, j | InPlane(image.raw.Channel(c), i, j) ::
        r.value.raw.Channel(c)[i][j] == Sample(image.raw.Channel(c)[i][j])
    {
      if CurveError().Some? then Err(CurveError().value)
      else Ok(image.(raw := MapRaster(image.raw, v requires CurveError().None? => Sample(v))))
    }

    /** _tone_map_post_process, which the wrapper never calls: the output clip. */
    function PostProcess(image: Image): (r: Image)
      ensures SameShape(r.raw, image.raw) && r.cameraWhiteBalance == image.cameraWhiteBalance
      ensures image.raw.Mono? ==> forall i, j | InPlane(image.raw.plane, i, j) ::
        r.raw.plane[i][j] == Clip(image.raw.plane[i][j], levels.outBlack, levels.outWhite)
      ensures image.raw.Color? ==> forall c: Channel, i, j | InPlane(image.raw.Channel(c), i, j) ::
        r.raw.Channel(c)[i][j] == Clip(image.raw.Channel(c)[i][j], levels.outBlack, levels.outWhite)
    {
      image.(raw := MapRaster(image.raw, v => Clip(v, levels.outBlack, levels.outWhite)))
    }
  }

  /** With ordered levels a linear sample stays in the output range although
      nothing clips it there, the map is monotone, and the shifted input
      levels land on the output levels. */
  lemma LinearSample(t: ToneMapper, v: real, w: real)
    requires t.kind == Linear && t.levels.Ordered()
    ensures t.levels.outBlack <= t.Sample(v) <= t.levels.outWhite
    ensures v <= w ==> t.Sample(v) <= t.Sample(w)
    ensures t.Sample(t.levels.inBlack + t.correction) == t.levels.outBlack
    ensures t.Sample(t.levels.inWhite + t.correction) == t.levels.outWhite
  {
    AffineRange(t.levels, t.Pre(v));
    if v <= w {
      ClipMonotone(v - t.correction, w - t.correction, t.levels.inBlack, t.levels.inWhite);
      AffineMonotone(t.levels, t.Pre(v), t.Pre(w));
    }
  }

  /** The linear engine's whole output lies in [outBlack, outWhite]. */
  lemma LinearWithinOutput(t: ToneMapper, image: Image)
    requires t.kind == Linear && t.levels.Ordered()
    ensures t.ToneMap(image).Ok?
    ensures RasterWithin(t.ToneMap(image).value.raw, t.levels.outBlack, t.levels.outWhite)
  {
    var r := t.ToneMap(image).value.raw;
    forall v ensures t.levels.outBlack <= t.Sample(v) <= t.levels.outWhite {
      LinearSample(t, v, v);
    }
    if r.Color? {
      assert r.red == r.Channel(0) && r.green == r.Channel(1) && r.blue == r.Channel(2);
    }
  }

  /** For the linear engine with ordered levels the output clip that the
      wrapper skips would change nothing. */
  lemma PostProcessRedundant(t: ToneMapper, image: Image)
    requires t.kind == Linear && t.levels.Ordered()
    ensures t.ToneMap(image).Ok?
    ensures t.PostProcess(t.ToneMap(image).value) == t.ToneMap(image).value
  {
    var a := t.ToneMap(image).value;
    forall v ensures t.levels.outBlack <= t.Sample(v) <= t.levels.outWhite {
      LinearSample(t, v, v);
    }
    RasterExt(t.PostProcess(a).raw, a.raw);
  }

  /** Gamma correction at gamma 1 tone-maps every image exactly as the
      linear engine with the same levels. */
  lemma GammaOneIsLinear(t: ToneMapper, image: Image)
    requires t.kind == GammaCorrection && t.gamma == 1.0 && t.levels.inWhite != t.levels.inBlack
    ensures t.ToneMap(image) == t.(kind := Linear).ToneMap(image)
  {
    RasterExt(t.ToneMap(image).value.raw, t.(kind := Linear).ToneMap(image).value.raw);
  }

  /** The two families agree on the samples: with ordered levels the editor's
      linear engine, whose extra output clip is then a no-op, leaves the
      same raw buffer as the exporter-side one. */
  lemma EditAgreesWithCore(e: EditToneMapper.Engine, image: Image)
    requires e.kind == EditToneMapper.Linear && e.levels.Ordered()
    ensures var t := ToneMapper(Linear, e.correction, e.levels, e.gamma);
      && e.ToneMap(image).Ok? && t.ToneMap(image).Ok?
      && e.ToneMap(image).value.raw == t.ToneMap(image).value.raw
  {
    var t := ToneMapper(Linear, e.correction, e.levels, e.gamma);
    forall v ensures e.Sample(v) == t.Sample(v) {
      EditToneMapper.LinearSample(e, v, v);
    }
    RasterExt(e.ToneMap(image).value.raw, t.ToneMap(image).value.raw);
  }
}
