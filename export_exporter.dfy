/** The standalone exporters: a float copy of the raw buffer clipped to the
    raw range, the engine's curve, then a clip to the export range and a
    cast to uint8. */
module ExportExporter {
  import opened Common
  import opened Raster
  import opened ToneCurve

  datatype Kind = Linear | Log | GammaCorrection

  /** An exporter with raw range [inBlack, inWhite] = [raw_min, raw_max]
      and export range [outBlack, outWhite] = [export_min, export_max]. */
  datatype Exporter = Exporter(kind: Kind, levels: Levels, gamma: real) {

    /** Why _export cannot produce finite samples, if it cannot: the
        linear scale divides Python integers, the gamma curve divides the
        buffer by the raw range; the logarithm and a gamma other than 1
        are left out of this model. */
    function CurveError(): (r: Option<Error>)
      ensures r.None? <==> kind != Log && levels.inWhite != levels.inBlack && (kind == GammaCorrection ==> gamma == 1.0)
      ensures kind == Linear && levels.inWhite == levels.inBlack ==> r == Some(ZeroDivisionError)
      ensures kind == GammaCorrection && levels.inWhite == levels.inBlack ==> r == Some(NonFinite)
    {
      match kind
      case Linear => if levels.inWhite == levels.inBlack then Some(ZeroDivisionError) else None
      case Log => Some(NotModelled)
      case GammaCorrection =>
        if levels.inWhite == levels.inBlack then Some(NonFinite)
        else if gamma != 1.0 then Some(NotModelled)
        else None
    }

    /** _export_preprocess on one sample: clipped to the raw range. */
    function Pre(v: real): (r: real)
      ensures levels.inBlack <= levels.inWhite ==> levels.inBlack <= r <= levels.inWhite
      ensures levels.inBlack <= v <= levels.inWhite ==> r == v
    {
      Clip(v, levels.inBlack, levels.inWhite)
    }

    /** _export on one sample. */
    function Curve(v: real): (r: real)
      requires CurveError().None?
      ensures r == levels.Affine(v)
    {
      match kind
      case Linear => levels.Affine(v)
      case GammaCorrection => GammaOneIsAffine(levels, v); levels.GammaOne(v)
    }

    /** _export_postprocess on one sample: clipped to the export range and
        cast to uint8. */
    function Post(v: real): (r: int)
      ensures 0 <= r <= 255
      ensures 0.0 <= levels.outBlack <= levels.outWhite < 256.0 ==> levels.outBlack.Floor <= r <= levels.outWhite.Floor
    {
      var c := Clip(v, levels.outBlack, levels.outWhite);
      assert 0.0 <= levels.outBlack <= levels.outWhite < 256.0 ==> U8(c) == c.Floor;
      U8(c)
    }

    /** One raw sample through the wrapper. */
    function Sample(v: real): (r: int)
      requires CurveError().None?
      ensures r == Post(levels.Affine(Pre(v)))
    {
      Post(Curve(Pre(v)))
    }

    /** _export_wrapper: pre-process, export, post-process, sample by
        sample. export returns this array; run_and_measure_time only pairs
        it with the elapsed time. */
    function ExportWrapper(raw: Raster<real>): (r: Result<Raster<int>>)
      ensures r.Ok? <==> CurveError().None?
      ensures r.Err? ==> r.error == CurveError().value
      ensures r.Ok? ==> SameShape(r.value, raw)
      ensures r.Ok? && raw.Mono? ==> forall i, j | InPlane(raw.plane, i, j) :: r.value.plane[i][j] == Sample(raw.plane[i][j])
      ensures r.Ok? && raw.Color? ==> forall c: Channel, i, j | InPlane(raw.Channel(c), i, j) ::
        r.value.Channel(c)[i][j] == Sample(raw.Channel(c)[i][j])
    {
      if CurveError().Some? then Err(CurveError().value)
      else Ok(MapRaster(raw, v requires CurveError().None? => Sample(v)))
    }
  }

  /** The subclasses' defaults: raw [0, 2^14 - 1], export [0, 255], gamma 1. */
  function NewExporter(kind: Kind): (e: Exporter)
    ensures e.kind == kind && e.levels == Levels(0.0, 16383.0, 0.0, 255.0) && e.gamma == 1.0
    ensures e.levels.Ordered()
    ensures e.CurveError().None? <==> kind != Log
  {
    Exporter(kind, Levels(0.0, 16383.0, 0.0, 255.0), 1.0)
  }

  /** With ordered levels the linear curve maps raw_min to export_min and
      raw_max to export_max and keeps the order of samples; with export
      levels in [0, 255] so does the exported uint8 value. */
  lemma LinearSample(e: Exporter, v: real, w: real)
    requires e.kind == Linear && e.levels.Ordered()
    ensures e.Curve(e.Pre(e.levels.inBlack)) == e.levels.outBlack && e.Curve(e.Pre(e.levels.inWhite)) == e.levels.outWhite
    ensures v <= w ==> e.Curve(e.Pre(v)) <= e.Curve(e.Pre(w))
    ensures 0.0 <= e.levels.outBlack && e.levels.outWhite < 256.0 ==>
      e.Sample(e.levels.inBlack) == e.levels.outBlack.Floor && e.Sample(e.levels.inWhite) == e.levels.outWhite.Floor
    ensures v <= w && 0.0 <= e.levels.outBlack && e.levels.outWhite < 256.0 ==> e.Sample(v) <= e.Sample(w)
  {
    if v <= w {
      ClipMonotone(v, w, e.levels.inBlack, e.levels.inWhite);
      AffineMonotone(e.levels, e.Pre(v), e.Pre(w));
      if 0.0 <= e.levels.outBlack && e.levels.outWhite < 256.0 {
        PostMonotone(e, e.levels.Affine(e.Pre(v)), e.levels.Affine(e.Pre(w)));
      }
    }
  }

  /** The output clip and the uint8 cast keep the order of samples. */
  lemma PostMonotone(e: Exporter, x: real, y: real)
    requires e.levels.outBlack <= e.levels.outWhite && 0.0 <= e.levels.outBlack && e.levels.outWhite < 256.0 && x <= y
    ensures e.Post(x) <= e.Post(y)
  {
    ClipMonotone(x, y, e.levels.outBlack, e.levels.outWhite);
  }

  /** With export levels in [0, 255] the whole output lies in the export range. */
  lemma OutputWithinRange(e: Exporter, raw: Raster<real>)
    requires e.CurveError().None? && 0.0 <= e.levels.outBlack <= e.levels.outWhite < 256.0
    ensures e.ExportWrapper(raw).Ok?
    ensures var out := e.ExportWrapper(raw).value;
      && (out.Mono? ==> forall i, j | InPlane(out.plane, i, j) :: e.levels.outBlack.Floor <= out.plane[i][j] <= e.levels.outWhite.Floor)
      && (out.Color? ==> forall c: Channel, i, j | InPlane(out.Channel(c), i, j) ::
            e.levels.outBlack.Floor <= out.Channel(c)[i][j] <= e.levels.outWhite.Floor)
  {
  }

  /** Gamma correction at gamma 1 exports every buffer exactly as the
      linear exporter with the same ranges. */
  lemma GammaOneIsLinear(e: Exporter, raw: Raster<real>)
    requires e.kind == GammaCorrection && e.gamma == 1.0 && e.levels.inWhite != e.levels.inBlack
    ensures e.ExportWrapper(raw) == e.(kind := Linear).ExportWrapper(raw)
  {
    var a, b := e.ExportWrapper(raw).value, e.(kind := Linear).ExportWrapper(raw).value;
    if raw.Mono? {
      GridExt(a.plane, b.plane);
    } else {
      forall c: Channel ensures a.Channel(c) == b.Channel(c) {
        GridExt(a.Channel(c), b.Channel(c));
      }
      assert a.red == a.Channel(0) && a.green == a.Channel(1) && a.blue == a.Channel(2);
      assert b.red == b.Channel(0) && b.green == b.Channel(1) && b.blue == b.Channel(2);
    }
  }
}
