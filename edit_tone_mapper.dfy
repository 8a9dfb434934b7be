/** The editor's tone-mapping stage: black-level correction and input clip,
    the engine's curve, the output clip, and the same curve applied to the
    camera white-balance multipliers. */
module EditToneMapper {
  import opened Common
  import opened Raster
  import opened ToneCurve

  datatype Kind = Linear | Log | GammaCorrection

  /** One engine with its level fields, which callers assign directly. */
  datatype Engine = Engine(kind: Kind, name: string, correction: real, levels: Levels, gamma: real) {

    /** Why _tone_map cannot produce finite samples, if it cannot: the
        linear scale divides Python integers, the gamma curve divides the
        buffer by the input range, and a gamma other than 1 needs a real
        power, which this model leaves out. The log engine never fails: its
        log result is discarded. */
    function CurveError(): (r: Option<Error>)
      ensures kind == Log ==> r.None?
      ensures kind == Linear ==> (r.None? <==> levels.inWhite != levels.inBlack)
      ensures kind == GammaCorrection ==> (r.None? <==> levels.inWhite != levels.inBlack && gamma == 1.0)
    {
      match kind
      case Linear => if levels.inWhite == levels.inBlack then Some(ZeroDivisionError) else None
      case Log => None
      case GammaCorrection =>
        if levels.inWhite == levels.inBlack then Some(NonFinite)
        else if gamma != 1.0 then Some(NotModelled)
        else None
    }

    /** _tone_map on one sample. The log engine subtracts inBlack + 1 in
        place and then rebinds its local name to the logarithm, so only the
        subtraction reaches the caller's buffer. */
    function Curve(v: real): (r: real)
      requires CurveError().None?
      ensures kind == Log ==> r == v - (levels.inBlack + 1.0)
      ensures kind == Linear ==> r == levels.Affine(v)
      ensures kind == GammaCorrection ==> r == levels.Affine(v)
    {
      match kind
      case Linear => levels.Affine(v)
      case Log => v - (levels.inBlack + 1.0)
      case GammaCorrection => GammaOneIsAffine(levels, v); levels.GammaOne(v)
    }

    /** _tone_map_pre_process: subtract the correction, clip to the input range. */
    function Pre(v: real): real {
      levels.Corrected(v, correction)
    }

    /** One raw sample through the wrapper: pre-process, curve, output clip. */
    function Sample(v: real): (r: real)
      requires CurveError().None?
      ensures levels.outBlack <= levels.outWhite ==> levels.outBlack <= r <= levels.outWhite
    {
      Clip(Curve(Pre(v)), levels.outBlack, levels.outWhite)
    }

    /** _tone_map_camera_white_balance: the multipliers, when there are
        exactly three, lose the correction and go through the curve, with no
        clip on either side. */
    function CameraBalance(wb: Option<seq<real>>): (r: Option<seq<real>>)
      requires CurveError().None?
      ensures wb.None? || |wb.value| != 3 ==> r == wb
      ensures wb.Some? && |wb.value| == 3 ==>
        r.Some? && |r.value| == 3 && forall k | 0 <= k < 3 :: r.value[k] == Curve(wb.value[k] - correction)
    {
      if wb.None? || |wb.value| != 3 then wb
      else Some(seq(3, k requires 0 <= k < 3 => Curve(wb.value[k] - correction)))
    }

    /** _tone_map_wrapper over the whole image. */
    function ToneMap(image: Image): (r: Result<Image>)
      ensures r.Ok? <==> CurveError().None?
      ensures r.Err? ==> r.error == CurveError().value
      ensures r.Ok? ==> SameShape(r.value.raw, image.raw)
      ensures r.Ok? && image.raw.Mono? ==> forall i, j | InPlane(image.raw.plane, i, j) ::
        r.value.raw.plane[i][j] == Sample(image.raw.plane[i][j])
      ensures r.Ok? && image.raw.Color? ==> forall c: Channel, i, j | InPlane(image.raw.Channel(c), i, j) ::
        r.value.raw.Channel(c)[i][j] == Sample(image.raw.Channel(c)[i][j])
      ensures r.Ok? ==> r.value.cameraWhiteBalance == CameraBalance(image.cameraWhiteBalance)
    {
      if CurveError().Some? then Err(CurveError().value)
      else Ok(Image(MapRaster(image.raw, v requires CurveError().None? => Sample(v)), CameraBalance(image.cameraWhiteBalance)))
    }
  }

  /** An engine with the base constructor's levels: correction 512, input
      [0, 4095], output [0, 255]; the gamma engine starts at gamma 1. */
  function NewEngine(kind: Kind): (e: Engine)
    ensures e.kind == kind && e.correction == 512.0
    ensures e.levels == Levels(0.0, 4095.0, 0.0, 255.0) && e.levels.Ordered()
    ensures kind == GammaCorrection ==> e.gamma == 1.0
    ensures e.CurveError().None?
  {
    var name := match kind
      case Linear => "linear"
      case Log => "log"
      case GammaCorrection => "gamma_correction";
    Engine(kind, name, 512.0, Levels(0.0, 4095.0, 0.0, 255.0), 1.0)
  }

  /** The front: engine 'none' switches the stage off, an unknown engine
      name is a ValueError. */
  datatype ToneMapper = ToneMapper(name: string, engine: string, engines: map<string, Engine>) {

    function Process(image: Image): (r: Result<Image>)
      ensures engine == "none" ==> r == Ok(image)
      ensures engine != "none" && engine !in engines ==> r == Err(ValueError)
      ensures engine != "none" && engine in engines ==> r == engines[engine].ToneMap(image)
    {
      if engine == "none" then Ok(image)
      else if engine !in engines then Err(ValueError)
      else engines[engine].ToneMap(image)
    }
  }

  function NewToneMapper(name: string, engine: string): (t: ToneMapper)
    ensures t.engines.Keys == {"linear", "log", "gamma_correction"}
    ensures t.engines["linear"].kind == Linear && t.engines["log"].kind == Log
    ensures t.engines["gamma_correction"].kind == GammaCorrection
  {
    ToneMapper(name, engine, map["linear" := NewEngine(Linear), "log" := NewEngine(Log),
                                 "gamma_correction" := NewEngine(GammaCorrection)])
  }

  /** With ordered levels the linear engine's output clip changes nothing:
      each sample is the affine image of the pre-processed sample, and the
      map keeps the order of samples. */
  lemma LinearSample(e: Engine, v: real, w: real)
    requires e.kind == Linear && e.levels.Ordered()
    ensures e.Sample(v) == e.levels.Affine(e.Pre(v))
    ensures v <= w ==> e.Sample(v) <= e.Sample(w)
  {
    AffineRange(e.levels, e.Pre(v));
    if v <= w {
      ClipMonotone(v - e.correction, w - e.correction, e.levels.inBlack, e.levels.inWhite);
      AffineRange(e.levels, e.Pre(w));
      AffineMonotone(e.levels, e.Pre(v), e.Pre(w));
    }
  }

  /** The log engine's visible effect: the pre-processed sample less
      inBlack + 1, clipped to the output range. */
  lemma LogSample(e: Engine, v: real)
    requires e.kind == Log
    ensures e.Sample(v) == Clip(Clip(v - e.correction, e.levels.inBlack, e.levels.inWhite) - e.levels.inBlack - 1.0,
                                e.levels.outBlack, e.levels.outWhite)
  {
  }

  /** With ordered output levels every tone-mapped sample lies in the
      output range. */
  lemma ToneMapWithin(e: Engine, image: Image)
    requires e.CurveError().None? && e.levels.outBlack <= e.levels.outWhite
    ensures e.ToneMap(image).Ok?
    ensures RasterWithin(e.ToneMap(image).value.raw, e.levels.outBlack, e.levels.outWhite)
  {
    var raw := e.ToneMap(image).value.raw;
    if raw.Color? {
      assert raw.red == raw.Channel(0) && raw.green == raw.Channel(1) && raw.blue == raw.Channel(2);
      assert image.raw.red == image.raw.Channel(0) && image.raw.green == image.raw.Channel(1) && image.raw.blue == image.raw.Channel(2);
    }
  }

  /** Gamma correction at gamma 1 tone-maps every image exactly as the
      linear engine with the same levels. */
  lemma GammaOneIsLinear(e: Engine, image: Image)
    requires e.kind == GammaCorrection && e.gamma == 1.0 && e.levels.inWhite != e.levels.inBlack
    ensures e.ToneMap(image) == e.(kind := Linear).ToneMap(image)
  {
    var lin := e.(kind := Linear);
    var a, b := e.ToneMap(image).value, lin.ToneMap(image).value;
    RasterExt(a.raw, b.raw);
    GammaOneBalance(e, image.cameraWhiteBalance);
  }

  /** At gamma 1 the camera multipliers go through the same curve as in the
      linear engine. */
  lemma GammaOneBalance(e: Engine, wb: Option<seq<real>>)
    requires e.kind == GammaCorrection && e.gamma == 1.0 && e.levels.inWhite != e.levels.inBlack
    ensures e.CameraBalance(wb) == e.(kind := Linear).CameraBalance(wb)
  {
    if wb.Some? && |wb.value| == 3 {
      var x, y := e.CameraBalance(wb).value, e.(kind := Linear).CameraBalance(wb).value;
      assert x[0] == y[0] && x[1] == y[1] && x[2] == y[2];
      assert x == y;
    }
  }
}
