/** The editor's white-balance stage: an engine estimates one scale per
    colour channel, optionally normalises them to sum 3, and multiplies each
    channel by its scale. */
module EditWhiteBalancer {
  import opened Common
  import opened Raster

  datatype Kind = RGBScale | Camera | WhitePatch | GrayWorld

  /** Three per-channel numbers: the r_scale, g_scale and b_scale fields,
      or the white levels and means they are estimated from. */
  datatype Scales = Scales(r: real, g: real, b: real) {
    function At(c: Channel): real {
      if c == 0 then r else if c == 1 then g else b
    }

    function Sum(): real {
      r + g + b
    }

    predicate NonZero() {
      r != 0.0 && g != 0.0 && b != 0.0
    }

    /** (scales * 3) / np.sum(scales) */
    function Normalized(): (n: Scales)
      requires Sum() != 0.0
    {
      Scales(r * 3.0 / Sum(), g * 3.0 / Sum(), b * 3.0 / Sum())
    }

    /** 1.0 / scales */
    function Inverse(): (n: Scales)
      requires NonZero()
      ensures n.NonZero()
    {
      Scales(1.0 / r, 1.0 / g, 1.0 / b)
    }
  }

  const Ones := Scales(1.0, 1.0, 1.0)

  /** np.percentile(plane, q): the white level of one channel. */
  type Percentile = (Grid<real>, real) -> real

  /** The sum of the first m samples of a row. */
  function RowSum(row: seq<real>, m: nat): real
    requires m <= |row|
  {
    if m == 0 then 0.0 else RowSum(row, m - 1) + row[m - 1]
  }

  /** The sum of the first n rows of a plane. */
  function RowsSum(g: seq<seq<real>>, n: nat): real
    requires n <= |g|
  {
    if n == 0 then 0.0 else RowsSum(g, n - 1) + RowSum(g[n - 1], |g[n - 1]|)
  }

  function GridSum(g: seq<seq<real>>): real {
    RowsSum(g, |g|)
  }

  /** Whether np.mean over a plane is a finite, non-zero number. */
  predicate HasMean(g: Grid<real>) {
    |g| != 0 && Width(g) != 0 && GridSum(g) != 0.0
  }

  /** The number of samples in a plane. */
  function Size(g: Grid<real>): nat {
    |g| * Width(g)
  }

  /** np.mean over the first two axes of one plane. */
  function Mean(g: Grid<real>): real
    requires HasMean(g)
  {
    GridSum(g) / Size(g) as real
  }

  lemma MeanNonZero(g: Grid<real>)
    requires HasMean(g)
    ensures Mean(g) != 0.0
  {
    NonZeroQuotient(GridSum(g), Size(g) as real);
  }

  lemma NonZeroQuotient(x: real, y: real)
    requires x != 0.0 && y != 0.0
    ensures x / y != 0.0
  {
  }

  /** The per-channel means of an (H, W, 3) buffer. */
  function Means(raw: Raster<real>): (m: Scales)
    requires raw.Color? && forall c: Channel :: HasMean(raw.Channel(c))
    ensures forall c: Channel :: m.At(c) == Mean(raw.Channel(c))
    ensures m.NonZero()
  {
    MeanNonZero(raw.Channel(0));
    MeanNonZero(raw.Channel(1));
    MeanNonZero(raw.Channel(2));
    Scales(Mean(raw.Channel(0)), Mean(raw.Channel(1)), Mean(raw.Channel(2)))
  }

  /** Every channel multiplied by its scale. */
  function ScaleChannels(raw: Raster<real>, s: Scales): (r: Raster<real>)
    requires raw.Color?
    ensures SameShape(r, raw)
    ensures forall c: Channel, i, j | InPlane(raw.Channel(c), i, j) :: r.Channel(c)[i][j] == s.At(c) * raw.Channel(c)[i][j]
  {
    var r := Color(MapGrid(raw.red, v => s.r * v), MapGrid(raw.green, v => s.g * v), MapGrid(raw.blue, v => s.b * v));
    assert forall c: Channel :: r.Channel(c) == MapGrid(raw.Channel(c), v => s.At(c) * v);
    r
  }

  /** The camera engine's scales: the camera multipliers, or ones when
      there are not exactly three. */
  function CameraScales(wb: Option<seq<real>>): (r: Scales)
    ensures wb.None? || |wb.value| != 3 ==> r == Ones
    ensures wb.Some? && |wb.value| == 3 ==> forall c: Channel :: r.At(c) == wb.value[c]
  {
    if wb.None? || |wb.value| != 3 then Ones else Scales(wb.value[0], wb.value[1], wb.value[2])
  }

  /** The white-patch scales: one over each channel's percentile. On a
      two-dimensional buffer the percentile is a scalar, and indexing it in
      set_scales is an IndexError; a zero white level gives an infinite scale. */
  function WhitePatchScales(raw: Raster<real>, white: Percentile, q: real): (r: Result<Scales>)
    ensures raw.Mono? ==> r == Err(IndexError)
    ensures raw.Color? ==> (r.Ok? <==> forall c: Channel :: white(raw.Channel(c), q) != 0.0)
    ensures raw.Color? && r.Err? ==> r.error == NonFinite
    ensures r.Ok? ==> forall c: Channel :: r.value.At(c) == 1.0 / white(raw.Channel(c), q)
  {
    if raw.Mono? then Err(IndexError)
    else
      var w := Scales(white(raw.Channel(0), q), white(raw.Channel(1), q), white(raw.Channel(2), q));
      if !w.NonZero() then Err(NonFinite)
      else Ok(w.Inverse())
  }

  /** The gray-world scales: one over each channel's mean, with the same
      IndexError on a two-dimensional buffer; an empty plane or a zero mean
      gives undefined or infinite scales. */
  function GrayWorldScales(raw: Raster<real>): (r: Result<Scales>)
    ensures raw.Mono? ==> r == Err(IndexError)
    ensures raw.Color? ==> (r.Ok? <==> forall c: Channel :: HasMean(raw.Channel(c)))
    ensures raw.Color? && r.Err? ==> r.error == NonFinite
    ensures r.Ok? ==> r.value == Means(raw).Inverse()
    ensures r.Ok? ==> forall c: Channel :: r.value.At(c) == 1.0 / Mean(raw.Channel(c))
  {
    if raw.Mono? then Err(IndexError)
    else if !HasMean(raw.Channel(0)) || !HasMean(raw.Channel(1)) || !HasMean(raw.Channel(2)) then Err(NonFinite)
    else Ok(Means(raw).Inverse())
  }

  /** One engine with its scale fields and its normalize flag. */
  datatype Engine = Engine(kind: Kind, name: string, scales: Scales, normalize: bool, percentile: real) {

    /** set_scales: the three scale fields, nothing else. */
    function SetScales(s: Scales): (r: Engine)
      ensures r.scales == s && r.kind == kind && r.name == name
      ensures r.normalize == normalize && r.percentile == percentile
    {
      this.(scales := s)
    }

    /** The scales _white_balance multiplies by: with normalize, a local
        copy rescaled by 3 / sum (the fields keep their values); a zero sum
        gives infinite or undefined scales. */
    function Effective(): (r: Result<Scales>)
      ensures !normalize ==> r == Ok(scales)
      ensures normalize ==> (r.Ok? <==> scales.Sum() != 0.0)
      ensures normalize && r.Ok? ==> r.value == scales.Normalized()
      ensures r.Err? ==> r.error == NonFinite
    {
      if !normalize then Ok(scales)
      else if scales.Sum() == 0.0 then Err(NonFinite)
      else Ok(scales.Normalized())
    }

    /** WhiteBalancerRGBScale._white_balance: scales of all ones leave the
        image alone; otherwise the (H, W, 3) buffer is multiplied channel by
        channel, and a two-dimensional buffer does not broadcast. Scales
        made non-finite by normalising are never all ones, so they reach
        the multiply too. */
    function ApplyScales(image: Image): (r: Result<Image>)
      ensures Effective().Err? ==> r == Err(if image.raw.Mono? then ValueError else NonFinite)
      ensures Effective() == Ok(Ones) ==> r == Ok(image)
      ensures Effective().Ok? && Effective().value != Ones && image.raw.Mono? ==> r == Err(ValueError)
      ensures Effective().Ok? && Effective().value != Ones && image.raw.Color? ==>
        && r.Ok? && r.value.cameraWhiteBalance == image.cameraWhiteBalance
        && SameShape(r.value.raw, image.raw)
        && forall c: Channel, i, j | InPlane(image.raw.Channel(c), i, j) ::
             r.value.raw.Channel(c)[i][j] == Effective().value.At(c) * image.raw.Channel(c)[i][j]
    {
      match Effective()
      case Err(e) => if image.raw.Mono? then Err(ValueError) else Err(e)
      case Ok(s) =>
        if s == Ones then Ok(image)
        else if image.raw.Mono? then Err(ValueError)
        else Ok(image.(raw := ScaleChannels(image.raw, s)))
    }

    /** The scales the engine sets before multiplying: its own fields for
        rgb_scale, otherwise what the engine estimates from the image. */
    function Estimate(image: Image, white: Percentile): (r: Result<Scales>)
      ensures kind == RGBScale ==> r == Ok(scales)
      ensures kind == Camera ==> r == Ok(CameraScales(image.cameraWhiteBalance))
      ensures kind == WhitePatch ==> r == WhitePatchScales(image.raw, white, percentile)
      ensures kind == GrayWorld ==> r == GrayWorldScales(image.raw)
    {
      match kind
      case RGBScale => Ok(scales)
      case Camera => Ok(CameraScales(image.cameraWhiteBalance))
      case WhitePatch => WhitePatchScales(image.raw, white, percentile)
      case GrayWorld => GrayWorldScales(image.raw)
    }

    /** white_balance: estimate, store the scales in the engine's fields
        (rgb_scale keeps its own), then multiply. The engine comes back with
        its new fields. */
    function WhiteBalance(image: Image, white: Percentile): (r: Result<(Image, Engine)>)
      ensures Estimate(image, white).Err? ==> r == Err(Estimate(image, white).error)
      ensures Estimate(image, white).Ok? ==>
        var e := SetScales(Estimate(image, white).value);
        && e.scales == Estimate(image, white).value
        && (r.Ok? <==> e.ApplyScales(image).Ok?)
        && (r.Ok? ==> r.value == (e.ApplyScales(image).value, e))
        && (r.Err? ==> r.error == e.ApplyScales(image).error)
    {
      match Estimate(image, white)
      case Err(err) => Err(err)
      case Ok(s) =>
        var e := SetScales(s);
        match e.ApplyScales(image)
        case Err(err) => Err(err)
        case Ok(out) => Ok((out, e))
    }
  }

  /** The engines with their constructor defaults: rgb_scale at ones without
      normalisation, the three estimating engines with it, white patch at
      percentile 0.97. */
  function NewEngine(kind: Kind): (e: Engine)
    ensures e.kind == kind && e.scales == Ones
    ensures e.normalize <==> kind != RGBScale
    ensures kind == WhitePatch ==> e.percentile == 0.97
  {
    match kind
    case RGBScale => Engine(RGBScale, "rgb_scale", Ones, false, 0.97)
    case Camera => Engine(Camera, "camera", Ones, true, 0.97)
    case WhitePatch => Engine(WhitePatch, "white_patch", Ones, true, 0.97)
    case GrayWorld => Engine(GrayWorld, "gray_world", Ones, true, 0.97)
  }

  /** Engine names whose scales process copies into the rgb_scale engine. */
  predicate CopiesScales(engine: string) {
    engine == "camera" || engine == "white_patch" || engine == "gray_world"
  }

  /** The front: engine 'none' switches the stage off, an unknown engine
      name is a ValueError. After an estimating engine it copies that
      engine's stored (un-normalised) scales into the rgb_scale engine. */
  datatype WhiteBalancer = WhiteBalancer(name: string, engine: string, engines: map<string, Engine>) {

    function Process(image: Image, white: Percentile): (r: Result<(Image, WhiteBalancer)>)
      ensures engine == "none" ==> r == Ok((image, this))
      ensures engine != "none" && engine !in engines ==> r == Err(ValueError)
      ensures engine != "none" && engine in engines && engines[engine].WhiteBalance(image, white).Err? ==>
        r == Err(engines[engine].WhiteBalance(image, white).error)
      ensures engine != "none" && engine in engines && engines[engine].WhiteBalance(image, white).Ok? ==>
        var (out, e) := engines[engine].WhiteBalance(image, white).value;
        if CopiesScales(engine) && "rgb_scale" !in engines then r == Err(KeyError)
        else
          && r.Ok? && r.value.0 == out
          && r.value.1.name == name && r.value.1.engine == engine
          && r.value.1.engines.Keys == engines.Keys
          && r.value.1.engines[engine] == e
          && (CopiesScales(engine) ==> r.value.1.engines["rgb_scale"] == engines["rgb_scale"].SetScales(e.scales))
          && forall k | k in engines && k != engine && !(CopiesScales(engine) && k == "rgb_scale") ::
               r.value.1.engines[k] == engines[k]
    {
      if engine == "none" then Ok((image, this))
      else if engine !in engines then Err(ValueError)
      else
        match engines[engine].WhiteBalance(image, white)
        case Err(err) => Err(err)
        case Ok((out, e)) =>
          var updated := engines[engine := e];
          if !CopiesScales(engine) then Ok((out, this.(engines := updated)))
          else if "rgb_scale" !in updated then Err(KeyError)
          else Ok((out, this.(engines := updated["rgb_scale" := updated["rgb_scale"].SetScales(e.scales)])))
    }
  }

  function NewWhiteBalancer(name: string, engine: string): (w: WhiteBalancer)
    ensures w.engines.Keys == {"rgb_scale", "camera", "white_patch", "gray_world"}
    ensures w.engines["rgb_scale"] == NewEngine(RGBScale) && w.engines["camera"] == NewEngine(Camera)
    ensures w.engines["white_patch"] == NewEngine(WhitePatch) && w.engines["gray_world"] == NewEngine(GrayWorld)
  {
    WhiteBalancer(name, engine, map["rgb_scale" := NewEngine(RGBScale), "camera" := NewEngine(Camera),
                                    "white_patch" := NewEngine(WhitePatch), "gray_world" := NewEngine(GrayWorld)])
  }

  /** Multiplying every sample of a row by s multiplies its sum by s. */
  lemma {:induction false} RowSumScaled(a: seq<real>, b: seq<real>, s: real, m: nat)
    requires m <= |a| == |b| && forall j | 0 <= j < |a| :: b[j] == s * a[j]
    ensures RowSum(b, m) == s * RowSum(a, m)
  {
    if m > 0 {
      RowSumScaled(a, b, s, m - 1);
    }
  }

  /** Multiplying every sample of a plane by s multiplies its sum by s. */
  lemma {:induction false} RowsSumScaled(a: seq<seq<real>>, b: seq<seq<real>>, s: real, n: nat)
    requires n <= |a| == |b| && forall i | 0 <= i < |a| :: |a[i]| == |b[i]|
    requires forall i, j | 0 <= i < |a| && 0 <= j < |a[i]| :: b[i][j] == s * a[i][j]
    ensures RowsSum(b, n) == s * RowsSum(a, n)
  {
    if n > 0 {
      RowsSumScaled(a, b, s, n - 1);
      RowSumScaled(a[n - 1], b[n - 1], s, |a[n - 1]|);
    }
  }

  /** A plane scaled by s has s times its mean. */
  lemma MeanScaled(a: Grid<real>, b: Grid<real>, s: real, k: real)
    requires HasMean(a) && s != 0.0 && |a| == |b| && Width(a) == Width(b)
    requires forall i, j | InPlane(a, i, j) :: b[i][j] == s * a[i][j]
    requires s * Mean(a) == k
    ensures HasMean(b) && Mean(b) == k
  {
    forall i | 0 <= i < |a| ensures |a[i]| == |b[i]| {
      assert |a[i]| == Width(a) && |b[i]| == Width(b);
    }
    RowsSumScaled(a, b, s, |a|);
    assert Size(a) == Size(b);
    ScaledQuotient(GridSum(a), s, Size(a) as real);
  }

  lemma ScaledQuotient(x: real, s: real, n: real)
    requires n != 0.0
    ensures (s * x) / n == s * (x / n)
  {
  }

  /** Normalisation keeps the proportions of the scales and makes them sum to 3. */
  lemma NormalizedScales(s: Scales)
    requires s.Sum() != 0.0
    ensures s.Normalized().Sum() == 3.0
    ensures forall c: Channel :: s.Normalized().At(c) * s.Sum() == 3.0 * s.At(c)
  {
    var t := s.Sum();
    QuotientSum(s.r, s.g, s.b, t);
    forall c: Channel ensures s.Normalized().At(c) * t == 3.0 * s.At(c) {
      QuotientTimes(s.At(c), t);
    }
  }

  lemma QuotientSum(x: real, y: real, z: real, t: real)
    requires t == x + y + z && t != 0.0
    ensures x * 3.0 / t + y * 3.0 / t + z * 3.0 / t == 3.0
  {
    assert x * 3.0 / t + y * 3.0 / t + z * 3.0 / t == (x + y + z) * 3.0 / t;
  }

  lemma QuotientTimes(x: real, t: real)
    requires t != 0.0
    ensures x * 3.0 / t * t == 3.0 * x
  {
  }

  /** The normalised engine multiplies by scales that sum to 3 and keep the
      proportions of its fields, which are left as they were. */
  lemma EffectiveNormalized(e: Engine)
    requires e.normalize && e.scales.Sum() != 0.0
    ensures e.Effective().Ok? && e.Effective().value.Sum() == 3.0
    ensures forall c: Channel :: e.Effective().value.At(c) * e.scales.Sum() == 3.0 * e.scales.At(c)
  {
    NormalizedScales(e.scales);
  }

  /** Three equal non-zero scales normalise to ones. */
  lemma NormalizedEqual(s: Scales)
    requires s.r == s.g == s.b && s.r != 0.0
    ensures s.Sum() != 0.0 && s.Normalized() == Ones
  {
    var t := s.Sum();
    assert t == 3.0 * s.r;
    assert s.r * 3.0 / t == 1.0;
  }

  /** The gray-world arithmetic: in every channel the normalised inverse of
      the means, times the mean, is 3 over the sum of the inverse means. */
  lemma NormalizedInverseTimes(m: Scales, c: Channel)
    requires m.NonZero() && m.Inverse().Sum() != 0.0
    ensures m.Inverse().Normalized().At(c) * m.At(c) == 3.0 / m.Inverse().Sum()
    ensures m.Inverse().Normalized().At(c) != 0.0
  {
    InverseTimes(m.At(c), m.Inverse().Sum());
  }

  lemma InverseTimes(x: real, t: real)
    requires x != 0.0 && t != 0.0
    ensures 1.0 / x * 3.0 / t * x == 3.0 / t && 1.0 / x * 3.0 / t != 0.0
  {
  }

  /** Without valid camera multipliers the camera engine leaves the image as it is. */
  lemma CameraFallbackKeepsImage(e: Engine, image: Image, white: Percentile)
    requires e.kind == Camera
    requires image.cameraWhiteBalance.None? || |image.cameraWhiteBalance.value| != 3
    ensures e.WhiteBalance(image, white).Ok? && e.WhiteBalance(image, white).value.0 == image
  {
    if e.normalize {
      NormalizedEqual(Ones);
    }
  }

  /** Scaling the channels multiplies each channel mean by its scale. */
  lemma ScaledChannelMean(raw: Raster<real>, n: Scales, c: Channel, k: real)
    requires raw.Color? && HasMean(raw.Channel(c)) && n.At(c) != 0.0 && n.At(c) * Mean(raw.Channel(c)) == k
    ensures var out := if n == Ones then raw else ScaleChannels(raw, n);
      HasMean(out.Channel(c)) && Mean(out.Channel(c)) == k
  {
    if n == Ones {
      assert n.At(c) == 1.0;
    } else {
      MeanScaled(raw.Channel(c), ScaleChannels(raw, n).Channel(c), n.At(c), k);
    }
  }

  /** The raw buffer the gray-world engine leaves, in terms of the means. */
  lemma GrayWorldOutput(e: Engine, image: Image, white: Percentile)
    requires e.kind == GrayWorld && e.normalize && image.raw.Color?
    requires forall c: Channel :: HasMean(image.raw.Channel(c))
    requires Means(image.raw).Inverse().Sum() != 0.0
    ensures var n := Means(image.raw).Inverse().Normalized();
      && e.WhiteBalance(image, white).Ok?
      && e.WhiteBalance(image, white).value.0.raw == if n == Ones then image.raw else ScaleChannels(image.raw, n)
  {
  }

  /** Gray world equalises the channels: when every channel mean exists and
      the inverse means do not cancel, the balanced image has the same mean,
      3 over the sum of the inverse means, in all three channels. */
  lemma GrayWorldEqualMeans(e: Engine, image: Image, white: Percentile)
    requires e.kind == GrayWorld && e.normalize && image.raw.Color?
    requires forall c: Channel :: HasMean(image.raw.Channel(c))
    requires e.Estimate(image, white).value.Sum() != 0.0
    ensures e.WhiteBalance(image, white).Ok?
    ensures var out := e.WhiteBalance(image, white).value.0.raw;
      && out.Color?
      && forall c: Channel :: HasMean(out.Channel(c)) && Mean(out.Channel(c)) == 3.0 / e.Estimate(image, white).value.Sum()
  {
    var m := Means(image.raw);
    assert e.Estimate(image, white) == Ok(m.Inverse());
    var k := 3.0 / m.Inverse().Sum();
    var n := m.Inverse().Normalized();
    GrayWorldOutput(e, image, white);
    var out := if n == Ones then image.raw else ScaleChannels(image.raw, n);
    forall c: Channel ensures HasMean(out.Channel(c)) && Mean(out.Channel(c)) == k {
      GrayWorldChannelMean(image.raw, c);
    }
  }

  /** One channel of the gray-world output: its mean is 3 over the sum of
      the inverse means. */
  lemma GrayWorldChannelMean(raw: Raster<real>, c: Channel)
    requires raw.Color? && forall d: Channel :: HasMean(raw.Channel(d))
    requires Means(raw).Inverse().Sum() != 0.0
    ensures var n := Means(raw).Inverse().Normalized();
      var out := if n == Ones then raw else ScaleChannels(raw, n);
      HasMean(out.Channel(c)) && Mean(out.Channel(c)) == 3.0 / Means(raw).Inverse().Sum()
  {
    var m := Means(raw);
    assert m.At(c) == Mean(raw.Channel(c));
    ScaledByNormalizedInverse(raw, m, c);
  }

  /** The same, with the means given as a value. */
  lemma ScaledByNormalizedInverse(raw: Raster<real>, m: Scales, c: Channel)
    requires raw.Color? && HasMean(raw.Channel(c)) && m.At(c) == Mean(raw.Channel(c))
    requires m.NonZero() && m.Inverse().Sum() != 0.0
    ensures var n := m.Inverse().Normalized();
      var out := if n == Ones then raw else ScaleChannels(raw, n);
      HasMean(out.Channel(c)) && Mean(out.Channel(c)) == 3.0 / m.Inverse().Sum()
  {
    NormalizedInverseTimes(m, c);
    ScaledChannelMean(raw, m.Inverse().Normalized(), c, 3.0 / m.Inverse().Sum());
  }

  /** Gray world on an image whose channel means are already equal changes
      nothing: the normalised scales are all one. */
  lemma GrayWorldBalancedIsFixed(e: Engine, image: Image, white: Percentile)
    requires e.kind == GrayWorld && e.normalize && image.raw.Color?
    requires forall c: Channel :: HasMean(image.raw.Channel(c))
    requires forall c: Channel :: Mean(image.raw.Channel(c)) == Mean(image.raw.Channel(0))
    ensures e.WhiteBalance(image, white).Ok? && e.WhiteBalance(image, white).value.0 == image
  {
    var m := Means(image.raw);
    assert m.r == m.g == m.b by {
      assert m.At(1) == m.At(0) && m.At(2) == m.At(0);
    }
    NormalizedEqual(m.Inverse());
    GrayWorldOutput(e, image, white);
  }

  /** After an estimating engine succeeds, the rgb_scale engine holds the
      scales that engine estimated, before any normalisation. */
  lemma ProcessCopiesEstimate(w: WhiteBalancer, image: Image, white: Percentile)
    requires CopiesScales(w.engine) && w.engine in w.engines && "rgb_scale" in w.engines
    requires w.Process(image, white).Ok?
    ensures var est := w.engines[w.engine].Estimate(image, white);
      && est.Ok?
      && w.Process(image, white).value.1.engines["rgb_scale"].scales == est.value
      && w.Process(image, white).value.1.engines[w.engine].scales == est.value
  {
  }
}
