/** The exporter-side demosaicers: built for a given blue location, they
    split the mosaic into a float colour image and optionally fill the
    missing sites. */
module CoreDemosaicer {
  import opened Common
  import opened Raster
  import opened Cfa
  import EditDemosaicer

  datatype Kind = BayerSplitter | CopyFill | Linear

  /** A demosaicer with the site table its constructor derived. */
  datatype Demosaicer = Demosaicer(kind: Kind, sites: Sites) {

    /** _demosaice: the split into a zeroed float32 H x W x 3 buffer, then
        the engine's fill. A three-dimensional raw buffer is a ValueError. */
    function Demosaice(image: Image): (r: Result<Image>)
      ensures image.raw.Color? ==> r == Err(ValueError)
      ensures kind == Linear ==> r.Err?
      ensures r.Err? ==> r.error in {ValueError, NotModelled}
      ensures r.Ok? ==> && r.value.cameraWhiteBalance == image.cameraWhiteBalance
                        && r.value.raw.Color? && r.value.raw.Height() == image.raw.Height()
      ensures r.Ok? ==> image.raw.Mono? && forall c: Channel ::
        |r.value.raw.Channel(c)| == |image.raw.plane| && Width(r.value.raw.Channel(c)) == Width(image.raw.plane)
    {
      match image.raw
      case Color(_, _, _) => Err(ValueError)
      case Mono(m) =>
        match kind
        case BayerSplitter => Ok(image.(raw := Split(m, sites)))
        case CopyFill =>
          (match Copy(m, sites)
           case Ok(out) => Ok(image.(raw := out))
           case Err(e) => Err(e))
        case Linear => Err(NotModelled)
    }

    /** The demosaicer as the source runs it: the loops over the colour sites. */
    method Run(image: Image) returns (r: Result<Image>)
      ensures r == Demosaice(image)
    {
      if image.raw.Color? {
        return Err(ValueError);
      }
      var m := image.raw.plane;
      match kind {
        case BayerSplitter =>
          var out := RunSplit(m, sites);
          r := Ok(image.(raw := out));
        case CopyFill =>
          var out := RunCopy(m, sites);
          r := if out.Ok? then Ok(image.(raw := out.value)) else Err(out.error);
        case Linear =>
          r := Err(NotModelled);
      }
    }
  }

  /** The constructor: a blue location outside the 2 x 2 tile is a ValueError. */
  function NewDemosaicer(kind: Kind, blueLoc: (int, int)): (r: Result<Demosaicer>)
    ensures r.Ok? <==> 0 <= blueLoc.0 <= 1 && 0 <= blueLoc.1 <= 1
    ensures r.Err? ==> r.error == ValueError
    ensures r.Ok? ==> && r.value.kind == kind
                      && r.value.sites.blue == Loc(blueLoc.0, blueLoc.1)
                      && r.value.sites.red == Opposite(r.value.sites.blue)
                      && Partition(r.value.sites)
  {
    match SitesFor(blueLoc)
    case Ok(s) => Ok(Demosaicer(kind, s))
    case Err(e) => Err(e)
  }

  /** Every constructed splitter loses nothing: each sample lands in exactly
      its native channel and the three channels of a cell add up to it. */
  lemma SplitterLosesNothing(kind: Kind, blueLoc: (int, int), image: Image, i: nat, j: nat)
    requires kind == BayerSplitter && NewDemosaicer(kind, blueLoc).Ok?
    requires image.raw.Mono? && i < |image.raw.plane| && j < Width(image.raw.plane)
    ensures var d := NewDemosaicer(kind, blueLoc).value;
      var r := d.Demosaice(image);
      && r.Ok?
      && (forall c: Channel :: r.value.raw.Channel(c)[i][j] ==
            if IsNative(d.sites, c, i % 2, j % 2) then image.raw.plane[i][j] else 0.0)
      && r.value.raw.red[i][j] + r.value.raw.green[i][j] + r.value.raw.blue[i][j] == image.raw.plane[i][j]
  {
    var d := NewDemosaicer(kind, blueLoc).value;
    forall c: Channel
      ensures Split(image.raw.plane, d.sites).Channel(c)[i][j] ==
        if IsNative(d.sites, c, i % 2, j % 2) then image.raw.plane[i][j] else 0.0
    {
      SplitSample(image.raw.plane, d.sites, c, i, j);
    }
    SplitSum(image.raw.plane, d.sites, i, j);
  }

  /** On a mosaic of even height and width the copy demosaicer succeeds and
      every native sample keeps its value in its native channel. */
  lemma CopyKeepsSamples(d: Demosaicer, image: Image, c: Channel, i: nat, j: nat)
    requires d.kind == CopyFill && image.raw.Mono?
    requires var m := image.raw.plane; |m| % 2 == 0 && Width(m) % 2 == 0 && i < |m| && j < Width(m)
    requires IsNative(d.sites, c, i % 2, j % 2)
    ensures var r := d.Demosaice(image);
      r.Ok? && r.value.raw.Channel(c)[i][j] == image.raw.plane[i][j]
  {
    CopyKeepsNative(image.raw.plane, d.sites, c, i, j);
  }

  /** The two families agree: on a mosaic of 16-bit samples a new editor
      engine does what the exporter-side demosaicer of the same kind does
      for blue at (1, 1). */
  lemma EditAgreesWithCore(image: Image)
    requires image.raw.Mono? && EditDemosaicer.IsUint16Plane(image.raw.plane)
    ensures var d := NewDemosaicer(BayerSplitter, (1, 1)).value;
      EditDemosaicer.NewEngine(EditDemosaicer.BayerSplitter).Demosaice(image) == d.Demosaice(image)
    ensures var d := NewDemosaicer(CopyFill, (1, 1)).value;
      EditDemosaicer.NewEngine(EditDemosaicer.CopyFill).Demosaice(image) == d.Demosaice(image)
  {
    EditDemosaicer.ToUint16Identity(image.raw.plane);
  }
}
