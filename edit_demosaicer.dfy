/** The editor's demosaicing stage: a front that picks one of three engines
    by name, and the engines themselves, which split the mosaic into an
    unsigned 16-bit colour image and optionally fill the missing sites. */
module EditDemosaicer {
  import opened Common
  import opened Raster
  import opened Cfa

  datatype Kind = BayerSplitter | CopyFill | Linear

  /** The uint16 output buffer: every sample stored into it is truncated
      and wrapped to 16 bits. */
  function ToUint16(g: Grid<real>): (r: Grid<real>)
    ensures |r| == |g| && Width(r) == Width(g)
    ensures forall i, j | 0 <= i < |g| && 0 <= j < Width(g) ::
      r[i][j] == U16(g[i][j]) as real && 0.0 <= r[i][j] < 65536.0
  {
    MapGrid(g, v => U16(v) as real)
  }

  /** Samples a uint16 buffer can hold as they are. */
  predicate IsUint16Plane(g: Grid<real>) {
    forall i, j | 0 <= i < |g| && 0 <= j < Width(g) ::
      g[i][j] == g[i][j].Floor as real && 0.0 <= g[i][j] < 65536.0
  }

  /** Storing a plane of 16-bit samples into the uint16 buffer changes nothing. */
  lemma ToUint16Identity(g: Grid<real>)
    requires IsUint16Plane(g)
    ensures ToUint16(g) == g
  {
    var r := ToUint16(g);
    forall i | 0 <= i < |g|
      ensures r[i] == g[i]
    {
      assert |r[i]| == |g[i]|;
      forall j | 0 <= j < |g[i]|
        ensures r[i][j] == g[i][j]
      {
        assert U16(g[i][j]) == g[i][j].Floor;
      }
    }
  }

  /** One engine. The site table (red location and the green column of each
      row parity) is derived from the blue location once, when the engine is
      built; set() changes the blue location only. */
  datatype Engine = Engine(kind: Kind, name: Option<string>, blueLoc: Loc, redLoc: Loc, greenX: (Bit, Bit)) {

    /** The sites the engine's slicing uses: its current blue location with
        the table it was built with. */
    function Sites(): Sites {
      Cfa.Sites(blueLoc, redLoc, greenX.0, greenX.1)
    }

    /** set(name, blue_loc): a None argument leaves its field as it was. */
    function Set(name: Option<string>, blueLoc: Option<Loc>): (r: Engine)
      ensures r.name == (if name.Some? then name else this.name)
      ensures r.blueLoc == blueLoc.GetOr(this.blueLoc)
      ensures r.kind == kind && r.redLoc == redLoc && r.greenX == greenX
    {
      this.(name := if name.Some? then name else this.name, blueLoc := blueLoc.GetOr(this.blueLoc))
    }

    /** _demosaice: the raw buffer must be a single H x W mosaic (unpacking a
        three-dimensional shape into height and width is a ValueError). The
        splitter keeps each sample in its native channel of a zeroed uint16
        H x W x 3 buffer; the copy engine then fills the missing sites. */
    function Demosaice(image: Image): (r: Result<Image>)
      ensures image.raw.Color? ==> r == Err(ValueError)
      ensures kind == Linear ==> r.Err?
      ensures r.Err? ==> r.error in {ValueError, NotModelled}
      ensures r.Ok? ==> && r.value.cameraWhiteBalance == image.cameraWhiteBalance
                        && r.value.raw.Color? && r.value.raw.Height() == image.raw.Height()
      ensures r.Ok? ==> image.raw.Mono? && forall c: Channel ::
        |r.value.raw.Channel(c)| == |image.raw.plane| && Width(r.value.raw.Channel(c)) == Width(image.raw.plane)
    {
      match image.raw
      case Color(_, _, _) => Err(ValueError)
      case Mono(m) =>
        match kind
        case BayerSplitter => Ok(image.(raw := Split(ToUint16(m), Sites())))
        case CopyFill =>
          (match Copy(ToUint16(m), Sites())
           case Ok(out) => Ok(image.(raw := out))
           case Err(e) => Err(e))
        case Linear => Err(NotModelled)
    }

    /** The engine as the source runs it: the loops over the colour sites. */
    method Run(image: Image) returns (r: Result<Image>)
      ensures r == Demosaice(image)
    {
      if image.raw.Color? {
        return Err(ValueError);
      }
      var m := ToUint16(image.raw.plane);
      match kind {
        case BayerSplitter =>
          var out := RunSplit(m, Sites());
          r := Ok(image.(raw := out));
        case CopyFill =>
          var out := RunCopy(m, Sites());
          r := if out.Ok? then Ok(image.(raw := out.value)) else Err(out.error);
        case Linear =>
          r := Err(NotModelled);
      }
    }
  }

  /** A new engine: the base constructor's default blue location (1, 1) and
      its table row, red at (0, 0), green at column 1 in even rows and column
      0 in odd rows. The splitter starts without a name. */
  function NewEngine(kind: Kind): (e: Engine)
    ensures e.kind == kind && e.blueLoc == Loc(1, 1)
    ensures SitesFor((1, 1)) == Ok(e.Sites())
  {
    var name := match kind
      case BayerSplitter => None
      case CopyFill => Some("copy")
      case Linear => Some("linear");
    Engine(kind, name, Loc(1, 1), Loc(0, 0), (1, 0))
  }

  /** set(blue_loc) as evidently intended: the site table follows the new
      blue location. */
  function SetRetabled(e: Engine, blueLoc: Loc): (r: Engine)
    ensures r.blueLoc == blueLoc && r.kind == e.kind && r.name == e.name
    ensures SitesFor((blueLoc.row, blueLoc.col)) == Ok(r.Sites())
  {
    var s := SitesFor((blueLoc.row, blueLoc.col)).value;
    e.(blueLoc := s.blue, redLoc := s.red, greenX := (s.greenX0, s.greenX1))
  }

  /** set(blue_loc) as written: moving the blue site of a new engine to
      (0, 0) leaves red there too, so the tile is no longer a partition and
      the split sends the same sample to red and blue. */
  lemma StaleTableAfterSet()
    ensures var e := NewEngine(BayerSplitter).Set(None, Some(Loc(0, 0)));
      && e.Sites().red == e.Sites().blue
      && !Partition(e.Sites())
  {
    var s := NewEngine(BayerSplitter).Set(None, Some(Loc(0, 0))).Sites();
    assert !(IsNative(s, 0, 0, 0) && !IsNative(s, 1, 0, 0) && !IsNative(s, 2, 0, 0));
  }

  /** With the retabled set the tile stays a partition for every blue location. */
  lemma RetabledPartition(e: Engine, blueLoc: Loc)
    ensures Partition(SetRetabled(e, blueLoc).Sites())
  {
    var r := SetRetabled(e, blueLoc);
    assert SitesFor((blueLoc.row, blueLoc.col)) == Ok(r.Sites());
  }

  /** The front: engine None switches the stage off, an unknown engine name
      is a ValueError. */
  datatype Demosaicer = Demosaicer(name: string, engine: Option<string>, engines: map<string, Engine>) {

    function Process(image: Image): (r: Result<Image>)
      ensures engine.None? ==> r == Ok(image)
      ensures engine.Some? && engine.value !in engines ==> r == Err(ValueError)
      ensures engine.Some? && engine.value in engines ==> r == engines[engine.value].Demosaice(image)
    {
      if engine.None? then Ok(image)
      else if engine.value !in engines then Err(ValueError)
      else engines[engine.value].Demosaice(image)
    }
  }

  /** The front with its three engines registered under their names. */
  function NewDemosaicer(name: string, engine: Option<string>): (d: Demosaicer)
    ensures d.engines.Keys == {"bayer_splitter", "copy", "linear"}
    ensures d.engines["bayer_splitter"].kind == BayerSplitter
    ensures d.engines["copy"].kind == CopyFill && d.engines["linear"].kind == Linear
    ensures forall k | k in d.engines :: d.engines[k].blueLoc == Loc(1, 1)
  {
    Demosaicer(name, engine, map["bayer_splitter" := NewEngine(BayerSplitter),
                                 "copy" := NewEngine(CopyFill),
                                 "linear" := NewEngine(Linear)])
  }

  /** The splitter keeps each 16-bit sample in its native channel and zeroes
      the two others; with an engine's own table nothing is lost: the three
      channels of a cell add up to the sample. */
  lemma SplitterSamples(e: Engine, image: Image, c: Channel, i: nat, j: nat)
    requires e.kind == BayerSplitter && image.raw.Mono?
    requires i < |image.raw.plane| && j < Width(image.raw.plane)
    ensures var r := e.Demosaice(image);
      var m := image.raw.plane;
      && r.Ok?
      && r.value.raw.Channel(c)[i][j] == (if IsNative(e.Sites(), c, i % 2, j % 2) then U16(m[i][j]) as real else 0.0)
      && (Partition(e.Sites()) ==> r.value.raw.red[i][j] + r.value.raw.green[i][j] + r.value.raw.blue[i][j] == U16(m[i][j]) as real)
  {
    var u := ToUint16(image.raw.plane);
    SplitSample(u, e.Sites(), c, i, j);
    if Partition(e.Sites()) {
      SplitSum(u, e.Sites(), i, j);
    }
  }

  /** On a mosaic of even height and width the copy engine succeeds and
      every native sample keeps its 16-bit value in its native channel. */
  lemma CopyKeepsSamples(e: Engine, image: Image, c: Channel, i: nat, j: nat)
    requires e.kind == CopyFill && image.raw.Mono?
    requires var m := image.raw.plane; |m| % 2 == 0 && Width(m) % 2 == 0 && i < |m| && j < Width(m)
    requires IsNative(e.Sites(), c, i % 2, j % 2)
    ensures var r := e.Demosaice(image);
      r.Ok? && r.value.raw.Channel(c)[i][j] == U16(image.raw.plane[i][j]) as real
  {
    CopyKeepsNative(ToUint16(image.raw.plane), e.Sites(), c, i, j);
  }
}
