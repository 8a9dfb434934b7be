/** The exporter used by the console pipeline: a precomputed 8-bit lookup
    table indexed by raw sample value, and the OpenCV engine that reverses
    the channel order before writing. */
module CoreExporter {
  import opened Common
  import opened Raster
  import opened ToneCurve

  /** The base constructor's levels: input [0, 2^12 - 1], output [0, 2^8 - 1]. */
  const DefaultLevels := Levels(0.0, 4095.0, 0.0, 255.0)

  /** The base constructor's input magnitude, 2^14. */
  const DefaultMagnitude := 16384

  /** Entry i of the export table: the index clipped to the input range,
      rescaled affinely, clipped to [0, 255] and cast to uint8. */
  function TableEntry(lv: Levels, i: int): (r: int)
    requires lv.inWhite != lv.inBlack
    ensures 0 <= r <= 255
    ensures r == Clip(lv.Affine(Clip(i as real, lv.inBlack, lv.inWhite)), 0.0, 255.0).Floor
  {
    U8(Clip(lv.Affine(Clip(i as real, lv.inBlack, lv.inWhite)), 0.0, 255.0))
  }

  /** _get_export_mapping_table: one entry per value in range(0, magnitude);
      the scale divides Python integers, so an empty input range is a
      ZeroDivisionError. */
  function MappingTable(magnitude: int, lv: Levels): (r: Result<seq<int>>)
    ensures r.Ok? <==> lv.inWhite != lv.inBlack
    ensures r.Err? ==> r.error == ZeroDivisionError
    ensures r.Ok? ==> |r.value| == (if magnitude < 0 then 0 else magnitude)
    ensures r.Ok? ==> forall i | 0 <= i < |r.value| :: 0 <= r.value[i] <= 255 && r.value[i] == TableEntry(lv, i)
  {
    if lv.inWhite == lv.inBlack then Err(ZeroDivisionError)
    else Ok(seq(if magnitude < 0 then 0 else magnitude, i => TableEntry(lv, i)))
  }

  /** Whether a sample can index a table of n entries: numpy accepts an
      integer in [-n, n). */
  predicate IsIndex(v: real, n: int) {
    v == v.Floor as real && -n <= v.Floor < n
  }

  /** The entry an index selects: negative indices count from the end. */
  function Index(v: real, n: int): (r: int)
    requires IsIndex(v, n)
    ensures 0 <= r < n
    ensures 0.0 <= v ==> r == v.Floor
    ensures v < 0.0 ==> r == v.Floor + n
  {
    v.Floor % n
  }

  /** table[plane]: every sample replaced by the entry it indexes; one
      sample out of range is an IndexError. */
  function LookupGrid(table: seq<int>, g: Grid<real>): (r: Result<Grid<int>>)
    ensures r.Ok? <==> forall i, j | InPlane(g, i, j) :: IsIndex(g[i][j], |table|)
    ensures r.Err? ==> r.error == IndexError
    ensures r.Ok? ==> |r.value| == |g| && Width(r.value) == Width(g)
    ensures r.Ok? ==> forall i, j | InPlane(g, i, j) :: r.value[i][j] == table[Index(g[i][j], |table|)]
  {
    if forall i, j | 0 <= i < |g| && 0 <= j < Width(g) :: IsIndex(g[i][j], |table|) then
      Ok(MapGrid(g, v => if IsIndex(v, |table|) then table[Index(v, |table|)] else 0))
    else Err(IndexError)
  }

  /** table[raw_image] over every plane of the buffer. */
  function Lookup(table: seq<int>, raw: Raster<real>): (r: Result<Raster<int>>)
    ensures r.Ok? <==> ((raw.Mono? ==> LookupGrid(table, raw.plane).Ok?)
                        && (raw.Color? ==> forall c: Channel :: LookupGrid(table, raw.Channel(c)).Ok?))
    ensures r.Err? ==> r.error == IndexError
    ensures r.Ok? ==> SameShape(r.value, raw)
    ensures r.Ok? && raw.Mono? ==> r.value.plane == LookupGrid(table, raw.plane).value
    ensures r.Ok? && raw.Color? ==> forall c: Channel :: r.value.Channel(c) == LookupGrid(table, raw.Channel(c)).value
  {
    match raw
    case Mono(p) =>
      (match LookupGrid(table, p)
       case Ok(q) => Ok(Mono(q))
       case Err(e) => Err(e))
    case Color(red, green, blue) =>
      var r, g, b := LookupGrid(table, red), LookupGrid(table, green), LookupGrid(table, blue);
      assert raw.Channel(0) == red && raw.Channel(1) == green && raw.Channel(2) == blue;
      if r.Err? || g.Err? || b.Err? then Err(IndexError)
      else
        var out := Color(r.value, g.value, b.value);
        assert forall c: Channel :: out.Channel(c) == LookupGrid(table, raw.Channel(c)).value;
        Ok(out)
  }

  /** image[:, :, ::-1] on a three-dimensional buffer; a two-dimensional
      one is written as it is. */
  function ReverseChannels<T>(raw: Raster<T>): (r: Raster<T>)
    ensures raw.Mono? ==> r == raw
    ensures raw.Color? ==> r.Color? && forall c: Channel :: r.Channel(c) == raw.Channel(2 - c)
  {
    match raw
    case Mono(_) => raw
    case Color(red, green, blue) => Color(blue, green, red)
  }

  /** Reversing the channel order twice gives the buffer back. */
  lemma ReverseTwice<T>(raw: Raster<T>)
    ensures ReverseChannels(ReverseChannels(raw)) == raw
  {
  }

  /** ExporterOpenCV with the fields of ExporterBase; the table is cached in
      a field when the object is built. */
  class ExporterOpenCV {
    var name: string
    var inputMagnitude: int
    var levels: Levels
    var table: seq<int>

    /** Whether the cached table is the one the current fields describe. */
    predicate Current()
      reads this
    {
      MappingTable(inputMagnitude, levels) == Ok(table)
    }

    /** The constructor: the base defaults and the table built from them. */
    constructor ()
      ensures name == "open_cv" && inputMagnitude == DefaultMagnitude && levels == DefaultLevels
      ensures table == MappingTable(DefaultMagnitude, DefaultLevels).value
      ensures Current()
    {
      name := "open_cv";
      inputMagnitude := DefaultMagnitude;
      levels := DefaultLevels;
      table := MappingTable(DefaultMagnitude, DefaultLevels).value;
    }

    /** A direct assignment of the magnitude and level fields: the cached
        table is not rebuilt. */
    method SetLevels(magnitude: int, lv: Levels)
      modifies this
      ensures inputMagnitude == magnitude && levels == lv
      ensures table == old(table) && name == old(name)
    {
      inputMagnitude := magnitude;
      levels := lv;
    }

    /** update_export_mapping_table: the table rebuilt from the current
        fields; a ZeroDivisionError leaves the old table in place. */
    method UpdateExportMappingTable() returns (err: Option<Error>)
      modifies this
      ensures inputMagnitude == old(inputMagnitude) && levels == old(levels) && name == old(name)
      ensures err.None? <==> levels.inWhite != levels.inBlack
      ensures err.None? ==> Current() && table == MappingTable(inputMagnitude, levels).value
      ensures err.Some? ==> err.value == ZeroDivisionError && table == old(table)
    {
      var t := MappingTable(inputMagnitude, levels);
      if t.Err? {
        return Some(t.error);
      }
      table := t.value;
      err := None;
    }

    /** The array _export hands to cv2.imwrite: the lookup of
        _export_wrapper, then the channel reversal of ExporterOpenCV. */
    function Export(image: Image): (r: Result<Raster<int>>)
      reads this
      ensures r.Ok? <==> Lookup(table, image.raw).Ok?
      ensures r.Err? ==> r.error == IndexError
      ensures r.Ok? && image.raw.Mono? ==>
        && r.value.Mono? && |r.value.plane| == |image.raw.plane| && Width(r.value.plane) == Width(image.raw.plane)
        && forall i, j | InPlane(image.raw.plane, i, j) ::
             r.value.plane[i][j] == table[Index(image.raw.plane[i][j], |table|)]
      ensures r.Ok? && image.raw.Color? ==>
        && r.value.Color?
        && (forall c: Channel :: |r.value.Channel(c)| == |image.raw.Channel(2 - c)| && Width(r.value.Channel(c)) == Width(image.raw.Channel(2 - c)))
        && forall c: Channel, i, j | InPlane(image.raw.Channel(2 - c), i, j) ::
             r.value.Channel(c)[i][j] == table[Index(image.raw.Channel(2 - c)[i][j], |table|)]
    {
      match Lookup(table, image.raw)
      case Ok(out) => Ok(ReverseChannels(out))
      case Err(e) => Err(e)
    }
  }

  /** The front: 'open_cv' is the only engine, any other name is a ValueError. */
  class Exporter {
    var name: string
    var engine: string
    var openCv: ExporterOpenCV

    constructor (name: string, engine: string)
      ensures this.name == name && this.engine == engine && fresh(openCv)
      ensures openCv.Current() && openCv.levels == DefaultLevels && openCv.inputMagnitude == DefaultMagnitude
    {
      this.name := name;
      this.engine := engine;
      openCv := new ExporterOpenCV();
    }

    function Process(image: Image): (r: Result<Raster<int>>)
      reads this, openCv
      ensures engine != "open_cv" ==> r == Err(ValueError)
      ensures engine == "open_cv" ==> r == openCv.Export(image)
    {
      if engine != "open_cv" then Err(ValueError) else openCv.Export(image)
    }
  }

  /** With ordered levels the table is non-decreasing in the index. */
  lemma TableMonotone(lv: Levels, i: int, j: int)
    requires lv.Ordered() && i <= j
    ensures TableEntry(lv, i) <= TableEntry(lv, j)
  {
    var a, b := Clip(i as real, lv.inBlack, lv.inWhite), Clip(j as real, lv.inBlack, lv.inWhite);
    ClipMonotone(i as real, j as real, lv.inBlack, lv.inWhite);
    AffineMonotone(lv, a, b);
    ClipMonotone(lv.Affine(a), lv.Affine(b), 0.0, 255.0);
  }

  /** The table is flat below the input black level and above the input
      white level: there it holds the output black and white levels, cut to
      [0, 255]. */
  lemma TableEnds(lv: Levels, i: int)
    requires lv.inBlack < lv.inWhite
    ensures i as real <= lv.inBlack ==> TableEntry(lv, i) == Clip(lv.outBlack, 0.0, 255.0).Floor
    ensures lv.inWhite <= i as real ==> TableEntry(lv, i) == Clip(lv.outWhite, 0.0, 255.0).Floor
  {
  }

  /** Inside both ranges an entry is the affine image of its index, rounded down. */
  lemma TableEntryAffine(lv: Levels, i: int)
    requires lv.Ordered() && 0.0 <= lv.outBlack && lv.outWhite <= 255.0
    requires lv.inBlack <= i as real <= lv.inWhite
    ensures TableEntry(lv, i) == lv.Affine(i as real).Floor
    ensures lv.outBlack <= lv.Affine(i as real) <= lv.outWhite
  {
    AffineRange(lv, i as real);
  }

  /** The table a new exporter holds has 2^14 entries and starts at 0. */
  lemma DefaultTableStart(x: ExporterOpenCV)
    requires x.Current() && x.inputMagnitude == DefaultMagnitude && x.levels == DefaultLevels
    ensures |x.table| == 16384 && x.table[0] == 0
  {
    DefaultEntry(x, 0);
  }

  /** The table a new exporter holds is 255 from index 4095 on. */
  lemma DefaultTableTail(x: ExporterOpenCV)
    requires x.Current() && x.inputMagnitude == DefaultMagnitude && x.levels == DefaultLevels
    ensures |x.table| == 16384 && forall i | 4095 <= i < 16384 :: x.table[i] == 255
  {
    forall i | 4095 <= i < 16384 ensures x.table[i] == 255 {
      DefaultEntry(x, i);
    }
  }

  lemma DefaultEntry(x: ExporterOpenCV, i: int)
    requires x.Current() && x.inputMagnitude == DefaultMagnitude && x.levels == DefaultLevels && 0 <= i < 16384
    ensures |x.table| == 16384
    ensures i == 0 ==> x.table[i] == 0
    ensures 4095 <= i ==> x.table[i] == 255
  {
    assert x.table[i] == TableEntry(x.levels, i);
    TableEnds(x.levels, i);
  }

  /** A whole sample inside the table indexes its own entry, so with a
      current table the exported value is the table entry of the sample. */
  lemma ExportCurrent(x: ExporterOpenCV, image: Image, i: int, j: int)
    requires x.Current() && image.raw.Mono? && InPlane(image.raw.plane, i, j)
    requires x.Export(image).Ok?
    requires 0.0 <= image.raw.plane[i][j]
    ensures x.Export(image).value.plane[i][j] == TableEntry(x.levels, image.raw.plane[i][j].Floor)
  {
  }
}
