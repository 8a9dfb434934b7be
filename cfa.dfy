/** Bayer colour-filter-array geometry and the two index-arithmetic
    demosaicing algorithms shared by both demosaicer modules: the split into
    native channels and the nearest-neighbour copy fill. */
module Cfa {
  import opened Common
  import opened Raster

  type Bit = b: int | 0 <= b <= 1

  /** A cell of the repeating 2 x 2 tile: (row parity, column parity). */
  datatype Loc = Loc(row: Bit, col: Bit)

  /** The colour sites of the tile: blue, red, and the green column of each
      row parity (greenX0 for even rows, greenX1 for odd rows). */
  datatype Sites = Sites(blue: Loc, red: Loc, greenX0: Bit, greenX1: Bit) {
    function GreenX(y: Bit): Bit {
      if y == 0 then greenX0 else greenX1
    }
  }

  function Opposite(l: Loc): Loc {
    Loc(1 - l.row, 1 - l.col)
  }

  /** Channel c is sampled natively at tile cell (y, x). */
  predicate IsNative(s: Sites, c: Channel, y: Bit, x: Bit) {
    if c == 0 then s.red == Loc(y, x)
    else if c == 2 then s.blue == Loc(y, x)
    else s.GreenX(y) == x
  }

  /** Blue, red and the two green sites cover the four tile cells exactly once. */
  predicate Partition(s: Sites) {
    forall y: Bit, x: Bit ::
      || (IsNative(s, 0, y, x) && !IsNative(s, 1, y, x) && !IsNative(s, 2, y, x))
      || (!IsNative(s, 0, y, x) && IsNative(s, 1, y, x) && !IsNative(s, 2, y, x))
      || (!IsNative(s, 0, y, x) && !IsNative(s, 1, y, x) && IsNative(s, 2, y, x))
  }

  /** The four-entry table that derives the red and green sites from the blue
      one; any other blue location is a ValueError. */
  function SitesFor(blue: (int, int)): (r: Result<Sites>)
    ensures r.Ok? <==> 0 <= blue.0 <= 1 && 0 <= blue.1 <= 1
    ensures r.Err? ==> r.error == ValueError
    ensures r.Ok? ==> && r.value.blue == Loc(blue.0, blue.1)
                      && r.value.red == Opposite(r.value.blue)
                      && Partition(r.value)
  {
    if blue == (0, 0) then Ok(Sites(Loc(0, 0), Loc(1, 1), 1, 0))
    else if blue == (0, 1) then Ok(Sites(Loc(0, 1), Loc(1, 0), 0, 1))
    else if blue == (1, 0) then Ok(Sites(Loc(1, 0), Loc(0, 1), 0, 1))
    else if blue == (1, 1) then Ok(Sites(Loc(1, 1), Loc(0, 0), 1, 0))
    else Err(ValueError)
  }

  /** Number of indices below n with parity p: the length of the slice p::2. */
  function Count(n: nat, p: Bit): nat {
    (n + 1 - p) / 2
  }

  /** dst[r0::2, c0::2] = src[r0::2, c0::2] */
  function Scatter(dst: Grid<real>, src: Grid<real>, r0: Bit, c0: Bit): (r: Grid<real>)
    requires |dst| == |src| && Width(dst) == Width(src)
    ensures |r| == |dst| && Width(r) == Width(dst)
  {
    seq(|dst|, i requires 0 <= i < |dst| =>
      seq(Width(dst), j requires 0 <= j < Width(dst) =>
        if i % 2 == r0 && j % 2 == c0 then src[i][j] else dst[i][j]))
  }

  /** The split every demosaicer starts with: each sample goes to its native
      channel, the two other channels hold 0 there. */
  function Split(m: Grid<real>, s: Sites): (r: Raster<real>)
    ensures r.Color?
    ensures forall c: Channel :: |r.Channel(c)| == |m| && Width(r.Channel(c)) == Width(m)
  {
    var z := Const(|m|, Width(m), 0.0);
    Color(Scatter(z, m, s.red.row, s.red.col),
          Scatter(Scatter(z, m, 0, s.greenX0), m, 1, s.greenX1),
          Scatter(z, m, s.blue.row, s.blue.col))
  }

  /** Each sample of the split: the mosaic's sample where the channel is
      native, 0 elsewhere. */
  lemma SplitSample(m: Grid<real>, s: Sites, c: Channel, i: nat, j: nat)
    requires i < |m| && j < Width(m)
    ensures Split(m, s).Channel(c)[i][j] == if IsNative(s, c, i % 2, j % 2) then m[i][j] else 0.0
  {
  }

  /** With a partitioned tile the split loses nothing: the three channels
      of every cell add up to the mosaic's sample. */
  lemma SplitSum(m: Grid<real>, s: Sites, i: nat, j: nat)
    requires Partition(s) && i < |m| && j < Width(m)
    ensures var sp := Split(m, s);
      sp.red[i][j] + sp.green[i][j] + sp.blue[i][j] == m[i][j]
  {
    var sp := Split(m, s);
    assert sp.red == sp.Channel(0) && sp.green == sp.Channel(1) && sp.blue == sp.Channel(2);
    SplitSample(m, s, 0, i, j);
    SplitSample(m, s, 1, i, j);
    SplitSample(m, s, 2, i, j);
    var y: Bit, x: Bit := i % 2, j % 2;
    assert IsNative(s, 0, y, x) || IsNative(s, 1, y, x) || IsNative(s, 2, y, x);
  }

  /** The split as the source runs it: a loop over the red and blue sites,
      then a loop over the two green rows, each a strided slice assignment
      into a zero-initialised output. */
  method RunSplit(m: Grid<real>, s: Sites) returns (out: Raster<real>)
    ensures out == Split(m, s)
  {
    var z := Const(|m|, Width(m), 0.0);
    out := Color(z, z, z);
    var colorSites: seq<(Loc, Channel)> := [(s.red, 0), (s.blue, 2)];
    for t := 0 to 2
      invariant out.Color? && out.green == z
      invariant out.red == if t > 0 then Scatter(z, m, s.red.row, s.red.col) else z
      invariant out.blue == if t > 1 then Scatter(z, m, s.blue.row, s.blue.col) else z
    {
      var (loc, c) := colorSites[t];
      out := out.WithChannel(c, Scatter(out.Channel(c), m, loc.row, loc.col));
    }
    for y := 0 to 2
      invariant out.Color?
      invariant out.red == Scatter(z, m, s.red.row, s.red.col)
      invariant out.blue == Scatter(z, m, s.blue.row, s.blue.col)
      invariant out.green == if y == 0 then z
                             else if y == 1 then Scatter(z, m, 0, s.greenX0)
                             else Scatter(Scatter(z, m, 0, s.greenX0), m, 1, s.greenX1)
    {
      out := out.(green := Scatter(out.green, m, y, s.GreenX(y)));
    }
  }

  /** A slice assignment from a length-k slice to a length-k' slice is
      accepted by numpy when k == k' or when k == 1 (broadcast). */
  predicate Fits(n: nat, p: Bit) {
    Count(n, p) == Count(n, 1 - p) || Count(n, p) == 1
  }

  /** An even length splits into two slices of equal length. */
  lemma EvenFits(n: nat, p: Bit)
    requires n % 2 == 0
    ensures Count(n, p) == Count(n, 1 - p) == n / 2
    ensures Fits(n, p)
  {
  }

  /** x[r0::2, q::2] = x[r0::2, p::2] */
  function ColCopy(x: Grid<real>, r0: Bit, p: Bit, q: Bit): (r: Result<Grid<real>>)
    requires q == 1 - p
    ensures r.Ok? <==> Fits(Width(x), p)
    ensures r.Err? ==> r.error == ValueError
    ensures r.Ok? ==> |r.value| == |x| && Width(r.value) == Width(x)
  {
    var w := Width(x);
    if !Fits(w, p) then Err(ValueError)
    else
      Ok(seq(|x|, i requires 0 <= i < |x| =>
        seq(w, j requires 0 <= j < w =>
          if i % 2 == r0 && j % 2 == q then x[i][if Count(w, p) == 1 then p else j - j % 2 + p]
          else x[i][j])))
  }

  /** x[q::2, :] = x[p::2, :] */
  function RowCopy(x: Grid<real>, p: Bit, q: Bit): (r: Result<Grid<real>>)
    requires q == 1 - p
    ensures r.Ok? <==> Fits(|x|, p)
    ensures r.Err? ==> r.error == ValueError
    ensures r.Ok? ==> |r.value| == |x| && Width(r.value) == Width(x)
  {
    var h := |x|;
    if !Fits(h, p) then Err(ValueError)
    else
      var rows := seq(h, i requires 0 <= i < h =>
        if i % 2 == q then x[if Count(h, p) == 1 then p else i - i % 2 + p] else x[i]);
      assert forall i | 0 <= i < h :: |rows[i]| == Width(x);
      Ok(rows)
  }

  /** Red or blue: copy the native sample along its row, then copy that row
      into the other row of the tile. */
  function ChannelFill(x: Grid<real>, loc: Loc): (r: Result<Grid<real>>)
    ensures r.Err? ==> r.error == ValueError
    ensures r.Ok? ==> |r.value| == |x| && Width(r.value) == Width(x)
  {
    match ColCopy(x, loc.row, loc.col, 1 - loc.col)
    case Err(e) => Err(e)
    case Ok(y) => RowCopy(y, loc.row, 1 - loc.row)
  }

  /** Green: in each row parity, copy the green sample to the other column. */
  function GreenFill(x: Grid<real>, s: Sites): (r: Result<Grid<real>>)
    ensures r.Err? ==> r.error == ValueError
    ensures r.Ok? ==> |r.value| == |x| && Width(r.value) == Width(x)
  {
    match ColCopy(x, 0, s.greenX0, 1 - s.greenX0)
    case Err(e) => Err(e)
    case Ok(y) => ColCopy(y, 1, s.greenX1, 1 - s.greenX1)
  }

  /** The fill of the three split planes by copying within the tile. */
  function FillPlanes(sp: Raster<real>, s: Sites): (r: Result<Raster<real>>)
    requires sp.Color?
    ensures r.Err? ==> r.error == ValueError
    ensures r.Ok? ==> && r.value.Color?
                      && |r.value.red| == |sp.red| && Width(r.value.red) == Width(sp.red)
                      && |r.value.green| == |sp.green| && Width(r.value.green) == Width(sp.green)
                      && |r.value.blue| == |sp.blue| && Width(r.value.blue) == Width(sp.blue)
  {
    match ChannelFill(sp.red, s.red)
    case Err(e) => Err(e)
    case Ok(red) =>
      match ChannelFill(sp.blue, s.blue)
      case Err(e) => Err(e)
      case Ok(blue) =>
        match GreenFill(sp.green, s)
        case Err(e) => Err(e)
        case Ok(green) => Ok(Color(red, green, blue))
  }

  /** The nearest-neighbour demosaicer: split, then fill every missing site
      by copying within the tile. */
  function Copy(m: Grid<real>, s: Sites): (r: Result<Raster<real>>)
    ensures r.Err? ==> r.error == ValueError
    ensures r.Ok? ==> r.value.Color? && forall c: Channel :: |r.value.Channel(c)| == |m| && Width(r.value.Channel(c)) == Width(m)
  {
    FillPlanes(Split(m, s), s)
  }

  /** The copy fill as the source runs it: the split, a loop over the red and
      blue sites with two slice assignments each, then a loop over the green
      rows. */
  method RunCopy(m: Grid<real>, s: Sites) returns (r: Result<Raster<real>>)
    ensures r == Copy(m, s)
  {
    var sp := RunSplit(m, s);
    r := RunFill(sp, s);
  }

  /** The two fill loops over the split planes. */
  method RunFill(sp: Raster<real>, s: Sites) returns (r: Result<Raster<real>>)
    requires sp.Color?
    ensures r == FillPlanes(sp, s)
  {
    var filled := FillColorSites(sp, s);
    if filled.Err? {
      return Err(ValueError);
    }
    var green := FillGreenRows(sp.green, s);
    if green.Err? {
      return Err(ValueError);
    }
    r := Ok(filled.value.(green := green.value));
  }

  /** The loop over the red and blue sites. */
  method FillColorSites(sp: Raster<real>, s: Sites) returns (r: Result<Raster<real>>)
    requires sp.Color?
    ensures r.Ok? <==> ChannelFill(sp.red, s.red).Ok? && ChannelFill(sp.blue, s.blue).Ok?
    ensures r.Ok? ==> r.value == sp.(red := ChannelFill(sp.red, s.red).value, blue := ChannelFill(sp.blue, s.blue).value)
  {
    var out := sp;
    var colorSites: seq<(Loc, Channel)> := [(s.red, 0), (s.blue, 2)];
    for t := 0 to 2
      invariant out.Color? && out.green == sp.green
      invariant t > 0 ==> ChannelFill(sp.red, s.red).Ok? && out.red == ChannelFill(sp.red, s.red).value
      invariant t == 0 ==> out.red == sp.red
      invariant t > 1 ==> ChannelFill(sp.blue, s.blue).Ok? && out.blue == ChannelFill(sp.blue, s.blue).value
      invariant t <= 1 ==> out.blue == sp.blue
    {
      var (loc, c) := colorSites[t];
      var filled := ChannelFill(out.Channel(c), loc);
      if filled.Err? {
        return Err(ValueError);
      }
      out := out.WithChannel(c, filled.value);
    }
    r := Ok(out);
  }

  /** The loop over the two green rows. */
  method FillGreenRows(g: Grid<real>, s: Sites) returns (r: Result<Grid<real>>)
    ensures r == GreenFill(g, s)
  {
    var out := g;
    for y := 0 to 2
      invariant y == 0 ==> out == g
      invariant y > 0 ==> ColCopy(g, 0, s.greenX0, 1 - s.greenX0).Ok?
      invariant y == 1 ==> out == ColCopy(g, 0, s.greenX0, 1 - s.greenX0).value
      invariant y == 2 ==> GreenFill(g, s).Ok? && out == GreenFill(g, s).value
    {
      var cols := ColCopy(out, y, s.GreenX(y), 1 - s.GreenX(y));
      if cols.Err? {
        return Err(ValueError);
      }
      out := cols.value;
    }
    r := Ok(out);
  }

  /** Cell (a, b) of tile (ti, tj) lies inside the grid. */
  predicate TileInside<T>(x: Grid<T>, ti: nat, tj: nat) {
    2 * ti + 2 <= |x| && 2 * tj + 2 <= Width(x)
  }

  /** With an even width the column copy succeeds and keeps the grid's shape. */
  lemma ColCopyOk(x: Grid<real>, r0: Bit, p: Bit) returns (y: Grid<real>)
    requires Width(x) % 2 == 0
    ensures ColCopy(x, r0, p, 1 - p) == Ok(y)
    ensures |y| == |x| && Width(y) == Width(x)
  {
    EvenFits(Width(x), p);
    y := ColCopy(x, r0, p, 1 - p).value;
  }

  /** With an even width the column copy needs no broadcast: in the rows of
      parity r0 both cells of a tile row take the sample of column parity p. */
  lemma ColCopyAt(x: Grid<real>, r0: Bit, p: Bit, y: Grid<real>, ti: nat, a: Bit, tj: nat, b: Bit)
    requires Width(x) % 2 == 0 && TileInside(x, ti, tj) && ColCopy(x, r0, p, 1 - p) == Ok(y)
    ensures y[2 * ti + a][2 * tj + b] == if a == r0 then x[2 * ti + a][2 * tj + p] else x[2 * ti + a][2 * tj + b]
  {
    var i, j := 2 * ti + a, 2 * tj + b;
    EvenFits(Width(x), p);
    assert i % 2 == a && j % 2 == b && j - j % 2 + p == 2 * tj + p;
  }

  /** With an even height the row copy succeeds and keeps the grid's shape. */
  lemma RowCopyOk(x: Grid<real>, p: Bit) returns (y: Grid<real>)
    requires |x| % 2 == 0
    ensures RowCopy(x, p, 1 - p) == Ok(y)
    ensures |y| == |x| && Width(y) == Width(x)
  {
    EvenFits(|x|, p);
    y := RowCopy(x, p, 1 - p).value;
  }

  /** With an even height the row copy makes both rows of a tile the row of parity p. */
  lemma RowCopyAt(x: Grid<real>, p: Bit, y: Grid<real>, ti: nat, a: Bit)
    requires |x| % 2 == 0 && 2 * ti + 2 <= |x| && RowCopy(x, p, 1 - p) == Ok(y)
    ensures y[2 * ti + a] == x[2 * ti + p]
  {
    var i := 2 * ti + a;
    EvenFits(|x|, p);
    assert i % 2 == a && i - i % 2 + p == 2 * ti + p;
  }

  /** With even height and width the red or blue fill succeeds: a column
      copy followed by a row copy. */
  lemma ChannelFillOk(x: Grid<real>, loc: Loc) returns (y: Grid<real>, z: Grid<real>)
    requires |x| % 2 == 0 && Width(x) % 2 == 0
    ensures ColCopy(x, loc.row, loc.col, 1 - loc.col) == Ok(y)
    ensures RowCopy(y, loc.row, 1 - loc.row) == Ok(z)
    ensures ChannelFill(x, loc) == Ok(z)
  {
    y := ColCopyOk(x, loc.row, loc.col);
    z := RowCopyOk(y, loc.row);
  }

  /** Filling a red or blue plane replicates the sample at loc over its
      whole tile. */
  lemma ChannelFillAt(x: Grid<real>, loc: Loc, z: Grid<real>, ti: nat, a: Bit, tj: nat, b: Bit)
    requires |x| % 2 == 0 && Width(x) % 2 == 0 && TileInside(x, ti, tj)
    requires ChannelFill(x, loc) == Ok(z)
    ensures 2 * ti + a < |z| && 2 * tj + b < |z[2 * ti + a]|
    ensures z[2 * ti + a][2 * tj + b] == x[2 * ti + loc.row][2 * tj + loc.col]
  {
    var y, _ := ChannelFillOk(x, loc);
    RowCopyAt(y, loc.row, z, ti, a);
    ColCopyAt(x, loc.row, loc.col, y, ti, loc.row, tj, b);
  }

  /** With an even width the green fill succeeds: a column copy in the even
      rows, then one in the odd rows. */
  lemma GreenFillOk(x: Grid<real>, s: Sites) returns (y: Grid<real>, z: Grid<real>)
    requires Width(x) % 2 == 0
    ensures ColCopy(x, 0, s.greenX0, 1 - s.greenX0) == Ok(y)
    ensures ColCopy(y, 1, s.greenX1, 1 - s.greenX1) == Ok(z)
    ensures GreenFill(x, s) == Ok(z)
  {
    y := ColCopyOk(x, 0, s.greenX0);
    z := ColCopyOk(y, 1, s.greenX1);
  }

  /** Filling the green plane copies, within each row, the green sample of
      the tile into the other column. */
  lemma GreenFillAt(x: Grid<real>, s: Sites, z: Grid<real>, ti: nat, a: Bit, tj: nat, b: Bit)
    requires Width(x) % 2 == 0 && TileInside(x, ti, tj)
    requires GreenFill(x, s) == Ok(z)
    ensures 2 * ti + a < |z| && 2 * tj + b < |z[2 * ti + a]|
    ensures z[2 * ti + a][2 * tj + b] == x[2 * ti + a][2 * tj + s.GreenX(a)]
  {
    var y, _ := GreenFillOk(x, s);
    ColCopyAt(y, 1, s.greenX1, z, ti, a, tj, b);
    if a == 0 {
      ColCopyAt(x, 0, s.greenX0, y, ti, a, tj, b);
    } else {
      ColCopyAt(x, 0, s.greenX0, y, ti, a, tj, s.greenX1);
    }
  }

  /** The split keeps the mosaic's sample at every native site of a tile. */
  lemma SplitAt(m: Grid<real>, s: Sites, c: Channel, ti: nat, y: Bit, tj: nat, z: Bit)
    requires IsNative(s, c, y, z) && TileInside(m, ti, tj)
    ensures Split(m, s).Channel(c)[2 * ti + y][2 * tj + z] == m[2 * ti + y][2 * tj + z]
  {
    var i, j := 2 * ti + y, 2 * tj + z;
    assert i % 2 == y && j % 2 == z;
    SplitSample(m, s, c, i, j);
  }

  /** With even height and width the copy demosaicer succeeds, and its
      planes are the fills of the split planes. */
  lemma CopyOk(m: Grid<real>, s: Sites) returns (r: Raster<real>)
    requires |m| % 2 == 0 && Width(m) % 2 == 0
    ensures Copy(m, s) == Ok(r) && r.Color?
    ensures ChannelFill(Split(m, s).red, s.red) == Ok(r.red)
    ensures ChannelFill(Split(m, s).blue, s.blue) == Ok(r.blue)
    ensures GreenFill(Split(m, s).green, s) == Ok(r.green)
  {
    var sp := Split(m, s);
    var _, red := ChannelFillOk(sp.red, s.red);
    var _, blue := ChannelFillOk(sp.blue, s.blue);
    var _, green := GreenFillOk(sp.green, s);
    r := Color(red, green, blue);
  }

  /** The red plane of the copy fill holds, everywhere in a tile, the
      tile's native red sample. */
  lemma RedFillAt(m: Grid<real>, s: Sites, red: Grid<real>, ti: nat, a: Bit, tj: nat, b: Bit)
    requires |m| % 2 == 0 && Width(m) % 2 == 0 && TileInside(m, ti, tj)
    requires ChannelFill(Split(m, s).red, s.red) == Ok(red)
    ensures 2 * ti + a < |red| && 2 * tj + b < |red[2 * ti + a]|
    ensures red[2 * ti + a][2 * tj + b] == m[2 * ti + s.red.row][2 * tj + s.red.col]
  {
    var sp := Split(m, s);
    assert sp.red == sp.Channel(0);
    SplitAt(m, s, 0, ti, s.red.row, tj, s.red.col);
    ChannelFillAt(sp.red, s.red, red, ti, a, tj, b);
  }

  /** The blue plane of the copy fill holds, everywhere in a tile, the
      tile's native blue sample. */
  lemma BlueFillAt(m: Grid<real>, s: Sites, blue: Grid<real>, ti: nat, a: Bit, tj: nat, b: Bit)
    requires |m| % 2 == 0 && Width(m) % 2 == 0 && TileInside(m, ti, tj)
    requires ChannelFill(Split(m, s).blue, s.blue) == Ok(blue)
    ensures 2 * ti + a < |blue| && 2 * tj + b < |blue[2 * ti + a]|
    ensures blue[2 * ti + a][2 * tj + b] == m[2 * ti + s.blue.row][2 * tj + s.blue.col]
  {
    var sp := Split(m, s);
    assert sp.blue == sp.Channel(2);
    SplitAt(m, s, 2, ti, s.blue.row, tj, s.blue.col);
    ChannelFillAt(sp.blue, s.blue, blue, ti, a, tj, b);
  }

  /** The green plane of the copy fill holds the green sample of the same
      tile row. */
  lemma GreenSplitFillAt(m: Grid<real>, s: Sites, green: Grid<real>, ti: nat, a: Bit, tj: nat, b: Bit)
    requires Width(m) % 2 == 0 && TileInside(m, ti, tj)
    requires GreenFill(Split(m, s).green, s) == Ok(green)
    ensures 2 * ti + a < |green| && 2 * tj + b < |green[2 * ti + a]|
    ensures green[2 * ti + a][2 * tj + b] == m[2 * ti + a][2 * tj + s.GreenX(a)]
  {
    var sp := Split(m, s);
    assert sp.green == sp.Channel(1);
    SplitAt(m, s, 1, ti, a, tj, s.GreenX(a));
    GreenFillAt(sp.green, s, green, ti, a, tj, b);
  }

  /** With even height and width the copy demosaicer succeeds; in every
      2 x 2 tile the red and blue planes hold the tile's native red and blue
      sample, and each row of the green plane the green sample of that row. */
  lemma CopyFill(m: Grid<real>, s: Sites, r: Raster<real>, ti: nat, a: Bit, tj: nat, b: Bit)
    requires |m| % 2 == 0 && Width(m) % 2 == 0 && TileInside(m, ti, tj)
    requires Copy(m, s) == Ok(r)
    ensures r.Color?
    ensures 2 * ti + a < |r.red| && 2 * tj + b < |r.red[2 * ti + a]|
    ensures 2 * ti + a < |r.green| && 2 * tj + b < |r.green[2 * ti + a]|
    ensures 2 * ti + a < |r.blue| && 2 * tj + b < |r.blue[2 * ti + a]|
    ensures r.red[2 * ti + a][2 * tj + b] == m[2 * ti + s.red.row][2 * tj + s.red.col]
    ensures r.blue[2 * ti + a][2 * tj + b] == m[2 * ti + s.blue.row][2 * tj + s.blue.col]
    ensures r.green[2 * ti + a][2 * tj + b] == m[2 * ti + a][2 * tj + s.GreenX(a)]
  {
    var q := CopyOk(m, s);
    RedFillAt(m, s, r.red, ti, a, tj, b);
    BlueFillAt(m, s, r.blue, ti, a, tj, b);
    GreenSplitFillAt(m, s, r.green, ti, a, tj, b);
  }

  /** Every index is a cell of the tile that holds it. */
  lemma TileOf(i: nat, n: nat) returns (t: nat, p: Bit)
    requires n % 2 == 0 && i < n
    ensures i == 2 * t + p && 2 * t + 2 <= n
  {
    t, p := i / 2, i % 2;
  }

  /** The fill writes only the missing sites: every native sample keeps its
      value in its native channel. */
  lemma CopyKeepsNative(m: Grid<real>, s: Sites, c: Channel, i: nat, j: nat)
    requires |m| % 2 == 0 && Width(m) % 2 == 0
    requires i < |m| && j < Width(m) && IsNative(s, c, i % 2, j % 2)
    ensures Copy(m, s).Ok? && Copy(m, s).value.Channel(c)[i][j] == m[i][j]
  {
    var ti, a := TileOf(i, |m|);
    var tj, b := TileOf(j, Width(m));
    var r := CopyOk(m, s);
    CopyFill(m, s, r, ti, a, tj, b);
    TileNative(r, m, s, c, i, j, ti, a, tj, b);
  }

  /** A raster filled tile by tile as the copy fill does holds each native
      sample in its native channel. */
  lemma TileNative(r: Raster<real>, m: Grid<real>, s: Sites, c: Channel, i: nat, j: nat, ti: nat, a: Bit, tj: nat, b: Bit)
    requires r.Color? && i == 2 * ti + a && j == 2 * tj + b && IsNative(s, c, i % 2, j % 2)
    requires TileInside(m, ti, tj)
    requires i < |r.red| && j < |r.red[i]| && i < |r.green| && j < |r.green[i]| && i < |r.blue| && j < |r.blue[i]|
    requires r.red[i][j] == m[2 * ti + s.red.row][2 * tj + s.red.col]
    requires r.blue[i][j] == m[2 * ti + s.blue.row][2 * tj + s.blue.col]
    requires r.green[i][j] == m[i][2 * tj + s.GreenX(a)]
    ensures r.Channel(c)[i][j] == m[i][j]
  {
    assert i % 2 == a && j % 2 == b;
  }

  /** A flat mosaic demosaics to the same flat value in all three channels. */
  lemma CopyOfConstant(m: Grid<real>, s: Sites, v: real)
    requires |m| % 2 == 0 && Width(m) % 2 == 0 && IsConst(m, v)
    ensures Copy(m, s).Ok?
    ensures forall c: Channel :: IsConst(Copy(m, s).value.Channel(c), v)
  {
    var r := CopyOk(m, s);
    forall c: Channel, i, j | 0 <= i < |m| && 0 <= j < Width(m)
      ensures r.Channel(c)[i][j] == v
    {
      CopyOfConstantAt(m, s, v, r, c, i, j);
    }
  }

  /** One sample of the demosaiced flat mosaic. */
  lemma CopyOfConstantAt(m: Grid<real>, s: Sites, v: real, r: Raster<real>, c: Channel, i: nat, j: nat)
    requires |m| % 2 == 0 && Width(m) % 2 == 0 && IsConst(m, v)
    requires i < |m| && j < Width(m) && Copy(m, s) == Ok(r)
    ensures r.Color? && i < |r.Channel(c)| && j < |r.Channel(c)[i]|
    ensures r.Channel(c)[i][j] == v
  {
    var ti, a := TileOf(i, |m|);
    var tj, b := TileOf(j, Width(m));
    CopyFill(m, s, r, ti, a, tj, b);
  }
}
