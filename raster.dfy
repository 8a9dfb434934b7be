/** Sample buffers and the Image record that flows through the pipeline. */
module Raster {
  import opened Common

  predicate IsRect<T>(g: seq<seq<T>>) {
    forall i | 0 <= i < |g| :: |g[i]| == Width(g)
  }

  /** A rectangular two-dimensional array of samples, row-major (g[row][col]). */
  type Grid<T> = g: seq<seq<T>> | IsRect(g) witness []

  function Width<T>(g: seq<seq<T>>): nat {
    if |g| == 0 then 0 else |g[0]|
  }

  /** Every sample of a plane equal to v. */
  predicate IsConst(g: Grid<real>, v: real) {
    forall i, j | 0 <= i < |g| && 0 <= j < Width(g) :: g[i][j] == v
  }

  function Const(h: nat, w: nat, v: real): (g: Grid<real>)
    ensures |g| == h && Width(g) == (if h == 0 then 0 else w) && IsConst(g, v)
  {
    seq(h, _ => seq(w, _ => v))
  }

  /** An element-wise numpy expression applied to one plane. */
  function MapGrid<T, U>(g: Grid<T>, f: T -> U): (r: Grid<U>)
    ensures |r| == |g| && Width(r) == Width(g)
    ensures forall i, j | 0 <= i < |g| && 0 <= j < Width(g) :: r[i][j] == f(g[i][j])
  {
    seq(|g|, i requires 0 <= i < |g| => seq(Width(g), j requires 0 <= j < Width(g) => f(g[i][j])))
  }

  /** Channel indices: red = 0, green = 1, blue = 2. */
  type Channel = c: int | 0 <= c <= 2

  /** numpy's raw_image: a single-channel H x W mosaic, or an H x W x 3 array
      kept here as one plane per channel. */
  datatype Raster<T> =
    | Mono(plane: Grid<T>)
    | Color(red: Grid<T>, green: Grid<T>, blue: Grid<T>)
  {
    function Channel(c: Channel): Grid<T>
      requires Color?
    {
      if c == 0 then red else if c == 1 then green else blue
    }

    function WithChannel(c: Channel, p: Grid<T>): (r: Raster<T>)
      requires Color?
      ensures r.Color? && r.Channel(c) == p
      ensures forall d: Channel | d != c :: r.Channel(d) == Channel(d)
    {
      if c == 0 then this.(red := p) else if c == 1 then this.(green := p) else this.(blue := p)
    }

    /** The first dimension of the array. */
    function Height(): nat {
      if Mono? then |plane| else |red|
    }
  }

  function MapRaster<T, U>(r: Raster<T>, f: T -> U): (m: Raster<U>)
    ensures m.Mono? == r.Mono?
    ensures m.Mono? ==> m.plane == MapGrid(r.plane, f)
    ensures m.Color? ==> forall c: Channel :: m.Channel(c) == MapGrid(r.Channel(c), f)
    ensures SameShape(m, r)
  {
    match r
    case Mono(p) => Mono(MapGrid(p, f))
    case Color(rd, gr, bl) => Color(MapGrid(rd, f), MapGrid(gr, f), MapGrid(bl, f))
  }

  /** (i, j) indexes a sample of g. */
  predicate InPlane<T>(g: Grid<T>, i: int, j: int) {
    0 <= i < |g| && 0 <= j < Width(g)
  }

  /** The same array shape: both mono or both colour, plane by plane the
      same height and width. */
  predicate SameShape<T, U>(a: Raster<T>, b: Raster<U>) {
    match a
    case Mono(p) => b.Mono? && |p| == |b.plane| && Width(p) == Width(b.plane)
    case Color(_, _, _) => b.Color? && forall c: Channel :: |a.Channel(c)| == |b.Channel(c)| && Width(a.Channel(c)) == Width(b.Channel(c))
  }

  lemma GridExt<T>(a: Grid<T>, b: Grid<T>)
    requires |a| == |b| && Width(a) == Width(b)
    requires forall i, j | InPlane(a, i, j) :: a[i][j] == b[i][j]
    ensures a == b
  {
    forall i | 0 <= i < |a| ensures a[i] == b[i] {
      assert |a[i]| == Width(a) && |b[i]| == Width(b);
    }
  }

  /** Two buffers of the same shape with the same samples are equal. */
  lemma RasterExt<T>(a: Raster<T>, b: Raster<T>)
    requires SameShape(a, b)
    requires a.Mono? ==> forall i, j | InPlane(a.plane, i, j) :: a.plane[i][j] == b.plane[i][j]
    requires a.Color? ==> forall c: Channel, i, j | InPlane(a.Channel(c), i, j) :: a.Channel(c)[i][j] == b.Channel(c)[i][j]
    ensures a == b
  {
    if a.Mono? {
      GridExt(a.plane, b.plane);
    } else {
      assert a.red == a.Channel(0) && a.green == a.Channel(1) && a.blue == a.Channel(2);
      assert b.red == b.Channel(0) && b.green == b.Channel(1) && b.blue == b.Channel(2);
      GridExt(a.red, b.red);
      GridExt(a.green, b.green);
      GridExt(a.blue, b.blue);
    }
  }

  /** Every sample of the buffer lies in [lo, hi]. */
  predicate RasterWithin(r: Raster<real>, lo: real, hi: real) {
    match r
    case Mono(p) => GridWithin(p, lo, hi)
    case Color(rd, gr, bl) => GridWithin(rd, lo, hi) && GridWithin(gr, lo, hi) && GridWithin(bl, lo, hi)
  }

  predicate GridWithin(g: Grid<real>, lo: real, hi: real) {
    forall i, j | 0 <= i < |g| && 0 <= j < Width(g) :: lo <= g[i][j] <= hi
  }

  /** The image record: its raw buffer and the camera-reported white-balance
      multipliers, absent when the loader found none. */
  datatype Image = Image(raw: Raster<real>, cameraWhiteBalance: Option<seq<real>>)
}
