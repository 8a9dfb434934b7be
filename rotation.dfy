/** numpy.rot90 in the plane of the first two axes, as an index permutation. */
module Rotation {
  import opened Raster

  /** A grid whose shape a nested sequence records fully: an H x 0 array
      (H > 0) is indistinguishable from a 0 x 0 one once stored as rows. */
  predicate Shaped<T>(g: Grid<T>) {
    |g| > 0 ==> Width(g) > 0
  }

  /** One counter-clockwise quarter turn, numpy.rot90(g, 1). */
  function Rot90<T>(g: Grid<T>): Grid<T> {
    var h, w := |g|, Width(g);
    seq(w, i requires 0 <= i < w => seq(h, j requires 0 <= j < h => g[j][w - 1 - i]))
  }

  /** n quarter turns. */
  function RotN<T>(g: Grid<T>, n: nat): Grid<T> {
    if n == 0 then g else Rot90(RotN(g, n - 1))
  }

  /** numpy.rot90(g, k): numpy first reduces k modulo 4 (Python's modulo,
      never negative, as Dafny's). */
  function RotK<T>(g: Grid<T>, k: int): Grid<T> {
    RotN(g, k % 4)
  }

  /** A quarter turn makes an H x W grid W x H with out[i][j] = in[j][W-1-i]. */
  lemma Rot90At<T>(g: Grid<T>)
    requires Shaped(g)
    ensures var r := Rot90(g);
      && |r| == Width(g) && Width(r) == |g| && Shaped(r)
      && forall i, j | 0 <= i < Width(g) && 0 <= j < |g| :: r[i][j] == g[j][Width(g) - 1 - i]
  {
  }

  /** Two quarter turns: out[i][j] = in[H-1-i][W-1-j]. */
  lemma {:induction false} Rot180At<T>(g: Grid<T>)
    requires Shaped(g)
    ensures var r := RotN(g, 2);
      && |r| == |g| && Width(r) == Width(g) && Shaped(r)
      && forall i, j | 0 <= i < |g| && 0 <= j < Width(g) :: r[i][j] == g[|g| - 1 - i][Width(g) - 1 - j]
  {
    Rot90At(g);
    Rot90At(Rot90(g));
    assert RotN(g, 1) == Rot90(g);
  }

  /** Three quarter turns: out[i][j] = in[H-1-j][i]. */
  lemma {:induction false} Rot270At<T>(g: Grid<T>)
    requires Shaped(g)
    ensures var r := RotN(g, 3);
      && |r| == Width(g) && Width(r) == |g| && Shaped(r)
      && forall i, j | 0 <= i < Width(g) && 0 <= j < |g| :: r[i][j] == g[|g| - 1 - j][i]
  {
    Rot180At(g);
    Rot90At(RotN(g, 2));
  }

  /** Four quarter turns are the identity. */
  lemma {:induction false} Rot360<T>(g: Grid<T>)
    requires Shaped(g)
    ensures RotN(g, 4) == g
  {
    Rot270At(g);
    var r3 := RotN(g, 3);
    Rot90At(r3);
    GridExt(RotN(g, 4), g);
  }

  /** Turning by a, then by b, is turning by a + b. */
  lemma {:induction false} RotNCompose<T>(g: Grid<T>, a: nat, b: nat)
    ensures RotN(RotN(g, a), b) == RotN(g, a + b)
    decreases b
  {
    if b > 0 {
      RotNCompose(g, a, b - 1);
    }
  }

  lemma {:induction false} RotNShaped<T>(g: Grid<T>, n: nat)
    requires Shaped(g)
    ensures Shaped(RotN(g, n))
  {
    if n > 0 {
      RotNShaped(g, n - 1);
      Rot90At(RotN(g, n - 1));
    }
  }

  /** k = 0 is the identity and k, k + 4 (indeed any k mod 4) agree. */
  lemma RotKModulo<T>(g: Grid<T>, k: int)
    ensures RotK(g, 0) == g
    ensures RotK(g, k + 4) == RotK(g, k)
    ensures RotK(g, k) == RotK(g, k % 4)
  {
  }

  /** Rotating by k and then by 4 - k restores the grid. */
  lemma RotKInverse<T>(g: Grid<T>, k: int)
    requires Shaped(g)
    ensures RotK(RotK(g, k), 4 - k) == g
  {
    var a, b := k % 4, (4 - k) % 4;
    RotNCompose(g, a, b);
    assert a + b == 0 || a + b == 4;
    if a + b == 4 {
      Rot360(g);
    }
  }

  /** An odd k swaps height and width, an even k keeps them. */
  lemma RotKShape<T>(g: Grid<T>, k: int)
    requires Shaped(g)
    ensures var r := RotK(g, k);
      && (k % 2 == 1 ==> |r| == Width(g) && Width(r) == |g|)
      && (k % 2 == 0 ==> |r| == |g| && Width(r) == Width(g))
  {
    var n := k % 4;
    if n == 0 {
    } else if n == 1 {
      Rot90At(g);
      assert RotN(g, 1) == Rot90(g);
    } else if n == 2 {
      Rot180At(g);
    } else {
      Rot270At(g);
    }
  }

  /** The same rotation applied to every channel: the channel axis of an
      H x W x 3 array is carried along unchanged. */
  function RotateRaster<T>(r: Raster<T>, k: int): (o: Raster<T>)
    ensures o.Mono? == r.Mono?
    ensures o.Mono? ==> o.plane == RotK(r.plane, k)
    ensures o.Color? ==> forall c: Channel :: o.Channel(c) == RotK(r.Channel(c), k)
  {
    match r
    case Mono(p) => Mono(RotK(p, k))
    case Color(rd, gr, bl) => Color(RotK(rd, k), RotK(gr, k), RotK(bl, k))
  }

  predicate RasterShaped<T>(r: Raster<T>) {
    match r
    case Mono(p) => Shaped(p)
    case Color(rd, gr, bl) => Shaped(rd) && Shaped(gr) && Shaped(bl)
  }

  lemma RotateRasterInverse<T>(r: Raster<T>, k: int)
    requires RasterShaped(r)
    ensures RotateRaster(RotateRaster(r, k), 4 - k) == r
  {
    match r
    case Mono(p) => RotKInverse(p, k);
    case Color(rd, gr, bl) => RotKInverse(rd, k); RotKInverse(gr, k); RotKInverse(bl, k);
  }
}
