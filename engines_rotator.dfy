/** The stand-alone rotation engine: rotate_k, rotate_left, rotate_right. */
module EnginesRotator {
  import opened Raster
  import opened Rotation

  datatype Rotator = Rotator(name: string) {

    /** rotate_k replaces the image's raw buffer by its k-quarter-turn
        counter-clockwise rotation and leaves the rest of the image alone. */
    function RotateK(image: Image, k: int): (r: Image)
      ensures r.cameraWhiteBalance == image.cameraWhiteBalance
      ensures r.raw == RotateRaster(image.raw, k)
      ensures r.raw.Mono? == image.raw.Mono?
      ensures RasterShaped(image.raw) ==> RasterShaped(r.raw)
    {
      RotNShapedRaster(image.raw, k % 4);
      image.(raw := RotateRaster(image.raw, k))
    }

    /** rotate_left: rotate_k with k = 1. */
    function RotateLeft(image: Image): (r: Image)
      ensures r.cameraWhiteBalance == image.cameraWhiteBalance
      ensures r.raw == RotateRaster(image.raw, 1)
    {
      RotateK(image, 1)
    }

    /** rotate_right: rotate_k with k = 3, three quarter turns
        counter-clockwise, which is one clockwise. */
    function RotateRight(image: Image): (r: Image)
      ensures r.cameraWhiteBalance == image.cameraWhiteBalance
      ensures r.raw == RotateRaster(image.raw, 3)
    {
      RotateK(image, 3)
    }

    /** rotate_left moves sample in[j][W-1-i] to out[i][j]. */
    lemma RotateLeftAt(image: Image)
      requires image.raw.Mono? && Shaped(image.raw.plane)
      ensures var g, r := image.raw.plane, RotateLeft(image).raw.plane;
        && |r| == Width(g) && Width(r) == |g|
        && forall i, j | 0 <= i < Width(g) && 0 <= j < |g| :: r[i][j] == g[j][Width(g) - 1 - i]
    {
      Rot90At(image.raw.plane);
      assert RotN(image.raw.plane, 1) == Rot90(image.raw.plane);
    }

    /** rotate_k on a mosaic, by the residue of k: 0 keeps the samples,
        1 is out[i][j] = in[j][W-1-i], 2 is out[i][j] = in[H-1-i][W-1-j],
        3 is out[i][j] = in[H-1-j][i]. */
    lemma RotateKAt(image: Image, k: int)
      requires image.raw.Mono? && Shaped(image.raw.plane)
      ensures var g, r := image.raw.plane, RotateK(image, k).raw.plane;
        && Shaped(r)
        && (k % 2 == 1 ==> |r| == Width(g) && Width(r) == |g|)
        && (k % 2 == 0 ==> |r| == |g| && Width(r) == Width(g))
        && (k % 4 == 0 ==> r == g)
        && (k % 4 == 1 ==> forall i, j | 0 <= i < Width(g) && 0 <= j < |g| :: r[i][j] == g[j][Width(g) - 1 - i])
        && (k % 4 == 2 ==> forall i, j | 0 <= i < |g| && 0 <= j < Width(g) :: r[i][j] == g[|g| - 1 - i][Width(g) - 1 - j])
        && (k % 4 == 3 ==> forall i, j | 0 <= i < Width(g) && 0 <= j < |g| :: r[i][j] == g[|g| - 1 - j][i])
    {
      var g := image.raw.plane;
      RotKShape(g, k);
      RotNShaped(g, k % 4);
      if k % 4 == 1 {
        Rot90At(g);
        assert RotN(g, 1) == Rot90(g);
      } else if k % 4 == 2 {
        Rot180At(g);
      } else if k % 4 == 3 {
        Rot270At(g);
      }
    }

    /** rotate_left followed by rotate_right restores the buffer, and so
        does rotate_right followed by rotate_left. */
    lemma LeftRightInverse(image: Image)
      requires RasterShaped(image.raw)
      ensures RotateRight(RotateLeft(image)) == image
      ensures RotateLeft(RotateRight(image)) == image
    {
      RotateRasterInverse(image.raw, 1);
      RotateRasterInverse(image.raw, 3);
      assert RotateRaster(RotateRaster(image.raw, 3), 1) == RotateRaster(RotateRaster(image.raw, 3), 4 - 3);
    }

    /** Four left turns are the identity. */
    lemma FourLeftTurns(image: Image)
      requires RasterShaped(image.raw)
      ensures RotateLeft(RotateLeft(RotateLeft(RotateLeft(image)))) == image
    {
      var a := RotateLeft(RotateLeft(image));
      Rot2Raster(image.raw);
      Rot2Raster(a.raw);
      RotateRasterInverse(image.raw, 2);
    }

    /** Only k mod 4 matters. */
    lemma RotateKModulo(image: Image, k: int)
      ensures RotateK(image, k) == RotateK(image, k % 4)
      ensures RotateK(image, k + 4) == RotateK(image, k)
    {
      RotateRasterModulo(image.raw, k);
    }

    /** An odd k swaps height and width, an even k keeps them. */
    lemma RotateKShape(image: Image, k: int)
      requires image.raw.Mono? && Shaped(image.raw.plane)
      ensures var g, r := image.raw.plane, RotateK(image, k).raw.plane;
        && (k % 2 == 1 ==> |r| == Width(g) && Width(r) == |g|)
        && (k % 2 == 0 ==> |r| == |g| && Width(r) == Width(g))
    {
      RotKShape(image.raw.plane, k);
    }
  }

  lemma RotNShapedRaster<T>(r: Raster<T>, n: nat)
    ensures RasterShaped(r) ==> RasterShaped(RotateRaster(r, n))
  {
    if RasterShaped(r) {
      match r
      case Mono(p) => RotNShaped(p, n % 4);
      case Color(rd, gr, bl) => RotNShaped(rd, n % 4); RotNShaped(gr, n % 4); RotNShaped(bl, n % 4);
    }
  }

  lemma RotateRasterModulo<T>(r: Raster<T>, k: int)
    ensures RotateRaster(r, k) == RotateRaster(r, k % 4)
    ensures RotateRaster(r, k + 4) == RotateRaster(r, k)
  {
  }

  /** Two left turns are one half turn. */
  lemma Rot2Raster<T>(r: Raster<T>)
    ensures RotateRaster(RotateRaster(r, 1), 1) == RotateRaster(r, 2)
  {
    match r
    case Mono(p) => RotNCompose(p, 1, 1);
    case Color(rd, gr, bl) => RotNCompose(rd, 1, 1); RotNCompose(gr, 1, 1); RotNCompose(bl, 1, 1);
  }
}
