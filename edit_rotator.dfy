/** The editor's rotation stage: a front with one engine, '90'. */
module EditRotator {
  import opened Common
  import opened Raster
  import opened Rotation

  /** The quarter-turn engine; its default is one turn. */
  datatype Rotator90 = Rotator90(name: string, k: int) {

    /** set(name, k): a None argument leaves its field as it was. */
    function Set(name: Option<string>, k: Option<int>): (r: Rotator90)
      ensures r.name == name.GetOr(this.name)
      ensures r.k == k.GetOr(this.k)
      ensures name.None? && k.None? ==> r == this
    {
      Rotator90(if name.Some? then name.value else this.name, if k.Some? then k.value else this.k)
    }

    /** _rotate: the raw buffer becomes numpy.rot90(raw, k). */
    function Rotate(image: Image): (r: Image)
      ensures r.cameraWhiteBalance == image.cameraWhiteBalance
      ensures r.raw == RotateRaster(image.raw, k)
      ensures r.raw.Mono? == image.raw.Mono?
    {
      image.(raw := RotateRaster(image.raw, k))
    }
  }

  function DefaultRotator90(): (r: Rotator90)
    ensures r.k == 1
  {
    Rotator90("rotator_90", 1)
  }

  /** The front: engine None switches the stage off. */
  datatype Rotator = Rotator(name: string, engine: Option<string>, rotator90: Rotator90) {

    function Process(image: Image): (r: Result<Image>)
      ensures engine.None? ==> r == Ok(image)
      ensures engine.Some? && engine.value != "90" ==> r == Err(ValueError)
      ensures engine == Some("90") ==>
        && r.Ok? && r.value.cameraWhiteBalance == image.cameraWhiteBalance
        && r.value.raw == RotateRaster(image.raw, rotator90.k)
    {
      if engine.None? then Ok(image)
      else if engine.value != "90" then Err(ValueError)
      else Ok(rotator90.Rotate(image))
    }
  }

  /** The front with its one engine, '90', at the default single turn. */
  function NewRotator(name: string, engine: Option<string>): (r: Rotator)
    ensures r.name == name && r.engine == engine && r.rotator90.k == 1
  {
    Rotator(name, engine, DefaultRotator90())
  }

  /** With the default engine settings, an H x W mosaic becomes W x H with
      out[i][j] = in[j][W-1-i]. */
  lemma DefaultQuarterTurn(name: string, image: Image)
    requires image.raw.Mono? && Shaped(image.raw.plane)
    ensures var r := NewRotator(name, Some("90")).Process(image);
      var g := image.raw.plane;
      && r.Ok? && r.value.raw.Mono?
      && |r.value.raw.plane| == Width(g) && Width(r.value.raw.plane) == |g|
      && forall i, j | 0 <= i < Width(g) && 0 <= j < |g| :: r.value.raw.plane[i][j] == g[j][Width(g) - 1 - i]
  {
    Rot90At(image.raw.plane);
    assert RotN(image.raw.plane, 1) == Rot90(image.raw.plane);
  }

  /** Processing with k and then with 4 - k restores the image. */
  lemma ProcessInverse(rot: Rotator, image: Image)
    requires rot.engine == Some("90") && RasterShaped(image.raw)
    ensures var back := rot.(rotator90 := rot.rotator90.Set(None, Some(4 - rot.rotator90.k)));
      var once := rot.Process(image);
      once.Ok? && back.Process(once.value) == Ok(image)
  {
    RotateRasterInverse(image.raw, rot.rotator90.k);
  }
}
