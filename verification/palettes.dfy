/** `make_cmap_customized`: five named eight-colour palettes fed to
    `create_colormap` in 8-bit mode at resolution 1000. */
module Palettes {
  import opened Results
  import opened Colors
  import opened Positions
  import opened Colormap

  /** The palette names the chain of comparisons recognises. */
  const KnownPalettes: set<string> := {"sunrise", "green", "mountain", "prune", "asym_mountain5"}

  /** The default `position` argument: a plain list, so it is never validated. */
  const DefaultPosition: PositionArg := PlainList([0.0, 0.16, 0.2, 0.24, 0.4, 0.7, 0.8, 1.0])

  /** The resolution every palette is built with. */
  const PaletteResolution: int := 1000

  /** The five palettes the chain of comparisons distinguishes. */
  datatype Palette = Sunrise | Green | Mountain | Prune | AsymMountain5

  /** Which palette a name selects. An unknown name selects none, which leaves the
      couleur variables unbound, and reading the first of them fails. */
  function Lookup(name: string): (r: Result<Palette>)
    ensures r.Ok? <==> name in KnownPalettes
    ensures r.Err? ==> r.error == UnboundLocalError("couleur0")
    ensures r == Ok(Sunrise) <==> name == "sunrise"
    ensures r == Ok(Palette.Green) <==> name == "green"
    ensures r == Ok(Mountain) <==> name == "mountain"
    ensures r == Ok(Prune) <==> name == "prune"
    ensures r == Ok(AsymMountain5) <==> name == "asym_mountain5"
  {
    if name == "sunrise" then Ok(Sunrise)
    else if name == "green" then Ok(Palette.Green)
    else if name == "mountain" then Ok(Mountain)
    else if name == "prune" then Ok(Prune)
    else if name == "asym_mountain5" then Ok(AsymMountain5)
    else Err(UnboundLocalError("couleur0"))
  }

  /** The list `[couleur0, ..., couleur7]` of a palette: eight 8-bit colours, each
      carrying the caller's alpha; all but the asymmetric palette run from white
      to black. */
  function PaletteColors(p: Palette, alpha: real): (r: seq<Rgba>)
    ensures |r| == 8
    ensures forall i :: 0 <= i < |r| ==> r[i].alpha == alpha
    ensures forall i, ch :: 0 <= i < |r| && ch != Alpha ==> 0.0 <= r[i].Get(ch) <= EightBitMax
    ensures p != AsymMountain5 ==> r[0] == Rgba(255.0, 255.0, 255.0, alpha) && r[7] == Rgba(0.0, 0.0, 0.0, alpha)
  {
    match p
    case Sunrise =>
      [Rgba(255.0, 255.0, 255.0, alpha), Rgba(240.0, 206.0, 125.0, alpha),
       Rgba(210.0, 124.0, 124.0, alpha), Rgba(172.0, 85.0, 122.0, alpha),
       Rgba(141.0, 76.0, 125.0, alpha), Rgba(107.0, 64.0, 110.0, alpha),
       Rgba(64.0, 50.0, 79.0, alpha), Rgba(0.0, 0.0, 0.0, alpha)]
    case Green =>
      [Rgba(255.0, 255.0, 255.0, alpha), Rgba(232.0, 219.0, 194.0, alpha),
       Rgba(199.0, 205.0, 181.0, alpha), Rgba(172.0, 185.0, 153.0, alpha),
       Rgba(55.0, 140.0, 129.0, alpha), Rgba(28.0, 78.0, 78.0, alpha),
       Rgba(6.0, 49.0, 50.0, alpha), Rgba(0.0, 0.0, 0.0, alpha)]
    case Mountain =>
      [Rgba(255.0, 255.0, 255.0, alpha), Rgba(238.0, 189.0, 184.0, alpha),
       Rgba(212.0, 153.0, 154.0, alpha), Rgba(212.0, 119.0, 127.0, alpha),
       Rgba(145.0, 101.0, 118.0, alpha), Rgba(89.0, 76.0, 96.0, alpha),
       Rgba(45.0, 52.0, 70.0, alpha), Rgba(0.0, 0.0, 0.0, alpha)]
    case Prune =>
      [Rgba(255.0, 255.0, 255.0, alpha), Rgba(207.0, 213.0, 199.0, alpha),
       Rgba(164.0, 173.0, 154.0, alpha), Rgba(205.0, 179.0, 214.0, alpha),
       Rgba(107.0, 77.0, 131.0, alpha), Rgba(125.0, 58.0, 91.0, alpha),
       Rgba(66.0, 37.0, 67.0, alpha), Rgba(0.0, 0.0, 0.0, alpha)]
    case AsymMountain5 =>
      [Rgba(121.0, 175.0, 204.0, alpha), Rgba(167.0, 213.0, 229.0, alpha),
       Rgba(232.0, 219.0, 194.0, alpha), Rgba(212.0, 119.0, 127.0, alpha),
       Rgba(145.0, 101.0, 118.0, alpha), Rgba(135.0, 90.0, 115.0, alpha),
       Rgba(110.0, 86.0, 96.0, alpha), Rgba(45.0, 52.0, 70.0, alpha)]
  }

  /** `make_cmap_customized(Palette, position, reverse, alpha)`, with the source's
      default arguments. It fails on an unknown palette name and otherwise fails
      exactly when `create_colormap` rejects the position argument for 8 colours. */
  function MakeCmapCustomized(palette: string := "mountain", position: PositionArg := DefaultPosition,
                              reverse: bool := false, alpha: real := 255.0): (r: Result<LinearSegmented>)
    ensures palette !in KnownPalettes ==> r == Err(UnboundLocalError("couleur0"))
    ensures r.Ok? <==> palette in KnownPalettes && (position.NdArray? ==> ValidNdArray(position.values, 8))
    ensures r.Ok? ==> r.value.resolution == PaletteResolution
    ensures r.Ok? && !position.PlainList? ==> forall ch :: |r.value.segmentData.Get(ch)| == 8
  {
    var p :- Lookup(palette);
    CreateColormap(PaletteColors(p, alpha), position, true, reverse, PaletteResolution)
  }

  /** A known palette is built by `create_colormap` from its colour list. */
  lemma MakeCmapIsCreate(palette: string, position: PositionArg, reverse: bool, alpha: real)
    requires palette in KnownPalettes
    ensures MakeCmapCustomized(palette, position, reverse, alpha)
         == CreateColormap(PaletteColors(Lookup(palette).value, alpha), position, true, reverse, PaletteResolution)
  {
  }

  /** Every anchor a palette produces holds a palette colour divided by 255. */
  lemma PaletteEntries(palette: string, position: PositionArg, reverse: bool, alpha: real, ch: Channel, i: nat)
    requires MakeCmapCustomized(palette, position, reverse, alpha).Ok?
    requires i < |MakeCmapCustomized(palette, position, reverse, alpha).value.segmentData.Get(ch)|
    ensures i < 8
    ensures MakeCmapCustomized(palette, position, reverse, alpha).value.segmentData.Get(ch)[i].below
         == PaletteColors(Lookup(palette).value, alpha)[if reverse then 7 - i else i].Get(ch) / EightBitMax
  {
    MakeCmapIsCreate(palette, position, reverse, alpha);
    CreateColormapValues(PaletteColors(Lookup(palette).value, alpha), position, true, reverse, PaletteResolution, ch, i);
  }

  /** Every alpha anchor of a palette holds alpha/255. */
  lemma PaletteAlpha(palette: string, position: PositionArg, reverse: bool, alpha: real, i: nat)
    requires MakeCmapCustomized(palette, position, reverse, alpha).Ok?
    requires i < |MakeCmapCustomized(palette, position, reverse, alpha).value.segmentData.alpha|
    ensures MakeCmapCustomized(palette, position, reverse, alpha).value.segmentData.alpha[i].below == alpha / EightBitMax
  {
    MakeCmapIsCreate(palette, position, reverse, alpha);
    UniformAlpha(PaletteColors(Lookup(palette).value, alpha), position, reverse, PaletteResolution, alpha, i);
  }

  /** With the default positions every known palette builds: eight anchors per
      channel, at 0, 0.16, 0.2, 0.24, 0.4, 0.7, 0.8 and 1. */
  lemma DefaultPositionsFitPalettes(palette: string, reverse: bool, alpha: real, ch: Channel)
    requires palette in KnownPalettes
    ensures MakeCmapCustomized(palette, DefaultPosition, reverse, alpha).Ok?
    ensures |MakeCmapCustomized(palette, DefaultPosition, reverse, alpha).value.segmentData.Get(ch)| == 8
    ensures forall i :: 0 <= i < 8 ==>
              MakeCmapCustomized(palette, DefaultPosition, reverse, alpha).value.segmentData.Get(ch)[i].x
              == DefaultPosition.values[i]
  {
    var colors := PaletteColors(Lookup(palette).value, alpha);
    MakeCmapIsCreate(palette, DefaultPosition, reverse, alpha);
    forall i | 0 <= i < 8
      ensures MakeCmapCustomized(palette, DefaultPosition, reverse, alpha).value.segmentData.Get(ch)[i].x
              == DefaultPosition.values[i]
    {
      GivenPositionEntries(colors, DefaultPosition, true, reverse, PaletteResolution, ch, i);
    }
  }
}
