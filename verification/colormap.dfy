/** `create_colormap`: from control colours and an optional `position` argument to
    the segment table and resolution handed to matplotlib. */
module Colormap {
  import opened Results
  import opened Colors
  import opened Positions
  import opened Segments

  /** The arguments `create_colormap` passes to `LinearSegmentedColormap`, apart
      from the name: the segment table and the resolution `res`. */
  datatype LinearSegmented = LinearSegmented(segmentData: SegmentData, resolution: int)

  /** The colours as they are paired with positions: reversed first when
      `reverse` is set, then divided by 255 when `bit` is set. */
  function PrepareColors(colors: seq<Rgba>, bit: bool, reverse: bool): (r: seq<Rgba>)
    ensures |r| == |colors|
    ensures forall i, ch :: 0 <= i < |colors| ==>
              r[i].Get(ch) == if bit then colors[if reverse then |colors| - 1 - i else i].Get(ch) / EightBitMax
                              else colors[if reverse then |colors| - 1 - i else i].Get(ch)
  {
    var ordered := if reverse then Reverse(colors) else colors;
    if bit then FromEightBitAll(ordered) else ordered
  }

  /** `create_colormap(colors, position, bit, reverse, res)`. It fails only on an
      ndarray `position` of the wrong length, an empty one, or one that misses both
      endpoints; otherwise every channel gets one continuous anchor per zipped pair. */
  function CreateColormap(colors: seq<Rgba>, position: PositionArg := None, bit: bool := false, reverse: bool := false,
                          res: int := 256)
    : (r: Result<LinearSegmented>)
    ensures r.Err? <==> position.NdArray? && !ValidNdArray(position.values, |colors|)
    ensures position.NdArray? && |position.values| != |colors| ==> r == Err(ValueError(LengthMessage))
    ensures position.NdArray? && |position.values| == |colors| == 0 ==> r == Err(IndexError(EmptyIndexMessage))
    ensures position.NdArray? && |position.values| == |colors| > 0 &&
            !IsClose(position.values[0], 0.0) && !IsClose(position.values[|colors| - 1], 1.0) ==>
              r == Err(ValueError(EndpointMessage))
    ensures r.Ok? ==> r.value.resolution == res && WellFormed(r.value.segmentData)
    ensures r.Ok? && !position.PlainList? ==> forall ch :: |r.value.segmentData.Get(ch)| == |colors|
    ensures r.Ok? && position.PlainList? ==>
              forall ch :: |r.value.segmentData.Get(ch)| == Min(|position.values|, |colors|)
  {
    var cs := PrepareColors(colors, bit, reverse);
    var ps :- ResolvePositions(position, |cs|);
    Ok(LinearSegmented(SegmentTable(ps, cs), res))
  }

  /** A successful call tabulates the resolved positions against the prepared colours. */
  lemma CreateColormapTable(colors: seq<Rgba>, position: PositionArg, bit: bool, reverse: bool, res: int)
    requires CreateColormap(colors, position, bit, reverse, res).Ok?
    ensures ResolvePositions(position, |colors|).Ok?
    ensures CreateColormap(colors, position, bit, reverse, res).value
         == LinearSegmented(SegmentTable(ResolvePositions(position, |colors|).value, PrepareColors(colors, bit, reverse)), res)
  {
  }

  /** Entry i of every channel holds the channel of colour i, or of colour N-1-i
      when reversed, divided by 255 in 8-bit mode, written twice. */
  lemma CreateColormapValues(colors: seq<Rgba>, position: PositionArg, bit: bool, reverse: bool, res: int, ch: Channel, i: nat)
    requires CreateColormap(colors, position, bit, reverse, res).Ok?
    requires i < |CreateColormap(colors, position, bit, reverse, res).value.segmentData.Get(ch)|
    ensures i < |colors|
    ensures CreateColormap(colors, position, bit, reverse, res).value.segmentData.Get(ch)[i].below
         == CreateColormap(colors, position, bit, reverse, res).value.segmentData.Get(ch)[i].above
    ensures CreateColormap(colors, position, bit, reverse, res).value.segmentData.Get(ch)[i].below
         == if bit then colors[if reverse then |colors| - 1 - i else i].Get(ch) / EightBitMax
            else colors[if reverse then |colors| - 1 - i else i].Get(ch)
  {
    CreateColormapTable(colors, position, bit, reverse, res);
    var cs := PrepareColors(colors, bit, reverse);
    var ps := ResolvePositions(position, |colors|).value;
    var d := CreateColormap(colors, position, bit, reverse, res).value.segmentData;
    assert d.Get(ch)[i] == Anchor(ps[i], cs[i].Get(ch), cs[i].Get(ch));
  }

  /** Without a `position` argument, entry i of every channel sits at the i-th
      default position, which is i/(N-1). */
  lemma DefaultPositionEntries(colors: seq<Rgba>, bit: bool, reverse: bool, res: int, ch: Channel, i: nat)
    requires i < |colors|
    ensures CreateColormap(colors, None, bit, reverse, res).Ok?
    ensures |CreateColormap(colors, None, bit, reverse, res).value.segmentData.Get(ch)| == |colors|
    ensures CreateColormap(colors, None, bit, reverse, res).value.segmentData.Get(ch)[i].x == Linspace(|colors|)[i]
  {
    CreateColormapTable(colors, None, bit, reverse, res);
  }

  /** With a `position` argument, entry i of every channel sits at its i-th entry. */
  lemma GivenPositionEntries(colors: seq<Rgba>, position: PositionArg, bit: bool, reverse: bool, res: int, ch: Channel, i: nat)
    requires !position.None?
    requires CreateColormap(colors, position, bit, reverse, res).Ok?
    requires i < |CreateColormap(colors, position, bit, reverse, res).value.segmentData.Get(ch)|
    ensures i < |position.values|
    ensures CreateColormap(colors, position, bit, reverse, res).value.segmentData.Get(ch)[i].x == position.values[i]
  {
    CreateColormapTable(colors, position, bit, reverse, res);
  }

  /** Reversal only changes which colour sits at which position: reversing inside
      the call is the same as passing the colours back to front. */
  lemma ReverseIsReversedInput(colors: seq<Rgba>, position: PositionArg, bit: bool, res: int)
    ensures CreateColormap(colors, position, bit, true, res) == CreateColormap(Reverse(colors), position, bit, false, res)
  {
    assert PrepareColors(colors, bit, true) == PrepareColors(Reverse(colors), bit, false);
  }

  /** Both tables pair the same positions with colours of which one list is the
      other divided by 255 entry by entry. */
  predicate ScaledTables(scaled: SegmentData, plain: SegmentData) {
    forall ch :: |scaled.Get(ch)| == |plain.Get(ch)| &&
      forall i :: 0 <= i < |plain.Get(ch)| ==>
        scaled.Get(ch)[i].x == plain.Get(ch)[i].x && scaled.Get(ch)[i].below * EightBitMax == plain.Get(ch)[i].below
  }

  /** Tabulating scaled colours scales the table and nothing else. */
  lemma SegmentTableOfScaled(ps: seq<real>, plain: seq<Rgba>)
    ensures ScaledTables(SegmentTable(ps, FromEightBitAll(plain)), SegmentTable(ps, plain))
  {
    var s := FromEightBitAll(plain);
    var ts := SegmentTable(ps, s);
    var tp := SegmentTable(ps, plain);
    forall ch, i | 0 <= i < |tp.Get(ch)|
      ensures ts.Get(ch)[i].x == tp.Get(ch)[i].x && ts.Get(ch)[i].below * EightBitMax == tp.Get(ch)[i].below
    {
      assert ts.Get(ch)[i].below == s[i].Get(ch);
    }
  }

  /** The 8-bit flag changes nothing but the channel values, each by a factor 255. */
  lemma EightBitOnlyScales(colors: seq<Rgba>, position: PositionArg, reverse: bool, res: int)
    ensures CreateColormap(colors, position, true, reverse, res).Ok? == CreateColormap(colors, position, false, reverse, res).Ok?
    ensures CreateColormap(colors, position, true, reverse, res).Ok? ==>
              ScaledTables(CreateColormap(colors, position, true, reverse, res).value.segmentData,
                           CreateColormap(colors, position, false, reverse, res).value.segmentData)
  {
    if CreateColormap(colors, position, true, reverse, res).Ok? {
      CreateColormapTable(colors, position, true, reverse, res);
      CreateColormapTable(colors, position, false, reverse, res);
      var p := PrepareColors(colors, false, reverse);
      assert PrepareColors(colors, true, reverse) == FromEightBitAll(p);
      SegmentTableOfScaled(ResolvePositions(position, |colors|).value, p);
    }
  }

  /** With the default positions the first anchor sits at 0 with the first
      (post-reversal) colour and, from two colours on, the last sits at 1 with the
      last colour. */
  lemma DefaultPositionsSpanUnitInterval(colors: seq<Rgba>, bit: bool, reverse: bool, res: int, ch: Channel)
    requires |colors| >= 1
    ensures var rows := CreateColormap(colors, None, bit, reverse, res).value.segmentData.Get(ch);
            var cs := PrepareColors(colors, bit, reverse);
            && |rows| == |colors|
            && rows[0] == Anchor(0.0, cs[0].Get(ch), cs[0].Get(ch))
            && (|colors| >= 2 ==> rows[|colors| - 1] == Anchor(1.0, cs[|colors| - 1].Get(ch), cs[|colors| - 1].Get(ch)))
  {
    var cs := PrepareColors(colors, bit, reverse);
    assert CreateColormap(colors, None, bit, reverse, res).value.segmentData == SegmentTable(Linspace(|colors|), cs);
  }

  /** Passing default positions explicitly as an ndarray gives the same table as
      omitting them: the default would pass the validation. */
  lemma ExplicitDefaultAgrees(colors: seq<Rgba>, bit: bool, reverse: bool, res: int)
    requires |colors| >= 1
    ensures CreateColormap(colors, NdArray(Linspace(|colors|)), bit, reverse, res) == CreateColormap(colors, None, bit, reverse, res)
  {
    LinspaceIsValid(|colors|);
  }

  /** Colours sharing one alpha give alpha anchors that all hold alpha/255. */
  lemma UniformAlpha(colors: seq<Rgba>, position: PositionArg, reverse: bool, res: int, alpha: real, i: nat)
    requires forall j :: 0 <= j < |colors| ==> colors[j].alpha == alpha
    requires CreateColormap(colors, position, true, reverse, res).Ok?
    requires i < |CreateColormap(colors, position, true, reverse, res).value.segmentData.alpha|
    ensures CreateColormap(colors, position, true, reverse, res).value.segmentData.alpha[i].below == alpha / EightBitMax
  {
    CreateColormapTable(colors, position, true, reverse, res);
    var cs := PrepareColors(colors, true, reverse);
    var rows := SegmentTable(ResolvePositions(position, |colors|).value, cs).alpha;
    assert rows == SegmentTable(ResolvePositions(position, |colors|).value, cs).Get(Alpha);
    assert rows[i].below == cs[i].Get(Alpha);
    var j := if reverse then |colors| - 1 - i else i;
    assert colors[j].Get(Alpha) == alpha;
  }

  /** A plain list shorter than the colours is not rejected: the extra colours are
      silently dropped by `zip`. */
  lemma PlainListTruncates(colors: seq<Rgba>, ps: seq<real>, bit: bool, reverse: bool, res: int)
    requires |ps| < |colors|
    ensures var r := CreateColormap(colors, PlainList(ps), bit, reverse, res);
            r.Ok? && |r.value.segmentData.red| == |ps| < |colors|
  {
    assert CreateColormap(colors, PlainList(ps), bit, reverse, res).value.segmentData.Get(Red)
        == CreateColormap(colors, PlainList(ps), bit, reverse, res).value.segmentData.red;
  }

  /** A single pure red given in 8-bit form becomes (1, 0, 0, 1) at position 0. */
  lemma EightBitRed()
    ensures CreateColormap([Rgba(255.0, 0.0, 0.0, 255.0)], bit := true)
         == Ok(LinearSegmented(SegmentData([Anchor(0.0, 1.0, 1.0)], [Anchor(0.0, 0.0, 0.0)],
                                           [Anchor(0.0, 0.0, 0.0)], [Anchor(0.0, 1.0, 1.0)]), 256))
  {
    var r := CreateColormap([Rgba(255.0, 0.0, 0.0, 255.0)], bit := true);
    assert r.Ok?;
    var t := r.value.segmentData;
    assert r.value.resolution == 256;
    assert t.Get(Red)[0] == Anchor(0.0, 1.0, 1.0);
    assert t.Get(Green)[0] == Anchor(0.0, 0.0, 0.0);
    assert t.Get(Blue)[0] == Anchor(0.0, 0.0, 0.0);
    assert t.Get(Alpha)[0] == Anchor(0.0, 1.0, 1.0);
    assert |t.red| == 1 && |t.green| == 1 && |t.blue| == 1 && |t.alpha| == 1;
    assert t.red == [Anchor(0.0, 1.0, 1.0)] && t.alpha == [Anchor(0.0, 1.0, 1.0)];
    assert t.green == [Anchor(0.0, 0.0, 0.0)] && t.blue == [Anchor(0.0, 0.0, 0.0)];
  }
}
