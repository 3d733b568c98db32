/** Control colours: RGBA tuples with real channels, and the two whole-list
    transformations `create_colormap` applies to them (reversal, 8-bit scaling). */
module Colors {

  /** The four channels, in the order an RGBA tuple stores them (`color[0]` .. `color[3]`). */
  datatype Channel = Red | Green | Blue | Alpha

  /** One control colour. */
  datatype Rgba = Rgba(red: real, green: real, blue: real, alpha: real) {

    function Get(ch: Channel): real {
      match ch
      case Red => red
      case Green => green
      case Blue => blue
      case Alpha => alpha
    }
  }

  /** The largest 8-bit channel value; `bit=True` divides by it. */
  const EightBitMax: real := 255.0

  /** One colour converted from 8-bit [0, 255] to arithmetic [0, 1] channels. */
  function FromEightBit(c: Rgba): (r: Rgba)
    ensures forall ch :: r.Get(ch) * EightBitMax == c.Get(ch)
  {
    Rgba(c.red / EightBitMax, c.green / EightBitMax, c.blue / EightBitMax, c.alpha / EightBitMax)
  }

  /** Every colour of the list converted from 8-bit channels, order kept. */
  function FromEightBitAll(cs: seq<Rgba>): (r: seq<Rgba>)
    ensures |r| == |cs|
    ensures forall i, ch :: 0 <= i < |cs| ==> r[i].Get(ch) * EightBitMax == cs[i].Get(ch)
  {
    seq(|cs|, i requires 0 <= i < |cs| => FromEightBit(cs[i]))
  }

  /** The colour list read back to front (`colors[::-1]`). */
  function Reverse(cs: seq<Rgba>): (r: seq<Rgba>)
    ensures |r| == |cs|
    ensures forall i :: 0 <= i < |cs| ==> r[i] == cs[|cs| - 1 - i]
  {
    if cs == [] then [] else Reverse(cs[1..]) + [cs[0]]
  }

  /** Reversing twice gives the original list back. */
  lemma ReverseInvolutive(cs: seq<Rgba>)
    ensures Reverse(Reverse(cs)) == cs
  {
    var rr := Reverse(Reverse(cs));
    assert forall i :: 0 <= i < |cs| ==> rr[i] == cs[i];
  }

  /** Scaling and reversal commute, so it does not matter that the source scales
      after reversing. */
  lemma EightBitCommutesWithReverse(cs: seq<Rgba>)
    ensures FromEightBitAll(Reverse(cs)) == Reverse(FromEightBitAll(cs))
  {
    var a := FromEightBitAll(Reverse(cs));
    var b := Reverse(FromEightBitAll(cs));
    forall i | 0 <= i < |cs|
      ensures a[i] == b[i]
    {
      assert a[i] == FromEightBit(Reverse(cs)[i]);
    }
  }

  /** Every channel lies in the 8-bit range. */
  predicate InEightBitRange(c: Rgba) {
    forall ch :: 0.0 <= c.Get(ch) <= EightBitMax
  }

  /** Every channel lies in the arithmetic range [0, 1]. */
  predicate InUnitRange(c: Rgba) {
    forall ch :: 0.0 <= c.Get(ch) <= 1.0
  }

  /** A colour given in the 8-bit range lands in [0, 1] after the conversion. */
  lemma FromEightBitInUnitRange(c: Rgba)
    requires InEightBitRange(c)
    ensures InUnitRange(FromEightBit(c))
  {
    forall ch
      ensures 0.0 <= FromEightBit(c).Get(ch) <= 1.0
    {
      assert FromEightBit(c).Get(ch) * EightBitMax == c.Get(ch);
    }
  }
}
