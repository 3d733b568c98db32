/** The per-channel segment table (`cdict`) that `create_colormap` hands to
    matplotlib, built from (position, colour) pairs. */
module Segments {
  import opened Colors

  /** One row of a channel's table as matplotlib reads it: at position `x`, the
      channel value approached from below and the value continued from above. */
  datatype Anchor = Anchor(x: real, below: real, above: real)

  /** The `cdict`: one list of anchors for each of the keys red, green, blue, alpha. */
  datatype SegmentData = SegmentData(red: seq<Anchor>, green: seq<Anchor>, blue: seq<Anchor>, alpha: seq<Anchor>) {

    function Get(ch: Channel): seq<Anchor> {
      match ch
      case Red => red
      case Green => green
      case Blue => blue
      case Alpha => alpha
    }
  }

  /** A control colour placed at a position along the gradient. */
  datatype ControlPoint = ControlPoint(pos: real, color: Rgba)

  function Min(a: int, b: int): int {
    if a <= b then a else b
  }

  /** Python's `zip(position, colors)`: pairs in order, stopping at the shorter list. */
  function Zip(ps: seq<real>, cs: seq<Rgba>): (r: seq<ControlPoint>)
    ensures |r| == Min(|ps|, |cs|)
    ensures forall i :: 0 <= i < |r| ==> r[i] == ControlPoint(ps[i], cs[i])
  {
    if ps == [] || cs == [] then [] else [ControlPoint(ps[0], cs[0])] + Zip(ps[1..], cs[1..])
  }

  /** The anchors one channel receives, one per control point. */
  function Rows(cps: seq<ControlPoint>, ch: Channel): seq<Anchor> {
    seq(|cps|, i requires 0 <= i < |cps| => Anchor(cps[i].pos, cps[i].color.Get(ch), cps[i].color.Get(ch)))
  }

  /** The table of a list of control points, all four channels filled alike. */
  function Table(cps: seq<ControlPoint>): SegmentData {
    SegmentData(Rows(cps, Red), Rows(cps, Green), Rows(cps, Blue), Rows(cps, Alpha))
  }

  /** A table of the shape `create_colormap` produces: the four channels list the
      same positions in the same order, and no channel jumps at any anchor. */
  predicate WellFormed(d: SegmentData) {
    && |d.green| == |d.red| && |d.blue| == |d.red| && |d.alpha| == |d.red|
    && (forall ch, i :: 0 <= i < |d.red| ==> d.Get(ch)[i].x == d.red[i].x)
    && (forall ch, i :: 0 <= i < |d.red| ==> d.Get(ch)[i].below == d.Get(ch)[i].above)
  }

  /** The `cdict` built from the positions and the (already prepared) colours:
      entry i of channel k is (position[i], color[i][k], color[i][k]), for as many
      entries as `zip` yields. */
  function SegmentTable(ps: seq<real>, cs: seq<Rgba>): (d: SegmentData)
    ensures WellFormed(d)
    ensures forall ch :: |d.Get(ch)| == Min(|ps|, |cs|)
    ensures forall ch, i :: 0 <= i < |d.Get(ch)| ==> d.Get(ch)[i] == Anchor(ps[i], cs[i].Get(ch), cs[i].Get(ch))
  {
    Table(Zip(ps, cs))
  }

  /** Reads the control points back out of a well-formed table. */
  function ControlPoints(d: SegmentData): (r: seq<ControlPoint>)
    requires WellFormed(d)
    ensures |r| == |d.red|
    ensures forall ch, i :: 0 <= i < |r| ==> r[i].pos == d.Get(ch)[i].x && r[i].color.Get(ch) == d.Get(ch)[i].below
  {
    seq(|d.red|, i requires 0 <= i < |d.red| =>
      ControlPoint(d.red[i].x, Rgba(d.red[i].below, d.green[i].below, d.blue[i].below, d.alpha[i].below)))
  }

  /** Reading the control points back recovers exactly what was tabulated. */
  lemma ControlPointsOfTable(cps: seq<ControlPoint>)
    ensures WellFormed(Table(cps))
    ensures ControlPoints(Table(cps)) == cps
  {
    var d := Table(cps);
    forall ch, i | 0 <= i < |cps|
      ensures d.Get(ch)[i] == Anchor(cps[i].pos, cps[i].color.Get(ch), cps[i].color.Get(ch))
    {
      match ch
      case Red =>
      case Green =>
      case Blue =>
      case Alpha =>
    }
    var r := ControlPoints(d);
    forall i | 0 <= i < |cps|
      ensures r[i] == cps[i]
    {
      assert r[i].color.Get(Red) == cps[i].color.Get(Red);
      assert r[i].color.Get(Green) == cps[i].color.Get(Green);
      assert r[i].color.Get(Blue) == cps[i].color.Get(Blue);
      assert r[i].color.Get(Alpha) == cps[i].color.Get(Alpha);
    }
  }

  /** One channel of a well-formed table is rebuilt from its control points. */
  lemma RowsOfControlPoints(d: SegmentData, ch: Channel)
    requires WellFormed(d)
    ensures Rows(ControlPoints(d), ch) == d.Get(ch)
  {
    var cps := ControlPoints(d);
    var rows := Rows(cps, ch);
    forall i | 0 <= i < |d.red|
      ensures rows[i] == d.Get(ch)[i]
    {
      assert cps[i].color.Get(ch) == d.Get(ch)[i].below;
    }
  }

  /** Every well-formed table is the table of its control points, so tables and
      control-point lists correspond one to one. */
  lemma TableOfControlPoints(d: SegmentData)
    requires WellFormed(d)
    ensures Table(ControlPoints(d)) == d
  {
    RowsOfControlPoints(d, Red);
    RowsOfControlPoints(d, Green);
    RowsOfControlPoints(d, Blue);
    RowsOfControlPoints(d, Alpha);
  }

  /** The table is built by the loop over `zip(position, colors)` that appends one
      anchor per pair to each of the four lists. */
  method BuildSegmentTable(ps: seq<real>, cs: seq<Rgba>) returns (d: SegmentData)
    ensures d == SegmentTable(ps, cs)
    ensures ControlPoints(d) == Zip(ps, cs)
  {
    var red, green, blue, alpha := [], [], [], [];
    var n := Min(|ps|, |cs|);
    var i := 0;
    while i < n
      invariant 0 <= i <= n
      invariant |red| == i && |green| == i && |blue| == i && |alpha| == i
      invariant forall j :: 0 <= j < i ==> red[j] == Anchor(ps[j], cs[j].red, cs[j].red)
      invariant forall j :: 0 <= j < i ==> green[j] == Anchor(ps[j], cs[j].green, cs[j].green)
      invariant forall j :: 0 <= j < i ==> blue[j] == Anchor(ps[j], cs[j].blue, cs[j].blue)
      invariant forall j :: 0 <= j < i ==> alpha[j] == Anchor(ps[j], cs[j].alpha, cs[j].alpha)
    {
      var pos, color := ps[i], cs[i];
      red := red + [Anchor(pos, color.red, color.red)];
      green := green + [Anchor(pos, color.green, color.green)];
      blue := blue + [Anchor(pos, color.blue, color.blue)];
      alpha := alpha + [Anchor(pos, color.alpha, color.alpha)];
      i := i + 1;
    }
    d := SegmentData(red, green, blue, alpha);
    var t := SegmentTable(ps, cs);
    assert t.red == red by { assert forall j :: 0 <= j < n ==> t.Get(Red)[j] == red[j]; }
    assert t.green == green by { assert forall j :: 0 <= j < n ==> t.Get(Green)[j] == green[j]; }
    assert t.blue == blue by { assert forall j :: 0 <= j < n ==> t.Get(Blue)[j] == blue[j]; }
    assert t.alpha == alpha by { assert forall j :: 0 <= j < n ==> t.Get(Alpha)[j] == alpha[j]; }
    ControlPointsOfTable(Zip(ps, cs));
  }
}
