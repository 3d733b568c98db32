/** The `position` argument of `create_colormap`: its three accepted forms, the
    evenly spaced default, and the validation applied to ndarrays. */
module Positions {
  import opened Results

  /** `position` is either omitted (Python `None`), a plain Python list (or any
      non-ndarray sequence), or a NumPy ndarray. Only the last is validated. */
  datatype PositionArg = None | PlainList(values: seq<real>) | NdArray(values: seq<real>)

  const LengthMessage: string := "position length must be the same as colors"
  const EndpointMessage: string := "position must start with 0 and end with 1"
  const EmptyIndexMessage: string := "index 0 is out of bounds for axis 0 with size 0"

  /** Default tolerances of `numpy.isclose`. */
  const RelTol: real := 0.00001
  const AbsTol: real := 0.00000001

  function Abs(x: real): real {
    if x < 0.0 then -x else x
  }

  /** `numpy.isclose(a, b)` with its default tolerances: |a - b| <= atol + rtol * |b|.
      Against 0 only the absolute tolerance applies; against 1 both add up. */
  predicate IsClose(a: real, b: real): (r: bool)
    ensures a == b ==> r
    ensures b == 0.0 ==> (r <==> -AbsTol <= a <= AbsTol)
    ensures b == 1.0 ==> (r <==> 1.0 - AbsTol - RelTol <= a <= 1.0 + AbsTol + RelTol)
  {
    Abs(a - b) <= AbsTol + RelTol * Abs(b)
  }

  /** `numpy.linspace(0, 1, n)`: n evenly spaced points from 0 to 1 inclusive
      (the single point 0 when n = 1, nothing when n = 0). */
  function Linspace(n: nat): (r: seq<real>)
    ensures |r| == n
    ensures forall i :: 0 <= i < n ==> r[i] * (n - 1) as real == i as real
    ensures n >= 1 ==> r[0] == 0.0
    ensures n >= 2 ==> r[n - 1] == 1.0
    ensures forall i :: 0 <= i < n ==> 0.0 <= r[i] <= 1.0
  {
    seq(n, i requires 0 <= i < n => if n == 1 then 0.0 else i as real / (n - 1) as real)
  }

  /** Two points scaled by the same positive factor keep their order. */
  lemma ScaledOrder(x: real, y: real, d: real, a: real, b: real)
    requires d > 0.0 && x * d == a && y * d == b && a < b
    ensures x < y
  {
  }

  /** Two points whose scaled values differ by one are 1/d apart. */
  lemma ScaledStep(x: real, y: real, d: real, k: real)
    requires d > 0.0 && x * d == k && y * d == k - 1.0
    ensures x - y == 1.0 / d
  {
    assert (x - y) * d == 1.0;
  }

  /** The default points are strictly increasing and evenly spaced, 1/(N-1) apart. */
  lemma LinspaceEvenlySpaced(n: nat)
    requires n >= 2
    ensures forall i :: 0 < i < n ==> Linspace(n)[i] - Linspace(n)[i - 1] == 1.0 / (n - 1) as real
    ensures forall i, j :: 0 <= i < j < n ==> Linspace(n)[i] < Linspace(n)[j]
  {
    var r := Linspace(n);
    var d := (n - 1) as real;
    forall i | 0 < i < n
      ensures r[i] - r[i - 1] == 1.0 / d
    {
      ScaledStep(r[i], r[i - 1], d, i as real);
    }
    forall i, j | 0 <= i < j < n
      ensures r[i] < r[j]
    {
      ScaledOrder(r[i], r[j], d, i as real, j as real);
    }
  }

  /** The positions `create_colormap` pairs with the `n` colours, or the error it
      raises while resolving them. A plain list is only converted; an ndarray must
      have one entry per colour and must not miss both endpoints. */
  function ResolvePositions(position: PositionArg, n: nat): (r: Result<seq<real>>)
    ensures position.None? ==> r == Ok(Linspace(n))
    ensures position.PlainList? ==> r == Ok(position.values)
    ensures position.NdArray? && r.Ok? ==> r.value == position.values && |r.value| == n
    ensures r.Err? <==> position.NdArray? && !ValidNdArray(position.values, n)
    ensures position.NdArray? && |position.values| != n ==> r == Err(ValueError(LengthMessage))
    ensures position.NdArray? && |position.values| == n == 0 ==> r == Err(IndexError(EmptyIndexMessage))
    ensures position.NdArray? && |position.values| == n > 0 &&
            !IsClose(position.values[0], 0.0) && !IsClose(position.values[n - 1], 1.0) ==>
              r == Err(ValueError(EndpointMessage))
  {
    match position
    case None => Ok(Linspace(n))
    case PlainList(ps) => Ok(ps)
    case NdArray(ps) =>
      if |ps| != n then Err(ValueError(LengthMessage))
      else if |ps| == 0 then Err(IndexError(EmptyIndexMessage))
      else if !IsClose(ps[0], 0.0) && !IsClose(ps[|ps| - 1], 1.0) then Err(ValueError(EndpointMessage))
      else Ok(ps)
  }

  /** What an ndarray of positions must satisfy to be accepted for `n` colours:
      the right length, non-empty, and at least one endpoint close to its target. */
  predicate ValidNdArray(ps: seq<real>, n: nat): (r: bool)
    ensures r ==> |ps| == n > 0
    ensures |ps| == n > 0 && (ps[0] == 0.0 || ps[n - 1] == 1.0) ==> r
    ensures |ps| == n > 0 && (ps[0] < -AbsTol || AbsTol < ps[0]) &&
            (ps[n - 1] < 1.0 - AbsTol - RelTol || 1.0 + AbsTol + RelTol < ps[n - 1]) ==>
              !r
  {
    |ps| == n && n > 0 && (IsClose(ps[0], 0.0) || IsClose(ps[n - 1], 1.0))
  }

  /** The default positions would pass the ndarray validation. */
  lemma LinspaceIsValid(n: nat)
    requires n > 0
    ensures ValidNdArray(Linspace(n), n)
  {
    assert Linspace(n)[0] == 0.0;
  }

  /** The endpoint check is lenient: one endpoint in place is enough. */
  lemma OneEndpointSuffices()
    ensures ResolvePositions(NdArray([0.2, 1.0]), 2) == Ok([0.2, 1.0])
    ensures ResolvePositions(NdArray([0.0, 0.9]), 2) == Ok([0.0, 0.9])
    ensures ResolvePositions(NdArray([0.2, 0.9]), 2) == Err(ValueError(EndpointMessage))
  {
    assert !IsClose(0.2, 0.0);
    assert IsClose(1.0, 1.0);
    assert !IsClose(0.9, 1.0);
  }
}
