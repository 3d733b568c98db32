# custom_colormap in Dafny

This project models the input preparation of `create_colormap` in
`custom_colormaps.py`, together with the palette table of `make_cmap_customized`
that calls it.

`create_colormap` takes a list of RGBA control colours and an optional `position`
argument. It reverses the colours when `reverse` is set. It resolves the
positions: evenly spaced by default, taken as given otherwise. A NumPy array of
positions is validated, but a plain list is not. It divides every channel by 255
when `bit` is set. It then builds the segment table (`cdict`) that matplotlib's
`LinearSegmentedColormap` receives: for each of red, green, blue and alpha, one
`(position, value, value)` row per zipped (position, colour) pair.
`make_cmap_customized` selects one of five named eight-colour palettes and passes
it to `create_colormap` in 8-bit mode, with resolution 1000.

Channels and positions are Dafny `real`s. `numpy.isclose` is modelled with
numpy's default tolerances, |a - b| <= 1e-8 + 1e-5 * |b|. The `position`
argument is a datatype with three forms: `None`, `PlainList` (any non-ndarray
sequence) and `NdArray`. Python exceptions become `Err` values of a `Result`:
`ValueError` and `IndexError` carry numpy's or the source's message, and
`UnboundLocalError` carries the variable name.

Modules:

- `Results` (results.dfy): the `Result` type and the Python exceptions.
- `Colors` (colors.dfy): RGBA colours, reversal, and 8-bit scaling.
- `Positions` (positions.dfy): the `position` argument, `linspace`, `isclose`,
  and the validation.
- `Segments` (segments.dfy): the `cdict` table and how it corresponds to
  control-point lists.
- `Colormap` (colormap.dfy): `create_colormap` itself.
- `Palettes` (palettes.dfy): `make_cmap_customized`.

Behaviour of the code that the model keeps as written:

- Only an ndarray `position` is validated. A plain list is never validated, even
  when its length differs from the colours; this includes the default of
  `make_cmap_customized`. A length mismatch then truncates silently through
  `zip`.
- The endpoint check rejects an ndarray only when BOTH endpoints are off. One
  endpoint in place is enough (`OneEndpointSuffices`).
- Take an ndarray `position` of length 0 together with an empty colour list. It
  passes the length check, and then `position[0]` raises `IndexError`.
- The source scales the colours after reversing them; the two orders agree
  (`EightBitCommutesWithReverse`).
- An unknown palette name selects no branch. The list on line 120 then reads the
  unbound `couleur0` and raises `UnboundLocalError`.

## Model

| member | source | states |
|---|---|---|
| Colors.FromEightBit | custom_colormaps.py:63-64 | the converted colour times 255 gives back every original channel |
| Colors.FromEightBitAll | custom_colormaps.py:63-64 | the list keeps its length and order; each channel of each colour times 255 gives back the original |
| Colors.Reverse | custom_colormaps.py:52-53 | the result has the same length, and entry i is original entry N-1-i |
| Colors.ReverseInvolutive | custom_colormaps.py:52-53 | reversing twice gives the original colour list |
| Colors.EightBitCommutesWithReverse | custom_colormaps.py:52-64 | scaling after reversing equals reversing after scaling |
| Colors.FromEightBitInUnitRange | custom_colormaps.py:63-64 | a colour with every channel in [0, 255] has every channel in [0, 1] after conversion |
| Positions.Linspace | custom_colormaps.py:56-57 | N default positions: point i times (N-1) is i, the first is 0, the last is 1 from N = 2 on, all lie in [0, 1] |
| Positions.LinspaceEvenlySpaced | custom_colormaps.py:56-57 | from two points on, the default positions are strictly increasing and 1/(N-1) apart |
| Positions.IsClose | custom_colormaps.py:61 | `np.isclose` with default tolerances: equal values are close; a value is close to 0 exactly within 1e-8 of it, and close to 1 exactly within 1e-8 + 1e-5 of it |
| Positions.ValidNdArray | custom_colormaps.py:59-62 | an accepted ndarray has one entry per colour and at least one; an exact 0 first or an exact 1 last suffices; missing both endpoints beyond the tolerances rejects it |
| Positions.ResolvePositions | custom_colormaps.py:54-62 | None yields exactly `Linspace(N)`; a plain list is returned unchanged and never rejected; an ndarray is rejected exactly when its length differs from N ("position length must be the same as colors"), when it is empty (IndexError), or when both endpoints are off ("position must start with 0 and end with 1") |
| Positions.LinspaceIsValid | custom_colormaps.py:57-62 | from one colour on, the default positions would pass the ndarray validation |
| Positions.OneEndpointSuffices | custom_colormaps.py:61-62 | [0.2, 1.0] and [0.0, 0.9] are accepted for two colours; [0.2, 0.9] is rejected with the endpoint message |
| Segments.Zip | custom_colormaps.py:66 | the pairs stop at the shorter list, and pair i is (position i, colour i) |
| Segments.SegmentTable | custom_colormaps.py:65-70 | every channel list has min(positions, colours) rows; row i of channel k is (position[i], color[i][k], color[i][k]); the four lists agree on positions and never jump |
| Segments.ControlPoints | custom_colormaps.py:65-70 | the control points read back from a well-formed table carry each row's position and the four channel values |
| Segments.ControlPointsOfTable | custom_colormaps.py:65-70 | reading back a table's control points recovers the list it was built from |
| Segments.TableOfControlPoints | custom_colormaps.py:65-70 | every well-formed table is the table of its control points, so tables and control-point lists correspond one to one |
| Segments.BuildSegmentTable | custom_colormaps.py:65-70 | the append loop over the zipped pairs builds the same table as `SegmentTable`, and its control points are the zipped pairs |
| Colormap.PrepareColors | custom_colormaps.py:50-64 | colour i after preparation is colour i (or N-1-i when reversed), divided by 255 in 8-bit mode and unchanged otherwise |
| Colormap.CreateColormap | custom_colormaps.py:21-71 | with the source's defaults (no positions, `bit` and `reverse` off, resolution 256); fails exactly when an ndarray position is invalid: the length message when its length differs from the colours, IndexError when both are empty, the endpoint message when both endpoints are off; on success the table is well formed, the resolution is `res`, and there is one row per colour unless a plain list of positions truncates it to min(list, colours) |
| Colormap.CreateColormapValues | custom_colormaps.py:52-70 | row i of any channel holds that channel of colour i (colour N-1-i when reversed), divided by 255 in 8-bit mode, as both left and right values |
| Colormap.DefaultPositionEntries | custom_colormaps.py:56-70 | without positions, the call succeeds with N rows per channel, and row i sits at default position i |
| Colormap.GivenPositionEntries | custom_colormaps.py:54-70 | with positions given, row i sits at the caller's i-th position |
| Colormap.ReverseIsReversedInput | custom_colormaps.py:52-53 | `reverse=True` gives the same result as passing the colours back to front with `reverse=False`, positions untouched |
| Colormap.SegmentTableOfScaled | custom_colormaps.py:63-70 | tabulating scaled colours gives the same positions and every value divided by 255 |
| Colormap.EightBitOnlyScales | custom_colormaps.py:63-64 | the 8-bit flag does not change whether the call succeeds, the positions or the row counts; it divides every value by 255 |
| Colormap.DefaultPositionsSpanUnitInterval | custom_colormaps.py:56-57 | with default positions, the first row is (0, first colour) and, from two colours on, the last row is (1, last colour) |
| Colormap.ExplicitDefaultAgrees | custom_colormaps.py:54-62 | from one colour on, passing the default positions as an ndarray gives the same result as omitting them |
| Colormap.PlainListTruncates | custom_colormaps.py:54-66 | a plain list shorter than the colours is accepted and yields fewer rows than colours |
| Colormap.EightBitRed | custom_colormaps.py:63-70 | one 8-bit red (255, 0, 0, 255) becomes the rows (0, 1, 1), (0, 0, 0), (0, 0, 0), (0, 1, 1) |
| Palettes.Lookup | custom_colormaps.py:74-120 | each of "sunrise", "green", "mountain", "prune" and "asym_mountain5" selects its own palette and no other name does; any other name gives UnboundLocalError on couleur0 |
| Palettes.PaletteColors | custom_colormaps.py:74-118 | each palette has 8 colours with 8-bit RGB channels and the caller's alpha; the four symmetric palettes run from white to black |
| Palettes.MakeCmapCustomized | custom_colormaps.py:73-122 | fails on an unknown name with UnboundLocalError; otherwise fails only when an ndarray position is invalid for 8 colours; builds at resolution 1000, with 8 rows per channel unless a plain list truncates |
| Palettes.MakeCmapIsCreate | custom_colormaps.py:120-122 | a known palette is `create_colormap` of its eight colours with `bit=True`, the caller's position and reverse, and resolution 1000 |
| Palettes.PaletteEntries | custom_colormaps.py:120-122 | each row holds a palette colour (mirrored when reversed) divided by 255 |
| Colormap.UniformAlpha | custom_colormaps.py:63-70 | in 8-bit mode, colours that share one alpha give alpha rows that all hold alpha/255 |
| Palettes.PaletteAlpha | custom_colormaps.py:73-122 | every alpha row of a palette holds alpha/255 |
| Palettes.DefaultPositionsFitPalettes | custom_colormaps.py:73-122 | with the default positions every known palette builds 8 rows per channel, at 0, 0.16, 0.2, 0.24, 0.4, 0.7, 0.8, 1 |

## Left out

- The `LinearSegmentedColormap(name, cdict, res)` call (line 71). Interpolation and sampling happen inside matplotlib, which is not part of this model. The model stops at the table and the resolution passed along.
- The `name` argument. It is only passed to matplotlib and has no effect on the table.
- The `__main__` demonstration (lines 127-159): plotting, random data and file output.
- Floating point. Channels and positions are exact reals. The float32 rounding of `dtype='f'` (line 51) is not modelled. Neither is the integer truncation when a caller passes an integer ndarray with `bit=True` (line 64).
- NumPy aliasing. `colors[:] = ...` (line 64) overwrites an ndarray the caller supplied, directly or through the reversed view of line 53. The model returns new values instead.
- Colour rows with other than four channels. The `Rgba` type has exactly four. In the source, when every row has the same number of channels, channels beyond four are ignored (lines 67-70 read only `color[0]` to `color[3]`), and fewer than four raise `IndexError` at the first index the row lacks (`color[0]` to `color[3]`, lines 67-70) once `zip` yields a pair. A list whose rows differ in length raises `ValueError` at line 51.
- Positions with more than one dimension. Positions form a flat sequence here.
- Non-string palette names and non-boolean flags. The model types the arguments.
