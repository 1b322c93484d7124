# Chart rendering of jest-playground, modelled in Dafny

The repository is a collection of Jest mocking examples. Its only component
with behaviour of its own is the `Chart` class of `src/chart.js`: a chart is
built from a sequence of x values and a sequence of y values, and `render()`
turns them into a sequence of `{x, y}` points, one per x value, pairing
`xvalues[i]` with `yvalues[i]`.

The model (`chart.dfy`, module `Charts`, with `Option` in `wrappers.dfy`):

- `Chart<X, Y>` is a class with the two fields `xvalues` and `yvalues`, as
  sequences. Its constructor stores both arguments unchanged.
- `Chart.Render()` is a function that reads the fields and changes nothing, so
  calling it twice on the same chart gives equal results. Its body is
  `Points`, the `map` over the x values.
- A JavaScript read `yvalues[i]` past the end of the array yields `undefined`
  without an error; `At` models that read, with `None` for `undefined`.
- The element types are generic: the values are only copied, never computed
  on.
- Each property is proved against an independent reference: `Zip`, a
  recursive definition that walks both sequences in step, and the
  projections `Xs` and `DefinedYs`, which read the inputs back from the
  points.

Lengths are never compared. A y sequence shorter than the x sequence leaves
the trailing points with an undefined y. A longer one has its extra entries
ignored. The code has no length check, and the model follows it: no
precondition and no error path.

## Model

| member | source | states |
|---|---|---|
| `Charts.Chart.constructor` | src/chart.js:5-8 | the new chart's `xvalues` and `yvalues` are exactly the two arguments, whatever their lengths |
| `Charts.Chart.Render` | src/chart.js:10-15 | rendering reads the fields only and equals the step-by-step pairing `Zip`; its x coordinates are `xvalues` in order; its defined y values are the first `min(|xvalues|, |yvalues|)` y values in order |
| `Charts.Points` | src/chart.js:11-14 | one point per x value (so empty x values give no points, whatever the y values); point `i` has `x == xs[i]`; its y is `ys[i]` when `i < |ys|`, and undefined exactly when `i >= |ys|`, without an error |
| `Charts.At` | src/chart.js:13 | an index read is defined exactly when the index is inside the sequence, and then yields the element there |
| `Charts.PointsIsZip` | src/chart.js:11-14 | the `map` over indices equals the recursive definition that pairs heads and pads a missing y with undefined |
| `Charts.XsOfPoints` | src/chart.js:11-12 | projecting the x coordinates of the rendering gives back the x values, so the points are in input order |
| `Charts.DefinedYsOfPoints` | src/chart.js:11-13 | the defined y values of the rendering are the y values at the indices of x values, in order, and no others |
| `Charts.RoundTrip` | src/chart.js:11-13 | when there are no more y values than x values (equal lengths included), both input sequences are recovered from the points |
| `Charts.OnlyLeadingYsRead` | src/chart.js:11-13 | y values at indices at or past `|xs|` never influence the rendering |
| `Charts.ExtraYsIgnored` | src/chart.js:11-13 | appending y values to a y sequence that already covers every x value leaves the rendering unchanged |
| `Charts.Examples` | src/chart.js:10-15 | concrete renderings: `[1, 2]` with `[10, 20]`, `[1, 2, 3]` with `[10]` (two undefined y), and empty x values |

## Left out

- `src/user-service.js`: a single HTTP GET through `axios` whose promise is unwrapped to `.data`; network I/O with no logic to model.
- `src/logging.js`: a passthrough to `console.log`; output I/O only.
- `src/__mocks__/logging.js` and `src/playground.test.js`: Jest test doubles and assertions. The Chart test there runs against an automatically mocked constructor, so it says nothing about the real `render()`. `forEach` and the file summarizer are imported by the tests, but their sources are not part of this model.
- Dynamic typing: the fields are typed sequences. `render()` throws when `xvalues` has no callable `map` (null, undefined, a plain object), when `yvalues` is null or undefined and the callback runs, and on exotic inputs such as a BigInt typed array as `xvalues`. Other non-array values, such as a string or a number as `yvalues`, are read without error. None of this is modelled, nor are sparse arrays with holes.
- An element of `yvalues` that is itself `undefined` is indistinguishable in JavaScript from a read past the end; the model keeps the two apart, since the element type is generic.
- Aliasing: JavaScript stores references to the caller's arrays, so later mutation of those arrays shows through the chart; the model stores values.
- Numeric values and floating point: elements are of generic types and only copied.
