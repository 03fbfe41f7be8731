# HLAC feature chart: view-model derivation

This project models the data derivation inside `GraphComponent`, the React
component of the image-features viewer that draws a 25-dimensional HLAC
(Higher-order Local Autocorrelation) feature vector as a bar chart. Each bar
has a small mask image under it, and a busy overlay is shown while features
are being computed. The component takes `features` (default `[]`) and
`isLoading` (default `false`). The model's functions have no optional
parameters: an omitted prop is modelled by passing its default, `[]` or
`false`, so `Graph.EmptyInputChartsDefault` covers an omitted `features`.
From these inputs the component derives:

- the display vector: the input, or 25 zeros when the input is empty;
- its maximum, which picks the value-axis range: fixed at `[0, 100]` unless
  the maximum exceeds 100, when the axis auto-fits;
- the 1-based x labels `"1"`, `"2"`, …;
- one bar colour per value: `#2196F3` for values above zero, `#E0E0E0` otherwise;
- one image annotation per bar, showing `<base>bin/hlac_mask/<i>.png` at x = i + 1;
- the bar series and layout handed to the chart engine, and whether the busy
  overlay is drawn.

Two modules:

- `Decimal` (`decimal.dfy`): the decimal text that a template literal gives
  for a non-negative integer below 10^21, as every array index is (`NatToString`), the number a digit string
  denotes (`Value`), and the canonical digit strings. Round trips are proved
  in both directions.
- `Graph` (`graph.dfy`): the derivation as pure functions (`DisplayFeatures`,
  `Max`, `YAxisRange`, `XLabels`, `BarColors`, `MaskPath`, `MaskAnnotation(s)`,
  `DeriveChart`, `Render`), plus lemmas for what the component promises.

Feature values are modelled as `real`. The deployment base path
(`import.meta.env.BASE_URL`) is the parameter `base`. Every member is a
function of its inputs, so identical inputs always give identical chart
descriptions.

## Model

| member | source | states |
|---|---|---|
| `Graph.DefaultFeatures` | src/components/Graph/index.tsx:14 | the placeholder vector has exactly 25 entries, all zero |
| `Graph.DisplayFeatures` | src/components/Graph/index.tsx:14-15 | the charted vector is never empty; a non-empty input is charted unchanged; an empty input becomes 25 zeros |
| `Graph.Max` | src/components/Graph/index.tsx:18 | the maximum of a non-empty vector is one of its elements and no element exceeds it |
| `Graph.YAxisRange` | src/components/Graph/index.tsx:19 | a fixed range never has a negative lower bound and its lower bound is below its upper bound |
| `Graph.XLabels` | src/components/Graph/index.tsx:20 | one label per value; label i is canonical decimal text denoting i + 1 |
| `Graph.BarColors` | src/components/Graph/index.tsx:43-45 | one colour per value; colour i is the positive colour iff value i > 0, and the neutral colour iff value i <= 0 |
| `Graph.BarColor` | src/components/Graph/index.tsx:44 | a bar is positive-coloured iff its value is > 0, and neutral iff it is <= 0 |
| `Graph.MaskPath` | src/components/Graph/index.tsx:24 | the path of mask i parses back to index i |
| `Graph.MaskAnnotation` | src/components/Graph/index.tsx:23-35 | the annotation for index i shows mask i and sits at x = i + 1, positioned in data units along x and paper units vertically, below the axis (y < 0), centred, on the layer beneath the bars |
| `Graph.MaskAnnotations` | src/components/Graph/index.tsx:23-35 | one annotation per value; annotation i's source parses back to mask index i and its x position is i + 1 |
| `Graph.DeriveChart` | src/components/Graph/index.tsx:37-99 | the bar y-values are the display vector; labels, colours and annotations have its length; the bar outline is the fixed colour `#1976D2` at width 1 |
| `Graph.Render` | src/components/Graph/index.tsx:37-128 | the rendered chart is the derived chart for the features, and the busy overlay is drawn exactly when `isLoading` holds |
| `Graph.EmptyInputChartsDefault` | src/components/Graph/index.tsx:14-19 | an empty input charts 25 bars, all zero and neutral, on the fixed [0, 100] axis |
| `Graph.NonEmptyInputChartedAsIs` | src/components/Graph/index.tsx:15 | a non-empty input of any length is charted unchanged |
| `Graph.LengthCorrespondence` | src/components/Graph/index.tsx:20-43 | values, labels, colours and annotations all number 25 for an empty input, and the input's length otherwise |
| `Graph.AxisRangeRule` | src/components/Graph/index.tsx:18-19 | the axis is fixed at (0, 100) iff every charted value is <= 100, and auto-fits iff some charted value is > 100 |
| `Graph.AxisRangeBoundary` | src/components/Graph/index.tsx:19 | a maximum of exactly 100 keeps the fixed axis; a maximum of 101 makes it auto-fit |
| `Graph.LabelsAreOneBased` | src/components/Graph/index.tsx:20 | label i is exactly the decimal text of i + 1, and label values strictly increase |
| `Graph.ColorRule` | src/components/Graph/index.tsx:43-44 | in the chart, bar i is positive-coloured iff its value is > 0 and neutral iff it is <= 0 |
| `Graph.MaskPathParse` | src/components/Graph/index.tsx:24 | a path parses back to mask index i iff it is `base + "bin/hlac_mask/" + text(i) + ".png"` |
| `Graph.AnnotationsUniform` | src/components/Graph/index.tsx:25-34 | any two annotations agree on every field except source and x; each is positioned in paper units vertically, below the axis, centred, on the layer beneath the bars |
| `Graph.MaskPathsDistinct` | src/components/Graph/index.tsx:24 | two mask paths are equal iff their indices are |
| `Graph.AnnotationsFollowIndex` | src/components/Graph/index.tsx:23-35 | annotation i shows mask i, sits at the x position that bar i's label names, and is the per-index annotation `MaskAnnotation(base, i)` |
| `Graph.AnnotationsIgnoreValues` | src/components/Graph/index.tsx:23-35 | two vectors of the same charted length get identical annotations, whatever their values |
| `Graph.BarVisibleIffWithinFeatureCount` | src/components/Graph/index.tsx:72-73 | the x window is [0.5, 25.5] for every input, so bar i lies inside it iff i < 25 |
| `Graph.LoadingOnlyGatesOverlay` | src/components/Graph/index.tsx:128 | the chart is identical with `isLoading` true or false; only the overlay differs |
| `Graph.LoadingExample` | src/components/Graph/index.tsx:15-44 | `[150, 0, …, 0]` while loading: bar "1" is positive at 150, the axis auto-fits, the overlay is shown |
| `Decimal.NatToString` | src/components/Graph/index.tsx:20 | the decimal text of n is canonical (digits only, no leading zero) and reads back as n |
| `Decimal.CanonicalRoundTrip` | src/components/Graph/index.tsx:20 | every canonical digit string is the decimal text of the number it denotes |
| `Decimal.NatToStringInjective` | src/components/Graph/index.tsx:24 | distinct numbers have distinct decimal texts |

## Left out

- The JSX tree, the React component wrapper and the `Plot` call (lines 106-126). The chart engine is an external renderer; the model stops at the description handed to it.
- The overlay's styles, spinner, keyframes and caption text (lines 128-165). Only "overlay shown iff `isLoading`" is modelled.
- Static chrome: the title, axis titles, fonts, `standoff`, `dtick`, margins, background colours, `showlegend`, the series name, `displayModeBar` and `responsive`. These are constants with no logic.
- `rangemode: 'nonnegative'` (line 84). The renderer enforces it, not this code; the model only proves that the fixed range starts at 0.
- `import.meta.env.BASE_URL`: supplied by the build environment, so it is the parameter `base`.
- IEEE-754 numbers: NaN, `-0`, infinities, and argument-count limits of `Math.max` over a spread. Values are exact reals. `Math.max` of an empty spread (`-Infinity`) cannot arise, because the display vector is never empty.
- `Decimal.NatToString`: models `${n}` only as plain decimal digits. From 10^21 up the runtime prints exponent form, and above 2^53 a number is not an exact integer. The component only renders array indices (`index` and `index + 1`), which stay far below both bounds.
- `Graph.BarVisibleIffWithinFeatureCount`: takes a bar's position to be the number its label names. That is how the chart engine reads numeric label strings, an assumption about the external engine.
