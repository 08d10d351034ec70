# Horizontal bar chart touch resolution

A Dafny model of how the SwiftUICharts horizontal bar chart
(`HorizontalBarChartData`) turns a touch into marker callouts, and of how
`touchDidFinish` clears the retained touch state.

The draw area's height is shared equally by the data points, one
horizontal band each, in data order from the top edge down. A touch's `y`
divided by the band height and truncated toward zero gives a band index.
An index outside `[0, count)` is a miss and produces no markers. On a hit,
the touched bar produces a "bar" entry. That entry carries the data point
and a marker location: `x` is the value times `width / maxValue`, and `y` is
the centre of the band. The extra-line overlay is then asked about the same
touch. When it reports a location, value, description and legend tag, a
second "extra line" entry follows the bar's. Each entry becomes one marker
carrying the chart's touch marker style, in the same order. That marker
sequence is what goes to the marker display.

Files:
- `wrappers.dfy`: `Option`, standing for Swift optionals.
- `truncation.dfy`: `Int(_:)` on a finite value, i.e. rounding toward zero.
- `horizontal_bar_chart_data.dfy`: the entities (data point, touch entry,
  marker, overlay report, chart state) and the operations.
- `touch_properties.dfy`: lemmas about the operations. They cover
  band-centre touches, touches just above the chart, marker/lookup round
  trips, result order and a worked example.

Two consequences of the code are worth stating:
- Swift's `Int(_:)` truncates toward zero, so a touch with
  `-ySection < y < 0` selects the first bar
  (`TouchProperties.TouchAboveTopEdgeHitsFirstBar`); flooring would reject
  every `y < 0`. Only `y <= -ySection` or `y >= height` misses
  (the contract of `HorizontalBarChartData.IsHit`).
- With no data points the code divides the height by zero. In IEEE
  arithmetic that gives an infinite band height, a zero quotient and index
  0, which is out of range. The model therefore treats an empty data set
  as a miss. It does not exclude that case by a precondition.

Inputs taken as parameters: the scaling maximum `maxValue` (a field of the
chart record, derived elsewhere from the data and the baseline/topline
policy); the overlay's hit test `extraLineData?.pointAndLocation`, as a total
function `ExtraLineProbe` of the touch and the draw area (its `None`
also covers "no overlay configured").

## Model

| member | source | states |
|---|---|---|
| `Truncation.Trunc` | Sources/SwiftUICharts/BarChart/Models/ChartData/HorizontalBarChartData.swift:93 | the index conversion rounds toward zero: a non-negative quotient `x` gives `t` with `t <= x < t + 1`, a negative one gives `t <= 0` with `t - 1 < x <= t` |
| `Truncation.TruncAboveFloorOnNegative` | Sources/SwiftUICharts/BarChart/Models/ChartData/HorizontalBarChartData.swift:93 | on negative non-integral quotients the conversion is one more than flooring |
| `HorizontalBarChartData.BandHeight` | Sources/SwiftUICharts/BarChart/Models/ChartData/HorizontalBarChartData.swift:91 | `ySection` is positive and `count` bands of it exactly fill the height |
| `HorizontalBarChartData.BandIndex` | Sources/SwiftUICharts/BarChart/Models/ChartData/HorizontalBarChartData.swift:91-93 | for `y >= 0` the index is non-negative and `y` lies in `[index * ySection, (index + 1) * ySection)`; for `y < 0` the index is at most 0 and `y` lies in `((index - 1) * ySection, index * ySection]` |
| `HorizontalBarChartData.TouchIndex` | Sources/SwiftUICharts/BarChart/Models/ChartData/HorizontalBarChartData.swift:91-93 | the touch's index is the band of height `height / count` containing `y` when `y >= 0`; for `y < 0` it is at most 0 and `y` lies in `((index - 1) * ySection, index * ySection]` |
| `HorizontalBarChartData.IsHit` | Sources/SwiftUICharts/BarChart/Models/ChartData/HorizontalBarChartData.swift:91-94 | the bounds check succeeds if and only if there is data and `-ySection < y < height`; an empty data set is a miss, as the IEEE quotient `y / (height / 0) = 0` gives index 0, which is not below a count of 0 |
| `HorizontalBarChartData.BarLocation` | Sources/SwiftUICharts/BarChart/Models/ChartData/HorizontalBarChartData.swift:91-97 | the marker's `x` scales the bar's value by `width / maxValue` (`x * maxValue == value * width`); its `y` lies strictly inside band `index`, equidistant from the band's two edges |
| `HorizontalBarChartData.ExtraLineEntry` | Sources/SwiftUICharts/BarChart/Models/ChartData/HorizontalBarChartData.swift:101-109 | an overlay entry exists exactly when the overlay reports all four of location, value, description and legend tag; it is of kind extra line, at the reported location, with a data point carrying the reported value, description and legend tag |
| `HorizontalBarChartData.TouchValues` | Sources/SwiftUICharts/BarChart/Models/ChartData/HorizontalBarChartData.swift:89-112 | at most two entries; empty exactly on a miss; on a hit the first entry is the bar kind with `dataPoints[index]` and the bar's marker location; two entries exactly when there is a hit and a complete overlay report, the second being the overlay entry |
| `HorizontalBarChartData.MarkersOf` | Sources/SwiftUICharts/BarChart/Models/ChartData/HorizontalBarChartData.swift:113-116 | one marker per entry, same length and order, each with the given marker style and the entry's location |
| `HorizontalBarChartData.ProcessTouchInteraction` | Sources/SwiftUICharts/BarChart/Models/ChartData/HorizontalBarChartData.swift:89-118 | the markers handed to the marker display match the touch results one to one, in order, each with the chart's `touchMarkerType` and the result's location |
| `HorizontalBarChartData.TouchDidFinish` | Sources/SwiftUICharts/BarChart/Models/ChartData/HorizontalBarChartData.swift:120-122 | the retained touch points become empty whatever they were; data points, scaling maximum and marker style are unchanged |
| `TouchProperties.BandIndexIsContainingBand` | Sources/SwiftUICharts/BarChart/Models/ChartData/HorizontalBarChartData.swift:91-93 | for `y >= 0` and `i >= 0`: the index is `i` if and only if `y` lies in `[i * ySection, (i + 1) * ySection)` |
| `TouchProperties.CentreTouchResolvesToBand` | Sources/SwiftUICharts/BarChart/Models/ChartData/HorizontalBarChartData.swift:91-94 | a touch at `y = (i + 1/2) * height / count`, with `0 <= i < count`, resolves to index `i` |
| `TouchProperties.BandIndexInRange` | Sources/SwiftUICharts/BarChart/Models/ChartData/HorizontalBarChartData.swift:91-94 | for `count > 0`: the index is in `[0, count)` if and only if `-ySection < y < count * ySection` |
| `TouchProperties.TouchAboveTopEdgeHitsFirstBar` | Sources/SwiftUICharts/BarChart/Models/ChartData/HorizontalBarChartData.swift:93-95 | a touch with `-ySection < y < 0` gets index 0, and its first result is the first data point |
| `TouchProperties.TouchOutsideChartHasNoMarkers` | Sources/SwiftUICharts/BarChart/Models/ChartData/HorizontalBarChartData.swift:93-117 | a touch with `y >= height` or `y <= -ySection` yields no results and no markers |
| `TouchProperties.MarkerLocationResolvesToItsBar` | Sources/SwiftUICharts/BarChart/Models/ChartData/HorizontalBarChartData.swift:93-97 | touching at a bar's own marker height selects that bar again: the marker placement and the band lookup are inverse to each other |
| `TouchProperties.BarEndWithinWidth` | Sources/SwiftUICharts/BarChart/Models/ChartData/HorizontalBarChartData.swift:92-96 | with `0 <= value <= maxValue` and a non-negative width, the marker's `x` lies in `[0, width]` |
| `TouchProperties.ResetDoesNotAffectResolution` | Sources/SwiftUICharts/BarChart/Models/ChartData/HorizontalBarChartData.swift:120-122 | after `touchDidFinish` a touch yields the same results and the same markers as before: the reset touches nothing the resolution reads; `maxValue != 0` is needed only when the touch hits a bar |
| `TouchProperties.WorkedExample` | Sources/SwiftUICharts/BarChart/Models/ChartData/HorizontalBarChartData.swift:89-117 | values 10, 20, 30 with maximum 30 on a 100 x 90 area: a touch at `y = 45` selects the value-20 bar, with its marker at `(200/3, 45)`; with an overlay that reports nothing this is the only marker |
| `TouchProperties.BarThenExtraLine` | Sources/SwiftUICharts/BarChart/Models/ChartData/HorizontalBarChartData.swift:99-117 | on a hit with a complete overlay report the results are exactly the bar entry and then the overlay entry, and the markers follow in that order |

## Left out

- Sources/SwiftUICharts/BarChart/Views/SubViews/Bars.swift: SwiftUI view composition only (shapes, fills, gradients, scale effects, appear/disappear animation). Its `value / maxValue` scale factor goes straight to the rendering framework and has no contract of its own.
- `@Published` change propagation and `touchedDataPointPublisher`: framework reactivity. `markerData.update(with:)` is modelled as the returned marker sequence.
- The derivation of `maxValue` from `Baseline`/`Topline` and the data. It lives in code that is not part of this model, so it is taken as a field of the chart record.
- The internals of `ExtraLineData.pointAndLocation`: not part of this model. It is the `ExtraLineProbe` parameter. A nil `extraLineData` and a probe that returns `None` are the same case here.
- Floating-point behaviour. The model uses exact reals, so it leaves out rounding in the divisions and products. It also leaves out three trapping or non-finite cases. A zero height divides by zero and makes `Int(_:)` trap on a non-finite quotient; the model requires `height > 0`. A zero `maxValue` gives an infinite or NaN `x` on a hit; the model requires `maxValue != 0` whenever the touch hits a bar. A quotient outside the 64-bit `Int` range also makes `Int(_:)` trap.
- Negative draw-area heights are excluded by `height > 0`. They are assumed not to occur, as SwiftUI layout sizes are non-negative.
- The initializer (it only stores fields), the deprecated fields, legends, axis view data, bar style, animation flag, accessibility title, chart name and `noDataText`. These are configuration with no behaviour in touch handling.
- `BarChartDataPoint` fields other than value, description and legend tag (identifier, colour, date). Bar entries copy them from the touched data point; the extra-line entry's are the defaults of `DataPoint(value:description:)`.
- `ExtraLineProbe` receives only the draw area's width and height. The source passes the whole `chartSize` rectangle, origin included, to `pointAndLocation`. The probe is unconstrained, so no stated property depends on the origin.
- `BarMarkerType` is only passed through by touch handling, so the marker style is an opaque name.
- The vertical (standard) bar chart's touch resolution is not part of this model.
