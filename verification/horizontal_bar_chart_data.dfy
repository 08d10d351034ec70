/** Touch resolution of the horizontal bar chart (`HorizontalBarChartData`).

    The chart's draw area is split into one horizontal band per data point,
    top to bottom in data order. A touch selects the band under it; the
    selected bar gets a marker at the end of the bar (its value scaled to
    the width) and at the vertical centre of its band. An optional overlay
    series ("extra line") may add a second marker for the same touch. */
module HorizontalBarChartData {

  import opened Wrappers
  import opened Truncation

  /** A point in the draw area's coordinate space (`CGPoint`). */
  datatype Point = Point(x: real, y: real)

  /** The draw area's extent (the `width`/`height` of the `CGRect` passed
      as `chartSize`). */
  datatype Size = Size(width: real, height: real)

  /** One bar of the chart (`BarChartDataPoint`): its value, its label and
      the optional tag that matches it to a legend entry. */
  datatype DataPoint = DataPoint(value: real, description: string, legendTag: Option<string>)

  /** Which series a touch result belongs to (`CTChartType` as stored in a
      `PublishedTouchData`): the bars themselves or the overlay line. */
  datatype ChartKind = Bar | ExtraLine

  /** One touch result (`PublishedTouchData<BarChartDataPoint>`). */
  datatype TouchEntry = TouchEntry(point: DataPoint, location: Point, kind: ChartKind)

  /** The chart's configured touch marker style (`BarMarkerType`); only
      passed through, so it is kept as an opaque name. */
  datatype BarMarkerType = BarMarkerType(name: string)

  /** One marker handed to the marker display (`BarMarkerData`). */
  datatype BarMarker = BarMarker(markerType: BarMarkerType, location: Point)

  /** What the overlay series reports for a touch: every field is optional,
      and only a report with all four present produces a result. */
  datatype ExtraLineHit = ExtraLineHit(
    location: Option<Point>,
    value: Option<real>,
    description: Option<string>,
    legendTag: Option<string>)

  /** The overlay's hit test (`extraLineData?.pointAndLocation`), a total
      function of the touch and the draw area; `None` also stands for "no
      overlay configured". */
  type ExtraLineProbe = (Point, Size) -> Option<ExtraLineHit>

  /** The part of the chart's state that touch handling reads or writes.
      `maxValue` is the scaling maximum derived from the data and the
      baseline/topline policy, taken here as given. */
  datatype HorizontalBarChart = HorizontalBarChart(
    dataPoints: seq<DataPoint>,
    maxValue: real,
    touchMarkerType: BarMarkerType,
    touchPointData: seq<DataPoint>)

  /** The height of one band when `height` is shared by `count` bars. */
  function BandHeight(height: real, count: nat): (ySection: real)
    requires 0.0 < height
    requires 0 < count
    ensures 0.0 < ySection
    ensures ySection * count as real == height
  {
    height / count as real
  }

  /** The index of the band a vertical coordinate falls in: the quotient
      `y / ySection` truncated toward zero. For a coordinate at or below the
      top edge the index is the band that contains it; for a coordinate
      above the top edge it is zero or negative. */
  function BandIndex(y: real, ySection: real): (index: int)
    requires 0.0 < ySection
    ensures 0.0 <= y ==>
      (0 <= index && index as real * ySection <= y < (index as real + 1.0) * ySection)
    ensures y < 0.0 ==>
      (index <= 0 && (index as real - 1.0) * ySection < y <= index as real * ySection)
  {
    var q := y / ySection;
    var index := Trunc(q);
    if 0.0 <= y then
      assert 0.0 <= q by { MulMonotone(0.0, y, 1.0 / ySection); }
      ScaleHalfOpenBelow(y, ySection, index as real, index as real + 1.0);
      index
    else
      assert q < 0.0 by { MulStrictMonotone(y, 0.0, 1.0 / ySection); }
      ScaleHalfOpenAbove(y, ySection, index as real - 1.0, index as real);
      index
  }

  /** Bounds `lo <= y / ySection < hi` on a quotient scale back to bounds
      on `y`. */
  lemma ScaleHalfOpenBelow(y: real, ySection: real, lo: real, hi: real)
    requires 0.0 < ySection
    requires lo <= y / ySection < hi
    ensures lo * ySection <= y < hi * ySection
  {
    var q := y / ySection;
    assert y == q * ySection;
    MulMonotone(lo, q, ySection);
    MulStrictMonotone(q, hi, ySection);
  }

  /** Bounds `lo < y / ySection <= hi` on a quotient scale back to bounds
      on `y`. */
  lemma ScaleHalfOpenAbove(y: real, ySection: real, lo: real, hi: real)
    requires 0.0 < ySection
    requires lo < y / ySection <= hi
    ensures lo * ySection < y <= hi * ySection
  {
    var q := y / ySection;
    assert y == q * ySection;
    MulStrictMonotone(lo, q, ySection);
    MulMonotone(q, hi, ySection);
  }

  lemma MulMonotone(a: real, b: real, c: real)
    requires a <= b
    requires 0.0 <= c
    ensures a * c <= b * c
  {
  }

  lemma MulStrictMonotone(a: real, b: real, c: real)
    requires a < b
    requires 0.0 < c
    ensures a * c < b * c
  {
  }

  /** The range check on a band index of a touch at or below the top edge,
      from the band bounds alone. */
  lemma BelowTopInRange(y: real, ySection: real, index: int, count: nat)
    requires 0.0 < ySection
    requires 0.0 <= y
    requires 0 <= index
    requires index as real * ySection <= y < (index as real + 1.0) * ySection
    ensures index < count <==> y < count as real * ySection
  {
    var k := index as real;
    var n := count as real;
    if index < count {
      assert k + 1.0 <= n;
      MulMonotone(k + 1.0, n, ySection);
      assert y < n * ySection;
    } else {
      assert n <= k;
      MulMonotone(n, k, ySection);
      assert n * ySection <= y;
    }
  }

  /** The range check on a band index of a touch above the top edge, from
      the band bounds alone. */
  lemma AboveTopInRange(y: real, ySection: real, index: int, count: nat)
    requires 0.0 < ySection
    requires y < 0.0
    requires index <= 0
    requires (index as real - 1.0) * ySection < y <= index as real * ySection
    ensures 0 <= index < count <==> -ySection < y && 0 < count
  {
    if index < 0 {
      MulMonotone(index as real, -1.0, ySection);
    }
  }

  /** The band index of `touch` on `chart`, in bounds or not: the touch's
      `y` divided by the band height, truncated toward zero. */
  function TouchIndex(chart: HorizontalBarChart, touch: Point, size: Size): (index: int)
    requires 0.0 < size.height
    requires 0 < |chart.dataPoints|
    ensures var ySection := BandHeight(size.height, |chart.dataPoints|);
      0.0 <= touch.y ==>
        (0 <= index && index as real * ySection <= touch.y < (index as real + 1.0) * ySection)
    ensures var ySection := BandHeight(size.height, |chart.dataPoints|);
      touch.y < 0.0 ==>
        (index <= 0 && (index as real - 1.0) * ySection < touch.y <= index as real * ySection)
  {
    BandIndex(touch.y, BandHeight(size.height, |chart.dataPoints|))
  }

  /** Whether `touch` lands on a bar: the chart has data and the touch's
      band index is in `[0, count)`. With no data the source divides the
      height by zero, giving an infinite band height, a zero quotient and
      index 0, which is out of range: no bar is hit. Stated without the
      index, a touch hits exactly when there is data and its `y` lies
      strictly above the bottom edge and less than one band height above
      the top edge; the lower bound is `-ySection` rather than `0` because
      the index is truncated toward zero. */
  predicate IsHit(chart: HorizontalBarChart, touch: Point, size: Size): (hit: bool)
    requires 0.0 < size.height
    ensures hit <==>
      && 0 < |chart.dataPoints|
      && -BandHeight(size.height, |chart.dataPoints|) < touch.y < size.height
  {
    if |chart.dataPoints| == 0 then
      false
    else
      var count := |chart.dataPoints|;
      var ySection := BandHeight(size.height, count);
      var index := TouchIndex(chart, touch, size);
      assert size.height == count as real * ySection;
      if 0.0 <= touch.y then
        BelowTopInRange(touch.y, ySection, index, count);
        0 <= index < count
      else
        AboveTopInRange(touch.y, ySection, index, count);
        MulMonotone(0.0, count as real, ySection);
        0 <= index < count
  }

  /** Where the marker of bar `index` goes: at its value scaled to the
      width, and at the vertical centre of its band. */
  function BarLocation(chart: HorizontalBarChart, index: nat, size: Size): (location: Point)
    requires 0.0 < size.height
    requires chart.maxValue != 0.0
    requires index < |chart.dataPoints|
    ensures location.x * chart.maxValue == chart.dataPoints[index].value * size.width
    ensures var ySection := BandHeight(size.height, |chart.dataPoints|);
      && index as real * ySection < location.y < (index as real + 1.0) * ySection
      && location.y - index as real * ySection == (index as real + 1.0) * ySection - location.y
  {
    var ySection := BandHeight(size.height, |chart.dataPoints|);
    var xSection := size.width / chart.maxValue;
    Point(chart.dataPoints[index].value * xSection, index as real * ySection + ySection / 2.0)
  }

  /** The overlay's result entry, when its report carries all four fields. */
  function ExtraLineEntry(hit: Option<ExtraLineHit>): (entry: Option<TouchEntry>)
    ensures entry.Some? <==>
      && hit.Some?
      && hit.value.location.Some? && hit.value.value.Some?
      && hit.value.description.Some? && hit.value.legendTag.Some?
    ensures entry.Some? ==>
      && entry.value.kind == ExtraLine
      && entry.value.location == hit.value.location.value
      && entry.value.point.value == hit.value.value.value
      && entry.value.point.description == hit.value.description.value
      && entry.value.point.legendTag == hit.value.legendTag
  {
    match hit
    case Some(ExtraLineHit(Some(location), Some(value), Some(description), Some(legendTag))) =>
      Some(TouchEntry(DataPoint(value, description, Some(legendTag)), location, ExtraLine))
    case _ => None
  }

  /** The touch results of `processTouchInteraction` (its local `values`):
      empty on a miss; on a hit the bar's entry, followed by the overlay's
      entry when the overlay reports a complete hit for the same touch. */
  function TouchValues(chart: HorizontalBarChart, touch: Point, size: Size, probe: ExtraLineProbe)
    : (values: seq<TouchEntry>)
    requires 0.0 < size.height
    requires IsHit(chart, touch, size) ==> chart.maxValue != 0.0
    ensures |values| <= 2
    ensures values == [] <==> !IsHit(chart, touch, size)
    ensures IsHit(chart, touch, size) ==>
      var index := TouchIndex(chart, touch, size);
      && values[0].kind == Bar
      && values[0].point == chart.dataPoints[index]
      && values[0].location == BarLocation(chart, index, size)
    ensures |values| == 2 <==> IsHit(chart, touch, size) && ExtraLineEntry(probe(touch, size)).Some?
    ensures |values| == 2 ==> values[1] == ExtraLineEntry(probe(touch, size)).value
  {
    if !IsHit(chart, touch, size) then
      []
    else
      var index := TouchIndex(chart, touch, size);
      var bar := TouchEntry(chart.dataPoints[index], BarLocation(chart, index, size), Bar);
      match ExtraLineEntry(probe(touch, size))
      case Some(extra) => [bar, extra]
      case None => [bar]
  }

  /** One marker per touch result, in the same order, each with the chart's
      marker style and the result's location (the `values.map` step). */
  function MarkersOf(values: seq<TouchEntry>, markerType: BarMarkerType): (markers: seq<BarMarker>)
    ensures |markers| == |values|
    ensures forall i :: 0 <= i < |values| ==>
      markers[i].markerType == markerType && markers[i].location == values[i].location
  {
    if values == [] then
      []
    else
      [BarMarker(markerType, values[0].location)] + MarkersOf(values[1..], markerType)
  }

  /** `processTouchInteraction`: the markers handed to the marker display
      (`markerData.update(with:)`) for a touch at `touch` on a draw area of
      extent `size`. */
  function ProcessTouchInteraction(chart: HorizontalBarChart, touch: Point, size: Size, probe: ExtraLineProbe)
    : (markers: seq<BarMarker>)
    requires 0.0 < size.height
    requires IsHit(chart, touch, size) ==> chart.maxValue != 0.0
    ensures var values := TouchValues(chart, touch, size, probe);
      && |markers| == |values|
      && forall i :: 0 <= i < |values| ==>
           markers[i] == BarMarker(chart.touchMarkerType, values[i].location)
  {
    MarkersOf(TouchValues(chart, touch, size, probe), chart.touchMarkerType)
  }

  /** `touchDidFinish`: the retained touch points are cleared, whatever they
      were, and nothing else changes. */
  function TouchDidFinish(chart: HorizontalBarChart): (after: HorizontalBarChart)
    ensures after.touchPointData == []
    ensures after.dataPoints == chart.dataPoints
    ensures after.maxValue == chart.maxValue
    ensures after.touchMarkerType == chart.touchMarkerType
  {
    chart.(touchPointData := [])
  }
}
