/** Properties of horizontal-bar touch resolution that relate several
    calls or characterise the hit test independently of how it is computed. */
module TouchProperties {

  import opened Wrappers
  import opened Truncation
  import opened HorizontalBarChartData

  /** Bounds `lo * ySection <= y < hi * ySection` divide back to bounds on
      the quotient `y / ySection`. */
  lemma DivideHalfOpen(y: real, ySection: real, lo: real, hi: real)
    requires 0.0 < ySection
    requires lo * ySection <= y < hi * ySection
    ensures lo <= y / ySection < hi
  {
    var q := y / ySection;
    assert y == q * ySection;
    if q < lo {
      MulStrictMonotone(q, lo, ySection);
      assert false;
    }
    if hi <= q {
      MulMonotone(hi, q, ySection);
      assert false;
    }
  }

  /** For a coordinate at or below the top edge, the band index is `i`
      exactly when the coordinate lies in `[i * ySection, (i + 1) * ySection)`. */
  lemma {:induction false} BandIndexIsContainingBand(y: real, ySection: real, i: int)
    requires 0.0 < ySection
    requires 0.0 <= y
    requires 0 <= i
    ensures BandIndex(y, ySection) == i <==>
      i as real * ySection <= y < (i as real + 1.0) * ySection
  {
    var index := BandIndex(y, ySection);
    if i as real * ySection <= y < (i as real + 1.0) * ySection {
      DivideHalfOpen(y, ySection, i as real, i as real + 1.0);
      TruncOfNonNegative(y / ySection, i);
    }
  }

  /** A touch at the vertical centre of band `i`, i.e. at
      `(i + 1/2) * height / count`, resolves to index `i`. */
  lemma {:induction false} CentreTouchResolvesToBand(height: real, count: nat, i: nat)
    requires 0.0 < height
    requires i < count
    ensures BandIndex((i as real + 0.5) * height / count as real, BandHeight(height, count)) == i
  {
    var ySection := BandHeight(height, count);
    var y := (i as real + 0.5) * height / count as real;
    assert y == (i as real + 0.5) * ySection;
    assert i as real * ySection <= y < (i as real + 1.0) * ySection by {
      MulStrictMonotone(i as real, i as real + 0.5, ySection);
      MulStrictMonotone(i as real + 0.5, i as real + 1.0, ySection);
    }
    BandIndexIsContainingBand(y, ySection, i);
  }

  /** The band index lies in `[0, count)` exactly when `y` lies strictly
      between one band height above the top edge and the bottom edge
      `count * ySection`. */
  lemma {:induction false} BandIndexInRange(y: real, ySection: real, count: nat)
    requires 0.0 < ySection
    requires 0 < count
    ensures 0 <= BandIndex(y, ySection) < count <==> -ySection < y < count as real * ySection
  {
    var index := BandIndex(y, ySection);
    if 0.0 <= y {
      BelowTopInRange(y, ySection, index, count);
    } else {
      AboveTopInRange(y, ySection, index, count);
      MulMonotone(0.0, count as real, ySection);
    }
  }

  /** A touch less than one band height above the top edge still selects
      the first bar: truncating the negative quotient toward zero yields
      index 0. Flooring would have given -1 and no hit. */
  lemma {:induction false} TouchAboveTopEdgeHitsFirstBar(
    chart: HorizontalBarChart, touch: Point, size: Size, probe: ExtraLineProbe)
    requires 0.0 < size.height
    requires chart.maxValue != 0.0
    requires 0 < |chart.dataPoints|
    requires -BandHeight(size.height, |chart.dataPoints|) < touch.y < 0.0
    ensures TouchIndex(chart, touch, size) == 0
    ensures var values := TouchValues(chart, touch, size, probe);
      values != [] && values[0].point == chart.dataPoints[0]
  {
    assert IsHit(chart, touch, size);
  }

  /** No touch at or below the bottom edge, or at least one band height
      above the top edge, produces a marker. */
  lemma {:induction false} TouchOutsideChartHasNoMarkers(
    chart: HorizontalBarChart, touch: Point, size: Size, probe: ExtraLineProbe)
    requires 0.0 < size.height
    requires 0 < |chart.dataPoints|
    requires touch.y >= size.height || touch.y <= -BandHeight(size.height, |chart.dataPoints|)
    ensures TouchValues(chart, touch, size, probe) == []
    ensures ProcessTouchInteraction(chart, touch, size, probe) == []
  {
  }

  /** Touching a bar's own marker location selects that same bar again: the
      marker placement and the band lookup are inverse to each other. */
  lemma {:induction false} MarkerLocationResolvesToItsBar(
    chart: HorizontalBarChart, index: nat, size: Size, x: real, probe: ExtraLineProbe)
    requires 0.0 < size.height
    requires chart.maxValue != 0.0
    requires index < |chart.dataPoints|
    ensures var location := BarLocation(chart, index, size);
      && TouchIndex(chart, Point(x, location.y), size) == index
      && TouchValues(chart, Point(x, location.y), size, probe)[0].point == chart.dataPoints[index]
  {
    var ySection := BandHeight(size.height, |chart.dataPoints|);
    var location := BarLocation(chart, index, size);
    assert 0.0 <= index as real * ySection by {
      MulMonotone(0.0, index as real, ySection);
    }
    BandIndexIsContainingBand(location.y, ySection, index);
  }

  /** A value between zero and the scaling maximum puts its marker between
      the leading and trailing edges of the draw area. */
  lemma BarEndWithinWidth(chart: HorizontalBarChart, index: nat, size: Size)
    requires 0.0 < size.height
    requires 0.0 <= size.width
    requires 0.0 < chart.maxValue
    requires index < |chart.dataPoints|
    requires 0.0 <= chart.dataPoints[index].value <= chart.maxValue
    ensures 0.0 <= BarLocation(chart, index, size).x <= size.width
  {
  }

  /** Clearing the retained touch points does not change what a later touch
      resolves to, nor the markers it produces. */
  lemma ResetDoesNotAffectResolution(
    chart: HorizontalBarChart, touch: Point, size: Size, probe: ExtraLineProbe)
    requires 0.0 < size.height
    requires IsHit(chart, touch, size) ==> chart.maxValue != 0.0
    ensures TouchValues(TouchDidFinish(chart), touch, size, probe) == TouchValues(chart, touch, size, probe)
    ensures ProcessTouchInteraction(TouchDidFinish(chart), touch, size, probe)
      == ProcessTouchInteraction(chart, touch, size, probe)
  {
    var after := TouchDidFinish(chart);
    assert IsHit(after, touch, size) == IsHit(chart, touch, size);
    if IsHit(chart, touch, size) {
      var index := TouchIndex(chart, touch, size);
      assert TouchIndex(after, touch, size) == index;
      assert BarLocation(after, index, size) == BarLocation(chart, index, size);
    }
  }

  /** A worked example: values 10, 20, 30 scaled to a maximum of 30 on a
      100 x 90 draw area; a touch in the middle band
      selects the bar of value 20 and places its marker at x = 200/3 and
      y = 45, and with an overlay that reports nothing that is the only
      marker. */
  lemma WorkedExample(markerType: BarMarkerType, touchX: real)
    ensures var chart := HorizontalBarChart(
              [DataPoint(10.0, "a", None), DataPoint(20.0, "b", None), DataPoint(30.0, "c", None)],
              30.0, markerType, []);
      var size := Size(100.0, 90.0);
      var touch := Point(touchX, 45.0);
      var probe: ExtraLineProbe := (p, s) => None;
      && TouchValues(chart, touch, size, probe)
           == [TouchEntry(DataPoint(20.0, "b", None), Point(200.0 / 3.0, 45.0), Bar)]
      && ProcessTouchInteraction(chart, touch, size, probe)
           == [BarMarker(markerType, Point(200.0 / 3.0, 45.0))]
  {
  }

  /** When the overlay reports a complete hit for a touch that also hits a
      bar, the results are exactly the bar's entry and then the overlay's,
      and the markers follow in the same order. */
  lemma BarThenExtraLine(
    chart: HorizontalBarChart, touch: Point, size: Size, probe: ExtraLineProbe,
    location: Point, value: real, description: string, legendTag: string)
    requires 0.0 < size.height
    requires chart.maxValue != 0.0
    requires IsHit(chart, touch, size)
    requires probe(touch, size) == Some(ExtraLineHit(Some(location), Some(value), Some(description), Some(legendTag)))
    ensures var index := TouchIndex(chart, touch, size);
      var bar := BarLocation(chart, index, size);
      && TouchValues(chart, touch, size, probe)
           == [TouchEntry(chart.dataPoints[index], bar, Bar),
               TouchEntry(DataPoint(value, description, Some(legendTag)), location, ExtraLine)]
      && ProcessTouchInteraction(chart, touch, size, probe)
           == [BarMarker(chart.touchMarkerType, bar), BarMarker(chart.touchMarkerType, location)]
  {
  }
}
