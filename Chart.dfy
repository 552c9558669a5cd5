/**
 * The bar chart's data for the selected day: a header row, then one
 * ("HH:mm", temperature) row per sample of the day, in order.
 */
module Chart {
  import opened Wrappers
  import opened Forecast
  import opened Grouping
  import opened Selection

  /** A row of the chart's data table. */
  datatype Row = Header(x: string, y: string) | Point(time: string, temp: real)

  /** What the page renders below the cards. */
  datatype ChartView = NoChart | Bars(rows: seq<Row>) | RenderError

  /** The chart's header row, `['Time', 'Temperature']`. */
  const HeaderRow: Row := Header("Time", "Temperature")

  /**
   * One row per sample, labelled with its time and valued with its
   * temperature; `None` when a timestamp has no time part, where the
   * label expression throws.
   */
  function Points(samples: seq<Sample>): (r: Option<seq<Row>>)
    ensures r.Some? <==> forall i :: 0 <= i < |samples| ==> HasTime(samples[i].dtTxt)
    ensures r.Some? ==> |r.value| == |samples|
    ensures r.Some? ==> forall i :: 0 <= i < |samples| ==>
                          r.value[i] == Point(TimeLabel(samples[i].dtTxt).value, samples[i].temp)
  {
    if samples == [] then Some([])
    else
      match TimeLabel(samples[0].dtTxt)
      case None => None
      case Some(time) =>
        match Points(samples[1..])
        case None => None
        case Some(rest) => Some([Point(time, samples[0].temp)] + rest)
  }

  /**
   * The chart for a selection: none without one; the header followed by
   * the points of its samples otherwise. Spreading `undefined` samples,
   * or a label that throws, fails the render.
   */
  function ChartOf(sel: Option<Selected>): (r: ChartView)
    ensures r == NoChart <==> sel.None?
    ensures r == RenderError <==>
              sel.Some? && (sel.value.samples.None? || !AllHaveTime(sel.value.samples.value))
    ensures r.Bars? ==> sel.Some? && sel.value.samples.Some? &&
                        |r.rows| == |sel.value.samples.value| + 1 && r.rows[0] == HeaderRow
  {
    match sel
    case None => NoChart
    case Some(Selected(_, None)) => RenderError
    case Some(Selected(_, Some(samples))) =>
      match Points(samples)
      case None => RenderError
      case Some(points) => Bars([HeaderRow] + points)
  }

  predicate AllHaveTime(samples: seq<Sample>)
  {
    forall i :: 0 <= i < |samples| ==> HasTime(samples[i].dtTxt)
  }

  /**
   * A clicked day's chart has the header and then exactly one row per
   * sample, in order, labelled with the sample's time.
   */
  lemma ChartOfPicked(day: Bucket)
    requires AllHaveTime(day.samples)
    ensures ChartOf(Some(Pick(day))).Bars?
    ensures |ChartOf(Some(Pick(day))).rows| == |day.samples| + 1
    ensures ChartOf(Some(Pick(day))).rows[0] == HeaderRow
    ensures forall i :: 0 <= i < |day.samples| ==>
              ChartOf(Some(Pick(day))).rows[i + 1] == Point(TimeLabel(day.samples[i].dtTxt).value, day.samples[i].temp)
  {
    var points := Points(day.samples);
    assert points.Some?;
    var rows := [HeaderRow] + points.value;
    assert ChartOf(Some(Pick(day))) == Bars(rows);
    forall i | 0 <= i < |day.samples|
      ensures rows[i + 1] == Point(TimeLabel(day.samples[i].dtTxt).value, day.samples[i].temp)
    {
      assert rows[i + 1] == points.value[i];
    }
  }

  /** Members of a day carry timestamps from the input. */
  lemma MembersHaveTime(list: seq<Sample>, k: string)
    requires AllHaveTime(list)
    ensures AllHaveTime(Members(list, k))
  {
    MembersArePositions(list, k);
  }

  /**
   * The refresh as written breaks the page: a selected day that the new
   * response no longer has becomes `[key, undefined]`, and the chart
   * then spreads `undefined`.
   */
  lemma StaleSelectionBreaksChart(sel: Option<Selected>, list: seq<Sample>)
    requires sel.Some? && sel.value.key !in Keys(list)
    ensures ChartOf(RefreshAsWritten(sel, Group(list))) == RenderError
  {
    RefreshAsWrittenAfterGroup(sel, list);
  }

  /** A list of one well-formed sample has that sample's date as its one key. */
  lemma SingleSampleDay(d: string, t: string, temp: real)
    requires ' ' !in d && ' ' !in t
    ensures AllHaveTime([Sample(d + " " + t, temp, [])])
    ensures Keys([Sample(d + " " + t, temp, [])]) == [d]
  {
    var list := [Sample(d + " " + t, temp, [])];
    WellFormedTimestamp(d, t);
    assert Init(list) == [] && KeyOf(Last(list)) == d;
  }

  /**
   * A case in point: day `d1` is selected, and the next response starts
   * with a later day `d2` (the forecast moved on overnight). Before the
   * refetch the chart shows; after it the render fails.
   */
  lemma StaleSelectionExample(d1: string, t1: string, d2: string, t2: string)
    requires ' ' !in d1 && ' ' !in t1 && ' ' !in d2 && ' ' !in t2 && d1 != d2
    ensures var before := Bucket(d1, [Sample(d1 + " " + t1, 4.0, [])]);
            var after := [Sample(d2 + " " + t2, 3.5, [])];
            ChartOf(Some(Pick(before))).Bars? &&
            ChartOf(RefreshAsWritten(Some(Pick(before)), Group(after))) == RenderError
  {
    var before := Bucket(d1, [Sample(d1 + " " + t1, 4.0, [])]);
    var after := [Sample(d2 + " " + t2, 3.5, [])];
    SingleSampleDay(d1, t1, 4.0);
    ChartOfPicked(before);
    SingleSampleDay(d2, t2, 3.5);
    StaleSelectionBreaksChart(Some(Pick(before)), after);
  }

  /**
   * With the refresh as intended, a refetch whose timestamps all have a
   * time part never fails the chart: a surviving selection charts the
   * new samples of its day, and a dropped one shows no chart.
   */
  lemma RefreshKeepsChart(sel: Option<Selected>, list: seq<Sample>)
    requires AllHaveTime(list)
    ensures ChartOf(Refresh(sel, Group(list))) != RenderError
    ensures sel.Some? && sel.value.key in Keys(list) ==>
              Points(Members(list, sel.value.key)).Some? &&
              ChartOf(Refresh(sel, Group(list))) == Bars([HeaderRow] + Points(Members(list, sel.value.key)).value)
    ensures !(sel.Some? && sel.value.key in Keys(list)) ==> ChartOf(Refresh(sel, Group(list))) == NoChart
  {
    RefreshAfterGroup(sel, list);
    if sel.Some? {
      MembersHaveTime(list, sel.value.key);
    }
  }
}
