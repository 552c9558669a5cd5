/**
 * The weather page's own state (its `useState` hooks) and the handlers
 * that change it: picking a unit, a forecast response arriving, clicking
 * a day card, and the two arrows.
 */
module View {
  import opened Wrappers
  import opened Forecast
  import opened Grouping
  import opened Selection
  import opened Paging
  import opened Units
  import opened Chart

  class WeatherView {
    /** The radio group's value. */
    var unit: string
    /** The page cursor over the days. */
    var page: int
    /** `paginatedData` read with `Object.entries`: the day buckets in order. */
    var days: seq<Bucket>
    /** `selectedDate`, or `None` while nothing is selected. */
    var selected: Option<Selected>

    /**
     * The cursor never drops below the first page, the days have distinct
     * keys, and a selection is one of the days with exactly its samples.
     */
    ghost predicate Valid()
      reads this
    {
      page >= FirstPage &&
      DistinctKeys(days) &&
      (selected.Some? ==> selected.value.samples.Some? && Lookup(days, selected.value.key) == selected.value.samples)
    }

    /**
     * With a selection, exactly one day card is raised: the selected
     * day's. Without one, no card is.
     */
    lemma RaisedCardIsSelected()
      requires Valid()
      ensures forall i, j ::
                0 <= i < |days| && 0 <= j < |days| &&
                CardElevation(selected, days[i].key) == 6 && CardElevation(selected, days[j].key) == 6
                ==> i == j
      ensures selected.Some? <==> exists i :: 0 <= i < |days| && CardElevation(selected, days[i].key) == 6
    {
      OneRaisedCard(days, selected);
    }

    /**
     * The chart of a selection never fails when its timestamps have a
     * time part: it is the header and one row per sample of the day.
     */
    lemma SelectionCharts()
      requires Valid()
      requires selected.Some? ==> AllHaveTime(selected.value.samples.value)
      ensures ChartOf(selected) != RenderError
      ensures selected.Some? ==>
                ChartOf(selected).Bars? && |ChartOf(selected).rows| == |selected.value.samples.value| + 1
    {
    }

    /** The page as first mounted: Fahrenheit, first page, no days, no selection. */
    constructor ()
      ensures Valid()
      ensures unit == InitialUnit && page == FirstPage && days == [] && selected == None
    {
      unit := InitialUnit;
      page := FirstPage;
      days := [];
      selected := None;
    }

    /** A change of the radio group; the refetch it triggers arrives as `ApplyResponse`. */
    method SetUnit(u: string)
      requires Valid()
      modifies this
      ensures Valid()
      ensures unit == u
      ensures page == old(page) && days == old(days) && selected == old(selected)
    {
      unit := u;
    }

    /**
     * A forecast response arrives: its `list` (if any) is grouped into the
     * new days, a selection whose day survives is refreshed and any other
     * is cleared. The cursor and the unit are kept.
     */
    method ApplyResponse(response: Option<seq<Sample>>)
      requires Valid()
      modifies this
      ensures Valid()
      ensures days == (if response.Some? then Group(response.value) else [])
      ensures selected == Refresh(old(selected), days)
      ensures page == old(page) && unit == old(unit)
    {
      var grouped := GroupByDay(response);
      if response.Some? {
        GroupKeysDistinct(response.value);
      }
      selected := Refresh(selected, grouped);
      days := grouped;
    }

    /** A click on the card of day `i`, which only a visible card can take. */
    method SelectDay(i: nat)
      requires Valid()
      requires i < |days| && IsVisible(i, page)
      modifies this
      ensures Valid()
      ensures unit == old(unit) && page == old(page) && days == old(days)
      ensures selected == Some(Pick(days[i]))
    {
      LookupDistinct(days, i);
      selected := Some(Pick(days[i]));
    }

    /** A click on the back arrow; hidden on the first page, where it does nothing. */
    method GoBack()
      requires Valid()
      modifies this
      ensures Valid()
      ensures page == Step(old(page), |days|, Back)
      ensures unit == old(unit) && days == old(days) && selected == old(selected)
    {
      if CanGoBack(page) {
        page := page - 1;
      }
    }

    /** A click on the forward arrow; hidden unless `page < |days| - 2`. */
    method GoForward()
      requires Valid()
      modifies this
      ensures Valid()
      ensures page == Step(old(page), |days|, Forward)
      ensures unit == old(unit) && days == old(days) && selected == old(selected)
    {
      if CanGoForward(page, |days|) {
        page := page + 1;
      }
    }
  }
}
