/**
 * The selected day (`selectedDate`): how a card click sets it, how a
 * refetch refreshes it, and how it styles the day cards.
 */
module Selection {
  import opened Wrappers
  import opened Forecast
  import opened Grouping

  /**
   * A selected day: its key and its samples. The samples are `None` when
   * a refetch no longer had the day (`sectionalData[key]` is `undefined`).
   */
  datatype Selected = Selected(key: string, samples: Option<seq<Sample>>)

  /** `sectionalData[k]`: the samples of the bucket with key `k`, if any. */
  function Lookup(days: seq<Bucket>, k: string): (r: Option<seq<Sample>>)
    ensures r.None? <==> forall j :: 0 <= j < |days| ==> days[j].key != k
    ensures r.Some? ==> exists j :: 0 <= j < |days| && days[j].key == k && days[j].samples == r.value
  {
    if days == [] then None
    else if days[0].key == k then Some(days[0].samples)
    else
      var r := Lookup(days[1..], k);
      assert r.Some? ==> exists j :: 1 <= j < |days| && days[j].key == k && days[j].samples == r.value by {
        if r.Some? {
          var j :| 0 <= j < |days[1..]| && days[1..][j].key == k && days[1..][j].samples == r.value;
          assert days[j + 1] == days[1..][j];
        }
      }
      r
  }

  /** Over distinct keys, looking up a bucket's key finds that bucket. */
  lemma LookupDistinct(days: seq<Bucket>, i: nat)
    requires DistinctKeys(days) && i < |days|
    ensures Lookup(days, days[i].key) == Some(days[i].samples)
  {
    var r := Lookup(days, days[i].key);
    var j :| 0 <= j < |days| && days[j].key == days[i].key && days[j].samples == r.value;
    assert i == j;
  }

  /** Looking a key up in the grouped buckets gives that day's samples. */
  lemma LookupGroup(list: seq<Sample>, k: string)
    ensures Lookup(Group(list), k) == if k in Keys(list) then Some(Members(list, k)) else None
  {
    var g := Group(list);
    KeysDistinct(list);
    if k in Keys(list) {
      var i :| 0 <= i < |Keys(list)| && Keys(list)[i] == k;
      assert g[i].key == k;
      var r := Lookup(g, k);
      var j :| 0 <= j < |g| && g[j].key == k && g[j].samples == r.value;
      assert i == j;
    }
  }

  /** A click on a card: `setSelectedDate(dailyData)`. */
  function Pick(day: Bucket): (r: Selected)
    ensures r.samples == Some(day.samples)
    ensures CardElevation(Some(r), day.key) == 6
    ensures forall k :: k != day.key ==> CardVariant(Some(r), k) == Outlined
  {
    Selected(day.key, Some(day.samples))
  }

  /**
   * The refresh after a refetch as written: a selection keeps its key and
   * takes `sectionalData[key]`, whether or not that day is still there.
   */
  function RefreshAsWritten(sel: Option<Selected>, days: seq<Bucket>): (r: Option<Selected>)
    ensures r.Some? <==> sel.Some?
    ensures r.Some? ==> r.value.key == sel.value.key
    ensures r.Some? ==> (r.value.samples.None? <==> forall j :: 0 <= j < |days| ==> days[j].key != sel.value.key)
    ensures r.Some? && r.value.samples.Some? ==>
              exists j :: 0 <= j < |days| && days[j].key == sel.value.key && days[j].samples == r.value.samples.value
  {
    match sel
    case None => None
    case Some(s) => Some(Selected(s.key, Lookup(days, s.key)))
  }

  /**
   * The refresh as intended: a selection whose day is still there keeps
   * its key and takes the new samples; one whose day is gone is cleared.
   */
  function Refresh(sel: Option<Selected>, days: seq<Bucket>): (r: Option<Selected>)
    ensures r.Some? ==> r.value.samples.Some?
  {
    match sel
    case None => None
    case Some(s) => if Lookup(days, s.key).Some? then Some(Selected(s.key, Lookup(days, s.key))) else None
  }

  /**
   * After regrouping, the refresh as written keeps the key of a selection
   * and holds exactly the new bucket of that key, or `undefined`.
   */
  lemma RefreshAsWrittenAfterGroup(sel: Option<Selected>, list: seq<Sample>)
    ensures sel.None? ==> RefreshAsWritten(sel, Group(list)) == None
    ensures sel.Some? ==>
              RefreshAsWritten(sel, Group(list)) ==
              Some(Selected(sel.value.key, if sel.value.key in Keys(list) then Some(Members(list, sel.value.key)) else None))
  {
    if sel.Some? {
      LookupGroup(list, sel.value.key);
    }
  }

  /**
   * After regrouping, the refresh keeps a selection whose day is still
   * there, with exactly that day's new samples, and clears any other.
   */
  lemma RefreshAfterGroup(sel: Option<Selected>, list: seq<Sample>)
    ensures Refresh(sel, Group(list)) ==
            if sel.Some? && sel.value.key in Keys(list)
            then Some(Selected(sel.value.key, Some(Members(list, sel.value.key))))
            else None
  {
    if sel.Some? {
      LookupGroup(list, sel.value.key);
    }
  }

  /** The card variants the page uses. */
  datatype Variant = Outlined | Elevation

  /** A card is raised (6) when it is the selected day, else flat (0). */
  function CardElevation(sel: Option<Selected>, key: string): (r: nat)
    ensures r == 0 || r == 6
    ensures r == 6 ==> sel.Some?
  {
    if sel.Some? && sel.value.key == key then 6 else 0
  }

  /** A card is outlined when another day is selected. */
  function CardVariant(sel: Option<Selected>, key: string): (r: Variant)
    ensures r == Outlined ==> sel.Some? && CardElevation(sel, key) == 0
    ensures sel.Some? ==> (r == Elevation <==> CardElevation(sel, key) == 6)
  {
    if sel.Some? && sel.value.key != key then Outlined else Elevation
  }

  /**
   * A raised card is never outlined; with a selection, a card is raised
   * exactly when it is not outlined; with none, every card is flat and
   * not outlined.
   */
  lemma CardStyle(sel: Option<Selected>, key: string)
    ensures CardElevation(sel, key) == 6 <==> sel.Some? && sel.value.key == key
    ensures CardElevation(sel, key) != 6 ==> CardElevation(sel, key) == 0
    ensures CardVariant(sel, key) == Outlined <==> sel.Some? && sel.value.key != key
    ensures sel.Some? ==> (CardElevation(sel, key) == 6 <==> CardVariant(sel, key) == Elevation)
    ensures sel.None? ==> CardElevation(sel, key) == 0 && CardVariant(sel, key) == Elevation
  {
  }

  /**
   * Over buckets with distinct keys at most one card is raised, and when
   * the selected day is among them it is that day's card.
   */
  lemma OneRaisedCard(days: seq<Bucket>, sel: Option<Selected>)
    requires DistinctKeys(days)
    ensures forall i, j ::
              0 <= i < |days| && 0 <= j < |days| &&
              CardElevation(sel, days[i].key) == 6 && CardElevation(sel, days[j].key) == 6
              ==> i == j
    ensures forall i :: 0 <= i < |days| && sel.Some? && days[i].key == sel.value.key ==> CardElevation(sel, days[i].key) == 6
  {
  }
}
