/**
 * The page cursor over the ordered day buckets: which days get a card,
 * and when the back and forward arrows can be clicked.
 */
module Paging {

  /** The cursor's initial value, `useState(1)`. */
  const FirstPage: int := 1

  /** Day `i` gets a card when `page - 1 <= i <= page + 1`. */
  predicate IsVisible(i: int, page: int)
  {
    page - 1 <= i <= page + 1
  }

  /** The back arrow is hidden when `page <= 1`. */
  predicate CanGoBack(page: int)
  {
    !(page <= 1)
  }

  /** The forward arrow is hidden unless `page < n - 2`, `n` days shown. */
  predicate CanGoForward(page: int, n: nat)
  {
    page < n - 2
  }

  /** A click on one of the two arrows. */
  datatype Click = Back | Forward

  /** The last page the arrows can reach: `max(1, n - 2)`. */
  function LastPage(n: nat): int
  {
    if n <= 3 then 1 else n - 2
  }

  predicate InRange(page: int, n: nat)
  {
    1 <= page <= LastPage(n)
  }

  /**
   * One click. A hidden arrow (CSS `visibility: hidden`) takes no click,
   * so the cursor only moves by one in the direction of a visible arrow.
   */
  function Step(page: int, n: nat, c: Click): (r: int)
    ensures c == Back ==> r == (if page > 1 then page - 1 else page)
    ensures c == Forward ==> r == (if page < n - 2 then page + 1 else page)
    ensures page >= 1 ==> r >= 1
    ensures InRange(page, n) ==> InRange(r, n)
  {
    match c
    case Back => if CanGoBack(page) then page - 1 else page
    case Forward => if CanGoForward(page, n) then page + 1 else page
  }

  /** The cursor after a series of clicks with `n` days loaded. */
  function Run(page: int, n: nat, clicks: seq<Click>): int
    decreases clicks
  {
    if clicks == [] then page else Run(Step(page, n, clicks[0]), n, clicks[1..])
  }

  /** Clicks keep a cursor that is in range in range. */
  lemma {:induction false} RunKeepsRange(page: int, n: nat, clicks: seq<Click>)
    requires InRange(page, n)
    ensures InRange(Run(page, n, clicks), n)
    decreases clicks
  {
    if clicks != [] {
      RunKeepsRange(Step(page, n, clicks[0]), n, clicks[1..]);
    }
  }

  /** From the first page, the cursor stays within `1 .. max(1, n - 2)`. */
  lemma CursorInRange(n: nat, clicks: seq<Click>)
    ensures 1 <= Run(FirstPage, n, clicks) <= LastPage(n)
  {
    RunKeepsRange(FirstPage, n, clicks);
  }

  /** With three days or fewer, both arrows stay hidden whatever is clicked. */
  lemma FewDaysNoControls(n: nat, clicks: seq<Click>)
    requires n <= 3
    ensures Run(FirstPage, n, clicks) == FirstPage
    ensures !CanGoBack(Run(FirstPage, n, clicks)) && !CanGoForward(Run(FirstPage, n, clicks), n)
  {
    CursorInRange(n, clicks);
  }

  /**
   * The days that get a card: the `map` over all days renders a card for
   * a visible index and nothing for the others.
   */
  function Shown<T>(days: seq<T>, page: int): (r: seq<T>)
    ensures |r| <= |days|
    ensures forall x :: x in r ==> exists i :: 0 <= i < |days| && IsVisible(i, page) && days[i] == x
  {
    if days == [] then []
    else
      var i := |days| - 1;
      Shown(days[..i], page) + (if IsVisible(i, page) then [days[i]] else [])
  }

  /** Where the visible window starts and ends within `n` days. */
  function WindowStart(page: int, n: nat): nat
  {
    if page - 1 < 0 then 0 else if page - 1 > n then n else page - 1
  }

  function WindowEnd(page: int, n: nat): nat
  {
    var s := WindowStart(page, n);
    if page + 2 < s then s else if page + 2 > n then n else page + 2
  }

  /**
   * The shown days are the consecutive slice `[page - 1, page + 1]` cut
   * to the days that exist: at most three, in bucket order.
   */
  lemma {:induction false} ShownIsWindow<T>(days: seq<T>, page: int)
    ensures WindowStart(page, |days|) <= WindowEnd(page, |days|) <= |days|
    ensures Shown(days, page) == days[WindowStart(page, |days|)..WindowEnd(page, |days|)]
    ensures forall i :: 0 <= i < |days| ==>
              (IsVisible(i, page) <==> WindowStart(page, |days|) <= i < WindowEnd(page, |days|))
    ensures |Shown(days, page)| <= 3
  {
    if days != [] {
      var n := |days|;
      var init := days[..n - 1];
      ShownIsWindow(init, page);
      var s, e := WindowStart(page, n), WindowEnd(page, n);
      var s', e' := WindowStart(page, n - 1), WindowEnd(page, n - 1);
      if IsVisible(n - 1, page) {
        assert s == s' && e == n && e' == n - 1;
        assert init[s'..e'] + [days[n - 1]] == days[s..e];
      } else if n - 1 < page - 1 {
        assert s == e == n && s' == e' == n - 1;
      } else {
        assert s == s' && e == e';
        assert init[s'..e'] == days[s..e];
      }
    }
  }
}
