/**
 * Grouping the flat forecast list into day buckets (the `forEach` over
 * `data.list` that fills `sectionalData`). A JavaScript object whose keys
 * are not integer-like keeps them in first-insertion order, so the
 * dictionary is a map together with the order in which its keys were
 * created, and `Object.entries` is that order read back.
 */
module Grouping {
  import opened Wrappers
  import opened Forecast

  /** The last element of a non-empty list, and everything before it. */
  function Last<T>(s: seq<T>): T
    requires s != []
  {
    s[|s| - 1]
  }

  function Init<T>(s: seq<T>): seq<T>
    requires s != []
  {
    s[..|s| - 1]
  }

  /** The day key of a sample. */
  function KeyOf(e: Sample): string
  {
    DayKey(e.dtTxt)
  }

  /** The day keys of `list`, each once, in order of first occurrence. */
  function Keys(list: seq<Sample>): seq<string>
  {
    if list == [] then []
    else
      var ks := Keys(Init(list));
      if KeyOf(Last(list)) in ks then ks else ks + [KeyOf(Last(list))]
  }

  /** The samples of `list` whose day key is `k`, in input order. */
  function Members(list: seq<Sample>, k: string): seq<Sample>
  {
    if list == [] then []
    else
      var rest := Members(Init(list), k);
      if KeyOf(Last(list)) == k then rest + [Last(list)] else rest
  }

  /** The positions in `list` of the samples whose day key is `k`. */
  function Positions(list: seq<Sample>, k: string): (ps: seq<nat>)
    ensures forall i :: 0 <= i < |ps| ==> ps[i] < |list| && KeyOf(list[ps[i]]) == k
    ensures forall i, j :: 0 <= i < j < |ps| ==> ps[i] < ps[j]
  {
    if list == [] then []
    else
      var rest := Positions(Init(list), k);
      if KeyOf(Last(list)) == k then rest + [|list| - 1] else rest
  }

  /** The buckets for the keys `ks`, each holding its members of `list`. */
  function BucketsFor(list: seq<Sample>, ks: seq<string>): seq<Bucket>
  {
    seq(|ks|, i requires 0 <= i < |ks| => Bucket(ks[i], Members(list, ks[i])))
  }

  /** The day buckets of `list`, in the order `Object.entries` lists them. */
  function Group(list: seq<Sample>): seq<Bucket>
  {
    BucketsFor(list, Keys(list))
  }

  /** The number of samples held by `days`. */
  function TotalSamples(days: seq<Bucket>): nat
  {
    if days == [] then 0 else TotalSamples(Init(days)) + |Last(days).samples|
  }

  predicate DistinctKeys(days: seq<Bucket>)
  {
    forall i, j :: 0 <= i < j < |days| ==> days[i].key != days[j].key
  }

  /**
   * Runs the loop: a sample whose key is already in the dictionary is
   * pushed onto that bucket, any other sample creates a bucket holding
   * just itself. A response without a `list` leaves the dictionary empty.
   */
  method GroupByDay(response: Option<seq<Sample>>) returns (days: seq<Bucket>)
    ensures response.None? ==> days == []
    ensures response.Some? ==> days == Group(response.value)
  {
    var order: seq<string> := [];
    var sectional: map<string, seq<Sample>> := map[];
    if response.Some? {
      var list := response.value;
      for i := 0 to |list|
        invariant order == Keys(list[..i])
        invariant forall k :: k in sectional <==> k in order
        invariant forall k :: k in sectional ==> sectional[k] == Members(list[..i], k)
      {
        var e := list[i];
        var k := DayKey(e.dtTxt);
        assert Init(list[..i + 1]) == list[..i] && Last(list[..i + 1]) == e;
        if k in sectional {
          sectional := sectional[k := sectional[k] + [e]];
        } else {
          MembersOfAbsentKey(list[..i], k);
          sectional := sectional[k := [e]];
          order := order + [k];
        }
      }
      assert list[..|list|] == list;
    }
    days := seq(|order|, j requires 0 <= j < |order| => Bucket(order[j], sectional[order[j]]));
  }

  /** A key that never occurs has no members. */
  lemma {:induction false} MembersOfAbsentKey(list: seq<Sample>, k: string)
    requires k !in Keys(list)
    ensures Members(list, k) == []
  {
    if list != [] {
      MembersOfAbsentKey(Init(list), k);
    }
  }

  /** The keys are exactly the day keys that occur in the input. */
  lemma {:induction false} KeysAreDayKeys(list: seq<Sample>, k: string)
    ensures k in Keys(list) <==> exists p :: 0 <= p < |list| && KeyOf(list[p]) == k
  {
    if list != [] {
      KeysAreDayKeys(Init(list), k);
      if k in Keys(list) && k !in Keys(Init(list)) {
        assert KeyOf(list[|list| - 1]) == k;
      }
      if exists p :: 0 <= p < |list| && KeyOf(list[p]) == k {
        var p :| 0 <= p < |list| && KeyOf(list[p]) == k;
        if p < |list| - 1 {
          assert Init(list)[p] == list[p];
        }
      }
    }
  }

  /** No key is listed twice. */
  lemma {:induction false} KeysDistinct(list: seq<Sample>)
    ensures forall i, j :: 0 <= i < j < |Keys(list)| ==> Keys(list)[i] != Keys(list)[j]
  {
    if list != [] {
      KeysDistinct(Init(list));
    }
  }

  /** Hence the buckets have distinct keys. */
  lemma GroupKeysDistinct(list: seq<Sample>)
    ensures DistinctKeys(Group(list))
  {
    KeysDistinct(list);
  }

  /**
   * The members of `k` are the samples at the positions of `k`, and those
   * positions are exactly the ones whose sample has key `k`: a bucket is
   * its day's samples, all of them, in input order.
   */
  lemma {:induction false} MembersArePositions(list: seq<Sample>, k: string)
    ensures |Members(list, k)| == |Positions(list, k)|
    ensures forall i :: 0 <= i < |Positions(list, k)| ==> Members(list, k)[i] == list[Positions(list, k)[i]]
    ensures forall p :: 0 <= p < |list| ==> (KeyOf(list[p]) == k <==> p in Positions(list, k))
  {
    if list != [] {
      MembersArePositions(Init(list), k);
      var ps := Positions(list, k);
      forall p | 0 <= p < |list| - 1
        ensures KeyOf(list[p]) == k <==> p in ps
      {
        assert Init(list)[p] == list[p];
      }
    }
  }

  /** Every member of a bucket carries the bucket's key. */
  lemma MembersHaveKey(list: seq<Sample>, k: string)
    ensures forall e :: e in Members(list, k) ==> KeyOf(e) == k
  {
    MembersArePositions(list, k);
    forall e | e in Members(list, k) ensures KeyOf(e) == k {
      var i :| 0 <= i < |Members(list, k)| && Members(list, k)[i] == e;
    }
  }

  /**
   * Each input sample lies in the bucket of its own day key, that bucket
   * is the only one with that key, and no bucket of another key holds it.
   */
  lemma EachSampleInOneBucket(list: seq<Sample>, p: nat)
    requires p < |list|
    ensures exists j :: 0 <= j < |Group(list)| && Group(list)[j].key == KeyOf(list[p])
                         && list[p] in Group(list)[j].samples
    ensures forall j, j' ::
              0 <= j < |Group(list)| && 0 <= j' < |Group(list)| &&
              Group(list)[j].key == KeyOf(list[p]) && Group(list)[j'].key == KeyOf(list[p])
              ==> j == j'
    ensures forall j :: 0 <= j < |Group(list)| && list[p] in Group(list)[j].samples ==> Group(list)[j].key == KeyOf(list[p])
  {
    var g, k := Group(list), KeyOf(list[p]);
    KeysAreDayKeys(list, k);
    KeysDistinct(list);
    var j :| 0 <= j < |Keys(list)| && Keys(list)[j] == k;
    MembersArePositions(list, k);
    var i :| 0 <= i < |Positions(list, k)| && Positions(list, k)[i] == p;
    assert g[j].samples[i] == list[p];
    forall j' | 0 <= j' < |g| && list[p] in g[j'].samples
      ensures g[j'].key == k
    {
      MembersHaveKey(list, g[j'].key);
    }
  }

  /** Sum of the member counts of the keys `ks`. */
  function MemberCount(list: seq<Sample>, ks: seq<string>): nat
  {
    if ks == [] then 0 else MemberCount(list, Init(ks)) + |Members(list, Last(ks))|
  }

  lemma {:induction false} TotalIsMemberCount(list: seq<Sample>, ks: seq<string>)
    ensures TotalSamples(BucketsFor(list, ks)) == MemberCount(list, ks)
  {
    if ks != [] {
      assert Init(BucketsFor(list, ks)) == BucketsFor(list, Init(ks));
      TotalIsMemberCount(list, Init(ks));
    }
  }

  /** Appending a sample adds one to the count of its key, if listed once. */
  lemma {:induction false} MemberCountAppend(list: seq<Sample>, e: Sample, ks: seq<string>)
    requires forall i, j :: 0 <= i < j < |ks| ==> ks[i] != ks[j]
    ensures MemberCount(list + [e], ks) == MemberCount(list, ks) + (if KeyOf(e) in ks then 1 else 0)
  {
    if ks != [] {
      assert Init(list + [e]) == list && Last(list + [e]) == e;
      MemberCountAppend(list, e, Init(ks));
      assert KeyOf(e) in ks <==> KeyOf(e) in Init(ks) || KeyOf(e) == Last(ks);
    }
  }

  /** The buckets hold as many samples as the input has. */
  lemma {:induction false} GroupCoversInput(list: seq<Sample>)
    ensures TotalSamples(Group(list)) == |list|
  {
    TotalIsMemberCount(list, Keys(list));
    if list != [] {
      var init, e := Init(list), Last(list);
      assert list == init + [e];
      GroupCoversInput(init);
      TotalIsMemberCount(init, Keys(init));
      KeysDistinct(init);
      MemberCountAppend(init, e, Keys(init));
      if KeyOf(e) !in Keys(init) {
        assert Init(Keys(list)) == Keys(init);
        MembersOfAbsentKey(init, KeyOf(e));
      }
    }
  }

  /** The position of the first sample of `list` whose day key is `k`. */
  function FirstIndex(list: seq<Sample>, k: string): (p: nat)
    requires k in Keys(list)
    ensures p < |list| && KeyOf(list[p]) == k
    ensures forall q :: 0 <= q < p ==> KeyOf(list[q]) != k
  {
    if k in Keys(Init(list)) then
      FirstIndex(Init(list), k)
    else
      KeysAreDayKeys(Init(list), k);
      |list| - 1
  }

  /** The keys are listed in the order of their first occurrence. */
  lemma {:induction false} KeysInFirstOccurrenceOrder(list: seq<Sample>, i: nat, j: nat)
    requires i < j < |Keys(list)|
    ensures FirstIndex(list, Keys(list)[i]) < FirstIndex(list, Keys(list)[j])
  {
    var init := Init(list);
    var ks := Keys(init);
    if j < |ks| {
      KeysInFirstOccurrenceOrder(init, i, j);
    }
  }

  /** A bucket starts with the first sample of its day. */
  lemma BucketStartsWithFirstSample(list: seq<Sample>, k: string)
    requires k in Keys(list)
    ensures Members(list, k) != [] && Members(list, k)[0] == list[FirstIndex(list, k)]
  {
    MembersArePositions(list, k);
    var p := FirstIndex(list, k);
    var ps := Positions(list, k);
    assert p in ps;
    var i :| 0 <= i < |ps| && ps[i] == p;
    assert KeyOf(list[ps[0]]) == k;
  }
}
