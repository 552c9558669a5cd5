/**
 * The forecast data the weather page receives, and the two ways it cuts a
 * sample's `dt_txt` timestamp ("YYYY-MM-DD HH:mm:ss") into pieces:
 * `dt_txt.split(' ')[0]` for the day key and
 * `dt_txt.split(' ')[1].substring(0, 5)` for the chart's time label.
 */
module Forecast {
  import opened Wrappers

  /** One entry of a sample's `weather` array. */
  datatype Condition = Condition(main: string, description: string, icon: string)

  /** One 3-hour forecast sample: `dt_txt`, `main.temp` and `weather`. */
  datatype Sample = Sample(dtTxt: string, temp: real, weather: seq<Condition>)

  /** One day of the forecast: its date key and its samples. */
  datatype Bucket = Bucket(key: string, samples: seq<Sample>)

  /**
   * The first field of `s.split(' ')`: everything before the first space,
   * or all of `s` when it has none.
   */
  function FirstField(s: string): (r: string)
    ensures r <= s
    ensures ' ' !in r
    ensures |r| < |s| ==> s[|r|] == ' '
  {
    if s == [] || s[0] == ' ' then [] else [s[0]] + FirstField(s[1..])
  }

  /** The day key of a timestamp: `dt_txt.split(' ')[0]`. */
  function DayKey(ts: string): string
  {
    FirstField(ts)
  }

  /** `ts.split(' ')` has a second field exactly when `ts` contains a space. */
  predicate HasTime(ts: string)
  {
    ' ' in ts
  }

  /**
   * The chart label of a timestamp: `dt_txt.split(' ')[1].substring(0, 5)`.
   * Without a space the second field is `undefined` and the call throws,
   * which is `None` here.
   */
  function TimeLabel(ts: string): (r: Option<string>)
    ensures r.Some? <==> HasTime(ts)
    ensures r.Some? ==> |r.value| <= 5 && ' ' !in r.value
    ensures r.Some? ==> r.value <= ts[|DayKey(ts)| + 1..]
    ensures r.Some? ==> |r.value| == 5 || |DayKey(ts)| + 1 + |r.value| == |ts|
                        || ts[|DayKey(ts)| + 1 + |r.value|] == ' '
  {
    if !HasTime(ts) then None
    else
      var second := FirstField(ts[|DayKey(ts)| + 1..]);
      Some(if |second| <= 5 then second else second[..5])
  }

  /**
   * For a timestamp made of a date and a time separated by one space,
   * the day key is the date and the label is the first five characters
   * of the time ("HH:mm" of "HH:mm:ss").
   */
  lemma WellFormedTimestamp(date: string, time: string)
    requires ' ' !in date && ' ' !in time
    ensures DayKey(date + " " + time) == date
    ensures TimeLabel(date + " " + time) == Some(if |time| <= 5 then time else time[..5])
  {
    var ts := date + " " + time;
    assert ts == date + (" " + time);
    FirstFieldOfJoin(date, " " + time);
    assert ts[|date| + 1..] == time;
    FirstFieldOfJoin(time, "");
    assert time + "" == time;
  }

  /** `FirstField` stops at the first space, whatever follows it. */
  lemma {:induction false} FirstFieldOfJoin(head: string, tail: string)
    requires ' ' !in head
    requires tail == [] || tail[0] == ' '
    ensures FirstField(head + tail) == head
  {
    if head != [] {
      assert (head + tail)[1..] == head[1..] + tail;
      FirstFieldOfJoin(head[1..], tail);
    }
  }
}
