/**
 * Axis labels for the dashboard's charts: a fixed 30-slot strip of markers
 * for a month of daily values, and the weekday names of the last `count`
 * days ending today. `new Date().getDay()` is the parameter `today`
 * (0 is Sunday, 6 is Saturday).
 */
module DateLabels {
  import opened Js

  const MonthAgo := "۱ ماه قبل"
  const ThreeWeeksAgo := "۳ هفته قبل"
  const TwoWeeksAgo := "۲ هفته قبل"
  const OneWeekAgo := "۱ هفته قبل"
  const Now := "اکنون"

  /** The 30 labels of a month strip: five markers, every other slot empty. */
  method PastMonthLabels() returns (labels: seq<string>)
    ensures |labels| == 30
    ensures labels[0] == MonthAgo && labels[7] == ThreeWeeksAgo && labels[14] == TwoWeeksAgo
    ensures labels[21] == OneWeekAgo && labels[29] == Now
    ensures forall k :: 0 <= k < 30 && k != 0 && k != 7 && k != 14 && k != 21 && k != 29 ==> labels[k] == ""
  {
    var a := new string[30](_ => "");
    a[0] := MonthAgo;
    a[7] := ThreeWeeksAgo;
    a[14] := TwoWeeksAgo;
    a[21] := OneWeekAgo;
    a[29] := Now;
    labels := a[..];
  }

  /** Weekday names indexed by `getDay()`, Sunday first. */
  const Days: seq<string> := ["یکشنبه", "دوشنبه", "سه‌شنبه", "چهارشنبه", "پنج‌شنبه", "جمعه", "شنبه"]

  /**
   * `days[(j + 7) % 7]` with JavaScript's remainder: `None` stands for the
   * `undefined` that a negative index yields.
   */
  function DayAt(j: int): Option<string>
  {
    var idx := Rem(j + 7, 7);
    if idx >= 0 then Some(Days[idx]) else None
  }

  /** Label `k` of `count` labels ending today: the day `count - 1 - k` days before today. */
  function DayLabel(today: int, count: int, k: int): Option<string>
  {
    DayAt(today - (count - 1 - k))
  }

  /** Pushes the label of `i` days ago, for `i` from `count - 1` down to 0. */
  method PastDaysLabels(count: int, today: int) returns (labels: seq<Option<string>>)
    requires 0 <= today <= 6
    ensures |labels| == Max(count, 0)
    ensures forall k :: 0 <= k < |labels| ==> labels[k] == DayLabel(today, count, k)
    ensures count >= 1 ==> labels[count - 1] == Some(Days[today])
  {
    labels := [];
    var i := count - 1;
    while i >= 0
      invariant i <= count - 1 && (count >= 0 ==> -1 <= i) && (count < 0 ==> i == count - 1)
      invariant |labels| == count - 1 - i
      invariant forall k :: 0 <= k < |labels| ==> labels[k] == DayLabel(today, count, k)
    {
      var idx := Rem(today - i + 7, 7);
      labels := labels + [if idx >= 0 then Some(Days[idx]) else None];
      i := i - 1;
    }
  }

  /** Up to eight labels ending today are all defined, and consecutive ones are consecutive weekdays. */
  lemma ShortRunsAreConsecutiveDays(count: int, today: int, k: int)
    requires 0 <= today <= 6 && count <= 8
    requires 0 <= k < count - 1
    ensures var w := (today - (count - 1 - k) + 7) % 7;
            DayLabel(today, count, k) == Some(Days[w]) &&
            DayLabel(today, count, k + 1) == Some(Days[(w + 1) % 7])
  {
  }

  /**
   * Nine labels or more reach back past a week: with `count == today + 9` the
   * oldest index is `-1 % 7 == -1` and its label is undefined.
   */
  lemma LongRunHasUndefinedLabel(today: int)
    requires 0 <= today <= 6
    ensures DayLabel(today, today + 9, 0) == None
  {
  }

  /** Some label of a seven-day strip ending `today` names weekday `d`. */
  predicate WeekShows(today: int, d: int)
    requires 0 <= d < 7
  {
    exists k :: 0 <= k < 7 && DayLabel(today, 7, k) == Some(Days[d])
  }

  /** With seven labels, as the charts ask for, every weekday appears exactly once. */
  lemma WeekShowsEachDayOnce(today: int)
    requires 0 <= today <= 6
    ensures forall d :: 0 <= d < 7 ==> WeekShows(today, d)
    ensures forall k, l :: 0 <= k < l < 7 ==> DayLabel(today, 7, k) != DayLabel(today, 7, l)
  {
    forall d | 0 <= d < 7
      ensures WeekShows(today, d)
    {
      var k := if d >= today + 1 then d - today - 1 else d - today + 6;
      assert DayLabel(today, 7, k) == Some(Days[d]);
    }
    DaysDistinct();
  }

  lemma DaysDistinct()
    ensures forall a, b :: 0 <= a < b < 7 ==> Days[a] != Days[b]
  {
  }
}
