/**
 * The dashboard chart's time-range filter (`chart-area-interactive.tsx`): a row is shown when
 * its date is no earlier than the fixed reference day 2024-06-30 minus 90, 30 or 7 days.
 *
 * Dates are day numbers counted from 1970-01-01 in the proleptic Gregorian calendar, the
 * value a `Date` built from a `YYYY-MM-DD` string has, divided into whole days.
 */
module ChartAreaInteractive {

  /** The day number of the date `year`-`month`-`day`. */
  function DayNumber(year: int, month: int, day: int): int
    requires 1 <= month <= 12
  {
    var y := if month <= 2 then year - 1 else year;
    var era := y / 400;
    var yearOfEra := y - era * 400;
    var dayOfYear := (153 * (if month > 2 then month - 3 else month + 9) + 2) / 5 + day - 1;
    var dayOfEra := yearOfEra * 365 + yearOfEra / 4 - yearOfEra / 100 + dayOfYear;
    era * 146097 + dayOfEra - 719468
  }

  const ReferenceDay: int := DayNumber(2024, 6, 30)

  /** One data point of the chart. */
  datatype Row = Row(date: int, emotionalIntelligence: int, skillMastery: int)

  /** The initial range, switched to the last week on a mobile device. */
  function InitialRange(isMobile: bool): string {
    if isMobile then "7d" else "90d"
  }

  /** "30d" is 30 days, "7d" is 7 days, anything else 90 days. */
  function DaysToSubtract(timeRange: string): (r: nat)
    ensures timeRange == "30d" ==> r == 30
    ensures timeRange == "7d" ==> r == 7
    ensures timeRange != "30d" && timeRange != "7d" ==> r == 90
  {
    if timeRange == "30d" then 30 else if timeRange == "7d" then 7 else 90
  }

  /**
   * The chart opens on the last 90 days, and on the last week on a mobile device; either way
   * the window ends on the reference day and keeps exactly the rows from its first day on.
   */
  lemma InitialWindow(isMobile: bool, data: seq<Row>)
    ensures DaysToSubtract(InitialRange(isMobile)) == (if isMobile then 7 else 90)
    ensures StartDay(InitialRange(isMobile)) == ReferenceDay - (if isMobile then 7 else 90)
    ensures FilteredData(data, InitialRange(isMobile)) == FilteredData(data, if isMobile then "7d" else "90d")
  {
  }

  /** The first day shown. */
  function StartDay(timeRange: string): int {
    ReferenceDay - DaysToSubtract(timeRange)
  }

  predicate Shown(row: Row, timeRange: string) {
    row.date >= StartDay(timeRange)
  }

  /** `chartData.filter(...)`. */
  function FilteredData(data: seq<Row>, timeRange: string): (r: seq<Row>)
    ensures |r| <= |data|
    ensures forall x | x in r :: x in data && Shown(x, timeRange)
  {
    if data == [] then []
    else (if Shown(data[0], timeRange) then [data[0]] else []) + FilteredData(data[1..], timeRange)
  }

  /** `xs` is `ys` with some elements left out, the rest in their order. */
  predicate IsSubsequence(xs: seq<Row>, ys: seq<Row>)
    decreases |ys|
  {
    if xs == [] then true
    else if ys == [] then false
    else if xs[0] == ys[0] then IsSubsequence(xs[1..], ys[1..])
    else IsSubsequence(xs, ys[1..])
  }

  /** Every row of the data that lies in the window is shown. */
  lemma {:induction false} FilteredComplete(data: seq<Row>, timeRange: string)
    ensures forall x | x in data && Shown(x, timeRange) :: x in FilteredData(data, timeRange)
  {
    if data != [] {
      FilteredComplete(data[1..], timeRange);
      assert forall x | x in data :: x == data[0] || x in data[1..];
    }
  }

  /** The shown rows keep the order of the data. */
  lemma {:induction false} FilteredIsSubsequence(data: seq<Row>, timeRange: string)
    ensures IsSubsequence(FilteredData(data, timeRange), data)
  {
    if data != [] {
      FilteredIsSubsequence(data[1..], timeRange);
      var rest := FilteredData(data[1..], timeRange);
      if Shown(data[0], timeRange) {
        assert FilteredData(data, timeRange) == [data[0]] + rest;
        assert ([data[0]] + rest)[1..] == rest;
      } else {
        assert FilteredData(data, timeRange) == rest;
        if rest != [] {
          SubsequenceDrop(rest, data);
        }
      }
    }
  }

  /** A subsequence of the tail is a subsequence of the whole. */
  lemma SubsequenceDrop(xs: seq<Row>, ys: seq<Row>)
    requires ys != [] && IsSubsequence(xs, ys[1..])
    ensures IsSubsequence(xs, ys)
    decreases |xs| + |ys|
  {
    if xs != [] && xs[0] == ys[0] {
      SubsequenceTail(xs, ys[1..]);
    }
  }

  /** Leaving out the first element keeps a subsequence one. */
  lemma SubsequenceTail(xs: seq<Row>, ys: seq<Row>)
    requires xs != [] && IsSubsequence(xs, ys)
    ensures IsSubsequence(xs[1..], ys)
    decreases |xs| + |ys|
  {
    if xs[1..] != [] {
      if xs[0] == ys[0] {
        SubsequenceDrop(xs[1..], ys);
      } else {
        SubsequenceTail(xs, ys[1..]);
        SubsequenceDrop(xs[1..], ys);
      }
    }
  }

  /** Filtering by a window inside another gives the same as filtering the wider window's rows. */
  lemma {:induction false} FilterNarrower(data: seq<Row>, wide: string, narrow: string)
    requires DaysToSubtract(narrow) <= DaysToSubtract(wide)
    ensures FilteredData(FilteredData(data, wide), narrow) == FilteredData(data, narrow)
  {
    if data != [] {
      FilterNarrower(data[1..], wide, narrow);
      var rest := FilteredData(data[1..], wide);
      if Shown(data[0], wide) {
        assert FilteredData(data, wide) == [data[0]] + rest;
        assert ([data[0]] + rest)[1..] == rest;
      } else {
        assert FilteredData(data, wide) == rest;
        assert FilteredData(data, narrow) == FilteredData(data[1..], narrow);
      }
    }
  }

  /** The windows are nested: the last 7 days are among the last 30, those among the last 90. */
  lemma NestedWindows(data: seq<Row>)
    ensures IsSubsequence(FilteredData(data, "7d"), FilteredData(data, "30d"))
    ensures IsSubsequence(FilteredData(data, "30d"), FilteredData(data, "90d"))
  {
    FilterNarrower(data, "30d", "7d");
    FilterNarrower(data, "90d", "30d");
    FilteredIsSubsequence(FilteredData(data, "30d"), "7d");
    FilteredIsSubsequence(FilteredData(data, "90d"), "30d");
  }

  /** The reference day is shown in every range, and a row before the 90-day window in none. */
  lemma WindowEnds(row: Row, timeRange: string)
    ensures row.date == ReferenceDay ==> Shown(row, timeRange)
    ensures row.date < ReferenceDay - 90 ==> !Shown(row, timeRange)
  {
  }

  /** The 7-day window starts on 2024-06-23, the 30-day one on 2024-05-31, the 90-day one on 2024-04-01. */
  lemma StartDays()
    ensures StartDay("7d") == DayNumber(2024, 6, 23)
    ensures StartDay("30d") == DayNumber(2024, 5, 31)
    ensures StartDay("90d") == DayNumber(2024, 4, 1)
  {
  }
}
