/** The order dates of one month (`generate_dates_for_month`): the month's
    days are cut into as many consecutive segments as there are orders, and one
    day is drawn from each segment, a weekday if one turns up within
    `MaxDayTries` draws. */
module DateSampler {

  import opened Common
  import opened RandomSource
  import opened Calendar

  const MaxDayTries := 100

  /** First day of segment `i` of `n` in a month of `last` days. */
  function SegmentStart(i: int, n: int, last: int): int
    requires n > 0
  {
    1 + i * (last / n)
  }

  /** Last day of segment `i`; the final segment runs to the month's end. */
  function SegmentEnd(i: int, n: int, last: int): int
    requires n > 0
  {
    if i != n - 1 then (i + 1) * (last / n) else last
  }

  /** The segments tile the month: the first starts on day 1, each is
      non-empty, each starts the day after the one before it ends, and the last
      ends on the month's last day. */
  lemma SegmentsTile(n: int, last: int, i: int)
    requires 0 < n <= last && 0 <= i < n
    ensures SegmentStart(0, n, last) == 1 && SegmentEnd(n - 1, n, last) == last
    ensures 1 <= SegmentStart(i, n, last) <= SegmentEnd(i, n, last) <= last
    ensures i + 1 < n ==> SegmentStart(i + 1, n, last) == SegmentEnd(i, n, last) + 1
  {
    var k := last / n;
    assert k >= 1 by {
      assert last == n * k + last % n && last % n < n;
    }
    assert (i + 1) * k == i * k + k;
    MulMono(i + 1, n, k);
    assert n * k <= last;
    MulMono(0, i, k);
  }

  /** Days in strictly increasing order, as `sorted` leaves them. */
  predicate Ascending(days: seq<int>) {
    forall i, j :: 0 <= i < j < |days| ==> days[i] < days[j]
  }

  /** One order's day from the segment `segmentStart..segmentEnd`: up to
      `MaxDayTries` draws, keeping the first that falls on a Monday to Friday
      (`picked`); if none does, one more draw, whatever its weekday. The ghost
      `weekends` holds the draws that fell on a Saturday or Sunday before the
      kept one: fewer than `MaxDayTries` when a weekday was found, all
      `MaxDayTries` otherwise. */
  method PickDay(year: int, month: int, segmentStart: int, segmentEnd: int, g: Rng)
    returns (day: int, picked: bool, ghost weekends: seq<int>, g': Rng)
    requires MinYear <= year <= MaxYear && 1 <= month <= 12
    requires 1 <= segmentStart <= segmentEnd <= DaysInMonth(year, month)
    ensures segmentStart <= day <= segmentEnd
    ensures picked ==> Weekday(year, month, day) < 5 && |weekends| < MaxDayTries
    ensures !picked ==> |weekends| == MaxDayTries
    ensures forall j :: 0 <= j < |weekends| ==> WeekendDraw(year, month, segmentStart, segmentEnd, weekends[j])
  {
    day, picked, weekends, g' := segmentStart, false, [], g;
    var tries := 0;
    while tries < MaxDayTries && !picked
      invariant 0 <= tries <= MaxDayTries
      invariant segmentStart <= day <= segmentEnd
      invariant picked ==> Weekday(year, month, day) < 5 && |weekends| == tries - 1
      invariant !picked ==> |weekends| == tries
      invariant forall j :: 0 <= j < |weekends| ==> WeekendDraw(year, month, segmentStart, segmentEnd, weekends[j])
    {
      day, g' := RandInt(g', segmentStart, segmentEnd);
      if Weekday(year, month, day) < 5 {
        picked := true;
      } else {
        weekends := weekends + [day];
      }
      tries := tries + 1;
    }
    if !picked {
      day, g' := RandInt(g', segmentStart, segmentEnd);
    }
  }

  /** A draw from the segment that fell on a Saturday or Sunday. */
  predicate WeekendDraw(year: int, month: int, segmentStart: int, segmentEnd: int, day: int)
    requires MinYear <= year <= MaxYear && 1 <= month <= 12
  {
    segmentStart <= day <= segmentEnd && 1 <= day <= DaysInMonth(year, month) && Weekday(year, month, day) >= 5
  }

  /** The dates of a month with `n` orders. Day `i` lies in segment `i`, so the
      days are in order and within the month, and the list is the one
      `sorted(dates)` returns. The ghost `onWeekday[i]` says the day was taken
      inside the draw loop, and then it is a Monday to Friday; otherwise all
      `MaxDayTries` draws for it, kept in `weekends[i]`, fell on a weekend. */
  method GenerateDatesForMonth(year: int, month: int, n: int, g: Rng)
    returns (dates: seq<int>, ghost onWeekday: seq<bool>, ghost weekends: seq<seq<int>>, g': Rng)
    requires MinYear <= year <= MaxYear && 1 <= month <= 12
    requires 0 <= n <= DaysInMonth(year, month)
    ensures |dates| == n && |onWeekday| == n && |weekends| == n
    ensures forall i :: 0 <= i < n ==>
      SegmentStart(i, n, DaysInMonth(year, month)) <= dates[i] <= SegmentEnd(i, n, DaysInMonth(year, month))
    ensures forall i :: 0 <= i < n ==> 1 <= dates[i] <= DaysInMonth(year, month)
    ensures Ascending(dates)
    ensures forall i :: 0 <= i < n ==> DayDrawn(year, month, n, i, dates[i], onWeekday[i], weekends[i])
  {
    var last := DaysInMonth(year, month);
    dates, onWeekday, weekends, g' := [], [], [], g;
    var i := 0;
    while i < n
      invariant 0 <= i <= n && |dates| == i && |onWeekday| == i && |weekends| == i
      invariant forall j :: 0 <= j < i ==>
        SegmentStart(j, n, last) <= dates[j] <= SegmentEnd(j, n, last)
      invariant forall j :: 0 <= j < i ==> 1 <= dates[j] <= last
      invariant forall j :: 0 <= j < i ==> DayDrawn(year, month, n, j, dates[j], onWeekday[j], weekends[j])
      invariant Ascending(dates)
      invariant 0 < i < n ==> dates[i - 1] < SegmentStart(i, n, last)
    {
      SegmentsTile(n, last, i);
      var segmentStart := SegmentStart(i, n, last);
      var segmentEnd := SegmentEnd(i, n, last);
      var day, picked;
      ghost var misses;
      day, picked, misses, g' := PickDay(year, month, segmentStart, segmentEnd, g');
      dates := dates + [day];
      onWeekday := onWeekday + [picked];
      weekends := weekends + [misses];
      i := i + 1;
    }
  }

  /** How order `i`'s day was drawn: a weekday after fewer than `MaxDayTries`
      weekend draws, or any day after `MaxDayTries` weekend draws, every one of
      them from the order's segment. */
  predicate DayDrawn(year: int, month: int, n: int, i: int, day: int, onWeekday: bool, weekends: seq<int>)
    requires MinYear <= year <= MaxYear && 1 <= month <= 12 && 0 <= i < n
  {
    && (onWeekday ==> 1 <= day <= DaysInMonth(year, month) && Weekday(year, month, day) < 5 && |weekends| < MaxDayTries)
    && (!onWeekday ==> |weekends| == MaxDayTries)
    && forall j :: 0 <= j < |weekends| ==>
         WeekendDraw(year, month, SegmentStart(i, n, DaysInMonth(year, month)),
                     SegmentEnd(i, n, DaysInMonth(year, month)), weekends[j])
  }

  /** February 2024 with two orders: days 1 to 14 and 15 to 29. */
  lemma LeapFebruarySegments()
    ensures DaysInMonth(2024, 2) == 29
    ensures SegmentStart(0, 2, 29) == 1 && SegmentEnd(0, 2, 29) == 14
    ensures SegmentStart(1, 2, 29) == 15 && SegmentEnd(1, 2, 29) == 29
  {
  }
}
