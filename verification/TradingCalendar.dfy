/** The exchange calendar for an arbitrary finite set of holidays.

    Days are proleptic Gregorian ordinals: day 1 is Monday, 1 January of year 1. Each search loop is a method
    proved against a recursive function; the lemmas say which day that function finds and how far away it
    can be. */
module TradingCalendar {

  const MONDAY := 0
  const SATURDAY := 5
  const SUNDAY := 6

  function Weekday(d: int): (w: nat)
    ensures w < 7
  {
    (d + 6) % 7
  }

  lemma WeekdayAdvances(d: int)
    ensures Weekday(d + 1) == if Weekday(d) == SUNDAY then MONDAY else Weekday(d) + 1
  {
  }

  predicate IsTradingDay(holidays: set<int>, d: int) {
    Weekday(d) < SATURDAY && d !in holidays
  }

  // ---------------------------------------------------------------- searching

  // Nonnegative weekday distances bound the weekend part of a search.
  function DaysToMonday(d: int): nat { if Weekday(d) == MONDAY then 0 else 7 - Weekday(d) }

  function DaysSinceFriday(d: int): nat { if Weekday(d) >= 4 then Weekday(d) - 4 else Weekday(d) + 3 }

  ghost function HolidaysFrom(holidays: set<int>, d: int): set<int> { set h | h in holidays && h >= d }

  ghost function HolidaysUpTo(holidays: set<int>, d: int): set<int> { set h | h in holidays && h <= d }

  // The first trading day on or after d.
  function FirstFrom(holidays: set<int>, d: int): (r: int)
    ensures d <= r && IsTradingDay(holidays, r)
    ensures forall e :: d <= e < r ==> !IsTradingDay(holidays, e)
    decreases HolidaysFrom(holidays, d), DaysToMonday(d)
  {
    if IsTradingDay(holidays, d) then d
    else
      WeekdayAdvances(d);
      assert HolidaysFrom(holidays, d + 1) <= HolidaysFrom(holidays, d);
      assert Weekday(d) < SATURDAY ==> d in HolidaysFrom(holidays, d) && d !in HolidaysFrom(holidays, d + 1);
      FirstFrom(holidays, d + 1)
  }

  // The last trading day on or before d.
  function LastUpTo(holidays: set<int>, d: int): (r: int)
    ensures r <= d && IsTradingDay(holidays, r)
    ensures forall e :: r < e <= d ==> !IsTradingDay(holidays, e)
    decreases HolidaysUpTo(holidays, d), DaysSinceFriday(d)
  {
    if IsTradingDay(holidays, d) then d
    else
      WeekdayAdvances(d - 1);
      assert HolidaysUpTo(holidays, d - 1) <= HolidaysUpTo(holidays, d);
      assert Weekday(d) < SATURDAY ==> d in HolidaysUpTo(holidays, d) && d !in HolidaysUpTo(holidays, d - 1);
      LastUpTo(holidays, d - 1)
  }

  function Next(holidays: set<int>, d: int): int { FirstFrom(holidays, d + 1) }

  function Prev(holidays: set<int>, d: int): int { LastUpTo(holidays, d - 1) }

  method NextTradingDay(holidays: set<int>, d: int) returns (candidate: int)
    ensures candidate == Next(holidays, d)
  {
    candidate := d + 1;
    while !IsTradingDay(holidays, candidate)
      invariant FirstFrom(holidays, candidate) == Next(holidays, d)
      decreases Next(holidays, d) - candidate
    {
      candidate := candidate + 1;
    }
  }

  method PrevTradingDay(holidays: set<int>, d: int) returns (candidate: int)
    ensures candidate == Prev(holidays, d)
  {
    candidate := d - 1;
    while !IsTradingDay(holidays, candidate)
      invariant LastUpTo(holidays, candidate) == Prev(holidays, d)
      decreases candidate - Prev(holidays, d)
    {
      candidate := candidate - 1;
    }
  }

  /** Next and Prev are characterised as the nearest trading day strictly beyond d. */
  lemma NearestTradingDay(holidays: set<int>, d: int, r: int)
    ensures r == Next(holidays, d)
      <==> d < r && IsTradingDay(holidays, r) && forall e :: d < e < r ==> !IsTradingDay(holidays, e)
    ensures r == Prev(holidays, d)
      <==> r < d && IsTradingDay(holidays, r) && forall e :: r < e < d ==> !IsTradingDay(holidays, e)
  {
    var n, p := Next(holidays, d), Prev(holidays, d);
    assert n <= r || !(d < r < n) || !IsTradingDay(holidays, r);
  }

  /** On trading days, stepping forward and back is the identity; elsewhere it returns the last trading day. */
  lemma PrevOfNext(holidays: set<int>, d: int)
    ensures Prev(holidays, Next(holidays, d)) == LastUpTo(holidays, d)
    ensures Next(holidays, Prev(holidays, d)) == FirstFrom(holidays, d)
    ensures IsTradingDay(holidays, d) ==>
      Prev(holidays, Next(holidays, d)) == d == Next(holidays, Prev(holidays, d))
  {
    NearestTradingDay(holidays, Next(holidays, d), LastUpTo(holidays, d));
    NearestTradingDay(holidays, Prev(holidays, d), FirstFrom(holidays, d));
  }

  // Weight of a weekday: moving past a weekday holiday costs 2 and past a weekend day earns 5.
  function Phase(w: nat): int { if w == SUNDAY then -5 else -2 * w }

  /** However the holidays fall, the search ends within (7 |holidays| + 10) / 5 days. */
  lemma {:induction false} SearchBound(holidays: set<int>, d: int)
    ensures 5 * (FirstFrom(holidays, d) - d) <= 7 * |HolidaysFrom(holidays, d)| + 10
    ensures 5 * (d - LastUpTo(holidays, d)) <= 7 * |HolidaysUpTo(holidays, d)| + 10
  {
    SearchBoundForward(holidays, d);
    hide Weekday;
    SearchBoundBackward(holidays, d);
  }

  lemma {:induction false} SearchBoundForward(holidays: set<int>, d: int)
    ensures 5 * (FirstFrom(holidays, d) - d)
         <= 7 * |HolidaysFrom(holidays, d)| - Phase(Weekday(d))
    decreases FirstFrom(holidays, d) - d
  {
    WeekdayAdvances(d);
    hide Weekday;
    if !IsTradingDay(holidays, d) {
      SearchBoundForward(holidays, d + 1);
      var now, later := HolidaysFrom(holidays, d), HolidaysFrom(holidays, d + 1);
      if d in holidays {
        assert now == later + {d};
      } else {
        assert now == later;
      }
    }
  }

  lemma {:induction false} SearchBoundBackward(holidays: set<int>, d: int)
    ensures 5 * (d - LastUpTo(holidays, d))
         <= 7 * |HolidaysUpTo(holidays, d)| + 10 + Phase(Weekday(d + 1))
    decreases d - LastUpTo(holidays, d)
  {
    WeekdayAdvances(d);
    WeekdayAdvances(d - 1);
    hide Weekday;
    if !IsTradingDay(holidays, d) {
      SearchBoundBackward(holidays, d - 1);
      var now, earlier := HolidaysUpTo(holidays, d), HolidaysUpTo(holidays, d - 1);
      if d in holidays {
        assert now == earlier + {d};
      } else {
        assert now == earlier;
      }
    }
  }

  // ---------------------------------------------------------------- settlement and counting

  method GetSettlementDate(holidays: set<int>, tradeDate: int) returns (current: int)
    ensures current == Next(holidays, Next(holidays, tradeDate))
  {
    var daysAdded := 0;
    current := tradeDate;
    while daysAdded < 2
      invariant 0 <= daysAdded <= 2
      invariant daysAdded == 0 ==> Next(holidays, current) == Next(holidays, tradeDate)
      invariant daysAdded == 1 ==> Next(holidays, current) == Next(holidays, Next(holidays, tradeDate))
      invariant daysAdded == 2 ==> current == Next(holidays, Next(holidays, tradeDate))
      decreases 2 - daysAdded, Next(holidays, current) - current
    {
      current := current + 1;
      if IsTradingDay(holidays, current) { daysAdded := daysAdded + 1; }
    }
  }

  lemma SettlementIsMonotone(holidays: set<int>, d: int, e: int)
    requires d <= e
    ensures Next(holidays, d) <= Next(holidays, e)
    ensures Next(holidays, Next(holidays, d)) <= Next(holidays, Next(holidays, e))
  {
    NextIsMonotone(holidays, d, e);
    NextIsMonotone(holidays, Next(holidays, d), Next(holidays, e));
  }

  lemma NextIsMonotone(holidays: set<int>, d: int, e: int)
    requires d <= e
    ensures Next(holidays, d) <= Next(holidays, e)
  {
    assert IsTradingDay(holidays, Next(holidays, e));
  }

  // The trading days of [start, end), in order.
  function TradingDays(holidays: set<int>, start: int, end: int): (days: seq<int>)
    ensures forall i :: 0 <= i < |days| ==> start <= days[i] < end && IsTradingDay(holidays, days[i])
    ensures forall i, j :: 0 <= i < j < |days| ==> days[i] < days[j]
    ensures forall d :: start <= d < end && IsTradingDay(holidays, d) ==> d in days
    decreases end - start
  {
    if start >= end then []
    else
      TradingDays(holidays, start, end - 1) + if IsTradingDay(holidays, end - 1) then [end - 1] else []
  }

  method TradingDaysBetween(holidays: set<int>, start: int, end: int) returns (count: nat)
    ensures count == |TradingDays(holidays, start, end)|
  {
    count := 0;
    var current := start;
    while current < end
      invariant start <= current <= end || start == current > end
      invariant count == |TradingDays(holidays, start, current)|
    {
      if IsTradingDay(holidays, current) { count := count + 1; }
      current := current + 1;
    }
  }

  lemma {:induction false} CountingIsAdditive(holidays: set<int>, a: int, b: int, c: int)
    requires a <= b <= c
    ensures TradingDays(holidays, a, c) == TradingDays(holidays, a, b) + TradingDays(holidays, b, c)
    decreases c - b
  {
    if b < c { CountingIsAdditive(holidays, a, b, c - 1); }
  }

  lemma {:induction false} NoneBefore(holidays: set<int>, start: int, end: int)
    requires forall d :: start <= d < end ==> !IsTradingDay(holidays, d)
    ensures TradingDays(holidays, start, end) == []
    decreases end - start
  {
    if start < end { NoneBefore(holidays, start, end - 1); }
  }

  lemma DaysToNext(holidays: set<int>, d: int)
    requires IsTradingDay(holidays, d)
    ensures TradingDays(holidays, d, Next(holidays, d)) == [d]
  {
    CountingIsAdditive(holidays, d, d + 1, Next(holidays, d));
    NoneBefore(holidays, d + 1, Next(holidays, d));
    assert TradingDays(holidays, d, d) == [];
    hide IsTradingDay;
    assert TradingDays(holidays, d, d + 1) == [d];
  }

  /** From a trading day up to its settlement there are exactly two trading days: itself and the next. */
  lemma TwoDaysToSettlement(holidays: set<int>, d: int)
    requires IsTradingDay(holidays, d)
    ensures var n := Next(holidays, d);
            TradingDays(holidays, d, Next(holidays, n)) == [d, n]
  {
    hide TradingDays, FirstFrom, IsTradingDay, Weekday;
    DaysToNext(holidays, d);
    DaysToNext(holidays, Next(holidays, d));
    CountingIsAdditive(holidays, d, Next(holidays, d), Next(holidays, Next(holidays, d)));
  }

  /** The backfill's gap list: the trading days of the inclusive range that are not on file. */
  method ComputeMissingDates(holidays: set<int>, dateFrom: int, dateTo: int, existing: set<int>)
    returns (missing: seq<int>)
    ensures forall i, j :: 0 <= i < j < |missing| ==> missing[i] < missing[j]
    ensures forall d :: d in missing <==> dateFrom <= d <= dateTo && IsTradingDay(holidays, d) && d !in existing
    ensures |missing| + |OnFile(holidays, dateFrom, dateTo, existing)|
         == |TradingDays(holidays, dateFrom, dateTo + 1)|
  {
    hide IsTradingDay, TradingDays, OnFile;
    EmptyRangeUpTo(holidays, dateFrom, dateFrom - 1, existing);
    missing := [];
    var current := dateFrom;
    while current <= dateTo
      invariant dateFrom <= current
      invariant dateFrom <= dateTo ==> current <= dateTo + 1
      invariant dateFrom > dateTo ==> current == dateFrom
      invariant forall i :: 0 <= i < |missing| ==> missing[i] < current
      invariant forall i, j :: 0 <= i < j < |missing| ==> missing[i] < missing[j]
      invariant forall d :: d in missing <==> dateFrom <= d < current && IsTradingDay(holidays, d) && d !in existing
      invariant |missing| + |OnFile(holidays, dateFrom, current - 1, existing)|
             == |TradingDays(holidays, dateFrom, current)|
    {
      OneMoreDay(holidays, dateFrom, current, existing);
      if IsTradingDay(holidays, current) && current !in existing {
        missing := missing + [current];
      }
      current := current + 1;
    }
    EmptyRangeUpTo(holidays, dateFrom, dateTo, existing);
  }

  lemma EmptyRangeUpTo(holidays: set<int>, dateFrom: int, dateTo: int, existing: set<int>)
    ensures dateFrom > dateTo ==>
      OnFile(holidays, dateFrom, dateTo, existing) == {} && TradingDays(holidays, dateFrom, dateTo + 1) == []
  {
  }

  lemma OneMoreDay(holidays: set<int>, dateFrom: int, d: int, existing: set<int>)
    requires dateFrom <= d
    ensures |OnFile(holidays, dateFrom, d, existing)|
         == |OnFile(holidays, dateFrom, d - 1, existing)|
            + (if IsTradingDay(holidays, d) && d in existing then 1 else 0)
    ensures |TradingDays(holidays, dateFrom, d + 1)|
         == |TradingDays(holidays, dateFrom, d)| + (if IsTradingDay(holidays, d) then 1 else 0)
  {
    hide IsTradingDay;
    var before, after := OnFile(holidays, dateFrom, d - 1, existing), OnFile(holidays, dateFrom, d, existing);
    assert after == before + (if IsTradingDay(holidays, d) && d in existing then {d} else {});
  }

  ghost function OnFile(holidays: set<int>, dateFrom: int, dateTo: int, existing: set<int>): set<int> {
    set d | d in existing && dateFrom <= d <= dateTo && IsTradingDay(holidays, d)
  }
}
