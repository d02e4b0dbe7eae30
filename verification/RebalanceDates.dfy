/** The first trading day of each month, under Gregorian month and leap-year arithmetic. */
module RebalanceDates {
  import opened TradingCalendar

  predicate IsLeap(year: int) {
    year % 4 == 0 && (year % 100 != 0 || year % 400 == 0)
  }

  function DaysBeforeYear(year: int): int {
    365 * (year - 1) + (year - 1) / 4 - (year - 1) / 100 + (year - 1) / 400
  }

  function MonthLength(year: int, month: int): int {
    if month == 2 then (if IsLeap(year) then 29 else 28)
    else if month == 4 || month == 6 || month == 9 || month == 11 then 30
    else 31
  }

  function DaysBeforeMonth(year: int, month: int): int
    requires 1 <= month <= 12
  {
    if month == 1 then 0 else DaysBeforeMonth(year, month - 1) + MonthLength(year, month - 1)
  }

  datatype Date = Date(year: int, month: int, day: int) {
    predicate Valid() {
      year >= 1 && 1 <= month <= 12 && 1 <= day <= MonthLength(year, month)
    }

    function Ordinal(): int
      requires 1 <= month <= 12
    {
      DaysBeforeYear(year) + DaysBeforeMonth(year, month) + day
    }
  }

  // Months counted from month 1 of year 0, so that consecutive months are consecutive numbers.
  function MonthIndex(year: int, month: int): int { 12 * year + month - 1 }

  // The ordinal of the first day of a month.
  function FirstDay(m: int): int { Date(m / 12, m % 12 + 1, 1).Ordinal() }

  lemma YearLength(year: int)
    ensures DaysBeforeYear(year + 1) == DaysBeforeYear(year) + 365 + (if IsLeap(year) then 1 else 0)
  {
    LeapCount(year, 4);
    LeapCount(year, 100);
    LeapCount(year, 400);
    MultiplesNest(year);
  }

  lemma MultiplesNest(year: int)
    ensures year % 400 == 0 ==> year % 100 == 0
    ensures year % 100 == 0 ==> year % 4 == 0
  {
  }

  lemma LeapCount(year: int, n: int)
    requires n == 4 || n == 100 || n == 400
    ensures year / n == (year - 1) / n + (if year % n == 0 then 1 else 0)
  {
  }

  lemma MonthsSumToYear(year: int)
    ensures DaysBeforeMonth(year, 12) + MonthLength(year, 12) == 365 + (if IsLeap(year) then 1 else 0)
  {
    var leap := if IsLeap(year) then 1 else 0;
    hide IsLeap;
    assert DaysBeforeMonth(year, 2) == 31;
    assert DaysBeforeMonth(year, 4) == 90 + leap;
    assert DaysBeforeMonth(year, 6) == 151 + leap;
    assert DaysBeforeMonth(year, 8) == 212 + leap;
    assert DaysBeforeMonth(year, 10) == 273 + leap;
    assert DaysBeforeMonth(year, 12) == 334 + leap;
  }

  /** Each month begins where the previous one ends. */
  lemma MonthsAreConsecutive(m: int)
    ensures FirstDay(m + 1) == FirstDay(m) + MonthLength(m / 12, m % 12 + 1)
    ensures FirstDay(m) + 28 <= FirstDay(m + 1) <= FirstDay(m) + 31
  {
    if m % 12 == 11 {
      YearLength(m / 12);
      MonthsSumToYear(m / 12);
      assert (m + 1) / 12 == m / 12 + 1 && (m + 1) % 12 == 0;
    } else {
      assert (m + 1) / 12 == m / 12 && (m + 1) % 12 == m % 12 + 1;
    }
  }

  // The last day of a month by the Gregorian calendar.
  predicate EndsMonth(d: Date) {
    if d.month == 2 then
      if (d.year % 4 == 0 && d.year % 100 != 0) || d.year % 400 == 0 then d.day == 29 else d.day == 28
    else
      if d.month in {4, 6, 9, 11} then d.day == 30 else d.day == 31
  }

  predicate IsDayAfter(d: Date, next: Date) {
    if EndsMonth(d) then
      if d.month == 12 then next == Date(d.year + 1, 1, 1) else next == Date(d.year, d.month + 1, 1)
    else next == Date(d.year, d.month, d.day + 1)
  }

  lemma EndsMonthIff(d: Date)
    ensures EndsMonth(d) <==> d.day == MonthLength(d.year, d.month)
  {
  }

  lemma NextMonth(year: int, month: int)
    requires 1 <= month <= 12
    ensures month < 12 ==> DaysBeforeMonth(year, month + 1) == DaysBeforeMonth(year, month) + MonthLength(year, month)
    ensures month == 12 ==>
      DaysBeforeYear(year + 1) == DaysBeforeYear(year) + DaysBeforeMonth(year, month) + MonthLength(year, month)
    ensures DaysBeforeMonth(year + 1, 1) == 0
    ensures MonthLength(year, month) >= 28
  {
    hide DaysBeforeYear;
    if month == 12 {
      YearLength(year);
      MonthsSumToYear(year);
      hide DaysBeforeMonth;
    }
  }

  // The first of January of year 1.
  lemma DayOne()
    ensures Date(1, 1, 1).Ordinal() == 1
  {
  }

  lemma OrdinalOf(year: int, month: int, day: int)
    requires 1 <= month <= 12
    ensures Date(year, month, day).Ordinal() == DaysBeforeYear(year) + DaysBeforeMonth(year, month) + day
  {
    hide DaysBeforeYear, DaysBeforeMonth;
  }

  /** From one day of the calendar to the next the ordinal goes up by one. */
  lemma OrdinalsCountDays(d: Date, next: Date)
    requires d.Valid() && IsDayAfter(d, next)
    ensures next.Valid() && next.Ordinal() == d.Ordinal() + 1
  {
    assert 1 <= d.month <= 12 && d.year >= 1 && 1 <= d.day <= MonthLength(d.year, d.month);
    EndsMonthIff(d);
    hide MonthLength, EndsMonth;
    var last := EndsMonth(d);
    assert next == if last then if d.month == 12 then Date(d.year + 1, 1, 1) else Date(d.year, d.month + 1, 1)
                   else Date(d.year, d.month, d.day + 1);
    MonthsAreLong(next.year, next.month);
    assert next.Valid();
    hide *;
    OrdinalOf(d.year, d.month, d.day);
    OrdinalOf(next.year, next.month, next.day);
    NextMonth(d.year, d.month);
  }

  lemma MonthsAreLong(year: int, month: int)
    ensures MonthLength(year, month) >= 1
  {
  }

  /** The first of January 1970 was a Thursday: the days open for trading are those without a holiday that are neither
      two nor three days after a Thursday. */
  lemma WeekendsAreDated(holidays: set<int>, d: int)
    ensures Date(1970, 1, 1).Ordinal() == 719163
    ensures IsTradingDay(holidays, d)
      <==> d !in holidays && (d - Date(1970, 1, 1).Ordinal()) % 7 != 2 && (d - Date(1970, 1, 1).Ordinal()) % 7 != 3
  {
    assert (d - 719163) % 7 == (d + 6 + 4) % 7 by { assert 719163 + 10 == 7 * 102739; SameResidue(d); }
    ResidueShift(d + 6);
  }

  lemma SameResidue(d: int)
    ensures (d - 719163) % 7 == (d + 10) % 7
  {
    assert d + 10 == (d - 719163) + 7 * 102739;
  }

  lemma ResidueShift(e: int)
    ensures (e + 4) % 7 == (e % 7 + 4) % 7
  {
  }

  lemma {:induction false} MonthsAscend(m: int, n: int)
    requires m <= n
    ensures FirstDay(m) <= FirstDay(n)
    ensures m < n ==> FirstDay(m + 1) <= FirstDay(n)
    decreases n - m
  {
    hide FirstDay;
    if m < n {
      MonthsAreConsecutive(m);
      MonthsAscend(m + 1, n);
    }
  }

  /** The first trading day of month m. */
  ghost predicate OpensMonth(holidays: set<int>, m: int, x: int) {
    && FirstDay(m) <= x < FirstDay(m + 1)
    && IsTradingDay(holidays, x)
    && forall e :: FirstDay(m) <= e < x ==> !IsTradingDay(holidays, e)
  }

  // Where the search that starts at month m ends.
  function Candidate(holidays: set<int>, m: int): int { FirstFrom(holidays, FirstDay(m)) }

  function RebalanceList(holidays: set<int>, m: int, start: int, end: int): seq<int>
    decreases end - FirstDay(m)
  {
    MonthsAreConsecutive(m);
    if FirstDay(m) > end then []
    else
      var candidate := Candidate(holidays, m);
      (if start <= candidate <= end then [candidate] else []) + RebalanceList(holidays, m + 1, start, end)
  }

  method GetMonthlyRebalanceDates(holidays: set<int>, startDate: Date, endDate: Date) returns (dates: seq<int>)
    requires startDate.Valid() && endDate.Valid()
    ensures dates == RebalanceList(holidays, MonthIndex(startDate.year, startDate.month),
                                   startDate.Ordinal(), endDate.Ordinal())
  {
    assert 1 <= startDate.month <= 12 && 1 <= endDate.month <= 12;
    hide *;
    dates := MonthLoop(holidays, startDate.year, startDate.month, startDate.Ordinal(), endDate.Ordinal());
  }

  // The loop over the months from the given one.
  method MonthLoop(holidays: set<int>, startYear: int, startMonth: int, start: int, end: int)
    returns (dates: seq<int>)
    requires 1 <= startMonth <= 12
    ensures dates == RebalanceList(holidays, MonthIndex(startYear, startMonth), start, end)
  {
    hide *;
    dates := [];
    var year, month := startYear, startMonth;
    ghost var m := MonthIndex(year, month);
    ghost var expected := RebalanceList(holidays, m, start, end);
    NothingEmitted(holidays, m, start, end);
    FirstDayOfIndex(year, month);
    var current := Date(year, month, 1).Ordinal();
    while current <= end
      invariant 1 <= month <= 12 && m == MonthIndex(year, month) && current == FirstDay(m)
      invariant Emitted(holidays, m, start, end, dates, expected)
      decreases end - current
    {
      EmitCandidate(holidays, m, start, end, dates, expected);
      var candidate := FirstTradingDayFrom(holidays, current);
      if start <= candidate <= end {
        dates := dates + [candidate];
      }
      year, month := FollowingMonth(year, month);
      m := m + 1;
      FirstDayOfIndex(year, month);
      current := Date(year, month, 1).Ordinal();
    }
    AllEmitted(holidays, m, start, end, dates, expected);
  }

  // `dates` is what the months before m contribute to the expected list.
  ghost predicate Emitted(holidays: set<int>, m: int, start: int, end: int, dates: seq<int>, expected: seq<int>) {
    dates + RebalanceList(holidays, m, start, end) == expected
  }

  lemma NothingEmitted(holidays: set<int>, m: int, start: int, end: int)
    ensures Emitted(holidays, m, start, end, [], RebalanceList(holidays, m, start, end))
  {
  }

  lemma AllEmitted(holidays: set<int>, m: int, start: int, end: int, dates: seq<int>, expected: seq<int>)
    requires FirstDay(m) > end && Emitted(holidays, m, start, end, dates, expected)
    ensures dates == expected
  {
  }

  lemma EmitCandidate(holidays: set<int>, m: int, start: int, end: int, dates: seq<int>, expected: seq<int>)
    requires FirstDay(m) <= end
    requires Emitted(holidays, m, start, end, dates, expected)
    ensures var c := FirstFrom(holidays, FirstDay(m));
            Emitted(holidays, m + 1, start, end, if start <= c <= end then dates + [c] else dates, expected)
    ensures FirstDay(m) < FirstDay(m + 1)
  {
    MonthIsPositive(m);
    ListUnfolds(holidays, m, start, end);
    hide RebalanceList, FirstFrom, FirstDay;
  }

  method FollowingMonth(year: int, month: int) returns (year': int, month': int)
    requires 1 <= month <= 12
    ensures 1 <= month' <= 12
    ensures MonthIndex(year', month') == MonthIndex(year, month) + 1
  {
    if month == 12 {
      year', month' := year + 1, 1;
    } else {
      year', month' := year, month + 1;
    }
  }

  lemma ListUnfolds(holidays: set<int>, m: int, start: int, end: int)
    ensures RebalanceList(holidays, m, start, end)
         == if FirstDay(m) > end then []
            else (if start <= Candidate(holidays, m) <= end then [Candidate(holidays, m)] else [])
                 + RebalanceList(holidays, m + 1, start, end)
  {
  }

  lemma FirstDayOfIndex(year: int, month: int)
    requires 1 <= month <= 12
    ensures FirstDay(MonthIndex(year, month)) == Date(year, month, 1).Ordinal()
  {
    assert MonthIndex(year, month) / 12 == year && MonthIndex(year, month) % 12 + 1 == month;
  }

  // The inner search loop.
  method FirstTradingDayFrom(holidays: set<int>, d: int) returns (candidate: int)
    ensures candidate == FirstFrom(holidays, d)
  {
    candidate := d;
    while !IsTradingDay(holidays, candidate)
      invariant FirstFrom(holidays, candidate) == FirstFrom(holidays, d)
      decreases FirstFrom(holidays, d) - candidate
    {
      candidate := candidate + 1;
    }
  }

  // ---------------------------------------------------------------- what the list contains

  lemma MonthIsPositive(m: int)
    ensures FirstDay(m) < FirstDay(m + 1)
  {
    hide FirstDay;
    MonthsAreConsecutive(m);
  }

  // The month, not before m, that day x falls in.
  lemma FindMonth(m: int, x: int) returns (n: int)
    requires FirstDay(m) <= x
    ensures m <= n && FirstDay(n) <= x < FirstDay(n + 1)
    decreases x - FirstDay(m)
  {
    hide FirstDay;
    MonthIsPositive(m);
    n := m;
    if FirstDay(m + 1) <= x { n := FindMonth(m + 1, x); }
  }

  lemma CandidateOpensItsMonth(holidays: set<int>, m: int)
    ensures exists n :: m <= n && OpensMonth(holidays, n, Candidate(holidays, m))
  {
    var x := Candidate(holidays, m);
    hide FirstFrom, FirstDay, IsTradingDay;
    var n := FindMonth(m, x);
    MonthsAscend(m, n);
    assert OpensMonth(holidays, n, x);
  }

  lemma {:induction false} ListIsSound(holidays: set<int>, m: int, start: int, end: int, x: int)
    requires x in RebalanceList(holidays, m, start, end)
    ensures start <= x <= end && FirstDay(m) <= x
    ensures exists n :: m <= n && OpensMonth(holidays, n, x)
    decreases end - FirstDay(m)
  {
    hide FirstDay, OpensMonth, IsTradingDay, Weekday;
    MonthsAreConsecutive(m);
    if start <= x <= end && x == Candidate(holidays, m) {
      CandidateOpensItsMonth(holidays, m);
    } else {
      ListIsSound(holidays, m + 1, start, end, x);
    }
  }

  lemma {:induction false} ListIsComplete(holidays: set<int>, m: int, n: int, start: int, end: int, x: int)
    requires m <= n && OpensMonth(holidays, n, x) && start <= x <= end
    ensures x in RebalanceList(holidays, m, start, end)
    decreases n - m
  {
    hide FirstDay, IsTradingDay;
    MonthsAscend(m, n);
    if m == n {
      assert Candidate(holidays, m) == x;
    } else {
      ListIsComplete(holidays, m + 1, n, start, end, x);
    }
  }

  /** For any holidays, the dates are exactly the first trading days of months that lie in [start, end]. */
  lemma RebalanceDatesExact(holidays: set<int>, startDate: Date, endDate: Date, x: int)
    requires startDate.Valid() && endDate.Valid()
    ensures x in RebalanceList(holidays, MonthIndex(startDate.year, startDate.month),
                               startDate.Ordinal(), endDate.Ordinal())
      <==> startDate.Ordinal() <= x <= endDate.Ordinal() && exists n :: OpensMonth(holidays, n, x)
  {
    var m, start, end := MonthIndex(startDate.year, startDate.month), startDate.Ordinal(), endDate.Ordinal();
    FirstDayOfIndex(startDate.year, startDate.month);
    assert FirstDay(m) <= start;
    hide *;
    if x in RebalanceList(holidays, m, start, end) {
      ListIsSound(holidays, m, start, end, x);
    }
    if start <= x <= end && exists n :: OpensMonth(holidays, n, x) {
      var n :| OpensMonth(holidays, n, x);
      OpensWithin(holidays, n, x);
      if n < m { MonthsAscend(n, m); }
      ListIsComplete(holidays, m, n, start, end, x);
    }
  }

  lemma OpensWithin(holidays: set<int>, n: int, x: int)
    requires OpensMonth(holidays, n, x)
    ensures FirstDay(n) <= x < FirstDay(n + 1)
  {
  }

  ghost predicate StrictlyIncreasing(xs: seq<int>) {
    forall i, j :: 0 <= i < j < |xs| ==> xs[i] < xs[j]
  }

  // Month m has no trading day at all, yet the search from it finds one by `end`.
  ghost predicate SpillsOver(holidays: set<int>, m: int, end: int) {
    FirstDay(m + 1) <= Candidate(holidays, m) <= end
  }

  lemma SpilledCandidateRepeats(holidays: set<int>, m: int)
    requires FirstDay(m + 1) <= Candidate(holidays, m)
    ensures Candidate(holidays, m + 1) == Candidate(holidays, m)
  {
    hide FirstDay, IsTradingDay;
    MonthsAreConsecutive(m);
  }

  /** A date is repeated exactly when some month on the way has no trading day and the search from it still ends
      within the range; in every other case the dates are strictly increasing. */
  lemma {:induction false} IncreasingUnlessSpilled(holidays: set<int>, m: int, start: int, end: int)
    requires start < FirstDay(m + 1)
    ensures StrictlyIncreasing(RebalanceList(holidays, m, start, end))
      <==> forall n :: m <= n ==> !SpillsOver(holidays, n, end)
    decreases end - FirstDay(m)
  {
    hide FirstDay, IsTradingDay, FirstFrom;
    MonthsAreConsecutive(m);
    MonthsAreConsecutive(m + 1);
    var xs, c := RebalanceList(holidays, m, start, end), Candidate(holidays, m);
    if FirstDay(m) > end {
      forall n | m <= n ensures !SpillsOver(holidays, n, end) {
        MonthsAscend(m, n + 1);
      }
    } else {
      var rest := RebalanceList(holidays, m + 1, start, end);
      IncreasingUnlessSpilled(holidays, m + 1, start, end);
      forall x | x in rest ensures FirstDay(m + 1) <= x {
        ListIsSound(holidays, m + 1, start, end, x);
      }
      ListUnfolds(holidays, m, start, end);
      ListUnfolds(holidays, m + 1, start, end);
      assert (forall n :: m <= n ==> !SpillsOver(holidays, n, end))
        <==> !SpillsOver(holidays, m, end) && forall n :: m + 1 <= n ==> !SpillsOver(holidays, n, end);
      if SpillsOver(holidays, m, end) {
        SpilledCandidateRepeats(holidays, m);
        assert xs[0] == c && xs[1] == c;
      } else {
        hide RebalanceList;
        if start <= c <= end {
          assert forall x :: x in rest ==> c < x;
          HeadIncreasing(c, rest);
        } else {
          assert xs == rest;
        }
      }
    }
  }

  lemma HeadIncreasing(c: int, rest: seq<int>)
    requires forall x :: x in rest ==> c < x
    ensures StrictlyIncreasing([c] + rest) <==> StrictlyIncreasing(rest)
  {
    var xs := [c] + rest;
    assert forall i :: 0 <= i < |rest| ==> rest[i] in rest;
    assert forall i :: 0 <= i < |rest| ==> rest[i] == xs[i + 1];
  }

  predicate InMonth(m: int, d: int) { FirstDay(m) <= d < FirstDay(m + 1) }

  ghost predicate HasTradingDay(holidays: set<int>, m: int) {
    exists x :: InMonth(m, x) && IsTradingDay(holidays, x)
  }

  /** If every month that ends within the range has a trading day, the dates are strictly increasing. */
  lemma MonthlyDatesIncrease(holidays: set<int>, startDate: Date, endDate: Date)
    requires startDate.Valid() && endDate.Valid()
    requires forall n :: MonthIndex(startDate.year, startDate.month) <= n && FirstDay(n + 1) <= endDate.Ordinal() ==>
      HasTradingDay(holidays, n)
    ensures StrictlyIncreasing(RebalanceList(holidays, MonthIndex(startDate.year, startDate.month),
                                             startDate.Ordinal(), endDate.Ordinal()))
  {
    var m, end := MonthIndex(startDate.year, startDate.month), endDate.Ordinal();
    StartsInItsMonth(startDate);
    hide FirstDay, IsTradingDay, FirstFrom, MonthIndex, RebalanceList;
    forall n | m <= n ensures !SpillsOver(holidays, n, end) {
      if FirstDay(n + 1) <= end {
        assert HasTradingDay(holidays, n);
        var x :| InMonth(n, x) && IsTradingDay(holidays, x);
      }
    }
    IncreasingUnlessSpilled(holidays, m, startDate.Ordinal(), end);
  }

  lemma StartsInItsMonth(d: Date)
    requires d.Valid()
    ensures FirstDay(MonthIndex(d.year, d.month)) <= d.Ordinal() < FirstDay(MonthIndex(d.year, d.month) + 1)
  {
    var m := MonthIndex(d.year, d.month);
    FirstDayOfIndex(d.year, d.month);
    MonthsAreConsecutive(m);
    assert m / 12 == d.year && m % 12 + 1 == d.month;
    hide FirstDay, MonthLength;
  }

  /** A table that closes a whole month makes a date repeat. */
  lemma ClosedMonthRepeats(m: int) returns (holidays: set<int>)
    ensures !StrictlyIncreasing(RebalanceList(holidays, m, FirstDay(m), FirstDay(m + 2)))
  {
    MonthsAreConsecutive(m);
    MonthsAreConsecutive(m + 1);
    hide FirstDay;
    holidays := set d | FirstDay(m) <= d < FirstDay(m + 1) && InMonth(m, d);
    var next, c := FirstDay(m + 1), Candidate(holidays, m);
    WeekdayAdvances(next);
    WeekdayAdvances(next + 1);
    assert IsTradingDay(holidays, next) || IsTradingDay(holidays, next + 1) || IsTradingDay(holidays, next + 2);
    assert SpillsOver(holidays, m, FirstDay(m + 2));
    hide Candidate;
    IncreasingUnlessSpilled(holidays, m, FirstDay(m), FirstDay(m + 2));
  }
}
