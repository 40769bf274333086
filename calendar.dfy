/**
 * The month arithmetic behind the prorated scenarios (CCA, PCA): the
 * inclusive number of months of a period, the months of it that fall in the
 * following year, and the prorated base. A date is a calendar triple with
 * months numbered 1 to 12; dates compare in calendar order.
 */
module Calendar {
  import opened Money

  datatype Date = Date(year: int, month: int, day: int)

  predicate ValidDate(d: Date) {
    1 <= d.month <= 12 && 1 <= d.day <= 31
  }

  /** Numbers the calendar months consecutively: the month after December of
      one year is January of the next. */
  function MonthIndex(d: Date): int {
    12 * d.year + d.month - 1
  }

  /** `a < b` on dates: calendar order. */
  predicate DateBefore(a: Date, b: Date) {
    a.year < b.year ||
    (a.year == b.year && (a.month < b.month || (a.month == b.month && a.day < b.day)))
  }

  /** The later of two dates (`Math.max` of their times). */
  function Later(a: Date, b: Date): (r: Date)
    ensures r == a || r == b
    ensures !DateBefore(r, a) && !DateBefore(r, b)
  {
    if DateBefore(a, b) then b else a
  }

  /** The calendar months from `lo` to `hi`, both included, as month numbers. */
  function MonthsBetween(lo: int, hi: int): set<int> {
    set k: int | lo <= k <= hi && InRange(lo, hi, k)
  }

  /** `lo <= k <= hi` again, as a function term: the set comprehension above
      needs one for the verifier to use its quantifier. */
  predicate InRange(lo: int, hi: int, k: int) {
    lo <= k <= hi
  }

  lemma {:induction false} MonthsBetweenSize(lo: int, hi: int)
    requires lo <= hi + 1
    ensures |MonthsBetween(lo, hi)| == hi - lo + 1
    decreases hi - lo
  {
    if lo <= hi {
      MonthsBetweenSize(lo, hi - 1);
      var fewer := MonthsBetween(lo, hi - 1);
      assert hi !in fewer;
      assert MonthsBetween(lo, hi) == fewer + {hi} by {
        forall k ensures k in MonthsBetween(lo, hi) <==> k in fewer + {hi} {
          assert InRange(lo, hi, k) <==> InRange(lo, hi - 1, k) || k == hi;
        }
      }
    } else {
      assert MonthsBetween(lo, hi) == {};
    }
  }

  /** `diffMonthsInclusive`: the number of calendar months from the month of
      `a` to the month of `b`, both included; the day of the month plays no
      part. */
  function DiffMonthsInclusive(a: Date, b: Date): (r: int)
    ensures MonthIndex(a) <= MonthIndex(b) ==> r == |MonthsBetween(MonthIndex(a), MonthIndex(b))|
    ensures MonthIndex(a) <= MonthIndex(b) ==> r >= 1
  {
    var r := (b.year - a.year) * 12 + (b.month - a.month) + 1;
    if MonthIndex(a) <= MonthIndex(b) then MonthsBetweenSize(MonthIndex(a), MonthIndex(b)); r else r
  }

  /** Splitting a period at a month: the months up to it plus the months
      from it count that month twice. */
  lemma DiffMonthsSplit(a: Date, c: Date, b: Date)
    ensures DiffMonthsInclusive(a, b) == DiffMonthsInclusive(a, c) + DiffMonthsInclusive(c, b) - 1
  {
  }

  /** Worked examples: December to March is 4 months; November 2024 to
      October 2025 is 12. */
  lemma DiffMonthsExamples()
    ensures DiffMonthsInclusive(Date(2024, 12, 1), Date(2025, 3, 31)) == 4
    ensures DiffMonthsInclusive(Date(2024, 11, 1), Date(2025, 10, 31)) == 12
  {
  }

  /** 1 January of the year after `a`'s. */
  function JanNext(a: Date): Date {
    Date(a.year + 1, 1, 1)
  }

  /** The months from `lo` to `hi`, a period that starts in year `y`, split
      at January of year `y + 1`: those from that January on, and those of
      year `y`. */
  lemma SplitAtYearEnd(lo: int, hi: int, y: int)
    requires 12 * y <= lo < 12 * (y + 1) && lo <= hi
    ensures |set k | k in MonthsBetween(lo, hi) && 12 * (y + 1) <= k|
         == if hi < 12 * (y + 1) then 0 else hi - 12 * (y + 1) + 1
    ensures |set k | k in MonthsBetween(lo, hi) && k / 12 == y|
         == if hi < 12 * (y + 1) then hi - lo + 1 else 12 * (y + 1) - lo
  {
    var jan := 12 * (y + 1);
    var later := set k | k in MonthsBetween(lo, hi) && jan <= k;
    var sameYear := set k | k in MonthsBetween(lo, hi) && k / 12 == y;
    if hi < jan {
      assert later == {};
      assert sameYear == MonthsBetween(lo, hi);
      MonthsBetweenSize(lo, hi);
    } else {
      assert later == MonthsBetween(jan, hi);
      MonthsBetweenSize(jan, hi);
      assert sameYear == MonthsBetween(lo, jan - 1);
      MonthsBetweenSize(lo, jan - 1);
    }
  }

  /** The months of the period from `a` to `b` that lie in the year after
      `a`'s or later. */
  function MonthsAfterYearEnd(a: Date, b: Date): set<int> {
    set k | k in MonthsBetween(MonthIndex(a), MonthIndex(b)) && MonthIndex(JanNext(a)) <= k
  }

  /** The months of the period from `a` to `b` that lie in `a`'s year. */
  function MonthsOfStartYear(a: Date, b: Date): set<int> {
    set k | k in MonthsBetween(MonthIndex(a), MonthIndex(b)) && k / 12 == a.year
  }

  /** `monthsInNextYear`: none when the period ends before 1 January of the
      next year, otherwise the inclusive count from the later of that day and
      the start. For a period of valid dates this is the number of months of
      the period that lie in the following year or later; so it lies between
      zero and the length of the period, and the rest of the period lies in
      the start year. */
  function MonthsInNextYear(a: Date, b: Date): (r: int)
    ensures ValidDate(a) && ValidDate(b) && MonthIndex(a) <= MonthIndex(b) ==>
      && r == |MonthsAfterYearEnd(a, b)|
      && 0 <= r <= DiffMonthsInclusive(a, b)
      && DiffMonthsInclusive(a, b) - r == |MonthsOfStartYear(a, b)|
  {
    var janNext := JanNext(a);
    var r := if DateBefore(b, janNext) then 0 else DiffMonthsInclusive(Later(janNext, a), b);
    if ValidDate(a) && ValidDate(b) && MonthIndex(a) <= MonthIndex(b) then
      assert Later(janNext, a) == janNext;
      SplitAtYearEnd(MonthIndex(a), MonthIndex(b), a.year);
      r
    else r
  }

  /** Worked examples: November 2024 to October 2025 has 10 months in 2025;
      December 2024 to May 2025 has 5; a period ending in December has none. */
  lemma MonthsInNextYearExamples()
    ensures MonthsInNextYear(Date(2024, 11, 1), Date(2025, 10, 31)) == 10
    ensures MonthsInNextYear(Date(2024, 12, 1), Date(2025, 5, 31)) == 5
    ensures MonthsInNextYear(Date(2024, 3, 1), Date(2024, 12, 31)) == 0
  {
  }

  /** `round2(amountHT * (afterMonths / totalMonths))`: the share of the HT
      amount for the months after the year end, to the nearest cent. */
  function ProrataBase(amountHT: int, afterMonths: int, totalMonths: int): (r: int)
    requires totalMonths > 0
    ensures 2 * totalMonths * r - totalMonths <= 2 * amountHT * afterMonths < 2 * totalMonths * r + totalMonths
  {
    RoundToCent(amountHT * afterMonths, totalMonths)
  }

  /** No month after the year end gives a zero base; all of them give the
      whole HT amount. */
  lemma ProrataBaseEnds(amountHT: int, totalMonths: int)
    requires totalMonths > 0
    ensures ProrataBase(amountHT, 0, totalMonths) == 0
    ensures ProrataBase(amountHT, totalMonths, totalMonths) == amountHT
  {
    RoundToCentUnique(0, totalMonths, 0);
    RoundToCentUnique(amountHT * totalMonths, totalMonths, amountHT);
  }

  /** For a share of the months the base stays between zero and the HT
      amount. */
  lemma ProrataBaseWithin(amountHT: int, afterMonths: int, totalMonths: int)
    requires 0 <= afterMonths <= totalMonths && 0 < totalMonths && amountHT >= 0
    ensures 0 <= ProrataBase(amountHT, afterMonths, totalMonths) <= amountHT
  {
    var r := ProrataBase(amountHT, afterMonths, totalMonths);
    var n := amountHT * afterMonths;
    assert n <= amountHT * totalMonths by {
      assert amountHT * totalMonths - n == amountHT * (totalMonths - afterMonths);
    }
    assert 2 * totalMonths * r < 2 * totalMonths * amountHT + 2 * totalMonths;
    ScaledLe(2 * totalMonths, r, amountHT);
    assert 2 * totalMonths * (-r) < 2 * totalMonths * 0 + 2 * totalMonths;
    ScaledLe(2 * totalMonths, -r, 0);
  }

  /** Worked examples: 1200.00 over November 2024 to October 2025 gives
      1000.00 for the next year; 600.00 over December 2024 to May 2025 gives
      500.00. */
  lemma ProrataExamples()
    ensures ProrataBase(120000, 10, 12) == 100000
    ensures ProrataBase(60000, 5, 6) == 50000
  {
    RoundToCentUnique(120000 * 10, 12, 100000);
    RoundToCentUnique(60000 * 5, 6, 50000);
  }
}
