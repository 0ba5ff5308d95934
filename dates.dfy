/** Calendar dates and times of day, compared field by field, and a
    patient's age in whole years. */
module Dates {

  datatype Date = Date(year: int, month: int, day: int)

  datatype Time = Time(hour: int, minute: int, second: int, microsecond: int)

  /** `a` comes strictly before `b`: the (year, month, day) triples compared
      lexicographically, as calendar dates compare. */
  predicate Before(a: Date, b: Date) {
    a.year < b.year || (a.year == b.year && MonthDayBefore(a, b))
  }

  /** The (month, day) pair of `a` comes strictly before that of `b`. */
  predicate MonthDayBefore(a: Date, b: Date) {
    a.month < b.month || (a.month == b.month && a.day < b.day)
  }

  /** The date `n` years after `born`, keeping its month and day (for a
      29 February birthday this is not a calendar date in a common year,
      but it still orders correctly against every date). */
  function Anniversary(born: Date, n: int): Date {
    Date(born.year + n, born.month, born.day)
  }

  /** By `today`, the `n`-th anniversary of `born` has come. */
  predicate Reached(born: Date, today: Date, n: int) {
    !Before(today, Anniversary(born, n))
  }

  /** Age on `today` of someone born on `born`: the difference of the years,
      less one while this year's birthday has not yet come. */
  function Age(born: Date, today: Date): (age: int)
    ensures Reached(born, today, age)
    ensures !Reached(born, today, age + 1)
  {
    today.year - born.year - (if MonthDayBefore(today, born) then 1 else 0)
  }

  /** Once an anniversary has come, every earlier one has. */
  lemma ReachedDownward(born: Date, today: Date, m: int, n: int)
    requires m <= n && Reached(born, today, n)
    ensures Reached(born, today, m)
  {
  }

  /** The age is the only count of years whose anniversary has come while
      the next one has not. */
  lemma AgeUnique(born: Date, today: Date, n: int)
    requires Reached(born, today, n) && !Reached(born, today, n + 1)
    ensures n == Age(born, today)
  {
    var a := Age(born, today);
    if n < a {
      ReachedDownward(born, today, n + 1, a);
    } else if a < n {
      ReachedDownward(born, today, a + 1, n);
    }
  }

  /** Someone born no later than today has a non-negative age. */
  lemma AgeNonNegative(born: Date, today: Date)
    requires !Before(today, born)
    ensures Age(born, today) >= 0
  {
    assert Anniversary(born, 0) == born;
    if Age(born, today) < 0 {
      ReachedDownward(born, today, Age(born, today) + 1, 0);
    }
  }

  /** Age never decreases as time passes. */
  lemma AgeMonotone(born: Date, earlier: Date, later: Date)
    requires !Before(later, earlier)
    ensures Age(born, earlier) <= Age(born, later)
  {
    var a := Age(born, earlier);
    assert Reached(born, later, a);
    if Age(born, later) < a {
      ReachedDownward(born, later, Age(born, later) + 1, a);
    }
  }

  /** The day before the birthday and the birthday itself. */
  lemma AgeAroundBirthday()
    ensures Age(Date(2000, 6, 15), Date(2024, 6, 14)) == 23
    ensures Age(Date(2000, 6, 15), Date(2024, 6, 15)) == 24
  {
  }
}
