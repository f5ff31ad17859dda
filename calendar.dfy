/** Calendar dates and the age computation the session and both account forms share
    (`calculateAge`). "Today" is a parameter: the clock is not part of the model. */
module Calendar {
  import opened Common

  /** A calendar date as (year, month, day). Months may be counted from 0, as JavaScript's
      `getMonth` does, or from 1: only their order matters here. */
  datatype Date = Date(year: int, month: int, day: int)

  /** `a` falls strictly before `b` in the calendar. */
  predicate Before(a: Date, b: Date) {
    a.year < b.year
    || (a.year == b.year && (a.month < b.month || (a.month == b.month && a.day < b.day)))
  }

  /** The `n`-th anniversary of `birth` (same month and day, `n` years on). */
  function Anniversary(birth: Date, n: int): Date {
    Date(birth.year + n, birth.month, birth.day)
  }

  /** The minimum age, in whole years, for holding an account. */
  const MinimumAge: int := 15

  /** `calculateAge`: the difference of the years, less one while this year's birthday is
      still ahead (today's month and day come before the birth month and day). */
  function Age(birth: Date, today: Date): (age: int)
    ensures age == today.year - birth.year || age == today.year - birth.year - 1
  {
    var age := today.year - birth.year;
    var monthDiff := today.month - birth.month;
    if monthDiff < 0 || (monthDiff == 0 && today.day < birth.day) then age - 1 else age
  }

  /** The age is at least `n` exactly when the `n`-th birthday is today or already past. */
  lemma AgeAtLeast(birth: Date, today: Date, n: int)
    ensures Age(birth, today) >= n <==> !Before(today, Anniversary(birth, n))
  {
  }

  /** Someone born exactly `MinimumAge` years before today has that age; someone born
      later in that same year is a year younger. */
  lemma AgeOnBirthday(today: Date, later: Date)
    requires later.year == today.year - MinimumAge
    requires Before(Date(today.year - MinimumAge, today.month, today.day), later)
    ensures Age(Date(today.year - MinimumAge, today.month, today.day), today) == MinimumAge
    ensures Age(later, today) == MinimumAge - 1
  {
  }

  /** A later birth date never gives an older age. */
  lemma AgeAntitone(earlier: Date, later: Date, today: Date)
    requires !Before(later, earlier)
    ensures Age(later, today) <= Age(earlier, today)
  {
  }

  /** `calculateAge` applied to a date-of-birth field. `None` on input is the empty field,
      whose JavaScript `Date` is invalid; `None` on output is the `NaN` age it then yields. */
  function AgeOf(dateOfBirth: Option<Date>, today: Date): (age: Option<int>)
    ensures age.Some? <==> dateOfBirth.Some?
  {
    match dateOfBirth
    case Some(d) => Some(Age(d, today))
    case None => None
  }

  /** `age < 15`, which is false for a `NaN` age. */
  predicate Underage(dateOfBirth: Option<Date>, today: Date) {
    var age := AgeOf(dateOfBirth, today);
    age.Some? && age.value < MinimumAge
  }
}
