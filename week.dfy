/** Calendar arithmetic of the tracker: the Monday that starts a week, and whole-week steps. */
module Week {

  /** A calendar date, as the number of days since 1970-01-01, which was a Thursday. */
  type Day = int

  /** The day of the week as JavaScript's Date.getDay numbers it: 0 is Sunday, 1 Monday, ..., 6 Saturday. */
  function Weekday(d: Day): (w: int)
    ensures 0 <= w <= 6
  {
    (d + 4) % 7
  }

  predicate IsMonday(d: Day) {
    Weekday(d) == 1
  }

  /** Moving by k days moves the weekday by k, modulo 7. */
  lemma WeekdayShift(d: Day, k: int)
    ensures Weekday(d + k) == (Weekday(d) + k) % 7
  {
    var q := (d + 4) / 7;
    assert d + 4 == 7 * q + Weekday(d);
    assert d + k + 4 == 7 * q + (Weekday(d) + k);
    ModShift(q, Weekday(d) + k);
  }

  lemma ModShift(q: int, r: int)
    ensures (7 * q + r) % 7 == r % 7
  {
    var a := r / 7;
    assert r == 7 * a + r % 7;
    assert 7 * q + r == 7 * (q + a) + r % 7;
  }

  /**
   * The week-start key of a date: the Monday of its week. A Sunday steps back six days, any other
   * day steps back weekday - 1 days, so the result is a Monday at most six days before `d`.
   */
  function GetMonday(d: Day): (m: Day)
    ensures IsMonday(m)
    ensures 0 <= d - m <= 6
  {
    var day := Weekday(d);
    var diff := -day + (if day == 0 then -6 else 1);
    WeekdayShift(d, diff);
    d + diff
  }

  /** The Monday of a week is the only Monday among the seven days ending at `d`. */
  lemma GetMondayUnique(d: Day, m: Day)
    requires IsMonday(m) && 0 <= d - m <= 6
    ensures GetMonday(d) == m
  {
    WeekdayShift(m, GetMonday(d) - m);
  }

  /** A Monday is its own week start. */
  lemma GetMondayOfMonday(m: Day)
    requires IsMonday(m)
    ensures GetMonday(m) == m
  {
    GetMondayUnique(m, m);
  }

  /** Normalising twice is normalising once. */
  lemma GetMondayIdempotent(d: Day)
    ensures GetMonday(GetMonday(d)) == GetMonday(d)
  {
    GetMondayOfMonday(GetMonday(d));
  }

  /** All seven days of one week share their week start. */
  lemma GetMondaySameWeek(d1: Day, d2: Day)
    requires GetMonday(d1) <= d2 <= GetMonday(d1) + 6
    ensures GetMonday(d2) == GetMonday(d1)
  {
    GetMondayUnique(d2, GetMonday(d1));
  }

  /** A later date never has an earlier week start. */
  lemma GetMondayMonotonic(d1: Day, d2: Day)
    requires d1 <= d2
    ensures GetMonday(d1) <= GetMonday(d2)
  {
    var m1, m2 := GetMonday(d1), GetMonday(d2);
    if m2 < m1 {
      GetMondaySameWeek(d2, m1);
    }
  }

  /** The week that navigating by `direction` whole weeks from `week` lands on. */
  function NextWeek(week: Day, direction: int): (w: Day)
    ensures IsMonday(w)
  {
    GetMonday(week + 7 * direction)
  }

  /** From a Monday, navigating moves exactly 7 days per step and lands on a Monday again. */
  lemma NextWeekFromMonday(m: Day, direction: int)
    requires IsMonday(m)
    ensures NextWeek(m, direction) == m + 7 * direction
  {
    WeekdayShift(m, 7 * direction);
    ModShift(direction, 1);
    GetMondayOfMonday(m + 7 * direction);
  }

  /** Going forward n weeks and back n weeks returns to the same Monday. */
  lemma NextWeekInverse(m: Day, n: int)
    requires IsMonday(m)
    ensures NextWeek(NextWeek(m, n), -n) == m
  {
    NextWeekFromMonday(m, n);
    NextWeekFromMonday(m + 7 * n, -n);
  }

  /** 2024-06-03, a Monday: 19723 days from 1970-01-01 to 2024-01-01, plus 152 for January to May, plus 2. */
  const June3rd2024: Day := 19877

  /** 2024-06-03 goes to 2024-06-10 one week forward and to 2024-05-27 one week back. */
  lemma NavigationExample()
    ensures IsMonday(June3rd2024)
    ensures NextWeek(June3rd2024, 1) == June3rd2024 + 7
    ensures NextWeek(June3rd2024, -1) == June3rd2024 - 7
  {
    NextWeekFromMonday(June3rd2024, 1);
    NextWeekFromMonday(June3rd2024, -1);
  }
}
