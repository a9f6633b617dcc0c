/** The month grid of the appointment calendar: every day from the Monday on
    or before the first of the month to the Sunday on or after its last day.
    Days are ordinals (consecutive integers); ordinal 0 is a Monday. */
module CalendarGrid {

  type Day = int

  /** 0 for Monday, ..., 6 for Sunday. */
  function Weekday(d: Day): (w: int)
    ensures 0 <= w < 7
  {
    d % 7
  }

  /** `startOfWeek(d, { weekStartsOn: 1 })`. */
  function StartOfWeek(d: Day): (s: Day)
    ensures s <= d < s + 7
    ensures Weekday(s) == 0
  {
    d - Weekday(d)
  }

  /** `endOfWeek(d, { weekStartsOn: 1 })`. */
  function EndOfWeek(d: Day): (e: Day)
    ensures e - 7 < d <= e
    ensures Weekday(e) == 6
  {
    d + 6 - Weekday(d)
  }

  /** A calendar month: the ordinal of its first day and its length. */
  datatype Month = Month(first: Day, length: int)
  {
    predicate Valid() { 28 <= length <= 31 }
    function Last(): Day { first + length - 1 }
  }

  /** `eachDayOfInterval` from the start of the first week to the end of the
      last week of the month. */
  function GridDays(m: Month): (days: seq<Day>)
    requires m.Valid()
  {
    var start := StartOfWeek(m.first);
    seq(EndOfWeek(m.Last()) - start + 1, i => start + i)
  }

  /** Both week bounds lie on multiples of seven (plus six for the end). */
  lemma WeekBounds(d: Day)
    ensures StartOfWeek(d) == 7 * (d / 7)
    ensures EndOfWeek(d) == 7 * (d / 7) + 6
  {
  }

  /** The grid is whole weeks. */
  lemma {:induction false} GridWholeWeeks(m: Month)
    requires m.Valid()
    ensures |GridDays(m)| % 7 == 0
    ensures 4 <= |GridDays(m)| / 7 <= 6
  {
    WeekBounds(m.first);
    WeekBounds(m.Last());
    var a, b := m.first / 7, m.Last() / 7;
    assert |GridDays(m)| == 7 * (b - a + 1);
    assert 7 * a <= m.first < 7 * a + 7;
    assert 7 * b <= m.Last() < 7 * b + 7;
    assert 3 <= b - a <= 5;
  }

  /** The grid is consecutive days from the Monday on or before the first of
      the month to the Sunday on or after its last day, so it covers every
      day of the month and no whole week outside it. */
  lemma GridSpan(m: Month)
    requires m.Valid()
    ensures var g := GridDays(m);
      && |g| % 7 == 0
      && Weekday(g[0]) == 0 && Weekday(g[|g| - 1]) == 6
      && (forall i :: 0 <= i < |g| - 1 ==> g[i + 1] == g[i] + 1)
      && (forall d :: m.first <= d <= m.Last() ==> d in g)
      && g[0] <= m.first && m.first - g[0] < 7
      && m.Last() <= g[|g| - 1] && g[|g| - 1] - m.Last() < 7
  {
    GridWholeWeeks(m);
    var g := GridDays(m);
    var start := StartOfWeek(m.first);
    assert g[|g| - 1] == EndOfWeek(m.Last());
    forall d | m.first <= d <= m.Last() ensures d in g {
      assert g[d - start] == d;
    }
  }

  /** A month of 28 to 31 days spans four, five or six grid rows. */
  lemma GridRows(m: Month)
    requires m.Valid()
    ensures |GridDays(m)| == 28 || |GridDays(m)| == 35 || |GridDays(m)| == 42
  {
    GridWholeWeeks(m);
  }
}
