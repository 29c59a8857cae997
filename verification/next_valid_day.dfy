/** The calendar rule of `selectNextValidDay` (Mysight/testData/testUtils.js):
    from today's day of the month and day of the week, pick the next day that
    is neither a Sunday nor a Monday and name its calendar button. */
module NextValidDay {
  import Decimal
  import Templates
  import opened Wrappers

  /** Day of the week as `Date.prototype.getDay` reports it: 0 = Sunday … 6 = Saturday. */
  type Weekday = d: int | 0 <= d < 7

  /** Day of the month as `Date.prototype.getDate` reports it. */
  type DayOfMonth = d: int | 1 <= d <= 31 witness 1

  const Sunday: Weekday := 0
  const Monday: Weekday := 1
  const Tuesday: Weekday := 2
  const Saturday: Weekday := 6

  /** The weekday `k` days after a day that falls on `w`. */
  function Advance(w: Weekday, k: nat): Weekday {
    (w + k) % 7
  }

  /** A weekday the rule may land on: Tuesday to Saturday. */
  predicate Bookable(w: Weekday) {
    w != Sunday && w != Monday
  }

  /** `k` is the least positive number of days after a `dow` that reaches a
      bookable weekday. */
  predicate IsNextBookable(dow: Weekday, k: nat) {
    && 1 <= k
    && Bookable(Advance(dow, k))
    && forall j :: 1 <= j < k ==> !Bookable(Advance(dow, j))
  }

  /** How many days the rule advances from a day falling on `dow`. */
  function Offset(dow: Weekday): (k: nat)
    ensures 1 <= k <= 3
    ensures IsNextBookable(dow, k)
  {
    if dow == Sunday then 2
    else if dow == Saturday then 3
    else 1
  }

  /** The day-of-month number the rule picks. It is today's number plus the
      advance, never reduced by the length of the month. */
  function NextDay(today: DayOfMonth, dow: Weekday): (n: nat)
    ensures today < n <= today + 3
    ensures 2 <= n <= 34
    ensures IsNextBookable(dow, n - today)
  {
    today + Offset(dow)
  }

  const SelectorPrefix: string := "[data-test-id=\"day_"
  const SelectorSuffix: string := "_of_the_month_button\"]"

  /** The locator of the calendar button for day `n` of the month. */
  function DaySelector(n: nat): string {
    Templates.Fill(SelectorPrefix, n, SelectorSuffix)
  }

  /** `selectNextValidDay` with the clock reading passed in: the selector of
      the button for the next bookable day. */
  function SelectNextValidDay(today: DayOfMonth, dow: Weekday): (selector: string)
    ensures Templates.Match(SelectorPrefix, selector, SelectorSuffix) == Some(NextDay(today, dow))
  {
    Templates.MatchFill(SelectorPrefix, NextDay(today, dow), SelectorSuffix);
    DaySelector(NextDay(today, dow))
  }

  /** The advance is 2 from a Sunday, 3 from a Saturday and 1 from any other
      day, and it is the only least advance to a bookable weekday. */
  lemma OffsetIsUniqueNextBookable(dow: Weekday, k: nat)
    ensures IsNextBookable(dow, k) <==> k == Offset(dow)
    ensures Offset(dow) == (if dow == Sunday then 2 else if dow == Saturday then 3 else 1)
  {
  }

  /** The day picked never falls on a Sunday or a Monday. */
  lemma SkipsSundayAndMonday(today: DayOfMonth, dow: Weekday)
    ensures Tuesday <= Advance(dow, NextDay(today, dow) - today) <= Saturday
  {
  }

  /** From a weekend the rule always lands on the Tuesday after it. */
  lemma WeekendLandsOnTuesday(today: DayOfMonth, dow: Weekday)
    requires dow == Saturday || dow == Sunday
    ensures Advance(dow, NextDay(today, dow) - today) == Tuesday
  {
  }

  /** The day number is not wrapped into the next month: near the end of a
      month the selector names day numbers past the end of that month, up to
      34. */
  lemma NoMonthWrap()
    ensures NextDay(31, Saturday) == 34
    ensures NextDay(31, Sunday) == 33
    ensures NextDay(30, 5) == 31
    ensures SelectNextValidDay(31, Saturday) == "[data-test-id=\"day_34_of_the_month_button\"]"
  {
    assert Decimal.FromNat(34) == "34" by {
      assert Decimal.FromNat(3) == "3";
    }
  }

  /** Different day numbers name different buttons, and the button names the
      day: the selector is a faithful encoding of the picked day. */
  lemma SelectorIdentifiesDay(today1: DayOfMonth, dow1: Weekday, today2: DayOfMonth, dow2: Weekday)
    ensures SelectNextValidDay(today1, dow1) == SelectNextValidDay(today2, dow2)
            <==> NextDay(today1, dow1) == NextDay(today2, dow2)
  {
    Templates.FillInjective(SelectorPrefix, NextDay(today1, dow1), NextDay(today2, dow2), SelectorSuffix);
  }
}
