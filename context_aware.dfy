/**
 * The calendar parts of Fox's context awareness
 * (backend/core/context_aware.py): the season of a month and the rough
 * Persian date. The caller reads year, month and day off the clock.
 */
module ContextAware {
  import opened Common
  import opened Text

  datatype Season = Winter | Spring | Summer | Autumn

  /** `get_season` on the month number. */
  function SeasonOf(month: int): Season {
    if month in [12, 1, 2] then Winter
    else if month in [3, 4, 5] then Spring
    else if month in [6, 7, 8] then Summer
    else Autumn
  }

  /** December to February is winter, March to May spring, June to August summer, anything else autumn. */
  lemma SeasonMonths(month: int)
    ensures SeasonOf(month) == Winter <==> month == 12 || 1 <= month <= 2
    ensures SeasonOf(month) == Spring <==> 3 <= month <= 5
    ensures SeasonOf(month) == Summer <==> 6 <= month <= 8
    ensures SeasonOf(month) == Autumn <==> !(1 <= month <= 8 || month == 12)
  {
  }

  /** The season as it is shown. */
  function SeasonName(s: Season): string {
    match s
    case Winter => "زمستان"
    case Spring => "بهار"
    case Summer => "تابستان"
    case Autumn => "پاییز"
  }

  /** `get_season` */
  function GetSeason(month: int): (name: string)
    ensures name in ["زمستان", "بهار", "تابستان", "پاییز"]
    ensures name == "زمستان" <==> month == 12 || 1 <= month <= 2
    ensures name == "بهار" <==> 3 <= month <= 5
    ensures name == "تابستان" <==> 6 <= month <= 8
  {
    SeasonName(SeasonOf(month))
  }

  /** The Persian year is taken as the Gregorian year less 621. */
  const YearOffset: int := 621

  /**
   * `get_persian_date`: `f"{year - 621}/{month}/{day}"`, with no zero padding.
   * The date splits at its two slashes into exactly those three numerals.
   */
  function PersianDate(year: int, month: int, day: int): (date: string)
    ensures SplitOn(date, '/') == [IntToString(year - YearOffset), IntToString(month), IntToString(day)]
  {
    var ps := [IntToString(year - YearOffset), IntToString(month), IntToString(day)];
    var date := IntToString(year - YearOffset) + "/" + IntToString(month) + "/" + IntToString(day);
    assert Join(ps, "/") == date by {
      assert ps[1..][1..] == [ps[2]];
      assert Join(ps[1..], "/") == ps[1] + "/" + ps[2];
      assert Join(ps, "/") == ps[0] + "/" + (ps[1] + "/" + ps[2]);
    }
    SplitOnJoin(ps, '/');
    date
  }

  /** Each of the three parts of the date reads back as its number. */
  lemma PersianDateParts(year: int, month: int, day: int)
    ensures ParseInt(SplitOn(PersianDate(year, month, day), '/')[0]) == Some(year - YearOffset)
    ensures ParseInt(SplitOn(PersianDate(year, month, day), '/')[1]) == Some(month)
    ensures ParseInt(SplitOn(PersianDate(year, month, day), '/')[2]) == Some(day)
  {
    IntToStringRoundTrip(year - YearOffset);
    IntToStringRoundTrip(month);
    IntToStringRoundTrip(day);
  }
}
