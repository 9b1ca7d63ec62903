/**
 * Fox's time-of-day replies (backend/core/time_responses.py): the period of
 * the day, the greeting and the suggestion for it, and when to suggest a
 * break. Clock readings are whole seconds of local time; the random draw is
 * a parameter.
 */
module TimeResponses {
  import opened Common
  import opened OrderedMap

  datatype Period = Morning | Afternoon | Evening | Night

  /** The dictionary key of a period. */
  function PeriodKey(p: Period): string {
    match p
    case Morning => "morning"
    case Afternoon => "afternoon"
    case Evening => "evening"
    case Night => "night"
  }

  const TimeGreetings: seq<(string, seq<string>)> := [
    ("morning", ["صبح بخیر حامد! ☀️", "صبح به خیر! امروز چه برنامه‌ای داری؟", "سلام! صبح زیبایی است"]),
    ("afternoon", ["ظهر بخیر! 🌤️", "سلام! ناهار خوردی؟", "ظهرتون بخیر! چطور میگذره؟"]),
    ("evening", ["عصر بخیر! 🌅", "سلام! روز خوبی بود؟", "عصرتون بخیر! خسته نباشی"]),
    ("night", ["شب بخیر! 🌙", "سلام! دیر وقت کار می‌کنی؟", "شب بخیر! زود بخواب"])]

  const TimeSuggestions: seq<(string, seq<string>)> := [
    ("morning", ["وقت صبحانه است!", "قهوه بخور تا بیدار شی", "ورزش صبحگاهی خوبه"]),
    ("afternoon", ["وقت ناهاره!", "یکم استراحت کن", "آب بخور"]),
    ("evening", ["وقت شامه!", "فیلم ببین", "کتاب بخون"]),
    ("night", ["وقت خوابه!", "گوشی رو کنار بذار", "فردا زود بیدار شو"])]

  /** `get_time_period` at the given hour. */
  function PeriodOf(hour: int): Period {
    if 5 <= hour < 12 then Morning
    else if 12 <= hour < 17 then Afternoon
    else if 17 <= hour < 21 then Evening
    else Night
  }

  /** Each period holds exactly the hours of its bounds; every other hour is night. */
  lemma PeriodBuckets(hour: int)
    ensures PeriodOf(hour) == Morning <==> 5 <= hour < 12
    ensures PeriodOf(hour) == Afternoon <==> 12 <= hour < 17
    ensures PeriodOf(hour) == Evening <==> 17 <= hour < 21
    ensures PeriodOf(hour) == Night <==> hour < 5 || hour >= 21
  {
  }

  /** A table with an entry for every period, none of them empty. */
  predicate CoversPeriods(table: seq<(string, seq<string>)>) {
    forall p: Period :: Get(table, PeriodKey(p)).Some? && |Get(table, PeriodKey(p)).value| > 0
  }

  /** Both tables have every period as a key, so neither lookup raises `KeyError`. */
  lemma TablesCoverPeriods()
    ensures CoversPeriods(TimeGreetings) && CoversPeriods(TimeSuggestions)
  {
    forall p: Period ensures Get(TimeGreetings, PeriodKey(p)).Some? && |Get(TimeGreetings, PeriodKey(p)).value| > 0 {
      LookupOfKey(TimeGreetings, PeriodKey(p));
    }
    forall p: Period ensures Get(TimeSuggestions, PeriodKey(p)).Some? && |Get(TimeSuggestions, PeriodKey(p)).value| > 0 {
      LookupOfKey(TimeSuggestions, PeriodKey(p));
    }
  }

  /** Every key of these tables is a period's, and every value holds three replies. */
  lemma LookupOfKey(table: seq<(string, seq<string>)>, k: string)
    requires table == TimeGreetings || table == TimeSuggestions
    requires k in ["morning", "afternoon", "evening", "night"]
    ensures Get(table, k).Some? && |Get(table, k).value| == 3
  {
    assert Keys(table) == ["morning", "afternoon", "evening", "night"];
    var i := OrderedMap.IndexOf(table, k);
    assert |table[i].1| == 3;
  }

  /** `random.choice(table[period])` for the period of `hour`. */
  function Reply(table: seq<(string, seq<string>)>, hour: int, pick: nat): (r: string)
    requires CoversPeriods(table)
    ensures r in Get(table, PeriodKey(PeriodOf(hour))).value
  {
    Choose(Get(table, PeriodKey(PeriodOf(hour))).value, pick)
  }

  /** `get_time_greeting` at clock reading `now`. */
  function TimeGreeting(now: int, pick: nat): (r: string)
    ensures r in Get(TimeGreetings, PeriodKey(PeriodOf(HourOf(now)))).value
  {
    TablesCoverPeriods();
    Reply(TimeGreetings, HourOf(now), pick)
  }

  /** `get_time_suggestion` at clock reading `now`. */
  function TimeSuggestion(now: int, pick: nat): (r: string)
    ensures r in Get(TimeSuggestions, PeriodKey(PeriodOf(HourOf(now)))).value
  {
    TablesCoverPeriods();
    Reply(TimeSuggestions, HourOf(now), pick)
  }

  /** The minute of the hour of a clock reading. */
  function MinuteOf(t: int): (m: int)
    ensures 0 <= m < 60
  {
    (t % 3600) / 60
  }

  /**
   * `should_suggest_break`: on the hour, every second hour. A break is due
   * exactly in the first minute of an even hour: the clock reading lies less
   * than 60 seconds past a multiple of 7200.
   */
  predicate ShouldSuggestBreak(now: int): (due: bool)
    ensures due <==> now % 7200 < 60
  {
    EvenHourStart(now);
    MinuteOf(now) == 0 && HourOf(now) % 2 == 0
  }

  /** Minute 0 of an even hour is the first minute of a two-hour block. */
  lemma EvenHourStart(now: int)
    ensures MinuteOf(now) == 0 && HourOf(now) % 2 == 0 <==> now % 7200 < 60
  {
    var r := now % 7200;
    HourInBlock(now);
    MinuteInBlock(now);
    assert HourOf(now) % 2 == r / 3600;
    assert MinuteOf(now) == (r % 3600) / 60;
  }

  /** The parity of the hour is the half of the two-hour block. */
  lemma HourInBlock(now: int)
    ensures HourOf(now) % 2 == (now % 7200) / 3600
  {
    var q, r := now / 7200, now % 7200;
    var c := q % 12;
    assert now == 86400 * (q / 12) + (7200 * c + r);
    assert now % 86400 == 7200 * c + r;
    assert (now % 86400) / 3600 == 2 * c + r / 3600;
  }

  /** Seconds into the hour are seconds into the half of the block. */
  lemma MinuteInBlock(now: int)
    ensures now % 3600 == (now % 7200) % 3600
  {
    var q, r := now / 7200, now % 7200;
    assert now == 3600 * (2 * q + r / 3600) + r % 3600;
  }
}
