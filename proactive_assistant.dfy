/**
 * Fox's proactive assistant (backend/core/proactive_assistant.py): reminders
 * that fall due, and a tip of the hour offered at most once every thirty
 * minutes. Clock readings are whole seconds of local time. The ISO text of a
 * reminder's time is taken as already parsed. The random draws are
 * parameters. The two JSON files are the fields.
 */
module ProactiveAssistant {
  import opened Common

  /** One reminder; `created` is the clock reading when it was added. */
  datatype Reminder = Reminder(id: int, text: string, remindTime: int, created: int, completed: bool)

  /** One suggestion that was given, and when. */
  datatype GivenSuggestion = GivenSuggestion(text: string, time: int)

  /** The suggestions file: the time of the last suggestion, if any, and the recent ones. */
  datatype SuggestionLog = SuggestionLog(lastSuggestionTime: Option<int>, lastSuggestions: seq<GivenSuggestion>)

  const EmptyLog: SuggestionLog := SuggestionLog(None, [])

  /** At least this many seconds must have passed, strictly, before the next suggestion. */
  const SuggestionInterval: int := 1800

  /** Only this many recent suggestions are kept. */
  const KeptSuggestions: nat := 10

  const MorningSuggestions: seq<string> := [
    "☕ وقت قهوه صبحگاهی! انرژی بگیر",
    "🌅 صبح بخیر! برنامه امروزت چیه؟",
    "💪 ورزش صبحگاهی خوبه، حداقل کشش",
    "📰 اخبار امروز رو چک کردی؟"]

  const AfternoonSuggestions: seq<string> := [
    "🍽️ وقت ناهاره! چی می‌خوری؟",
    "💧 آب بخور، بدنت نیاز داره",
    "👀 چشماتو استراحت بده، از صفحه دور شو",
    "🚶 یکم قدم بزن، خون به جریان بیفته"]

  const EveningSuggestions: seq<string> := [
    "🍽️ شام چی داری؟ سبک بخور",
    "📚 وقت مطالعه یا فیلم دیدن",
    "👨‍👩‍👧‍👦 با خانواده وقت بگذرون",
    "📝 برنامه فردا رو بچین"]

  const NightSuggestions: seq<string> := [
    "😴 وقت خوابه! گوشی رو کنار بذار",
    "🧘 یکم مدیتیشن یا آرامش",
    "📖 کتاب بخون تا خوابت ببره",
    "🌙 شب بخیر! فردا روز بهتری خواهد بود"]

  const HealthTips: seq<string> := [
    "💧 آب بخور! حداقل 8 لیوان در روز",
    "👀 قانون 20-20-20: هر 20 دقیقه، 20 ثانیه به 20 متری نگاه کن",
    "🧘 نفس عمیق بکش، استرس رو کم کن",
    "🚶 حداقل 30 دقیقه در روز راه برو",
    "😴 7-8 ساعت بخواب، مغزت نیاز داره",
    "🥗 میوه و سبزی بخور، ویتامین بگیر"]

  const ProductivityTips: seq<string> := [
    "📝 لیست کارهای امروز رو بنویس",
    "⏰ تکنیک پومودورو امتحان کن: 25 دقیقه کار، 5 دقیقه استراحت",
    "🎯 روی مهم‌ترین کار تمرکز کن",
    "📱 اعلان‌های غیرضروری رو خاموش کن",
    "🧹 میز کارت رو مرتب کن، ذهنت هم مرتب میشه",
    "📚 چیز جدیدی یاد بگیر، مغزت رو فعال نگه دار"]

  /** The four parts of the day the time-based suggestions follow. */
  datatype DayPart = Morning | Afternoon | Evening | Night

  function PartOfDay(hour: int): DayPart {
    if 6 <= hour < 12 then Morning
    else if 12 <= hour < 17 then Afternoon
    else if 17 <= hour < 21 then Evening
    else Night
  }

  /** Each hour falls in exactly the bucket whose bounds hold it; every other hour is night. */
  lemma PartOfDayBuckets(hour: int)
    ensures PartOfDay(hour) == Morning <==> 6 <= hour < 12
    ensures PartOfDay(hour) == Afternoon <==> 12 <= hour < 17
    ensures PartOfDay(hour) == Evening <==> 17 <= hour < 21
    ensures PartOfDay(hour) == Night <==> hour < 6 || hour >= 21
  {
  }

  function SuggestionsFor(part: DayPart): (r: seq<string>)
    ensures |r| == 4
  {
    match part
    case Morning => MorningSuggestions
    case Afternoon => AfternoonSuggestions
    case Evening => EveningSuggestions
    case Night => NightSuggestions
  }

  /** `get_time_based_suggestions` at the given hour. */
  function TimeBasedSuggestion(hour: int, pick: nat): (r: string)
    ensures r in SuggestionsFor(PartOfDay(hour))
  {
    Choose(SuggestionsFor(PartOfDay(hour)), pick)
  }

  /** The three kinds of suggestion `get_random_suggestion` chooses among. */
  datatype SuggestionKind = TimeBased | Health | Productivity

  const SuggestionKinds: seq<SuggestionKind> := [TimeBased, Health, Productivity]

  /** `get_random_suggestion`: `kindPick` chooses the kind and `tipPick` the tip within it. */
  function RandomSuggestion(hour: int, kindPick: nat, tipPick: nat): (r: string)
    ensures r in SuggestionsFor(PartOfDay(hour)) || r in HealthTips || r in ProductivityTips
  {
    match Choose(SuggestionKinds, kindPick)
    case TimeBased => TimeBasedSuggestion(hour, tipPick)
    case Health => Choose(HealthTips, tipPick)
    case Productivity => Choose(ProductivityTips, tipPick)
  }

  /** `should_give_suggestion`: never one before, or more than half an hour since the last. */
  predicate SuggestionDue(log: SuggestionLog, now: int) {
    match log.lastSuggestionTime
    case None => true
    case Some(last) => now - last > SuggestionInterval
  }

  /** The log after `suggestion` was given at `now`: the time recorded, the last ten kept. */
  function Given(log: SuggestionLog, suggestion: string, now: int): (r: SuggestionLog)
    ensures r.lastSuggestionTime == Some(now)
    ensures |r.lastSuggestions| <= KeptSuggestions
    ensures |r.lastSuggestions| > 0 && r.lastSuggestions[|r.lastSuggestions| - 1] == GivenSuggestion(suggestion, now)
    ensures r.lastSuggestions == TakeLast(log.lastSuggestions + [GivenSuggestion(suggestion, now)], KeptSuggestions)
  {
    var appended := log.lastSuggestions + [GivenSuggestion(suggestion, now)];
    SuggestionLog(Some(now), if |appended| > KeptSuggestions then appended[|appended| - KeptSuggestions..] else appended)
  }

  /**
   * Once a suggestion is given at `now`, the next one is due exactly when
   * more than 1800 seconds have passed since then, whatever the log held.
   */
  lemma SuggestionSpacing(log: SuggestionLog, suggestion: string, now: int, later: int)
    ensures SuggestionDue(Given(log, suggestion, now), later) <==> later > now + SuggestionInterval
  {
  }

  /** The log keeps its suggestions in the order they were given, dropping the oldest. */
  lemma GivenKeepsNewest(log: SuggestionLog, suggestion: string, now: int)
    ensures var r := Given(log, suggestion, now).lastSuggestions;
      (|log.lastSuggestions| < KeptSuggestions ==> r == log.lastSuggestions + [GivenSuggestion(suggestion, now)])
      && (|log.lastSuggestions| >= KeptSuggestions ==>
            |r| == KeptSuggestions && r[..KeptSuggestions - 1] == log.lastSuggestions[|log.lastSuggestions| - (KeptSuggestions - 1)..])
  {
    var appended := log.lastSuggestions + [GivenSuggestion(suggestion, now)];
    if |log.lastSuggestions| >= KeptSuggestions {
      var r := Given(log, suggestion, now).lastSuggestions;
      assert r == appended[|appended| - KeptSuggestions..];
      assert r[..KeptSuggestions - 1] == log.lastSuggestions[|log.lastSuggestions| - (KeptSuggestions - 1)..];
    }
  }

  /** An uncompleted reminder whose time has come. */
  predicate IsDue(r: Reminder, now: int) {
    !r.completed && now >= r.remindTime
  }

  function DueAt(now: int): Reminder -> bool {
    (r: Reminder) => IsDue(r, now)
  }

  /** Every reminder's id is its position counted from 1. */
  predicate NumberedInOrder(rs: seq<Reminder>) {
    forall i :: 0 <= i < |rs| ==> rs[i].id == i + 1
  }

  /** Reminders numbered in order have distinct ids, each between 1 and their number. */
  lemma NumberedIdsDistinct(rs: seq<Reminder>)
    requires NumberedInOrder(rs)
    ensures forall i, j :: 0 <= i < j < |rs| ==> rs[i].id != rs[j].id
    ensures forall i :: 0 <= i < |rs| ==> 1 <= rs[i].id <= |rs|
  {
  }

  const AddedPrefix: string := "✅ یادآوری اضافه شد: "

  const SuggestionPrefix: string := "💡 "

  class ProactiveAssistant {
    var suggestions: SuggestionLog
    var reminders: seq<Reminder>

    /** `load_data`: the files when they can be read, empty logs otherwise. */
    constructor (storedSuggestions: Option<SuggestionLog>, storedReminders: Option<seq<Reminder>>)
      ensures suggestions == storedSuggestions.GetOr(EmptyLog) && reminders == storedReminders.GetOr([])
    {
      suggestions := storedSuggestions.GetOr(EmptyLog);
      reminders := storedReminders.GetOr([]);
    }

    /**
     * `add_reminder` at clock reading `now`: one uncompleted reminder whose
     * id is one more than the number of reminders before it. Reminders
     * numbered in order stay so.
     */
    method AddReminder(text: string, remindTime: int, now: int) returns (message: string)
      modifies this
      ensures reminders == old(reminders) + [Reminder(|old(reminders)| + 1, text, remindTime, now, false)]
      ensures NumberedInOrder(old(reminders)) ==> NumberedInOrder(reminders)
      ensures suggestions == old(suggestions)
      ensures message == AddedPrefix + text
    {
      reminders := reminders + [Reminder(|reminders| + 1, text, remindTime, now, false)];
      message := AddedPrefix + text;
    }

    /** `check_reminders`: the uncompleted reminders that are due, in order. */
    method CheckReminders(now: int) returns (active: seq<Reminder>)
      ensures active == Filter(reminders, DueAt(now))
      ensures forall r :: r in active <==> r in reminders && IsDue(r, now)
    {
      active := DueOf(reminders, now);
      forall r | r in reminders && IsDue(r, now) ensures r in active {
        FilterKeeps(reminders, DueAt(now), r);
      }
    }

    /** The loop of `check_reminders`. */
    static method DueOf(rs: seq<Reminder>, now: int) returns (active: seq<Reminder>)
      ensures active == Filter(rs, DueAt(now))
    {
      active := [];
      var i := 0;
      while i < |rs|
        invariant 0 <= i <= |rs|
        invariant active == Filter(rs[..i], DueAt(now))
      {
        FilterStep(rs, i, DueAt(now));
        if !rs[i].completed && now >= rs[i].remindTime {
          active := active + [rs[i]];
        }
        i := i + 1;
      }
      assert rs[..i] == rs;
    }

    /** `should_give_suggestion` */
    predicate ShouldGiveSuggestion(now: int)
      reads this
      ensures suggestions.lastSuggestionTime.None? ==> ShouldGiveSuggestion(now)
      ensures suggestions.lastSuggestionTime.Some? && now <= suggestions.lastSuggestionTime.value + SuggestionInterval ==>
        !ShouldGiveSuggestion(now)
      ensures suggestions.lastSuggestionTime.Some? && now > suggestions.lastSuggestionTime.value + SuggestionInterval ==>
        ShouldGiveSuggestion(now)
      ensures ShouldGiveSuggestion(now) ==> forall later :: later >= now ==> SuggestionDue(suggestions, later)
    {
      SuggestionDue(suggestions, now)
    }

    /**
     * `give_suggestion` at clock reading `now`: nothing when one is not yet
     * due; otherwise a random suggestion for the hour of `now`, recorded in
     * the log.
     */
    method GiveSuggestion(now: int, kindPick: nat, tipPick: nat) returns (r: Option<string>)
      modifies this
      ensures !SuggestionDue(old(suggestions), now) ==> r == None && suggestions == old(suggestions)
      ensures SuggestionDue(old(suggestions), now) ==>
        var s := RandomSuggestion(HourOf(now), kindPick, tipPick);
        r == Some(SuggestionPrefix + s) && suggestions == Given(old(suggestions), s, now)
      ensures reminders == old(reminders)
    {
      if !ShouldGiveSuggestion(now) {
        return None;
      }
      var suggestion := RandomSuggestion(HourOf(now), kindPick, tipPick);
      var recent := suggestions.lastSuggestions + [GivenSuggestion(suggestion, now)];
      if |recent| > KeptSuggestions {
        recent := recent[|recent| - KeptSuggestions..];
      }
      suggestions := SuggestionLog(Some(now), recent);
      r := Some(SuggestionPrefix + suggestion);
    }
  }
}
