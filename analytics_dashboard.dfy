/**
 * Fox's analytics dashboard (backend/core/analytics_dashboard.py): the
 * counters `record_conversation` keeps per day, per week and per month, and
 * the integer parts of today's and the overall statistics, with the
 * engagement score. Dictionaries are ordered maps that keep insertion order,
 * as Python's do. The caller formats the clock into the three date keys, and
 * clock readings are whole seconds of local time. The JSON file is the
 * field.
 */
module AnalyticsDashboard {
  import opened Common
  import opened Text
  import opened OrderedMap
  import opened Sorting

  /** A dictionary from names to counts. */
  type Counter = seq<(string, int)>

  /** One day's entry; `user_satisfaction` is never written and is not modelled. */
  datatype DailyStats = DailyStats(conversations: int, totalResponseTime: real, topics: Counter,
                                   hourlyDistribution: Counter, userWords: int, aiWords: int)

  const NewDaily: DailyStats := DailyStats(0, 0.0, [], [], 0, 0)

  datatype WeeklyStats = WeeklyStats(conversations: int, topTopics: Counter, activeDays: set<string>)

  const NewWeekly: WeeklyStats := WeeklyStats(0, [], {})

  datatype MonthlyStats = MonthlyStats(conversations: int, totalDaysActive: int, learningSessions: int,
                                       achievementsUnlocked: int)

  const NewMonthly: MonthlyStats := MonthlyStats(0, 0, 0, 0)

  type Days = seq<(string, DailyStats)>

  /** The dashboard file: per-day, per-week (`%Y-W%U`) and per-month (`%Y-%m`) entries. */
  datatype Analytics = Analytics(dailyStats: Days, weeklyStats: seq<(string, WeeklyStats)>,
                                 monthlyStats: seq<(string, MonthlyStats)>)

  const EmptyAnalytics: Analytics := Analytics([], [], [])

  /** The clock formatted as `%Y-%m-%d`, `%Y-W%U` and `%Y-%m`. */
  datatype DateKeys = DateKeys(day: string, week: string, month: string)

  /** `if topic:` — neither `None` nor empty. */
  predicate TopicGiven(topic: Option<string>) { topic.Some? && topic.value != [] }

  /** A topic counter after one conversation: one more for the topic, when there is one. */
  function WithTopic(c: Counter, topic: Option<string>): Counter {
    if TopicGiven(topic) then Increment(c, topic.value) else c
  }

  /** The day's entry after one conversation at `hour`. */
  function DayRecorded(d: DailyStats, userInput: string, aiResponse: string, responseTime: real,
                       topic: Option<string>, hour: nat): DailyStats
  {
    d.(conversations := d.conversations + 1,
       totalResponseTime := d.totalResponseTime + responseTime,
       hourlyDistribution := Increment(d.hourlyDistribution, NatToString(hour)),
       userWords := d.userWords + |Words(userInput)|,
       aiWords := d.aiWords + |Words(aiResponse)|,
       topics := WithTopic(d.topics, topic))
  }

  /** The week's entry after one conversation on `day`. */
  function WeekRecorded(w: WeeklyStats, day: string, topic: Option<string>): WeeklyStats {
    w.(conversations := w.conversations + 1, activeDays := w.activeDays + {day},
       topTopics := WithTopic(w.topTopics, topic))
  }

  function MonthRecorded(m: MonthlyStats): MonthlyStats {
    m.(conversations := m.conversations + 1)
  }

  /** `record_conversation` at clock reading `now`, whose date keys are `keys`. */
  function Recorded(a: Analytics, userInput: string, aiResponse: string, responseTime: real,
                    topic: Option<string>, keys: DateKeys, now: int): Analytics
  {
    Analytics(
      Put(a.dailyStats, keys.day,
          DayRecorded(GetOr(a.dailyStats, keys.day, NewDaily), userInput, aiResponse, responseTime, topic, HourOf(now))),
      Put(a.weeklyStats, keys.week, WeekRecorded(GetOr(a.weeklyStats, keys.week, NewWeekly), keys.day, topic)),
      Put(a.monthlyStats, keys.month, MonthRecorded(GetOr(a.monthlyStats, keys.month, NewMonthly))))
  }

  /** The day's, the week's and the month's conversation counters each rise by exactly one. */
  lemma RecordedCounters(a: Analytics, userInput: string, aiResponse: string, responseTime: real,
                         topic: Option<string>, keys: DateKeys, now: int)
    ensures var r := Recorded(a, userInput, aiResponse, responseTime, topic, keys, now);
      HasKey(r.dailyStats, keys.day) && HasKey(r.weeklyStats, keys.week) && HasKey(r.monthlyStats, keys.month)
      && GetOr(r.dailyStats, keys.day, NewDaily).conversations == GetOr(a.dailyStats, keys.day, NewDaily).conversations + 1
      && GetOr(r.weeklyStats, keys.week, NewWeekly).conversations == GetOr(a.weeklyStats, keys.week, NewWeekly).conversations + 1
      && GetOr(r.monthlyStats, keys.month, NewMonthly).conversations == GetOr(a.monthlyStats, keys.month, NewMonthly).conversations + 1
  {
  }

  /**
   * The bucket of the hour of `now` rises by one and no other bucket
   * changes; the word counts grow by the number of words of each text.
   */
  lemma RecordedHourAndWords(a: Analytics, userInput: string, aiResponse: string, responseTime: real,
                             topic: Option<string>, keys: DateKeys, now: int)
    ensures var d := GetOr(a.dailyStats, keys.day, NewDaily);
      var d' := GetOr(Recorded(a, userInput, aiResponse, responseTime, topic, keys, now).dailyStats, keys.day, NewDaily);
      GetOr(d'.hourlyDistribution, NatToString(HourOf(now)), 0) == GetOr(d.hourlyDistribution, NatToString(HourOf(now)), 0) + 1
      && (forall h :: h != NatToString(HourOf(now)) ==> Get(d'.hourlyDistribution, h) == Get(d.hourlyDistribution, h))
      && d'.userWords == d.userWords + |Words(userInput)| && d'.aiWords == d.aiWords + |Words(aiResponse)|
  {
    var d := GetOr(a.dailyStats, keys.day, NewDaily);
    var r := Recorded(a, userInput, aiResponse, responseTime, topic, keys, now);
    assert GetOr(r.dailyStats, keys.day, NewDaily) == DayRecorded(d, userInput, aiResponse, responseTime, topic, HourOf(now));
    DayHourAndWords(d, userInput, aiResponse, responseTime, topic, HourOf(now));
  }

  /** `RecordedHourAndWords` for the day's entry on its own. */
  lemma DayHourAndWords(d: DailyStats, userInput: string, aiResponse: string, responseTime: real,
                        topic: Option<string>, hour: nat)
    ensures var d' := DayRecorded(d, userInput, aiResponse, responseTime, topic, hour);
      GetOr(d'.hourlyDistribution, NatToString(hour), 0) == GetOr(d.hourlyDistribution, NatToString(hour), 0) + 1
      && (forall h :: h != NatToString(hour) ==> Get(d'.hourlyDistribution, h) == Get(d.hourlyDistribution, h))
      && d'.userWords == d.userWords + |Words(userInput)| && d'.aiWords == d.aiWords + |Words(aiResponse)|
  {
    var d' := DayRecorded(d, userInput, aiResponse, responseTime, topic, hour);
    assert d'.hourlyDistribution == Increment(d.hourlyDistribution, NatToString(hour));
  }

  /** Without a topic a counter stays as it was; with one, only that topic's count rises, by one. */
  lemma WithTopicCounts(c: Counter, topic: Option<string>)
    ensures !TopicGiven(topic) ==> WithTopic(c, topic) == c
    ensures TopicGiven(topic) ==> GetOr(WithTopic(c, topic), topic.value, 0) == GetOr(c, topic.value, 0) + 1
    ensures TopicGiven(topic) ==> forall t :: t != topic.value ==> Get(WithTopic(c, topic), t) == Get(c, t)
  {
  }

  /** The day's and the week's topic counters change as `WithTopic` says, and in no other way. */
  lemma RecordedTopics(a: Analytics, userInput: string, aiResponse: string, responseTime: real,
                       topic: Option<string>, keys: DateKeys, now: int)
    ensures var r := Recorded(a, userInput, aiResponse, responseTime, topic, keys, now);
      GetOr(r.dailyStats, keys.day, NewDaily).topics == WithTopic(GetOr(a.dailyStats, keys.day, NewDaily).topics, topic)
      && GetOr(r.weeklyStats, keys.week, NewWeekly).topTopics == WithTopic(GetOr(a.weeklyStats, keys.week, NewWeekly).topTopics, topic)
  {
  }

  /** The week's active days gain today and nothing else. */
  lemma RecordedActiveDays(a: Analytics, userInput: string, aiResponse: string, responseTime: real,
                           topic: Option<string>, keys: DateKeys, now: int)
    ensures var w' := GetOr(Recorded(a, userInput, aiResponse, responseTime, topic, keys, now).weeklyStats, keys.week, NewWeekly);
      w'.activeDays == GetOr(a.weeklyStats, keys.week, NewWeekly).activeDays + {keys.day}
  {
  }

  /** Every other day, week and month keeps its entry. */
  lemma RecordedOthersUnchanged(a: Analytics, userInput: string, aiResponse: string, responseTime: real,
                                topic: Option<string>, keys: DateKeys, now: int)
    ensures var r := Recorded(a, userInput, aiResponse, responseTime, topic, keys, now);
      (forall k :: k != keys.day ==> Get(r.dailyStats, k) == Get(a.dailyStats, k))
      && (forall k :: k != keys.week ==> Get(r.weeklyStats, k) == Get(a.weeklyStats, k))
      && (forall k :: k != keys.month ==> Get(r.monthlyStats, k) == Get(a.monthlyStats, k))
  {
    var d := DayRecorded(GetOr(a.dailyStats, keys.day, NewDaily), userInput, aiResponse, responseTime, topic, HourOf(now));
    var w := WeekRecorded(GetOr(a.weeklyStats, keys.week, NewWeekly), keys.day, topic);
    var m := MonthRecorded(GetOr(a.monthlyStats, keys.month, NewMonthly));
    var r := Recorded(a, userInput, aiResponse, responseTime, topic, keys, now);
    assert r == Analytics(Put(a.dailyStats, keys.day, d), Put(a.weeklyStats, keys.week, w), Put(a.monthlyStats, keys.month, m));
    PutKeepsOthers(a.dailyStats, keys.day, d);
    PutKeepsOthers(a.weeklyStats, keys.week, w);
    PutKeepsOthers(a.monthlyStats, keys.month, m);
  }

  /** Putting one key leaves every other key's lookup alone. */
  lemma PutKeepsOthers<V>(m: seq<(string, V)>, k: string, v: V)
    ensures forall k' :: k' != k ==> Get(Put(m, k, v), k') == Get(m, k')
  {
  }

  /** No day has a negative conversation count. */
  predicate NonNegative(ds: Days) {
    forall i :: 0 <= i < |ds| ==> ds[i].1.conversations >= 0
  }

  /** Recording a conversation keeps every day's count non-negative. */
  lemma RecordedNonNegative(a: Analytics, userInput: string, aiResponse: string, responseTime: real,
                            topic: Option<string>, keys: DateKeys, now: int)
    requires NonNegative(a.dailyStats)
    ensures NonNegative(Recorded(a, userInput, aiResponse, responseTime, topic, keys, now).dailyStats)
  {
    var d := GetOr(a.dailyStats, keys.day, NewDaily);
    if HasKey(a.dailyStats, keys.day) {
      assert d.conversations >= 0 by {
        assert a.dailyStats[OrderedMap.IndexOf(a.dailyStats, keys.day)].1 == d;
      }
    }
    PutEntries(a.dailyStats, keys.day, DayRecorded(d, userInput, aiResponse, responseTime, topic, HourOf(now)));
  }

  /** Every entry after `d[k] = v` is `(k, v)` or an entry from before. */
  lemma PutEntries<K(!new), V>(m: seq<(K, V)>, k: K, v: V)
    ensures forall i :: 0 <= i < |Put(m, k, v)| ==> Put(m, k, v)[i] == (k, v) || Put(m, k, v)[i] in m
  {
    var r := Put(m, k, v);
    if HasKey(m, k) {
      assert r == m[OrderedMap.IndexOf(m, k) := (k, v)];
    } else {
      assert r == m + [(k, v)];
    }
  }

  function ActiveDay(): ((string, DailyStats)) -> bool {
    (e: (string, DailyStats)) => e.1.conversations > 0
  }

  /** The days with at least one conversation. */
  function ActiveDays(ds: Days): nat { CountIf(ds, ActiveDay()) }

  /** The conversations of all days, summed. */
  function TotalConversations(ds: Days): int {
    if ds == [] then 0 else TotalConversations(ds[..|ds| - 1]) + ds[|ds| - 1].1.conversations
  }

  /** With no negative day, the total is not negative. */
  lemma {:induction false} TotalNonNegative(ds: Days)
    ensures NonNegative(ds) ==> TotalConversations(ds) >= 0
  {
    if ds != [] {
      TotalNonNegative(ds[..|ds| - 1]);
    }
  }

  /** The keys of a dictionary, as a set. */
  function KeySet(c: Counter): (ks: set<string>)
    ensures forall t :: t in ks <==> HasKey(c, t)
  {
    set i | 0 <= i < |c| :: c[i].0
  }

  /** Every topic any day has counted. */
  function TopicsOf(ds: Days): set<string> {
    if ds == [] then {} else TopicsOf(ds[..|ds| - 1]) + KeySet(ds[|ds| - 1].1.topics)
  }

  /** `min(100, 2·active_days + 5·topics + min(total, 50))` */
  function EngagementScore(activeDays: nat, topics: nat, total: int): (score: int)
    ensures score <= 100
    ensures total >= 0 ==> 0 <= score
    ensures total >= 50 ==> score >= Min(100, 50 + 2 * activeDays + 5 * topics)
  {
    Min(100, activeDays * 2 + topics * 5 + Min(total, 50))
  }

  datatype EngagementLevel = Excellent | Good | Average | Low

  function LevelOf(score: int): EngagementLevel {
    if score >= 80 then Excellent
    else if score >= 60 then Good
    else if score >= 40 then Average
    else Low
  }

  function LevelRank(l: EngagementLevel): nat {
    match l
    case Low => 0
    case Average => 1
    case Good => 2
    case Excellent => 3
  }

  /** The bands: a higher score never gets a lower level, and each band starts where the source says. */
  lemma LevelBands(s: int, t: int)
    ensures s <= t ==> LevelRank(LevelOf(s)) <= LevelRank(LevelOf(t))
    ensures LevelOf(s) == Excellent <==> s >= 80
    ensures LevelOf(s) == Good <==> 60 <= s < 80
    ensures LevelOf(s) == Average <==> 40 <= s < 60
    ensures LevelOf(s) == Low <==> s < 40
  {
  }

  /** The level as it is shown. */
  function LevelText(l: EngagementLevel): string {
    match l
    case Excellent => "عالی 🌟"
    case Good => "خوب 👍"
    case Average => "متوسط 📊"
    case Low => "کم 📉"
  }

  datatype Engagement = Engagement(score: int, level: string, activeDays: nat, topicDiversity: nat)

  /** `_calculate_engagement` over the days. */
  function EngagementOf(ds: Days): (e: Engagement)
    ensures e.score <= 100
    ensures NonNegative(ds) ==> 0 <= e.score
    ensures e.level == LevelText(LevelOf(e.score)) && e.activeDays == ActiveDays(ds) && e.topicDiversity == |TopicsOf(ds)|
  {
    TotalNonNegative(ds);
    var score := EngagementScore(ActiveDays(ds), |TopicsOf(ds)|, TotalConversations(ds));
    Engagement(score, LevelText(LevelOf(score)), ActiveDays(ds), |TopicsOf(ds)|)
  }

  /** `all[topic] = all.get(topic, 0) + count` */
  function AddCount(acc: Counter, k: string, c: int): (r: Counter)
    ensures GetOr(r, k, 0) == GetOr(acc, k, 0) + c && HasKey(r, k)
    ensures forall t :: t != k ==> Get(r, t) == Get(acc, t)
  {
    Put(acc, k, GetOr(acc, k, 0) + c)
  }

  /** `for topic, count in d.items(): all[topic] = all.get(topic, 0) + count`, from the `j`-th item on. */
  function AddCountsFrom(acc: Counter, m: Counter, j: nat): Counter
    requires j <= |m|
    decreases |m| - j
  {
    if j == |m| then acc else AddCountsFrom(AddCount(acc, m[j].0, m[j].1), m, j + 1)
  }

  function AddCounts(acc: Counter, m: Counter): Counter {
    AddCountsFrom(acc, m, 0)
  }

  /** The topic counts of all days merged, in first-seen order. */
  function MergedTopics(ds: Days): Counter {
    if ds == [] then [] else AddCounts(MergedTopics(ds[..|ds| - 1]), ds[|ds| - 1].1.topics)
  }

  /** From the `j`-th item on, each key gains what the remaining items hold for it. */
  lemma {:induction false} AddCountsFromGet(acc: Counter, m: Counter, j: nat, t: string)
    requires Valid(m) && j <= |m|
    ensures GetOr(AddCountsFrom(acc, m, j), t, 0) == GetOr(acc, t, 0) + GetOr(m[j..], t, 0)
    ensures HasKey(AddCountsFrom(acc, m, j), t) <==> HasKey(acc, t) || HasKey(m[j..], t)
    decreases |m| - j
  {
    if j < |m| {
      var k, c := m[j].0, m[j].1;
      var acc' := AddCount(acc, k, c);
      assert AddCountsFrom(acc, m, j) == AddCountsFrom(acc', m, j + 1);
      AddCountsFromGet(acc', m, j + 1, t);
      assert m[j..][1..] == m[j + 1..];
      GetCons(m[j..], t);
      assert Get(m[j..], t) == if k == t then Some(c) else Get(m[j + 1..], t);
      if t == k {
        assert !HasKey(m[j + 1..], k);
        assert GetOr(acc', t, 0) == GetOr(acc, t, 0) + c;
      } else {
        assert Get(acc', t) == Get(acc, t);
      }
    }
  }

  /** Adding a dictionary's counts adds, key by key, what it holds. */
  lemma AddCountsGet(acc: Counter, m: Counter, t: string)
    requires Valid(m)
    ensures GetOr(AddCounts(acc, m), t, 0) == GetOr(acc, t, 0) + GetOr(m, t, 0)
    ensures HasKey(AddCounts(acc, m), t) <==> HasKey(acc, t) || HasKey(m, t)
  {
    AddCountsFromGet(acc, m, 0, t);
    assert m[0..] == m;
  }

  /** Each day's count of `t`, summed. */
  function TopicTotal(ds: Days, t: string): int {
    if ds == [] then 0 else TopicTotal(ds[..|ds| - 1], t) + GetOr(ds[|ds| - 1].1.topics, t, 0)
  }

  /**
   * The merged count of a topic is the sum of its daily counts, and the
   * topics merged are exactly the topics of the engagement's diversity.
   */
  lemma {:induction false} MergedTopicsCounts(ds: Days, t: string)
    requires forall i :: 0 <= i < |ds| ==> Valid(ds[i].1.topics)
    ensures GetOr(MergedTopics(ds), t, 0) == TopicTotal(ds, t)
    ensures HasKey(MergedTopics(ds), t) <==> t in TopicsOf(ds)
  {
    if ds != [] {
      MergedTopicsCounts(ds[..|ds| - 1], t);
      AddCountsGet(MergedTopics(ds[..|ds| - 1]), ds[|ds| - 1].1.topics, t);
    }
  }

  /** One step of `if not first or date < first: first = date`; an empty date is falsy. */
  function EarlierDate(first: Option<string>, date: string): Option<string> {
    if first.None? || first.value == [] || LexLess(date, first.value) then Some(date) else first
  }

  /** `first_conversation` after the loop over the days. */
  function FirstDate(ds: Days): Option<string> {
    if ds == [] then None else EarlierDate(FirstDate(ds[..|ds| - 1]), ds[|ds| - 1].0)
  }

  /** There is a first date iff there is a day. */
  lemma FirstDateSome(ds: Days)
    ensures FirstDate(ds).Some? <==> ds != []
  {
  }

  /** When no date is empty, the first date is a date of the log that no other date precedes. */
  lemma {:induction false} FirstDateLeast(ds: Days)
    requires ds != []
    requires forall i :: 0 <= i < |ds| ==> ds[i].0 != []
    ensures FirstDate(ds).Some?
    ensures exists j :: 0 <= j < |ds| && ds[j].0 == FirstDate(ds).value
    ensures forall i :: 0 <= i < |ds| ==> !LexLess(ds[i].0, FirstDate(ds).value)
  {
    var init, x := ds[..|ds| - 1], ds[|ds| - 1].0;
    LexLessIrreflexive(x);
    if init == [] {
      assert FirstDate(ds) == Some(x);
      assert ds[0].0 == x;
    } else {
      assert forall i :: 0 <= i < |init| ==> init[i] == ds[i];
      FirstDateLeast(init);
      var m := FirstDate(init).value;
      var j :| 0 <= j < |init| && init[j].0 == m;
      assert m != [];
      if LexLess(x, m) {
        assert FirstDate(ds) == Some(x);
        assert ds[|ds| - 1].0 == x;
        forall i | 0 <= i < |ds| ensures !LexLess(ds[i].0, x) {
          if i < |init| && LexLess(ds[i].0, x) {
            LexLessTransitive(ds[i].0, x, m);
          }
        }
      } else {
        assert FirstDate(ds) == Some(m);
        assert ds[j].0 == m;
      }
    }
  }

  /** The integer parts of `_get_overall_stats`; the average per day is not modelled. */
  datatype OverallStats = OverallStats(totalConversations: int, activeDays: nat, firstConversation: Option<string>,
                                       topTopics: Counter, engagement: Engagement)

  /** The integer parts of `_get_today_stats`; the average response time is not modelled. */
  datatype TodayStats = TodayStats(conversations: int, topTopics: Counter, hourlyActivity: Counter,
                                   userWords: int, aiWords: int)

  /** `_get_today_stats` for the day key `day`: a missing day reads as all zeros and empty dictionaries. */
  function Today(ds: Days, day: string): (r: TodayStats)
    ensures |r.topTopics| <= 5
    ensures !HasKey(ds, day) ==> r == TodayStats(0, [], [], 0, 0)
    ensures forall i :: 0 <= i < |r.topTopics| ==> r.topTopics[i] in GetOr(ds, day, NewDaily).topics
  {
    var d := GetOr(ds, day, NewDaily);
    TodayStats(d.conversations, TopByCount(d.topics, 5), d.hourlyDistribution, d.userWords, d.aiWords)
  }

  /** Today's top topics come in descending order of count, and no topic left out has more. */
  lemma TodayTopTopics(ds: Days, day: string)
    ensures var top := Today(ds, day).topTopics;
      (forall i, j :: 0 <= i < j < |top| ==> top[i].1 >= top[j].1)
      && (forall e :: e in GetOr(ds, day, NewDaily).topics && e !in top ==> forall i :: 0 <= i < |top| ==> top[i].1 >= e.1)
  {
    TopByCountSelects(GetOr(ds, day, NewDaily).topics, 5);
  }

  /** After a conversation is recorded, today's statistics show one more conversation. */
  lemma TodayAfterRecord(a: Analytics, userInput: string, aiResponse: string, responseTime: real,
                         topic: Option<string>, keys: DateKeys, now: int)
    ensures Today(Recorded(a, userInput, aiResponse, responseTime, topic, keys, now).dailyStats, keys.day).conversations
      == Today(a.dailyStats, keys.day).conversations + 1
  {
  }

  class AnalyticsDashboard {
    var analytics: Analytics

    /** `load_analytics`: the file when it exists, empty statistics otherwise. */
    constructor (stored: Option<Analytics>)
      ensures analytics == stored.GetOr(EmptyAnalytics)
    {
      analytics := stored.GetOr(EmptyAnalytics);
    }

    /** `record_conversation` at clock reading `now`, whose date keys are `keys`. */
    method RecordConversation(userInput: string, aiResponse: string, responseTime: real, topic: Option<string>,
                              keys: DateKeys, now: int)
      modifies this
      ensures analytics == Recorded(old(analytics), userInput, aiResponse, responseTime, topic, keys, now)
    {
      var daily := RecordDay(GetOr(analytics.dailyStats, keys.day, NewDaily), userInput, aiResponse, responseTime, topic, HourOf(now));
      var weekly := RecordWeek(GetOr(analytics.weeklyStats, keys.week, NewWeekly), keys.day, topic);
      var monthly := GetOr(analytics.monthlyStats, keys.month, NewMonthly);
      assert MonthRecorded(monthly).conversations == monthly.conversations + 1;
      monthly := monthly.(conversations := monthly.conversations + 1);
      analytics := Analytics(Put(analytics.dailyStats, keys.day, daily), Put(analytics.weeklyStats, keys.week, weekly),
                             Put(analytics.monthlyStats, keys.month, monthly));
    }

    /** The daily block of `record_conversation`. */
    static method RecordDay(d: DailyStats, userInput: string, aiResponse: string, responseTime: real,
                            topic: Option<string>, hour: nat) returns (daily: DailyStats)
      ensures daily == DayRecorded(d, userInput, aiResponse, responseTime, topic, hour)
    {
      var topics := d.topics;
      if TopicGiven(topic) {
        topics := Increment(topics, topic.value);
      }
      var hours := Increment(d.hourlyDistribution, NatToString(hour));
      daily := DailyStats(d.conversations + 1, d.totalResponseTime + responseTime, topics, hours,
                          d.userWords + |Words(userInput)|, d.aiWords + |Words(aiResponse)|);
    }

    /** The weekly block of `record_conversation`. */
    static method RecordWeek(w: WeeklyStats, day: string, topic: Option<string>) returns (weekly: WeeklyStats)
      ensures weekly == WeekRecorded(w, day, topic)
    {
      weekly := w.(conversations := w.conversations + 1);
      weekly := weekly.(activeDays := weekly.activeDays + {day});
      if TopicGiven(topic) {
        weekly := weekly.(topTopics := Increment(weekly.topTopics, topic.value));
      }
    }

    /** `_get_today_stats` for the day key `day`. */
    function GetTodayStats(day: string): (r: TodayStats)
      reads this
      ensures r == Today(analytics.dailyStats, day)
      ensures r.conversations == GetOr(analytics.dailyStats, day, NewDaily).conversations
    {
      Today(analytics.dailyStats, day)
    }

    /** `_calculate_engagement` */
    method CalculateEngagement() returns (e: Engagement)
      ensures e == EngagementOf(analytics.dailyStats)
      ensures e.score <= 100 && (NonNegative(analytics.dailyStats) ==> 0 <= e.score)
    {
      var ds := analytics.dailyStats;
      var topics := UniqueTopics(ds);
      var active := ActiveDays(ds);
      var total := TotalConversations(ds);
      var score := EngagementScore(active, |topics|, total);
      e := Engagement(score, LevelText(LevelOf(score)), active, |topics|);
    }

    /** The loop gathering `unique_topics`. */
    static method UniqueTopics(ds: Days) returns (topics: set<string>)
      ensures topics == TopicsOf(ds)
    {
      topics := {};
      var i := 0;
      while i < |ds|
        invariant 0 <= i <= |ds|
        invariant topics == TopicsOf(ds[..i])
      {
        assert ds[..i + 1][..i] == ds[..i];
        topics := topics + KeySet(ds[i].1.topics);
        i := i + 1;
      }
      assert ds[..i] == ds;
    }

    /** `_get_overall_stats`; the top topics are the ten most counted. */
    method GetOverallStats() returns (s: OverallStats)
      ensures s == OverallStats(TotalConversations(analytics.dailyStats), ActiveDays(analytics.dailyStats),
                                FirstDate(analytics.dailyStats), TopByCount(MergedTopics(analytics.dailyStats), 10),
                                EngagementOf(analytics.dailyStats))
      ensures |s.topTopics| <= 10
    {
      var ds := analytics.dailyStats;
      var total, first, allTopics := OverallLoop(ds);
      var active := ActiveDays(ds);
      var engagement := CalculateEngagement();
      s := OverallStats(total, active, first, TopByCount(allTopics, 10), engagement);
    }

    /** The loop of `_get_overall_stats` over the days. */
    static method OverallLoop(ds: Days) returns (total: int, first: Option<string>, allTopics: Counter)
      ensures total == TotalConversations(ds) && first == FirstDate(ds) && allTopics == MergedTopics(ds)
    {
      total, first, allTopics := 0, None, [];
      var i := 0;
      while i < |ds|
        invariant 0 <= i <= |ds|
        invariant total == TotalConversations(ds[..i])
        invariant first == FirstDate(ds[..i])
        invariant allTopics == MergedTopics(ds[..i])
      {
        assert ds[..i + 1][..i] == ds[..i];
        total := total + ds[i].1.conversations;
        if first.None? || first.value == [] || LexLess(ds[i].0, first.value) {
          first := Some(ds[i].0);
        }
        allTopics := MergeCounts(allTopics, ds[i].1.topics);
        i := i + 1;
      }
      assert ds[..i] == ds;
    }

    /** The inner loop adding one day's topic counts. */
    static method MergeCounts(acc: Counter, m: Counter) returns (r: Counter)
      ensures r == AddCounts(acc, m)
    {
      r := acc;
      var j := 0;
      while j < |m|
        invariant 0 <= j <= |m|
        invariant AddCountsFrom(r, m, j) == AddCounts(acc, m)
      {
        r := AddCount(r, m[j].0, m[j].1);
        j := j + 1;
      }
    }
  }
}
