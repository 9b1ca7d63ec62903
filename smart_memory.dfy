/**
 * Fox's context memory (backend/core/smart_memory.py): a log of
 * conversations with their keywords and topic, counters per topic, keyword,
 * hour and question type, the search for earlier conversations related to a
 * new input, and topic suggestions. Clock readings are seconds, given by the
 * caller; the two JSON files are the fields of the class.
 */
module SmartMemory {
  import opened Common
  import opened Text
  import opened OrderedMap
  import opened Sorting

  // ------------------------------------------------------------ \b\w+\b

  /**
   * A character `\w` matches: ASCII letters, digits and `_`, and the letters
   * and digits of the Arabic block Persian is written in.
   */
  predicate IsWordChar(c: char) {
    ('a' <= c <= 'z') || ('A' <= c <= 'Z') || ('0' <= c <= '9') || c == '_'
    || ('\U{0620}' <= c <= '\U{064A}') || ('\U{0660}' <= c <= '\U{0669}')
    || ('\U{066E}' <= c <= '\U{06D3}') || ('\U{06F0}' <= c <= '\U{06F9}')
  }

  predicate AllWordChars(w: string) {
    forall i :: 0 <= i < |w| ==> IsWordChar(w[i])
  }

  /** Length of the leading run of word characters. */
  function RunLength(s: string): (n: nat)
    ensures n <= |s| && AllWordChars(s[..n])
    ensures n < |s| ==> !IsWordChar(s[n])
  {
    if s == [] || !IsWordChar(s[0]) then 0
    else
      var n := 1 + RunLength(s[1..]);
      assert s[..n] == [s[0]] + s[1..][..n - 1];
      n
  }

  /** `re.findall(r'\b\w+\b', s)`: the maximal runs of word characters, in order. */
  function WordRuns(s: string): (ws: seq<string>)
    ensures forall i :: 0 <= i < |ws| ==> |ws[i]| > 0 && AllWordChars(ws[i])
    decreases |s|
  {
    if s == [] then []
    else if !IsWordChar(s[0]) then WordRuns(s[1..])
    else
      var n := RunLength(s);
      [s[..n]] + WordRuns(s[n..])
  }

  lemma {:induction false} RunLengthOfWord(w: string, t: string)
    requires AllWordChars(w)
    requires t == [] || !IsWordChar(t[0])
    ensures RunLength(w + t) == |w|
  {
    if w != [] {
      assert (w + t)[1..] == w[1..] + t;
      RunLengthOfWord(w[1..], t);
    } else {
      assert w + t == t;
    }
  }

  /** Runs of word characters joined by a space are found again in order. */
  lemma {:induction false} WordRunsOfJoin(ws: seq<string>)
    requires forall i :: 0 <= i < |ws| ==> |ws[i]| > 0 && AllWordChars(ws[i])
    ensures WordRuns(Join(ws, " ")) == ws
  {
    if |ws| == 1 {
      RunLengthOfWord(ws[0], "");
      assert ws[0] + "" == ws[0];
      assert ws[0][|ws[0]|..] == [];
    } else if |ws| > 1 {
      var w, rest := ws[0], Join(ws[1..], " ");
      var s := w + " " + rest;
      assert s == w + (" " + rest);
      RunLengthOfWord(w, " " + rest);
      assert s[..|w|] == w;
      assert s[|w|..] == " " + rest;
      assert (" " + rest)[1..] == rest;
      WordRunsOfJoin(ws[1..]);
      assert ws == [w] + ws[1..];
    }
  }

  // ------------------------------------------------------------- keywords

  const StopWords: set<string> := {"که", "در", "از", "به", "با", "را", "و", "یا", "این", "آن", "چه", "چی", "کی", "کجا"}

  predicate IsKeyword(w: string) { |w| > 2 && w !in StopWords }

  /** `extract_keywords` */
  function ExtractKeywords(text: string): seq<string> {
    Take(Filter(WordRuns(Lower(text)), IsKeyword), 10)
  }

  /**
   * The keywords are the lower-cased tokens longer than two characters that
   * are not stop words, in order, cut at ten.
   */
  lemma ExtractKeywordsSpec(text: string)
    ensures var ks := ExtractKeywords(text); var all := Filter(WordRuns(Lower(text)), IsKeyword);
      |ks| <= 10 && ks <= all && (|all| <= 10 ==> ks == all)
      && forall i :: 0 <= i < |ks| ==> IsKeyword(ks[i]) && ks[i] in WordRuns(Lower(text))
  {
    var all := Filter(WordRuns(Lower(text)), IsKeyword);
    FilterSpec(WordRuns(Lower(text)), IsKeyword);
  }

  lemma {:induction false} FilterSpec<T>(s: seq<T>, p: T -> bool)
    ensures forall i :: 0 <= i < |Filter(s, p)| ==> p(Filter(s, p)[i]) && Filter(s, p)[i] in s
  {
    if s != [] {
      FilterSpec(s[1..], p);
      assert s == [s[0]] + s[1..];
    }
  }

  // --------------------------------------------------------------- topics

  const GeneralTopic: string := "عمومی"

  const Topics: seq<(string, seq<string>)> := [
    ("برنامه\U{200C}نویسی", ["کد", "برنامه", "پایتون", "جاوا", "اسکریپت", "api", "database"]),
    ("تکنولوژی", ["کامپیوتر", "موبایل", "اینترنت", "سایت", "اپلیکیشن"]),
    ("علم", ["ریاضی", "فیزیک", "شیمی", "زیست", "علمی"]),
    ("زندگی", ["کار", "خانواده", "دوست", "زندگی", "روزانه"]),
    ("سرگرمی", ["فیلم", "موزیک", "بازی", "کتاب", "ورزش"])
  ]

  /** The first entry from `s` on whose keyword list has a word occurring in `low`, or `|table|`. */
  function TopicIndex(table: seq<(string, seq<string>)>, low: string, s: nat): (r: nat)
    requires s <= |table|
    ensures s <= r <= |table|
    ensures forall j :: s <= j < r ==> !ContainsAny(low, table[j].1)
    ensures r < |table| ==> ContainsAny(low, table[r].1)
    decreases |table| - s
  {
    if s == |table| then |table|
    else if ContainsAny(low, table[s].1) then s
    else TopicIndex(table, low, s + 1)
  }

  /** The topic `detect_topic` returns from a table. */
  function TopicIn(table: seq<(string, seq<string>)>, text: string): string {
    var i := TopicIndex(table, Lower(text), 0);
    if i < |table| then table[i].0 else GeneralTopic
  }

  function TopicOf(text: string): string { TopicIn(Topics, text) }

  /**
   * The topic is the first in table order with a keyword in the lower-cased
   * text; with none it is the general topic.
   */
  lemma TopicFirstMatch(table: seq<(string, seq<string>)>, text: string)
    ensures var t := TopicIn(table, text);
      (exists i :: 0 <= i < |table| && t == table[i].0 && ContainsAny(Lower(text), table[i].1)
                   && forall j :: 0 <= j < i ==> !ContainsAny(Lower(text), table[j].1))
      || (t == GeneralTopic && forall j :: 0 <= j < |table| ==> !ContainsAny(Lower(text), table[j].1))
  {
    var i := TopicIndex(table, Lower(text), 0);
    if i < |table| {
      assert 0 <= i < |table| && TopicIn(table, text) == table[i].0 && ContainsAny(Lower(text), table[i].1);
    }
  }

  /** Every topic of the table has a name, so the counter is always bumped. */
  lemma TopicNonEmpty(text: string)
    ensures TopicOf(text) != []
  {
    var i := TopicIndex(Topics, Lower(text), 0);
    if i < |Topics| {
      assert Topics[i].0 in ["برنامه\U{200C}نویسی", "تکنولوژی", "علم", "زندگی", "سرگرمی"];
    }
  }

  // ------------------------------------------------------------- patterns

  const QuestionMark: char := '؟'
  const RequestWords: seq<string> := ["لطفا", "میشه", "کمک"]
  const QuestionKind: string := "سوال"
  const RequestKind: string := "درخواست"
  const ChatKind: string := "گفتگو"

  /** The question type of `analyze_patterns`. */
  function QuestionType(input: string): string {
    if QuestionMark in input then QuestionKind
    else if ContainsAny(Lower(input), RequestWords) then RequestKind
    else ChatKind
  }

  lemma QuestionTypeCases(input: string)
    ensures QuestionMark in input <==> QuestionType(input) == QuestionKind
    ensures QuestionType(input) == RequestKind <==> QuestionMark !in input && ContainsAny(Lower(input), RequestWords)
  {
  }

  /** `f"{hour:02d}:00"` */
  function TimeSlot(t: int): string { Pad2(HourOf(t)) + ":00" }

  /** Whole days from `t` to `now`, rounded down like `timedelta.days`. */
  function DaysAgo(t: int, now: int): int { (now - t) / 86400 }

  // ---------------------------------------------------------- conversations

  datatype Conversation = Conversation(timestamp: int, userInput: string, aiResponse: string,
                                       keywords: seq<string>, topic: string, context: seq<(string, string)>)

  /** The log entry `add_conversation` appends. */
  function NewEntry(userInput: string, aiResponse: string, context: Option<seq<(string, string)>>, now: int): (e: Conversation)
    ensures e.timestamp == now && e.userInput == userInput && e.aiResponse == aiResponse
  {
    Conversation(now, userInput, aiResponse, ExtractKeywords(userInput), TopicOf(userInput), context.GetOr([]))
  }

  const MaxConversations: nat := 1000
  const RecentWindow: nat := 100

  /** What `memory["topics"]` and the other counters hold. */
  type Counter = seq<(string, int)>

  /** The parts of `SmartMemory.memory` the chatbot writes. */
  datatype MemoryData = MemoryData(conversations: seq<Conversation>, topics: Counter, keywords: Counter)

  /** The parts of `SmartMemory.patterns` the chatbot writes. */
  datatype PatternData = PatternData(timePatterns: Counter, questionTypes: Counter)

  const EmptyMemory: MemoryData := MemoryData([], [], [])
  const EmptyPatterns: PatternData := PatternData([], [])

  /** The memory after `add_conversation` logs `e`. */
  function Remembered(m: MemoryData, e: Conversation): MemoryData {
    MemoryData(TakeLast(m.conversations + [e], MaxConversations),
               if e.topic != [] then Increment(m.topics, e.topic) else m.topics,
               IncrementAll(m.keywords, e.keywords))
  }

  /** The patterns after `analyze_patterns`. */
  function Analyzed(p: PatternData, input: string, now: int): PatternData {
    PatternData(Increment(p.timePatterns, TimeSlot(now)), Increment(p.questionTypes, QuestionType(input)))
  }

  /** Logging a conversation appends it as the newest entry and keeps at most the thousand most recent. */
  lemma RememberedLog(m: MemoryData, e: Conversation)
    ensures var r := Remembered(m, e).conversations; var log := m.conversations + [e];
      |r| == (if |log| <= MaxConversations then |log| else MaxConversations)
      && r == log[|log| - |r|..] && r[|r| - 1] == e
  {
  }

  /** The entry's topic counter rises by one; every other topic's stays. */
  lemma RememberedTopics(m: MemoryData, e: Conversation, k: string)
    requires e.topic != []
    ensures GetOr(Remembered(m, e).topics, e.topic, 0) == GetOr(m.topics, e.topic, 0) + 1
    ensures k != e.topic ==> Get(Remembered(m, e).topics, k) == Get(m.topics, k)
  {
  }

  /** Each keyword's counter rises by the number of times it occurs in the entry. */
  lemma RememberedKeywords(m: MemoryData, e: Conversation, k: string)
    ensures GetOr(Remembered(m, e).keywords, k, 0) == GetOr(m.keywords, k, 0) + Occurrences(e.keywords, k)
  {
    IncrementAllCounts(m.keywords, e.keywords, k);
  }

  /** One more conversation in the hour's slot, and one more of its question type. */
  lemma AnalyzedCounts(p: PatternData, input: string, now: int, slot: string, kind: string)
    ensures var r := Analyzed(p, input, now);
      GetOr(r.timePatterns, TimeSlot(now), 0) == GetOr(p.timePatterns, TimeSlot(now), 0) + 1
      && (slot != TimeSlot(now) ==> Get(r.timePatterns, slot) == Get(p.timePatterns, slot))
      && GetOr(r.questionTypes, QuestionType(input), 0) == GetOr(p.questionTypes, QuestionType(input), 0) + 1
      && (kind != QuestionType(input) ==> Get(r.questionTypes, kind) == Get(p.questionTypes, kind))
  {
  }

  function Score(c: Conversation, current: set<string>, topic: string, now: int): int {
    var common := (set k | k in c.keywords) * current;
    var days := DaysAgo(c.timestamp, now);
    2 * |common| + (if c.topic == topic then 3 else 0) + (if days < 7 then 2 else if days < 30 then 1 else 0)
  }

  datatype Scored = Scored(conversation: Conversation, score: int)

  function ByScoreDesc(): (Scored, Scored) -> bool {
    (a: Scored, b: Scored) => a.score >= b.score
  }

  /** The positively scored conversations of `recent`, newest first. */
  function ScoredNewestFirst(recent: seq<Conversation>, current: set<string>, topic: string, now: int): (r: seq<Scored>)
    ensures forall i :: 0 <= i < |r| ==> r[i].score > 0 && r[i].conversation in recent
  {
    if recent == [] then []
    else
      var last := recent[|recent| - 1];
      var s := Score(last, current, topic, now);
      var rest := ScoredNewestFirst(recent[..|recent| - 1], current, topic, now);
      if s > 0 then [Scored(last, s)] + rest else rest
  }

  function Conversations(s: seq<Scored>): (r: seq<Conversation>)
    ensures |r| == |s| && forall i :: 0 <= i < |s| ==> r[i] == s[i].conversation
  {
    seq(|s|, i requires 0 <= i < |s| => s[i].conversation)
  }

  /** The ranking `get_relevant_context` returns. */
  function Ranked(log: seq<Conversation>, input: string, limit: nat, now: int): seq<Scored> {
    var current := set k | k in ExtractKeywords(input);
    var scored := ScoredNewestFirst(TakeLast(log, RecentWindow), current, TopicOf(input), now);
    TopBy(scored, ByScoreDesc(), limit)
  }

  function RelevantContext(log: seq<Conversation>, input: string, limit: nat, now: int): seq<Conversation> {
    Conversations(Ranked(log, input, limit, now))
  }

  /**
   * At most `limit` conversations, each from the last hundred with a positive
   * score, in descending order of score; none left out scores higher than
   * one kept.
   */
  lemma RelevantContextSpec(log: seq<Conversation>, input: string, limit: nat, now: int)
    ensures var r := Ranked(log, input, limit, now);
      var current := set k | k in ExtractKeywords(input);
      var scored := ScoredNewestFirst(TakeLast(log, RecentWindow), current, TopicOf(input), now);
      |r| <= limit
      && (forall i :: 0 <= i < |r| ==> r[i].score > 0 && r[i].conversation in TakeLast(log, RecentWindow))
      && (forall i, j :: 0 <= i < j < |r| ==> r[i].score >= r[j].score)
      && (forall e :: e in scored && e !in r ==> forall i :: 0 <= i < |r| ==> r[i].score >= e.score)
  {
    var current := set k | k in ExtractKeywords(input);
    var scored := ScoredNewestFirst(TakeLast(log, RecentWindow), current, TopicOf(input), now);
    var r := Ranked(log, input, limit, now);
    assert Total(ByScoreDesc()) && Transitive(ByScoreDesc());
    TopBySelects(scored, ByScoreDesc(), limit);
    forall i | 0 <= i < |r| ensures r[i].score > 0 && r[i].conversation in TakeLast(log, RecentWindow) {
      assert r[i] in scored;
    }
  }

  // ----------------------------------------------------------- suggestions

  const TopicSuggestions: seq<(string, seq<string>)> := [
    ("برنامه\U{200C}نویسی", ["آیا سوال جدیدی در مورد کدنویسی داری؟", "بیا یه پروژه جدید شروع کنیم!"]),
    ("تکنولوژی", ["چه خبر از دنیای تکنولوژی؟", "آخرین اخبار تک رو می\U{200C}خوای؟"]),
    ("علم", ["بیا یه موضوع علمی جالب بحث کنیم", "سوال علمی جدید داری؟"]),
    ("زندگی", ["چطور می\U{200C}تونم تو زندگی روزانه\U{200C}ت کمکت کنم؟", "چه برنامه\U{200C}ای برای امروز داری؟"]),
    ("سرگرمی", ["فیلم یا کتاب جدیدی پیشنهاد بدم؟", "بیا یه بحث سرگرم\U{200C}کننده داشته باشیم"])
  ]

  /** The suggestions of the given topics, in order, from a table. */
  function SuggestionsFor(table: seq<(string, seq<string>)>, top: seq<(string, int)>): (r: seq<string>)
    ensures forall x :: x in r ==> exists i :: 0 <= i < |top| && HasKey(table, top[i].0) && x in GetOr(table, top[i].0, [])
  {
    if top == [] then []
    else
      var rest := SuggestionsFor(table, top[..|top| - 1]);
      var t := top[|top| - 1].0;
      var r := if HasKey(table, t) then rest + GetOr(table, t, []) else rest;
      assert forall x :: x in rest ==> exists i :: 0 <= i < |top| - 1 && HasKey(table, top[i].0) && x in GetOr(table, top[i].0, []);
      r
  }

  /** `suggest_topics` */
  function SuggestedTopics(topics: Counter): seq<string> {
    Take(SuggestionsFor(TopicSuggestions, TopByCount(topics, 3)), 5)
  }

  /** At most five suggestions, each belonging to one of the three most frequent topics. */
  lemma SuggestedTopicsSpec(topics: Counter)
    ensures var r := SuggestedTopics(topics); var top := TopByCount(topics, 3);
      |r| <= 5 && forall x :: x in r ==> exists i :: 0 <= i < |top| && x in GetOr(TopicSuggestions, top[i].0, [])
  {
    var all := SuggestionsFor(TopicSuggestions, TopByCount(topics, 3));
    forall x | x in SuggestedTopics(topics) ensures x in all {
    }
  }

  // -------------------------------------------------------------- insights

  const NoConversationsYet: string := "هنوز مکالمه\U{200C}ای ثبت نشده"

  datatype Insights =
    | NoInsights(message: string)
    | Insights(totalConversations: nat, favoriteTopics: Counter, activeHours: Counter,
               lastActivity: int, questionTypes: Counter)

  /** `get_user_insights`; the last activity is the clock reading, not its formatted text. */
  function UserInsights(log: seq<Conversation>, topics: Counter, timePatterns: Counter, questionTypes: Counter): (r: Insights)
    ensures log == [] <==> r.NoInsights?
    ensures r.Insights? ==>
              r.totalConversations == |log| && |r.favoriteTopics| <= 5 && |r.activeHours| <= 3
              && r.lastActivity == log[|log| - 1].timestamp
  {
    if log == [] then NoInsights(NoConversationsYet)
    else Insights(|log|, TopByCount(topics, 5), TopByCount(timePatterns, 3), log[|log| - 1].timestamp, questionTypes)
  }

  // ----------------------------------------------------------------- class

  class SmartMemory {
    /** `self.memory` */
    var memory: MemoryData
    /** `self.patterns` */
    var patterns: PatternData

    /** `load_memory`: each file's contents when it exists, empty collections otherwise. */
    constructor (storedMemory: Option<MemoryData>, storedPatterns: Option<PatternData>)
      ensures memory == storedMemory.GetOr(EmptyMemory) && patterns == storedPatterns.GetOr(EmptyPatterns)
    {
      if storedMemory.Some? {
        memory := storedMemory.value;
      } else {
        memory := EmptyMemory;
      }
      if storedPatterns.Some? {
        patterns := storedPatterns.value;
      } else {
        patterns := EmptyPatterns;
      }
    }

    /** `add_conversation` */
    method AddConversation(userInput: string, aiResponse: string, context: Option<seq<(string, string)>>, now: int)
      modifies this
      ensures memory == Remembered(old(memory), NewEntry(userInput, aiResponse, context, now))
      ensures patterns == Analyzed(old(patterns), userInput, now)
    {
      var entry := MakeEntry(userInput, aiResponse, context, now);
      var log := memory.conversations + [entry];
      var topics := memory.topics;
      if entry.topic != [] {
        topics := Increment(topics, entry.topic);
      }
      var counted := CountAll(memory.keywords, entry.keywords);
      memory := MemoryData(log, topics, counted);
      assert patterns == old(patterns);
      AnalyzePatterns(userInput, now);
      if |memory.conversations| > MaxConversations {
        memory := memory.(conversations := log[|log| - MaxConversations..]);
      }
    }

    /** The keywords, topic and record `add_conversation` builds. */
    static method MakeEntry(userInput: string, aiResponse: string, context: Option<seq<(string, string)>>, now: int)
      returns (entry: Conversation)
      ensures entry == NewEntry(userInput, aiResponse, context, now)
    {
      var found := ExtractKeywords(userInput);
      var topic := DetectTopic(userInput);
      entry := Conversation(now, userInput, aiResponse, found, topic, context.GetOr([]));
    }

    /** The keyword loop of `add_conversation`. */
    static method CountAll(counts: Counter, found: seq<string>) returns (r: Counter)
      ensures r == IncrementAll(counts, found)
    {
      r := counts;
      var i := 0;
      while i < |found|
        invariant 0 <= i <= |found|
        invariant IncrementAll(r, found[i..]) == IncrementAll(counts, found)
      {
        assert found[i..][1..] == found[i + 1..];
        r := Increment(r, found[i]);
        i := i + 1;
      }
    }

    /** `analyze_patterns` */
    method AnalyzePatterns(userInput: string, now: int)
      modifies this
      ensures patterns == Analyzed(old(patterns), userInput, now) && memory == old(memory)
    {
      var slot := Pad2(HourOf(now)) + ":00";
      patterns := patterns.(timePatterns := Increment(patterns.timePatterns, slot));
      var kind: string;
      if QuestionMark in userInput {
        kind := QuestionKind;
      } else if ContainsAny(Lower(userInput), RequestWords) {
        kind := RequestKind;
      } else {
        kind := ChatKind;
      }
      patterns := patterns.(questionTypes := Increment(patterns.questionTypes, kind));
    }

    /** `detect_topic` */
    static method DetectTopic(text: string) returns (topic: string)
      ensures topic == TopicOf(text)
    {
      var low := Lower(text);
      var i := 0;
      while i < |Topics|
        invariant 0 <= i <= |Topics|
        invariant TopicIndex(Topics, low, 0) == TopicIndex(Topics, low, i)
      {
        if ContainsAny(low, Topics[i].1) {
          return Topics[i].0;
        }
        i := i + 1;
      }
      return GeneralTopic;
    }

    /** `get_relevant_context` */
    method GetRelevantContext(currentInput: string, limit: nat, now: int) returns (r: seq<Conversation>)
      ensures r == RelevantContext(memory.conversations, currentInput, limit, now)
    {
      var current := set k | k in ExtractKeywords(currentInput);
      var topic := DetectTopic(currentInput);
      var relevant := ScoreRecent(TakeLast(memory.conversations, RecentWindow), current, topic, now);
      r := Conversations(TopBy(relevant, ByScoreDesc(), limit));
    }

    /** The scoring loop of `get_relevant_context`, newest first. */
    static method ScoreRecent(recent: seq<Conversation>, current: set<string>, topic: string, now: int) returns (relevant: seq<Scored>)
      ensures relevant == ScoredNewestFirst(recent, current, topic, now)
    {
      relevant := [];
      var i := |recent|;
      assert recent[..i] == recent;
      while i > 0
        invariant 0 <= i <= |recent|
        invariant relevant + ScoredNewestFirst(recent[..i], current, topic, now) == ScoredNewestFirst(recent, current, topic, now)
      {
        assert recent[..i][..i - 1] == recent[..i - 1];
        var conv := recent[i - 1];
        var score := Score(conv, current, topic, now);
        if score > 0 {
          relevant := relevant + [Scored(conv, score)];
        }
        i := i - 1;
      }
      assert recent[..0] == [];
    }

    /** `get_user_insights` */
    function GetUserInsights(): (r: Insights)
      reads this
      ensures memory.conversations == [] <==> r.NoInsights?
      ensures r.Insights? ==> r.totalConversations == |memory.conversations|
      ensures r.Insights? ==> |r.favoriteTopics| == Min(5, |memory.topics|)
      ensures r.Insights? ==> forall i, j :: 0 <= i < j < |r.favoriteTopics| ==> r.favoriteTopics[i].1 >= r.favoriteTopics[j].1
      ensures r.Insights? ==> forall e :: e in memory.topics && e !in r.favoriteTopics ==>
                forall i :: 0 <= i < |r.favoriteTopics| ==> r.favoriteTopics[i].1 >= e.1
      ensures r.Insights? ==> |r.activeHours| == Min(3, |patterns.timePatterns|)
      ensures r.Insights? ==> forall e :: e in patterns.timePatterns && e !in r.activeHours ==>
                forall i :: 0 <= i < |r.activeHours| ==> r.activeHours[i].1 >= e.1
    {
      TopByCountSelects(memory.topics, 5);
      TopByCountSelects(patterns.timePatterns, 3);
      UserInsights(memory.conversations, memory.topics, patterns.timePatterns, patterns.questionTypes)
    }

    /** `suggest_topics` */
    method SuggestTopics() returns (suggestions: seq<string>)
      ensures suggestions == SuggestedTopics(memory.topics)
    {
      var top := TopByCount(memory.topics, 3);
      suggestions := CollectSuggestions(TopicSuggestions, top);
      suggestions := Take(suggestions, 5);
    }

    /** The loop of `suggest_topics` over the most frequent topics. */
    static method CollectSuggestions(table: seq<(string, seq<string>)>, top: seq<(string, int)>) returns (suggestions: seq<string>)
      ensures suggestions == SuggestionsFor(table, top)
    {
      suggestions := [];
      var i := 0;
      while i < |top|
        invariant 0 <= i <= |top|
        invariant suggestions == SuggestionsFor(table, top[..i])
      {
        assert top[..i + 1][..i] == top[..i];
        if HasKey(table, top[i].0) {
          suggestions := suggestions + GetOr(table, top[i].0, []);
        }
        i := i + 1;
      }
      assert top[..i] == top;
    }
  }
}
