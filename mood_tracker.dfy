/**
 * The mood tracker (backend/core/mood_tracker.py): a message's mood from
 * the positive and negative words it contains, a history of the last thirty
 * moods, a reply for a mood and counts per mood. The date and time of an
 * entry and the random draw of a reply are given by the caller; the mood file
 * is the `history` field.
 */
module MoodTracker {
  import opened Common
  import opened Text

  const PositiveWords: seq<string> := ["خوب", "عالی", "خوشحال", "شاد", "راضی", "خندیدم", "لذت",
                                       "موفق", "بهتر", "آرام", "راحت", "خوشگذران"]
  const NegativeWords: seq<string> := ["بد", "ناراحت", "خسته", "غمگین", "عصبانی", "استرس", "نگران",
                                       "افسرده", "بیحال", "کسل", "درد", "مشکل"]

  const Positive: string := "positive"
  const Negative: string := "negative"
  const Neutral: string := "neutral"

  const MaxHistory: nat := 30
  const SnippetLength: nat := 50

  /** How many words of the list occur in `low`: `sum(1 for word in words if word in low)`. */
  function Score(words: seq<string>, low: string): (n: nat)
    ensures n <= |words|
  {
    if words == [] then 0
    else Score(words[..|words| - 1], low) + (if Contains(low, words[|words| - 1]) then 1 else 0)
  }

  /** A word that occurs adds one to the score, and only such words do. */
  lemma {:induction false} ScoreCounts(words: seq<string>, low: string)
    ensures Score(words, low) == 0 <==> forall i :: 0 <= i < |words| ==> !Contains(low, words[i])
    ensures Score(words, low) == |words| <==> forall i :: 0 <= i < |words| ==> Contains(low, words[i])
  {
    if words != [] {
      var init := words[..|words| - 1];
      ScoreCounts(init, low);
      assert forall i :: 0 <= i < |init| ==> init[i] == words[i];
    }
  }

  /** The mood of two scores. */
  function MoodOfScores(pos: nat, neg: nat): string {
    if pos > neg then Positive else if neg > pos then Negative else Neutral
  }

  /** The mood `analyze_mood` finds in a message. */
  function MoodOf(message: string): string {
    var low := Lower(message);
    MoodOfScores(Score(PositiveWords, low), Score(NegativeWords, low))
  }

  /** Positive iff more positive words, negative iff more negative words, neutral on a tie. */
  lemma MoodCases(pos: nat, neg: nat)
    ensures MoodOfScores(pos, neg) == Positive <==> pos > neg
    ensures MoodOfScores(pos, neg) == Negative <==> neg > pos
    ensures MoodOfScores(pos, neg) == Neutral <==> pos == neg
  {
  }

  datatype MoodEntry = MoodEntry(date: string, time: string, mood: string, message: string)

  datatype MoodHistory = MoodHistory(dailyMoods: seq<MoodEntry>, overallTrend: string)

  const EmptyHistory: MoodHistory := MoodHistory([], Neutral)

  /** The entry `analyze_mood` records. */
  function EntryFor(message: string, date: string, time: string): MoodEntry {
    MoodEntry(date, time, MoodOf(message), Ellipsize(message, SnippetLength))
  }

  /** The history after recording `e`. */
  function Logged(h: MoodHistory, e: MoodEntry): MoodHistory {
    h.(dailyMoods := TakeLast(h.dailyMoods + [e], MaxHistory))
  }

  /**
   * The entry becomes the newest, at most thirty are kept, and the snippet is
   * the first fifty characters followed by "..." for longer messages.
   */
  lemma LoggedEntry(h: MoodHistory, message: string, date: string, time: string)
    ensures var r := Logged(h, EntryFor(message, date, time)).dailyMoods; var all := h.dailyMoods + [EntryFor(message, date, time)];
      |r| == (if |all| <= MaxHistory then |all| else MaxHistory) && r == all[|all| - |r|..]
      && r[|r| - 1].mood == MoodOf(message)
      && r[|r| - 1].message == (if |message| > SnippetLength then message[..SnippetLength] + "..." else message)
  {
  }

  const Responses: seq<(string, seq<string>)> := [
    (Positive, ["خوشحالم که حالت خوبه! 😊", "عالیه! انرژی مثبتت رو حس می\U{200C}کنم", "آفرین! همینطور شاد باش"]),
    (Negative, ["متأسفم که حالت خوب نیست 😔", "نگران نباش، همه چیز درست میشه", "اگه می\U{200C}خوای حرف بزنی، اینجام"]),
    (Neutral, ["چطور می\U{200C}تونم کمکت کنم؟", "چه خبر؟ چیزی لازم داری؟", "همه چیز خوبه؟"])
  ]

  /** The replies for a mood from a table, or `None` where `responses[mood]` raises `KeyError`. */
  function RepliesFor(table: seq<(string, seq<string>)>, mood: string): (r: Option<seq<string>>)
    ensures r.Some? <==> exists i :: 0 <= i < |table| && table[i].0 == mood
    ensures r.Some? ==> exists i :: 0 <= i < |table| && table[i].0 == mood && r.value == table[i].1
  {
    if table == [] then None
    else if table[0].0 == mood then Some(table[0].1)
    else
      var r := RepliesFor(table[1..], mood);
      assert forall i :: 1 <= i < |table| ==> table[1..][i - 1] == table[i];
      r
  }

  /** `get_mood_response` */
  function MoodResponse(mood: string, pick: nat): Option<string> {
    match RepliesFor(Responses, mood)
    case Some(replies) => if replies != [] then Some(Choose(replies, pick)) else None
    case None => None
  }

  /** A reply comes from the list of its own mood; a mood without a list has none. */
  lemma MoodResponseFromList(mood: string, pick: nat)
    ensures MoodResponse(mood, pick).Some? ==>
      exists i :: 0 <= i < |Responses| && Responses[i].0 == mood && MoodResponse(mood, pick).value in Responses[i].1
    ensures (forall i :: 0 <= i < |Responses| ==> Responses[i].0 != mood) ==> MoodResponse(mood, pick).None?
  {
  }

  /** How many entries carry mood `m`: `moods.count(m)`. */
  function CountMood(entries: seq<MoodEntry>, m: string): (n: nat)
    ensures n <= |entries|
  {
    if entries == [] then 0
    else CountMood(entries[..|entries| - 1], m) + (if entries[|entries| - 1].mood == m then 1 else 0)
  }

  predicate KnownMood(m: string) { m == Positive || m == Negative || m == Neutral }

  datatype MoodStats = NoMoods(message: string) | MoodCounts(positive: nat, negative: nat, neutral: nat, total: nat)

  const NoMoodsYet: string := "هنوز حالتی ثبت نشده"

  /** The counts of `get_mood_stats`; the percentages are not modelled. */
  function Stats(h: MoodHistory): (r: MoodStats)
    ensures h.dailyMoods == [] <==> r.NoMoods?
  {
    var e := h.dailyMoods;
    if e == [] then NoMoods(NoMoodsYet)
    else MoodCounts(CountMood(e, Positive), CountMood(e, Negative), CountMood(e, Neutral), |e|)
  }

  /** The three counts add up to at most the total, and exactly to it when every mood is one of the three. */
  lemma {:induction false} CountsSum(entries: seq<MoodEntry>)
    ensures CountMood(entries, Positive) + CountMood(entries, Negative) + CountMood(entries, Neutral) <= |entries|
    ensures (forall i :: 0 <= i < |entries| ==> KnownMood(entries[i].mood)) <==>
      CountMood(entries, Positive) + CountMood(entries, Negative) + CountMood(entries, Neutral) == |entries|
  {
    if entries != [] {
      var init := entries[..|entries| - 1];
      CountsSum(init);
      assert forall i :: 0 <= i < |init| ==> init[i] == entries[i];
    }
  }

  /** Every entry `analyze_mood` records has one of the three moods. */
  lemma RecordedMoodsKnown(h: MoodHistory, message: string, date: string, time: string)
    requires forall i :: 0 <= i < |h.dailyMoods| ==> KnownMood(h.dailyMoods[i].mood)
    ensures var r := Logged(h, EntryFor(message, date, time)).dailyMoods;
      forall i :: 0 <= i < |r| ==> KnownMood(r[i].mood)
  {
    var all := h.dailyMoods + [EntryFor(message, date, time)];
    var r := Logged(h, EntryFor(message, date, time)).dailyMoods;
    forall i | 0 <= i < |r| ensures KnownMood(r[i].mood) {
      assert r[i] == all[|all| - |r| + i];
    }
  }

  class MoodTracker {
    /** `self.mood_history`, as last written to the mood file. */
    var history: MoodHistory

    /** `load_mood_history`: the file when it can be read, an empty history otherwise. */
    constructor (stored: Option<MoodHistory>)
      ensures history == stored.GetOr(EmptyHistory)
    {
      if stored.Some? {
        history := stored.value;
      } else {
        history := EmptyHistory;
      }
    }

    /** `analyze_mood` */
    method AnalyzeMood(message: string, date: string, time: string) returns (mood: string)
      modifies this
      ensures mood == MoodOf(message)
      ensures history == Logged(old(history), EntryFor(message, date, time))
    {
      var low := Lower(message);
      var pos := Score(PositiveWords, low);
      var neg := Score(NegativeWords, low);
      if pos > neg {
        mood := Positive;
      } else if neg > pos {
        mood := Negative;
      } else {
        mood := Neutral;
      }
      var snippet := if |message| > SnippetLength then message[..SnippetLength] + "..." else message;
      var moods := history.dailyMoods + [MoodEntry(date, time, mood, snippet)];
      if |moods| > MaxHistory {
        moods := moods[|moods| - MaxHistory..];
      }
      history := history.(dailyMoods := moods);
    }

    /** `get_mood_stats` */
    function GetMoodStats(): (stats: MoodStats)
      reads this
      ensures history.dailyMoods == [] <==> stats.NoMoods?
      ensures stats.MoodCounts? ==> stats.total == |history.dailyMoods|
      ensures stats.MoodCounts? ==> stats.positive == CountMood(history.dailyMoods, Positive)
      ensures stats.MoodCounts? ==> stats.negative == CountMood(history.dailyMoods, Negative)
      ensures stats.MoodCounts? ==> stats.neutral == CountMood(history.dailyMoods, Neutral)
      ensures stats.MoodCounts? ==> stats.positive + stats.negative + stats.neutral <= stats.total
      ensures stats.MoodCounts? && (forall i :: 0 <= i < |history.dailyMoods| ==> KnownMood(history.dailyMoods[i].mood)) ==>
                stats.positive + stats.negative + stats.neutral == stats.total
    {
      CountsSum(history.dailyMoods);
      Stats(history)
    }
  }
}
