/**
 * What the user teaches Fox (backend/core/fox_learning.py): custom replies
 * to trigger phrases, facts per topic, cultural notes per country, routines
 * and preferences. Each table is a Python dictionary, so it is an ordered
 * map: the reply lookup takes the first matching trigger in insertion order.
 * The learning file is a field holding what it contains; times are clock
 * readings supplied by the caller.
 */
module FoxLearning {
  import opened Common
  import opened Text
  import opened OrderedMap

  datatype TaughtReply = TaughtReply(response: string, taughtAt: int, usageCount: int)

  datatype Fact = Fact(fact: string, taughtAt: int)

  /** A cultural note, a routine's description or a preference, with when it was taught. */
  datatype Note = Note(text: string, taughtAt: int)

  datatype LearnedData = LearnedData(customResponses: seq<(string, TaughtReply)>,
                                     learnedFacts: seq<(string, seq<Fact>)>,
                                     culturalKnowledge: seq<(string, Note)>,
                                     personalPreferences: seq<(string, Note)>,
                                     dailyRoutines: seq<(string, Note)>,
                                     teachingSessions: seq<string>,
                                     learnedPhrases: seq<string>)
  {
    /** Every table has distinct keys. */
    predicate Valid() {
      OrderedMap.Valid(customResponses) && OrderedMap.Valid(learnedFacts) && OrderedMap.Valid(culturalKnowledge)
      && OrderedMap.Valid(personalPreferences) && OrderedMap.Valid(dailyRoutines)
    }
  }

  /** What `load_learned_data` starts from when there is no learning file: nothing learned. */
  function EmptyLearning(): (d: LearnedData)
    ensures d.Valid()
    ensures |d.customResponses| == 0 && |d.learnedFacts| == 0 && |d.culturalKnowledge| == 0
    ensures |d.personalPreferences| == 0 && |d.dailyRoutines| == 0 && |d.teachingSessions| == 0
  {
    LearnedData([], [], [], [], [], [], [])
  }

  // ------------------------------------------------------------ the file name

  const MainUser: string := "حامد"

  /** The profile handed to the constructor: a plain dictionary or a profile object. */
  datatype ProfileSource = DictProfile(dictName: Option<string>) | ObjectProfile(objectName: string)

  function ProfileName(p: ProfileSource): string {
    match p
    case DictProfile(n) => n.GetOr(MainUser)
    case ObjectProfile(n) => n
  }

  function LearningFile(p: ProfileSource): string {
    "data/profiles/" + ProfileName(p) + "_learning.json"
  }

  /** A dictionary without a name learns into the main user's file; a named one into its own. */
  lemma LearningFileNames(name: string)
    ensures LearningFile(DictProfile(None)) == LearningFile(ObjectProfile(MainUser))
    ensures LearningFile(DictProfile(Some(name))) == LearningFile(ObjectProfile(name))
  {
  }

  // ------------------------------------------------------------- teaching

  /** The acknowledgements of the `teach_*` methods, around what was taught. */
  const ResponseTaughtStart: string := "✅ یاد گرفتم! وقتی '"
  const ResponseTaughtMiddle: string := "' گفتی، '"
  const ResponseTaughtEnd: string := "' جواب بدم"
  const FactTaughtStart: string := "✅ حقیقت جدید درباره '"
  const FactTaughtEnd: string := "' یاد گرفتم!"
  const CultureTaughtStart: string := "✅ فرهنگ "
  const CultureTaughtEnd: string := " رو یاد گرفتم!"
  const RoutineTaughtStart: string := "✅ روتین '"
  const PreferenceTaughtStart: string := "✅ ترجیح شما در '"
  const QuotedTaughtEnd: string := "' رو یاد گرفتم!"

  function TaughtResponse(d: LearnedData, trigger: string, response: string, now: int): LearnedData {
    d.(customResponses := Put(d.customResponses, Lower(trigger), TaughtReply(response, now, 0)))
  }

  /** `teach_fact`: the topic's list, created when missing, gets the fact at its end. */
  function TaughtFact(d: LearnedData, topic: string, fact: string, now: int): LearnedData {
    d.(learnedFacts := Put(d.learnedFacts, topic, GetOr(d.learnedFacts, topic, []) + [Fact(fact, now)]))
  }

  function TaughtCulture(d: LearnedData, country: string, info: string, now: int): LearnedData {
    d.(culturalKnowledge := Put(d.culturalKnowledge, country, Note(info, now)))
  }

  function TaughtRoutine(d: LearnedData, name: string, description: string, now: int): LearnedData {
    d.(dailyRoutines := Put(d.dailyRoutines, name, Note(description, now)))
  }

  function TaughtPreference(d: LearnedData, category: string, preference: string, now: int): LearnedData {
    d.(personalPreferences := Put(d.personalPreferences, category, Note(preference, now)))
  }

  /**
   * A taught reply sits under the lower-cased trigger with no uses, replacing
   * any earlier reply for it; the other triggers and tables are untouched.
   */
  lemma TeachResponseStores(d: LearnedData, trigger: string, response: string, now: int)
    requires d.Valid()
    ensures var d' := TaughtResponse(d, trigger, response, now);
      d'.Valid()
      && Get(d'.customResponses, Lower(trigger)) == Some(TaughtReply(response, now, 0))
      && (forall t :: t != Lower(trigger) ==> Get(d'.customResponses, t) == Get(d.customResponses, t))
      && d'.learnedFacts == d.learnedFacts && d'.culturalKnowledge == d.culturalKnowledge
      && |d'.customResponses| == |d.customResponses| + if HasKey(d.customResponses, Lower(trigger)) then 0 else 1
  {
  }

  /**
   * A taught fact is added at the end of its topic's list, which keeps every
   * earlier fact; the other topics are untouched and the total grows by one.
   */
  lemma TeachFactAppends(d: LearnedData, topic: string, fact: string, now: int)
    requires d.Valid()
    ensures var d' := TaughtFact(d, topic, fact, now);
      d'.Valid()
      && GetOr(d'.learnedFacts, topic, []) == GetOr(d.learnedFacts, topic, []) + [Fact(fact, now)]
      && (forall t :: t != topic ==> Get(d'.learnedFacts, t) == Get(d.learnedFacts, t))
      && FactTotal(d'.learnedFacts) == FactTotal(d.learnedFacts) + 1
      && d'.customResponses == d.customResponses
  {
    var m := d.learnedFacts;
    var v := GetOr(m, topic, []) + [Fact(fact, now)];
    if HasKey(m, topic) {
      var i := OrderedMap.IndexOf(m, topic);
      assert Put(m, topic, v) == m[i := (topic, v)];
      FactTotalUpdate(m, i, v);
    } else {
      assert Put(m, topic, v) == m + [(topic, v)];
      assert (m + [(topic, v)])[..|m|] == m;
    }
  }

  /**
   * `teach_culture`: the note sits under the country, replacing any earlier
   * one; the other countries are untouched.
   */
  lemma TeachCultureStores(d: LearnedData, country: string, info: string, now: int)
    requires d.Valid()
    ensures var d' := TaughtCulture(d, country, info, now);
      d'.Valid()
      && Get(d'.culturalKnowledge, country) == Some(Note(info, now))
      && (forall k :: k != country ==> Get(d'.culturalKnowledge, k) == Get(d.culturalKnowledge, k))
  {
  }

  /** `teach_routine`: the same for the routine's name. */
  lemma TeachRoutineStores(d: LearnedData, name: string, description: string, now: int)
    requires d.Valid()
    ensures var d' := TaughtRoutine(d, name, description, now);
      d'.Valid()
      && Get(d'.dailyRoutines, name) == Some(Note(description, now))
      && (forall k :: k != name ==> Get(d'.dailyRoutines, k) == Get(d.dailyRoutines, k))
  {
  }

  /** `teach_preference`: the same for the preference's category. */
  lemma TeachPreferenceStores(d: LearnedData, category: string, preference: string, now: int)
    requires d.Valid()
    ensures var d' := TaughtPreference(d, category, preference, now);
      d'.Valid()
      && Get(d'.personalPreferences, category) == Some(Note(preference, now))
      && (forall k :: k != category ==> Get(d'.personalPreferences, k) == Get(d.personalPreferences, k))
  {
  }

  // ------------------------------------------------------------ statistics

  /** Number of facts across all topics. */
  function FactTotal(m: seq<(string, seq<Fact>)>): nat {
    if m == [] then 0 else FactTotal(m[..|m| - 1]) + |m[|m| - 1].1|
  }

  /** Replacing one topic's list changes the total by the difference in length. */
  lemma {:induction false} FactTotalUpdate(m: seq<(string, seq<Fact>)>, i: nat, v: seq<Fact>)
    requires i < |m|
    ensures FactTotal(m[i := (m[i].0, v)]) == FactTotal(m) - |m[i].1| + |v|
    decreases |m|
  {
    var m' := m[i := (m[i].0, v)];
    var n := |m| - 1;
    if i == n {
      assert m'[..n] == m[..n];
    } else {
      assert m'[..n] == m[..n][i := (m[i].0, v)];
      FactTotalUpdate(m[..n], i, v);
    }
  }

  /** The total counts every topic's facts: it is at least each list's length, and zero only when every list is empty. */
  lemma {:induction false} FactTotalBounds(m: seq<(string, seq<Fact>)>)
    ensures forall i :: 0 <= i < |m| ==> |m[i].1| <= FactTotal(m)
    ensures FactTotal(m) == 0 <==> forall i :: 0 <= i < |m| ==> m[i].1 == []
    decreases |m|
  {
    if m != [] {
      var n := |m| - 1;
      FactTotalBounds(m[..n]);
      assert forall i :: 0 <= i < n ==> m[..n][i] == m[i];
    }
  }

  datatype LearningStats = LearningStats(customResponses: nat, learnedFacts: nat, culturalKnowledge: nat,
                                         personalPreferences: nat, dailyRoutines: nat, totalTeachings: nat)

  /** `get_learning_stats`: facts are counted one by one, the other tables by their size. */
  function Stats(d: LearnedData): LearningStats {
    LearningStats(|d.customResponses|, FactTotal(d.learnedFacts), |d.culturalKnowledge|,
                  |d.personalPreferences|, |d.dailyRoutines|, |d.teachingSessions|)
  }

  // -------------------------------------------------------- get_learned_response

  /** First entry from `s` on whose key occurs in `low`, or `|m|`. */
  function FirstKeyIn<V>(m: seq<(string, V)>, low: string, s: nat): (r: nat)
    requires s <= |m|
    ensures s <= r <= |m|
    ensures forall j :: s <= j < r ==> !Contains(low, m[j].0)
    ensures r < |m| ==> Contains(low, m[r].0)
    decreases |m| - s
  {
    if s == |m| then |m|
    else if Contains(low, m[s].0) then s
    else FirstKeyIn(m, low, s + 1)
  }

  /** A topic that occurs in `low` and has at least one fact. */
  predicate TopicHit(e: (string, seq<Fact>), low: string) {
    Contains(low, e.0) && e.1 != []
  }

  /** First topic from `s` on that is a hit, or `|m|`. */
  function FirstTopicIn(m: seq<(string, seq<Fact>)>, low: string, s: nat): (r: nat)
    requires s <= |m|
    ensures s <= r <= |m|
    ensures forall j :: s <= j < r ==> !TopicHit(m[j], low)
    ensures r < |m| ==> TopicHit(m[r], low)
    decreases |m| - s
  {
    if s == |m| then |m|
    else if TopicHit(m[s], low) then s
    else FirstTopicIn(m, low, s + 1)
  }

  const FactPrefix: string := "راجع به "
  const CulturePrefix: string := "فرهنگ "

  function FactReply(topic: string, fact: string): string { FactPrefix + topic + ": " + fact }

  function CultureReply(country: string, info: string): string { CulturePrefix + country + ": " + info }

  /** The reply `get_learned_response` gives. */
  function Reply(d: LearnedData, input: string): Option<string> {
    var low := Lower(input);
    var i := FirstKeyIn(d.customResponses, low, 0);
    if i < |d.customResponses| then Some(d.customResponses[i].1.response)
    else KnowledgeReply(d, low)
  }

  /** The part of the reply that comes from facts and cultural knowledge. */
  function KnowledgeReply(d: LearnedData, low: string): Option<string> {
    var j := FirstTopicIn(d.learnedFacts, low, 0);
    var k := FirstKeyIn(d.culturalKnowledge, low, 0);
    if j < |d.learnedFacts| then
      var facts := d.learnedFacts[j].1;
      Some(FactReply(d.learnedFacts[j].0, facts[|facts| - 1].fact))
    else if k < |d.culturalKnowledge| then
      var e := d.culturalKnowledge[k];
      Some(CultureReply(e.0, e.1.text))
    else None
  }

  /** Some taught trigger occurs in the lower-cased input. */
  predicate UsesTaught(d: LearnedData, input: string) {
    FirstKeyIn(d.customResponses, Lower(input), 0) < |d.customResponses|
  }

  /** The learned data after `get_learned_response`: a matched reply has one more use. */
  function AfterReply(d: LearnedData, input: string): LearnedData {
    var cr := d.customResponses;
    var i := FirstKeyIn(cr, Lower(input), 0);
    if i < |cr| then d.(customResponses := cr[i := (cr[i].0, cr[i].1.(usageCount := cr[i].1.usageCount + 1))])
    else d
  }

  /**
   * Only the first matching reply is used, and only its use count moves, by
   * exactly one: every trigger keeps its place and every other entry, table
   * and count stays as it was.
   */
  lemma ReplyCountsOneUse(d: LearnedData, input: string)
    requires d.Valid()
    ensures var d' := AfterReply(d, input);
      d'.Valid() && Keys(d'.customResponses) == Keys(d.customResponses) && Stats(d') == Stats(d)
      && d'.learnedFacts == d.learnedFacts && d'.culturalKnowledge == d.culturalKnowledge
      && var i := FirstKeyIn(d.customResponses, Lower(input), 0);
      (forall j :: 0 <= j < |d.customResponses| && j != i ==> d'.customResponses[j] == d.customResponses[j])
      && (i < |d.customResponses| ==>
            d'.customResponses[i].1.usageCount == d.customResponses[i].1.usageCount + 1
            && d'.customResponses[i].1.response == d.customResponses[i].1.response
            && Reply(d, input) == Some(d.customResponses[i].1.response))
  {
    var cr := d.customResponses;
    var i := FirstKeyIn(cr, Lower(input), 0);
    if i < |cr| {
      var cr' := AfterReply(d, input).customResponses;
      assert Keys(cr') == Keys(cr);
    }
  }

  /**
   * Nothing is answered exactly when no trigger occurs in the lower-cased
   * input, no topic with facts does, and no country does.
   */
  lemma NoReplyWhenNothingMatches(d: LearnedData, input: string)
    ensures var low := Lower(input);
      Reply(d, input).None? <==>
        (forall j :: 0 <= j < |d.customResponses| ==> !Contains(low, d.customResponses[j].0))
        && (forall j :: 0 <= j < |d.learnedFacts| ==> !TopicHit(d.learnedFacts[j], low))
        && (forall j :: 0 <= j < |d.culturalKnowledge| ==> !Contains(low, d.culturalKnowledge[j].0))
  {
  }

  /** The first entry that matches is at `i`. */
  lemma FirstKeyAt<V>(m: seq<(string, V)>, low: string, i: nat)
    requires i < |m| && Contains(low, m[i].0)
    requires forall j :: 0 <= j < i ==> !Contains(low, m[j].0)
    ensures FirstKeyIn(m, low, 0) == i
  {
  }

  /**
   * Once taught, a trigger occurring in the input is answered with its reply,
   * provided no other trigger occurs in the input.
   */
  lemma TaughtReplyAnswers(d: LearnedData, trigger: string, response: string, now: int, input: string)
    requires d.Valid()
    requires Contains(Lower(input), Lower(trigger))
    requires forall t :: t in Keys(d.customResponses) && t != Lower(trigger) ==> !Contains(Lower(input), t)
    ensures Reply(TaughtResponse(d, trigger, response, now), input) == Some(response)
  {
    var key := Lower(trigger);
    var cr := Put(d.customResponses, key, TaughtReply(response, now, 0));
    var i := OrderedMap.IndexOf(cr, key);
    forall j | 0 <= j < i
      ensures !Contains(Lower(input), cr[j].0)
    {
      assert Keys(cr)[j] == cr[j].0;
    }
    FirstKeyAt(cr, Lower(input), i);
  }

  /**
   * Once taught, a fact about a topic occurring in the input is the answer,
   * provided no trigger and no other topic occurs in the input.
   */
  lemma TaughtFactAnswers(d: LearnedData, topic: string, fact: string, now: int, input: string)
    requires Contains(Lower(input), topic)
    requires forall t :: t in Keys(d.customResponses) ==> !Contains(Lower(input), t)
    requires forall t :: t in Keys(d.learnedFacts) && t != topic ==> !Contains(Lower(input), t)
    ensures Reply(TaughtFact(d, topic, fact, now), input) == Some(FactReply(topic, fact))
  {
    var low := Lower(input);
    var v := GetOr(d.learnedFacts, topic, []) + [Fact(fact, now)];
    NoKeyIn(d.customResponses, low);
    var i := OnlyTopicFirst(d.learnedFacts, topic, v, low);
    assert v[|v| - 1] == Fact(fact, now);
  }

  /** With no key occurring in `low` the scan finds nothing. */
  lemma NoKeyIn<V>(m: seq<(string, V)>, low: string)
    requires forall t :: t in Keys(m) ==> !Contains(low, t)
    ensures FirstKeyIn(m, low, 0) == |m|
  {
    forall j | 0 <= j < |m|
      ensures !Contains(low, m[j].0)
    {
      assert Keys(m)[j] == m[j].0;
    }
  }

  /** After `topic` gets a non-empty list, it is the first hit when no other topic occurs in `low`. */
  lemma OnlyTopicFirst(m: seq<(string, seq<Fact>)>, topic: string, v: seq<Fact>, low: string) returns (i: nat)
    requires v != [] && Contains(low, topic)
    requires forall t :: t in Keys(m) && t != topic ==> !Contains(low, t)
    ensures var m' := Put(m, topic, v); i < |m'| && m'[i] == (topic, v) && FirstTopicIn(m', low, 0) == i
  {
    var m' := Put(m, topic, v);
    i := OrderedMap.IndexOf(m', topic);
    forall j | 0 <= j < i
      ensures !TopicHit(m'[j], low)
    {
      assert Keys(m')[j] == m'[j].0;
    }
    assert m'[i].1 == Get(m', topic).value;
  }

  // ------------------------------------------------------------------ class

  class FoxLearningSystem {
    const learningFile: string
    var learnedData: LearnedData
    /** What the learning file holds. */
    var file: Option<LearnedData>

    predicate Valid()
      reads this
    {
      learnedData.Valid()
    }

    /** `__init__` with `load_learned_data`: the learning file's contents, or nothing learned. */
    constructor (profile: ProfileSource, file: Option<LearnedData>)
      requires file.Some? ==> file.value.Valid()
      ensures Valid() && learningFile == LearningFile(profile) && this.file == file
      ensures learnedData == file.GetOr(EmptyLearning())
    {
      learningFile := LearningFile(profile);
      this.file := file;
      learnedData := file.GetOr(EmptyLearning());
    }

    /** `teach_response` */
    method TeachResponse(trigger: string, response: string, now: int) returns (msg: string)
      requires Valid()
      modifies this
      ensures Valid() && learnedData == TaughtResponse(old(learnedData), trigger, response, now)
      ensures file == Some(learnedData)
      ensures msg == ResponseTaughtStart + trigger + ResponseTaughtMiddle + response + ResponseTaughtEnd
    {
      TeachResponseStores(learnedData, trigger, response, now);
      learnedData := learnedData.(customResponses := Put(learnedData.customResponses, Lower(trigger), TaughtReply(response, now, 0)));
      file := Some(learnedData);
      msg := ResponseTaughtStart + trigger + ResponseTaughtMiddle + response + ResponseTaughtEnd;
    }

    /** `teach_fact` */
    method TeachFact(topic: string, fact: string, now: int) returns (msg: string)
      requires Valid()
      modifies this
      ensures Valid() && learnedData == TaughtFact(old(learnedData), topic, fact, now)
      ensures file == Some(learnedData)
      ensures msg == FactTaughtStart + topic + FactTaughtEnd
    {
      TeachFactAppends(learnedData, topic, fact, now);
      var facts := learnedData.learnedFacts;
      if !HasKey(facts, topic) {
        PutPut(facts, topic, [], [Fact(fact, now)]);
        assert [] + [Fact(fact, now)] == [Fact(fact, now)];
        facts := Put(facts, topic, []);
      }
      var list := Get(facts, topic).value;
      facts := Put(facts, topic, list + [Fact(fact, now)]);
      learnedData := learnedData.(learnedFacts := facts);
      file := Some(learnedData);
      msg := FactTaughtStart + topic + FactTaughtEnd;
    }

    /** `teach_culture` */
    method TeachCulture(country: string, info: string, now: int) returns (msg: string)
      requires Valid()
      modifies this
      ensures Valid() && learnedData == TaughtCulture(old(learnedData), country, info, now)
      ensures file == Some(learnedData)
      ensures msg == CultureTaughtStart + country + CultureTaughtEnd
    {
      TeachCultureStores(learnedData, country, info, now);
      learnedData := learnedData.(culturalKnowledge := Put(learnedData.culturalKnowledge, country, Note(info, now)));
      file := Some(learnedData);
      msg := CultureTaughtStart + country + CultureTaughtEnd;
    }

    /** `teach_routine` */
    method TeachRoutine(name: string, description: string, now: int) returns (msg: string)
      requires Valid()
      modifies this
      ensures Valid() && learnedData == TaughtRoutine(old(learnedData), name, description, now)
      ensures file == Some(learnedData)
      ensures msg == RoutineTaughtStart + name + QuotedTaughtEnd
    {
      TeachRoutineStores(learnedData, name, description, now);
      learnedData := learnedData.(dailyRoutines := Put(learnedData.dailyRoutines, name, Note(description, now)));
      file := Some(learnedData);
      msg := RoutineTaughtStart + name + QuotedTaughtEnd;
    }

    /** `teach_preference` */
    method TeachPreference(category: string, preference: string, now: int) returns (msg: string)
      requires Valid()
      modifies this
      ensures Valid() && learnedData == TaughtPreference(old(learnedData), category, preference, now)
      ensures file == Some(learnedData)
      ensures msg == PreferenceTaughtStart + category + QuotedTaughtEnd
    {
      TeachPreferenceStores(learnedData, category, preference, now);
      learnedData := learnedData.(personalPreferences := Put(learnedData.personalPreferences, category, Note(preference, now)));
      file := Some(learnedData);
      msg := PreferenceTaughtStart + category + QuotedTaughtEnd;
    }

    /** `get_learned_response`: the file is written only when a taught reply is used. */
    method GetLearnedResponse(userInput: string) returns (r: Option<string>)
      requires Valid()
      modifies this
      ensures Valid()
      ensures r == Reply(old(learnedData), userInput)
      ensures learnedData == AfterReply(old(learnedData), userInput)
      ensures file == if UsesTaught(old(learnedData), userInput) then Some(learnedData) else old(file)
    {
      var low := Lower(userInput);
      ReplyCountsOneUse(learnedData, userInput);
      var cr := learnedData.customResponses;
      var i := FindKey(cr, low);
      if i < |cr| {
        var trigger, data := cr[i].0, cr[i].1;
        learnedData := learnedData.(customResponses := cr[i := (trigger, data.(usageCount := data.usageCount + 1))]);
        file := Some(learnedData);
        r := Some(data.response);
      } else {
        r := LookUpKnowledge(learnedData, low);
      }
    }

    /** The fact and culture scans of `get_learned_response`. */
    static method LookUpKnowledge(d: LearnedData, low: string) returns (r: Option<string>)
      ensures r == KnowledgeReply(d, low)
    {
      var facts := d.learnedFacts;
      var j := FindTopic(facts, low);
      if j < |facts| {
        var list := facts[j].1;
        return Some(FactReply(facts[j].0, list[|list| - 1].fact));
      }
      var culture := d.culturalKnowledge;
      var k := FindKey(culture, low);
      if k < |culture| {
        return Some(CultureReply(culture[k].0, culture[k].1.text));
      }
      return None;
    }

    /** The scan for the first entry whose key occurs in `low`. */
    static method FindKey<V>(m: seq<(string, V)>, low: string) returns (i: nat)
      ensures i == FirstKeyIn(m, low, 0)
    {
      i := 0;
      while i < |m|
        invariant 0 <= i <= |m|
        invariant forall j :: 0 <= j < i ==> !Contains(low, m[j].0)
      {
        if Contains(low, m[i].0) {
          return;
        }
        i := i + 1;
      }
    }

    /** The scan for the first topic that occurs in `low` and has facts. */
    static method FindTopic(facts: seq<(string, seq<Fact>)>, low: string) returns (i: nat)
      ensures i == FirstTopicIn(facts, low, 0)
    {
      i := 0;
      while i < |facts|
        invariant 0 <= i <= |facts|
        invariant forall j :: 0 <= j < i ==> !TopicHit(facts[j], low)
      {
        var topic, list := facts[i].0, facts[i].1;
        if Contains(low, topic) {
          if list != [] {
            return;
          }
        }
        i := i + 1;
      }
    }

    /** `get_learning_stats` */
    function GetLearningStats(): (stats: LearningStats)
      reads this
      ensures stats.customResponses == |learnedData.customResponses| && stats.totalTeachings == |learnedData.teachingSessions|
      ensures stats.learnedFacts == FactTotal(learnedData.learnedFacts) && stats.culturalKnowledge == |learnedData.culturalKnowledge|
      ensures stats.personalPreferences == |learnedData.personalPreferences| && stats.dailyRoutines == |learnedData.dailyRoutines|
      ensures forall i :: 0 <= i < |learnedData.learnedFacts| ==> |learnedData.learnedFacts[i].1| <= stats.learnedFacts
      ensures stats.learnedFacts == 0 <==> forall i :: 0 <= i < |learnedData.learnedFacts| ==> learnedData.learnedFacts[i].1 == []
    {
      FactTotalBounds(learnedData.learnedFacts);
      Stats(learnedData)
    }
  }
}
