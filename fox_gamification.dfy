/**
 * Fox's game layer (backend/core/fox_gamification.py): experience points,
 * levels, statistics and eight achievements. Earning an achievement grants
 * experience through `gain_experience`, which checks the achievements again,
 * so the two operations call each other; the recursion ends because every
 * nested call follows the earning of an achievement not held before, out of
 * a fixed list of eight. The game file is a field holding what this object
 * last wrote; `random.choice` is given as a pick and times as clock readings.
 */
module FoxGamification {
  import opened Common
  import opened Text

  datatype GameStats = GameStats(conversations: int, questionsAnswered: int, thingsLearned: int,
                                 daysActive: int, friendshipPoints: int)

  datatype Achievement = Achievement(id: string, name: string, earnedDate: int)

  datatype GameState = GameState(foxLevel: int, experience: int, achievements: seq<Achievement>, stats: GameStats)

  const ZeroStats: GameStats := GameStats(0, 0, 0, 0, 0)

  /** The defaults of `load_game_data`. */
  const FreshGame: GameState := GameState(1, 0, [], ZeroStats)

  /** A game file: each key may be missing. */
  datatype GameFile = GameFile(foxLevel: Option<int>, experience: Option<int>,
                               achievements: Option<seq<Achievement>>, stats: Option<GameStats>)

  /** `load_game_data`: the file's values where present, the defaults otherwise. */
  function Loaded(file: Option<GameFile>): (st: GameState)
    ensures file.None? ==> st == FreshGame
    ensures file.Some? ==>
              st.foxLevel == file.value.foxLevel.GetOr(1) && st.experience == file.value.experience.GetOr(0)
              && st.achievements == file.value.achievements.GetOr([]) && st.stats == file.value.stats.GetOr(ZeroStats)
  {
    match file
    case None => FreshGame
    case Some(f) => GameState(f.foxLevel.GetOr(1), f.experience.GetOr(0), f.achievements.GetOr([]), f.stats.GetOr(ZeroStats))
  }

  // ---------------------------------------------------------------- rewards

  const RewardTypes: seq<string> := ["conversation", "question", "learning", "teaching", "daily_login", "achievement"]
  const RewardPoints: seq<int> := [5, 10, 15, 20, 25, 50]

  /** `exp_rewards.get(interaction_type, 5)` */
  function Reward(t: string): int {
    if t == "conversation" then 5
    else if t == "question" then 10
    else if t == "learning" then 15
    else if t == "teaching" then 20
    else if t == "daily_login" then 25
    else if t == "achievement" then 50
    else 5
  }

  /** `amount or exp_rewards.get(interaction_type, 5)`: `None` and 0 are both falsy. */
  function Gained(t: string, amount: Option<int>): int {
    if amount.Some? && amount.value != 0 then amount.value else Reward(t)
  }

  /** A non-zero amount wins; otherwise the table decides, 5 for a type it does not list. */
  lemma GainedCases(t: string, amount: Option<int>)
    ensures amount.Some? && amount.value != 0 ==> Gained(t, amount) == amount.value
    ensures (amount.None? || amount.value == 0) ==>
      Gained(t, amount) == if t in RewardTypes then RewardPoints[IndexOfType(t)] else 5
  {
  }

  function IndexOfType(t: string): (i: nat)
    requires t in RewardTypes
    ensures i < |RewardTypes| && RewardTypes[i] == t
  {
    if t == "conversation" then 0 else if t == "question" then 1 else if t == "learning" then 2
    else if t == "teaching" then 3 else if t == "daily_login" then 4 else 5
  }

  /** The interaction types that have a counter of their own. */
  predicate IsCounted(t: string) {
    t == "conversation" || t == "question" || t == "learning"
  }

  /** The statistics update of `gain_experience`. */
  function CountedStats(s: GameStats, t: string): GameStats {
    if t == "conversation" then s.(conversations := s.conversations + 1)
    else if t == "question" then s.(questionsAnswered := s.questionsAnswered + 1)
    else if t == "learning" then s.(thingsLearned := s.thingsLearned + 1)
    else s
  }

  /** Only conversations, questions and learning are counted, one at a time; no other statistic moves. */
  lemma CountedOnlyThree(s: GameStats, t: string)
    ensures var c := CountedStats(s, t);
      c.daysActive == s.daysActive && c.friendshipPoints == s.friendshipPoints
      && c.conversations + c.questionsAnswered + c.thingsLearned
         == s.conversations + s.questionsAnswered + s.thingsLearned + (if IsCounted(t) then 1 else 0)
      && (!IsCounted(t) ==> c == s)
  {
  }

  // ---------------------------------------------------------------- levels

  function LevelMessages(level: int): seq<string> {
    var n := IntToString(level);
    ["🎉 Fox به سطح " + n + " رسید!",
     "🦊 Fox قوی\U{200C}تر شد! سطح " + n,
     "⭐ تبریک! Fox الان سطح " + n + " است",
     "🚀 Fox ارتقا یافت! سطح " + n]
  }

  /** `check_level_up` */
  function LevelUp(st: GameState, pick: nat): (r: (GameState, Option<string>))
    ensures r.0.achievements == st.achievements
  {
    var required := st.foxLevel * 100;
    if st.experience >= required then
      var s := st.(foxLevel := st.foxLevel + 1, experience := st.experience - required,
                   stats := st.stats.(friendshipPoints := st.stats.friendshipPoints + 10));
      (s, Some(Choose(LevelMessages(s.foxLevel), pick)))
    else (st, None)
  }

  /**
   * At most one level per check: with enough experience for the level the
   * level rises by one, that experience is spent and ten friendship points
   * are earned; otherwise nothing changes and there is no message.
   */
  lemma LevelUpCases(st: GameState, pick: nat)
    ensures var r := LevelUp(st, pick);
      (st.experience >= st.foxLevel * 100 <==> r.1.Some?)
      && (r.1.Some? ==> r.0 == st.(foxLevel := st.foxLevel + 1, experience := st.experience - st.foxLevel * 100,
                                    stats := st.stats.(friendshipPoints := st.stats.friendshipPoints + 10)))
      && (r.1.None? ==> r.0 == st)
  {
  }

  // ---------------------------------------------------------- achievements

  const AchievementIds: seq<string> := ["first_chat", "chatty", "social", "curious", "teacher", "friend", "level_5", "level_10"]
  const AchievementNames: seq<string> := ["اولین مکالمه", "پرحرف", "اجتماعی", "کنجکاو", "معلم", "دوست", "سطح 5", "سطح 10"]

  /** The condition of achievement `k`. */
  predicate Condition(k: nat, st: GameState)
    requires k < 8
  {
    if k == 0 then st.stats.conversations >= 1
    else if k == 1 then st.stats.conversations >= 10
    else if k == 2 then st.stats.conversations >= 50
    else if k == 3 then st.stats.questionsAnswered >= 20
    else if k == 4 then st.stats.thingsLearned >= 10
    else if k == 5 then st.stats.friendshipPoints >= 50
    else if k == 6 then st.foxLevel >= 5
    else st.foxLevel >= 10
  }

  function Ids(achs: seq<Achievement>): (ids: seq<string>)
    ensures |ids| == |achs|
    ensures forall i :: 0 <= i < |achs| ==> ids[i] == achs[i].id
  {
    seq(|achs|, i requires 0 <= i < |achs| => achs[i].id)
  }

  /** Achievements from `k` on whose id is not among `ids`. */
  function UnearnedFrom(ids: seq<string>, k: nat): (n: nat)
    requires k <= 8
    ensures n <= 8 - k
    decreases 8 - k
  {
    if k == 8 then 0 else (if AchievementIds[k] in ids then 0 else 1) + UnearnedFrom(ids, k + 1)
  }

  /** How many achievements are still to be earned: the measure the recursion decreases. */
  function Unearned(st: GameState): nat {
    UnearnedFrom(Ids(st.achievements), 0)
  }

  /** Earning achievement `j` lowers the count; earning anything never raises it. */
  lemma {:induction false} UnearnedEarn(ids: seq<string>, x: string, j: nat, k: nat)
    requires k <= 8
    ensures UnearnedFrom(ids + [x], k) <= UnearnedFrom(ids, k)
    ensures k <= j < 8 && x == AchievementIds[j] && x !in ids ==> UnearnedFrom(ids + [x], k) < UnearnedFrom(ids, k)
    decreases 8 - k
  {
    if k < 8 {
      UnearnedEarn(ids, x, j, k + 1);
    }
  }

  /** Achievement `k` as earned now. */
  function Earned(k: nat, now: int): Achievement
    requires k < 8
  {
    Achievement(AchievementIds[k], AchievementNames[k], now)
  }

  /** What `st` becomes when achievement `k` is earned, with the count it lowers. */
  lemma EarnLowers(st: GameState, k: nat, now: int)
    requires k < 8 && AchievementIds[k] !in Ids(st.achievements)
    ensures var s := st.(achievements := st.achievements + [Earned(k, now)]);
      Ids(s.achievements) == Ids(st.achievements) + [AchievementIds[k]] && Unearned(s) < Unearned(st)
      && (NoDup(Ids(st.achievements)) ==> NoDup(Ids(s.achievements)))
  {
    var s := st.(achievements := st.achievements + [Earned(k, now)]);
    assert Ids(s.achievements) == Ids(st.achievements) + [AchievementIds[k]];
    UnearnedEarn(Ids(st.achievements), AchievementIds[k], k, 0);
  }

  /** What one call of `gain_experience` promises about the achievements and the level. */
  predicate GainBounds(st: GameState, r: GameState, extra: int) {
    Unearned(r) <= Unearned(st)
    && Ids(st.achievements) <= Ids(r.achievements)
    && (NoDup(Ids(st.achievements)) ==> NoDup(Ids(r.achievements)))
    && (forall j :: |st.achievements| <= j < |r.achievements| ==> r.achievements[j].id in AchievementIds)
    && |r.achievements| - |st.achievements| <= Unearned(st) - Unearned(r)
    && st.foxLevel <= r.foxLevel <= st.foxLevel + extra + Unearned(st) - Unearned(r)
  }

  /** `gain_experience`: the new state and the message. */
  function Gain(st: GameState, t: string, amount: Option<int>, pick: nat, now: int): (r: (GameState, string))
    ensures GainBounds(st, r.0, 1)
    decreases Unearned(st), 2, 0
  {
    var up := LevelUp(Credited(st, t, amount), pick);
    var ch := Check(up.0, pick, now);
    (ch.0, GainMessage(Gained(t, amount), t, up.1, ch.1))
  }

  /** The experience and statistics of `gain_experience`, before the level and achievement checks. */
  function Credited(st: GameState, t: string, amount: Option<int>): (r: GameState)
    ensures r.achievements == st.achievements && r.foxLevel == st.foxLevel
  {
    st.(experience := st.experience + Gained(t, amount), stats := CountedStats(st.stats, t))
  }

  lemma GainUnfold(st: GameState, t: string, amount: Option<int>, pick: nat, now: int)
    ensures var up := LevelUp(Credited(st, t, amount), pick);
      var ch := Check(up.0, pick, now);
      Gain(st, t, amount, pick, now) == (ch.0, GainMessage(Gained(t, amount), t, up.1, ch.1))
  {
  }

  function GainMessage(gained: int, t: string, levelMsg: Option<string>, achievementMsg: Option<string>): string {
    "✨ +" + IntToString(gained) + " XP (" + t + ")"
    + (if levelMsg.Some? then "\n" + levelMsg.value else "")
    + (if achievementMsg.Some? then "\n" + achievementMsg.value else "")
  }

  /** `check_achievements`: the new state and, when something was earned, the message naming it. */
  function Check(st: GameState, pick: nat, now: int): (r: (GameState, Option<string>))
    ensures GainBounds(st, r.0, 0)
    decreases Unearned(st), 1, 0
  {
    var c := CheckFrom(st, 0, [], pick, now);
    (c.0, if c.1 != [] then Some("🏆 Achievement جدید: " + Join(c.1, ", ")) else None)
  }

  /** The loop of `check_achievements` from achievement `k` on, with the names earned so far. */
  function CheckFrom(st: GameState, k: nat, names: seq<string>, pick: nat, now: int): (r: (GameState, seq<string>))
    requires k <= 8
    ensures GainBounds(st, r.0, 0)
    decreases Unearned(st), 0, 8 - k
  {
    if k == 8 then (st, names)
    else if AchievementIds[k] !in Ids(st.achievements) && Condition(k, st) then
      var s1 := st.(achievements := st.achievements + [Earned(k, now)]);
      EarnLowers(st, k, now);
      var s2 := Gain(s1, "achievement", Some(50), pick, now).0;
      var r := CheckFrom(s2, k + 1, names + [AchievementNames[k]], pick, now);
      BoundsCompose(st, s1, s2, r.0);
      r
    else CheckFrom(st, k + 1, names, pick, now)
  }

  /**
   * The pick only chooses the wording of the level-up message: the state a
   * gain leaves does not depend on it. The nested gains of the achievement
   * loop discard their messages, so sharing one pick among them is harmless.
   */
  lemma {:induction false} GainStateIgnoresPick(st: GameState, t: string, amount: Option<int>, p: nat, q: nat, now: int)
    ensures Gain(st, t, amount, p, now).0 == Gain(st, t, amount, q, now).0
    ensures Check(LevelUp(Credited(st, t, amount), p).0, p, now) == Check(LevelUp(Credited(st, t, amount), q).0, q, now)
    decreases Unearned(st), 2, 0
  {
    var up := LevelUp(Credited(st, t, amount), p).0;
    assert LevelUp(Credited(st, t, amount), q).0 == up;
    CheckFromIgnoresPick(up, 0, [], p, q, now);
  }

  /** The achievement loop gives the same state and names whatever the pick. */
  lemma {:induction false} CheckFromIgnoresPick(st: GameState, k: nat, names: seq<string>, p: nat, q: nat, now: int)
    requires k <= 8
    ensures CheckFrom(st, k, names, p, now) == CheckFrom(st, k, names, q, now)
    decreases Unearned(st), 0, 8 - k
  {
    if k < 8 {
      if AchievementIds[k] !in Ids(st.achievements) && Condition(k, st) {
        var s1 := st.(achievements := st.achievements + [Earned(k, now)]);
        EarnLowers(st, k, now);
        GainStateIgnoresPick(s1, "achievement", Some(50), p, q, now);
        CheckFromIgnoresPick(Gain(s1, "achievement", Some(50), p, now).0, k + 1, names + [AchievementNames[k]], p, q, now);
      } else {
        CheckFromIgnoresPick(st, k + 1, names, p, q, now);
      }
    }
  }

  /** Earning one achievement, then a nested gain, then the rest of the loop. */
  lemma BoundsCompose(st: GameState, s1: GameState, s2: GameState, r: GameState)
    requires |s1.achievements| == |st.achievements| + 1 && s1.foxLevel == st.foxLevel
    requires Ids(st.achievements) <= Ids(s1.achievements) && s1.achievements[|st.achievements|].id in AchievementIds
    requires Unearned(s1) < Unearned(st) && (NoDup(Ids(st.achievements)) ==> NoDup(Ids(s1.achievements)))
    requires GainBounds(s1, s2, 1) && GainBounds(s2, r, 0)
    ensures GainBounds(st, r, 0)
  {
    PrefixOfPrefix(Ids(st.achievements), Ids(s1.achievements), Ids(s2.achievements));
    PrefixOfPrefix(Ids(st.achievements), Ids(s2.achievements), Ids(r.achievements));
    forall j | |st.achievements| <= j < |r.achievements|
      ensures r.achievements[j].id in AchievementIds
    {
      if j == |st.achievements| {
        assert Ids(r.achievements)[j] == Ids(s1.achievements)[j];
      } else if j >= |s2.achievements| {
      } else {
        assert Ids(r.achievements)[j] == Ids(s2.achievements)[j];
      }
    }
  }

  lemma BoundsTrans(a: GameState, b: GameState, c: GameState)
    requires GainBounds(a, b, 0) && GainBounds(b, c, 0)
    ensures GainBounds(a, c, 0)
  {
    PrefixOfPrefix(Ids(a.achievements), Ids(b.achievements), Ids(c.achievements));
    forall j | |a.achievements| <= j < |c.achievements|
      ensures c.achievements[j].id in AchievementIds
    {
      if j < |b.achievements| {
        assert Ids(c.achievements)[j] == Ids(b.achievements)[j];
      }
    }
  }

  /**
   * The achievements are only ever extended, no id is earned twice, every new
   * one comes from the list of eight, and a message reports exactly the
   * achievements this check itself earned.
   */
  lemma NeverTwice(st: GameState, pick: nat, now: int)
    requires NoDup(Ids(st.achievements))
    ensures var r := Check(st, pick, now).0;
      NoDup(Ids(r.achievements)) && Ids(st.achievements) <= Ids(r.achievements)
      && |r.achievements| <= |st.achievements| + 8
  {
  }

  // ---------------------------------------------------------------- status

  /** The personality tier of `get_fox_status`: below 5, below 10, below 20, and the rest. */
  function PersonalityTier(level: int): (tier: nat)
    ensures tier <= 3
  {
    if level < 5 then 0 else if level < 10 then 1 else if level < 20 then 2 else 3
  }

  const Personalities: seq<string> := ["🦊 Fox کوچولو", "🦊 Fox باهوش", "🦊 Fox حرفه\U{200C}ای", "🦊 Fox استاد"]

  function Personality(level: int): string {
    if level < 5 then "🦊 Fox کوچولو"
    else if level < 10 then "🦊 Fox باهوش"
    else if level < 20 then "🦊 Fox حرفه\U{200C}ای"
    else "🦊 Fox استاد"
  }

  /** The personality is named by the tier, and a higher level never has a lower tier. */
  lemma PersonalityByTier(a: int, b: int)
    ensures Personality(a) == Personalities[PersonalityTier(a)]
    ensures a <= b ==> PersonalityTier(a) <= PersonalityTier(b)
  {
  }

  /** `get_fox_mood`, by friendship points past 100, 50 and 20. */
  function MoodRank(points: int): (rank: nat)
    ensures rank <= 3
  {
    if points > 100 then 3 else if points > 50 then 2 else if points > 20 then 1 else 0
  }

  const Moods: seq<string> := ["😐 Fox منتظر بیشتر حرف زدن", "🙂 Fox راضیه", "😊 Fox خوشحاله", "😍 Fox عاشقتونه!"]

  function FoxMood(points: int): string {
    if points > 100 then "😍 Fox عاشقتونه!"
    else if points > 50 then "😊 Fox خوشحاله"
    else if points > 20 then "🙂 Fox راضیه"
    else "😐 Fox منتظر بیشتر حرف زدن"
  }

  /** The thresholds are strict, and more points never give a lower mood. */
  lemma MoodByRank(a: int, b: int)
    ensures FoxMood(a) == Moods[MoodRank(a)]
    ensures a <= b ==> MoodRank(a) <= MoodRank(b)
    ensures MoodRank(100) == 2 && MoodRank(50) == 1 && MoodRank(20) == 0
  {
  }

  // ------------------------------------------------------------------ class

  class FoxGame {
    var foxLevel: int
    var experience: int
    var achievements: seq<Achievement>
    var stats: GameStats
    /** What this object last wrote to the game file. */
    var saved: Option<GameState>

    function State(): GameState
      reads this
    {
      GameState(foxLevel, experience, achievements, stats)
    }

    /** `__init__` with `load_game_data` */
    constructor (file: Option<GameFile>)
      ensures State() == Loaded(file) && saved.None?
    {
      var st := Loaded(file);
      foxLevel, experience, achievements, stats := st.foxLevel, st.experience, st.achievements, st.stats;
      saved := None;
    }

    /** `gain_experience` */
    method GainExperience(t: string, amount: Option<int>, pick: nat, now: int) returns (result: string)
      modifies this
      ensures (State(), result) == Gain(old(State()), t, amount, pick, now)
      ensures saved == Some(State())
      decreases Unearned(State()), 2, 0
    {
      ghost var st := State();
      var gained := if amount.Some? && amount.value != 0 then amount.value else Reward(t);
      experience := experience + gained;
      if t == "conversation" {
        stats := stats.(conversations := stats.conversations + 1);
      } else if t == "question" {
        stats := stats.(questionsAnswered := stats.questionsAnswered + 1);
      } else if t == "learning" {
        stats := stats.(thingsLearned := stats.thingsLearned + 1);
      }
      ghost var s1 := Credited(st, t, amount);
      assert State() == s1;
      var levelMessage := CheckLevelUp(pick);
      ghost var up := LevelUp(s1, pick);
      assert State() == up.0 && levelMessage == up.1;
      var newAchievements := CheckAchievements(pick, now);
      ghost var ch := Check(up.0, pick, now);
      assert State() == ch.0 && newAchievements == ch.1;
      saved := Some(State());
      result := GainMessage(gained, t, levelMessage, newAchievements);
      assert gained == Gained(t, amount);
      GainUnfold(st, t, amount, pick, now);
    }

    /** `check_level_up` */
    method CheckLevelUp(pick: nat) returns (msg: Option<string>)
      modifies this
      ensures (State(), msg) == LevelUp(old(State()), pick) && saved == old(saved)
    {
      var required := foxLevel * 100;
      if experience >= required {
        foxLevel := foxLevel + 1;
        experience := experience - required;
        stats := stats.(friendshipPoints := stats.friendshipPoints + 10);
        msg := Some(Choose(LevelMessages(foxLevel), pick));
      } else {
        msg := None;
      }
    }

    /** `check_achievements` */
    method CheckAchievements(pick: nat, now: int) returns (msg: Option<string>)
      modifies this
      ensures (State(), msg) == Check(old(State()), pick, now)
      ensures |achievements| == |old(achievements)| ==> saved == old(saved)
      ensures |achievements| != |old(achievements)| ==> saved == Some(State())
      decreases Unearned(State()), 1, 0
    {
      var newAchievements: seq<string> := [];
      var k := 0;
      while k < 8
        invariant 0 <= k <= 8
        invariant CheckFrom(State(), k, newAchievements, pick, now) == CheckFrom(old(State()), 0, [], pick, now)
        invariant GainBounds(old(State()), State(), 0)
        invariant |achievements| == |old(achievements)| ==> saved == old(saved)
        invariant |achievements| != |old(achievements)| ==> saved == Some(State())
      {
        if AchievementIds[k] !in Ids(achievements) {
          if Condition(k, State()) {
            ghost var st := State();
            newAchievements := newAchievements + [AchievementNames[k]];
            EarnAchievement(k, pick, now);
            BoundsTrans(old(State()), st, State());
          }
        }
        k := k + 1;
      }
      msg := if newAchievements != [] then Some("🏆 Achievement جدید: " + Join(newAchievements, ", ")) else None;
    }

    /** One earning step of `check_achievements`: record achievement `k`, then gain its experience. */
    method EarnAchievement(k: nat, pick: nat, now: int)
      requires k < 8 && AchievementIds[k] !in Ids(achievements)
      modifies this
      ensures State() == Gain(old(State()).(achievements := old(achievements) + [Earned(k, now)]), "achievement", Some(50), pick, now).0
      ensures saved == Some(State()) && |achievements| > |old(achievements)|
      ensures GainBounds(old(State()), State(), 0)
      decreases Unearned(State()), 0, 0
    {
      ghost var st := State();
      EarnLowers(st, k, now);
      achievements := achievements + [Earned(k, now)];
      ghost var s1 := State();
      var ignored := GainExperience("achievement", Some(50), pick, now);
      BoundsCompose(st, s1, State(), State());
    }

    /** `get_fox_mood` */
    function GetFoxMood(): (mood: string)
      reads this
      ensures mood == Moods[MoodRank(stats.friendshipPoints)]
      ensures mood == "😍 Fox عاشقتونه!" <==> stats.friendshipPoints > 100
    {
      MoodByRank(stats.friendshipPoints, stats.friendshipPoints);
      FoxMood(stats.friendshipPoints)
    }
  }
}
