/**
 * Fox's accelerated experience (backend/core/fox_experience.py): boosting
 * experience by days or months raises the relationship level and the
 * interaction counts, an experience label and an artificial age follow from
 * the interaction count, and an experienced Fox answers some inputs itself.
 * The profile is the `Profile.UserProfile` object Fox shares with the rest
 * of the program; times are clock readings supplied by the caller.
 */
module FoxExperience {
  import opened Common
  import opened Text
  import opened Profile

  /** One day of boosting counts as a month of use. */
  const ExperienceMultiplier: int := 30

  /** What `accelerate_experience` returns. */
  datatype ExperienceReport = ExperienceReport(experienceGained: int, oldLevel: int, newLevel: int,
                                               oldInteractions: int, newInteractions: int)

  /** The profile after `accelerate_experience(days)`. */
  function Accelerated(p: ProfileData, days: int, now: int): ProfileData {
    var gained := days * ExperienceMultiplier;
    p.(relationshipLevel := Min(10, p.relationshipLevel + gained / 10),
       interactionCount := p.interactionCount + gained,
       artificialExperience := p.artificialExperience + gained,
       lastExperienceBoost := Some(now))
  }

  function Report(p: ProfileData, days: int): ExperienceReport {
    var gained := days * ExperienceMultiplier;
    ExperienceReport(gained, p.relationshipLevel, Min(10, p.relationshipLevel + gained / 10),
                     p.interactionCount, p.interactionCount + gained)
  }

  /**
   * A day is worth 30 interactions and 3 relationship levels, the level
   * stopping at 10; the interaction count and the artificial experience grow
   * by the same amount, so the real experience is untouched, and nothing else
   * in the profile changes. The report gives the levels and counts before
   * and after.
   */
  lemma AccelerateLaws(p: ProfileData, days: int, now: int)
    ensures var q, r := Accelerated(p, days, now), Report(p, days);
      r.experienceGained == 30 * days
      && q.relationshipLevel == Min(10, p.relationshipLevel + 3 * days)
      && q.interactionCount == p.interactionCount + 30 * days
      && q.artificialExperience == p.artificialExperience + 30 * days
      && q.interactionCount - q.artificialExperience == p.interactionCount - p.artificialExperience
      && q.(relationshipLevel := p.relationshipLevel, interactionCount := p.interactionCount,
            artificialExperience := p.artificialExperience, lastExperienceBoost := p.lastExperienceBoost) == p
      && r.oldLevel == p.relationshipLevel && r.newLevel == q.relationshipLevel
      && r.oldInteractions == p.interactionCount && r.newInteractions == q.interactionCount
  {
    assert (days * 30) / 10 == 3 * days;
  }

  /** Boosting never lifts the level past 10, and forward boosting never lowers it. */
  lemma AccelerateLevelBounds(p: ProfileData, days: int, now: int)
    requires days >= 0 && p.relationshipLevel <= 10
    ensures var l := Accelerated(p, days, now).relationshipLevel;
      p.relationshipLevel <= l <= 10 && (days > 0 ==> l == 10 || l > p.relationshipLevel)
  {
    AccelerateLaws(p, days, now);
  }

  // ------------------------------------------------------- synthetic knowledge

  const ProgrammingInterest: string := "برنامه\U{200C}نویسی"
  const MusicInterest: string := "موسیقی"
  const ProgrammingPatterns: seq<string> := ["کد تمیز مهمه", "تست نوشتن ضروریه", "Git استفاده کن", "مستندات بخون"]
  const MusicPatterns: seq<string> := ["موسیقی حال رو بهتر می\U{200C}کنه", "ساز یاد گرفتن خوبه", "کنسرت رفتن لذت\U{200C}بخشه"]

  function PatternsFor(interest: string): seq<string> {
    if interest == ProgrammingInterest then ProgrammingPatterns
    else if interest == MusicInterest then MusicPatterns
    else []
  }

  /** What `add_synthetic_knowledge` appends for the interests, in order; repeats are kept. */
  function SyntheticPatterns(interests: seq<string>): seq<string> {
    if interests == [] then []
    else SyntheticPatterns(interests[..|interests| - 1]) + PatternsFor(interests[|interests| - 1])
  }

  /**
   * Only the programming and music patterns are ever added, and something is
   * added exactly when the interests name programming or music.
   */
  lemma {:induction false} SyntheticFromTables(interests: seq<string>)
    ensures forall x :: x in SyntheticPatterns(interests) ==> x in ProgrammingPatterns || x in MusicPatterns
    ensures SyntheticPatterns(interests) == [] <==> ProgrammingInterest !in interests && MusicInterest !in interests
  {
    if interests != [] {
      var init := interests[..|interests| - 1];
      var last := interests[|interests| - 1];
      SyntheticFromTables(init);
      assert interests == init + [last];
      assert PatternsFor(last) == [] <==> last != ProgrammingInterest && last != MusicInterest;
    }
  }

  // -------------------------------------------------------- experience level

  const ExperienceLabels: seq<string> := ["تازه\U{200C}کار", "مبتدی", "متوسط", "پیشرفته", "خبره", "استاد"]

  /** The label steps of `get_experience_level`; each threshold must be passed strictly. */
  const Thresholds: seq<int> := [100, 500, 1000, 2000, 5000]

  function ExperienceLabel(total: int): string {
    if total > 5000 then "استاد"
    else if total > 2000 then "خبره"
    else if total > 1000 then "پیشرفته"
    else if total > 500 then "متوسط"
    else if total > 100 then "مبتدی"
    else "تازه\U{200C}کار"
  }

  /** Number of thresholds `total` has passed. */
  function LabelRank(total: int): (r: nat)
    ensures r <= 5
    ensures forall i :: 0 <= i < 5 ==> (Thresholds[i] < total <==> i < r)
  {
    if total > 5000 then 5 else if total > 2000 then 4 else if total > 1000 then 3
    else if total > 500 then 2 else if total > 100 then 1 else 0
  }

  /** The label is the one for the number of thresholds passed. */
  lemma LabelByRank(total: int)
    ensures ExperienceLabel(total) == ExperienceLabels[LabelRank(total)]
  {
  }

  /** More interactions never give a lower label. */
  lemma LabelMonotone(a: int, b: int)
    requires a <= b
    ensures LabelRank(a) <= LabelRank(b)
  {
  }

  datatype ExperienceInfo = ExperienceInfo(totalInteractions: int, realExperience: int, artificialExperience: int,
                                           daysOld: int, monthsOld: int, yearsOld: int,
                                           experienceLevel: string, relationshipLevel: int)

  /** `get_experience_level` */
  function Info(p: ProfileData): ExperienceInfo {
    var total := p.interactionCount;
    var days := total / 30;
    var months := days / 30;
    ExperienceInfo(total, total - p.artificialExperience, p.artificialExperience,
                   days, months, months / 12, ExperienceLabel(total), p.relationshipLevel)
  }

  /**
   * The artificial age: 30 interactions make a day, 900 a month and 10800 a
   * year; real and artificial experience add up to the total.
   */
  lemma AgeFromInteractions(p: ProfileData)
    ensures var e := Info(p);
      e.daysOld == e.totalInteractions / 30 && e.monthsOld == e.totalInteractions / 900
      && e.yearsOld == e.totalInteractions / 10800
      && e.realExperience + e.artificialExperience == e.totalInteractions
  {
    var t := p.interactionCount;
    assert (t / 30) / 30 == t / 900;
    assert (t / 900) / 12 == t / 10800;
  }

  // ------------------------------------------------------ contextual answers

  const HardWords: seq<string> := ["مشکل", "سخت", "دشوار"]
  const LearnWords: seq<string> := ["یاد بده", "آموزش", "چطور"]

  /** `generate_contextual_response` */
  function ContextualResponse(e: ExperienceInfo, input: string): Option<string> {
    var low := Lower(input);
    if e.experienceLevel in ["خبره", "استاد"] then
      if ContainsAny(low, HardWords) then
        Some("با " + IntToString(e.totalInteractions) + " تعامل که داشتم، یاد گرفتم که هر مشکلی راه حل داره. بیا باهم حلش کنیم.")
      else if ContainsAny(low, LearnWords) then
        Some("تو این " + IntToString(e.monthsOld) + " ماه، خیلی چیز یاد گرفتم. بذار تجربه\U{200C}م رو باهات به اشتراک بذارم.")
      else None
    else if e.experienceLevel in ["متوسط", "پیشرفته"] then
      if Contains(low, "سلام") then
        Some("سلام! با " + IntToString(e.totalInteractions) + " تعامل که داشتیم، حس می\U{200C}کنم خیلی بهتر می\U{200C}شناسمت!")
      else None
    else None
  }

  /**
   * Fox answers on its own only past 500 interactions, and then only for a
   * greeting (up to 2000) or for a problem or a request to teach (past 2000).
   */
  lemma ContextualNeedsExperience(p: ProfileData, input: string)
    ensures var t, low := p.interactionCount, Lower(input);
      ContextualResponse(Info(p), input).Some? <==>
        (t > 2000 && (ContainsAny(low, HardWords) || ContainsAny(low, LearnWords)))
        || (500 < t <= 2000 && Contains(low, "سلام"))
  {
    LabelGroups(p.interactionCount);
  }

  /** The two label groups the answers depend on, by interaction count. */
  lemma LabelGroups(total: int)
    ensures ExperienceLabel(total) in ["خبره", "استاد"] <==> total > 2000
    ensures ExperienceLabel(total) in ["متوسط", "پیشرفته"] <==> 500 < total <= 2000
  {
  }

  // ------------------------------------------------------------------ class

  const WiseTraits: seq<string> := ["باتجربه", "دانا", "حکیم"]

  class FoxExperienceSystem {
    const userProfile: UserProfile
    /** `knowledge_base["learned_patterns"]` */
    var learnedPatterns: seq<string>

    constructor (userProfile: UserProfile)
      ensures this.userProfile == userProfile && learnedPatterns == []
    {
      this.userProfile := userProfile;
      learnedPatterns := [];
    }

    /** `accelerate_experience` */
    method AccelerateExperience(days: int, now: int) returns (report: ExperienceReport)
      modifies this, userProfile, userProfile.store
      ensures userProfile.profile == Accelerated(old(userProfile.profile), days, now)
      ensures userProfile.profileFile == old(userProfile.profileFile)
      ensures userProfile.store.files == old(userProfile.store.files)[userProfile.profileFile := userProfile.profile]
      ensures learnedPatterns == old(learnedPatterns) + SyntheticPatterns(old(userProfile.profile).interests)
      ensures report == Report(old(userProfile.profile), days)
    {
      var gained := days * ExperienceMultiplier;
      var p := userProfile.profile;
      var newLevel := Min(10, p.relationshipLevel + gained / 10);
      var newInteractions := p.interactionCount + gained;
      userProfile.profile := p.(relationshipLevel := newLevel, interactionCount := newInteractions,
                                artificialExperience := p.artificialExperience + gained,
                                lastExperienceBoost := Some(now));
      AddSyntheticKnowledge();
      userProfile.SaveProfile();
      report := ExperienceReport(gained, p.relationshipLevel, newLevel, p.interactionCount, newInteractions);
    }

    /** `add_synthetic_knowledge` */
    method AddSyntheticKnowledge()
      modifies this
      ensures learnedPatterns == old(learnedPatterns) + SyntheticPatterns(userProfile.profile.interests)
    {
      var interests := userProfile.profile.interests;
      var i := 0;
      while i < |interests|
        invariant 0 <= i <= |interests|
        invariant learnedPatterns == old(learnedPatterns) + SyntheticPatterns(interests[..i])
      {
        assert interests[..i + 1][..i] == interests[..i];
        if interests[i] == ProgrammingInterest {
          learnedPatterns := learnedPatterns + ProgrammingPatterns;
        } else if interests[i] == MusicInterest {
          learnedPatterns := learnedPatterns + MusicPatterns;
        }
        i := i + 1;
      }
      assert interests[..i] == interests;
    }

    /** `get_experience_level` */
    function GetExperienceLevel(): (e: ExperienceInfo)
      reads userProfile
      ensures e.totalInteractions == userProfile.profile.interactionCount
      ensures e.daysOld == e.totalInteractions / 30 && e.monthsOld == e.totalInteractions / 900
      ensures e.yearsOld == e.totalInteractions / 10800
      ensures e.realExperience + e.artificialExperience == e.totalInteractions
      ensures e.experienceLevel == ExperienceLabels[LabelRank(e.totalInteractions)]
      ensures e.relationshipLevel == userProfile.profile.relationshipLevel
    {
      AgeFromInteractions(userProfile.profile);
      LabelByRank(userProfile.profile.interactionCount);
      Info(userProfile.profile)
    }

    /** `generate_contextual_response` */
    function GenerateContextualResponse(userInput: string): (reply: Option<string>)
      reads userProfile
      ensures var t, low := userProfile.profile.interactionCount, Lower(userInput);
        reply.Some? <==>
          (t > 2000 && (ContainsAny(low, HardWords) || ContainsAny(low, LearnWords)))
          || (500 < t <= 2000 && Contains(low, "سلام"))
    {
      ContextualNeedsExperience(userProfile.profile, userInput);
      ContextualResponse(GetExperienceLevel(), userInput)
    }

    /** `boost_fox_intelligence`: `months*30` days of experience, then the three wise traits. */
    method BoostFoxIntelligence(months: int, now: int) returns (report: ExperienceReport)
      modifies this, userProfile, userProfile.store
      ensures var p := Accelerated(old(userProfile.profile), months * 30, now);
        userProfile.profile == p.(personalityTraits := AddAllAbsent(p.personalityTraits, WiseTraits))
      ensures userProfile.profileFile == old(userProfile.profileFile)
      ensures userProfile.store.files == old(userProfile.store.files)[userProfile.profileFile := userProfile.profile]
      ensures report == Report(old(userProfile.profile), months * 30)
      ensures forall t :: t in WiseTraits ==> t in userProfile.profile.personalityTraits
    {
      var days := months * 30;
      report := AccelerateExperience(days, now);
      var p := userProfile.profile;
      var traits := AddMissing(p.personalityTraits, WiseTraits);
      WiseTraitsPresent(p.personalityTraits, traits);
      userProfile.profile := p.(personalityTraits := traits);
      userProfile.SaveProfile();
      OverwriteTwice(old(userProfile.store.files), userProfile.profileFile, p, userProfile.profile);
    }

    /** Every wise trait is among the traits once the missing ones are appended. */
    static lemma WiseTraitsPresent(current: seq<string>, traits: seq<string>)
      requires traits == AddAllAbsent(current, WiseTraits)
      ensures forall t :: t in WiseTraits ==> t in traits
    {
      AddAllAbsentSpec(current, WiseTraits);
    }

    /** The loop of `boost_fox_intelligence` that appends each trait not present yet. */
    static method AddMissing(current: seq<string>, traits: seq<string>) returns (r: seq<string>)
      ensures r == AddAllAbsent(current, traits)
    {
      r := current;
      var i := 0;
      while i < |traits|
        invariant 0 <= i <= |traits|
        invariant AddAllAbsent(r, traits[i..]) == AddAllAbsent(current, traits)
      {
        assert traits[i..][1..] == traits[i + 1..];
        if traits[i] !in r {
          r := r + [traits[i]];
        }
        i := i + 1;
      }
      assert traits[i..] == [];
    }
  }
}
