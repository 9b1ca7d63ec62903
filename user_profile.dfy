/**
 * The single-user profile and the relationship it records
 * (backend/core/user_profile.py): `UserProfile` updates a profile record in
 * place; the `FoxPersonality` styles are functions of the relationship
 * level and the name. Times are clock readings supplied by the caller.
 */
module Profile {
  import opened Common
  import opened Text

  /** The profile dictionary. */
  datatype ProfileData = ProfileData(
    isFirstTime: bool,
    name: string,
    interests: seq<string>,
    personalityTraits: seq<string>,
    relationshipLevel: int,      // 0 = stranger, 10 = best friend
    favoriteTopics: seq<string>,
    communicationStyle: string,
    createdAt: int,
    lastInteraction: Option<int>,
    interactionCount: int,
    memories: seq<string>,
    artificialExperience: int,   // absent until Fox's experience is first boosted: 0
    lastExperienceBoost: Option<int>)

  /** The profile `load_profile` makes when there is no file. */
  function DefaultProfile(now: int): (p: ProfileData)
    ensures p.isFirstTime && p.name == "" && p.relationshipLevel == 0 && p.interactionCount == 0
    ensures p.interests == [] && p.personalityTraits == [] && p.lastInteraction.None? && p.createdAt == now
  {
    ProfileData(true, "", [], [], 0, [], "friendly", now, None, 0, [], 0, None)
  }

  /** `min(10, max(0, level))` */
  function Clamp(level: int): (r: int)
    ensures 0 <= r <= 10
    ensures 0 <= level <= 10 ==> r == level
    ensures level < 0 ==> r == 0
    ensures level > 10 ==> r == 10
  {
    if level < 0 then 0 else if level > 10 then 10 else level
  }

  const StatusNames: seq<string> := ["غریبه", "آشنا", "دوست", "دوست خوب", "دوست نزدیک", "بهترین دوست"]

  /** `get_relationship_status` */
  function RelationshipStatus(level: int): (status: string)
    ensures status in StatusNames
    ensures status == "غریبه" <==> level == 0
    ensures status == "بهترین دوست" <==> level > 8
  {
    if level == 0 then "غریبه"
    else if level <= 2 then "آشنا"
    else if level <= 4 then "دوست"
    else if level <= 6 then "دوست خوب"
    else if level <= 8 then "دوست نزدیک"
    else "بهترین دوست"
  }

  /** Over the levels 0-10 the tiers are 0 and then pairs of levels, one name per pair. */
  lemma RelationshipTiers(level: int)
    requires 0 <= level <= 10
    ensures RelationshipStatus(level) == StatusNames[(level + 1) / 2]
  {
  }

  /** Tiers never go down as the level rises. */
  lemma RelationshipTiersMonotone(a: int, b: int)
    requires 0 <= a <= b <= 10
    ensures (a + 1) / 2 <= (b + 1) / 2
    ensures RelationshipStatus(a) == RelationshipStatus(b) <==> (a + 1) / 2 == (b + 1) / 2
  {
    RelationshipTiers(a);
    RelationshipTiers(b);
  }

  /** `should_be_proactive` */
  predicate ShouldBeProactive(level: int) { level >= 3 }

  /** `FoxPersonality.should_ask_question` */
  predicate ShouldAskQuestion(level: int) { level >= 2 }

  /** A proactive Fox also asks questions, and is at least a friend. */
  lemma ProactiveAsks(level: int)
    requires 0 <= level <= 10
    ensures ShouldBeProactive(level) ==> ShouldAskQuestion(level)
    ensures ShouldBeProactive(level) <==> RelationshipStatus(level) !in ["غریبه", "آشنا"]
  {
  }

  /** `get_conversation_starters` */
  function ConversationStarters(name: string, interests: seq<string>): (starters: seq<string>)
    ensures |starters| == if interests == [] then 3 else 4
  {
    var base := ["سلام " + name + "! چطوری؟ چه خبر؟",
                 name + " عزیز، امروز چیکار می\U{200C}کنی؟",
                 "حوصلت سر نمیره؟ بیا یه چیز جالب یاد بگیریم!"];
    if interests == [] then base
    else base + ["راستی " + name + "، چیز جدیدی راجع به " + interests[0] + " یاد گرفتی؟"]
  }

  /** The interests add one starter, about the first interest, after the same three. */
  lemma StarterAsksFirstInterest(name: string, interests: seq<string>)
    requires interests != []
    ensures ConversationStarters(name, interests)
         == ConversationStarters(name, []) + ["راستی " + name + "، چیز جدیدی راجع به " + interests[0] + " یاد گرفتی؟"]
  {
  }

  /** `FoxPersonality.get_greeting_style` */
  function GreetingStyle(level: int, name: string): (greeting: string)
    ensures level == 0 ==> greeting == StrangerGreeting
    ensures level != 0 ==> Contains(greeting, name)
  {
    if level == 0 then StrangerGreeting
    else
      var hello := if level <= 5 then "سلام " else "سلاااام ";
      var rest := if level <= 2 then "! 🦊"
                  else if level <= 5 then " عزیز! چطوری؟ 🦊✨"
                  else " جونم! 🦊💕 دلم برات تنگ شده بود!";
      var greeting := hello + name + rest;
      assert greeting[|hello|..|hello| + |name|] == name;
      ContainsAt(greeting, name, |hello|);
      greeting
  }

  /** The greeting for a stranger, the only one without the name. */
  const StrangerGreeting: string := "سلام! من Fox هستم 🦊"

  /** `FoxPersonality.get_response_style` */
  datatype ResponseStyle = ResponseStyle(formality: string, emojiFrequency: string, curiosity: string, proactiveness: string)

  function ResponseStyleFor(level: int): ResponseStyle {
    if level <= 2 then ResponseStyle("polite", "low", "medium", "low")
    else if level <= 5 then ResponseStyle("friendly", "medium", "high", "medium")
    else ResponseStyle("intimate", "high", "very_high", "high")
  }

  /** The style band of a level: up to 2, up to 5, above 5. */
  function Band(level: int): nat {
    if level <= 2 then 1 else if level <= 5 then 2 else 3
  }

  /**
   * The greeting and the response style change at the same levels, except
   * that level 0 has a greeting of its own and the polite response style;
   * a stranger's greeting is the only one without the name.
   */
  lemma StylesShareBands(a: int, b: int, name: string)
    requires a != 0 && b != 0
    ensures Band(a) == Band(b) ==> GreetingStyle(a, name) == GreetingStyle(b, name) && ResponseStyleFor(a) == ResponseStyleFor(b)
    ensures Band(a) != Band(b) ==> ResponseStyleFor(a) != ResponseStyleFor(b)
    ensures Band(a) != Band(b) ==> GreetingStyle(a, name) != GreetingStyle(b, name)
    ensures ResponseStyleFor(0) == ResponseStyleFor(1)
  {
  }

  const Questions: seq<string> := [
    "راستی، امروز چیکار کردی؟",
    "چیز جدیدی یاد گرفتی؟",
    "حالت چطوره؟",
    "چیزی هست که بخوای راجعش صحبت کنیم؟",
    "پروژه جدیدی داری؟",
    "چه چیزی الان ذهنت رو درگیر کرده؟"
  ]

  /** `FoxPersonality.get_random_question`; the draw is `pick`. */
  function RandomQuestion(pick: nat): (q: string)
    ensures q in Questions
  {
    Choose(Questions, pick)
  }

  /** The profile files on disk, by path: `save_profile` writes one, `load_profile` reads one. */
  class ProfileStore {
    var files: map<string, ProfileData>

    constructor (files: map<string, ProfileData>)
      ensures this.files == files
    {
      this.files := files;
    }
  }

  /** The file a `UserProfile` reads and writes unless told otherwise. */
  const DefaultProfileFile: string := "data/user_profile.json"

  /** `load_profile`: the file's profile, or the default one when there is no such file. */
  function LoadedProfile(files: map<string, ProfileData>, path: string, now: int): ProfileData {
    if path in files then files[path] else DefaultProfile(now)
  }

  class UserProfile {
    const store: ProfileStore
    var profileFile: string
    var profile: ProfileData

    /** `__init__`: the profile of the default file, or the default profile. */
    constructor (store: ProfileStore, now: int)
      ensures this.store == store && profileFile == DefaultProfileFile
      ensures profile == LoadedProfile(store.files, DefaultProfileFile, now)
    {
      this.store := store;
      profileFile := DefaultProfileFile;
      profile := LoadedProfile(store.files, DefaultProfileFile, now);
    }

    /** `load_profile` on the current file. */
    function LoadProfile(now: int): ProfileData
      reads this, store
    {
      LoadedProfile(store.files, profileFile, now)
    }

    /** The file holds the profile as it is now. */
    predicate Saved()
      reads this, store
    {
      profileFile in store.files && store.files[profileFile] == profile
    }

    /** `save_profile`: the profile file is overwritten; no other file changes. */
    method SaveProfile()
      modifies store
      ensures store.files == old(store.files)[profileFile := profile]
      ensures Saved()
    {
      store.files := store.files[profileFile := profile];
    }

    function IsFirstTime(): bool
      reads this
    {
      profile.isFirstTime
    }

    function Name(): string
      reads this
    {
      profile.name
    }

    /** `complete_introduction` */
    method CompleteIntroduction(name: string, interests: seq<string>, traits: seq<string>)
      modifies this, store
      ensures profileFile == old(profileFile)
      ensures profile == old(profile).(isFirstTime := false, name := name, interests := interests,
                                       personalityTraits := traits, relationshipLevel := 1)
      ensures !IsFirstTime() && RelationshipStatus(profile.relationshipLevel) == "آشنا"
      ensures store.files == old(store.files)[profileFile := profile]
    {
      profile := profile.(isFirstTime := false, name := name, interests := interests,
                          personalityTraits := traits, relationshipLevel := 1);
      SaveProfile();
    }

    /** `add_interest`; the file is written only when the interest is new. */
    method AddInterest(interest: string)
      modifies this, store
      ensures profileFile == old(profileFile)
      ensures profile == old(profile).(interests := AddIfAbsent(old(profile).interests, interest))
      ensures interest in profile.interests
      ensures NoDup(old(profile).interests) ==> NoDup(profile.interests)
      ensures store.files == if interest in old(profile).interests then old(store.files)
                             else old(store.files)[profileFile := profile]
    {
      if interest !in profile.interests {
        profile := profile.(interests := profile.interests + [interest]);
        SaveProfile();
      }
    }

    /** `update_relationship_level`; the level lands in [0, 10] whatever the change. */
    method UpdateRelationshipLevel(change: int)
      modifies this, store
      ensures profileFile == old(profileFile)
      ensures profile == old(profile).(relationshipLevel := Clamp(old(profile).relationshipLevel + change))
      ensures 0 <= profile.relationshipLevel <= 10
      ensures store.files == old(store.files)[profileFile := profile]
    {
      profile := profile.(relationshipLevel := Clamp(profile.relationshipLevel + change));
      SaveProfile();
    }

    /** `record_interaction` */
    method RecordInteraction(now: int)
      modifies this, store
      ensures profileFile == old(profileFile)
      ensures profile == old(profile).(lastInteraction := Some(now), interactionCount := old(profile).interactionCount + 1)
      ensures store.files == old(store.files)[profileFile := profile]
    {
      profile := profile.(lastInteraction := Some(now), interactionCount := profile.interactionCount + 1);
      SaveProfile();
    }
  }
}
