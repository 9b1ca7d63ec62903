/**
 * The first-meeting dialogue (backend/core/introduction.py): six steps in
 * a fixed order, each reply moving the step on and collecting a name,
 * interests and traits, which are finally written into the profile. The
 * `random.choice` draws of one reply are the parameters `pick` and `pick2`.
 */
module Introduction {
  import opened Common
  import opened Text
  import opened Profile

  const Steps: seq<string> := ["greeting", "self_introduction", "ask_name", "ask_interests", "ask_personality", "completion"]

  /** The messages of `get_next_message`, one list per step. */
  const StepMessages: seq<seq<string>> := [
    ["سلام! 🦊✨", "وای چه خوب! یه نفر جدید! 🦊", "سلام سلام! 🦊💫"],
    ["من Fox هستم! یه دستیار هوشمند که دوست دارم با آدما دوست بشم! 🦊",
     "اسمم Fox هست و خیلی خوشحالم که باهات آشنا شدم! 🦊✨",
     "من Fox هستم - یه AI که فقط دستیار نیست، بلکه دوست هم هست! 🦊💕"],
    ["اسمت چیه؟ دوست دارم بدونم چی صدات کنم! 😊",
     "بهم بگو اسمت چیه تا بتونم درست صدات کنم! 🦊",
     "اسمت رو بهم بگو! خیلی دوست دارم بدونم! ✨"],
    ["چه چیزایی دوست داری؟ علایقت چین؟ 🤔✨",
     "بهم بگو چه کارایی دوست داری بکنی! 🦊",
     "علایقت چین؟ برنامه\U{200C}نویسی؟ موسیقی؟ ورزش؟ 🎯"],
    ["خودت رو چطور توصیف می\U{200C}کنی؟ شوخ\U{200C}طبعی? جدی؟ کنجکاو؟ 🦊",
     "شخصیتت چطوریه؟ بهم بگو تا بتونم بهتر باهات رفتار کنم! 😊",
     "چه جور آدمی هستی؟ دوست دارم بیشتر بدونم! ✨"],
    ["عالی! حالا دوستیم! 🦊💕"]
  ]

  /** Every step has a message list, so the fallback text of `get_next_message` is never returned. */
  lemma EveryStepHasMessages()
    ensures |StepMessages| == |Steps|
    ensures forall i :: 0 <= i < |Steps| ==> |StepMessages[i]| > 0
  {
  }

  /** The name and the default for a name never given. */
  const DefaultName: string := "دوست"
  const NameReprompt: string := "اسمت رو نگفتی! بهم بگو چی صدات کنم! 🦊"
  const RemoveWords: seq<string> := ["اسمم", "من", "هستم", "اسم", "من", "نامم"]
  const GreetingWords: seq<string> := ["سلام", "چطور", "خوب"]

  const InterestKeywords: seq<(string, seq<string>)> := [
    ("برنامه\U{200C}نویسی", ["برنامه", "کد", "programming", "python", "javascript", "برنامهنویسی"]),
    ("موسیقی", ["موسیقی", "آهنگ", "music", "گوش دادن"]),
    ("ورزش", ["ورزش", "فوتبال", "بسکتبال", "دویدن", "sport"]),
    ("مطالعه", ["کتاب", "مطالعه", "خواندن", "study"]),
    ("بازی", ["بازی", "game", "gaming", "گیم"]),
    ("فیلم", ["فیلم", "سینما", "movie", "film"]),
    ("سفر", ["سفر", "travel", "گردش"]),
    ("آشپزی", ["آشپزی", "غذا", "cooking", "پختن"])
  ]

  const TraitKeywords: seq<(string, seq<string>)> := [
    ("شوخ\U{200C}طبع", ["شوخ", "خنده", "funny", "humor", "شوخطبع"]),
    ("جدی", ["جدی", "serious", "متین"]),
    ("کنجکاو", ["کنجکاو", "curious", "سوال"]),
    ("صمیمی", ["صمیمی", "friendly", "دوستانه"]),
    ("آرام", ["آرام", "calm", "quiet"]),
    ("پرانرژی", ["پرانرژی", "energetic", "فعال"]),
    ("خلاق", ["خلاق", "creative", "هنری"]),
    ("منطقی", ["منطقی", "logical", "تحلیلی"])
  ]

  // ------------------------------------------------------------ extraction

  function Labels(table: seq<(string, seq<string>)>): (ls: seq<string>)
    ensures |ls| == |table| && forall i :: 0 <= i < |table| ==> ls[i] == table[i].0
  {
    if table == [] then [] else Labels(table[..|table| - 1]) + [table[|table| - 1].0]
  }

  /** The labels, in table order, that have a keyword occurring in `text`. */
  function Matching(table: seq<(string, seq<string>)>, text: string): seq<string> {
    if table == [] then []
    else
      var last := table[|table| - 1];
      Matching(table[..|table| - 1], text) + (if ContainsAny(text, last.1) then [last.0] else [])
  }

  /** A label is found exactly when one of its keywords occurs; with distinct labels, each is found at most once. */
  lemma {:induction false} MatchingFinds(table: seq<(string, seq<string>)>, text: string)
    ensures forall x :: x in Matching(table, text) <==> exists i :: 0 <= i < |table| && table[i].0 == x && ContainsAny(text, table[i].1)
    ensures NoDup(Labels(table)) ==> NoDup(Matching(table, text))
  {
    if table != [] {
      var init, last := table[..|table| - 1], table[|table| - 1];
      MatchingFinds(init, text);
      forall x ensures x in Matching(table, text) <==> exists i :: 0 <= i < |table| && table[i].0 == x && ContainsAny(text, table[i].1) {
        if x in Matching(init, text) {
          var i :| 0 <= i < |init| && init[i].0 == x && ContainsAny(text, init[i].1);
          assert table[i] == init[i];
        }
        if exists i :: 0 <= i < |table| && table[i].0 == x && ContainsAny(text, table[i].1) {
          var i :| 0 <= i < |table| && table[i].0 == x && ContainsAny(text, table[i].1);
          if i < |init| {
            assert init[i] == table[i];
          }
        }
      }
      if NoDup(Labels(table)) {
        assert Labels(init) == Labels(table)[..|init|];
        assert NoDup(Labels(init));
        forall x | x in Matching(init, text) ensures x != last.0 {
          var i :| 0 <= i < |init| && init[i].0 == x && ContainsAny(text, init[i].1);
          assert Labels(table)[i] == x && Labels(table)[|init|] == last.0;
        }
        var m := Matching(init, text);
        assert AddIfAbsent(m, last.0) == m + [last.0];
      }
    }
  }

  /** The labels found keep the order of the table: they are a subsequence of its labels. */
  lemma {:induction false} MatchingInOrder(table: seq<(string, seq<string>)>, text: string)
    ensures IsSubsequence(Matching(table, text), Labels(table))
  {
    if table != [] {
      var init := table[..|table| - 1];
      MatchingInOrder(init, text);
      assert Labels(table) == Labels(init) + [table[|table| - 1].0];
      SubsequenceSnoc(Matching(init, text), Labels(init), table[|table| - 1].0, ContainsAny(text, table[|table| - 1].1));
    }
  }

  /** `a` is `b` with some elements left out. */
  predicate IsSubsequence(a: seq<string>, b: seq<string>)
    decreases |b|
  {
    if a == [] then true
    else if b == [] then false
    else (a[|a| - 1] == b[|b| - 1] && IsSubsequence(a[..|a| - 1], b[..|b| - 1])) || IsSubsequence(a, b[..|b| - 1])
  }

  lemma {:induction false} SubsequenceSnoc(a: seq<string>, b: seq<string>, x: string, keep: bool)
    requires IsSubsequence(a, b)
    ensures IsSubsequence(a + (if keep then [x] else []), b + [x])
    decreases |b|
  {
    var b' := b + [x];
    assert b'[..|b'| - 1] == b;
    if keep {
      var a' := a + [x];
      assert a'[..|a'| - 1] == a;
    } else {
      assert a + [] == a;
      if a != [] {
        SubsequenceWeaken(a, b, x);
      }
    }
  }

  lemma SubsequenceWeaken(a: seq<string>, b: seq<string>, x: string)
    requires a != [] && IsSubsequence(a, b)
    ensures IsSubsequence(a, b + [x])
  {
    assert (b + [x])[..|b + [x]| - 1] == b;
  }

  /** `extract_interests` */
  method ExtractInterests(text: string) returns (interests: seq<string>)
    ensures interests == Matching(InterestKeywords, Lower(text))
  {
    interests := ExtractLabels(InterestKeywords, text);
  }

  /** `extract_personality_traits` */
  method ExtractPersonalityTraits(text: string) returns (traits: seq<string>)
    ensures traits == Matching(TraitKeywords, Lower(text))
  {
    traits := ExtractLabels(TraitKeywords, text);
  }

  /** The loop both extractors share. */
  method ExtractLabels(table: seq<(string, seq<string>)>, text: string) returns (found: seq<string>)
    ensures found == Matching(table, Lower(text))
  {
    var textLower := Lower(text);
    found := [];
    var i := 0;
    while i < |table|
      invariant 0 <= i <= |table|
      invariant found == Matching(table[..i], textLower)
    {
      assert table[..i + 1][..i] == table[..i];
      if ContainsAny(textLower, table[i].1) {
        found := found + [table[i].0];
      }
      i := i + 1;
    }
    assert table[..i] == table;
  }

  /** Both tables have distinct labels, so an extracted label occurs once. */
  lemma ExtractedAreDistinct(text: string)
    ensures NoDup(Matching(InterestKeywords, Lower(text)))
    ensures NoDup(Matching(TraitKeywords, Lower(text)))
  {
    InterestLabelsDistinct();
    TraitLabelsDistinct();
    MatchingFinds(InterestKeywords, Lower(text));
    MatchingFinds(TraitKeywords, Lower(text));
  }

  lemma InterestLabelsDistinct()
    ensures NoDup(Labels(InterestKeywords))
  {
    assert Labels(InterestKeywords) == ["برنامه\U{200C}نویسی", "موسیقی", "ورزش", "مطالعه", "بازی", "فیلم", "سفر", "آشپزی"];
  }

  lemma TraitLabelsDistinct()
    ensures NoDup(Labels(TraitKeywords))
  {
    assert Labels(TraitKeywords) == ["شوخ\U{200C}طبع", "جدی", "کنجکاو", "صمیمی", "آرام", "پرانرژی", "خلاق", "منطقی"];
  }

  // ----------------------------------------------------------------- names

  /** The cleaning loop of `process_name`: strip, then delete each listed word and strip again. */
  function CleanOver(s: string, words: seq<string>): string {
    if words == [] then s else Strip(RemoveAll(CleanOver(s, words[..|words| - 1]), words[|words| - 1]))
  }

  function CleanName(input: string): string {
    CleanOver(Strip(input), RemoveWords)
  }

  /** The loop of `process_name` over the words to delete. */
  method RemoveEach(s: string, words: seq<string>) returns (clean: string)
    ensures clean == CleanOver(s, words)
  {
    clean := s;
    var i := 0;
    while i < |words|
      invariant 0 <= i <= |words|
      invariant clean == CleanOver(s, words[..i])
    {
      ghost var done := words[..i + 1];
      assert done[..i] == words[..i] && done[i] == words[i];
      clean := Strip(RemoveAll(clean, words[i]));
      assert clean == CleanOver(s, done);
      i := i + 1;
    }
    assert words[..i] == words;
  }

  /** What `process_name` accepts as a name. */
  predicate AcceptedName(input: string) { |CleanName(input)| >= 2 }

  /** Cleaning never lengthens the text. */
  lemma {:induction false} CleanOverShorter(s: string, words: seq<string>)
    ensures |CleanOver(s, words)| <= |s|
  {
    if words != [] {
      CleanOverShorter(s, words[..|words| - 1]);
    }
  }

  /** A reply too short for a name is never accepted. */
  lemma ShortInputRejected(input: string)
    requires |input| < 2
    ensures !AcceptedName(input)
  {
    CleanOverShorter(Strip(input), RemoveWords);
  }

  function NameResponses(name: string): (ms: seq<string>)
    ensures |ms| == 3
  {
    ["وای چه اسم قشنگی! " + name + " عزیز! 🦊✨",
     name + "! خیلی خوشم اومد از اسمت! 💕",
     "سلام " + name + " جون! حالا که اسمت رو می\U{200C}دونم، خیلی بهتره! 🦊"]
  }

  function NameReply(input: string, pick: nat): string {
    if AcceptedName(input) then Choose(NameResponses(CleanName(input)), pick) else NameReprompt
  }

  /** The self-introduction step takes a short reply without a greeting word as the name. */
  predicate LooksLikeName(input: string) {
    |Words(input)| <= 2 && !ContainsAny(Lower(input), GreetingWords)
  }

  // ------------------------------------------------------------- the steps

  /** The dialogue's fields: the step and the values collected so far. */
  datatype IntroState = IntroState(step: int, tempName: Option<string>, tempInterests: Option<seq<string>>, tempTraits: Option<seq<string>>)

  predicate InRange(s: IntroState) { 0 <= s.step <= |Steps| }

  /** `process_name` on the fields: the name is kept only when accepted. */
  function Named(s: IntroState, input: string): IntroState {
    if AcceptedName(input) then s.(tempName := Some(CleanName(input))) else s
  }

  /** The fields after `process_response`. */
  function Advance(s: IntroState, input: string): IntroState {
    if s.step >= 6 then s
    else if s.step == 0 then s.(step := 1)
    else if s.step == 1 then
      if LooksLikeName(input) then Named(s, input).(step := 3) else s.(step := 2)
    else if s.step == 2 then Named(s, input).(step := 3)
    else if s.step == 3 then s.(tempInterests := Some(Matching(InterestKeywords, Lower(input))), step := 4)
    else if s.step == 4 then s.(tempTraits := Some(Matching(TraitKeywords, Lower(input))), step := 5)
    else s.(step := s.step + 1)
  }

  /** Whether `process_response` ends in `complete_introduction`. */
  predicate Completes(s: IntroState) { s.step >= 4 }

  /**
   * Each reply moves the dialogue one step on, except that a name given
   * right after Fox introduces itself skips the name question, and nothing
   * moves once the six steps are done.
   */
  lemma AdvanceSteps(s: IntroState, input: string)
    requires InRange(s)
    ensures InRange(Advance(s, input))
    ensures Advance(s, input).step == if s.step >= 6 then s.step
                                      else if s.step == 1 && LooksLikeName(input) then 3
                                      else s.step + 1
  {
  }

  /** The name question always moves on, and keeps the earlier name when this one is rejected. */
  lemma AskNameAlwaysAdvances(s: IntroState, input: string)
    requires s.step == 2
    ensures Advance(s, input).step == 3
    ensures Advance(s, input).tempName == if AcceptedName(input) then Some(CleanName(input)) else s.tempName
  {
  }

  /** Four replies after `start_introduction` end at step 4 or 5, so `is_introduction_complete` still fails. */
  lemma FourRepliesDoNotFinish(s: IntroState, a: string, b: string, c: string, d: string)
    requires s.step == 0
    ensures var t := Advance(Advance(Advance(Advance(s, a), b), c), d);
      4 <= t.step <= 5 && !(t.step >= |Steps|)
  {
    var t1 := Advance(s, a);
    AdvanceSteps(s, a);
    var t2 := Advance(t1, b);
    AdvanceSteps(t1, b);
    var t3 := Advance(t2, c);
    AdvanceSteps(t2, c);
    AdvanceSteps(t3, d);
  }

  /** Reaching step 6 takes at least five replies from the start, and the fifth or sixth gets there. */
  lemma CompletionReached(s: IntroState, a: string, b: string, c: string, d: string, e: string, f: string)
    requires s.step == 0
    ensures var t := Advance(Advance(Advance(Advance(Advance(s, a), b), c), d), e);
      t.step == 6 || Advance(t, f).step == 6
  {
    var t1 := Advance(s, a);
    AdvanceSteps(s, a);
    var t2 := Advance(t1, b);
    AdvanceSteps(t1, b);
    var t3 := Advance(t2, c);
    AdvanceSteps(t2, c);
    var t4 := Advance(t3, d);
    AdvanceSteps(t3, d);
    var t5 := Advance(t4, e);
    AdvanceSteps(t4, e);
    AdvanceSteps(t5, f);
  }

  function NameOf(s: IntroState): string { s.tempName.GetOr(DefaultName) }

  /** The profile that `complete_introduction` writes from the fields. */
  function Introduced(p: ProfileData, s: IntroState): (q: ProfileData)
    ensures s.tempName.None? && s.tempInterests.None? && s.tempTraits.None? ==>
              q.name == "دوست" && q.interests == [] && q.personalityTraits == []
    ensures !q.isFirstTime && q.relationshipLevel == 1
  {
    p.(isFirstTime := false, name := NameOf(s), interests := s.tempInterests.GetOr([]),
       personalityTraits := s.tempTraits.GetOr([]), relationshipLevel := 1)
  }

  /** The fixed tails of the three completion messages, which follow the name. */
  const CompletionTails: seq<string> := [
    "! حالا که باهم آشنا شدیم، من دستیار شخصی و دوست تو هستم! 🦊💕\n\nهر وقت خواستی باهام حرف بزن، سوال بپرس، یا فقط چت کن! آماده\U{200C}ام! ✨",
    " عزیز! حالا که همدیگه رو می\U{200C}شناسیم، می\U{200C}تونیم شروع کنیم! 🦊\n\nمن اینجام تا کمکت کنم، باهات حرف بزنم، و دوستت باشم! چیکار می\U{200C}خوای بکنیم؟ 🎯",
    "! 🦊💫\n\nحالا آماده\U{200C}ام برای هر کاری که بخوای! سوال، چت، کمک، هر چی! فقط بگو! ✨"
  ]

  function CompletionMessages(name: string): (ms: seq<string>)
    ensures |ms| == 3
  {
    ["عالی " + name + CompletionTails[0],
     "ممنون " + name + CompletionTails[1],
     "یه حس خوبی دارم راجع به دوستی ما " + name + CompletionTails[2]]
  }

  /** The replies when no interest or no trait was recognised. */
  const NoInterestReplies: seq<string> := ["باشه باشه! بعداً بیشتر می\U{200C}گی! 🦊", "مشکلی نیست! وقتی خواستی بهم بگو! ✨"]
  const NoTraitReplies: seq<string> := ["باشه! کم کم بیشتر می\U{200C}شناسمت! 🦊", "مشکلی نیست! با گذشت زمان بهتر می\U{200C}شناسمت! ✨"]

  function InterestReplies(interests: seq<string>): (ms: seq<string>)
    ensures |ms| == if interests == [] then 2 else 3
  {
    if interests == [] then NoInterestReplies
    else
      var t := Join(interests, "، ");
      ["وای چه جالب! " + t + "! من هم این چیزا رو دوست دارم! 🦊✨", "عالیه! " + t + " خیلی باحاله! 💫",
       "اوه اوه! " + t + "! حتماً راجعشون حرف می\U{200C}زنیم! 🦊"]
  }

  function TraitReplies(traits: seq<string>): (ms: seq<string>)
    ensures |ms| == if traits == [] then 2 else 3
  {
    if traits == [] then NoTraitReplies
    else
      var t := Join(traits, "، ");
      ["عالی! پس تو " + t + " هستی! خیلی خوبه! 🦊✨", "اوکی! " + t + "! حالا بهتر می\U{200C}تونم باهات رفتار کنم! 💕",
       "فهمیدم! " + t + "! ما قراره دوستای خوبی بشیم! 🦊"]
  }

  /** `get_next_message` at a step before the end. */
  function StepMessage(step: nat, pick: nat): string
    requires step < |Steps|
  {
    Choose(StepMessages[step], pick)
  }

  /** The text `process_response` returns, from the fields before the call. */
  function ReplyFor(s: IntroState, input: string, pick: nat, pick2: nat): string
    requires InRange(s)
  {
    if s.step >= 6 then Choose(CompletionMessages(NameOf(s)), pick)
    else if s.step == 0 then StepMessage(1, pick)
    else if s.step == 1 && !LooksLikeName(input) then StepMessage(2, pick)
    else if s.step <= 2 then NameReply(input, pick) + "\n\n" + StepMessage(3, pick2)
    else if s.step == 3 then Choose(InterestReplies(Matching(InterestKeywords, Lower(input))), pick) + "\n\n" + StepMessage(4, pick2)
    else if s.step == 4 then Choose(TraitReplies(Matching(TraitKeywords, Lower(input))), pick) + "\n\n" + Choose(CompletionMessages(NameOf(s)), pick2)
    else Choose(CompletionMessages(NameOf(s)), pick)
  }

  /** At the completion step the reply is the completion message alone, whatever was said. */
  lemma CompletionStepReply(s: IntroState, input: string, pick: nat, pick2: nat)
    requires s.step == 5
    ensures Advance(s, input) == s.(step := 6)
    ensures ReplyFor(s, input, pick, pick2) == Choose(CompletionMessages(NameOf(s)), pick)
  {
  }

  class FoxIntroduction {
    const user: UserProfile
    var currentStep: int
    var tempName: Option<string>
    var tempInterests: Option<seq<string>>
    var tempTraits: Option<seq<string>>

    function State(): IntroState
      reads this
    {
      IntroState(currentStep, tempName, tempInterests, tempTraits)
    }

    predicate Valid()
      reads this
    {
      InRange(State())
    }

    constructor (user: UserProfile)
      ensures this.user == user && State() == IntroState(0, None, None, None) && Valid()
    {
      this.user := user;
      currentStep := 0;
      tempName, tempInterests, tempTraits := None, None, None;
    }

    /** `start_introduction` */
    method StartIntroduction(pick: nat) returns (message: string)
      modifies this
      ensures State() == old(State()).(step := 0)
      ensures message == StepMessage(0, pick)
    {
      currentStep := 0;
      message := StepMessage(0, pick);
    }

    /** `is_introduction_complete` */
    function IsIntroductionComplete(): (done: bool)
      reads this
      ensures done ==> forall input :: Advance(State(), input) == State()
      ensures !done ==> forall input :: Advance(State(), input).step > currentStep
    {
      currentStep >= |Steps|
    }

    /** `complete_introduction` */
    method CompleteIntroduction(pick: nat) returns (message: string)
      modifies user, user.store
      ensures user.profile == Introduced(old(user.profile), State())
      ensures user.profileFile == old(user.profileFile)
      ensures user.store.files == old(user.store.files)[user.profileFile := user.profile]
      ensures message == Choose(CompletionMessages(NameOf(State())), pick)
    {
      var name := NameOf(State());
      message := Choose(CompletionMessages(name), pick);
      user.CompleteIntroduction(name, tempInterests.GetOr([]), tempTraits.GetOr([]));
    }

    /** `process_name` */
    method ProcessName(input: string, pick: nat) returns (message: string)
      modifies this
      ensures State() == Named(old(State()), input)
      ensures message == NameReply(input, pick)
    {
      var cleanName := RemoveEach(Strip(input), RemoveWords);
      assert cleanName == CleanName(input);
      if cleanName == [] || |cleanName| < 2 {
        return NameReprompt;
      }
      assert AcceptedName(input);
      tempName := Some(cleanName);
      message := Choose(NameResponses(cleanName), pick);
    }

    /** `process_response` */
    method ProcessResponse(input: string, pick: nat, pick2: nat) returns (reply: string)
      requires Valid()
      modifies this, user, user.store
      ensures Valid()
      ensures State() == Advance(old(State()), input)
      ensures reply == ReplyFor(old(State()), input, pick, pick2)
      ensures user.profile == if Completes(old(State())) then Introduced(old(user.profile), State()) else old(user.profile)
      ensures user.profileFile == old(user.profileFile)
      ensures user.store.files == if Completes(old(State())) then old(user.store.files)[user.profileFile := user.profile]
                                  else old(user.store.files)
    {
      if currentStep >= |Steps| {
        reply := CompleteIntroduction(pick);
      } else if currentStep == 0 {
        currentStep := currentStep + 1;
        reply := StepMessage(currentStep, pick);
      } else if currentStep == 1 {
        reply := SelfIntroductionStep(input, pick, pick2);
      } else if currentStep == 2 {
        reply := AskNameStep(input, pick, pick2);
      } else if currentStep == 3 {
        reply := ProcessInterests(input, pick, pick2);
      } else if currentStep == 4 {
        reply := ProcessPersonality(input, pick, pick2);
      } else {
        CompletionStepReply(State(), input, pick, pick2);
        reply := CompletionStep(pick);
      }
    }

    /**
     * The completion step has no branch of its own in `process_response`:
     * the step moves on and the reply is `complete_introduction`'s.
     */
    method CompletionStep(pick: nat) returns (reply: string)
      requires currentStep == 5
      modifies this, user, user.store
      ensures State() == old(State()).(step := 6)
      ensures reply == Choose(CompletionMessages(NameOf(State())), pick)
      ensures user.profile == Introduced(old(user.profile), State())
      ensures user.profileFile == old(user.profileFile)
      ensures user.store.files == old(user.store.files)[user.profileFile := user.profile]
    {
      currentStep := currentStep + 1;
      reply := CompleteIntroduction(pick);
    }

    /** The self-introduction branch of `process_response`. */
    method SelfIntroductionStep(input: string, pick: nat, pick2: nat) returns (reply: string)
      requires currentStep == 1
      modifies this
      ensures State() == Advance(old(State()), input)
      ensures reply == ReplyFor(old(State()), input, pick, pick2)
    {
      var looksLikeName := |Words(input)| <= 2 && !ContainsAny(Lower(input), GreetingWords);
      if looksLikeName {
        var nameResponse := ProcessName(input, pick);
        currentStep := 3;
        reply := nameResponse + "\n\n" + StepMessage(currentStep, pick2);
      } else {
        currentStep := currentStep + 1;
        reply := StepMessage(currentStep, pick);
      }
    }

    /** The ask-name branch of `process_response`. */
    method AskNameStep(input: string, pick: nat, pick2: nat) returns (reply: string)
      requires currentStep == 2
      modifies this
      ensures State() == Advance(old(State()), input)
      ensures reply == ReplyFor(old(State()), input, pick, pick2)
    {
      var nameResponse := ProcessName(input, pick);
      currentStep := currentStep + 1;
      reply := nameResponse + "\n\n" + StepMessage(currentStep, pick2);
    }

    /** `process_interests` */
    method ProcessInterests(input: string, pick: nat, pick2: nat) returns (reply: string)
      requires currentStep == 3
      modifies this
      ensures State() == Advance(old(State()), input)
      ensures reply == ReplyFor(old(State()), input, pick, pick2)
    {
      var interests := ExtractInterests(input);
      tempInterests := Some(interests);
      currentStep := currentStep + 1;
      reply := Choose(InterestReplies(interests), pick) + "\n\n" + StepMessage(currentStep, pick2);
    }

    /** `process_personality` */
    method ProcessPersonality(input: string, pick: nat, pick2: nat) returns (reply: string)
      requires currentStep == 4
      modifies this, user, user.store
      ensures State() == Advance(old(State()), input)
      ensures reply == ReplyFor(old(State()), input, pick, pick2)
      ensures user.profile == Introduced(old(user.profile), State())
      ensures user.profileFile == old(user.profileFile)
      ensures user.store.files == old(user.store.files)[user.profileFile := user.profile]
    {
      var traits := ExtractPersonalityTraits(input);
      tempTraits := Some(traits);
      currentStep := currentStep + 1;
      var traitReply := Choose(TraitReplies(traits), pick);
      var done := CompleteIntroduction(pick2);
      reply := traitReply + "\n\n" + done;
    }
  }
}
