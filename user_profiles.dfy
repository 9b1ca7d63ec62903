/**
 * The per-user profile files of backend/core/user_profiles.py: one
 * `<name>_profile.json` per person, a current user, and the main user حامد.
 * The directory of profile files is a map from user name to the stored
 * profile; a directory listing, whose order the file system decides, is a
 * parameter. Times are clock readings supplied by the caller.
 */
module UserProfiles {
  import opened Common
  import opened Text

  datatype Preferences = Preferences(personalityStyle: string, responseLength: string, useEmoji: bool, formalityLevel: string)

  datatype Characteristics = Characteristics(interests: seq<string>, personalityTraits: seq<string>, communicationStyle: string)

  datatype ConversationStats = ConversationStats(totalMessages: int, favoriteTopics: seq<string>, commonPhrases: seq<string>,
                                                 lastMessageTime: Option<int>)

  datatype LearningData = LearningData(customResponses: map<string, string>, learnedFacts: map<string, string>,
                                       personalInfo: map<string, string>)

  /** The contents of one profile file. */
  datatype UserRecord = UserRecord(name: string, relationshipToHamed: string, createdAt: int, lastActive: int,
                                   preferences: Preferences, characteristics: Characteristics,
                                   conversationStats: ConversationStats, learningData: LearningData)

  const MainUser: string := "حامد"
  const DefaultRelationship: string := "دوست"
  const MainRelationship: string := "کاربر اصلی"

  /** The profile `create_user_profile` writes: no messages yet and nothing learned. */
  function NewProfile(username: string, relationship: string, now: int): (p: UserRecord)
    ensures p.name == username && p.relationshipToHamed == relationship
    ensures p.createdAt == now && p.lastActive == now
    ensures p.conversationStats.totalMessages == 0 && p.conversationStats.lastMessageTime.None?
    ensures p.characteristics.interests == [] && p.characteristics.personalityTraits == []
    ensures p.learningData.customResponses == map[] && p.learningData.learnedFacts == map[]
      && p.learningData.personalInfo == map[]
  {
    UserRecord(username, relationship, now, now,
               Preferences("دوستانه", "متوسط", true, "غیررسمی"),
               Characteristics([], [], "طبیعی"),
               ConversationStats(0, [], [], None),
               LearningData(map[], map[], map[]))
  }

  // ---------------------------------------------------------- profile.update

  /** A dictionary handed to `profile.update`: the top-level keys it sets. */
  datatype ProfileUpdate = ProfileUpdate(name: Option<string>, relationshipToHamed: Option<string>,
                                         createdAt: Option<int>, lastActive: Option<int>,
                                         preferences: Option<Preferences>, characteristics: Option<Characteristics>,
                                         conversationStats: Option<ConversationStats>, learningData: Option<LearningData>)

  const NoUpdate: ProfileUpdate := ProfileUpdate(None, None, None, None, None, None, None, None)

  /** A whole profile passed as the update, every key set. */
  function Whole(p: UserRecord): ProfileUpdate {
    ProfileUpdate(Some(p.name), Some(p.relationshipToHamed), Some(p.createdAt), Some(p.lastActive),
                  Some(p.preferences), Some(p.characteristics), Some(p.conversationStats), Some(p.learningData))
  }

  /** Python's shallow `dict.update`: a key the update sets replaces the old value. */
  function Merge(p: UserRecord, u: ProfileUpdate): UserRecord {
    UserRecord(u.name.GetOr(p.name), u.relationshipToHamed.GetOr(p.relationshipToHamed),
               u.createdAt.GetOr(p.createdAt), u.lastActive.GetOr(p.lastActive),
               u.preferences.GetOr(p.preferences), u.characteristics.GetOr(p.characteristics),
               u.conversationStats.GetOr(p.conversationStats), u.learningData.GetOr(p.learningData))
  }

  /** An empty update changes nothing; a whole profile replaces everything; merging twice is merging once. */
  lemma MergeLaws(p: UserRecord, q: UserRecord, u: ProfileUpdate)
    ensures Merge(p, NoUpdate) == p
    ensures Merge(p, Whole(q)) == q
    ensures Merge(Merge(p, u), u) == Merge(p, u)
  {
  }

  /** `update_user_profile` on the profile files. */
  function Updated(files: map<string, UserRecord>, username: string, u: ProfileUpdate, now: int): map<string, UserRecord> {
    if username in files then files[username := Merge(files[username], u).(lastActive := now)] else files
  }

  /**
   * A missing profile is left missing. An existing one takes every key the
   * update sets, keeps every other key, and is stamped with the time; no other
   * file changes.
   */
  lemma UpdatedProfile(files: map<string, UserRecord>, username: string, u: ProfileUpdate, now: int)
    ensures var r := Updated(files, username, u, now);
      r.Keys == files.Keys
      && (forall other :: other in files && other != username ==> r[other] == files[other])
      && (username in files ==>
            r[username].lastActive == now
            && r[username].relationshipToHamed == u.relationshipToHamed.GetOr(files[username].relationshipToHamed)
            && r[username].conversationStats == u.conversationStats.GetOr(files[username].conversationStats)
            && r[username].learningData == u.learningData.GetOr(files[username].learningData)
            && r[username].(lastActive := now) == Merge(files[username], u).(lastActive := now))
    ensures username !in files ==> Updated(files, username, u, now) == files
  {
  }

  // ------------------------------------------------------------ conversation stats

  /** The profile `update_conversation_stats` hands back to `update_user_profile`. */
  function Counted(p: UserRecord, now: int): UserRecord {
    var s := p.conversationStats;
    p.(conversationStats := s.(totalMessages := s.totalMessages + 1, lastMessageTime := Some(now)))
  }

  /** `update_conversation_stats` on the profile files. */
  function StatsUpdated(files: map<string, UserRecord>, username: string, now: int): map<string, UserRecord> {
    if username in files then Updated(files, username, Whole(Counted(files[username], now)), now) else files
  }

  /**
   * One message adds exactly one to the user's count and stamps the message
   * time and the activity time; the rest of that profile and every other
   * profile stay as they were, and a missing profile is not created.
   */
  lemma StatsCountOne(files: map<string, UserRecord>, username: string, now: int)
    ensures var r := StatsUpdated(files, username, now);
      r.Keys == files.Keys
      && (forall other :: other in files && other != username ==> r[other] == files[other])
      && (username in files ==>
            var p, q := files[username], r[username];
            q.conversationStats.totalMessages == p.conversationStats.totalMessages + 1
            && q.conversationStats.lastMessageTime == Some(now) && q.lastActive == now
            && q.conversationStats.favoriteTopics == p.conversationStats.favoriteTopics
            && q.conversationStats.commonPhrases == p.conversationStats.commonPhrases
            && q.(conversationStats := p.conversationStats, lastActive := p.lastActive) == p)
  {
    if username in files {
      MergeLaws(files[username], Counted(files[username], now), NoUpdate);
    }
  }

  /** `n` messages from a user add `n` to the count. */
  function StatsUpdatedTimes(files: map<string, UserRecord>, username: string, times: seq<int>): map<string, UserRecord>
    decreases |times|
  {
    if times == [] then files
    else StatsUpdatedTimes(StatsUpdated(files, username, times[0]), username, times[1..])
  }

  lemma {:induction false} StatsCountMany(files: map<string, UserRecord>, username: string, times: seq<int>)
    requires username in files
    ensures var r := StatsUpdatedTimes(files, username, times);
      username in r && r[username].conversationStats.totalMessages == files[username].conversationStats.totalMessages + |times|
    decreases |times|
  {
    if times != [] {
      StatsCountOne(files, username, times[0]);
      StatsCountMany(StatsUpdated(files, username, times[0]), username, times[1..]);
    }
  }

  // ----------------------------------------------------- current user profile

  /** The relationship a profile created for `user` by `get_current_user_profile` gets. */
  function StartingRelationship(user: string, main: string): string {
    if user == main then MainRelationship else DefaultRelationship
  }

  /** `get_current_user_profile` on the profile files: the user's profile is created when missing. */
  function Ensured(files: map<string, UserRecord>, user: string, main: string, now: int): map<string, UserRecord> {
    if user in files then files else files[user := NewProfile(user, StartingRelationship(user, main), now)]
  }

  /**
   * Afterwards the user always has a profile: the stored one when there was
   * one, otherwise a fresh one, the main user's as "کاربر اصلی". Nothing else
   * changes, and asking again creates nothing more.
   */
  lemma EnsuredProfile(files: map<string, UserRecord>, user: string, main: string, now: int, later: int)
    ensures var r := Ensured(files, user, main, now);
      r.Keys == files.Keys + {user}
      && (forall other :: other in files ==> r[other] == files[other])
      && (user !in files ==> r[user] == NewProfile(user, StartingRelationship(user, main), now))
      && (user !in files && user == main ==> r[user].relationshipToHamed == MainRelationship)
      && (user !in files && user != main ==> r[user].relationshipToHamed == DefaultRelationship)
      && Ensured(r, user, main, later) == r
  {
  }

  // ------------------------------------------------------ relationship context

  const NewFriendContext: string := "دوست جدید"
  const MainContext: string := "کاربر اصلی حامد"
  const HamedSuffix: string := " حامد"

  /** `get_relationship_context` */
  function Context(files: map<string, UserRecord>, username: string, main: string): string {
    if username !in files then NewFriendContext
    else if username == main then MainContext
    else files[username].relationshipToHamed + HamedSuffix
  }

  /**
   * The context depends only on the user's own relationship: an update that
   * does not set the relationship, and counting a message, leave it alone.
   */
  lemma ContextKept(files: map<string, UserRecord>, username: string, other: string, u: ProfileUpdate,
                    main: string, now: int)
    requires u.relationshipToHamed.None?
    ensures Context(Updated(files, other, u, now), username, main) == Context(files, username, main)
    ensures Context(StatsUpdated(files, other, now), username, main) == Context(files, username, main)
  {
    StatsCountOne(files, other, now);
  }

  /**
   * Once `get_current_user_profile` has run, the main user is "کاربر اصلی
   * حامد" and anyone else is their relationship followed by " حامد", "دوست"
   * for a profile it has just created.
   */
  lemma ContextAfterEnsured(files: map<string, UserRecord>, user: string, main: string, now: int)
    ensures Context(Ensured(files, user, main, now), user, main) ==
      if user == main then MainContext
      else (if user in files then files[user].relationshipToHamed else DefaultRelationship) + HamedSuffix
  {
  }

  /** A profile created with a relationship reports that relationship. */
  lemma ContextAfterCreate(files: map<string, UserRecord>, user: string, relationship: string, main: string, now: int)
    requires user != main
    ensures Context(files[user := NewProfile(user, relationship, now)], user, main) == relationship + HamedSuffix
  {
  }

  // ---------------------------------------------------------- detect_new_user

  const IntroPatterns: seq<string> := ["من", "اسم من", "نام من", "منم", "هستم", "معرفی", "آشنایی", "خودم", "صدام کن"]
  const NameCues: seq<string> := ["من", "منم", "اسم", "نام"]
  const NameMarks: set<char> := {'،', '.', '!', '؟'}

  /** Word `i` is a name cue and the stripped word after it is a name other than the main user's. */
  predicate NewNameAt(ws: seq<string>, i: nat) {
    i + 1 < |ws| && ws[i] in NameCues && IsNewName(NameAfter(ws, i))
  }

  /** Longer than one character and not the main user. */
  predicate IsNewName(n: string) {
    |n| > 1 && n != MainUser
  }

  /** The word after word `j`, stripped of the name marks. */
  function NameAfter(ws: seq<string>, j: nat): string
    requires j + 1 < |ws|
  {
    StripChars(ws[j + 1], NameMarks)
  }

  /** The word scan of `detect_new_user` from word `i` on. */
  function NewUserCue(ws: seq<string>, i: nat): (r: Option<string>)
    ensures r.Some? ==> |r.value| > 1 && r.value != MainUser
    decreases |ws| - i
  {
    if i >= |ws| then None
    else if NewNameAt(ws, i) then Some(NameAfter(ws, i))
    else NewUserCue(ws, i + 1)
  }

  /** A name found is the stripped word after the first cue that gives one. */
  lemma {:induction false} NewUserCueFirst(ws: seq<string>, i: nat) returns (j: nat)
    requires NewUserCue(ws, i).Some?
    ensures i <= j && NewNameAt(ws, j) && NewUserCue(ws, i) == Some(NameAfter(ws, j))
    ensures forall k :: i <= k < j ==> !NewNameAt(ws, k)
    decreases |ws| - i
  {
    if NewNameAt(ws, i) {
      j := i;
    } else {
      j := NewUserCueFirst(ws, i + 1);
    }
  }

  /** No name is found only when no cue gives one. */
  lemma {:induction false} NewUserCueNone(ws: seq<string>, i: nat)
    requires NewUserCue(ws, i).None?
    ensures forall k :: i <= k < |ws| ==> !NewNameAt(ws, k)
    decreases |ws| - i
  {
    if i < |ws| {
      assert !NewNameAt(ws, i);
      NewUserCueNone(ws, i + 1);
      forall k | i <= k < |ws| ensures !NewNameAt(ws, k) {
        if k == i {
          assert !NewNameAt(ws, i);
        }
      }
    }
  }

  /** `detect_new_user`: a name is looked for only when the lower-cased message has an introduction pattern. */
  function DetectedNewUser(message: string): (r: Option<string>)
    ensures r.Some? ==> |r.value| > 1 && r.value != MainUser && ContainsAny(Lower(message), IntroPatterns)
  {
    if ContainsAny(Lower(message), IntroPatterns) then NewUserCue(Words(message), 0) else None
  }

  /** A message that opens with "من" or "منم" and a new name gives that name. */
  lemma OpeningCue(ws: seq<string>)
    requires forall w :: w in ws ==> IsWord(w)
    requires |ws| >= 2 && ws[0] in NameCues && ws[0] in IntroPatterns
    requires IsNewName(StripChars(ws[1], NameMarks))
    ensures DetectedNewUser(Join(ws, " ")) == Some(StripChars(ws[1], NameMarks))
  {
    var m := Join(ws, " ");
    WordsOfJoin(ws);
    JoinContains(ws, " ", 0);
    CuePassesGate(m, ws[0]);
    assert NewNameAt(Words(m), 0);
  }

  /** A message holding one of the pattern cues passes the pattern check. */
  lemma CuePassesGate(m: string, w: string)
    requires Contains(m, w) && w in NameCues && w in IntroPatterns
    ensures ContainsAny(Lower(m), IntroPatterns)
  {
    var k :| 0 <= k < |IntroPatterns| && IntroPatterns[k] == w;
    LowerKeepsCue(w);
    LowerContains(m, w);
  }

  /** The cue words have no capital letters. */
  lemma LowerKeepsCue(w: string)
    requires w in NameCues
    ensures Lower(w) == w
  {
  }

  // ------------------------------------------------------------ get_all_users

  const ProfileSuffix: string := "_profile.json"

  predicate EndsWith(s: string, w: string) {
    |w| <= |s| && s[|s| - |w|..] == w
  }

  /** `get_all_users` over a directory listing, in listing order. */
  function ListedUsers(listing: seq<string>): (users: seq<string>)
    ensures |users| <= |listing|
  {
    if listing == [] then []
    else
      var last := listing[|listing| - 1];
      ListedUsers(listing[..|listing| - 1]) + if EndsWith(last, ProfileSuffix) then [RemoveAll(last, ProfileSuffix)] else []
  }

  /** Every listed user comes from a profile file of the listing, and every profile file gives one. */
  lemma {:induction false} ListedUsersFromFiles(listing: seq<string>)
    ensures forall n :: n in ListedUsers(listing) ==>
      exists f :: f in listing && EndsWith(f, ProfileSuffix) && n == RemoveAll(f, ProfileSuffix)
    ensures forall f :: f in listing && EndsWith(f, ProfileSuffix) ==> RemoveAll(f, ProfileSuffix) in ListedUsers(listing)
  {
    if listing != [] {
      var init := listing[..|listing| - 1];
      ListedUsersFromFiles(init);
      assert listing == init + [listing[|listing| - 1]];
    }
  }

  /** `u` has no occurrence of `w` starting inside it, even one running on into `w`. */
  predicate NoEarlyMatch(u: string, w: string) {
    forall i :: 0 <= i < |u| ==> !(w <= (u + w)[i..])
  }

  /** `replace` gives back the name when the suffix occurs only at the end. */
  lemma {:induction false} RemoveTrailing(u: string, w: string)
    requires w != [] && NoEarlyMatch(u, w)
    ensures RemoveAll(u + w, w) == u
    decreases |u|
  {
    var s := u + w;
    if u == [] {
      assert s == w && s[|w|..] == [];
    } else {
      assert !(w <= s[0..]);
      assert s[1..] == u[1..] + w;
      forall i | 0 <= i < |u[1..]|
        ensures !(w <= (u[1..] + w)[i..])
      {
        assert (u[1..] + w)[i..] == s[i + 1..];
      }
      RemoveTrailing(u[1..], w);
    }
  }

  /** A user name with no underscore is never cut short by the suffix. */
  lemma NoUnderscoreNoEarlyMatch(u: string)
    requires '_' !in u
    ensures NoEarlyMatch(u, ProfileSuffix)
  {
    forall i | 0 <= i < |u|
      ensures !(ProfileSuffix <= (u + ProfileSuffix)[i..])
    {
      assert (u + ProfileSuffix)[i..][0] == u[i];
    }
  }

  /** The profile file of such a user is listed as that user. */
  lemma ListedSavedUser(listing: seq<string>, u: string)
    requires u + ProfileSuffix in listing && NoEarlyMatch(u, ProfileSuffix)
    ensures u in ListedUsers(listing)
  {
    var f := u + ProfileSuffix;
    assert f[|f| - |ProfileSuffix|..] == ProfileSuffix;
    ListedUsersFromFiles(listing);
    RemoveTrailing(u, ProfileSuffix);
  }

  // ------------------------------------------------------------------ class

  class UserProfileManager {
    var currentUser: string
    const mainUser: string
    /** The profile files of the data directory, by user name. */
    var files: map<string, UserRecord>

    /** `__init__`: both the current and the main user are حامد. */
    constructor (files: map<string, UserRecord>)
      ensures currentUser == MainUser && mainUser == MainUser && this.files == files
    {
      currentUser := MainUser;
      mainUser := MainUser;
      this.files := files;
    }

    /** `create_user_profile`: the new profile overwrites any file of that name. */
    method CreateUserProfile(username: string, relationship: string, now: int) returns (p: UserRecord)
      modifies this
      ensures p == NewProfile(username, relationship, now)
      ensures files == old(files)[username := p] && currentUser == old(currentUser)
    {
      p := NewProfile(username, relationship, now);
      files := files[username := p];
    }

    /** `get_user_profile` */
    function GetUserProfile(username: string): (r: Option<UserRecord>)
      reads this
      ensures r.Some? <==> username in files
      ensures r.Some? ==> r.value == files[username]
    {
      if username in files then Some(files[username]) else None
    }

    /** `update_user_profile` */
    method UpdateUserProfile(username: string, updates: ProfileUpdate, now: int)
      modifies this
      ensures files == Updated(old(files), username, updates, now) && currentUser == old(currentUser)
    {
      var profile := GetUserProfile(username);
      if profile.Some? {
        var merged := Merge(profile.value, updates).(lastActive := now);
        files := files[username := merged];
      }
    }

    /** `detect_new_user` */
    method DetectNewUser(message: string) returns (r: Option<string>)
      ensures r == DetectedNewUser(message)
    {
      if ContainsAny(Lower(message), IntroPatterns) {
        var words := Words(message);
        var i := 0;
        while i < |words|
          invariant 0 <= i <= |words|
          invariant NewUserCue(words, 0) == NewUserCue(words, i)
        {
          if words[i] in NameCues && i + 1 < |words| {
            var potential := StripChars(words[i + 1], NameMarks);
            if IsNewName(potential) {
              return Some(potential);
            }
          }
          i := i + 1;
        }
      }
      return None;
    }

    /** `switch_user` */
    method SwitchUser(username: string)
      modifies this
      ensures currentUser == username && files == old(files)
    {
      currentUser := username;
    }

    /** `get_current_user_profile` */
    method GetCurrentUserProfile(now: int) returns (p: UserRecord)
      modifies this
      ensures currentUser == old(currentUser)
      ensures files == Ensured(old(files), currentUser, mainUser, now)
      ensures currentUser in files && p == files[currentUser]
    {
      var profile := GetUserProfile(currentUser);
      if profile.Some? {
        p := profile.value;
      } else if currentUser == mainUser {
        p := CreateUserProfile(mainUser, MainRelationship, now);
      } else {
        p := CreateUserProfile(currentUser, DefaultRelationship, now);
      }
    }

    /** `get_all_users`, over the listing of the data directory. */
    static method GetAllUsers(listing: seq<string>) returns (users: seq<string>)
      ensures users == ListedUsers(listing)
    {
      users := [];
      var i := 0;
      while i < |listing|
        invariant 0 <= i <= |listing|
        invariant users == ListedUsers(listing[..i])
      {
        var filename := listing[i];
        assert listing[..i + 1][..i] == listing[..i];
        if EndsWith(filename, ProfileSuffix) {
          users := users + [RemoveAll(filename, ProfileSuffix)];
        }
        i := i + 1;
      }
      assert listing[..i] == listing;
    }

    /** `get_relationship_context` */
    function GetRelationshipContext(username: string): (context: string)
      reads this
      ensures username !in files ==> context == NewFriendContext
      ensures username in files && username == mainUser ==> context == MainContext
      ensures username in files && username != mainUser ==>
        context == files[username].relationshipToHamed + HamedSuffix && EndsWith(context, HamedSuffix)
    {
      Context(files, username, mainUser)
    }

    /** `update_conversation_stats` */
    method UpdateConversationStats(username: string, now: int)
      modifies this
      ensures files == StatsUpdated(old(files), username, now) && currentUser == old(currentUser)
    {
      var profile := GetUserProfile(username);
      if profile.Some? {
        var counted := Counted(profile.value, now);
        UpdateUserProfile(username, Whole(counted), now);
      }
    }
  }
}
