/**
 * Several people sharing one Fox (backend/core/multi_user.py): a users index
 * with a `last_user` pointer, the active user's profile, and the heuristics
 * that notice a different person typing. The index file and the current-user
 * file are fields holding what the JSON files contain (`None` when a file is
 * absent); the profile files live in the `Profile.ProfileStore` that every
 * `UserProfile` saves into, so a profile saved through one object is what the
 * next `get_user_profile` reads. Times are clock readings supplied by the caller.
 */
module MultiUser {
  import opened Common
  import opened Text
  import opened Profile

  datatype UserEntry = UserEntry(name: string, createdAt: int, lastSeen: int)

  datatype UsersIndex = UsersIndex(users: seq<UserEntry>, lastUser: Option<string>)

  /** `get_users_index`: the index file, or no users and no last user when there is none. */
  function IndexFrom(file: Option<UsersIndex>): (idx: UsersIndex)
    ensures file.Some? ==> idx == file.value
    ensures file.None? ==> idx.users == [] && idx.lastUser.None?
  {
    file.GetOr(UsersIndex([], None))
  }

  function Names(users: seq<UserEntry>): (ns: seq<string>)
    ensures |ns| == |users|
    ensures forall i :: 0 <= i < |users| ==> ns[i] == users[i].name
  {
    seq(|users|, i requires 0 <= i < |users| => users[i].name)
  }

  function Refresh(u: UserEntry, name: string, now: int): UserEntry {
    if u.name == name then u.(lastSeen := now) else u
  }

  /** The update loop of `switch_user` over the index entries. */
  function Refreshed(users: seq<UserEntry>, name: string, now: int): (r: seq<UserEntry>)
    ensures |r| == |users|
  {
    seq(|users|, i requires 0 <= i < |users| => Refresh(users[i], name, now))
  }

  /** The index `switch_user` writes back. */
  function Switched(idx: UsersIndex, name: string, now: int): UsersIndex {
    var users := if name !in Names(idx.users) then idx.users + [UserEntry(name, now, now)]
                 else Refreshed(idx.users, name, now);
    UsersIndex(users, Some(name))
  }

  /** A new name is appended once; a known name adds no entry; `last_user` is the name. */
  lemma SwitchedNames(idx: UsersIndex, name: string, now: int)
    ensures var idx' := Switched(idx, name, now);
      idx'.lastUser == Some(name) && name in Names(idx'.users)
      && Names(idx'.users) == if name in Names(idx.users) then Names(idx.users) else Names(idx.users) + [name]
  {
    var idx' := Switched(idx, name, now);
    if name in Names(idx.users) {
      assert forall i :: 0 <= i < |idx.users| ==> idx'.users[i].name == idx.users[i].name;
    } else {
      assert Names(idx'.users)[|idx.users|] == name;
    }
  }

  /** Switching never makes two index entries share a name. */
  lemma SwitchedUnique(idx: UsersIndex, name: string, now: int)
    requires NoDup(Names(idx.users))
    ensures NoDup(Names(Switched(idx, name, now).users))
  {
    SwitchedNames(idx, name, now);
  }

  /** Switching to a known user only refreshes `last_seen` of its entry. */
  lemma SwitchExistingRefreshes(idx: UsersIndex, name: string, now: int)
    requires name in Names(idx.users)
    ensures var users := Switched(idx, name, now).users;
      |users| == |idx.users|
      && forall i :: 0 <= i < |users| ==>
           users[i] == if idx.users[i].name == name then idx.users[i].(lastSeen := now) else idx.users[i]
  {
  }

  /**
   * The run of test_multi_user.py: after "حامد" and then "رادین" join an
   * empty index, switching back to "حامد" is not a new user and adds nothing.
   */
  lemma SwitchBackIsKnown(t1: int, t2: int, t3: int)
    ensures var idx := Switched(Switched(UsersIndex([], None), "حامد", t1), "رادین", t2);
      Names(idx.users) == ["حامد", "رادین"]
      && "حامد" in Names(idx.users)
      && Names(Switched(idx, "حامد", t3).users) == ["حامد", "رادین"]
  {
    var idx0 := UsersIndex([], None);
    SwitchedNames(idx0, "حامد", t1);
    var idx1 := Switched(idx0, "حامد", t1);
    assert Names(idx1.users) == ["حامد"];
    assert "رادین" !in Names(idx1.users) by {
      assert "رادین"[0] != "حامد"[0];
    }
    SwitchedNames(idx1, "رادین", t2);
    var idx2 := Switched(idx1, "رادین", t2);
    assert Names(idx2.users) == ["حامد", "رادین"];
    assert Names(idx2.users)[0] == "حامد";
    SwitchedNames(idx2, "حامد", t3);
  }

  /** `os.path.join(self.profiles_dir, f"{user_name}.json")` */
  function ProfilePath(name: string): string {
    "data/profiles/" + name + ".json"
  }

  /** Different users never share a profile file. */
  lemma ProfilePathInjective(a: string, b: string)
    requires ProfilePath(a) == ProfilePath(b)
    ensures a == b
  {
    var n := |"data/profiles/"|;
    assert a == ProfilePath(a)[n..n + |a|];
    assert b == ProfilePath(b)[n..n + |b|];
  }

  /** The profile `get_user_profile` loads: the user's profile file, or the default profile. */
  function StoredProfile(files: map<string, ProfileData>, name: string, now: int): ProfileData {
    LoadedProfile(files, ProfilePath(name), now)
  }

  /** Python's truthiness of an optional name. */
  predicate IsName(name: Option<string>) { name.Some? && name.value != "" }

  /** The user `load_current_user` picks: the current-user file's, else the index's `last_user`. */
  function LoadedUser(file: Option<string>, idx: UsersIndex): (r: Option<string>)
    ensures r.None? || IsName(r)
    ensures IsName(file) ==> r == file
    ensures !IsName(file) ==> r == if IsName(idx.lastUser) then idx.lastUser else None
  {
    if IsName(file) then file else if IsName(idx.lastUser) then idx.lastUser else None
  }

  /**
   * A switch is remembered twice over: a restart loads the same user from
   * the current-user file or, were that file gone, from the index.
   */
  lemma SwitchThenLoad(idx: UsersIndex, name: string, now: int)
    requires name != ""
    ensures LoadedUser(Some(name), Switched(idx, name, now)) == Some(name)
    ensures LoadedUser(None, Switched(idx, name, now)) == Some(name)
  {
  }

  // ------------------------------------------------------------- detection

  const SelfCues: seq<string> := ["من", "اسمم", "نامم"]

  /** The characters `strip("،.")` removes. */
  const NameMarks: set<char> := {'،', '.'}

  /** Word `i` is a self cue and the stripped word after it is longer than one character. */
  predicate NamedAt(ws: seq<string>, i: nat) {
    i + 1 < |ws| && ws[i] in SelfCues && |NameAfter(ws, i)| > 1
  }

  /** The word after word `j`, stripped of the name marks. */
  function NameAfter(ws: seq<string>, j: nat): string
    requires j + 1 < |ws|
  {
    StripChars(ws[j + 1], NameMarks)
  }

  /** The scan of `detect_user_change` over the words, from word `i` on. */
  function CueName(ws: seq<string>, i: nat): (r: Option<string>)
    ensures r.Some? ==> |r.value| > 1
    decreases |ws| - i
  {
    if i >= |ws| then None
    else if NamedAt(ws, i) then Some(NameAfter(ws, i))
    else CueName(ws, i + 1)
  }

  /** A name found is the stripped word after the first cue that gives one. */
  lemma {:induction false} CueNameFirst(ws: seq<string>, i: nat) returns (j: nat)
    requires CueName(ws, i).Some?
    ensures i <= j && NamedAt(ws, j) && CueName(ws, i) == Some(NameAfter(ws, j))
    ensures forall k :: i <= k < j ==> !NamedAt(ws, k)
    decreases |ws| - i
  {
    if NamedAt(ws, i) {
      j := i;
    } else {
      j := CueNameFirst(ws, i + 1);
    }
  }

  /** No name is found only when no cue gives one. */
  lemma {:induction false} CueNameNone(ws: seq<string>, i: nat)
    requires CueName(ws, i).None?
    ensures forall k :: i <= k < |ws| ==> !NamedAt(ws, k)
    decreases |ws| - i
  {
    if i < |ws| {
      CueNameNone(ws, i + 1);
    }
  }

  /** `detect_user_change`, with the current user's name when there is a current user. */
  function DetectedUser(input: string, current: Option<string>): (r: Option<string>)
    ensures r.Some? ==> |r.value| > 1
    ensures current.None? ==> r == if ContainsAny(input, SelfCues) then CueName(Words(input), 0) else None
  {
    var cued := if ContainsAny(input, SelfCues) then CueName(Words(input), 0) else None;
    if cued.Some? then cued
    else if Contains(input, "پسر") && current.Some? then Some("پسر " + current.value)
    else if Contains(input, "همسر") && current.Some? then Some("همسر " + current.value)
    else None
  }

  /** A named relative is reported only when no self cue gave a name. */
  lemma RelationAfterCue(input: string, current: string)
    requires Contains(input, "پسر")
    ensures var cued := if ContainsAny(input, SelfCues) then CueName(Words(input), 0) else None;
      DetectedUser(input, Some(current)) == if cued.Some? then cued else Some("پسر " + current)
  {
  }

  /**
   * A text that opens with a self cue and a name gives that name, whoever is
   * current. So "اسمم سارا است" gives "سارا", and "من پسر حامد هستم" of
   * test_multi_user.py gives "پسر": the cue "من" is seen before the relation
   * branch is reached.
   */
  lemma LeadingCue(ws: seq<string>, current: Option<string>)
    requires forall w :: w in ws ==> IsWord(w)
    requires |ws| >= 2 && ws[0] in SelfCues && |StripChars(ws[1], NameMarks)| > 1
    ensures DetectedUser(Join(ws, " "), current) == Some(StripChars(ws[1], NameMarks))
  {
    WordsOfJoin(ws);
    JoinContains(ws, " ", 0);
    var k :| 0 <= k < |SelfCues| && SelfCues[k] == ws[0];
    assert NamedAt(Words(Join(ws, " ")), 0);
  }

  const FormalWords: seq<string> := ["شما", "جناب", "سرکار", "محترم"]
  const InformalWords: seq<string> := ["تو", "داداش", "رفیق", "یارو"]

  /** `is_writing_style_different`, given the current user's traits when there is a current user. */
  predicate StyleDifferent(traits: Option<seq<string>>, text: string) {
    if traits.None? then false
    else if "صمیمی" in traits.value && ContainsAny(text, FormalWords) then true
    else "جدی" in traits.value && ContainsAny(text, InformalWords)
  }

  /** The style differs only for a warm user writing formally or a serious user writing informally. */
  lemma StyleDifferentCases(traits: Option<seq<string>>, text: string)
    ensures StyleDifferent(traits, text) <==>
      traits.Some? && (("صمیمی" in traits.value && ContainsAny(text, FormalWords))
                       || ("جدی" in traits.value && ContainsAny(text, InformalWords)))
    ensures traits.Some? && "صمیمی" !in traits.value && "جدی" !in traits.value ==> !StyleDifferent(traits, text)
  {
  }

  const NewUserLabel: string := "کاربر_جدید"

  /** `suggest_user_switch`, from what detection and the style check gave. */
  function Suggested(detected: Option<string>, current: Option<string>, styleDifferent: bool): Option<string> {
    if IsName(detected) && (current.None? || detected.value != current.value) then detected
    else if styleDifferent then Some(NewUserLabel)
    else None
  }

  /**
   * A suggestion never names the current user, except the new-user label on a
   * change of style; there is no suggestion only when the style matches and
   * detection found nobody or the current user.
   */
  lemma SuggestionCases(detected: Option<string>, current: Option<string>, styleDifferent: bool)
    requires detected.Some? ==> |detected.value| > 1
    ensures var r := Suggested(detected, current, styleDifferent);
      (r.Some? && r == current ==> r == Some(NewUserLabel) && styleDifferent)
      && (r.None? <==> !styleDifferent && (detected.None? || detected == current))
      && (r.Some? && r != detected ==> r == Some(NewUserLabel))
  {
  }

  // ------------------------------------------------------------------ class

  class MultiUserManager {
    const files: ProfileStore
    var indexFile: Option<UsersIndex>
    var currentUserFile: Option<string>
    var currentUser: Option<UserProfile>

    function Index(): UsersIndex
      reads this
    {
      IndexFrom(indexFile)
    }

    function CurrentName(): Option<string>
      reads this, if currentUser.Some? then {currentUser.value} else {}
    {
      if currentUser.Some? then Some(currentUser.value.Name()) else None
    }

    function CurrentTraits(): Option<seq<string>>
      reads this, if currentUser.Some? then {currentUser.value} else {}
    {
      if currentUser.Some? then Some(currentUser.value.profile.personalityTraits) else None
    }

    /** The current user is the profile of `name`, or there is none when `name` is `None`. */
    predicate Holds(name: Option<string>, now: int)
      reads this, files, if currentUser.Some? then {currentUser.value} else {}
    {
      if name.None? then currentUser.None?
      else currentUser.Some? && currentUser.value.store == files
           && currentUser.value.profileFile == ProfilePath(name.value)
           && currentUser.value.profile == StoredProfile(files.files, name.value, now)
    }

    /** `__init__`, which ends in `load_current_user`. */
    constructor (indexFile: Option<UsersIndex>, currentUserFile: Option<string>, files: ProfileStore, now: int)
      ensures this.indexFile == indexFile && this.currentUserFile == currentUserFile && this.files == files
      ensures Holds(LoadedUser(currentUserFile, IndexFrom(indexFile)), now)
      ensures currentUser.Some? ==> fresh(currentUser.value)
    {
      this.files := files;
      this.indexFile := indexFile;
      this.currentUserFile := currentUserFile;
      currentUser := None;
      new;
      LoadCurrentUser(now);
    }

    /** `get_user_profile`: a new profile object on the user's file, holding the file as last saved. */
    method GetUserProfile(name: string, now: int) returns (p: UserProfile)
      ensures fresh(p) && p.store == files && p.profileFile == ProfilePath(name)
      ensures p.profile == StoredProfile(files.files, name, now)
      ensures ProfilePath(name) in files.files ==> p.Saved()
    {
      p := new UserProfile(files, now);
      p.profileFile := ProfilePath(name);
      p.profile := p.LoadProfile(now);
    }

    /**
     * `load_current_user`: the current-user file's user, else (when there is
     * still no current user) the index's last user.
     */
    method LoadCurrentUser(now: int)
      modifies this
      ensures indexFile == old(indexFile) && currentUserFile == old(currentUserFile)
      ensures IsName(currentUserFile) || old(currentUser).None? ==> Holds(LoadedUser(currentUserFile, Index()), now)
      ensures !IsName(currentUserFile) && old(currentUser).Some? ==> currentUser == old(currentUser)
      ensures currentUser.Some? && currentUser != old(currentUser) ==> fresh(currentUser.value)
    {
      if IsName(currentUserFile) {
        var p := GetUserProfile(currentUserFile.value, now);
        currentUser := Some(p);
      }
      if currentUser.None? {
        var index := Index();
        if IsName(index.lastUser) {
          var p := GetUserProfile(index.lastUser.value, now);
          currentUser := Some(p);
        }
      }
    }

    /** The loop of `switch_user` that refreshes `last_seen`. */
    static method RefreshLastSeen(users: seq<UserEntry>, name: string, now: int) returns (r: seq<UserEntry>)
      ensures r == Refreshed(users, name, now)
    {
      r := users;
      var i := 0;
      while i < |r|
        invariant 0 <= i <= |r| == |users|
        invariant forall j :: 0 <= j < |r| ==> r[j] == if j < i then Refresh(users[j], name, now) else users[j]
      {
        if r[i].name == name {
          r := r[i := r[i].(lastSeen := now)];
        }
        i := i + 1;
      }
    }

    /** `switch_user` */
    method SwitchUser(name: string, now: int) returns (profile: UserProfile, isNew: bool)
      modifies this
      ensures isNew <==> name !in Names(old(Index()).users)
      ensures indexFile == Some(Switched(old(Index()), name, now))
      ensures currentUserFile == Some(name)
      ensures currentUser == Some(profile) && fresh(profile)
      ensures profile.store == files && profile.profileFile == ProfilePath(name)
      ensures profile.profile == StoredProfile(files.files, name, now)
    {
      var index := Index();
      isNew := name !in Names(index.users);
      var users;
      if isNew {
        users := index.users + [UserEntry(name, now, now)];
      } else {
        users := RefreshLastSeen(index.users, name, now);
      }
      indexFile := Some(UsersIndex(users, Some(name)));
      profile := GetUserProfile(name, now);
      currentUser := Some(profile);
      currentUserFile := Some(name);
    }

    /** `get_all_users` */
    function AllUsers(): (users: seq<UserEntry>)
      reads this
      ensures indexFile.None? ==> users == []
      ensures indexFile.Some? ==> users == indexFile.value.users
    {
      Index().users
    }

    /** `detect_user_change` */
    method DetectUserChange(userInput: string) returns (name: Option<string>)
      ensures name == DetectedUser(userInput, CurrentName())
    {
      if ContainsAny(userInput, SelfCues) {
        var words := Words(userInput);
        var i := 0;
        while i < |words|
          invariant 0 <= i <= |words|
          invariant CueName(words, 0) == CueName(words, i)
        {
          if words[i] in SelfCues && i + 1 < |words| {
            var potential := StripChars(words[i + 1], NameMarks);
            if |potential| > 1 {
              return Some(potential);
            }
          }
          i := i + 1;
        }
      }
      if Contains(userInput, "پسر") && currentUser.Some? {
        name := Some("پسر " + currentUser.value.Name());
      } else if Contains(userInput, "همسر") && currentUser.Some? {
        name := Some("همسر " + currentUser.value.Name());
      } else {
        name := None;
      }
    }

    /** `is_writing_style_different` */
    predicate IsWritingStyleDifferent(text: string)
      reads this, if currentUser.Some? then {currentUser.value} else {}
      ensures IsWritingStyleDifferent(text) ==> currentUser.Some?
      ensures IsWritingStyleDifferent(text) ==>
        (ContainsAny(text, FormalWords) && "صمیمی" in currentUser.value.profile.personalityTraits)
        || (ContainsAny(text, InformalWords) && "جدی" in currentUser.value.profile.personalityTraits)
      ensures (currentUser.Some? && "صمیمی" !in currentUser.value.profile.personalityTraits
               && "جدی" !in currentUser.value.profile.personalityTraits) ==> !IsWritingStyleDifferent(text)
    {
      StyleDifferentCases(CurrentTraits(), text);
      StyleDifferent(CurrentTraits(), text)
    }

    /** `suggest_user_switch` */
    method SuggestUserSwitch(userInput: string) returns (suggestion: Option<string>)
      ensures suggestion == Suggested(DetectedUser(userInput, CurrentName()), CurrentName(), IsWritingStyleDifferent(userInput))
    {
      var potential := DetectUserChange(userInput);
      if IsName(potential) && (currentUser.None? || potential.value != currentUser.value.Name()) {
        return potential;
      }
      if IsWritingStyleDifferent(userInput) {
        return Some(NewUserLabel);
      }
      return None;
    }
  }

  /**
   * The run of test_multi_user.py:32-62: switch to `first` and complete its
   * introduction, switch to `second` and complete its introduction, then
   * switch back to `first`. The profile switched back to is the one saved
   * for `first`: not a new user, its name, interests and traits, and the
   * status "آشنا"; the other user's save did not touch it.
   */
  method SwitchAwayAndBack(m: MultiUserManager, first: string, second: string,
                           interests1: seq<string>, traits1: seq<string>,
                           interests2: seq<string>, traits2: seq<string>, now: int)
      returns (again: UserProfile, isNew: bool)
    requires first != second
    modifies m, m.files
    ensures !isNew && m.currentUser == Some(again) && m.Index().lastUser == Some(first)
    ensures again.profile.name == first && again.profile.interests == interests1
    ensures again.profile.personalityTraits == traits1
    ensures !again.profile.isFirstTime && RelationshipStatus(again.profile.relationshipLevel) == "آشنا"
  {
    var idx0 := m.Index();
    var p1, _ := m.SwitchUser(first, now);
    SwitchedNames(idx0, first, now);
    p1.CompleteIntroduction(first, interests1, traits1);
    var idx1 := m.Index();
    var p2, _ := m.SwitchUser(second, now);
    SwitchedNames(idx1, second, now);
    if ProfilePath(first) == ProfilePath(second) {
      ProfilePathInjective(first, second);
    }
    p2.CompleteIntroduction(second, interests2, traits2);
    again, isNew := m.SwitchUser(first, now);
  }
}
