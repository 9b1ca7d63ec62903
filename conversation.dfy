/**
 * The conversation manager (backend/core/conversation.py): keeps the current
 * session, stores turns in the chat store, picks up name, likes and dislikes
 * from the user's turns, and builds the model's context.
 */
module ConversationContext {
  import opened Common
  import opened Text
  import opened Models
  import opened MemoryStore
  import opened LlmEngine

  /** Number of stored turns put into the model's context. */
  const ContextLimit: nat := 20

  /** Number of memories put into the model's context. */
  const ContextMemories: nat := 5

  const DigestHeader: string := "اطلاعات مهم که باید به خاطر داشته باشی:\n"

  // --------------------------------------------------- _extract_user_info

  /** Words after which the next-but-one word is taken as the user's name. */
  predicate IsNameCue(w: string) { w == "اسم" || w == "نام" }

  /** The name the word at `i` contributes: `words[i + 2]` when it is a cue. */
  function NameAt(ws: seq<string>, i: nat): (names: seq<string>)
    requires i < |ws|
    ensures |names| <= 1
  {
    if IsNameCue(ws[i]) && i + 2 < |ws| then [ws[i + 2]] else []
  }

  /** Names taken from the words before position `n`: `words[i + 2]` for each cue at `i`. */
  function NamesBefore(ws: seq<string>, n: nat): (names: seq<string>)
    requires n <= |ws|
    ensures |names| <= n
  {
    if n == 0 then [] else NamesBefore(ws, n - 1) + NameAt(ws, n - 1)
  }

  /** The memories after saving each name in turn as "user_name". */
  function SaveNames(mems: seq<Memory>, names: seq<string>, now: int): seq<Memory> {
    if names == [] then mems
    else UpsertMemory(SaveNames(mems, names[..|names| - 1], now), "user_name", names[|names| - 1], "preference", 9, now)
  }

  /** The content mentions the user's name, by either wording. */
  predicate MentionsName(content: string) {
    Contains(Lower(content), "اسم من") || Contains(Lower(content), "نام من")
  }

  predicate MentionsLike(content: string) { Contains(Lower(content), "دوست دارم") }

  predicate MentionsDislike(content: string) {
    Contains(Lower(content), "متنفرم") || Contains(Lower(content), "دوست ندارم")
  }

  /** The names found in the content, in order. */
  function NameCandidates(content: string): seq<string> {
    NamesBefore(Words(content), |Words(content)|)
  }

  function NamesSaved(mems: seq<Memory>, content: string, now: int): seq<Memory> {
    if MentionsName(content) then SaveNames(mems, NameCandidates(content), now) else mems
  }

  function LikeSaved(mems: seq<Memory>, content: string, now: int): seq<Memory> {
    if MentionsLike(content) then UpsertMemory(mems, "user_likes", content, "preference", 6, now) else mems
  }

  function DislikeSaved(mems: seq<Memory>, content: string, now: int): seq<Memory> {
    if MentionsDislike(content) then UpsertMemory(mems, "user_dislikes", content, "preference", 6, now) else mems
  }

  /** The memories after `_extract_user_info(content)`. */
  function ExtractedMemories(mems: seq<Memory>, content: string, now: int): seq<Memory> {
    DislikeSaved(LikeSaved(NamesSaved(mems, content, now), content, now), content, now)
  }

  /** Saving a list of names in two parts is saving it at once. */
  lemma {:induction false} SaveNamesAppend(mems: seq<Memory>, a: seq<string>, b: seq<string>, now: int)
    ensures SaveNames(mems, a + b, now) == SaveNames(SaveNames(mems, a, now), b, now)
    decreases |b|
  {
    if b == [] {
      assert a + b == a;
    } else {
      var ab := a + b;
      assert ab[..|ab| - 1] == a + b[..|b| - 1];
      assert ab[|ab| - 1] == b[|b| - 1];
      SaveNamesAppend(mems, a, b[..|b| - 1], now);
    }
  }

  lemma {:induction false} SaveNamesWellFormed(mems: seq<Memory>, names: seq<string>, now: int)
    requires MemoriesWellFormed(mems)
    ensures MemoriesWellFormed(SaveNames(mems, names, now))
    decreases |names|
  {
    if names != [] {
      SaveNamesWellFormed(mems, names[..|names| - 1], now);
      UpsertMemoryRecall(SaveNames(mems, names[..|names| - 1], now), "user_name", names[|names| - 1], "preference", 9, now, "");
    }
  }

  /** Saving names touches only the "user_name" memory. */
  lemma {:induction false} SaveNamesOther(mems: seq<Memory>, names: seq<string>, now: int, k: string)
    requires MemoriesWellFormed(mems) && k != "user_name"
    ensures Recall(SaveNames(mems, names, now), k) == Recall(mems, k)
    decreases |names|
  {
    if names != [] {
      SaveNamesOther(mems, names[..|names| - 1], now, k);
      SaveNamesWellFormed(mems, names[..|names| - 1], now);
      UpsertMemoryRecall(SaveNames(mems, names[..|names| - 1], now), "user_name", names[|names| - 1], "preference", 9, now, k);
    }
  }

  lemma ExtractedWellFormed(mems: seq<Memory>, content: string, now: int)
    requires MemoriesWellFormed(mems)
    ensures MemoriesWellFormed(ExtractedMemories(mems, content, now))
  {
    SaveNamesWellFormed(mems, NameCandidates(content), now);
    var m1 := NamesSaved(mems, content, now);
    UpsertMemoryRecall(m1, "user_likes", content, "preference", 6, now, "");
    UpsertMemoryRecall(LikeSaved(m1, content, now), "user_dislikes", content, "preference", 6, now, "");
  }

  /**
   * After a user turn that mentions a name cue, "user_name" holds the word two
   * places after the last cue (with importance 9); a liked or disliked thing is
   * stored as the whole turn, with importance 6. A memory whose cue is
   * absent, or a name cue with no word two places after it, is left as it
   * was.
   */
  lemma ExtractedRecall(mems: seq<Memory>, content: string, now: int)
    requires MemoriesWellFormed(mems)
    ensures var r := ExtractedMemories(mems, content, now);
      var names := NamesBefore(Words(content), |Words(content)|);
      (MentionsName(content) && names != [] ==>
         Recall(r, "user_name").Some? && Recall(r, "user_name").value.value == names[|names| - 1]
         && Recall(r, "user_name").value.importance == 9)
      && (!MentionsName(content) || names == [] ==> Recall(r, "user_name") == Recall(mems, "user_name"))
      && (!MentionsLike(content) ==> Recall(r, "user_likes") == Recall(mems, "user_likes"))
      && (!MentionsDislike(content) ==> Recall(r, "user_dislikes") == Recall(mems, "user_dislikes"))
      && (MentionsLike(content) ==>
            Recall(r, "user_likes").Some? && Recall(r, "user_likes").value.value == content
            && Recall(r, "user_likes").value.importance == 6)
      && (MentionsDislike(content) ==>
            Recall(r, "user_dislikes").Some? && Recall(r, "user_dislikes").value.value == content
            && Recall(r, "user_dislikes").value.importance == 6)
  {
    var names := NameCandidates(content);
    var m1 := NamesSaved(mems, content, now);
    SaveNamesWellFormed(mems, names, now);
    if names != [] {
      SaveNamesWellFormed(mems, names[..|names| - 1], now);
      UpsertMemoryRecall(SaveNames(mems, names[..|names| - 1], now), "user_name", names[|names| - 1], "preference", 9, now, "user_likes");
    }
    UpsertMemoryRecall(m1, "user_likes", content, "preference", 6, now, "user_name");
    UpsertMemoryRecall(m1, "user_likes", content, "preference", 6, now, "user_dislikes");
    SaveNamesOther(mems, names, now, "user_likes");
    SaveNamesOther(mems, names, now, "user_dislikes");
    var m2 := LikeSaved(m1, content, now);
    UpsertMemoryRecall(m2, "user_dislikes", content, "preference", 6, now, "user_name");
    UpsertMemoryRecall(m2, "user_dislikes", content, "preference", 6, now, "user_likes");
  }

  // ----------------------------------------------------------- the context

  /** One line of the memory digest. */
  function DigestLine(m: MemoryView): string {
    "- " + m.key + ": " + m.value + "\n"
  }

  function DigestLines(ms: seq<MemoryView>): string {
    if ms == [] then "" else DigestLines(ms[..|ms| - 1]) + DigestLine(ms[|ms| - 1])
  }

  /** The system turn get_enhanced_context puts first. */
  function MemoryDigest(ms: seq<MemoryView>): string {
    DigestHeader + DigestLines(ms)
  }

  lemma {:induction false} DigestLinesSplit(ms: seq<MemoryView>, k: nat)
    requires k < |ms|
    ensures DigestLines(ms) == DigestLines(ms[..k]) + DigestLine(ms[k]) + DigestLines(ms[k + 1..])
    decreases |ms|
  {
    if k == |ms| - 1 {
      assert ms[..|ms| - 1] == ms[..k];
      assert ms[k + 1..] == [];
    } else {
      var init := ms[..|ms| - 1];
      DigestLinesSplit(init, k);
      assert init[..k] == ms[..k];
      assert init[k] == ms[k];
      var tail := ms[k + 1..];
      assert tail[..|tail| - 1] == init[k + 1..];
      assert tail[|tail| - 1] == ms[|ms| - 1];
    }
  }

  /** The digest starts with its header and has a "- key: value" line for each memory. */
  lemma DigestMentionsEveryMemory(ms: seq<MemoryView>)
    ensures DigestHeader <= MemoryDigest(ms)
    ensures forall k :: 0 <= k < |ms| ==> Contains(MemoryDigest(ms), DigestLine(ms[k]))
  {
    forall k | 0 <= k < |ms| ensures Contains(MemoryDigest(ms), DigestLine(ms[k])) {
      DigestLinesSplit(ms, k);
      assert MemoryDigest(ms) == (DigestHeader + DigestLines(ms[..k])) + DigestLine(ms[k]) + DigestLines(ms[k + 1..]);
      ContainsPiece(DigestHeader + DigestLines(ms[..k]), DigestLine(ms[k]), DigestLines(ms[k + 1..]));
    }
  }

  function ToChat(h: HistoryEntry): ChatMessage {
    ChatMessage(h.role, h.content, Some(h.timestamp))
  }

  /** `get_context_messages` for a session: its last twenty stored turns. */
  function ContextOf(convs: seq<Conversation>, msgs: seq<Message>, session: Option<string>): seq<ChatMessage> {
    if session.None? || session.value == "" then []
    else
      var h := History(convs, msgs, session.value, ContextLimit);
      seq(|h|, i requires 0 <= i < |h| => ToChat(h[i]))
  }

  /** `get_enhanced_context`: the memory digest (when there are memories) followed by the context turns. */
  function EnhancedContext(convs: seq<Conversation>, msgs: seq<Message>, mems: seq<Memory>, session: Option<string>): seq<ChatMessage> {
    var views := GetMemories(mems, None, ContextMemories);
    var ctx := ContextOf(convs, msgs, session);
    if views == [] then ctx else [ChatMessage("system", MemoryDigest(views), None)] + ctx
  }

  /** The context turns: at most twenty, in the order they were saved. */
  lemma ContextOfShape(convs: seq<Conversation>, msgs: seq<Message>, session: Option<string>)
    requires WellFormed(convs, msgs)
    ensures var ctx := ContextOf(convs, msgs, session);
      |ctx| <= ContextLimit
      && forall i, j :: 0 <= i < j < |ctx| ==> ctx[i].timestamp.value <= ctx[j].timestamp.value
  {
    if session.Some? && session.value != "" {
      HistoryShape(convs, msgs, session.value, ContextLimit);
    }
  }

  /** The digest turn comes first exactly when some memory is stored. */
  lemma EnhancedContextPrefix(convs: seq<Conversation>, msgs: seq<Message>, mems: seq<Memory>, session: Option<string>)
    ensures var r := EnhancedContext(convs, msgs, mems, session);
      var ctx := ContextOf(convs, msgs, session);
      (mems == [] ==> r == ctx)
      && (mems != [] ==> |r| == |ctx| + 1 && r[0].role == "system" && r[1..] == ctx)
  {
    var views := GetMemories(mems, None, ContextMemories);
    assert |views| == |SelectMemories(mems, None, ContextMemories)|;
  }

  /**
   * The enhanced context has at most 21 turns: the stored turns of the session
   * in the order they were saved, preceded by one system turn exactly when
   * some memory is stored.
   */
  lemma EnhancedContextShape(convs: seq<Conversation>, msgs: seq<Message>, mems: seq<Memory>, session: Option<string>)
    requires WellFormed(convs, msgs)
    ensures var r := EnhancedContext(convs, msgs, mems, session);
      var ctx := ContextOf(convs, msgs, session);
      |ctx| <= ContextLimit
      && (mems == [] ==> r == ctx)
      && (mems != [] ==> |r| == |ctx| + 1 && r[0].role == "system" && r[1..] == ctx)
      && forall i, j :: 0 <= i < j < |ctx| ==> ctx[i].timestamp.value <= ctx[j].timestamp.value
  {
    ContextOfShape(convs, msgs, session);
    EnhancedContextPrefix(convs, msgs, mems, session);
  }

  // ------------------------------------------------------- the whole state

  /** The chat store together with the manager's current session. */
  datatype Store = Store(convs: seq<Conversation>, msgs: seq<Message>, mems: seq<Memory>, session: Option<string>)

  /** Python's truthiness of `current_session`. */
  predicate IsSession(session: Option<string>) {
    session.Some? && session.value != ""
  }

  /** `start_new_session`, with `sessionId` as the uuid4 draw. */
  function Started(st: Store, sessionId: string, now: int): Store {
    st.(convs := st.convs + [NewConversation(|st.convs| + 1, sessionId, DefaultTitle, now)], session := Some(sessionId))
  }

  /** `add_message`: a session is started on the spot (as `freshId`) when there is none. */
  function Added(st: Store, role: string, content: string, freshId: string, now: int): Store {
    var st1 := if IsSession(st.session) then st else Started(st, freshId, now);
    var sid := st1.session.value;
    Store(SavedConversations(st1.convs, sid, content, now),
          SavedMessages(st1.convs, st1.msgs, sid, role, content, now),
          if role == "user" then ExtractedMemories(st1.mems, content, now) else st1.mems,
          st1.session)
  }

  predicate StoreWellFormed(st: Store) {
    WellFormed(st.convs, st.msgs) && MemoriesWellFormed(st.mems)
  }

  /** The newest stored message is not later than `now`. */
  predicate ClockAt(st: Store, now: int) {
    st.msgs == [] || st.msgs[|st.msgs| - 1].timestamp <= now
  }

  lemma StartedWellFormed(st: Store, sessionId: string, now: int)
    requires StoreWellFormed(st)
    ensures StoreWellFormed(Started(st, sessionId, now))
  {
  }

  /** After `add_message` the session is set and exactly one message, the new turn, was appended. */
  lemma AddedAppendsTurn(st: Store, role: string, content: string, freshId: string, now: int)
    requires StoreWellFormed(st) && ClockAt(st, now)
    ensures var r := Added(st, role, content, freshId, now);
      r.session == (if IsSession(st.session) then st.session else Some(freshId))
      && |r.msgs| == |st.msgs| + 1 && r.msgs[..|st.msgs|] == st.msgs
      && r.msgs[|st.msgs|].role == role && r.msgs[|st.msgs|].content == content && r.msgs[|st.msgs|].timestamp == now
      && StoreWellFormed(r) && ClockAt(r, now)
  {
    var st1 := if IsSession(st.session) then st else Started(st, freshId, now);
    StartedWellFormed(st, freshId, now);
    var sid := st1.session.value;
    SavedWellFormed(st1.convs, st1.msgs, sid, role, content, now);
    if role == "user" {
      ExtractedWellFormed(st1.mems, content, now);
    }
  }

  /** After `add_message` the session's context ends with the new turn. */
  lemma AddedContextEndsWithTurn(st: Store, role: string, content: string, freshId: string, now: int)
    requires StoreWellFormed(st)
    requires IsSession(st.session) || freshId != ""
    ensures var r := Added(st, role, content, freshId, now);
      LastIs(ContextOf(r.convs, r.msgs, r.session), ChatMessage(role, content, Some(now)))
  {
    var st1 := if IsSession(st.session) then st else Started(st, freshId, now);
    StartedWellFormed(st, freshId, now);
    var sid := st1.session.value;
    HistoryAfterSave(st1.convs, st1.msgs, sid, role, content, now, ContextLimit);
    ContextEndsWith(SavedConversations(st1.convs, sid, content, now), SavedMessages(st1.convs, st1.msgs, sid, role, content, now),
                    st1.session, role, content, now);
    AddedStore(st, role, content, freshId, now);
  }

  /** The conversations, the messages and the session `add_message` leaves. */
  lemma AddedStore(st: Store, role: string, content: string, freshId: string, now: int)
    requires IsSession(st.session) || freshId != ""
    ensures var st1 := if IsSession(st.session) then st else Started(st, freshId, now);
      var r := Added(st, role, content, freshId, now);
      IsSession(st1.session) && r.session == st1.session
      && r.convs == SavedConversations(st1.convs, st1.session.value, content, now)
      && r.msgs == SavedMessages(st1.convs, st1.msgs, st1.session.value, role, content, now)
  {
  }

  /** A session whose history ends with an entry has a context that ends with that entry's turn. */
  lemma ContextEndsWith(convs: seq<Conversation>, msgs: seq<Message>, session: Option<string>,
                        role: string, content: string, now: int)
    requires IsSession(session)
    requires LastIs(History(convs, msgs, session.value, ContextLimit), HistoryEntry(role, content, now))
    ensures LastIs(ContextOf(convs, msgs, session), ChatMessage(role, content, Some(now)))
  {
  }

  // ------------------------------------------------------------- the manager

  class ConversationManager {
    var memory: MemoryManager
    var currentSession: Option<string>

    ghost predicate Valid()
      reads this, memory
    {
      memory.Valid()
    }

    /** Python's truthiness of `self.current_session`. */
    predicate HasSession()
      reads this
    {
      IsSession(currentSession)
    }

    function State(): Store
      reads this, memory
    {
      Store(memory.conversations, memory.messages, memory.memories, currentSession)
    }

    constructor ()
      ensures Valid() && fresh(memory)
      ensures currentSession == None
      ensures memory.conversations == [] && memory.messages == [] && memory.memories == []
    {
      memory := new MemoryManager();
      currentSession := None;
    }

    /** `start_new_session`; `sessionId` is the uuid4 draw. */
    method StartNewSession(sessionId: string, now: int) returns (sid: string)
      requires Valid()
      modifies this, memory
      ensures Valid() && memory == old(memory)
      ensures sid == sessionId
      ensures State() == Started(old(State()), sessionId, now)
    {
      sid := memory.CreateSession(sessionId, now);
      currentSession := Some(sid);
    }

    /** `set_session` */
    method SetSession(sessionId: string)
      modifies this
      ensures currentSession == Some(sessionId) && memory == old(memory)
    {
      currentSession := Some(sessionId);
    }

    /**
     * `add_message`: starts a session when there is none (with `freshId` as its
     * uuid4 draw), stores the turn, and mines user turns for memories.
     */
    method AddMessage(role: string, content: string, freshId: string, now: int)
      requires Valid() && memory.ClockAllows(now)
      modifies this, memory
      ensures Valid() && memory == old(memory)
      ensures State() == Added(old(State()), role, content, freshId, now)
    {
      if !HasSession() {
        var _ := StartNewSession(freshId, now);
      }
      memory.SaveMessage(currentSession.value, role, content, now);
      if role == "user" {
        ExtractUserInfo(content, now);
      }
    }

    /** `_extract_user_info` */
    method ExtractUserInfo(content: string, now: int)
      requires Valid()
      modifies memory
      ensures Valid()
      ensures memory.memories == ExtractedMemories(old(memory.memories), content, now)
      ensures memory.conversations == old(memory.conversations) && memory.messages == old(memory.messages)
    {
      if MentionsName(content) {
        SaveNameCandidates(Words(content), now);
      }
      if MentionsLike(content) {
        memory.SaveMemory("user_likes", content, "preference", 6, now);
      }
      if MentionsDislike(content) {
        memory.SaveMemory("user_dislikes", content, "preference", 6, now);
      }
    }

    /** The name loop of `_extract_user_info`: each cue saves the word two places on. */
    method SaveNameCandidates(ws: seq<string>, now: int)
      requires Valid()
      modifies memory
      ensures Valid()
      ensures memory.memories == SaveNames(old(memory.memories), NamesBefore(ws, |ws|), now)
      ensures memory.conversations == old(memory.conversations) && memory.messages == old(memory.messages)
    {
      ghost var m0 := memory.memories;
      var i := 0;
      while i < |ws|
        invariant 0 <= i <= |ws|
        invariant memory.Valid()
        invariant memory.memories == SaveNames(m0, NamesBefore(ws, i), now)
        invariant memory.conversations == old(memory.conversations) && memory.messages == old(memory.messages)
      {
        ghost var done := NamesBefore(ws, i);
        SaveNameAt(ws, i, now);
        SaveNamesAppend(m0, done, NameAt(ws, i), now);
        i := i + 1;
      }
    }

    /** One step of the name loop: the cue at `i`, if it is one, saves `words[i + 2]`. */
    method SaveNameAt(ws: seq<string>, i: nat, now: int)
      requires Valid() && i < |ws|
      modifies memory
      ensures Valid()
      ensures memory.memories == SaveNames(old(memory.memories), NameAt(ws, i), now)
      ensures memory.conversations == old(memory.conversations) && memory.messages == old(memory.messages)
    {
      if IsNameCue(ws[i]) && i + 2 < |ws| {
        memory.SaveMemory("user_name", ws[i + 2], "preference", 9, now);
        assert [ws[i + 2]][..0] == [];
      }
    }

    /** `get_context_messages` */
    function GetContextMessages(): (ctx: seq<ChatMessage>)
      reads this, memory
      requires Valid()
      ensures |ctx| <= ContextLimit
      ensures forall i :: 0 <= i < |ctx| ==> ctx[i].timestamp.Some?
      ensures forall i, j :: 0 <= i < j < |ctx| ==> ctx[i].timestamp.value <= ctx[j].timestamp.value
    {
      ContextOfShape(memory.conversations, memory.messages, currentSession);
      ContextOf(memory.conversations, memory.messages, currentSession)
    }

    /** `get_enhanced_context`: builds the digest line by line. */
    method GetEnhancedContext() returns (r: seq<ChatMessage>)
      requires Valid()
      ensures r == EnhancedContext(memory.conversations, memory.messages, memory.memories, currentSession)
    {
      var messages := GetContextMessages();
      var memories := GetMemories(memory.memories, None, ContextMemories);
      r := messages;
      if memories != [] {
        var text := Digest(memories);
        r := [ChatMessage("system", text, None)] + messages;
      }
    }

    /** The digest loop of `get_enhanced_context`. */
    static method Digest(memories: seq<MemoryView>) returns (text: string)
      ensures text == MemoryDigest(memories)
    {
      text := DigestHeader;
      var i := 0;
      while i < |memories|
        invariant 0 <= i <= |memories|
        invariant text == DigestHeader + DigestLines(memories[..i])
      {
        assert memories[..i + 1][..i] == memories[..i];
        text := text + ("- " + memories[i].key + ": " + memories[i].value + "\n");
        i := i + 1;
      }
      assert memories[..i] == memories;
    }

    /** `save_user_preference` */
    method SaveUserPreference(key: string, value: string, now: int)
      requires Valid()
      modifies memory
      ensures Valid()
      ensures memory.memories == UpsertMemory(old(memory.memories), key, value, "preference", 8, now)
      ensures memory.conversations == old(memory.conversations) && memory.messages == old(memory.messages)
    {
      memory.SaveMemory(key, value, "preference", 8, now);
    }

    /** `get_conversations_list` */
    function GetConversationsList(): (list: seq<ConversationSummary>)
      reads this, memory
      ensures |list| <= 10
      ensures forall i, j :: 0 <= i < j < |list| ==> list[i].updatedAt >= list[j].updatedAt
      ensures forall i :: 0 <= i < |list| ==> SummaryOf(list[i], memory.conversations, memory.messages)
    {
      RecentConversationsNewestFirst(memory.conversations, memory.messages, 10);
      RecentConversations(memory.conversations, memory.messages, 10)
    }

    /** `search_history` */
    function SearchHistory(query: string): (hits: seq<SearchHit>)
      reads this, memory
      requires Valid()
      ensures |hits| <= 10
      ensures forall i :: 0 <= i < |hits| ==> HitOf(hits[i], memory.conversations, memory.messages, query)
      ensures forall i, j :: 0 <= i < j < |hits| ==> hits[i].timestamp >= hits[j].timestamp
    {
      SearchHitsNewestFirst(memory.conversations, memory.messages, query, 10);
      SearchConversations(memory.conversations, memory.messages, query, 10)
    }
  }
}
