/**
 * The chat store (backend/core/memory.py): sessions, their messages and the
 * remembered facts. The three tables are sequences of rows in id order; the
 * queries are functions of them and the writes are methods of `MemoryManager`.
 */
module MemoryStore {
  import opened Common
  import opened Text
  import opened Models
  import opened Sorting

  // ------------------------------------------------------------------ titles

  /**
   * `_generate_title`: when the first five words, joined by spaces, exceed ten
   * characters the title is made of exactly those words; otherwise it is the default.
   */
  function GenerateTitle(content: string): (title: string)
    ensures title == DefaultTitle || |title| > 10
    ensures |Join(Take(Words(content), 5), " ")| > 10 ==> Words(title) == Take(Words(content), 5)
    ensures |Join(Take(Words(content), 5), " ")| <= 10 ==> title == DefaultTitle
  {
    var ws := Take(Words(content), 5);
    assert forall w :: w in ws ==> w in Words(content);
    WordsOfJoin(ws);
    var t := Join(ws, " ");
    if |t| > 10 then t else DefaultTitle
  }

  // -------------------------------------------------------------- the tables

  /** Rows carry their auto-increment ids, messages point at existing conversations, and time does not run backwards. */
  predicate WellFormed(convs: seq<Conversation>, msgs: seq<Message>) {
    (forall i :: 0 <= i < |convs| ==> convs[i].id == i + 1)
    && (forall i :: 0 <= i < |msgs| ==> msgs[i].id == i + 1 && 1 <= msgs[i].conversationId <= |convs|)
    && Chronological(msgs)
  }

  predicate Chronological(ms: seq<Message>) {
    forall i, j :: 0 <= i < j < |ms| ==> ms[i].timestamp <= ms[j].timestamp
  }

  /** Memory ids follow insertion order and no key is stored twice. */
  predicate MemoriesWellFormed(mems: seq<Memory>) {
    (forall i :: 0 <= i < |mems| ==> mems[i].id == i + 1)
    && (forall i, j :: 0 <= i < j < |mems| ==> mems[i].key != mems[j].key)
  }

  /** `query(Conversation).filter(session_id == sid).first()`, as a position. */
  function FindConversation(convs: seq<Conversation>, sid: string): (r: Option<nat>)
    ensures r.Some? ==> r.value < |convs| && convs[r.value].sessionId == sid
    ensures r.Some? ==> forall j :: 0 <= j < r.value ==> convs[j].sessionId != sid
    ensures r.None? ==> forall j :: 0 <= j < |convs| ==> convs[j].sessionId != sid
  {
    if convs == [] then None
    else if convs[0].sessionId == sid then Some(0)
    else match FindConversation(convs[1..], sid)
      case None => None
      case Some(j) => Some(j + 1)
  }

  /** `query(Memory).filter(key == key).first()`, as a position. */
  function FindMemory(mems: seq<Memory>, key: string): (r: Option<nat>)
    ensures r.Some? ==> r.value < |mems| && mems[r.value].key == key
    ensures r.Some? ==> forall j :: 0 <= j < r.value ==> mems[j].key != key
    ensures r.None? ==> forall j :: 0 <= j < |mems| ==> mems[j].key != key
  {
    if mems == [] then None
    else if mems[0].key == key then Some(0)
    else match FindMemory(mems[1..], key)
      case None => None
      case Some(j) => Some(j + 1)
  }

  // ------------------------------------------------------------ save_message

  /** What save_message does to the conversation it writes to: stamp it and, while it has no real title, title it. */
  function Touch(c: Conversation, content: string, now: int): Conversation {
    c.(updatedAt := now,
       title := if c.title == "" || c.title == DefaultTitle then GenerateTitle(content) else c.title)
  }

  /** The conversations after save_message: the session's row is touched, or a new titled row is added. */
  function SavedConversations(convs: seq<Conversation>, sid: string, content: string, now: int): seq<Conversation> {
    match FindConversation(convs, sid)
    case Some(i) => convs[i := Touch(convs[i], content, now)]
    case None => convs + [Touch(NewConversation(|convs| + 1, sid, GenerateTitle(content), now), content, now)]
  }

  /**
   * save_message titles only the conversation it writes to, and only while
   * that one has an empty or default title; a real title never changes.
   */
  lemma SavedTitles(convs: seq<Conversation>, sid: string, content: string, now: int)
    ensures var convs' := SavedConversations(convs, sid, content, now);
      |convs| <= |convs'|
      && (forall i :: 0 <= i < |convs| && convs[i].title != "" && convs[i].title != DefaultTitle ==>
            convs'[i].title == convs[i].title)
      && (forall i :: 0 <= i < |convs| && FindConversation(convs, sid) != Some(i) ==> convs'[i] == convs[i])
      && (forall i :: 0 <= i < |convs| && FindConversation(convs, sid) == Some(i) ==>
            (convs[i].title == "" || convs[i].title == DefaultTitle) ==> convs'[i].title == GenerateTitle(content))
  {
  }

  /** Id of the conversation save_message writes to. */
  function TargetId(convs: seq<Conversation>, sid: string): nat {
    match FindConversation(convs, sid)
    case Some(i) => convs[i].id
    case None => |convs| + 1
  }

  /** The messages after save_message: one row appended, counting whitespace-separated tokens. */
  function SavedMessages(convs: seq<Conversation>, msgs: seq<Message>, sid: string, role: string, content: string, now: int): seq<Message> {
    msgs + [NewMessage(|msgs| + 1, TargetId(convs, sid), role, content, now, |Words(content)|)]
  }

  /** save_message keeps the ids, the references and the time order, provided the clock has not gone back. */
  lemma SavedWellFormed(convs: seq<Conversation>, msgs: seq<Message>, sid: string, role: string, content: string, now: int)
    requires WellFormed(convs, msgs)
    requires msgs == [] || msgs[|msgs| - 1].timestamp <= now
    ensures WellFormed(SavedConversations(convs, sid, content, now), SavedMessages(convs, msgs, sid, role, content, now))
  {
    SavedIds(convs, sid, content, now);
    var convs' := SavedConversations(convs, sid, content, now);
    var m := NewMessage(|msgs| + 1, TargetId(convs, sid), role, content, now, |Words(content)|);
    AppendWellFormed(convs, convs', msgs, m);
  }

  /** Appending a message with the next id, an existing conversation and no earlier timestamp keeps the store well formed. */
  lemma AppendWellFormed(convs: seq<Conversation>, convs': seq<Conversation>, msgs: seq<Message>, m: Message)
    requires WellFormed(convs, msgs)
    requires |convs| <= |convs'| && forall i :: 0 <= i < |convs'| ==> convs'[i].id == i + 1
    requires m.id == |msgs| + 1 && 1 <= m.conversationId <= |convs'|
    requires msgs == [] || msgs[|msgs| - 1].timestamp <= m.timestamp
    ensures WellFormed(convs', msgs + [m])
  {
    var msgs' := msgs + [m];
    assert forall i :: 0 <= i < |msgs| ==> msgs'[i] == msgs[i];
    forall i, j | 0 <= i < j < |msgs'| ensures msgs'[i].timestamp <= msgs'[j].timestamp {
      if j == |msgs| && i < |msgs| - 1 {
        assert msgs[i].timestamp <= msgs[|msgs| - 1].timestamp;
      }
    }
  }

  /** save_message keeps the conversation ids in row order, and writes to one of them. */
  lemma SavedIds(convs: seq<Conversation>, sid: string, content: string, now: int)
    requires forall i :: 0 <= i < |convs| ==> convs[i].id == i + 1
    ensures var convs' := SavedConversations(convs, sid, content, now);
      |convs| <= |convs'| && 1 <= TargetId(convs, sid) <= |convs'|
      && forall i :: 0 <= i < |convs'| ==> convs'[i].id == i + 1
  {
  }

  /** A conversation created by save_message is titled from that first message. */
  lemma NewConversationTitled(convs: seq<Conversation>, sid: string, content: string, now: int)
    requires FindConversation(convs, sid).None?
    ensures var c := SavedConversations(convs, sid, content, now)[|convs|];
      c.sessionId == sid && c.title == GenerateTitle(content) && c.isActive && c.createdAt == now
  {
  }

  // -------------------------------------------------------------- history

  function InConversation(id: nat): Message -> bool {
    (m: Message) => m.conversationId == id
  }

  /** One row of get_conversation_history. */
  datatype HistoryEntry = HistoryEntry(role: string, content: string, timestamp: int)

  function Entries(ms: seq<Message>): (es: seq<HistoryEntry>)
    ensures |es| == |ms|
    ensures forall i :: 0 <= i < |ms| ==> es[i] == HistoryEntry(ms[i].role, ms[i].content, ms[i].timestamp)
  {
    seq(|ms|, i requires 0 <= i < |ms| => HistoryEntry(ms[i].role, ms[i].content, ms[i].timestamp))
  }

  /** The newest `limit` messages of conversation `id`, oldest first. */
  function Latest(msgs: seq<Message>, id: nat, limit: nat): seq<Message> {
    TakeLast(Filter(msgs, InConversation(id)), limit)
  }

  /** `get_conversation_history(session_id, limit)`: empty for an unknown session. */
  function History(convs: seq<Conversation>, msgs: seq<Message>, sid: string, limit: nat): seq<HistoryEntry> {
    match FindConversation(convs, sid)
    case None => []
    case Some(i) => Entries(Latest(msgs, convs[i].id, limit))
  }

  lemma {:induction false} FilterChronological(ms: seq<Message>, p: Message -> bool)
    requires Chronological(ms)
    ensures Chronological(Filter(ms, p))
  {
    if ms != [] {
      FilterChronological(ms[1..], p);
      var rest := Filter(ms[1..], p);
      forall m | m in rest ensures ms[0].timestamp <= m.timestamp {
        var k :| 0 <= k < |ms[1..]| && ms[1..][k] == m;
      }
    }
  }

  /** The newest messages of a conversation are in saving order too. */
  lemma LatestChronological(msgs: seq<Message>, id: nat, limit: nat)
    requires Chronological(msgs)
    ensures Chronological(Latest(msgs, id, limit))
  {
    var f := Filter(msgs, InConversation(id));
    FilterChronological(msgs, InConversation(id));
    var l := Latest(msgs, id, limit);
    assert l == f[|f| - |l|..];
    forall i, j | 0 <= i < j < |l| ensures l[i].timestamp <= l[j].timestamp {
      assert l[i] == f[|f| - |l| + i] && l[j] == f[|f| - |l| + j];
    }
  }

  /** The history holds at most `limit` messages of that session, in the order they were saved. */
  lemma HistoryShape(convs: seq<Conversation>, msgs: seq<Message>, sid: string, limit: nat)
    requires WellFormed(convs, msgs)
    ensures var h := History(convs, msgs, sid, limit);
      |h| <= limit
      && (FindConversation(convs, sid).None? ==> h == [])
      && forall i, j :: 0 <= i < j < |h| ==> h[i].timestamp <= h[j].timestamp
  {
    match FindConversation(convs, sid)
    case None =>
    case Some(c) =>
      var l := Latest(msgs, convs[c].id, limit);
      LatestChronological(msgs, convs[c].id, limit);
      var h := Entries(l);
      assert forall i :: 0 <= i < |h| ==> h[i].timestamp == l[i].timestamp;
  }

  /**
   * Saving a message and then reading the history: the saved message is the
   * newest entry, and the history grew by one unless it was already at `limit`.
   */
  lemma HistoryAfterSave(convs: seq<Conversation>, msgs: seq<Message>, sid: string, role: string, content: string, now: int, limit: nat)
    requires WellFormed(convs, msgs)
    requires limit > 0
    ensures EndsWithSaved(History(SavedConversations(convs, sid, content, now), SavedMessages(convs, msgs, sid, role, content, now), sid, limit),
                          History(convs, msgs, sid, limit), HistoryEntry(role, content, now), limit)
  {
    HistoryBeforeSave(convs, msgs, sid, limit);
    var m := SavedMessage(convs, msgs, sid, role, content, now);
    var msgs' := SavedMessages(convs, msgs, sid, role, content, now);
    HistoryAfterSaveIs(convs, msgs', sid, content, now, limit);
    EntriesAfterSave(History(SavedConversations(convs, sid, content, now), msgs', sid, limit), History(convs, msgs, sid, limit),
                     msgs, m, TargetId(convs, sid), role, content, now, limit);
  }

  /** The row save_message appends. */
  lemma SavedMessage(convs: seq<Conversation>, msgs: seq<Message>, sid: string, role: string, content: string, now: int) returns (m: Message)
    ensures SavedMessages(convs, msgs, sid, role, content, now) == msgs + [m]
    ensures m.conversationId == TargetId(convs, sid) && m.role == role && m.content == content && m.timestamp == now
  {
    m := NewMessage(|msgs| + 1, TargetId(convs, sid), role, content, now, |Words(content)|);
  }

  /** `h` ends with `e` and is one longer than `before`, unless that was already at `limit`. */
  predicate EndsWithSaved(h: seq<HistoryEntry>, before: seq<HistoryEntry>, e: HistoryEntry, limit: nat) {
    LastIs(h, e) && |h| == if |before| < limit then |before| + 1 else limit
  }

  /** The history entries of a conversation after a message of it is appended. */
  lemma EntriesAfterSave(h: seq<HistoryEntry>, before: seq<HistoryEntry>, msgs: seq<Message>, m: Message, id: nat,
                         role: string, content: string, now: int, limit: nat)
    requires limit > 0
    requires m.conversationId == id && m.role == role && m.content == content && m.timestamp == now
    requires h == Entries(Latest(msgs + [m], id, limit)) && before == Entries(Latest(msgs, id, limit))
    ensures EndsWithSaved(h, before, HistoryEntry(role, content, now), limit)
  {
    var l := Latest(msgs + [m], id, limit);
    LatestAfterSave(msgs, m, limit);
    EntriesLast(l);
  }

  /** After the save the history is that of the target id, in the saved messages. */
  lemma HistoryAfterSaveIs(convs: seq<Conversation>, msgs': seq<Message>, sid: string, content: string, now: int, limit: nat)
    requires forall k :: 0 <= k < |convs| ==> convs[k].id == k + 1
    ensures History(SavedConversations(convs, sid, content, now), msgs', sid, limit) == Entries(Latest(msgs', TargetId(convs, sid), limit))
  {
    var i := SavedTarget(convs, sid, content, now);
  }

  /** Before the save the history is that of the target id, which is empty for a new session. */
  lemma HistoryBeforeSave(convs: seq<Conversation>, msgs: seq<Message>, sid: string, limit: nat)
    requires WellFormed(convs, msgs)
    ensures History(convs, msgs, sid, limit) == Entries(Latest(msgs, TargetId(convs, sid), limit))
  {
    if FindConversation(convs, sid).None? {
      NoneInConversation(msgs, |convs| + 1);
      assert Latest(msgs, |convs| + 1, limit) == [];
    }
  }

  /** The last history entry is made from the last message. */
  lemma EntriesLast(ms: seq<Message>)
    requires ms != []
    ensures Entries(ms)[|ms| - 1] == HistoryEntry(ms[|ms| - 1].role, ms[|ms| - 1].content, ms[|ms| - 1].timestamp)
  {
  }

  /** Appending a message to a conversation makes it the newest of that conversation's latest messages. */
  lemma LatestAfterSave(msgs: seq<Message>, m: Message, limit: nat)
    requires limit > 0
    ensures var l := Latest(msgs + [m], m.conversationId, limit);
      var before := Latest(msgs, m.conversationId, limit);
      |l| > 0 && l[|l| - 1] == m
      && |l| == if |before| < limit then |before| + 1 else limit
  {
    var p := InConversation(m.conversationId);
    FilterAppend(msgs, [m], p);
    assert Filter(msgs + [m], p) == Filter(msgs, p) + [m];
    TakeLastSnoc(Filter(msgs, p), m, limit);
  }

  /** After save_message the session is found at the row that received the message. */
  lemma SavedTarget(convs: seq<Conversation>, sid: string, content: string, now: int) returns (i: nat)
    requires forall k :: 0 <= k < |convs| ==> convs[k].id == k + 1
    ensures var convs' := SavedConversations(convs, sid, content, now);
      FindConversation(convs', sid) == Some(i) && i < |convs'| && convs'[i].id == TargetId(convs, sid)
  {
    var convs' := SavedConversations(convs, sid, content, now);
    match FindConversation(convs, sid) {
      case Some(k) =>
        i := k;
        FindConversationAt(convs', sid, k);
      case None =>
        i := |convs|;
        FindConversationAt(convs', sid, |convs|);
    }
  }

  lemma TakeLastSnoc<T>(s: seq<T>, x: T, n: nat)
    requires n > 0
    ensures var r := TakeLast(s + [x], n);
      |r| > 0 && r[|r| - 1] == x
      && |r| == if |TakeLast(s, n)| < n then |TakeLast(s, n)| + 1 else n
  {
  }

  lemma FindConversationAt(convs: seq<Conversation>, sid: string, k: nat)
    requires k < |convs| && convs[k].sessionId == sid
    requires forall j :: 0 <= j < k ==> convs[j].sessionId != sid
    ensures FindConversation(convs, sid) == Some(k)
  {
  }

  lemma {:induction false} NoneInConversation(msgs: seq<Message>, id: nat)
    requires forall i :: 0 <= i < |msgs| ==> msgs[i].conversationId < id
    ensures CountIf(msgs, InConversation(id)) == 0
  {
    if msgs != [] {
      NoneInConversation(msgs[1..], id);
    }
  }

  // ---------------------------------------------------- recent conversations

  /** One row of get_recent_conversations. */
  datatype ConversationSummary = ConversationSummary(sessionId: string, title: string, updatedAt: int, messageCount: nat)

  /** `ORDER BY updated_at DESC` */
  function ByRecency(): (Conversation, Conversation) -> bool {
    (a: Conversation, b: Conversation) => a.updatedAt >= b.updatedAt
  }

  function IsActive(): Conversation -> bool {
    (c: Conversation) => c.isActive
  }

  /** The active conversations get_recent_conversations returns, newest first. */
  function RecentRows(convs: seq<Conversation>, limit: nat): seq<Conversation> {
    TopBy(Filter(convs, IsActive()), ByRecency(), limit)
  }

  /** `get_recent_conversations(limit)` */
  function RecentConversations(convs: seq<Conversation>, msgs: seq<Message>, limit: nat): seq<ConversationSummary> {
    var rows := RecentRows(convs, limit);
    seq(|rows|, i requires 0 <= i < |rows| =>
      ConversationSummary(rows[i].sessionId, rows[i].title, rows[i].updatedAt, CountIf(msgs, InConversation(rows[i].id))))
  }

  /**
   * The summaries are the `limit` most recently updated active conversations,
   * newest first, each with its number of messages; no active conversation
   * left out was updated later than one listed.
   */
  lemma RecentConversationsNewestFirst(convs: seq<Conversation>, msgs: seq<Message>, limit: nat)
    ensures var r := RecentConversations(convs, msgs, limit);
      var active := CountIf(convs, IsActive());
      |r| == (if limit < active then limit else active)
      && (forall i, j :: 0 <= i < j < |r| ==> r[i].updatedAt >= r[j].updatedAt)
      && (forall i :: 0 <= i < |r| ==> SummaryOf(r[i], convs, msgs))
      && (forall c :: c in convs && c.isActive && c !in RecentRows(convs, limit) ==>
            forall i :: 0 <= i < |r| ==> r[i].updatedAt >= c.updatedAt)
  {
    var rows := RecentRows(convs, limit);
    RecentRowsNewestFirst(convs, limit);
    var r := RecentConversations(convs, msgs, limit);
    assert forall i :: 0 <= i < |r| ==> r[i].updatedAt == rows[i].updatedAt;
    forall i | 0 <= i < |r| ensures SummaryOf(r[i], convs, msgs) {
      assert rows[i] in convs && rows[i].isActive;
    }
  }

  /**
   * The rows are the `limit` most recently updated active conversations,
   * newest first.
   */
  lemma RecentRowsNewestFirst(convs: seq<Conversation>, limit: nat)
    ensures var rows := RecentRows(convs, limit);
      var active := CountIf(convs, IsActive());
      |rows| == (if limit < active then limit else active)
      && (forall i :: 0 <= i < |rows| ==> rows[i] in convs && rows[i].isActive)
      && (forall i, j :: 0 <= i < j < |rows| ==> rows[i].updatedAt >= rows[j].updatedAt)
      && (forall c :: c in convs && c.isActive && c !in rows ==>
            forall i :: 0 <= i < |rows| ==> rows[i].updatedAt >= c.updatedAt)
  {
    var rows := RecentRows(convs, limit);
    var active := Filter(convs, IsActive());
    TopBySelects(active, ByRecency(), limit);
    forall i | 0 <= i < |rows| ensures rows[i] in convs && rows[i].isActive {
      assert rows[i] in active;
    }
    forall c | c in convs && c.isActive && c !in rows
      ensures forall i :: 0 <= i < |rows| ==> rows[i].updatedAt >= c.updatedAt
    {
      FilterKeeps(convs, IsActive(), c);
      assert forall i :: 0 <= i < |rows| ==> ByRecency()(rows[i], c);
    }
  }

  /** `s` summarises an active conversation of the store, with its true message count. */
  predicate SummaryOf(s: ConversationSummary, convs: seq<Conversation>, msgs: seq<Message>) {
    exists c :: c in convs && c.isActive && c.sessionId == s.sessionId && c.title == s.title
      && c.updatedAt == s.updatedAt && s.messageCount == CountIf(msgs, InConversation(c.id))
  }

  // --------------------------------------------------------------- memories

  /** `save_memory`: overwrite the value, importance and stamp of an existing key (keeping its category), or add a row. */
  function UpsertMemory(mems: seq<Memory>, key: string, value: string, category: string, importance: int, now: int): seq<Memory> {
    match FindMemory(mems, key)
    case Some(i) => mems[i := mems[i].(value := value, importance := importance, createdAt := now)]
    case None => mems + [NewMemory(|mems| + 1, key, value, category, importance, now)]
  }

  /** The stored row for a key, if any. */
  function Recall(mems: seq<Memory>, key: string): Option<Memory> {
    match FindMemory(mems, key)
    case Some(i) => Some(mems[i])
    case None => None
  }

  /**
   * After save_memory the key holds the new value and importance, stamped now;
   * its category is the old one if the key existed; every other key is as it was,
   * and there is still one row per key.
   */
  lemma UpsertMemoryRecall(mems: seq<Memory>, key: string, value: string, category: string, importance: int, now: int, other: string)
    requires MemoriesWellFormed(mems)
    requires other != key
    ensures var r := UpsertMemory(mems, key, value, category, importance, now);
      MemoriesWellFormed(r)
      && Recall(r, key).Some?
      && Recall(r, key).value.value == value
      && Recall(r, key).value.importance == importance
      && Recall(r, key).value.createdAt == now
      && Recall(r, key).value.category == (if Recall(mems, key).Some? then Recall(mems, key).value.category else category)
      && Recall(r, other) == Recall(mems, other)
      && |r| == (if Recall(mems, key).Some? then |mems| else |mems| + 1)
  {
    var r := UpsertMemory(mems, key, value, category, importance, now);
    match FindMemory(mems, key) {
      case Some(i) =>
        FindMemoryAt(r, key, i);
        OtherKeyUntouched(mems, r, i, other);
      case None =>
        FindMemoryAt(r, key, |mems|);
        OtherKeyUntouched(mems, r, |mems|, other);
    }
  }

  lemma FindMemoryAt(mems: seq<Memory>, key: string, k: nat)
    requires k < |mems| && mems[k].key == key
    requires forall j :: 0 <= j < k ==> mems[j].key != key
    ensures FindMemory(mems, key) == Some(k)
  {
  }

  /** Rows other than position `k` agree, and `k` holds a different key: `other`'s lookup is unchanged. */
  lemma OtherKeyUntouched(mems: seq<Memory>, r: seq<Memory>, k: nat, other: string)
    requires k <= |mems| && |r| >= |mems| && |r| <= |mems| + 1 && k < |r|
    requires |r| == |mems| + 1 ==> k == |mems|
    requires forall j :: 0 <= j < |mems| && j != k ==> r[j] == mems[j]
    requires r[k].key != other && (k < |mems| ==> mems[k].key != other)
    ensures Recall(r, other) == Recall(mems, other)
  {
    match FindMemory(mems, other) {
      case Some(j) => FindMemoryAt(r, other, j);
      case None =>
        assert forall j :: 0 <= j < |r| ==> r[j].key != other;
    }
  }

  /** Saving the same memory twice at the same instant is saving it once. */
  lemma UpsertMemoryIdempotent(mems: seq<Memory>, key: string, value: string, c1: string, c2: string, importance: int, now: int)
    requires MemoriesWellFormed(mems)
    ensures var once := UpsertMemory(mems, key, value, c1, importance, now);
      UpsertMemory(once, key, value, c2, importance, now) == once
  {
    var once := UpsertMemory(mems, key, value, c1, importance, now);
    match FindMemory(mems, key) {
      case Some(i) => FindMemoryAt(once, key, i);
      case None => FindMemoryAt(once, key, |mems|);
    }
  }

  /** One row of get_memories. */
  datatype MemoryView = MemoryView(key: string, value: string, category: string, importance: int)

  /** `ORDER BY importance DESC, created_at DESC` */
  function ByImportance(): (Memory, Memory) -> bool {
    (a: Memory, b: Memory) => a.importance > b.importance || (a.importance == b.importance && a.createdAt >= b.createdAt)
  }

  lemma ByImportanceOrder()
    ensures Total(ByImportance()) && Transitive(ByImportance())
  {
  }

  function InCategory(category: string): Memory -> bool {
    (m: Memory) => m.category == category
  }

  /** The rows get_memories returns: an empty or absent category means every category. */
  function SelectMemories(mems: seq<Memory>, category: Option<string>, limit: nat): seq<Memory> {
    var pool := if category.Some? && category.value != "" then Filter(mems, InCategory(category.value)) else mems;
    TopBy(pool, ByImportance(), limit)
  }

  /** `get_memories(category, limit)` */
  function GetMemories(mems: seq<Memory>, category: Option<string>, limit: nat): seq<MemoryView> {
    var rows := SelectMemories(mems, category, limit);
    seq(|rows|, i requires 0 <= i < |rows| => MemoryView(rows[i].key, rows[i].value, rows[i].category, rows[i].importance))
  }

  /**
   * get_memories lists at most `limit` rows of the asked category, most
   * important first (newest first among equals), and leaves out no row that
   * outranks one it lists.
   */
  lemma GetMemoriesRanked(mems: seq<Memory>, category: Option<string>, limit: nat)
    ensures var rows := SelectMemories(mems, category, limit);
      |rows| <= limit
      && (forall i :: 0 <= i < |rows| ==> rows[i] in mems)
      && (category.Some? && category.value != "" ==> forall i :: 0 <= i < |rows| ==> rows[i].category == category.value)
      && SortedBy(rows, ByImportance())
      && (forall m :: m in mems && m !in rows && (category.None? || category.value == "" || m.category == category.value) ==>
            forall i :: 0 <= i < |rows| ==> ByImportance()(rows[i], m))
  {
    var pool := if category.Some? && category.value != "" then Filter(mems, InCategory(category.value)) else mems;
    ByImportanceOrder();
    TopBySelects(pool, ByImportance(), limit);
    var rows := SelectMemories(mems, category, limit);
    forall m | m in mems && m !in rows && (category.None? || category.value == "" || m.category == category.value)
      ensures m in pool
    {
      if category.Some? && category.value != "" {
        FilterKeeps(mems, InCategory(category.value), m);
      }
    }
  }

  // -------------------------------------------------------------- searching

  /** One row of search_conversations. */
  datatype SearchHit = SearchHit(sessionId: string, title: string, content: string, timestamp: int)

  /**
   * SQLite's `LIKE` without an escape character: `%` matches any run of
   * characters, `_` any one character, and letters compare without regard
   * to ASCII case.
   */
  predicate Like(pattern: string, text: string)
    decreases |pattern| + |text|
  {
    if pattern == [] then text == []
    else if pattern[0] == '%' then Like(pattern[1..], text) || (text != [] && Like(pattern, text[1..]))
    else text != [] && (pattern[0] == '_' || LowerChar(pattern[0]) == LowerChar(text[0])) && Like(pattern[1..], text[1..])
  }

  /** `Message.content.contains(query)`: `content LIKE '%' || query || '%'`, the query's own `%` and `_` being wildcards. */
  function Mentions(query: string): Message -> bool {
    (m: Message) => Like("%" + query + "%", m.content)
  }

  /** A query without `%` or `_`. */
  predicate Literal(query: string) {
    forall i :: 0 <= i < |query| ==> query[i] != '%' && query[i] != '_'
  }

  /** A trailing `%` matches whatever is left. */
  lemma {:induction false} LikeAnyRest(t: string)
    ensures Like("%", t)
    decreases |t|
  {
    assert "%"[1..] == "";
    if t != [] {
      LikeAnyRest(t[1..]);
    }
  }

  /** `query%` matches exactly the texts that start with `query`, up to case. */
  lemma {:induction false} LikePrefix(query: string, t: string)
    requires Literal(query)
    ensures Like(query + "%", t) <==> Lower(query) <= Lower(t)
    decreases |query|
  {
    if query == [] {
      assert query + "%" == "%";
      LikeAnyRest(t);
    } else {
      var pattern := query + "%";
      assert pattern[0] == query[0] && pattern[1..] == query[1..] + "%";
      assert Literal(query[1..]) by {
        forall i | 0 <= i < |query[1..]| ensures query[1..][i] != '%' && query[1..][i] != '_' {
          assert query[1..][i] == query[i + 1];
        }
      }
      if t != [] {
        LikePrefix(query[1..], t[1..]);
        assert Lower(query)[1..] == Lower(query[1..]) && Lower(t)[1..] == Lower(t[1..]);
      }
    }
  }

  /**
   * For a query without wildcards, the search is a substring test that
   * ignores ASCII case.
   */
  lemma {:induction false} MentionsLiteral(query: string, t: string)
    requires Literal(query)
    ensures Like("%" + query + "%", t) <==> Contains(Lower(t), Lower(query))
    decreases |t|
  {
    var pattern := "%" + query + "%";
    assert pattern[0] == '%' && pattern[1..] == query + "%";
    LikePrefix(query, t);
    if t != [] {
      MentionsLiteral(query, t[1..]);
      assert Lower(t)[1..] == Lower(t[1..]);
    }
  }

  /** The queries "%" and "" match every message, whatever its content. */
  lemma MentionsWildcard(m: Message)
    ensures Mentions("%")(m) && Mentions("")(m)
  {
    var t := m.content;
    LikeAnyRest(t);
    assert "%%"[0] == '%' && "%%"[1..] == "%";
    assert Like("%%", t);
    assert "%" + "" + "%" == "%%";
    var all := "%" + "%" + "%";
    assert all[0] == '%' && all[1..] == "%%";
    assert Like(all, t);
  }

  function Reverse<T>(s: seq<T>): (r: seq<T>)
    ensures |r| == |s|
    ensures forall i :: 0 <= i < |s| ==> r[i] == s[|s| - 1 - i]
  {
    if s == [] then [] else Reverse(s[1..]) + [s[0]]
  }

  /** The matching messages search_conversations returns, newest first. */
  function SearchRows(msgs: seq<Message>, query: string, limit: nat): seq<Message> {
    Take(Reverse(Filter(msgs, Mentions(query))), limit)
  }

  /** The hit a message gives: its conversation's session and title, and the content cut to 200 characters. */
  function HitFor(convs: seq<Conversation>, m: Message): SearchHit
    requires 1 <= m.conversationId <= |convs|
  {
    var c := convs[m.conversationId - 1];
    SearchHit(c.sessionId, c.title, Ellipsize(m.content, 200), m.timestamp)
  }

  /** `search_conversations(query, limit)` */
  function SearchConversations(convs: seq<Conversation>, msgs: seq<Message>, query: string, limit: nat): seq<SearchHit>
    requires WellFormed(convs, msgs)
  {
    var rows := SearchRows(msgs, query, limit);
    assert forall i :: 0 <= i < |rows| ==> rows[i] in msgs by {
      forall i | 0 <= i < |rows| ensures rows[i] in msgs {
        assert rows[i] in Filter(msgs, Mentions(query));
      }
    }
    seq(|rows|, i requires 0 <= i < |rows| => HitFor(convs, rows[i]))
  }

  /** How many messages of the store match the query. */
  function MatchCount(msgs: seq<Message>, query: string): nat {
    |Filter(msgs, Mentions(query))|
  }

  /**
   * The hits are the newest matching messages, one hit each: as many as
   * `limit` allows, each from a message that matches the query, with its
   * content at most 203 characters, newest first, and every matching
   * message newer than a hit has a hit of its own.
   */
  lemma SearchHitsNewestFirst(convs: seq<Conversation>, msgs: seq<Message>, query: string, limit: nat)
    requires WellFormed(convs, msgs)
    ensures var r := SearchConversations(convs, msgs, query, limit);
      |r| == (if limit < MatchCount(msgs, query) then limit else MatchCount(msgs, query))
      && (forall i :: 0 <= i < |r| ==> |r[i].content| <= 203)
      && (forall i :: 0 <= i < |r| ==> HitOf(r[i], convs, msgs, query))
      && (forall i, j :: 0 <= i < j < |r| ==> r[i].timestamp >= r[j].timestamp)
      && (forall m, i :: m in msgs && Mentions(query)(m) && 0 <= i < |r| && m.timestamp > r[i].timestamp ==>
            HitFor(convs, m) in r)
  {
    SearchRowsNewestFirst(msgs, query, limit);
    HitsMatch(convs, msgs, query, limit);
    HitsComplete(convs, msgs, query, limit);
  }

  /** Each hit is the hit of a matching message, cut to 200 characters and "...". */
  lemma HitsMatch(convs: seq<Conversation>, msgs: seq<Message>, query: string, limit: nat)
    requires WellFormed(convs, msgs)
    ensures var r := SearchConversations(convs, msgs, query, limit);
      (forall i :: 0 <= i < |r| ==> |r[i].content| <= 203)
      && (forall i :: 0 <= i < |r| ==> HitOf(r[i], convs, msgs, query))
  {
    var rows := SearchRows(msgs, query, limit);
    SearchRowsNewestFirst(msgs, query, limit);
    var r := SearchConversations(convs, msgs, query, limit);
    forall i | 0 <= i < |r| ensures HitOf(r[i], convs, msgs, query) {
      assert rows[i] in msgs && Mentions(query)(rows[i]);
    }
  }

  /** Every matching message newer than a listed hit has its own hit listed. */
  lemma HitsComplete(convs: seq<Conversation>, msgs: seq<Message>, query: string, limit: nat)
    requires WellFormed(convs, msgs)
    ensures var r := SearchConversations(convs, msgs, query, limit);
      forall m, i :: m in msgs && Mentions(query)(m) && 0 <= i < |r| && m.timestamp > r[i].timestamp ==>
        HitFor(convs, m) in r
  {
    var rows := SearchRows(msgs, query, limit);
    SearchRowsNewestFirst(msgs, query, limit);
    var r := SearchConversations(convs, msgs, query, limit);
    assert forall i :: 0 <= i < |r| ==> r[i] == HitFor(convs, rows[i]);
    forall m, i | m in msgs && Mentions(query)(m) && 0 <= i < |r| && m.timestamp > r[i].timestamp
      ensures HitFor(convs, m) in r
    {
      assert m in rows;
      var k :| 0 <= k < |rows| && rows[k] == m;
      assert r[k] == HitFor(convs, m);
    }
  }

  /**
   * The rows are the newest matching messages: as many as `limit` allows,
   * each a matching message of the store, newest first, and every matching
   * message newer than a listed one is listed too.
   */
  lemma SearchRowsNewestFirst(msgs: seq<Message>, query: string, limit: nat)
    requires Chronological(msgs)
    ensures var rows := SearchRows(msgs, query, limit);
      |rows| == (if limit < MatchCount(msgs, query) then limit else MatchCount(msgs, query))
      && (forall i :: 0 <= i < |rows| ==> rows[i] in msgs && Mentions(query)(rows[i]))
      && (forall i, j :: 0 <= i < j < |rows| ==> rows[i].timestamp >= rows[j].timestamp)
      && (forall m, i :: m in msgs && Mentions(query)(m) && 0 <= i < |rows| && m.timestamp > rows[i].timestamp ==> m in rows)
  {
    var f := Filter(msgs, Mentions(query));
    FilterChronological(msgs, Mentions(query));
    NewestOf(f, limit);
    var rows := SearchRows(msgs, query, limit);
    assert rows == Take(Reverse(f), limit);
    forall m | m in msgs && Mentions(query)(m) ensures m in f {
      FilterKeeps(msgs, Mentions(query), m);
    }
  }

  /** The first `limit` of a time-ordered list reversed: newest first, and nothing newer left out. */
  lemma NewestOf(f: seq<Message>, limit: nat)
    requires Chronological(f)
    ensures var rows := Take(Reverse(f), limit);
      (forall i :: 0 <= i < |rows| ==> rows[i] in f)
      && (forall i, j :: 0 <= i < j < |rows| ==> rows[i].timestamp >= rows[j].timestamp)
      && (forall m, i :: m in f && 0 <= i < |rows| && m.timestamp > rows[i].timestamp ==> m in rows)
  {
    var rows := Take(Reverse(f), limit);
    assert forall i :: 0 <= i < |rows| ==> rows[i] == f[|f| - 1 - i];
    forall m, i | m in f && 0 <= i < |rows| && m.timestamp > rows[i].timestamp
      ensures m in rows
    {
      var j :| 0 <= j < |f| && f[j] == m;
      assert j > |f| - 1 - i;
      assert rows[|f| - 1 - j] == f[j];
    }
  }

  /** `h` reports a message of the store that matches `query`. */
  predicate HitOf(h: SearchHit, convs: seq<Conversation>, msgs: seq<Message>, query: string)
    requires WellFormed(convs, msgs)
  {
    exists m :: m in msgs && Mentions(query)(m) && h == HitFor(convs, m)
  }

  // ------------------------------------------------------------- the store

  /** The database behind MemoryManager. */
  class MemoryManager {
    var conversations: seq<Conversation>
    var messages: seq<Message>
    var memories: seq<Memory>

    ghost predicate Valid()
      reads this
    {
      WellFormed(conversations, messages) && MemoriesWellFormed(memories)
    }

    /** The clock reading `now` is not earlier than the newest message. */
    predicate ClockAllows(now: int)
      reads this
    {
      messages == [] || messages[|messages| - 1].timestamp <= now
    }

    /** A fresh, empty database. */
    constructor ()
      ensures Valid()
      ensures conversations == [] && messages == [] && memories == []
    {
      conversations, messages, memories := [], [], [];
    }

    /** `create_session`: a new active conversation titled with the default title; `sessionId` is the uuid4 draw. */
    method CreateSession(sessionId: string, now: int) returns (sid: string)
      requires Valid()
      modifies this
      ensures Valid()
      ensures sid == sessionId
      ensures conversations == old(conversations) + [NewConversation(|old(conversations)| + 1, sessionId, DefaultTitle, now)]
      ensures messages == old(messages) && memories == old(memories)
    {
      conversations := conversations + [NewConversation(|conversations| + 1, sessionId, DefaultTitle, now)];
      sid := sessionId;
    }

    /** `save_message`: appends the message, creating the session's conversation when it is unknown. */
    method SaveMessage(sessionId: string, role: string, content: string, now: int)
      requires Valid() && ClockAllows(now)
      modifies this
      ensures Valid()
      ensures conversations == SavedConversations(old(conversations), sessionId, content, now)
      ensures messages == SavedMessages(old(conversations), old(messages), sessionId, role, content, now)
      ensures memories == old(memories)
    {
      SavedWellFormed(conversations, messages, sessionId, role, content, now);
      var id := TargetId(conversations, sessionId);
      messages := messages + [NewMessage(|messages| + 1, id, role, content, now, |Words(content)|)];
      conversations := SavedConversations(conversations, sessionId, content, now);
    }

    /** `save_memory` */
    method SaveMemory(key: string, value: string, category: string, importance: int, now: int)
      requires Valid()
      modifies this
      ensures Valid()
      ensures memories == UpsertMemory(old(memories), key, value, category, importance, now)
      ensures conversations == old(conversations) && messages == old(messages)
    {
      UpsertMemoryRecall(memories, key, value, category, importance, now, key + "?");
      memories := UpsertMemory(memories, key, value, category, importance, now);
    }

    /** `get_conversation_history` */
    function GetConversationHistory(sessionId: string, limit: nat): (h: seq<HistoryEntry>)
      reads this
      requires Valid()
      ensures |h| <= limit
      ensures FindConversation(conversations, sessionId).None? ==> h == []
      ensures forall i, j :: 0 <= i < j < |h| ==> h[i].timestamp <= h[j].timestamp
    {
      HistoryShape(conversations, messages, sessionId, limit);
      History(conversations, messages, sessionId, limit)
    }

    /** `get_memories` */
    function GetMemoriesOf(category: Option<string>, limit: nat): (views: seq<MemoryView>)
      reads this
      ensures |views| <= limit
      ensures category.Some? && category.value != "" ==> forall i :: 0 <= i < |views| ==> views[i].category == category.value
      ensures forall i, j :: 0 <= i < j < |views| ==> views[i].importance >= views[j].importance
    {
      GetMemoriesRanked(memories, category, limit);
      GetMemories(memories, category, limit)
    }
  }
}
