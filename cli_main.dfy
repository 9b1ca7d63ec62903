/**
 * The terminal front end (cli/main.py): the slash-command parser and the
 * chat loop that drives the conversation manager. Console output, the
 * personality sliders, the web search and the voice are outside the model;
 * what they return is part of each input line.
 */
module CliMain {
  import opened Common
  import opened Text
  import opened Models
  import opened MemoryStore
  import opened LlmEngine
  import opened ConversationContext

  // ------------------------------------------------------- handle_command

  /** What a slash command asks for. `Usage` is a command that only prints how to use it. */
  datatype Command =
    | Help
    | ListModels
    | ShowHistory
    | SearchHistory(query: string)
    | ShowMemory
    | WebSearch(question: string)
    | News(topic: string)
    | Weather(city: string)
    | FetchUrl(url: string)
    | Compare(question: string)
    | VoiceConversation
    | Speak(text: string)
    | Listen
    | ShowMood
    | Feel(emotion: string, amount: string)
    | QuickMood(mood: string)
    | ResetMood
    | NewSession
    | ClearSession
    | Quit
    | Usage(message: string)
    | Unknown(command: string)

  const SearchUsage: string := "لطفاً متن جستجو را وارد کنید: /search <متن>"
  const WebUsage: string := "لطفاً سوال خود را وارد کنید: /web <سوال>"
  const UrlUsage: string := "لطفاً آدرس وب را وارد کنید: /url <آدرس>"
  const CompareUsage: string := "لطفاً سوال خود را وارد کنید: /compare <سوال>"
  const SpeakUsage: string := "لطفاً متن را وارد کنید: /speak <متن>"
  const FeelUsage: string := "استفاده: /feel <احساس> <مقدار>"

  const QuickMoods: seq<string> := ["happy", "sad", "excited", "serious", "funny"]

  /** The branch of `handle_command` for a lowercased command word and its arguments. */
  function Dispatch(command: string, args: string): Command {
    if command == "help" then Help
    else if command == "models" then ListModels
    else if command == "history" then ShowHistory
    else if command == "search" then (if args != "" then SearchHistory(args) else Usage(SearchUsage))
    else if command == "memory" then ShowMemory
    else if command == "web" then (if args != "" then WebSearch(args) else Usage(WebUsage))
    else if command == "news" then News(if args != "" then args else "Iran")
    else if command == "weather" then Weather(if args != "" then args else "Tehran")
    else if command == "url" then (if args != "" then FetchUrl(args) else Usage(UrlUsage))
    else if command == "compare" then (if args != "" then Compare(args) else Usage(CompareUsage))
    else if command == "voice" then VoiceConversation
    else if command == "speak" then (if args != "" then Speak(args) else Usage(SpeakUsage))
    else if command == "listen" then Listen
    else if command == "mood" then ShowMood
    else if command == "feel" then
      (if args == "" then Usage(FeelUsage)
       else
         var parts := SplitFirst(args, ' ');
         if parts.1.Some? then Feel(parts.0, parts.1.value) else Usage(FeelUsage))
    else if command in QuickMoods then QuickMood(command)
    else if command == "reset_mood" then ResetMood
    else if command == "new" then NewSession
    else if command == "clear" then ClearSession
    else if command == "quit" then Quit
    else Unknown(command)
  }

  /**
   * `handle_command`: `None` for text that is not a command (the Python
   * method's False). Every input starting with "/" is handled.
   */
  function HandleCommand(input: string): (r: Option<Command>)
    ensures r.Some? <==> |input| > 0 && input[0] == '/'
  {
    if |input| > 0 && input[0] == '/' then
      var parts := SplitFirst(input[1..], ' ');
      Some(Dispatch(Lower(parts.0), parts.1.GetOr("")))
    else None
  }

  /**
   * The command word is the lowercased text between "/" and the first space,
   * and the arguments are everything after that space, or "" without one.
   */
  lemma CommandSplit(input: string, word: string, args: string)
    requires ' ' !in word && input == "/" + word + " " + args
    ensures HandleCommand(input) == Some(Dispatch(Lower(word), args))
  {
    assert input[1..] == word + [' '] + args;
    SplitFirstAt(word, ' ', args);
  }

  /** Without a space the whole text after "/" is the command word and the arguments are "". */
  lemma BareCommand(input: string, word: string)
    requires ' ' !in word && input == "/" + word
    ensures HandleCommand(input) == Some(Dispatch(Lower(word), ""))
  {
    assert input[1..] == word;
  }

  /** `/news` and `/weather` fall back to "Iran" and "Tehran"; the commands that need an argument only show their usage without one. */
  lemma DispatchDefaults(args: string)
    requires args != ""
    ensures Dispatch("news", "") == News("Iran") && Dispatch("news", args) == News(args)
    ensures Dispatch("weather", "") == Weather("Tehran") && Dispatch("weather", args) == Weather(args)
    ensures Dispatch("search", "") == Usage(SearchUsage) && Dispatch("web", "") == Usage(WebUsage)
    ensures Dispatch("url", "") == Usage(UrlUsage) && Dispatch("compare", "") == Usage(CompareUsage)
    ensures Dispatch("speak", "") == Usage(SpeakUsage)
  {
  }

  /** The command word is matched in any letter case: "/NEWS x" asks for the news on x. */
  lemma CommandAnyCase(input: string, args: string)
    requires args != "" && input == "/NEWS " + args
    ensures HandleCommand(input) == Some(News(args))
  {
    assert Lower("NEWS") == "news";
    CommandSplit(input, "NEWS", args);
  }

  /** `/new` and `/clear` both start a session. */
  lemma NewAndClear()
    ensures HandleCommand("/new") == Some(NewSession) && HandleCommand("/clear") == Some(ClearSession)
  {
    assert Lower("new") == "new" && Dispatch("new", "") == NewSession;
    BareCommand("/new", "new");
    assert Lower("clear") == "clear" && Dispatch("clear", "") == ClearSession;
    BareCommand("/clear", "clear");
  }

  // ---------------------------------------------------------- one chat turn

  /** A result of the web search: its title and text. */
  datatype WebResult = WebResult(title: string, content: string)

  /** Everything the environment contributes to one line of the chat loop. */
  datatype LoopInput = LoopInput(
    text: string,
    freshId: string,            // the uuid4 draw, should a session be started
    now: int,
    webResults: seq<WebResult>, // what the web search returns (at most three)
    personalityPrompt: string,
    outcome: ClientOutcome)     // what the Ollama client does with the request

  const SearchKeywords: seq<string> := ["جستجو کن", "search", "اینترنت", "آخرین اخبار"]
  const WebHeader: string := "نتایج جستجو در اینترنت:\n"

  predicate WantsSearch(text: string) { ContainsAny(Lower(text), SearchKeywords) }

  function WebLine(r: WebResult): string {
    "- " + r.title + ": " + Take(r.content, 200) + "...\n"
  }

  function WebLines(rs: seq<WebResult>): string {
    if rs == [] then "" else WebLines(rs[..|rs| - 1]) + WebLine(rs[|rs| - 1])
  }

  /** The system turn that carries the search results. */
  function WebContext(rs: seq<WebResult>): string { WebHeader + WebLines(rs) }

  /** The store after the user turn and, when a search ran and found something, the search turn. */
  function TurnStore(st: Store, inp: LoopInput): Store {
    var s1 := Added(st, "user", inp.text, inp.freshId, inp.now);
    if WantsSearch(inp.text) && inp.webResults != [] then Added(s1, "system", WebContext(inp.webResults), inp.freshId, inp.now)
    else s1
  }

  /** The conversation handed to the model: the personality prompt, then the enhanced context. */
  function TurnPrompt(st: Store, personalityPrompt: string): seq<ChatMessage> {
    [ChatMessage("system", personalityPrompt, None)] + EnhancedContext(st.convs, st.msgs, st.mems, st.session)
  }

  /** What one chat turn leaves behind. */
  datatype TurnOutcome = TurnOutcome(store: Store, request: Option<seq<Turn>>, reply: Option<string>, raised: Option<string>)

  const NameErrorText: string := "name 'ChatMessage' is not defined"

  /**
   * The turn as written: `ChatMessage` is not imported into cli/main.py, so
   * building the personality turn raises NameError, which no handler of the
   * loop catches. The user (and search) turns are stored; no request is made.
   */
  function AsWrittenTurn(st: Store, inp: LoopInput): TurnOutcome {
    TurnOutcome(TurnStore(st, inp), None, None, Some(NameErrorText))
  }

  /** The turn as intended: the request is sent and the styled reply is stored as the assistant turn. */
  function CorrectedTurn(st: Store, inp: LoopInput, style: string -> string): TurnOutcome {
    var mid := TurnStore(st, inp);
    var reply := style(ChatReply(inp.outcome));
    TurnOutcome(Added(mid, "assistant", reply, inp.freshId, inp.now), Some(ChatRequest(TurnPrompt(mid, inp.personalityPrompt))), Some(reply), None)
  }

  lemma TurnStoreAppends(st: Store, inp: LoopInput)
    requires StoreWellFormed(st) && ClockAt(st, inp.now)
    ensures var r := TurnStore(st, inp);
      var n := if WantsSearch(inp.text) && inp.webResults != [] then 2 else 1;
      StoreWellFormed(r) && ClockAt(r, inp.now)
      && |r.msgs| == |st.msgs| + n && r.msgs[..|st.msgs|] == st.msgs
      && r.msgs[|st.msgs|].role == "user" && r.msgs[|st.msgs|].content == inp.text
      && (n == 2 ==> r.msgs[|st.msgs| + 1].role == "system" && r.msgs[|st.msgs| + 1].content == WebContext(inp.webResults))
  {
    var s1 := Added(st, "user", inp.text, inp.freshId, inp.now);
    AddedAppendsTurn(st, "user", inp.text, inp.freshId, inp.now);
    if WantsSearch(inp.text) && inp.webResults != [] {
      AddedAppendsTurn(s1, "system", WebContext(inp.webResults), inp.freshId, inp.now);
      PrefixOfPrefix(st.msgs, s1.msgs, TurnStore(st, inp).msgs);
    }
  }

  /**
   * As written, a chat turn stores the user's line (and the search results)
   * and then fails: it sends nothing to the model and stores no reply.
   */
  lemma AsWrittenTurnNeverAnswers(st: Store, inp: LoopInput)
    requires StoreWellFormed(st) && ClockAt(st, inp.now)
    ensures var r := AsWrittenTurn(st, inp);
      r.raised == Some(NameErrorText) && r.request.None? && r.reply.None?
      && |r.store.msgs| > |st.msgs| && r.store.msgs[|st.msgs|].role == "user"
      && forall i :: |st.msgs| <= i < |r.store.msgs| ==> r.store.msgs[i].role != "assistant"
  {
    TurnStoreAppends(st, inp);
  }

  /**
   * The corrected turn sends the personality prompt first and then the
   * enhanced context unchanged: the engine adds no prompt of its own, as the
   * conversation already has a system turn. With memories stored, the digest
   * comes second.
   */
  lemma CorrectedTurnPrompt(st: Store, inp: LoopInput, style: string -> string)
    requires StoreWellFormed(st) && ClockAt(st, inp.now)
    ensures var r := CorrectedTurn(st, inp, style);
      var mid := TurnStore(st, inp);
      var req := r.request.value;
      r.raised.None? && r.request.Some?
      && req == Plain(TurnPrompt(mid, inp.personalityPrompt))
      && req[0] == Turn("system", inp.personalityPrompt)
      && req[1..] == Plain(EnhancedContext(mid.convs, mid.msgs, mid.mems, mid.session))
      && (mid.mems != [] ==> req[1] == Turn("system", MemoryDigest(GetMemories(mid.mems, None, ContextMemories))))
  {
    var mid := TurnStore(st, inp);
    TurnStoreAppends(st, inp);
    var prompt := TurnPrompt(mid, inp.personalityPrompt);
    assert prompt[0].role == "system";
    HasSystemIff(prompt);
    EnhancedContextShape(mid.convs, mid.msgs, mid.mems, mid.session);
    PlainTail(prompt);
  }

  /** The last turn the model sees is the one just stored: the search results when there are any, else the user's line. */
  lemma CorrectedTurnEndsWithLatest(st: Store, inp: LoopInput, style: string -> string)
    requires StoreWellFormed(st) && ClockAt(st, inp.now)
    requires IsSession(st.session)
    ensures var req := CorrectedTurn(st, inp, style).request.value;
      req[|req| - 1] == (if WantsSearch(inp.text) && inp.webResults != [] then Turn("system", WebContext(inp.webResults))
                         else Turn("user", inp.text))
  {
    var mid := TurnStore(st, inp);
    if WantsSearch(inp.text) && inp.webResults != [] {
      SearchTurnEndsContext(st, inp);
    } else {
      LineTurnEndsContext(st, inp);
    }
    PromptEndsWithHistory(mid, inp.personalityPrompt);
    CorrectedTurnPrompt(st, inp, style);
  }

  /** After a search that found something, the session's context ends with the search turn. */
  lemma SearchTurnEndsContext(st: Store, inp: LoopInput)
    requires StoreWellFormed(st) && ClockAt(st, inp.now)
    requires IsSession(st.session) && WantsSearch(inp.text) && inp.webResults != []
    ensures var mid := TurnStore(st, inp);
      var h := ContextOf(mid.convs, mid.msgs, mid.session);
      WellFormed(mid.convs, mid.msgs) && |h| > 0 && h[|h| - 1] == ChatMessage("system", WebContext(inp.webResults), Some(inp.now))
  {
    var s1 := Added(st, "user", inp.text, inp.freshId, inp.now);
    AddedAppendsTurn(st, "user", inp.text, inp.freshId, inp.now);
    AddedEndsWith(s1, "system", WebContext(inp.webResults), inp.freshId, inp.now);
    assert TurnStore(st, inp) == Added(s1, "system", WebContext(inp.webResults), inp.freshId, inp.now);
  }

  /** Otherwise it ends with the user's line. */
  lemma LineTurnEndsContext(st: Store, inp: LoopInput)
    requires StoreWellFormed(st) && ClockAt(st, inp.now)
    requires IsSession(st.session) && !(WantsSearch(inp.text) && inp.webResults != [])
    ensures var mid := TurnStore(st, inp);
      var h := ContextOf(mid.convs, mid.msgs, mid.session);
      WellFormed(mid.convs, mid.msgs) && |h| > 0 && h[|h| - 1] == ChatMessage("user", inp.text, Some(inp.now))
  {
    AddedEndsWith(st, "user", inp.text, inp.freshId, inp.now);
    assert TurnStore(st, inp) == Added(st, "user", inp.text, inp.freshId, inp.now);
  }

  lemma AddedEndsWith(st: Store, role: string, content: string, freshId: string, now: int)
    requires StoreWellFormed(st) && ClockAt(st, now)
    requires IsSession(st.session)
    ensures var r := Added(st, role, content, freshId, now);
      var h := ContextOf(r.convs, r.msgs, r.session);
      WellFormed(r.convs, r.msgs) && |h| > 0 && h[|h| - 1] == ChatMessage(role, content, Some(now))
  {
    AddedAppendsTurn(st, role, content, freshId, now);
    AddedContextEndsWithTurn(st, role, content, freshId, now);
  }

  lemma PromptEndsWithHistory(mid: Store, personalityPrompt: string)
    requires WellFormed(mid.convs, mid.msgs)
    requires |ContextOf(mid.convs, mid.msgs, mid.session)| > 0
    ensures var prompt := TurnPrompt(mid, personalityPrompt);
      var h := ContextOf(mid.convs, mid.msgs, mid.session);
      var req := Plain(prompt);
      req[|req| - 1] == Turn(h[|h| - 1].role, h[|h| - 1].content)
  {
    EnhancedContextShape(mid.convs, mid.msgs, mid.mems, mid.session);
    var ctx := EnhancedContext(mid.convs, mid.msgs, mid.mems, mid.session);
    var h := ContextOf(mid.convs, mid.msgs, mid.session);
    assert ctx[|ctx| - 1] == h[|h| - 1];
  }

  /** The styled reply is stored last, as the assistant turn, after the turns stored before the request. */
  lemma CorrectedTurnStoresReply(st: Store, inp: LoopInput, style: string -> string)
    requires StoreWellFormed(st) && ClockAt(st, inp.now)
    ensures var r := CorrectedTurn(st, inp, style);
      var mid := TurnStore(st, inp);
      r.reply == Some(style(ChatReply(inp.outcome)))
      && |r.store.msgs| == |mid.msgs| + 1 && r.store.msgs[..|mid.msgs|] == mid.msgs
      && r.store.msgs[|mid.msgs|].role == "assistant" && r.store.msgs[|mid.msgs|].content == r.reply.value
      && StoreWellFormed(r.store) && ClockAt(r.store, inp.now)
  {
    var mid := TurnStore(st, inp);
    TurnStoreAppends(st, inp);
    AddedAppendsTurn(mid, "assistant", style(ChatReply(inp.outcome)), inp.freshId, inp.now);
  }

  lemma PlainTail(ms: seq<ChatMessage>)
    requires |ms| > 0
    ensures Plain(ms)[1..] == Plain(ms[1..])
  {
  }

  // ------------------------------------------------------------- chat_loop

  /**
   * The line ends the loop: a handled command (a line starting with "/", the
   * lines `HandleCommand` answers) whose whole lowercased text is "/quit".
   */
  predicate Stops(inp: LoopInput) {
    Strip(inp.text) != "" && |inp.text| > 0 && inp.text[0] == '/' && Lower(inp.text) == "/quit"
  }

  /** What one line that does not end the loop does to the store. */
  function Step(st: Store, inp: LoopInput, style: string -> string): Store {
    if Strip(inp.text) == "" then st
    else match HandleCommand(inp.text)
      case Some(c) => if c == NewSession || c == ClearSession then Started(st, inp.freshId, inp.now) else st
      case None => CorrectedTurn(st, inp, style).store
  }

  /** The lines the loop handles: those before the first line that ends it. */
  function Handled(inputs: seq<LoopInput>): (n: nat)
    ensures n <= |inputs|
  {
    FirstIndex(inputs, Stops)
  }

  /** The store after each of `lines` in turn. */
  function Lines(st: Store, lines: seq<LoopInput>, style: string -> string): Store {
    if lines == [] then st else Step(Lines(st, lines[..|lines| - 1], style), lines[|lines| - 1], style)
  }

  /** The store after the loop has read `inputs`. */
  function Run(st: Store, inputs: seq<LoopInput>, style: string -> string): Store {
    Lines(st, inputs[..Handled(inputs)], style)
  }

  /** How many lines the loop reads: the handled ones and the line that ends it, if any. */
  function Consumed(inputs: seq<LoopInput>): nat {
    if Handled(inputs) < |inputs| then Handled(inputs) + 1 else |inputs|
  }

  /** "quit" is the last word tried, whatever the arguments. */
  lemma DispatchQuit(args: string)
    ensures Dispatch("quit", args) == Quit
  {
  }

  /** "/quit" in any letter case ends the loop. */
  lemma QuitAnyCase(inp: LoopInput, word: string)
    requires ' ' !in word && Lower(word) == "quit"
    requires inp.text == "/" + word
    ensures HandleCommand(inp.text) == Some(Quit) && Stops(inp)
  {
    QuitWordIsQuit(inp.text, word);
    QuitWordStops(inp, word);
  }

  lemma QuitWordIsQuit(text: string, word: string)
    requires ' ' !in word && Lower(word) == "quit"
    requires text == "/" + word
    ensures HandleCommand(text) == Some(Quit)
  {
    BareCommand(text, word);
    DispatchQuit("");
  }

  lemma QuitWordStops(inp: LoopInput, word: string)
    requires Lower(word) == "quit"
    requires inp.text == "/" + word
    ensures Stops(inp)
  {
    SlashNotSpace();
    StripNonEmpty(inp.text);
    LowerSlashQuit(word);
  }

  lemma SlashNotSpace()
    ensures !IsSpace('/')
  {
  }

  lemma LowerSlashQuit(word: string)
    requires Lower(word) == "quit"
    ensures Lower("/" + word) == "/quit"
  {
    LowerAppend("/", word);
    assert Lower("/") == "/";
  }

  /** "/quit" followed by arguments is handled as the quit command, but the loop goes on. */
  lemma QuitWithArgumentsContinues(inp: LoopInput, args: string)
    requires inp.text == "/quit " + args
    ensures HandleCommand(inp.text) == Some(Quit) && !Stops(inp)
  {
    QuitArgumentsIsQuit(inp.text, args);
    assert |Lower(inp.text)| == |inp.text| > 5;
  }

  lemma QuitArgumentsIsQuit(text: string, args: string)
    requires text == "/quit " + args
    ensures HandleCommand(text) == Some(Quit)
  {
    CommandSplit(text, "quit", args);
    LowerQuit();
    DispatchQuit(args);
  }

  lemma LowerQuit()
    ensures Lower("quit") == "quit"
  {
  }

  /** The clock readings of the lines never go back and start at or after `t`. */
  predicate ClockRuns(inputs: seq<LoopInput>, t: int) {
    (forall i :: 0 <= i < |inputs| ==> t <= inputs[i].now)
    && forall i, j :: 0 <= i < j < |inputs| ==> inputs[i].now <= inputs[j].now
  }

  lemma ClockNext(inputs: seq<LoopInput>, t: int, i: nat)
    requires ClockRuns(inputs, t) && i + 1 < |inputs|
    ensures inputs[i].now <= inputs[i + 1].now
  {
  }

  class PersonalAI {
    const llm: Engine
    const conversation: ConversationManager

    ghost predicate Valid()
      reads this, conversation, conversation.memory
    {
      conversation.Valid()
    }

    constructor (modelName: string, host: string)
      ensures Valid() && fresh(conversation) && fresh(conversation.memory)
      ensures conversation.State() == Store([], [], [], None)
      ensures llm.modelName == modelName && llm.host == host
    {
      llm := new Engine(modelName, host);
      conversation := new ConversationManager();
    }

    /** The loop of `chat_loop` that lists the search results. */
    static method BuildWebContext(results: seq<WebResult>) returns (text: string)
      ensures text == WebContext(results)
    {
      text := WebHeader;
      var i := 0;
      while i < |results|
        invariant 0 <= i <= |results|
        invariant text == WebHeader + WebLines(results[..i])
      {
        var r := results[i];
        assert results[..i + 1][..i] == results[..i];
        text := text + ("- " + r.title + ": " + Take(r.content, 200) + "...\n");
        i := i + 1;
      }
      assert results[..i] == results;
    }

    /** The part of a chat turn before the request: the user's line, then the search results. */
    method StoreUserTurn(inp: LoopInput)
      requires Valid() && conversation.memory.ClockAllows(inp.now)
      modifies conversation, conversation.memory
      ensures Valid() && conversation.memory == old(conversation.memory)
      ensures conversation.memory.ClockAllows(inp.now)
      ensures conversation.State() == TurnStore(old(conversation.State()), inp)
    {
      ghost var st := conversation.State();
      AddedAppendsTurn(st, "user", inp.text, inp.freshId, inp.now);
      conversation.AddMessage("user", inp.text, inp.freshId, inp.now);
      if WantsSearch(inp.text) && inp.webResults != [] {
        var webContext := BuildWebContext(inp.webResults);
        AddedAppendsTurn(conversation.State(), "system", webContext, inp.freshId, inp.now);
        conversation.AddMessage("system", webContext, inp.freshId, inp.now);
      }
    }

    /** One chat turn of `chat_loop`, with `ChatMessage` in scope. */
    method ChatTurn(inp: LoopInput, style: string -> string) returns (request: seq<Turn>, reply: string)
      requires Valid() && conversation.memory.ClockAllows(inp.now)
      modifies conversation, conversation.memory
      ensures Valid() && conversation.memory == old(conversation.memory)
      ensures conversation.memory.ClockAllows(inp.now)
      ensures TurnOutcome(conversation.State(), Some(request), Some(reply), None) == CorrectedTurn(old(conversation.State()), inp, style)
    {
      StoreUserTurn(inp);
      ghost var mid := conversation.State();
      var context := conversation.GetEnhancedContext();
      context := [ChatMessage("system", inp.personalityPrompt, None)] + context;
      var response;
      request, response := llm.Chat(context, inp.outcome);
      reply := style(response);
      AddedAppendsTurn(mid, "assistant", reply, inp.freshId, inp.now);
      conversation.AddMessage("assistant", reply, inp.freshId, inp.now);
    }

    /** What `chat_loop` does with one line that does not end it. */
    method HandleLine(inp: LoopInput, style: string -> string)
      requires Valid() && conversation.memory.ClockAllows(inp.now)
      modifies conversation, conversation.memory
      ensures Valid() && conversation.memory == old(conversation.memory)
      ensures conversation.memory.ClockAllows(inp.now)
      ensures conversation.State() == Step(old(conversation.State()), inp, style)
    {
      if Strip(inp.text) == "" {
        return;
      }
      var command := HandleCommand(inp.text);
      if command.Some? {
        if command.value == NewSession || command.value == ClearSession {
          var _ := conversation.StartNewSession(inp.freshId, inp.now);
        }
      } else {
        var _, _ := ChatTurn(inp, style);
      }
    }

    /** The loop's body on the line at `i`, which does not end it: the store takes one more step. */
    method HandleNext(inputs: seq<LoopInput>, i: nat, ghost st0: Store, startNow: int, style: string -> string)
      requires Valid() && i < |inputs| && ClockRuns(inputs, startNow)
      requires conversation.memory.ClockAllows(inputs[i].now)
      requires conversation.State() == Lines(st0, inputs[..i], style)
      modifies conversation, conversation.memory
      ensures Valid() && conversation.memory == old(conversation.memory)
      ensures i + 1 < |inputs| ==> conversation.memory.ClockAllows(inputs[i + 1].now)
      ensures conversation.State() == Lines(st0, inputs[..i + 1], style)
    {
      assert inputs[..i + 1][..i] == inputs[..i];
      if i + 1 < |inputs| {
        ClockNext(inputs, startNow, i);
      }
      HandleLine(inputs[i], style);
    }

    /**
     * `chat_loop` over the lines typed: when Ollama is up it starts a session
     * (as `startId`) and handles each line until one ends the loop.
     */
    method ChatLoop(ollamaUp: bool, startId: string, startNow: int, inputs: seq<LoopInput>, style: string -> string)
      returns (read: nat)
      requires Valid() && conversation.memory.ClockAllows(startNow)
      requires ClockRuns(inputs, startNow)
      modifies conversation, conversation.memory
      ensures Valid() && conversation.memory == old(conversation.memory)
      ensures !ollamaUp ==> read == 0 && conversation.State() == old(conversation.State())
      ensures ollamaUp ==> read == Consumed(inputs)
      ensures ollamaUp ==> conversation.State() == Run(Started(old(conversation.State()), startId, startNow), inputs, style)
    {
      if !ollamaUp {
        return 0;
      }
      var _ := conversation.StartNewSession(startId, startNow);
      ghost var st0 := conversation.State();
      var i := 0;
      while i < |inputs|
        invariant 0 <= i <= |inputs|
        invariant Valid() && conversation.memory == old(conversation.memory)
        invariant i < |inputs| ==> conversation.memory.ClockAllows(inputs[i].now)
        invariant forall j :: 0 <= j < i ==> !Stops(inputs[j])
        invariant conversation.State() == Lines(st0, inputs[..i], style)
      {
        var inp := inputs[i];
        if Stops(inp) {
          FirstIndexAt(inputs, Stops, i);
          return i + 1;
        }
        HandleNext(inputs, i, st0, startNow, style);
        i := i + 1;
      }
      FirstIndexAt(inputs, Stops, i);
      assert inputs[..i] == inputs;
      return i;
    }
  }
}
