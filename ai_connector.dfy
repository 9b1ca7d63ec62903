/**
 * The connector to external chat services (backend/core/ai_connector.py):
 * which clients are configured, the model names they offer, how the
 * conversation is reshaped for Claude and for Gemini, and the answers when
 * a client is missing. The SDK calls are outside the model: their outcome
 * is a parameter.
 */
module AiConnector {
  import opened Common
  import opened OrderedMap
  import opened LlmEngine

  const OpenAiMissing: string := "OpenAI API key not configured or module not installed"
  const AnthropicMissing: string := "Anthropic API key not configured or module not installed"
  const GoogleMissing: string := "Google API key not configured or module not installed"

  /** `get_available_models` for the configured clients. */
  function ModelsFor(openai: bool, anthropic: bool, gemini: bool): seq<string> {
    (if openai then ["gpt-4", "gpt-3.5-turbo"] else [])
    + (if anthropic then ["claude-3-sonnet", "claude-3-haiku"] else [])
    + (if gemini then ["gemini-pro"] else [])
  }

  /** Two names per OpenAI or Anthropic client and one for Gemini, in that order; a name is offered iff its client is configured. */
  lemma ModelsForShape(openai: bool, anthropic: bool, gemini: bool)
    ensures var ms := ModelsFor(openai, anthropic, gemini);
      |ms| == (if openai then 2 else 0) + (if anthropic then 2 else 0) + (if gemini then 1 else 0)
      && ("gpt-4" in ms <==> openai) && ("claude-3-haiku" in ms <==> anthropic) && ("gemini-pro" in ms <==> gemini)
      && (openai ==> ms[..2] == ["gpt-4", "gpt-3.5-turbo"])
  {
    var a := if openai then ["gpt-4", "gpt-3.5-turbo"] else [];
    var b := if anthropic then ["claude-3-sonnet", "claude-3-haiku"] else [];
    var c := if gemini then ["gemini-pro"] else [];
    var ms := ModelsFor(openai, anthropic, gemini);
    assert ms == a + b + c;
    assert "gpt-4" in ms <==> "gpt-4" in a;
    assert "claude-3-haiku" in ms <==> "claude-3-haiku" in b;
    assert "gemini-pro" in ms <==> "gemini-pro" in c;
  }

  // ----------------------------------------------------------------- Claude

  /** The content of the last system turn, or "" without one. */
  function LastSystem(ms: seq<Turn>): string {
    if ms == [] then ""
    else if ms[|ms| - 1].role == "system" then ms[|ms| - 1].content
    else LastSystem(ms[..|ms| - 1])
  }

  function IsChatTurn(): Turn -> bool {
    (m: Turn) => m.role != "system"
  }

  /** The system text Claude gets is the last system turn's, and no later turn is a system turn. */
  lemma {:induction false} LastSystemIsLast(ms: seq<Turn>)
    ensures LastSystem(ms) == "" || exists i :: (0 <= i < |ms| && ms[i].role == "system" && ms[i].content == LastSystem(ms)
                                                && forall j :: i < j < |ms| ==> ms[j].role != "system")
    ensures (forall i :: 0 <= i < |ms| ==> ms[i].role != "system") ==> LastSystem(ms) == ""
  {
    if ms != [] && ms[|ms| - 1].role != "system" {
      var init := ms[..|ms| - 1];
      LastSystemIsLast(init);
      if LastSystem(ms) != "" {
        var i :| 0 <= i < |init| && init[i].role == "system" && init[i].content == LastSystem(init)
                 && forall j :: i < j < |init| ==> init[j].role != "system";
        assert ms[i] == init[i];
        assert forall j :: i < j < |ms| - 1 ==> ms[j] == init[j];
      }
      assert forall i :: 0 <= i < |init| ==> init[i] == ms[i];
    }
  }

  /** One more turn: a system turn replaces the system text, any other is appended. */
  lemma ClaudeSnoc(ms: seq<Turn>, m: Turn)
    ensures LastSystem(ms + [m]) == if m.role == "system" then m.content else LastSystem(ms)
    ensures Filter(ms + [m], IsChatTurn()) == Filter(ms, IsChatTurn()) + if m.role == "system" then [] else [m]
  {
    assert (ms + [m])[..|ms|] == ms;
    FilterAppend(ms, [m], IsChatTurn());
  }

  /** `ClaudeSnoc` for the prefixes a loop over `ms` goes through. */
  lemma ClaudeStep(ms: seq<Turn>, i: nat)
    requires i < |ms|
    ensures LastSystem(ms[..i + 1]) == if ms[i].role == "system" then ms[i].content else LastSystem(ms[..i])
    ensures Filter(ms[..i + 1], IsChatTurn()) == Filter(ms[..i], IsChatTurn()) + if ms[i].role == "system" then [] else [ms[i]]
  {
    assert ms[..i + 1] == ms[..i] + [ms[i]];
    ClaudeSnoc(ms[..i], ms[i]);
  }

  /** The Claude request: the system text, and the other turns in order. */
  datatype ClaudeRequest = ClaudeRequest(system: string, messages: seq<Turn>)

  function ClaudeFormat(ms: seq<Turn>): (r: ClaudeRequest)
    ensures forall m :: m in r.messages ==> m in ms && m.role != "system"
  {
    ClaudeRequest(LastSystem(ms), Filter(ms, IsChatTurn()))
  }

  // ----------------------------------------------------------------- Gemini

  /** One line of the Gemini prompt: every role but "user" is written as the assistant's. */
  function GeminiLine(m: Turn): string {
    (if m.role == "user" then "Human" else "Assistant") + ": " + m.content + "\n"
  }

  function GeminiPrompt(ms: seq<Turn>): string {
    if ms == [] then "" else GeminiPrompt(ms[..|ms| - 1]) + GeminiLine(ms[|ms| - 1])
  }

  /** The prompt of a conversation is the prompts of its parts, one after the other. */
  lemma {:induction false} GeminiPromptAppend(a: seq<Turn>, b: seq<Turn>)
    ensures GeminiPrompt(a + b) == GeminiPrompt(a) + GeminiPrompt(b)
    decreases |b|
  {
    if b == [] {
      assert a + b == a;
    } else {
      var b', last := b[..|b| - 1], b[|b| - 1];
      var ab := a + b;
      assert ab[..|ab| - 1] == a + b';
      assert ab[|ab| - 1] == last;
      var line := GeminiLine(last);
      assert GeminiPrompt(ab) == GeminiPrompt(a + b') + line;
      assert GeminiPrompt(b) == GeminiPrompt(b') + line;
      GeminiPromptAppend(a, b');
    }
  }

  /** A system turn is presented to Gemini as the assistant speaking. */
  lemma GeminiSystemIsAssistant(content: string)
    ensures GeminiPrompt([Turn("system", content)]) == "Assistant: " + content + "\n"
  {
    assert [Turn("system", content)][..0] == [];
  }

  // --------------------------------------------------------------- answers

  /** The answer of a chat method whose client is configured: the text, or the provider's error. */
  function Answer(provider: string, outcome: ClientOutcome): (reply: string)
    ensures outcome.Raised? ==> reply == provider + " Error: " + outcome.error
    ensures outcome.Answered? ==> reply == outcome.content
  {
    match outcome
    case Answered(content) => content
    case Raised(error) => provider + " Error: " + error
  }

  /** `compare_responses`: the labels of the configured providers, in order. */
  function CompareKeys(openai: bool, anthropic: bool, gemini: bool): seq<string> {
    (if openai then ["GPT-3.5"] else []) + (if anthropic then ["Claude"] else []) + (if gemini then ["Gemini"] else [])
  }

  /** The keys of `compare_responses`, one provider at a time. */
  lemma CompareKeysSteps(openai: bool, anthropic: bool, gemini: bool)
    ensures CompareKeys(openai, false, false) == if openai then ["GPT-3.5"] else []
    ensures CompareKeys(openai, anthropic, false) == CompareKeys(openai, false, false) + if anthropic then ["Claude"] else []
    ensures CompareKeys(openai, anthropic, gemini) == CompareKeys(openai, anthropic, false) + if gemini then ["Gemini"] else []
  {
    var a: seq<string> := if openai then ["GPT-3.5"] else [];
    var b: seq<string> := if anthropic then ["Claude"] else [];
    assert a + [] == a && (a + b) + [] == a + b;
  }

  /** The dictionary `compare_responses` fills, given the answer of each configured client in turn. */
  function Compared(openai: Option<string>, claude: Option<string>, gemini: Option<string>): seq<(string, string)> {
    var r1 := if openai.Some? then Put([], "GPT-3.5", openai.value) else [];
    var r2 := if claude.Some? then Put(r1, "Claude", claude.value) else r1;
    if gemini.Some? then Put(r2, "Gemini", gemini.value) else r2
  }

  /**
   * The comparison has an entry exactly for each configured client, in the
   * order GPT-3.5, Claude, Gemini, and each entry holds that client's answer.
   */
  lemma ComparedEntries(openai: Option<string>, claude: Option<string>, gemini: Option<string>)
    ensures var r := Compared(openai, claude, gemini);
      Keys(r) == CompareKeys(openai.Some?, claude.Some?, gemini.Some?)
      && Get(r, "GPT-3.5") == openai && Get(r, "Claude") == claude && Get(r, "Gemini") == gemini
  {
    CompareKeysSteps(openai.Some?, claude.Some?, gemini.Some?);
    assert "GPT-3.5" != "Claude" && "GPT-3.5" != "Gemini" && "Claude" != "Gemini" by {
      assert |"GPT-3.5"| != |"Claude"| && |"GPT-3.5"| != |"Gemini"| && "Claude"[0] != "Gemini"[0];
    }
    var r1: seq<(string, string)> := if openai.Some? then Put([], "GPT-3.5", openai.value) else [];
    assert Keys(r1) == CompareKeys(openai.Some?, false, false);
    assert Get(r1, "GPT-3.5") == openai && Get(r1, "Claude").None? && Get(r1, "Gemini").None?;
    var r2 := if claude.Some? then Put(r1, "Claude", claude.value) else r1;
    assert Keys(r2) == CompareKeys(openai.Some?, claude.Some?, false) by {
      assert "Claude" !in Keys(r1);
    }
    assert Get(r2, "GPT-3.5") == openai && Get(r2, "Claude") == claude && Get(r2, "Gemini").None?;
    assert "Gemini" !in Keys(r2);
  }

  class Connector {
    const openaiClient: bool
    const anthropicClient: bool
    const geminiModel: bool

    /** A client exists when its module is installed and its key is set. */
    constructor (openaiInstalled: bool, openaiKey: string, anthropicInstalled: bool, anthropicKey: string,
                 geminiInstalled: bool, googleKey: string)
      ensures openaiClient == (openaiInstalled && openaiKey != "")
      ensures anthropicClient == (anthropicInstalled && anthropicKey != "")
      ensures geminiModel == (geminiInstalled && googleKey != "")
    {
      openaiClient := openaiInstalled && openaiKey != "";
      anthropicClient := anthropicInstalled && anthropicKey != "";
      geminiModel := geminiInstalled && googleKey != "";
    }

    /** `get_available_models` */
    method GetAvailableModels() returns (models: seq<string>)
      ensures models == ModelsFor(openaiClient, anthropicClient, geminiModel)
    {
      models := [];
      if openaiClient {
        models := models + ["gpt-4", "gpt-3.5-turbo"];
      }
      if anthropicClient {
        models := models + ["claude-3-sonnet", "claude-3-haiku"];
      }
      if geminiModel {
        models := models + ["gemini-pro"];
      }
    }

    /** `chat_with_openai`: the messages are sent as they are; `None` means nothing was sent. */
    method ChatWithOpenAi(messages: seq<Turn>, outcome: ClientOutcome) returns (sent: Option<seq<Turn>>, reply: string)
      ensures !openaiClient ==> sent.None? && reply == OpenAiMissing
      ensures openaiClient ==> sent == Some(messages) && reply == Answer("OpenAI", outcome)
    {
      if !openaiClient {
        return None, OpenAiMissing;
      }
      sent := Some(messages);
      reply := Answer("OpenAI", outcome);
    }

    /** The conversion loop of `chat_with_claude`. */
    static method ToClaude(messages: seq<Turn>) returns (r: ClaudeRequest)
      ensures r == ClaudeFormat(messages)
    {
      var systemMsg := "";
      var userMessages := [];
      var i := 0;
      while i < |messages|
        invariant 0 <= i <= |messages|
        invariant systemMsg == LastSystem(messages[..i])
        invariant userMessages == Filter(messages[..i], IsChatTurn())
      {
        var msg := messages[i];
        ClaudeStep(messages, i);
        if msg.role == "system" {
          systemMsg := msg.content;
        } else {
          userMessages := userMessages + [msg];
        }
        i := i + 1;
      }
      assert messages[..i] == messages;
      r := ClaudeRequest(systemMsg, userMessages);
    }

    /** `chat_with_claude` */
    method ChatWithClaude(messages: seq<Turn>, outcome: ClientOutcome) returns (sent: Option<ClaudeRequest>, reply: string)
      ensures !anthropicClient ==> sent.None? && reply == AnthropicMissing
      ensures anthropicClient ==> sent == Some(ClaudeFormat(messages)) && reply == Answer("Claude", outcome)
    {
      if !anthropicClient {
        return None, AnthropicMissing;
      }
      var request := ToClaude(messages);
      sent := Some(request);
      reply := Answer("Claude", outcome);
    }

    /** The prompt loop of `chat_with_gemini`. */
    static method ToGemini(messages: seq<Turn>) returns (prompt: string)
      ensures prompt == GeminiPrompt(messages)
    {
      prompt := "";
      var i := 0;
      while i < |messages|
        invariant 0 <= i <= |messages|
        invariant prompt == GeminiPrompt(messages[..i])
      {
        var msg := messages[i];
        var role := if msg.role == "user" then "Human" else "Assistant";
        assert messages[..i + 1][..i] == messages[..i];
        prompt := prompt + (role + ": " + msg.content + "\n");
        i := i + 1;
      }
      assert messages[..i] == messages;
    }

    /** `chat_with_gemini` */
    method ChatWithGemini(messages: seq<Turn>, outcome: ClientOutcome) returns (sent: Option<string>, reply: string)
      ensures !geminiModel ==> sent.None? && reply == GoogleMissing
      ensures geminiModel ==> sent == Some(GeminiPrompt(messages)) && reply == Answer("Gemini", outcome)
    {
      if !geminiModel {
        return None, GoogleMissing;
      }
      var prompt := ToGemini(messages);
      sent := Some(prompt);
      reply := Answer("Gemini", outcome);
    }

    /** `compare_responses`, with one client outcome per provider. */
    method CompareResponses(messages: seq<Turn>, openai: ClientOutcome, claude: ClientOutcome, gemini: ClientOutcome)
      returns (responses: seq<(string, string)>)
      ensures responses == Compared(if openaiClient then Some(Answer("OpenAI", openai)) else None,
                                    if anthropicClient then Some(Answer("Claude", claude)) else None,
                                    if geminiModel then Some(Answer("Gemini", gemini)) else None)
    {
      responses := [];
      if openaiClient {
        var _, reply := ChatWithOpenAi(messages, openai);
        responses := Put(responses, "GPT-3.5", reply);
      }
      if anthropicClient {
        var _, reply := ChatWithClaude(messages, claude);
        responses := Put(responses, "Claude", reply);
      }
      if geminiModel {
        var _, reply := ChatWithGemini(messages, gemini);
        responses := Put(responses, "Gemini", reply);
      }
    }
  }
}
