/**
 * The Ollama engine (backend/core/llm_engine.py): how `chat` and
 * `chat_stream` turn the conversation into the request's message list, and
 * what `chat` answers. The client call itself is outside the model: its
 * outcome is a parameter.
 */
module LlmEngine {
  import opened Common

  /** A conversation turn; `timestamp` is absent for turns made up on the spot. */
  datatype ChatMessage = ChatMessage(role: string, content: string, timestamp: Option<int>)

  /** What the Ollama client did with a request. */
  datatype ClientOutcome = Answered(content: string) | Raised(error: string)

  const DefaultModel: string := "qwen2:7b"
  const DefaultHost: string := "http://localhost:11434"

  /** The system prompt `chat` adds when the conversation has none. */
  const PromptLine0: string := "شما Fox هستید، یک دستیار هوشمند فارسی\U{200C}زبان "
  const PromptLine1: string := "که:\n- به زبان فارسی روان و طبیعی پاسخ می\U{200C}دهید\n"
  const PromptLine2: string := "- صمیمی، دوستانه و مفید هستید\n"
  const PromptLine3: string := "- از کلمات ساده و قابل فهم استفاده می\U{200C}کنید\n"
  const PromptLine4: string := "- پاسخ\U{200C}های کوتاه و مفید می\U{200C}دهید\n"
  const PromptLine5: string := "- همیشه مؤدب و احترام\U{200C}آمیز هستید\n"
  const PromptLine6: string := "\nلطفاً به زبان فارسی پاسخ دهید."
  const PersianSystemPrompt: string :=
    PromptLine0 + PromptLine1 + PromptLine2 + PromptLine3 + PromptLine4 + PromptLine5 + PromptLine6

  const ChatErrorPrefix: string := "خطا در ارتباط با مدل: "

  /** `any(msg.role == 'system' for msg in messages)` */
  predicate HasSystem(ms: seq<ChatMessage>) {
    ms != [] && (ms[0].role == "system" || HasSystem(ms[1..]))
  }

  lemma {:induction false} HasSystemIff(ms: seq<ChatMessage>)
    ensures HasSystem(ms) <==> exists i :: 0 <= i < |ms| && ms[i].role == "system"
  {
    if ms != [] {
      HasSystemIff(ms[1..]);
      if HasSystem(ms[1..]) {
        var i :| 0 <= i < |ms[1..]| && ms[1..][i].role == "system";
        assert ms[i + 1].role == "system";
      }
      if exists i :: 0 <= i < |ms| && ms[i].role == "system" {
        var i :| 0 <= i < |ms| && ms[i].role == "system";
        if i > 0 {
          assert ms[1..][i - 1].role == "system";
        }
      }
    }
  }

  function ToOllama(m: ChatMessage): Turn {
    Turn(m.role, m.content)
  }

  /** The one-to-one mapping of `chat_stream`. */
  function Plain(ms: seq<ChatMessage>): (r: seq<Turn>)
    ensures |r| == |ms|
    ensures forall i :: 0 <= i < |ms| ==> r[i].role == ms[i].role && r[i].content == ms[i].content
  {
    if ms == [] then [] else [ToOllama(ms[0])] + Plain(ms[1..])
  }

  /** The `messages` that `chat` sends. */
  function ChatRequest(ms: seq<ChatMessage>): seq<Turn> {
    if HasSystem(ms) then Plain(ms) else [Turn("system", PersianSystemPrompt)] + Plain(ms)
  }

  /** The `messages` that `chat_stream` sends. */
  function StreamRequest(ms: seq<ChatMessage>): seq<Turn> {
    Plain(ms)
  }

  /**
   * Without a system turn the request is the Persian prompt followed by the
   * turns in order; with one, it is the turns in order and nothing more.
   * Either way the request holds a system turn.
   */
  lemma ChatRequestShape(ms: seq<ChatMessage>)
    ensures var r := ChatRequest(ms);
      (!(exists i :: 0 <= i < |ms| && ms[i].role == "system") ==>
         |r| == |ms| + 1 && r[0] == Turn("system", PersianSystemPrompt) && r[1..] == Plain(ms))
      && ((exists i :: 0 <= i < |ms| && ms[i].role == "system") ==> r == Plain(ms))
      && (exists i :: 0 <= i < |r| && r[i].role == "system")
  {
    HasSystemIff(ms);
    var r := ChatRequest(ms);
    if HasSystem(ms) {
      var i :| 0 <= i < |ms| && ms[i].role == "system";
      assert r[i].role == "system";
    } else {
      assert r[0].role == "system";
    }
  }

  /** The streaming request differs from the plain one exactly when the conversation has no system turn. */
  lemma StreamRequestAddsNothing(ms: seq<ChatMessage>)
    ensures StreamRequest(ms) == ChatRequest(ms) <==> exists i :: 0 <= i < |ms| && ms[i].role == "system"
  {
    HasSystemIff(ms);
    if !HasSystem(ms) {
      assert |ChatRequest(ms)| != |StreamRequest(ms)|;
    }
  }

  /** What `chat` returns for the client's outcome. */
  function ChatReply(outcome: ClientOutcome): (reply: string)
    ensures outcome.Raised? ==> ChatErrorPrefix <= reply
  {
    match outcome
    case Answered(content) => content
    case Raised(error) => ChatErrorPrefix + error
  }

  class Engine {
    const modelName: string
    const host: string

    constructor (modelName: string, host: string)
      ensures this.modelName == modelName && this.host == host
    {
      this.modelName := modelName;
      this.host := host;
    }

    /**
     * `chat` without streaming: builds the request turn by turn and answers
     * from the client's outcome.
     */
    method Chat(messages: seq<ChatMessage>, outcome: ClientOutcome) returns (request: seq<Turn>, reply: string)
      ensures request == ChatRequest(messages)
      ensures reply == ChatReply(outcome)
    {
      var hasSystem := HasSystem(messages);
      request := [];
      if !hasSystem {
        request := request + [Turn("system", PersianSystemPrompt)];
      }
      request := AppendTurns(request, messages, hasSystem);
      reply := ChatReply(outcome);
    }
  }

  /** The loop of `chat`: every turn is appended as it is. */
  method AppendTurns(start: seq<Turn>, messages: seq<ChatMessage>, hasSystem: bool) returns (request: seq<Turn>)
    requires hasSystem == HasSystem(messages)
    ensures request == start + Plain(messages)
  {
    request := start;
    var i := 0;
    while i < |messages|
      invariant 0 <= i <= |messages|
      invariant request == start + Plain(messages[..i])
    {
      var msg := messages[i];
      if msg.role == "system" && !hasSystem {
        // The combining branch: a system turn while none was found.
        SystemAt(messages, i);
        assert false;
      } else {
        PlainSnoc(messages[..i], msg);
        assert messages[..i + 1] == messages[..i] + [msg];
        request := request + [Turn(msg.role, msg.content)];
      }
      i := i + 1;
    }
    assert messages[..i] == messages;
  }

  lemma SystemAt(ms: seq<ChatMessage>, i: nat)
    requires i < |ms| && ms[i].role == "system"
    ensures HasSystem(ms)
  {
    HasSystemIff(ms);
  }

  lemma {:induction false} PlainSnoc(ms: seq<ChatMessage>, m: ChatMessage)
    ensures Plain(ms + [m]) == Plain(ms) + [ToOllama(m)]
  {
    if ms == [] {
      assert ms + [m] == [m];
    } else {
      assert (ms + [m])[1..] == ms[1..] + [m];
      PlainSnoc(ms[1..], m);
    }
  }
}
