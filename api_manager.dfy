/**
 * The registry of HTTP chat APIs (backend/core/api_manager.py): named
 * configurations in a dictionary, the three free defaults added when
 * absent, and the request `chat_with_api` would send. The HTTP exchange is
 * outside the model: its outcome is a parameter.
 */
module ApiManagement {
  import opened Common
  import opened Text
  import opened OrderedMap

  /** `APIConfig`; `temperature` is a Python float, written here as an exact real. */
  datatype ApiConfig = ApiConfig(name: string, apiKey: string, baseUrl: string, model: string,
                                 isFree: bool, maxTokens: int, temperature: real)

  const DefaultMaxTokens: int := 1000
  const DefaultTemperature: real := 0.7

  /** A configuration with the dataclass defaults for the fields not given. */
  function Config(name: string, apiKey: string, baseUrl: string, model: string): (c: ApiConfig)
    ensures !c.isFree && c.maxTokens == 1000 && c.name == name
  {
    ApiConfig(name, apiKey, baseUrl, model, false, DefaultMaxTokens, DefaultTemperature)
  }

  /** The defaults of `add_free_apis`, in order. */
  const FreeApis: seq<ApiConfig> := [
    Config("huggingface_hub", "hf_your_token_here", "https://api-inference.huggingface.co", "gpt2").(isFree := true),
    Config("ollama_local", "local", "http://localhost:11434", "qwen2:7b").(isFree := true),
    Config("groq_example", "gsk_your_key_here", "https://api.groq.com/openai/v1", "llama3-8b-8192").(isFree := true)
  ]

  function AddedText(name: string): string { "✅ API " + name + " اضافه شد" }
  function RemovedText(name: string): string { "🗑\U{FE0F} API " + name + " حذف شد" }
  function NotFoundText(name: string): string { "❌ API " + name + " پیدا نشد" }

  /** `add_free_apis` over the defaults `cs`: each is added under its name unless that name is taken. */
  function WithDefaults(apis: seq<(string, ApiConfig)>, cs: seq<ApiConfig>): seq<(string, ApiConfig)> {
    if cs == [] then apis
    else
      var before := WithDefaults(apis, cs[..|cs| - 1]);
      var c := cs[|cs| - 1];
      if HasKey(before, c.name) then before else Put(before, c.name, c)
  }

  function Names(cs: seq<ApiConfig>): (ns: seq<string>)
    ensures |ns| == |cs| && forall i :: 0 <= i < |cs| ==> ns[i] == cs[i].name
  {
    if cs == [] then [] else [cs[0].name] + Names(cs[1..])
  }

  /** The last default's name is not among the earlier ones, and the earlier names are names of all. */
  lemma {:induction false} NamesInit(cs: seq<ApiConfig>)
    requires cs != [] && NoDup(Names(cs))
    ensures cs[|cs| - 1].name !in Names(cs[..|cs| - 1])
    ensures forall k :: k in Names(cs[..|cs| - 1]) ==> k in Names(cs)
  {
    var ns, ni := Names(cs), Names(cs[..|cs| - 1]);
    assert ni == ns[..|ns| - 1];
    assert ns[|ns| - 1] == cs[|cs| - 1].name;
  }

  lemma {:induction false} WithDefaultsValid(apis: seq<(string, ApiConfig)>, cs: seq<ApiConfig>)
    ensures Valid(apis) ==> Valid(WithDefaults(apis, cs))
  {
    if cs != [] {
      WithDefaultsValid(apis, cs[..|cs| - 1]);
    }
  }

  /** Adding defaults never touches an existing configuration. */
  lemma {:induction false} WithDefaultsKeeps(apis: seq<(string, ApiConfig)>, cs: seq<ApiConfig>, k: string)
    requires HasKey(apis, k)
    ensures Get(WithDefaults(apis, cs), k) == Get(apis, k)
  {
    if cs != [] {
      WithDefaultsKeeps(apis, cs[..|cs| - 1], k);
    }
  }

  /** A name no default has is left as it was. */
  lemma {:induction false} WithDefaultsOthers(apis: seq<(string, ApiConfig)>, cs: seq<ApiConfig>, k: string)
    requires k !in Names(cs)
    ensures Get(WithDefaults(apis, cs), k) == Get(apis, k)
  {
    if cs != [] {
      var init := cs[..|cs| - 1];
      assert Names(cs)[|cs| - 1] == cs[|cs| - 1].name;
      assert k !in Names(init) by {
        forall j | 0 <= j < |init| ensures Names(init)[j] != k {
          assert Names(cs)[j] == Names(init)[j];
        }
      }
      WithDefaultsOthers(apis, init, k);
    }
  }

  /** With distinct default names, a name that was absent gets its default. */
  lemma {:induction false} WithDefaultsAdds(apis: seq<(string, ApiConfig)>, cs: seq<ApiConfig>, i: nat)
    requires NoDup(Names(cs)) && i < |cs| && !HasKey(apis, cs[i].name)
    ensures Get(WithDefaults(apis, cs), cs[i].name) == Some(cs[i])
  {
    var init := cs[..|cs| - 1];
    var c := cs[|cs| - 1];
    NamesInit(cs);
    if i == |cs| - 1 {
      WithDefaultsOthers(apis, init, c.name);
    } else {
      assert Names(init)[i] == cs[i].name;
      assert NoDup(Names(init)) by {
        forall a, b | 0 <= a < b < |init| ensures Names(init)[a] != Names(init)[b] {
          assert Names(cs)[a] == Names(init)[a] && Names(cs)[b] == Names(init)[b];
        }
      }
      WithDefaultsAdds(apis, init, i);
      assert cs[i].name != c.name by {
        assert Names(cs)[i] == cs[i].name && Names(cs)[|cs| - 1] == c.name;
      }
    }
  }

  /** What `chat_with_api` posts. */
  datatype ApiRequest =
    | ChatCompletion(url: string, authorization: string, model: string, messages: seq<Turn>, maxTokens: int, temperature: real)
    | HfInference(url: string, authorization: string, inputs: string, maxNewTokens: int, temperature: real)

  /** The prompt of the Hugging Face payload: the last message's content, or "" for none. */
  function LastContent(messages: seq<Turn>): (s: string)
    ensures messages == [] ==> s == ""
    ensures messages != [] ==> s == messages[|messages| - 1].content
  {
    if messages == [] then "" else messages[|messages| - 1].content
  }

  /** The request for a registered API: Hugging Face's own format for the name "huggingface", the OpenAI format otherwise. */
  function RequestFor(apiName: string, config: ApiConfig, messages: seq<Turn>): ApiRequest {
    var authorization := "Bearer " + config.apiKey;
    if apiName == "huggingface" then
      HfInference("https://api-inference.huggingface.co/models/" + config.model, authorization,
                  LastContent(messages), config.maxTokens, config.temperature)
    else
      ChatCompletion(config.baseUrl + "/chat/completions", authorization, config.model, messages,
                     config.maxTokens, config.temperature)
  }

  /**
   * Only the name "huggingface" selects the Hugging Face format, so the free
   * default "huggingface_hub" is posted in the OpenAI format to
   * `<base_url>/chat/completions`.
   */
  lemma FreeHubUsesChatFormat(messages: seq<Turn>)
    ensures var r := RequestFor(FreeApis[0].name, FreeApis[0], messages);
      r.ChatCompletion? && r.url == "https://api-inference.huggingface.co/chat/completions" && r.messages == messages
  {
  }

  /** What the HTTP exchange came to. */
  datatype HttpOutcome =
    | Ok(answer: string)                // status 200, and the answer read from the JSON body
    | Failed(status: int, text: string) // any other status
    | Raised(error: string)             // an exception on the way

  function HttpReply(outcome: HttpOutcome): (reply: string)
    ensures outcome.Failed? ==> reply == "❌ خطا: " + IntToString(outcome.status) + " - " + Take(outcome.text, 200)
    ensures outcome.Raised? ==> reply == "❌ خطا در ارتباط: " + outcome.error
    ensures outcome.Ok? ==> reply == outcome.answer
  {
    match outcome
    case Ok(answer) => answer
    case Failed(status, text) => "❌ خطا: " + IntToString(status) + " - " + Take(text, 200)
    case Raised(error) => "❌ خطا در ارتباط: " + error
  }

  class ApiManager {
    var apis: seq<(string, ApiConfig)>

    predicate Valid()
      reads this
    {
      OrderedMap.Valid(apis)
    }

    /** `__init__`: the configurations read from disk, then the free defaults. */
    constructor (loaded: seq<(string, ApiConfig)>)
      requires OrderedMap.Valid(loaded)
      ensures Valid()
      ensures apis == WithDefaults(loaded, FreeApis)
    {
      apis := loaded;
      new;
      AddFreeApis();
    }

    /** `add_api`: inserts or overwrites under `name`. */
    method AddApi(name: string, apiKey: string, baseUrl: string, model: string, isFree: bool, maxTokens: int, temperature: real)
      returns (message: string)
      requires Valid()
      modifies this
      ensures Valid()
      ensures apis == Put(old(apis), name, ApiConfig(name, apiKey, baseUrl, model, isFree, maxTokens, temperature))
      ensures message == AddedText(name)
    {
      apis := Put(apis, name, ApiConfig(name, apiKey, baseUrl, model, isFree, maxTokens, temperature));
      message := AddedText(name);
    }

    /** `remove_api` */
    method RemoveApi(name: string) returns (message: string)
      requires Valid()
      modifies this
      ensures Valid()
      ensures HasKey(old(apis), name) ==> apis == Remove(old(apis), name) && message == RemovedText(name)
      ensures !HasKey(old(apis), name) ==> apis == old(apis) && message == NotFoundText(name)
    {
      if HasKey(apis, name) {
        apis := Remove(apis, name);
        return RemovedText(name);
      }
      message := NotFoundText(name);
    }

    /** `add_free_apis` */
    method AddFreeApis()
      requires Valid()
      modifies this
      ensures Valid()
      ensures apis == WithDefaults(old(apis), FreeApis)
    {
      var i := 0;
      while i < |FreeApis|
        invariant 0 <= i <= |FreeApis|
        invariant Valid()
        invariant apis == WithDefaults(old(apis), FreeApis[..i])
      {
        WithDefaultsValid(old(apis), FreeApis[..i + 1]);
        var api := FreeApis[i];
        assert FreeApis[..i + 1][..i] == FreeApis[..i];
        if !HasKey(apis, api.name) {
          var _ := AddApi(api.name, api.apiKey, api.baseUrl, api.model, api.isFree, api.maxTokens, api.temperature);
        }
        i := i + 1;
      }
      assert FreeApis[..i] == FreeApis;
    }

    /** `chat_with_api`: `None` means no request was made. */
    method ChatWithApi(apiName: string, messages: seq<Turn>, outcome: HttpOutcome)
      returns (request: Option<ApiRequest>, reply: string)
      ensures !HasKey(apis, apiName) ==> request.None? && reply == NotFoundText(apiName)
      ensures HasKey(apis, apiName) ==> request == Some(RequestFor(apiName, Get(apis, apiName).value, messages))
                                        && reply == HttpReply(outcome)
    {
      var config := Get(apis, apiName);
      if config.None? {
        return None, NotFoundText(apiName);
      }
      request := Some(RequestFor(apiName, config.value, messages));
      reply := HttpReply(outcome);
    }
  }

  /** The free defaults have distinct names, so each absent one is added with its own settings. */
  lemma FreeDefaultsAdded(apis: seq<(string, ApiConfig)>)
    ensures forall k :: HasKey(apis, k) ==> Get(WithDefaults(apis, FreeApis), k) == Get(apis, k)
    ensures forall i :: 0 <= i < 3 && !HasKey(apis, FreeApis[i].name) ==> Get(WithDefaults(apis, FreeApis), FreeApis[i].name) == Some(FreeApis[i])
    ensures forall k :: k !in Names(FreeApis) ==> Get(WithDefaults(apis, FreeApis), k) == Get(apis, k)
  {
    assert Names(FreeApis) == ["huggingface_hub", "ollama_local", "groq_example"];
    forall k | HasKey(apis, k) ensures Get(WithDefaults(apis, FreeApis), k) == Get(apis, k) {
      WithDefaultsKeeps(apis, FreeApis, k);
    }
    forall i | 0 <= i < 3 && !HasKey(apis, FreeApis[i].name)
      ensures Get(WithDefaults(apis, FreeApis), FreeApis[i].name) == Some(FreeApis[i])
    {
      WithDefaultsAdds(apis, FreeApis, i);
    }
    forall k | k !in Names(FreeApis) ensures Get(WithDefaults(apis, FreeApis), k) == Get(apis, k) {
      WithDefaultsOthers(apis, FreeApis, k);
    }
  }
}
