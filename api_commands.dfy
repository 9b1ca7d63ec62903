/**
 * The `/api` sub-commands (backend/commands/api_commands.py): how the
 * already split command words select an action, and what each action does
 * to the registry and answers. Whether an API is reachable (`test_api`) and
 * what an HTTP exchange returns are parameters.
 */
module ApiCommands {
  import opened Common
  import opened Text
  import opened OrderedMap
  import opened ApiManagement

  // The long answers are kept as line-sized pieces.
  const HelpLine0: string := "\n🤖 دستورات API Manager:\n"
  const HelpLine1: string := "\n📝 اضافه کردن API:\n"
  const HelpLine2: string := "/api add <name> <api_key> <base_url> <model> "
  const HelpLine3: string := "[free/paid]\n\n📋 لیست API ها:\n"
  const HelpLine4: string := "/api list\n\n🗑\U{FE0F} حذف API:\n"
  const HelpLine5: string := "/api remove <name>\n"
  const HelpLine6: string := "\n🧪 تست API:\n/api test <name>\n"
  const HelpLine7: string := "\n💬 چت با API مشخص:\n"
  const HelpLine8: string := "/api chat <name> <message>\n"
  const HelpLine9: string := "\n🆓 API های رایگان پیشنهادی:\n"
  const HelpLine10: string := "- HuggingFace (محدود ولی رایگان)\n"
  const HelpLine11: string := "- Cohere Trial (رایگان با محدودیت)\n"
  const HelpLine12: string := "- Together.AI (کریدیت رایگان)\n"
  const HelpLine13: string := "- Groq (سریع و رایگان)\n"
  const HelpText: string :=
    HelpLine0 + HelpLine1 + HelpLine2 + HelpLine3 + HelpLine4 + HelpLine5 + HelpLine6 + HelpLine7 + HelpLine8 + HelpLine9 + HelpLine10 + HelpLine11 + HelpLine12 + HelpLine13
  const AddUsageText: string := "❌ فرمت: /api add <name> <api_key> <base_url> <model> [free/paid]"
  const RemoveUsageText: string := "❌ فرمت: /api remove <name>"
  const TestUsageText: string := "❌ فرمت: /api test <name>"
  const ChatUsageText: string := "❌ فرمت: /api chat <name> <message>"
  const EmptyListText: string := "📭 هیچ API ای تنظیم نشده"
  const ListHeader: string := "🤖 لیست API ها:\n\n"
  const FreeLine0: string := "\n🆓 API های رایگان پیشنهادی:\n"
  const FreeLine1: string := "\n1\U{FE0F}⃣ **Groq** (سریع و رایگان):\n"
  const FreeLine2: string := "   • ثبت نام: https://console.groq.com\n"
  const FreeLine3: string := "   • مدل: llama3-8b-8192\n"
  const FreeLine4: string := "   • محدودیت: 14,400 درخواست/روز\n"
  const FreeLine5: string := "\n2\U{FE0F}⃣ **HuggingFace**:\n"
  const FreeLine6: string := "   • ثبت نام: https://huggingface.co\n"
  const FreeLine7: string := "   • مدل: microsoft/DialoGPT-medium\n"
  const FreeLine8: string := "   • محدودیت: 1000 درخواست/ماه\n"
  const FreeLine9: string := "\n3\U{FE0F}⃣ **Cohere Trial**:\n"
  const FreeLine10: string := "   • ثبت نام: https://cohere.ai\n"
  const FreeLine11: string := "   • مدل: command-light\n"
  const FreeLine12: string := "   • محدودیت: کریدیت رایگان\n"
  const FreeLine13: string := "\n4\U{FE0F}⃣ **Together.AI**:\n"
  const FreeLine14: string := "   • ثبت نام: https://together.ai\n"
  const FreeLine15: string := "   • مدل: Llama-2-7b-chat\n"
  const FreeLine16: string := "   • محدودیت: $25 کریدیت رایگان\n"
  const FreeLine17: string := "\nمثال اضافه کردن Groq:\n"
  const FreeLine18: string := "/api add groq YOUR_API_KEY https://api.groq.com/openai/v1 "
  const FreeLine19: string := "llama3-8b-8192 free\n"
  const FreeText: string :=
    FreeLine0 + FreeLine1 + FreeLine2 + FreeLine3 + FreeLine4 + FreeLine5 + FreeLine6 + FreeLine7 + FreeLine8 + FreeLine9 + FreeLine10 + FreeLine11 + FreeLine12 + FreeLine13 + FreeLine14 + FreeLine15 + FreeLine16 + FreeLine17 + FreeLine18 + FreeLine19
  const InvalidText: string := "❌ دستور نامعتبر. از /api برای راهنما استفاده کنید"

  /** What the words of an `/api` command ask for. */
  datatype ApiAction =
    | ShowHelp
    | AddUsage
    | Add(name: string, apiKey: string, baseUrl: string, model: string, isFree: bool)
    | ListApis
    | RemoveUsage
    | RemoveApi(name: string)
    | TestUsage
    | TestApi(name: string)
    | ChatUsage
    | ChatApi(name: string, message: string)
    | ListFree
    | Invalid

  /** The branching of `handle_api_command` on the number of words and the lowercased action. */
  function ParseApiCommand(parts: seq<string>): (r: ApiAction)
    ensures r == ShowHelp <==> |parts| < 2
    ensures r == Invalid <==> |parts| >= 2 && Lower(parts[1]) !in ["add", "list", "remove", "test", "chat", "free"]
    ensures r == ListApis <==> |parts| >= 2 && Lower(parts[1]) == "list"
    ensures r == ListFree <==> |parts| >= 2 && Lower(parts[1]) == "free"
    ensures r.Add? ==> |parts| >= 6 && r.name == parts[2] && r.apiKey == parts[3] && r.baseUrl == parts[4] && r.model == parts[5]
    ensures r.RemoveApi? || r.TestApi? || r.ChatApi? ==> |parts| >= 3 && r.name == parts[2]
  {
    if |parts| < 2 then ShowHelp
    else
      var action := Lower(parts[1]);
      if action == "add" then
        if |parts| < 6 then AddUsage
        else Add(parts[2], parts[3], parts[4], parts[5], |parts| > 6 && Lower(parts[6]) == "free")
      else if action == "list" then ListApis
      else if action == "remove" then
        if |parts| < 3 then RemoveUsage else RemoveApi(parts[2])
      else if action == "test" then
        if |parts| < 3 then TestUsage else TestApi(parts[2])
      else if action == "chat" then
        if |parts| < 4 then ChatUsage else ChatApi(parts[2], Join(parts[3..], " "))
      else if action == "free" then ListFree
      else Invalid
  }

  /** The action word is read without regard to case. */
  lemma ActionAnyCase(parts: seq<string>)
    requires |parts| >= 2
    ensures ParseApiCommand(parts[1 := Lower(parts[1])]) == ParseApiCommand(parts)
  {
    LowerIdempotent(parts[1]);
  }

  /** `add` needs six words; a seventh that reads "free" in any case marks the API free. */
  lemma AddNeedsSixWords(parts: seq<string>)
    requires |parts| >= 2 && Lower(parts[1]) == "add"
    ensures |parts| < 6 <==> ParseApiCommand(parts) == AddUsage
    ensures ParseApiCommand(parts).Add? ==> (ParseApiCommand(parts).isFree <==> |parts| > 6 && Lower(parts[6]) == "free")
  {
  }

  /** `remove` and `test` need a name; `chat` a name and a message. */
  lemma NameArgumentsNeeded(parts: seq<string>)
    requires |parts| >= 2
    ensures Lower(parts[1]) == "remove" ==> (ParseApiCommand(parts) == RemoveUsage <==> |parts| < 3)
    ensures Lower(parts[1]) == "test" ==> (ParseApiCommand(parts) == TestUsage <==> |parts| < 3)
    ensures Lower(parts[1]) == "chat" ==> (ParseApiCommand(parts) == ChatUsage <==> |parts| < 4)
  {
  }

  /** The chat message is the remaining words joined by single spaces; splitting it again gives those words back. */
  lemma ChatMessageRoundTrip(parts: seq<string>)
    requires |parts| >= 4 && Lower(parts[1]) == "chat"
    requires forall w :: w in parts ==> IsWord(w)
    ensures ParseApiCommand(parts) == ChatApi(parts[2], Join(parts[3..], " "))
    ensures Words(ParseApiCommand(parts).message) == parts[3..]
  {
    WordsOfJoin(parts[3..]);
  }

  /** One entry of `list_apis`. */
  datatype ApiRow = ApiRow(name: string, model: string, status: string, kind: string, baseUrl: string)

  function RowOf(name: string, config: ApiConfig, reachable: bool): ApiRow {
    ApiRow(name, config.model, if reachable then "🟢 فعال" else "🔴 غیرفعال",
           if config.isFree then "🆓 رایگان" else "💰 پولی", config.baseUrl)
  }

  /** `list_apis`, in registry order; `test_api` is supplied as `reachable`. */
  function Rows(apis: seq<(string, ApiConfig)>, reachable: string -> bool): (rows: seq<ApiRow>)
    ensures |rows| == |apis|
    ensures forall i :: 0 <= i < |apis| ==> rows[i] == RowOf(apis[i].0, apis[i].1, reachable(apis[i].0))
  {
    if apis == [] then [] else [RowOf(apis[0].0, apis[0].1, reachable(apis[0].0))] + Rows(apis[1..], reachable)
  }

  /** The entry's first words, which name the API. */
  function NameTag(name: string): string {
    "• " + name + ": "
  }

  function RowDetail(r: ApiRow): string {
    r.model + "\n" + "  " + r.status + " | " + r.kind + "\n" + "  🔗 " + r.baseUrl + "\n\n"
  }

  function RowText(r: ApiRow): string {
    NameTag(r.name) + RowDetail(r)
  }

  function RowsText(rows: seq<ApiRow>): string {
    if rows == [] then "" else RowsText(rows[..|rows| - 1]) + RowText(rows[|rows| - 1])
  }

  /** The listing names every registered API. */
  lemma {:induction false} RowsTextNamesEach(rows: seq<ApiRow>, i: nat)
    requires i < |rows|
    ensures Contains(RowsText(rows), NameTag(rows[i].name))
  {
    var init, last := rows[..|rows| - 1], rows[|rows| - 1];
    assert RowsText(rows) == RowsText(init) + RowText(last);
    if i == |rows| - 1 {
      ContainsPiece(RowsText(init), NameTag(last.name), RowDetail(last));
      assert RowsText(rows) == RowsText(init) + NameTag(last.name) + RowDetail(last);
    } else {
      assert init[i] == rows[i];
      RowsTextNamesEach(init, i);
      ContainsExtend(RowsText(init), RowText(last), NameTag(rows[i].name));
    }
  }

  /** The answer to `/api list`. */
  function ListText(apis: seq<(string, ApiConfig)>, reachable: string -> bool): string {
    if apis == [] then EmptyListText else ListHeader + RowsText(Rows(apis, reachable))
  }

  /** `test_api` answers False for an unregistered name. */
  function TestText(apis: seq<(string, ApiConfig)>, name: string, reachable: string -> bool): string {
    if HasKey(apis, name) && reachable(name) then "✅ API " + name + " در دسترس است" else "❌ API " + name + " در دسترس نیست"
  }

  /** The registry after the action: only `add` and `remove` change it. */
  function Effect(apis: seq<(string, ApiConfig)>, action: ApiAction): seq<(string, ApiConfig)> {
    match action
    case Add(name, apiKey, baseUrl, model, isFree) => Put(apis, name, Config(name, apiKey, baseUrl, model).(isFree := isFree))
    case RemoveApi(name) => if HasKey(apis, name) then Remove(apis, name) else apis
    case _ => apis
  }

  /** The answer, given the registry before the action. */
  function Reply(apis: seq<(string, ApiConfig)>, action: ApiAction, reachable: string -> bool, outcome: HttpOutcome): string {
    match action
    case ShowHelp => HelpText
    case AddUsage => AddUsageText
    case Add(name, _, _, _, _) => AddedText(name)
    case ListApis => ListText(apis, reachable)
    case RemoveUsage => RemoveUsageText
    case RemoveApi(name) => if HasKey(apis, name) then RemovedText(name) else NotFoundText(name)
    case TestUsage => TestUsageText
    case TestApi(name) => TestText(apis, name, reachable)
    case ChatUsage => ChatUsageText
    case ChatApi(name, _) => if HasKey(apis, name) then HttpReply(outcome) else NotFoundText(name)
    case ListFree => FreeText
    case Invalid => InvalidText
  }

  /** A format error, the help and the fixed texts leave the registry as it was. */
  lemma UsageChangesNothing(apis: seq<(string, ApiConfig)>, parts: seq<string>)
    requires !ParseApiCommand(parts).Add? && !ParseApiCommand(parts).RemoveApi?
    ensures Effect(apis, ParseApiCommand(parts)) == apis
  {
  }

  /** The listing loop of the `list` branch. */
  method FormatRows(rows: seq<ApiRow>) returns (text: string)
    ensures text == RowsText(rows)
  {
    text := "";
    var i := 0;
    while i < |rows|
      invariant 0 <= i <= |rows|
      invariant text == RowsText(rows[..i])
    {
      var api := rows[i];
      assert rows[..i + 1][..i] == rows[..i];
      text := text + (NameTag(api.name) + RowDetail(api));
      i := i + 1;
    }
    assert rows[..i] == rows;
  }

  /** The `list` branch. */
  method ListRegistered(apis: seq<(string, ApiConfig)>, reachable: string -> bool) returns (reply: string)
    ensures reply == ListText(apis, reachable)
    ensures apis == [] <==> reply == EmptyListText
  {
    if apis == [] {
      reply := EmptyListText;
    } else {
      var text := FormatRows(Rows(apis, reachable));
      reply := ListHeader + text;
      assert reply[..|ListHeader|] == ListHeader;
    }
  }

  /** `handle_api_command` against the registry `manager`. */
  method HandleApiCommand(manager: ApiManager, parts: seq<string>, reachable: string -> bool, outcome: HttpOutcome)
    returns (reply: string)
    requires manager.Valid()
    modifies manager
    ensures manager.Valid()
    ensures manager.apis == Effect(old(manager.apis), ParseApiCommand(parts))
    ensures reply == Reply(old(manager.apis), ParseApiCommand(parts), reachable, outcome)
  {
    var action := ParseApiCommand(parts);
    reply := Perform(manager, action, reachable, outcome);
  }

  /** The branches of `handle_api_command` once the action is known. */
  method Perform(manager: ApiManager, action: ApiAction, reachable: string -> bool, outcome: HttpOutcome)
    returns (reply: string)
    requires manager.Valid()
    modifies manager
    ensures manager.Valid()
    ensures manager.apis == Effect(old(manager.apis), action)
    ensures reply == Reply(old(manager.apis), action, reachable, outcome)
  {
    match action {
      case Add(name, apiKey, baseUrl, model, isFree) =>
        reply := manager.AddApi(name, apiKey, baseUrl, model, isFree, DefaultMaxTokens, DefaultTemperature);
      case ListApis => reply := ListRegistered(manager.apis, reachable);
      case RemoveApi(name) => reply := manager.RemoveApi(name);
      case TestApi(name) => reply := TestText(manager.apis, name, reachable);
      case ChatApi(name, message) =>
        var _, r := manager.ChatWithApi(name, [Turn("user", message)], outcome);
        reply := r;
      case _ => reply := FixedReply(action);
    }
  }

  /** The answers that do not depend on the registry. */
  function FixedReply(action: ApiAction): (reply: string)
    requires !action.Add? && !action.ListApis? && !action.RemoveApi? && !action.TestApi? && !action.ChatApi?
    ensures forall apis, reachable, outcome :: reply == Reply(apis, action, reachable, outcome)
  {
    match action
    case ShowHelp => HelpText
    case AddUsage => AddUsageText
    case RemoveUsage => RemoveUsageText
    case TestUsage => TestUsageText
    case ChatUsage => ChatUsageText
    case ListFree => FreeText
    case Invalid => InvalidText
  }
}
