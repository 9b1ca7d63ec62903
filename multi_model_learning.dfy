/**
 * Asking several models the same question and learning from their answers
 * (backend/core/multi_model_learning.py). The local model and the external
 * APIs are calls into code outside this model: their replies are parameters,
 * with None standing for a call that raised. The answers form an ordered
 * map from model name to reply; the learning file is a field holding the
 * records it contains.
 */
module MultiModelLearning {
  import opened Common
  import opened OrderedMap
  import FoxLearning

  type Responses = seq<(string, string)>

  const Ollama := "ollama"

  /** The models asked when the caller names none. */
  const DefaultModels: seq<string> := ["ollama", "groq", "huggingface"]

  /** What a model's entry holds when its call raised. */
  const ErrorReply := "خطا در دریافت پاسخ"

  /** Answers of this many characters or more are not considered reasonable. */
  const MaxReasonableLength: nat := 1000

  /** How many learning records the file keeps. */
  const KeptRecords: nat := 100

  const LearnedPrefix := "🧠 (از یادگیری قبلی): "

  // ------------------------------------------------------------ asking the models

  /** A model's reply, or the error text when its call raised. */
  function ReplyOr(reply: Option<string>): string {
    reply.GetOr(ErrorReply)
  }

  /** `if not models`: the default models when none are named. */
  function ModelsOrDefault(models: seq<string>): (ms: seq<string>)
    ensures ms != []
  {
    if models == [] then DefaultModels else models
  }

  /** Model `m` is asked when it is an external model registered with the API manager. */
  predicate Asks(m: string, registered: set<string>) {
    m != Ollama && m in registered
  }

  /** One turn of the loop over the models. */
  function Consulted(acc: Responses, m: string, registered: set<string>, api: string -> Option<string>): Responses {
    if Asks(m, registered) then Put(acc, m, ReplyOr(api(m))) else acc
  }

  /** The loop over the remaining `models`, starting from the answers in `acc`. */
  function Collected(acc: Responses, models: seq<string>, registered: set<string>, api: string -> Option<string>): Responses
    decreases |models|
  {
    if models == [] then acc
    else Collected(Consulted(acc, models[0], registered, api), models[1..], registered, api)
  }

  /**
   * `get_multi_model_response`: the local model's answer under "ollama",
   * then one entry per registered external model among `models`. `ollama`
   * is the local model's reply and `api(m)` model `m`'s, None when the
   * call raised; `registered` is the set of names the API manager knows.
   */
  function ModelResponses(models: seq<string>, registered: set<string>, ollama: Option<string>,
                          api: string -> Option<string>): Responses
  {
    Collected([(Ollama, ReplyOr(ollama))], ModelsOrDefault(models), registered, api)
  }

  /** After the loop, every asked model holds its reply and every other key what it held before. */
  lemma {:induction false} CollectedGets(acc: Responses, models: seq<string>, registered: set<string>,
                                         api: string -> Option<string>)
    ensures var r := Collected(acc, models, registered, api);
      forall k :: Get(r, k) == if k in models && Asks(k, registered) then Some(ReplyOr(api(k))) else Get(acc, k)
    decreases |models|
  {
    if models != [] {
      CollectedGets(Consulted(acc, models[0], registered, api), models[1..], registered, api);
      assert forall k :: k in models <==> k == models[0] || k in models[1..];
    }
  }

  /** The loop only appends keys: the answers already there keep their places, and no key repeats. */
  lemma {:induction false} CollectedKeys(acc: Responses, models: seq<string>, registered: set<string>,
                                         api: string -> Option<string>)
    ensures var r := Collected(acc, models, registered, api);
      |Keys(acc)| <= |Keys(r)| && Keys(r)[..|acc|] == Keys(acc) && (Valid(acc) ==> Valid(r))
    decreases |models|
  {
    if models != [] {
      var acc' := Consulted(acc, models[0], registered, api);
      CollectedKeys(acc', models[1..], registered, api);
      var r := Collected(acc', models[1..], registered, api);
      assert Keys(r)[..|acc|] == Keys(r)[..|acc'|][..|acc|];
    }
  }

  /**
   * The answers always start with "ollama", holding the local reply or the
   * error text; any other model has an entry exactly when it was named (or
   * is a default) and is registered, and that entry is its reply. No model
   * appears twice.
   */
  lemma ModelResponsesKeys(models: seq<string>, registered: set<string>, ollama: Option<string>,
                           api: string -> Option<string>)
    ensures var r := ModelResponses(models, registered, ollama, api);
      Valid(r) && r != [] && r[0].0 == Ollama && Get(r, Ollama) == Some(ReplyOr(ollama))
      && (forall m :: m != Ollama ==>
            (HasKey(r, m) <==> m in ModelsOrDefault(models) && m in registered))
      && (forall m :: m != Ollama && HasKey(r, m) ==> Get(r, m) == Some(ReplyOr(api(m))))
  {
    var acc := [(Ollama, ReplyOr(ollama))];
    var ms := ModelsOrDefault(models);
    CollectedGets(acc, ms, registered, api);
    CollectedKeys(acc, ms, registered, api);
    var r := Collected(acc, ms, registered, api);
    assert Keys(r)[..1] == [Ollama];
    assert Keys(r)[0] == Ollama;
    forall m | m != Ollama
      ensures Get(acc, m) == None
    {
      GetCons(acc, m);
    }
    GetCons(acc, Ollama);
  }

  // ------------------------------------------------------------ analysis

  /** `len(r) if len(r) < 1000 else 0` */
  function LengthScore(response: string): nat {
    if |response| < MaxReasonableLength then |response| else 0
  }

  function LengthScores(responses: Responses): (ss: seq<int>) {
    seq(|responses|, j requires 0 <= j < |responses| => LengthScore(responses[j].1))
  }

  datatype Analysis = Analysis(bestResponse: string, commonPoints: seq<string>,
                               uniqueInsights: seq<(string, string)>, qualityScores: seq<(string, int)>,
                               responses: Responses)

  /**
   * `analyze_responses`: the first answer with the highest length score
   * becomes the best one, the other parts stay empty and the answers are
   * carried along unchanged. Python's `max` raises on an empty dictionary,
   * which is None here.
   */
  function Analyze(responses: Responses): (r: Option<Analysis>)
    ensures r.None? <==> responses == []
    ensures r.Some? ==> (r.value.responses == responses && r.value.commonPoints == []
      && r.value.uniqueInsights == [] && r.value.qualityScores == [])
    ensures r.Some? ==> exists i :: (0 <= i < |responses| && r.value.bestResponse == responses[i].1
      && (forall j :: 0 <= j < |responses| ==> LengthScore(responses[j].1) <= LengthScore(responses[i].1))
      && (forall j :: 0 <= j < i ==> LengthScore(responses[j].1) < LengthScore(responses[i].1)))
  {
    if responses == [] then None
    else
      var ss := LengthScores(responses);
      var i := ArgMax(ss);
      assert forall j :: 0 <= j < |responses| ==> ss[j] == LengthScore(responses[j].1);
      Some(Analysis(responses[i].1, [], [], [], responses))
  }

  /**
   * When some answer is non-empty and under 1000 characters, the best answer
   * is under 1000 characters too and at least as long as every such answer.
   */
  lemma BestIsLongestReasonable(responses: Responses)
    requires exists j :: 0 <= j < |responses| && 0 < |responses[j].1| < MaxReasonableLength
    ensures var best := Analyze(responses).value.bestResponse;
      |best| < MaxReasonableLength
      && forall j :: 0 <= j < |responses| && |responses[j].1| < MaxReasonableLength ==> |responses[j].1| <= |best|
  {
    var j0 :| 0 <= j0 < |responses| && 0 < |responses[j0].1| < MaxReasonableLength;
    var i :| 0 <= i < |responses| && Analyze(responses).value.bestResponse == responses[i].1
      && (forall j :: 0 <= j < |responses| ==> LengthScore(responses[j].1) <= LengthScore(responses[i].1));
    assert LengthScore(responses[i].1) >= LengthScore(responses[j0].1) > 0;
  }

  /** When no answer is both non-empty and under 1000 characters, the first answer is taken. */
  lemma NothingReasonablePicksFirst(responses: Responses)
    requires responses != []
    requires forall j :: 0 <= j < |responses| ==> LengthScore(responses[j].1) == 0
    ensures Analyze(responses).value.bestResponse == responses[0].1
  {
    var i :| 0 <= i < |responses| && Analyze(responses).value.bestResponse == responses[i].1
      && (forall j :: 0 <= j < i ==> LengthScore(responses[j].1) < LengthScore(responses[i].1));
    assert LengthScore(responses[0].1) == 0;
  }

  // ------------------------------------------------------------ learning records

  /** One record of the learning file. */
  datatype LearningRecord = LearningRecord(question: string, multiResponses: Responses,
                                           selectedBest: string, timestamp: string)

  /** The file's records after `save_learning_data(data)`. */
  function SavedRecords(existing: seq<LearningRecord>, data: LearningRecord): seq<LearningRecord> {
    TakeLast(existing + [data], KeptRecords)
  }

  /**
   * The new record is always kept, last; the file never holds more than
   * 100 records; below that nothing is dropped, and at the cap the oldest
   * records go first.
   */
  lemma SavedRecordsCapped(existing: seq<LearningRecord>, data: LearningRecord)
    ensures var r := SavedRecords(existing, data);
      0 < |r| <= KeptRecords && r[|r| - 1] == data
      && (|existing| < KeptRecords ==> r == existing + [data])
      && (|existing| >= KeptRecords ==> r == existing[|existing| - (KeptRecords - 1)..] + [data])
  {
    var s := existing + [data];
    if |existing| >= KeptRecords {
      assert s[|s| - KeptRecords..] == existing[|existing| - (KeptRecords - 1)..] + [data];
    }
  }

  // ------------------------------------------------------------ smart response

  /** What `get_smart_response` comes to. */
  datatype SmartOutcome =
    | Answered(reply: string)
      /**
       * No learned answer: the default models were asked and answered
       * `asked`. The source goes on into `learn_from_multi_model`, whose
       * first call names a method the learning system does not have
       * (multi_model_learning.py:64), so no reply follows.
       */
    | AskedModels(asked: Responses)

  /**
   * `get_smart_response`: a non-empty learned answer, prefixed, without
   * asking any model; otherwise the default models are asked.
   */
  function SmartResponse(d: FoxLearning.LearnedData, question: string, registered: set<string>,
                         ollama: Option<string>, api: string -> Option<string>): SmartOutcome
  {
    var learned := FoxLearning.Reply(d, question);
    if learned.Some? && learned.value != "" then Answered(LearnedPrefix + learned.value)
    else AskedModels(ModelResponses([], registered, ollama, api))
  }

  /**
   * A learned answer is given whatever the models would say, and only then
   * is none of them asked.
   */
  lemma LearnedAnswerAsksNoModel(d: FoxLearning.LearnedData, question: string,
                                 registered: set<string>, ollama: Option<string>, api: string -> Option<string>,
                                 registered': set<string>, ollama': Option<string>, api': string -> Option<string>)
    ensures var learned := FoxLearning.Reply(d, question);
      (SmartResponse(d, question, registered, ollama, api).Answered? <==> (learned.Some? && learned.value != ""))
      && (learned.Some? && learned.value != "" ==>
            SmartResponse(d, question, registered, ollama, api)
              == SmartResponse(d, question, registered', ollama', api')
              == Answered(LearnedPrefix + learned.value))
  {
  }

  class MultiModelLearning {
    const fox: FoxLearning.FoxLearningSystem
    /** What the learning file holds, or None while it does not exist. */
    var file: Option<seq<LearningRecord>>

    constructor(fox: FoxLearning.FoxLearningSystem, file: Option<seq<LearningRecord>>)
      ensures this.fox == fox && this.file == file
    {
      this.fox := fox;
      this.file := file;
    }

    /** The loop of `get_multi_model_response`. */
    static method GetMultiModelResponse(models: seq<string>, registered: set<string>, ollama: Option<string>,
                                        api: string -> Option<string>) returns (responses: Responses)
      ensures responses == ModelResponses(models, registered, ollama, api)
    {
      var ms := if models == [] then DefaultModels else models;
      responses := [(Ollama, ReplyOr(ollama))];
      var i := 0;
      while i < |ms|
        invariant i <= |ms|
        invariant Collected(responses, ms[i..], registered, api) == ModelResponses(models, registered, ollama, api)
      {
        var m := ms[i];
        assert ms[i..][1..] == ms[i + 1..];
        if m != Ollama && m in registered {
          responses := Put(responses, m, ReplyOr(api(m)));
        }
        i := i + 1;
      }
    }

    /** `save_learning_data`: appends the record and keeps the last 100. */
    method SaveLearningData(data: LearningRecord)
      modifies this
      ensures file == Some(SavedRecords(old(file).GetOr([]), data))
    {
      var existing := if file.Some? then file.value else [];
      existing := existing + [data];
      if |existing| > KeptRecords {
        existing := existing[|existing| - KeptRecords..];
      }
      file := Some(existing);
    }

    /** `get_smart_response`, as far as the learned lookup and the models' answers. */
    method GetSmartResponse(question: string, registered: set<string>, ollama: Option<string>,
                            api: string -> Option<string>) returns (r: SmartOutcome)
      requires fox.Valid()
      modifies fox
      ensures fox.Valid()
      ensures r == SmartResponse(old(fox.learnedData), question, registered, ollama, api)
      ensures fox.learnedData == FoxLearning.AfterReply(old(fox.learnedData), question)
      ensures fox.file == if FoxLearning.UsesTaught(old(fox.learnedData), question) then Some(fox.learnedData)
        else old(fox.file)
    {
      var learned := fox.GetLearnedResponse(question);
      if learned.Some? && learned.value != "" {
        return Answered(LearnedPrefix + learned.value);
      }
      var responses := GetMultiModelResponse([], registered, ollama, api);
      r := AskedModels(responses);
    }
  }
}
