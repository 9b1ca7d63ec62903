/**
 * Asking several AI providers at once and keeping the best answer
 * (backend/core/multi_ai_system.py). The feature is switched on and off by
 * a flag that is saved to a status file; the providers' answers arrive as
 * an ordered map from provider name to reply, in the order the provider
 * manager returned them.
 */
module MultiAiSystem {
  import opened Common
  import opened Text

  type Responses = seq<(string, string)>

  /** Fewest answers worth comparing. */
  const MinResponses: nat := 1

  /** Answers no longer than this once stripped are never picked. */
  const ShortestAnswer: nat := 10

  const EnabledPrefix := "✅ Multi-AI فعال شد! "
  const EnabledSuffix := " AI در دسترس"
  const DisabledMessage := "❌ Multi-AI غیرفعال شد! فقط از Fox محلی استفاده میکنم"

  /** A character in the Arabic-script block, where Persian letters lie. */
  predicate IsPersian(c: char) {
    '\U{0600}' <= c <= '\U{06FF}'
  }

  /** How many Persian characters `s` holds. */
  function PersianCount(s: string): (n: nat)
    ensures n <= |s|
  {
    if s == [] then 0 else (if IsPersian(s[0]) then 1 else 0) + PersianCount(s[1..])
  }

  /** Length plus two points per Persian character. */
  function Score(response: string): (n: int)
    ensures |response| <= n <= 3 * |response|
  {
    |response| + 2 * PersianCount(response)
  }

  /** An answer that may be picked: more than ten characters once stripped. */
  predicate Qualifies(response: string) {
    |Strip(response)| > ShortestAnswer
  }

  /** The score an answer competes with: nothing for one that does not qualify. */
  function CompetingScore(response: string): int {
    if Qualifies(response) then Score(response) else 0
  }

  /** Each answer's competing score, in order. */
  function Scores(responses: Responses): (ss: seq<int>)
    ensures |ss| == |responses|
  {
    if responses == [] then [] else [CompetingScore(responses[0].1)] + Scores(responses[1..])
  }

  /** Entry `j` of `Scores` is answer `j`'s competing score. */
  lemma {:induction false} ScoresAt(responses: Responses, j: nat)
    requires j < |responses|
    ensures Scores(responses)[j] == CompetingScore(responses[j].1)
  {
    if j > 0 {
      ScoresAt(responses[1..], j - 1);
    }
  }

  /** The chosen answer, signed with its provider. */
  function Signed(provider: string, response: string): string {
    response + "\n\n💡 *از " + provider + "*"
  }

  /** The signed answer at `k`, when its score beats the initial 0. */
  function Chosen(responses: Responses, k: nat, score: int): Option<string>
    requires k < |responses|
  {
    if score > 0 then Some(Signed(responses[k].0, responses[k].1)) else None
  }

  /**
   * `get_best_response`: nothing while disabled or with too few answers;
   * otherwise the first answer with the highest score among those that
   * qualify, or nothing when none does.
   */
  function BestResponse(enabled: bool, responses: Responses): (r: Option<string>)
    ensures r.Some? ==> enabled && |responses| >= MinResponses
    ensures r.Some? ==> exists i :: (0 <= i < |responses| && Qualifies(responses[i].1)
      && r.value == Signed(responses[i].0, responses[i].1)
      && (forall j :: 0 <= j < |responses| && Qualifies(responses[j].1) ==>
            Score(responses[j].1) <= Score(responses[i].1))
      && (forall j :: 0 <= j < i && Qualifies(responses[j].1) ==>
            Score(responses[j].1) < Score(responses[i].1)))
    ensures r.None? && enabled && |responses| >= MinResponses ==>
      forall j :: 0 <= j < |responses| ==> !Qualifies(responses[j].1)
  {
    if !enabled || |responses| < MinResponses then None
    else
      QualifyingCompete(responses);
      var ss := Scores(responses);
      var i := ArgMax(ss);
      Chosen(responses, i, ss[i])
  }

  /** A qualifying answer scores more than the empty choice's 0. */
  lemma QualifyingScoresPositive(response: string)
    requires Qualifies(response)
    ensures Score(response) > ShortestAnswer
  {
    assert |Strip(response)| <= |response|;
  }

  /** The competing score is the real score exactly for qualifying answers, and positive there. */
  lemma QualifyingCompete(responses: Responses)
    ensures forall j :: 0 <= j < |responses| ==>
      (Qualifies(responses[j].1) ==> Scores(responses)[j] == Score(responses[j].1) > 0)
      && (!Qualifies(responses[j].1) ==> Scores(responses)[j] == 0)
  {
    forall j | 0 <= j < |responses|
      ensures (Qualifies(responses[j].1) ==> Scores(responses)[j] == Score(responses[j].1) > 0)
        && (!Qualifies(responses[j].1) ==> Scores(responses)[j] == 0)
    {
      ScoresAt(responses, j);
      if Qualifies(responses[j].1) {
        QualifyingScoresPositive(responses[j].1);
      }
    }
  }

  /** With the system on, some answer is returned exactly when one qualifies. */
  lemma AnswerPickedIff(responses: Responses)
    ensures BestResponse(true, responses).Some? <==>
      exists i :: 0 <= i < |responses| && Qualifies(responses[i].1)
  {
    if i :| 0 <= i < |responses| && Qualifies(responses[i].1) {
      QualifyingCompete(responses);
      var ss := Scores(responses);
      assert ss[ArgMax(ss)] >= ss[i] > 0;
    }
  }

  /**
   * The scoring loop's best score and kept answer after the first `i`
   * answers, whose scores are `ss`, one answer at a time as the source
   * goes through them.
   */
  function PickedAfter(responses: Responses, ss: seq<int>, i: nat): (int, Option<string>)
    requires i <= |responses| == |ss|
  {
    if i == 0 then (0, None)
    else
      var (bestScore, best) := PickedAfter(responses, ss, i - 1);
      if ss[i - 1] > bestScore then (ss[i - 1], Some(Signed(responses[i - 1].0, responses[i - 1].1)))
      else (bestScore, best)
  }

  /**
   * With scores that are never negative, after `i > 0` answers the loop
   * holds the first best of them, or nothing when the best score is 0.
   */
  lemma {:induction false} PickedAfterIsArgMax(responses: Responses, ss: seq<int>, i: nat)
    requires 0 < i <= |responses| == |ss|
    requires forall j :: 0 <= j < |ss| ==> ss[j] >= 0
    ensures var k := ArgMaxUpTo(ss, i);
      PickedAfter(responses, ss, i) == (ss[k], Chosen(responses, k, ss[k]))
  {
    if i > 1 {
      PickedAfterIsArgMax(responses, ss, i - 1);
    }
  }

  class MultiAiSystem {
    var enabled: bool
    /** The `enabled` value in the status file, once it has been written. */
    var savedStatus: Option<bool>

    /**
     * Loads the flag from the status file: `stored` is its `enabled` value,
     * or None when the file is missing, unreadable or has no such key.
     */
    constructor(stored: Option<bool>)
      ensures enabled == stored.GetOr(false) && savedStatus == stored
    {
      enabled := stored.GetOr(false);
      savedStatus := stored;
    }

    /** Switches the feature on, saves the flag and reports how many providers are ready. */
    method Enable(available: nat) returns (msg: string)
      modifies this
      ensures enabled && savedStatus == Some(true)
      ensures msg == EnabledPrefix + NatToString(available) + EnabledSuffix
    {
      enabled := true;
      savedStatus := Some(enabled);
      msg := EnabledPrefix + NatToString(available) + EnabledSuffix;
    }

    method Disable() returns (msg: string)
      modifies this
      ensures !enabled && savedStatus == Some(false)
      ensures msg == DisabledMessage
    {
      enabled := false;
      savedStatus := Some(enabled);
      msg := DisabledMessage;
    }

    function IsEnabled(): bool
      reads this
    {
      enabled
    }

    /** `get_status`: the flag and the names of the available providers. */
    function Status(providerNames: seq<string>): (status: string)
      reads this
      ensures enabled ==> Contains(status, "🟢 فعال")
      ensures !enabled ==> Contains(status, "🔴 غیرفعال")
      ensures forall k :: 0 <= k < |providerNames| ==> Contains(status, providerNames[k])
    {
      var flag := if enabled then "🟢 فعال" else "🔴 غیرفعال";
      var names := Join(providerNames, ", ");
      var head := "🤖 Multi-AI: " + flag + "\n📡 AI های موجود: ";
      ContainsPiece("🤖 Multi-AI: ", flag, "\n📡 AI های موجود: " + names);
      assert "🤖 Multi-AI: " + flag + ("\n📡 AI های موجود: " + names) == head + names;
      forall k | 0 <= k < |providerNames| ensures Contains(head + names, providerNames[k]) {
        JoinContains(providerNames, ", ", k);
        ContainsAfter(head, names, providerNames[k]);
      }
      head + names
    }

    /** `get_best_response`: the guards, then the scoring loop over the providers' answers. */
    method GetBestResponse(responses: Responses) returns (best: Option<string>)
      ensures best == BestResponse(enabled, responses)
    {
      if !enabled {
        return None;
      }
      if |responses| < MinResponses {
        return None;
      }
      best := PickBest(responses);
    }

    /** The score of one answer: 0 unless it is long enough once stripped. */
    static method Rate(response: string) returns (score: int)
      ensures score == CompetingScore(response)
    {
      score := 0;
      if |Strip(response)| > ShortestAnswer {
        score := |response| + 2 * PersianCount(response);
      }
    }

    /** Keeps the first answer with the highest competing score, as the source's loop does. */
    static method PickBest(responses: Responses) returns (best: Option<string>)
      requires responses != []
      ensures var ss := Scores(responses); var k := ArgMaxUpTo(ss, |ss|);
        best == Chosen(responses, k, ss[k])
    {
      ghost var ss := Scores(responses);
      best := None;
      var bestScore := 0;
      var i := 0;
      while i < |responses|
        invariant i <= |responses| && (bestScore, best) == PickedAfter(responses, ss, i)
      {
        var (provider, response) := responses[i];
        var score := Rate(response);
        ScoresAt(responses, i);
        if score > bestScore {
          bestScore := score;
          best := Some(Signed(provider, response));
        }
        i := i + 1;
      }
      forall j | 0 <= j < |ss|
        ensures ss[j] >= 0
      {
        ScoresAt(responses, j);
      }
      PickedAfterIsArgMax(responses, ss, |responses|);
    }
  }
}
