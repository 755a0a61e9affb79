/**
 * The LLM call guard of the response generator: the sliding-window rate
 * limiter, the early-return branches of `generate_response`, the context a
 * resident's conversation reply is generated from, the always-successful
 * conversation answer, and the small string functions of the fallback reply.
 * The client itself is a foreign call: its outcome is a parameter.
 */
module ResponseGenerator {
  import opened Wrappers
  import opened Text
  import opened Builtins

  // ---------------------------------------------------------------------
  // Sliding-window rate limiter
  // ---------------------------------------------------------------------

  /** Length of the rate window, in seconds. */
  const Window: int := 60

  /** A request time that is still inside the window at `now`. */
  predicate InWindow(t: int, now: int)
  {
    now - t < Window
  }

  /** `[t for t in request_times if now - t < 60]`. */
  function Recent(times: seq<int>, now: int): seq<int>
  {
    if times == [] then []
    else (if InWindow(times[0], now) then [times[0]] else []) + Recent(times[1..], now)
  }

  /** The same filter over the `(time, tokens)` pairs of `token_usage`. */
  function RecentUsage(usage: seq<(int, int)>, now: int): seq<(int, int)>
  {
    if usage == [] then []
    else (if InWindow(usage[0].0, now) then [usage[0]] else []) + RecentUsage(usage[1..], now)
  }

  /** `sum(tokens for _, tokens in token_usage)`. */
  function TokenSum(usage: seq<(int, int)>): int
  {
    if usage == [] then 0 else usage[0].1 + TokenSum(usage[1..])
  }

  /** The cleanup keeps exactly the times inside the window, and never adds one. */
  lemma {:induction false} RecentSpec(times: seq<int>, now: int)
    ensures |Recent(times, now)| <= |times|
    ensures forall t :: t in Recent(times, now) <==> t in times && InWindow(t, now)
  {
    if times != [] {
      RecentSpec(times[1..], now);
      assert times == [times[0]] + times[1..];
    }
  }

  /** The cleanup keeps exactly the usage entries inside the window. */
  lemma {:induction false} RecentUsageSpec(usage: seq<(int, int)>, now: int)
    ensures |RecentUsage(usage, now)| <= |usage|
    ensures forall e :: e in RecentUsage(usage, now) <==> e in usage && InWindow(e.0, now)
  {
    if usage != [] {
      RecentUsageSpec(usage[1..], now);
      assert usage == [usage[0]] + usage[1..];
    }
  }

  /** Cleaning at an earlier time and then at a later one is the same as cleaning at the later one. */
  lemma {:induction false} RecentLater(times: seq<int>, earlier: int, later: int)
    requires earlier <= later
    ensures Recent(Recent(times, earlier), later) == Recent(times, later)
  {
    if times != [] {
      RecentLater(times[1..], earlier, later);
      if InWindow(times[0], earlier) {
        var kept := Recent(times, earlier);
        assert kept == [times[0]] + Recent(times[1..], earlier);
        assert kept[0] == times[0] && kept[1..] == Recent(times[1..], earlier);
      } else {
        assert !InWindow(times[0], later);
        assert Recent(times, earlier) == Recent(times[1..], earlier);
      }
    }
  }

  /** Summing the usage after one more entry. */
  lemma {:induction false} TokenSumAppend(usage: seq<(int, int)>, e: (int, int))
    ensures TokenSum(usage + [e]) == TokenSum(usage) + e.1
  {
    if usage != [] {
      assert (usage + [e])[1..] == usage[1..] + [e];
      TokenSumAppend(usage[1..], e);
    }
  }

  /** The verdict of `can_make_request`, with the reason of a refusal. */
  datatype Admission = Admitted | TooManyRequests | TooManyTokens

  /** The admission rule on the already-cleaned window: request count first, then the token budget. */
  function Admit(times: seq<int>, usage: seq<(int, int)>, requestsPerMinute: int, tokensPerMinute: int,
                 estimated: int): (a: Admission)
    ensures a == Admitted <==> |times| < requestsPerMinute && TokenSum(usage) + estimated <= tokensPerMinute
    ensures a == TooManyRequests <==> |times| >= requestsPerMinute
  {
    if |times| >= requestsPerMinute then TooManyRequests
    else if TokenSum(usage) + estimated > tokensPerMinute then TooManyTokens
    else Admitted
  }

  /** The usage list after `record_request(tokens_used)` at `now`. */
  function RecordedUsage(usage: seq<(int, int)>, now: int, tokensUsed: int): seq<(int, int)>
  {
    if tokensUsed > 0 then usage + [(now, tokensUsed)] else usage
  }

  /**
   * An admitted request that is then recorded, using no more tokens than
   * estimated, leaves the window within both limits.
   */
  lemma AdmittedStaysWithinLimits(times: seq<int>, usage: seq<(int, int)>, requestsPerMinute: int,
                                  tokensPerMinute: int, estimated: int, now: int, tokensUsed: int)
    requires Admit(times, usage, requestsPerMinute, tokensPerMinute, estimated) == Admitted
    requires tokensUsed <= estimated && estimated >= 0
    ensures |times + [now]| <= requestsPerMinute
    ensures TokenSum(RecordedUsage(usage, now, tokensUsed)) <= tokensPerMinute
  {
    TokenSumAppend(usage, (now, tokensUsed));
  }

  /** `RateLimiter`: request times and `(time, tokens)` usage of the last minute. */
  class RateLimiter {
    const requestsPerMinute: int
    const tokensPerMinute: int
    var requestTimes: seq<int>
    var tokenUsage: seq<(int, int)>

    /** A limiter with the given limits (60 requests and 90000 tokens by default) and no history. */
    constructor(requestsPerMinute: int, tokensPerMinute: int)
      ensures this.requestsPerMinute == requestsPerMinute && this.tokensPerMinute == tokensPerMinute
      ensures requestTimes == [] && tokenUsage == []
    {
      this.requestsPerMinute := requestsPerMinute;
      this.tokensPerMinute := tokensPerMinute;
      requestTimes := [];
      tokenUsage := [];
    }

    /**
     * `can_make_request`: drops the entries that left the window, then
     * decides; it records nothing.
     */
    method CanMakeRequest(now: int, estimated: int) returns (verdict: Admission)
      modifies this
      ensures requestTimes == Recent(old(requestTimes), now)
      ensures tokenUsage == RecentUsage(old(tokenUsage), now)
      ensures verdict == Admit(requestTimes, tokenUsage, requestsPerMinute, tokensPerMinute, estimated)
    {
      requestTimes := Recent(requestTimes, now);
      tokenUsage := RecentUsage(tokenUsage, now);
      verdict := Admit(requestTimes, tokenUsage, requestsPerMinute, tokensPerMinute, estimated);
    }

    /** `record_request`: always one more request time, a usage entry only for a positive token count. */
    method RecordRequest(now: int, tokensUsed: int)
      modifies this
      ensures requestTimes == old(requestTimes) + [now]
      ensures tokenUsage == RecordedUsage(old(tokenUsage), now, tokensUsed)
    {
      requestTimes := requestTimes + [now];
      if tokensUsed > 0 {
        tokenUsage := tokenUsage + [(now, tokensUsed)];
      }
    }
  }

  // ---------------------------------------------------------------------
  // generate_response
  // ---------------------------------------------------------------------

  /** Token counts reported by the client. */
  datatype Usage = Usage(promptTokens: int, completionTokens: int, totalTokens: int)

  /** What the chat-completion call did: raised, or answered (content and usage may be absent). */
  datatype Completion =
    | CallRaised(reason: string)
    | Completed(content: Option<string>, usage: Option<Usage>, model: string, finishReason: string)

  /** Why a response has no content. */
  datatype Failure = NoFailure | NotInitialized | RateLimited(verdict: Admission) | Raised(message: string)

  /** `LLMResponse`; the error message is represented by its cause. */
  datatype LLMResponse = LLMResponse(content: string, usage: map<string, int>, model: string, finishReason: string,
                                     responseTime: real, success: bool, failure: Failure)

  /** The empty response of every failure path. */
  function Failed(finishReason: string, failure: Failure): LLMResponse
  {
    LLMResponse("", map[], "", finishReason, 0.0, false, failure)
  }

  /** `len(system_prompt + user_prompt) // 4`. */
  function EstimatedTokens(systemPrompt: string, userPrompt: string): (n: nat)
    ensures 4 * n <= |systemPrompt| + |userPrompt| < 4 * n + 4
  {
    (|systemPrompt| + |userPrompt|) / 4
  }

  /** `response.usage.total_tokens if response.usage else 0`. */
  function TokensUsed(usage: Option<Usage>): int
  {
    if usage.Some? then usage.value.totalTokens else 0
  }

  /** The usage dictionary of a successful response. */
  function UsageMap(usage: Option<Usage>): (m: map<string, int>)
    ensures m.Keys == {"prompt_tokens", "completion_tokens", "total_tokens"}
    ensures usage.None? ==> m.Values == {0}
  {
    if usage.Some? then
      map["prompt_tokens" := usage.value.promptTokens, "completion_tokens" := usage.value.completionTokens,
          "total_tokens" := usage.value.totalTokens]
    else
      map["prompt_tokens" := 0, "completion_tokens" := 0, "total_tokens" := 0]
  }

  /**
   * The response `generate_response` builds once the client exists, the
   * prompts are formatted and the request was admitted.
   */
  function Answered(completion: Completion, elapsed: real): (r: LLMResponse)
    ensures r.success <==> completion.Completed?
    ensures completion.Completed? ==> r.content == (if completion.content.Some? then completion.content.value else "")
    ensures completion.CallRaised? ==> r == Failed("error", Raised(completion.reason))
  {
    match completion
    case CallRaised(reason) => Failed("error", Raised(reason))
    case Completed(content, usage, model, finishReason) =>
      LLMResponse(if content.Some? then content.value else "", UsageMap(usage), model, finishReason, elapsed,
                  true, NoFailure)
  }

  /** The response generator: whether a client was set up, and its rate limiter. */
  class Generator {
    const hasClient: bool
    const limiter: RateLimiter

    constructor(hasClient: bool, requestsPerMinute: int, tokensPerMinute: int)
      ensures this.hasClient == hasClient
      ensures fresh(limiter) && limiter.requestsPerMinute == requestsPerMinute
      ensures limiter.tokensPerMinute == tokensPerMinute && limiter.requestTimes == [] && limiter.tokenUsage == []
    {
      this.hasClient := hasClient;
      limiter := new RateLimiter(requestsPerMinute, tokensPerMinute);
    }

    /**
     * `generate_response`. `prompt` is what `get_prompt` gave (or the message
     * of the error it raised), `now` the clock and `completion` the outcome of
     * the client call, with `elapsed` its duration.
     */
    method GenerateResponse(prompt: Result<(string, string), string>, now: int, completion: Completion, elapsed: real)
      returns (r: LLMResponse)
      modifies limiter
      ensures !hasClient ==> r == Failed("error", NotInitialized) && unchanged(limiter)
      ensures hasClient && prompt.Err? ==> r == Failed("error", Raised(prompt.error)) && unchanged(limiter)
      ensures hasClient && prompt.Ok? ==>
        var (system, user) := prompt.value;
        var verdict := Admit(Recent(old(limiter.requestTimes), now), RecentUsage(old(limiter.tokenUsage), now),
                             limiter.requestsPerMinute, limiter.tokensPerMinute, EstimatedTokens(system, user));
        if verdict != Admitted then
          r == Failed("rate_limited", RateLimited(verdict))
          && limiter.requestTimes == Recent(old(limiter.requestTimes), now)
          && limiter.tokenUsage == RecentUsage(old(limiter.tokenUsage), now)
        else if completion.CallRaised? then
          r == Failed("error", Raised(completion.reason))
          && limiter.requestTimes == Recent(old(limiter.requestTimes), now)
          && limiter.tokenUsage == RecentUsage(old(limiter.tokenUsage), now)
        else
          r == Answered(completion, elapsed)
          && limiter.requestTimes == Recent(old(limiter.requestTimes), now) + [now]
          && limiter.tokenUsage
             == RecordedUsage(RecentUsage(old(limiter.tokenUsage), now), now, TokensUsed(completion.usage))
    {
      if !hasClient {
        return Failed("error", NotInitialized);
      }
      if prompt.Err? {
        return Failed("error", Raised(prompt.error));
      }
      var (system, user) := prompt.value;
      var verdict := limiter.CanMakeRequest(now, EstimatedTokens(system, user));
      if verdict != Admitted {
        return Failed("rate_limited", RateLimited(verdict));
      }
      if completion.CallRaised? {
        return Failed("error", Raised(completion.reason));
      }
      limiter.RecordRequest(now, TokensUsed(completion.usage));
      r := Answered(completion, elapsed);
    }
  }

  // ---------------------------------------------------------------------
  // generate_agent_conversation_response
  // ---------------------------------------------------------------------

  const HistoryHeader: string := "最近的聊天记录："
  const TurnHeader: string := "\n本轮对话中前面居民的发言："
  const OwnHeader: string := "\n我自己之前的发言："
  const NoHistory: string := "暂无对话历史"

  /** The lines of the conversation context, before joining. */
  function ContextParts(history: seq<string>, current: seq<string>, isFirstSpeaker: bool, own: seq<string>): seq<string>
  {
    (if history != [] then [HistoryHeader] + Tail(history, 5) else [])
    + (if current != [] && !isFirstSpeaker then [TurnHeader] + current else [])
    + (if own != [] then [OwnHeader] + Tail(own, 3) else [])
  }

  /** The conversation context handed to the prompt. */
  function ConversationContext(history: seq<string>, current: seq<string>, isFirstSpeaker: bool,
                               own: seq<string>): string
  {
    var parts := ContextParts(history, current, isFirstSpeaker, own);
    if parts != [] then Join(parts, "\n") else NoHistory
  }

  /** The context opens with the history header and the newest (at most) 5 history lines. */
  lemma ContextShowsNewestHistory(history: seq<string>, current: seq<string>, isFirstSpeaker: bool, own: seq<string>)
    requires history != []
    ensures var n := if |history| < 5 then |history| else 5;
      var parts := ContextParts(history, current, isFirstSpeaker, own);
      |parts| > n && parts[0] == HistoryHeader && parts[1..n + 1] == history[|history| - n..]
  {
    var n := if |history| < 5 then |history| else 5;
    var parts := ContextParts(history, current, isFirstSpeaker, own);
    var head := [HistoryHeader] + Tail(history, 5);
    assert parts[..n + 1] == head;
    assert parts[1..n + 1] == head[1..];
  }

  /** The context closes with the own-lines header and the resident's newest (at most) 3 lines. */
  lemma ContextEndsWithOwnLines(history: seq<string>, current: seq<string>, isFirstSpeaker: bool, own: seq<string>)
    requires own != []
    ensures var n := if |own| < 3 then |own| else 3;
      var parts := ContextParts(history, current, isFirstSpeaker, own);
      |parts| > n && parts[|parts| - n - 1] == OwnHeader && parts[|parts| - n..] == own[|own| - n..]
  {
    var front := (if history != [] then [HistoryHeader] + Tail(history, 5) else [])
      + (if current != [] && !isFirstSpeaker then [TurnHeader] + current else []);
    var lines := Tail(own, 3);
    assert ContextParts(history, current, isFirstSpeaker, own) == front + ([OwnHeader] + lines);
    assert |lines| == (if |own| < 3 then |own| else 3) && lines == own[|own| - |lines|..];
    EndsWithBlock(front, OwnHeader, lines);
  }

  /** A block `[header] + lines` at the end of a list sits just before its last `|lines|` entries. */
  lemma EndsWithBlock(front: seq<string>, header: string, lines: seq<string>)
    ensures var parts := front + ([header] + lines);
      |parts| > |lines| && parts[|parts| - |lines| - 1] == header && parts[|parts| - |lines|..] == lines
  {
    var parts := front + ([header] + lines);
    assert parts[|front|] == header;
    assert parts[|front| + 1..] == lines;
  }

  /** Only the newest 5 history lines and the newest 3 own lines matter. */
  lemma ContextIgnoresOlderLines(older: seq<string>, history: seq<string>, current: seq<string>, isFirstSpeaker: bool,
                                 olderOwn: seq<string>, own: seq<string>)
    requires |history| >= 5 && |own| >= 3
    ensures ConversationContext(older + history, current, isFirstSpeaker, olderOwn + own)
         == ConversationContext(history, current, isFirstSpeaker, own)
  {
    assert (older + history)[|older + history| - 5..] == history[|history| - 5..];
    assert (olderOwn + own)[|olderOwn + own| - 3..] == own[|own| - 3..];
  }

  /** The first speaker's context ignores the lines of this turn. */
  lemma FirstSpeakerIgnoresTurn(history: seq<string>, current: seq<string>, own: seq<string>)
    ensures ConversationContext(history, current, true, own) == ConversationContext(history, [], false, own)
  {
  }

  /** The placeholder text is used exactly when there is nothing to show. */
  lemma NoHistoryExactlyWhenEmpty(history: seq<string>, current: seq<string>, isFirstSpeaker: bool, own: seq<string>)
    ensures ConversationContext(history, current, isFirstSpeaker, own) == NoHistory
      <==> history == [] && (current == [] || isFirstSpeaker) && own == []
  {
    var parts := ContextParts(history, current, isFirstSpeaker, own);
    if parts != [] {
      var r := Join(parts, "\n");
      assert parts[0] == HistoryHeader || parts[0] == TurnHeader || parts[0] == OwnHeader;
      assert |parts[0]| <= |r| && r[..|parts[0]|] == parts[0];
      assert r[0] == parts[0][0];
      assert NoHistory[0] != parts[0][0];
    }
  }


  /** The dictionary `generate_agent_conversation_response` returns, without the usage counts. */
  datatype Answer = Answer(success: bool, agentResponse: string, responseType: string, emotion: string)

  /**
   * `generate_agent_conversation_response`: `response` is what
   * `generate_response` gave when a client exists (`None` without one),
   * `parse` stands for `json.loads` and `fallback` is the intelligent
   * fallback reply. A parsed value that is not an object raises inside the
   * `try` and ends in the fallback.
   */
  function ConversationAnswer(response: Option<LLMResponse>, parse: string -> Json, fallback: string): Answer
  {
    if response.Some? && response.value.success then
      match parse(response.value.content)
      case Object(fields) =>
        Answer(true, Get(fields, "agent_response", ""), Get(fields, "response_type", "normal"),
               Get(fields, "emotion", "neutral"))
      case DecodeError => Answer(true, Strip(response.value.content), "normal", "neutral")
      case OtherValue => Answer(true, fallback, "fallback", "neutral")
    else Answer(true, fallback, "fallback", "neutral")
  }

  /**
   * The answer is a success on every path; it is a fallback exactly when no
   * usable reply came back, and a generated `agent_response` is passed on.
   */
  lemma ConversationAnswerSpec(response: Option<LLMResponse>, parse: string -> Json, fallback: string)
    ensures ConversationAnswer(response, parse, fallback).success
    ensures !(response.Some? && response.value.success) ==>
      ConversationAnswer(response, parse, fallback) == Answer(true, fallback, "fallback", "neutral")
    ensures response.Some? && response.value.success ==>
      match parse(response.value.content)
      case Object(fields) =>
        ("agent_response" in fields ==>
          ConversationAnswer(response, parse, fallback).agentResponse == fields["agent_response"])
      case DecodeError =>
        ConversationAnswer(response, parse, fallback).agentResponse == Strip(response.value.content)
        && ConversationAnswer(response, parse, fallback).responseType == "normal"
      case OtherValue =>
        ConversationAnswer(response, parse, fallback).agentResponse == fallback
  {
  }

  // ---------------------------------------------------------------------
  // Fallback helpers
  // ---------------------------------------------------------------------

  /** The keywords `_extract_topic_keywords` looks for, in list order. */
  const TopicKeywordList: seq<string> :=
    ["发展", "社群", "天气", "计划", "周末", "活动", "组织", "讨论",
     "建议", "想法", "问题", "解决", "改善", "提升", "合作", "参与"]

  /** `_extract_topic_keywords`: the listed keywords that occur in the lowercased topic, in list order. */
  function TopicKeywords(keywords: seq<string>, topic: string): (r: seq<string>)
    ensures |r| <= |keywords|
    ensures forall k :: k in r <==> k in keywords && Contains(Lower(topic), k)
  {
    Present(keywords, Lower(topic))
  }

  /** `r` is `xs` with some entries left out, the rest in their order. */
  predicate Subsequence(r: seq<string>, xs: seq<string>)
    decreases |xs|
  {
    if r == [] then true
    else if xs == [] then false
    else (r[0] == xs[0] && Subsequence(r[1..], xs[1..])) || Subsequence(r, xs[1..])
  }

  /** The extracted keywords keep the order of the keyword list. */
  lemma {:induction false} TopicKeywordsInListOrder(keywords: seq<string>, topic: string)
    ensures Subsequence(TopicKeywords(keywords, topic), keywords)
  {
    if keywords != [] {
      TopicKeywordsInListOrder(keywords[1..], topic);
      var r := TopicKeywords(keywords, topic);
      if Contains(Lower(topic), keywords[0]) {
        assert r[0] == keywords[0] && r[1..] == TopicKeywords(keywords[1..], topic);
      } else {
        assert r == TopicKeywords(keywords[1..], topic);
      }
    }
  }

  const SomeoneBefore: string := "前面的朋友"

  /** The speaker of the last line of this turn: the text before its first ':', or "前面的朋友". */
  function LastSpeaker(line: string): string
  {
    if ':' in line then line[..FirstIndex(line, ':')] else SomeoneBefore
  }

  /** What the last speaker said: the stripped text after the first ':', or "" without one. */
  function LastContent(line: string): string
  {
    if ':' in line then Strip(line[FirstIndex(line, ':') + 1..]) else ""
  }

  /**
   * With a ':' the line is `speaker + ":" + rest` for a speaker without ':'
   * and the content is `rest` stripped; without one the speaker is the
   * placeholder and the content is empty.
   */
  lemma LastSpeakerSpec(line: string)
    ensures ':' !in line ==> LastSpeaker(line) == SomeoneBefore && LastContent(line) == ""
    ensures ':' in line ==>
      ':' !in LastSpeaker(line) && exists rest :: line == LastSpeaker(line) + ":" + rest && LastContent(line) == Strip(rest)
  {
    if ':' in line {
      var k := FirstIndex(line, ':');
      assert line == line[..k] + ":" + line[k + 1..];
      assert forall c :: c in line[..k] ==> c != ':';
    }
  }

  /** The eleven reply lists of the fallback, named by the situation that picks them. */
  datatype FallbackCase =
    | ReturningOnDevelopment | ReturningOnOther
    | FirstOnDevelopment | FirstOnWeather | FirstOnPlans | FirstOnActivities | FirstOnOther
    | FollowingAgain(speaker: string) | FollowingAgreement(speaker: string) | FollowingActivity(speaker: string)
    | FollowingOther(speaker: string) | LaterWithoutTurn

  /** The branch of `_generate_intelligent_fallback_response` that picks the reply list. */
  function FallbackCaseFor(keywords: seq<string>, isFirstSpeaker: bool, current: seq<string>, own: seq<string>)
    : FallbackCase
  {
    if isFirstSpeaker then
      if |own| > 0 then
        (if "发展" in keywords || "社群" in keywords then ReturningOnDevelopment else ReturningOnOther)
      else if "发展" in keywords || "社群" in keywords then FirstOnDevelopment
      else if "天气" in keywords then FirstOnWeather
      else if "计划" in keywords || "周末" in keywords then FirstOnPlans
      else if "活动" in keywords then FirstOnActivities
      else FirstOnOther
    else if current != [] then
      var speaker := LastSpeaker(current[|current| - 1]);
      var content := LastContent(current[|current| - 1]);
      if |own| > 0 then FollowingAgain(speaker)
      else if Contains(content, "同意") || Contains(content, "支持") then FollowingAgreement(speaker)
      else if Contains(content, "活动") || Contains(content, "组织") then FollowingActivity(speaker)
      else FollowingOther(speaker)
    else LaterWithoutTurn
  }

  /** Whether a case answers somebody who spoke earlier in this turn. */
  predicate Follows(c: FallbackCase)
  {
    c.FollowingAgain? || c.FollowingAgreement? || c.FollowingActivity? || c.FollowingOther?
  }

  /**
   * The first speaker gets one of the topic lists; a later speaker answers the
   * last line of the turn, addressing its speaker, and one who spoke before
   * refers to it whatever the topic.
   */
  lemma FallbackCaseSpec(topic: string, isFirstSpeaker: bool, current: seq<string>, own: seq<string>)
    ensures var c := FallbackCaseFor(TopicKeywords(TopicKeywordList, topic), isFirstSpeaker, current, own);
      (isFirstSpeaker ==> !Follows(c) && c != LaterWithoutTurn)
      && (!isFirstSpeaker ==> (Follows(c) <==> current != []))
      && (Follows(c) ==> c.speaker == LastSpeaker(current[|current| - 1]))
      && (!isFirstSpeaker && current != [] && own != [] ==> c.FollowingAgain?)
      && ((isFirstSpeaker && own == [] && Contains(Lower(topic), "天气") && !Contains(Lower(topic), "发展")
           && !Contains(Lower(topic), "社群")) ==> c == FirstOnWeather)
  {
  }
}
