/**
 * The enhanced local chat handler: the same keyword topic classifier and
 * threshold selection as the smart handler with its own constants, a
 * sentiment in which a question marker overrides the word counts, replies
 * composed from templates (the first speaker greets, later speakers address
 * the previous one by the name before ':' of the last context line), a
 * personality touch, and a per-resident memory that grows by one entry per
 * reply.
 */
module EnhancedChat {
  import opened Wrappers
  import opened Text
  import opened Classify
  import opened Selection

  // ---------------------------------------------------------------- topic and sentiment

  /** `_init_topic_keywords`: the handler's topic table, in declaration order. */
  const TopicTable: seq<Category> := [
    Category("social", ["聊天", "交流", "朋友", "社交", "聚会", "活动", "见面", "认识"]),
    Category("health", ["健康", "身体", "运动", "锻炼", "医生", "病", "药", "治疗", "养生"]),
    Category("education", ["学习", "教育", "书", "知识", "课程", "培训", "技能", "成长"]),
    Category("work", ["工作", "职业", "事业", "项目", "任务", "同事", "老板", "薪水"]),
    Category("art", ["艺术", "画", "音乐", "创作", "设计", "美", "文化", "展览"]),
    Category("community", ["社群", "社区", "邻居", "建设", "发展", "改善", "合作", "团结"]),
    Category("daily", ["天气", "吃饭", "睡觉", "购物", "家务", "日常", "生活", "休息"]),
    Category("future", ["未来", "计划", "目标", "梦想", "希望", "期待", "发展", "改变"]),
    Category("technology", ["科技", "电脑", "手机", "网络", "软件", "程序", "数字", "智能"]),
    Category("entertainment", ["娱乐", "游戏", "电影", "电视", "音乐", "小说", "休闲", "放松"])
  ]

  /**
   * `_analyze_message_topic`: the category of `topics` with most hits in the
   * lowercased message (the first such in table order), else "social".
   */
  function AnalyzeTopic(topics: seq<Category>, message: string): (topic: string)
    ensures (forall k :: 0 <= k < |topics| ==> !ContainsAny(Lower(message), topics[k].keywords)) ==> topic == "social"
    ensures topic == "social" || exists i :: 0 <= i < |topics| && topic == topics[i].name
  {
    TopicOf(topics, Lower(message), "social")
  }

  /** The positive words of `_analyze_message_sentiment`. */
  const PositiveWords: seq<string> := ["好", "棒", "喜欢", "开心", "高兴", "满意", "成功", "希望", "美好"]

  /** The negative words of `_analyze_message_sentiment`. */
  const NegativeWords: seq<string> := ["不好", "糟糕", "讨厌", "难过", "失望", "失败", "问题", "困难"]

  /** The question markers of `_analyze_message_sentiment`. */
  const QuestionWords: seq<string> := ["吗", "呢", "如何", "怎么", "什么", "为什么", "？"]

  /**
   * `_analyze_message_sentiment`: questioning when any question marker occurs,
   * whatever the word counts; otherwise the side with strictly more hits, or
   * neutral on a tie.
   */
  function AnalyzeSentiment(message: string): (r: Sentiment)
    ensures r == Questioning <==> ContainsAny(Lower(message), QuestionWords)
    ensures r == Positive <==> (!ContainsAny(Lower(message), QuestionWords)
      && HitCount(PositiveWords, Lower(message)) > HitCount(NegativeWords, Lower(message)))
    ensures r == Negative <==> (!ContainsAny(Lower(message), QuestionWords)
      && HitCount(NegativeWords, Lower(message)) > HitCount(PositiveWords, Lower(message)))
    ensures r == Neutral <==> (!ContainsAny(Lower(message), QuestionWords)
      && HitCount(PositiveWords, Lower(message)) == HitCount(NegativeWords, Lower(message)))
  {
    QuestionFirstSentiment(Lower(message), PositiveWords, NegativeWords, QuestionWords)
  }

  // ---------------------------------------------------------------- profiles

  /** A resident's profile as the handler keeps it; `topicInterests` is the merged interest table. */
  datatype Profile = Profile(
    id: string,
    name: string,
    personality: string,
    occupation: string,
    topicInterests: map<string, real>,
    lastMessageTime: Option<int>,
    conversationCount: nat,
    recentTopics: seq<string>,
    energy: real)

  /** One entry of the per-resident conversation memory. */
  datatype MemoryEntry = MemoryEntry(timestamp: int, userMessage: string, agentResponse: string, topic: string)

  // ---------------------------------------------------------------- score, cap, delay

  /** The talk-willingness shift of a personality. */
  function PersonalityShift(personality: string): real
  {
    if personality == "外向型" || personality == "乐观开朗" then 0.2
    else if personality == "内向型" then -0.1
    else 0.0
  }

  /** The score before energy, the activity penalty and the jitter: 0.5, the topic interest (0.3 when absent) times 0.4, and the shift. */
  function BaseScore(p: Profile, topic: string): real
  {
    0.5 + (if topic in p.topicInterests then p.topicInterests[topic] else 0.3) * 0.4 + PersonalityShift(p.personality)
  }

  /**
   * `_calculate_participation_score`; `jitter` is the `random.uniform(0.8, 1.2)`
   * draw. Energy, the 0.8 penalty past five conversations and the jitter
   * scale the base score, which is then clamped to [0, 1].
   */
  function ParticipationScore(p: Profile, topic: string, jitter: real): (s: real)
    ensures 0.0 <= s <= 1.0
  {
    var penalty := if p.conversationCount > 5 then 0.8 else 1.0;
    Clamp(BaseScore(p, topic) * p.energy * penalty * jitter, 0.0, 1.0)
  }

  /** A resident who already spoke more than five times never scores above the same resident fresh. */
  lemma ActivityPenalty(p: Profile, topic: string, jitter: real)
    requires BaseScore(p, topic) >= 0.0 && p.energy >= 0.0 && jitter >= 0.0 && p.conversationCount > 5
    ensures ParticipationScore(p, topic, jitter) <= ParticipationScore(p.(conversationCount := 0), topic, jitter)
  {
    var be := BaseScore(p, topic) * p.energy;
    assert be >= 0.0;
    var x := be * jitter;
    assert x >= 0.0;
    assert be * 0.8 * jitter == x * 0.8;
    assert BaseScore(p.(conversationCount := 0), topic) == BaseScore(p, topic);
  }

  /** Every profile scored with its jitter draw, in profile order. */
  function ScoreAll(ids: seq<string>, profiles: map<string, Profile>, topic: string, jitter: nat -> real): (r: seq<Candidate>)
    requires forall k :: 0 <= k < |ids| ==> ids[k] in profiles
    ensures |r| == |ids|
    ensures forall k :: 0 <= k < |r| ==> r[k].id == ids[k] && 0.0 <= r[k].score <= 1.0
  {
    var r := seq(|ids|, k requires 0 <= k < |ids| => Candidate(ids[k], ParticipationScore(profiles[ids[k]], topic, jitter(k))));
    assert forall k :: 0 <= k < |r| ==> r[k] == Candidate(ids[k], ParticipationScore(profiles[ids[k]], topic, jitter(k)));
    r
  }

  /** `_determine_max_participants`; `roll` drives the `random.randint` draw. */
  function MaxParticipants(message: string, topic: string, roll: nat): (cap: nat)
    ensures Contains(message, "大家") || Contains(message, "所有人") ==> cap == 6
    ensures !(Contains(message, "大家") || Contains(message, "所有人")) && (topic == "community" || topic == "social")
      ==> 3 <= cap <= 5
    ensures !(Contains(message, "大家") || Contains(message, "所有人")) && !(topic == "community" || topic == "social")
      ==> 2 <= cap <= 4
  {
    if Contains(message, "大家") || Contains(message, "所有人") then 6
    else if topic == "community" || topic == "social" then RandInt(3, 5, roll) as nat
    else RandInt(2, 4, roll) as nat
  }

  /**
   * The `response_delay_range` of the conversation pattern a personality gets
   * (`_init_personality_patterns`); an unknown personality gets the outgoing pattern.
   */
  function DelayRange(personality: string): (r: (real, real))
    ensures 2.0 <= r.0 < r.1 <= 20.0
  {
    if personality == "内向型" then (8.0, 20.0)
    else if personality == "乐观开朗" then (3.0, 10.0)
    else if personality == "分析型" then (5.0, 15.0)
    else if personality == "创造型" then (4.0, 12.0)
    else (2.0, 8.0)
  }

  /**
   * `_calculate_response_delay`; `baseDraw` is the `random.uniform` draw over the
   * pattern's range and `orderDraw` is `random.uniform(2, 5)`.
   */
  function ResponseDelay(order: nat, score: real, baseDraw: real, orderDraw: real): (d: real)
    ensures 1.0 <= d <= 60.0
  {
    Clamp((baseDraw + order as real * orderDraw) * (2.0 - score), 1.0, 60.0)
  }

  /** With draws in their ranges and a score in [0, 1], nobody answers before the start of their pattern's range. */
  lemma DelayAtLeastRangeStart(personality: string, order: nat, score: real, baseDraw: real, orderDraw: real)
    requires DelayRange(personality).0 <= baseDraw <= DelayRange(personality).1
    requires 2.0 <= orderDraw <= 5.0 && 0.0 <= score <= 1.0
    ensures ResponseDelay(order, score, baseDraw, orderDraw) >= DelayRange(personality).0
  {
    var lo := DelayRange(personality).0;
    assert order as real >= 0.0;
    assert order as real * orderDraw >= 0.0;
    assert baseDraw + order as real * orderDraw >= lo;
    assert (baseDraw + order as real * orderDraw) * (1.0 - score) >= 0.0;
    assert (baseDraw + order as real * orderDraw) * (2.0 - score) >= lo;
  }

  // ---------------------------------------------------------------- composing a reply

  /** Which kind of reply a speaker composes: a greeting, or a follow-up addressed to `speaker`. */
  datatype Opening = First | FollowUp(speaker: string)

  /** The name the follow-up addresses: the text before the first ':' of the last context line, else "前面的朋友". */
  function LastSpeaker(line: string): (speaker: string)
  {
    if ':' in line then line[..FirstIndex(line, ':')] else "前面的朋友"
  }

  /** A context line `name: reply` names its speaker back, whatever the reply holds, when the name has no ':'. */
  lemma LastSpeakerOfLine(name: string, reply: string)
    requires ':' !in name
    ensures LastSpeaker(name + ": " + reply) == name
  {
    var line := name + ": " + reply;
    assert line[|name|] == ':';
    assert forall k :: 0 <= k < |name| ==> line[k] == name[k];
    assert FirstIndex(line, ':') == |name|;
    assert line[..|name|] == name;
  }

  /** The extracted speaker is a prefix of the line without ':'. */
  lemma LastSpeakerIsPrefix(line: string)
    requires ':' in line
    ensures LastSpeaker(line) == line[..|LastSpeaker(line)|] && ':' !in LastSpeaker(line)
  {
  }

  /**
   * `_generate_enhanced_response`'s choice: the first speaker greets, and so
   * does a later speaker when the context is still empty; everyone else
   * follows up on the last context line.
   */
  function OpeningFor(context: seq<string>, isFirst: bool): (o: Opening)
    ensures o == First <==> isFirst || context == []
  {
    if isFirst || context == [] then First else FollowUp(LastSpeaker(context[|context| - 1]))
  }

  /**
   * `_add_personality_touch`; `draw` is the `random.random()` draw. Optimists
   * may add " 😊", outgoing residents may add "！", and with energy above 0.8
   * every "。" becomes "！".
   */
  function PersonalityTouch(personality: string, energy: real, response: string, draw: real): string
  {
    var touched :=
      if personality == "乐观开朗" then (if draw < 0.3 then response + " 😊" else response)
      else if personality == "外向型" then (if draw < 0.2 then response + "！" else response)
      else response;
    if energy > 0.8 then ReplaceChar(touched, '。', '！') else touched
  }

  /** The reply before the touch's addition: `response`, with "。" made "！" under high energy. */
  function Touched(energy: real, response: string): string
  {
    if energy > 0.8 then ReplaceChar(response, '。', '！') else response
  }

  /** The touch keeps the (possibly re-punctuated) reply as its prefix and appends at most two characters. */
  lemma PersonalityTouchSpec(personality: string, energy: real, response: string, draw: real)
    ensures var r := PersonalityTouch(personality, energy, response, draw);
      |response| <= |r| <= |response| + 2 && r[..|response|] == Touched(energy, response)
    ensures energy <= 0.8 && personality != "乐观开朗" && personality != "外向型"
      ==> PersonalityTouch(personality, energy, response, draw) == response
  {
    var touched :=
      if personality == "乐观开朗" then (if draw < 0.3 then response + " 😊" else response)
      else if personality == "外向型" then (if draw < 0.2 then response + "！" else response)
      else response;
    assert touched[..|response|] == response;
    if energy > 0.8 {
      var r := ReplaceChar(touched, '。', '！');
      assert r[..|response|] == ReplaceChar(response, '。', '！');
    }
  }

  /** With energy above 0.8 no "。" is left in the touched reply. */
  lemma HighEnergyExclaims(personality: string, energy: real, response: string, draw: real)
    requires energy > 0.8
    ensures '。' !in PersonalityTouch(personality, energy, response, draw)
  {
  }

  // ---------------------------------------------------------------- state update

  /** `_update_agent_state` on a profile value. */
  function UpdatedState(p: Profile, topic: string, now: int): Profile
  {
    var count := p.conversationCount + 1;
    var topics := if topic in p.recentTopics then p.recentTopics else Tail(p.recentTopics + [topic], 5);
    p.(lastMessageTime := Some(now), conversationCount := count, recentTopics := topics,
       energy := if count > 3 then p.energy * 0.95 else p.energy)
  }

  /** The update stamps the time, counts one more conversation and leaves the resident's identity alone. */
  lemma UpdatedStateSpec(p: Profile, topic: string, now: int)
    ensures var q := UpdatedState(p, topic, now);
      q.id == p.id && q.name == p.name && q.personality == p.personality && q.topicInterests == p.topicInterests
    ensures UpdatedState(p, topic, now).lastMessageTime == Some(now)
    ensures UpdatedState(p, topic, now).conversationCount == p.conversationCount + 1
    ensures var q := UpdatedState(p, topic, now);
      q.energy == if q.conversationCount > 3 then p.energy * 0.95 else p.energy
  {
  }

  /** The topic is added only when absent, and the list keeps at most five. */
  lemma UpdatedTopics(p: Profile, topic: string, now: int)
    ensures topic in p.recentTopics ==> UpdatedState(p, topic, now).recentTopics == p.recentTopics
    ensures topic in UpdatedState(p, topic, now).recentTopics
    ensures |p.recentTopics| <= 5 ==> |UpdatedState(p, topic, now).recentTopics| <= 5
  {
    var topics := Tail(p.recentTopics + [topic], 5);
    assert topics[|topics| - 1] == topic;
  }

  /** No topic appears twice in a list. */
  predicate Distinct(xs: seq<string>)
  {
    forall i, j :: 0 <= i < j < |xs| ==> xs[i] != xs[j]
  }

  /** The recent-topic list stays duplicate-free and at most five long. */
  lemma UpdateKeepsTopics(p: Profile, topic: string, now: int)
    requires Distinct(p.recentTopics) && |p.recentTopics| <= 5
    ensures Distinct(UpdatedState(p, topic, now).recentTopics)
    ensures |UpdatedState(p, topic, now).recentTopics| <= 5
  {
    var xs := p.recentTopics + [topic];
    if topic !in p.recentTopics {
      assert Distinct(xs);
      var t := Tail(xs, 5);
      assert forall i, j :: 0 <= i < j < |t| ==> t[i] == xs[i + |xs| - |t|] && t[j] == xs[j + |xs| - |t|];
    }
  }

  /** The memory after appending `entry` under `id`, starting an empty list when there is none. */
  function Remembered(memory: map<string, seq<MemoryEntry>>, id: string, entry: MemoryEntry): map<string, seq<MemoryEntry>>
  {
    memory[id := (if id in memory then memory[id] else []) + [entry]]
  }

  /** Remembering adds exactly one entry, at the end of `id`'s list, and touches no other list. */
  lemma RememberedSpec(memory: map<string, seq<MemoryEntry>>, id: string, entry: MemoryEntry)
    ensures Remembered(memory, id, entry).Keys == memory.Keys + {id}
    ensures var before := if id in memory then memory[id] else [];
      Remembered(memory, id, entry)[id] == before + [entry]
    ensures forall n :: n in memory && n != id ==> Remembered(memory, id, entry)[n] == memory[n]
  {
  }

  // ---------------------------------------------------------------- the turn

  /**
   * The draws of one turn: `base(i)` and `order(i)` for the i-th participant's
   * delay, `compose(i, opening)` for the template text the i-th participant's
   * reply is built from, and `touch(i)` for the personality-touch draw.
   */
  datatype Draws = Draws(base: nat -> real, order: nat -> real, compose: (nat, Opening) -> string, touch: nat -> real)

  /** One delivered reply, as `process_user_message` returns it. */
  datatype Reply = Reply(agentId: string, agentName: string, response: string, delay: real, score: real)

  /** What the turn reads and writes: profiles, memory, and the turn's conversation context. */
  datatype State = State(profiles: map<string, Profile>, memory: map<string, seq<MemoryEntry>>, context: seq<string>)

  /** The replies a turn delivers, with the state they leave behind. */
  datatype Outcome = Outcome(replies: seq<Reply>, state: State)

  /** The reply the i-th participant composes in state `s`. */
  function Compose(s: State, p: Profile, i: nat, d: Draws): string
  {
    PersonalityTouch(p.personality, p.energy, d.compose(i, OpeningFor(s.context, i == 0)), d.touch(i))
  }

  /**
   * One pass of the loop of `process_user_message`: a non-empty reply is
   * delivered, adds one context line, updates the speaker's profile and adds
   * one memory entry; an empty one changes nothing. An id without a profile
   * delivers nothing.
   */
  function Step(s: State, c: Candidate, i: nat, message: string, topic: string, now: int, d: Draws): Outcome
  {
    if c.id !in s.profiles then Outcome([], s)
    else
      var p := s.profiles[c.id];
      var response := Compose(s, p, i, d);
      if response == "" then Outcome([], s)
      else
        Outcome([Reply(c.id, p.name, response, ResponseDelay(i, c.score, d.base(i), d.order(i)), c.score)],
          State(s.profiles[c.id := UpdatedState(p, topic, now)],
                Remembered(s.memory, p.id, MemoryEntry(now, message, response, topic)),
                s.context + [p.name + ": " + response]))
  }

  /** The loop from position `i` of the selection on. */
  function Run(s: State, chosen: seq<Candidate>, i: nat, message: string, topic: string, now: int, d: Draws): Outcome
    decreases |chosen| - i
  {
    if i >= |chosen| then Outcome([], s)
    else
      var first := Step(s, chosen[i], i, message, topic, now, d);
      var rest := Run(first.state, chosen, i + 1, message, topic, now, d);
      Outcome(first.replies + rest.replies, rest.state)
  }

  /**
   * A step delivers at most one reply, exactly when the composed reply is
   * non-empty, for the candidate's own resident; it adds one context line
   * `name: reply` per reply; and a step that delivers nothing changes nothing.
   */
  lemma StepSpec(s: State, c: Candidate, i: nat, message: string, topic: string, now: int, d: Draws)
    ensures var o := Step(s, c, i, message, topic, now, d);
      |o.replies| <= 1 && o.state.profiles.Keys == s.profiles.Keys
    ensures var o := Step(s, c, i, message, topic, now, d);
      o.replies == [] ==> o.state == s
    ensures var o := Step(s, c, i, message, topic, now, d);
      o.replies != [] ==>
        c.id in s.profiles && o.replies[0].agentId == c.id && o.replies[0].score == c.score
        && o.replies[0].agentName == s.profiles[c.id].name && o.replies[0].response != ""
        && o.replies[0].response == Compose(s, s.profiles[c.id], i, d)
        && 1.0 <= o.replies[0].delay <= 60.0
    ensures var o := Step(s, c, i, message, topic, now, d);
      o.state.context == s.context + Lines(o.replies)
  {
  }

  /** The context line a reply adds. */
  function Line(r: Reply): string
  {
    r.agentName + ": " + r.response
  }

  /** The context lines of some replies, in order. */
  function Lines(replies: seq<Reply>): (lines: seq<string>)
    ensures |lines| == |replies|
    ensures forall j :: 0 <= j < |replies| ==> lines[j] == Line(replies[j])
  {
    seq(|replies|, j requires 0 <= j < |replies| => Line(replies[j]))
  }

  /** The lines of two runs of replies are the lines of each, one after the other. */
  lemma LinesConcat(a: seq<Reply>, b: seq<Reply>)
    ensures Lines(a + b) == Lines(a) + Lines(b)
  {
    assert forall j :: 0 <= j < |a| + |b| ==> (a + b)[j] == if j < |a| then a[j] else b[j - |a|];
  }

  /** A turn keeps the set of residents. */
  lemma {:induction false} RunKeepsResidents(s: State, chosen: seq<Candidate>, i: nat, message: string, topic: string,
                                             now: int, d: Draws)
    ensures Run(s, chosen, i, message, topic, now, d).state.profiles.Keys == s.profiles.Keys
    decreases |chosen| - i
  {
    if i < |chosen| {
      var first := Step(s, chosen[i], i, message, topic, now, d);
      StepSpec(s, chosen[i], i, message, topic, now, d);
      RunKeepsResidents(first.state, chosen, i + 1, message, topic, now, d);
    }
  }

  /** A turn delivers at most one reply per remaining participant. */
  lemma {:induction false} RunReplyCount(s: State, chosen: seq<Candidate>, i: nat, message: string, topic: string,
                                         now: int, d: Draws)
    requires i <= |chosen|
    ensures |Run(s, chosen, i, message, topic, now, d).replies| <= |chosen| - i
    decreases |chosen| - i
  {
    if i < |chosen| {
      var first := Step(s, chosen[i], i, message, topic, now, d);
      StepSpec(s, chosen[i], i, message, topic, now, d);
      RunReplyCount(first.state, chosen, i + 1, message, topic, now, d);
    }
  }

  /** No delivered reply is empty. */
  lemma {:induction false} RunRepliesNonEmpty(s: State, chosen: seq<Candidate>, i: nat, message: string, topic: string,
                                              now: int, d: Draws)
    ensures NonEmpty(Run(s, chosen, i, message, topic, now, d).replies)
    decreases |chosen| - i
  {
    if i < |chosen| {
      var first := Step(s, chosen[i], i, message, topic, now, d);
      var rest := Run(first.state, chosen, i + 1, message, topic, now, d);
      assert Run(s, chosen, i, message, topic, now, d) == Outcome(first.replies + rest.replies, rest.state);
      StepSpec(s, chosen[i], i, message, topic, now, d);
      RunRepliesNonEmpty(first.state, chosen, i + 1, message, topic, now, d);
      NonEmptyJoin(first.replies, rest.replies);
    }
  }

  /** No reply is empty. */
  predicate NonEmpty(replies: seq<Reply>)
  {
    forall j :: 0 <= j < |replies| ==> replies[j].response != ""
  }

  lemma NonEmptyJoin(a: seq<Reply>, b: seq<Reply>)
    requires NonEmpty(a) && NonEmpty(b)
    ensures NonEmpty(a + b)
  {
    assert forall j :: 0 <= j < |a| + |b| ==> (a + b)[j] == if j < |a| then a[j] else b[j - |a|];
  }

  /** A turn adds exactly one context line per delivered reply, `name: reply`, in reply order. */
  lemma {:induction false} RunContext(s: State, chosen: seq<Candidate>, i: nat, message: string, topic: string, now: int,
                                      d: Draws)
    ensures Run(s, chosen, i, message, topic, now, d).state.context
      == s.context + Lines(Run(s, chosen, i, message, topic, now, d).replies)
    decreases |chosen| - i
  {
    if i < |chosen| {
      var first := Step(s, chosen[i], i, message, topic, now, d);
      StepSpec(s, chosen[i], i, message, topic, now, d);
      RunContext(first.state, chosen, i + 1, message, topic, now, d);
      var rest := Run(first.state, chosen, i + 1, message, topic, now, d);
      LinesConcat(first.replies, rest.replies);
    }
  }

  /**
   * Only position 0 of the selection greets: every later participant who
   * finds some earlier reply in the context follows up on the last one, and
   * addresses its speaker by name when the names hold no ':'.
   */
  lemma FollowUpAddressesLastSpeaker(s: State, i: nat, r: Reply)
    requires i > 0 && s.context != [] && s.context[|s.context| - 1] == Line(r) && ':' !in r.agentName
    ensures OpeningFor(s.context, i == 0) == FollowUp(r.agentName)
  {
    LastSpeakerOfLine(r.agentName, r.response);
  }

  /** The step at position `i` then the loop from `i + 1` is the loop from `i`. */
  lemma RunAdvance(start: State, before: State, chosen: seq<Candidate>, i: nat, message: string, topic: string, now: int,
                   d: Draws, replies: seq<Reply>, delivered: seq<Reply>, after: State)
    requires i < |chosen|
    requires Step(before, chosen[i], i, message, topic, now, d) == Outcome(delivered, after)
    requires Run(start, chosen, 0, message, topic, now, d)
      == Outcome(replies + Run(before, chosen, i, message, topic, now, d).replies,
                 Run(before, chosen, i, message, topic, now, d).state)
    ensures Run(start, chosen, 0, message, topic, now, d)
      == Outcome((replies + delivered) + Run(after, chosen, i + 1, message, topic, now, d).replies,
                 Run(after, chosen, i + 1, message, topic, now, d).state)
  {
    var rest := Run(after, chosen, i + 1, message, topic, now, d);
    assert replies + (delivered + rest.replies) == (replies + delivered) + rest.replies;
  }

  /** The enhanced handler's resident profiles (ids in insertion order) and conversation memory. */
  class Handler {
    const topics: seq<Category>
    var order: seq<string>
    var profiles: map<string, Profile>
    var memory: map<string, seq<MemoryEntry>>

    /** Profile ids are listed once each, and each profile sits under its own id. */
    ghost predicate Valid()
      reads this
    {
      (forall i, j :: 0 <= i < j < |order| ==> order[i] != order[j])
      && (forall id :: id in profiles <==> id in order)
      && (forall id :: id in profiles ==> profiles[id].id == id)
    }

    constructor (ids: seq<string>, initial: map<string, Profile>)
      requires forall i, j :: 0 <= i < j < |ids| ==> ids[i] != ids[j]
      requires forall id :: id in initial <==> id in ids
      requires forall id :: id in initial ==> initial[id].id == id
      ensures Valid() && topics == TopicTable && order == ids && profiles == initial && memory == map[]
    {
      topics := TopicTable;
      order := ids;
      profiles := initial;
      memory := map[];
    }

    /** `_update_agent_state` on the profile stored under `id`, with the memory entry it appends. */
    method UpdateAgentState(id: string, message: string, response: string, topic: string, now: int)
      requires Valid() && id in profiles
      modifies this
      ensures Valid() && order == old(order)
      ensures profiles == old(profiles)[id := UpdatedState(old(profiles)[id], topic, now)]
      ensures memory == Remembered(old(memory), id, MemoryEntry(now, message, response, topic))
    {
      UpdatedStateSpec(profiles[id], topic, now);
      profiles := profiles[id := UpdatedState(profiles[id], topic, now)];
      memory := Remembered(memory, id, MemoryEntry(now, message, response, topic));
    }

    /**
     * `process_user_message`. The draws are parameters: `jitter(k)` for the
     * k-th profile's score, `capRoll` for the cap and `d` for the delays, the
     * template texts and the personality touches. `chosen` is who took part
     * and `context` the turn's conversation context.
     */
    method ProcessUserMessage(message: string, now: int, jitter: nat -> real, capRoll: nat, d: Draws)
      returns (replies: seq<Reply>, ghost chosen: seq<Candidate>, ghost context: seq<string>)
      requires Valid()
      modifies this
      ensures Valid() && order == old(order)
      ensures chosen == Selected(ScoreAll(old(order), old(profiles), AnalyzeTopic(topics, message), jitter),
                                 MaxParticipants(message, AnalyzeTopic(topics, message), capRoll))
      ensures Run(State(old(profiles), old(memory), []), chosen, 0, message, AnalyzeTopic(topics, message), now, d)
        == Outcome(replies, State(profiles, memory, context))
    {
      var topic := AnalyzeTopic(topics, message);
      var scored := ScoreAll(order, profiles, topic, jitter);
      var cap := MaxParticipants(message, topic, capRoll);
      var picked := SelectTop(scored, cap);
      chosen := picked;
      replies, context := RunChosen(picked, message, topic, now, d);
    }

    /** The loop of `process_user_message` over the chosen residents, in order. */
    method RunChosen(chosen: seq<Candidate>, message: string, topic: string, now: int, d: Draws)
      returns (replies: seq<Reply>, context: seq<string>)
      requires Valid()
      modifies this
      ensures Valid() && order == old(order)
      ensures Run(State(old(profiles), old(memory), []), chosen, 0, message, topic, now, d)
        == Outcome(replies, State(profiles, memory, context))
    {
      ghost var start := State(profiles, memory, []);
      replies := [];
      context := [];
      var i := 0;
      while i < |chosen|
        invariant 0 <= i <= |chosen|
        invariant Valid() && order == old(order)
        invariant Run(start, chosen, 0, message, topic, now, d)
          == Outcome(replies + Run(State(profiles, memory, context), chosen, i, message, topic, now, d).replies,
                     Run(State(profiles, memory, context), chosen, i, message, topic, now, d).state)
      {
        ghost var before := State(profiles, memory, context);
        var delivered := StepOne(chosen[i], i, message, topic, now, d, context);
        ghost var after := State(profiles, memory, context + Lines(delivered));
        RunAdvance(start, before, chosen, i, message, topic, now, d, replies, delivered, after);
        replies := replies + delivered;
        context := context + Lines(delivered);
        i := i + 1;
      }
    }

    /** One pass of the loop: compose, and for a non-empty reply deliver it and update the speaker. */
    method StepOne(c: Candidate, i: nat, message: string, topic: string, now: int, d: Draws, context: seq<string>)
      returns (delivered: seq<Reply>)
      requires Valid()
      modifies this
      ensures Valid() && order == old(order)
      ensures Step(State(old(profiles), old(memory), context), c, i, message, topic, now, d)
        == Outcome(delivered, State(profiles, memory, context + Lines(delivered)))
    {
      delivered := [];
      if c.id in profiles {
        var profile := profiles[c.id];
        var opening := if i == 0 || context == [] then First else FollowUp(LastSpeaker(context[|context| - 1]));
        var response := PersonalityTouch(profile.personality, profile.energy, d.compose(i, opening), d.touch(i));
        if response != "" {
          var delay := ResponseDelay(i, c.score, d.base(i), d.order(i));
          delivered := [Reply(c.id, profile.name, response, delay, c.score)];
          UpdateAgentState(c.id, message, response, topic, now);
          assert Lines(delivered) == [profile.name + ": " + response];
        }
      }
    }
  }

}
