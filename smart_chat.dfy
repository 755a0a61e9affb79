/**
 * The smart chat handler: classifies a resident-facing message, picks the
 * residents who join in, asks an external generator for each reply (retrying
 * up to three times and validating that the reply takes part rather than
 * judges), suppresses near-duplicates against a per-resident cache of three
 * replies, and updates each speaker's talk count, recent topics and energy.
 */
module SmartChat {
  import opened Wrappers
  import opened Text
  import opened Classify
  import opened Selection

  // ---------------------------------------------------------------- topic

  /** `_init_topic_keywords`: the handler's topic table, in declaration order. */
  const TopicTable: seq<Category> := [
    Category("social", ["聊天", "交流", "朋友", "社交", "聚会", "活动", "见面", "认识", "大家", "一起"]),
    Category("health", ["健康", "身体", "运动", "锻炼", "医生", "病", "药", "治疗", "养生", "营养"]),
    Category("education", ["学习", "教育", "书", "知识", "课程", "培训", "技能", "成长", "读书", "分享会"]),
    Category("work", ["工作", "职业", "事业", "项目", "任务", "同事", "老板", "薪水", "压力", "经验"]),
    Category("art", ["艺术", "画", "音乐", "创作", "设计", "美", "文化", "展览", "创意", "灵感"]),
    Category("community", ["社群", "社区", "邻居", "建设", "发展", "改善", "合作", "团结", "努力", "共同"]),
    Category("daily", ["天气", "吃饭", "睡觉", "购物", "家务", "日常", "生活", "休息", "出去", "走走"]),
    Category("future", ["未来", "计划", "目标", "梦想", "希望", "期待", "发展", "改变", "明天", "以后"]),
    Category("technology", ["科技", "电脑", "手机", "网络", "软件", "程序", "数字", "智能", "技术", "系统"]),
    Category("entertainment", ["娱乐", "游戏", "电影", "电视", "音乐", "小说", "休闲", "放松", "有趣", "好玩"]),
    Category("business", ["商业", "生意", "经营", "市场", "客户", "品牌", "销售", "利润", "投资", "创业"])
  ]

  /**
   * `_analyze_message_topic`: the category of `topics` with most hits in the
   * lowercased message (the first such in table order), else "social".
   */
  function AnalyzeTopic(topics: seq<Category>, message: string): (topic: string)
    ensures (forall k :: 0 <= k < |topics| ==> !ContainsAny(Lower(message), topics[k].keywords)) ==> topic == "social"
    ensures topic == "social" || exists i :: 0 <= i < |topics| && topic == topics[i].name
  {
    TopicOf(topics, Lower(message), "social")
  }

  // ---------------------------------------------------------------- profiles

  /** A resident's profile as the handler keeps it. */
  datatype Profile = Profile(
    name: string,
    personality: string,
    occupation: string,
    age: int,
    lastMessageTime: Option<int>,
    conversationCount: nat,
    recentTopics: seq<string>,
    energy: real)

  // ---------------------------------------------------------------- score

  /** `_get_occupation_topic_interest`: the occupation's interest in a topic, 0.3 when not listed. */
  function OccupationInterest(occupation: string, topic: string): (r: real)
    ensures 0.3 <= r <= 0.9
  {
    var row: map<string, real> :=
      if occupation == "teacher" then map["education" := 0.9, "social" := 0.7, "community" := 0.6]
      else if occupation == "doctor" then map["health" := 0.9, "community" := 0.6, "work" := 0.5]
      else if occupation == "engineer" then map["technology" := 0.9, "work" := 0.7, "future" := 0.6]
      else if occupation == "artist" then map["art" := 0.9, "entertainment" := 0.8, "social" := 0.6]
      else if occupation == "merchant" then map["business" := 0.9, "work" := 0.7, "community" := 0.6]
      else if occupation == "farmer" then map["daily" := 0.8, "health" := 0.6, "community" := 0.6]
      else if occupation == "student" then map["education" := 0.8, "social" := 0.8, "entertainment" := 0.7]
      else if occupation == "researcher" then map["education" := 0.8, "technology" := 0.7, "future" := 0.6]
      else map[];
    if topic in row then row[topic] else 0.3
  }

  /** `_get_personality_bonus`: the personality's bonus for a topic, 0.0 when not listed. */
  function PersonalityBonus(personality: string, topic: string): (r: real)
    ensures 0.0 <= r <= 0.3
  {
    var row: map<string, real> :=
      if personality == "乐观开朗" then map["social" := 0.3, "community" := 0.2, "future" := 0.2]
      else if personality == "外向型" then map["social" := 0.3, "entertainment" := 0.2, "community" := 0.2]
      else if personality == "内向型" then map["education" := 0.2, "art" := 0.2, "technology" := 0.1]
      else if personality == "分析型" then map["work" := 0.2, "technology" := 0.2, "education" := 0.1]
      else if personality == "创造型" then map["art" := 0.3, "entertainment" := 0.2, "future" := 0.1]
      else map[];
    if topic in row then row[topic] else 0.0
  }

  /** `_calculate_content_interest`: greeting, advice and sharing words add interest, capped at 0.5. */
  function ContentInterest(message: string): (r: real)
    ensures 0.0 <= r <= 0.5
    ensures r == 0.0 <==> (!ContainsAny(Lower(message), ["你好", "大家", "最近", "今天", "心情"])
      && !ContainsAny(Lower(message), ["帮助", "建议", "想法", "看法"])
      && !ContainsAny(Lower(message), ["分享", "经历", "故事"]))
  {
    var m := Lower(message);
    var s := (if ContainsAny(m, ["你好", "大家", "最近", "今天", "心情"]) then 0.4 else 0.0)
      + (if ContainsAny(m, ["帮助", "建议", "想法", "看法"]) then 0.3 else 0.0)
      + (if ContainsAny(m, ["分享", "经历", "故事"]) then 0.3 else 0.0);
    if s < 0.5 then s else 0.5
  }

  /** `_calculate_social_tendency`: outgoing personalities and younger residents lean in, capped at 0.5. */
  function SocialTendency(personality: string, age: int): (r: real)
    ensures 0.3 <= r <= 0.5
    ensures (Contains(personality, "外向") || Contains(personality, "开朗")) ==> r == 0.5
  {
    var s := 0.3
      + (if Contains(personality, "外向") || Contains(personality, "开朗") then 0.3
         else if Contains(personality, "内向") then 0.1 else 0.0)
      + (if age < 25 then 0.2 else if age < 35 then 0.1 else 0.0);
    if s < 0.5 then s else 0.5
  }

  /** The weighted interest before energy, the activity penalty and the jitter. */
  function InterestWeight(occupation: string, personality: string, age: int, message: string, topic: string): (w: real)
    ensures 0.6 < w < 1.0
  {
    0.6 + OccupationInterest(occupation, topic) * 0.15 + PersonalityBonus(personality, topic) * 0.25
      + ContentInterest(message) * 0.2 + SocialTendency(personality, age) * 0.15
  }

  /** The weight scaled by energy, the activity penalty and the jitter, clamped to [0, 1]. */
  function Damped(weight: real, energy: real, count: nat, jitter: real): (s: real)
    ensures 0.0 <= s <= 1.0
  {
    var penalty := if count > 4 then 0.8 else 1.0;
    Clamp((weight * energy * penalty) * jitter, 0.0, 1.0)
  }

  /** `_calculate_participation_score`; `jitter` is the `random.uniform(0.8, 1.2)` draw. */
  function ParticipationScore(p: Profile, message: string, topic: string, jitter: real): (s: real)
    ensures 0.0 <= s <= 1.0
  {
    Damped(InterestWeight(p.occupation, p.personality, p.age, message, topic), p.energy, p.conversationCount, jitter)
  }

  /** A resident who already spoke more than four times never scores above the same resident fresh. */
  lemma ActivityPenalty(p: Profile, message: string, topic: string, jitter: real)
    requires p.energy >= 0.0 && jitter >= 0.0 && p.conversationCount > 4
    ensures ParticipationScore(p, message, topic, jitter)
      <= ParticipationScore(p.(conversationCount := 0), message, topic, jitter)
  {
    var w := InterestWeight(p.occupation, p.personality, p.age, message, topic);
    PenaltyDamps(w, p.energy, p.conversationCount, jitter);
  }

  /** The 0.8 activity penalty never raises a non-negative score. */
  lemma PenaltyDamps(weight: real, energy: real, count: nat, jitter: real)
    requires weight >= 0.0 && energy >= 0.0 && jitter >= 0.0 && count > 4
    ensures Damped(weight, energy, count, jitter) <= Damped(weight, energy, 0, jitter)
  {
    var we := weight * energy;
    assert we >= 0.0;
    var x := we * jitter;
    assert x >= 0.0;
    assert (we * 0.8) * jitter == x * 0.8;
  }

  /** `_determine_max_participants`; `roll` drives the `random.randint` draw. */
  function MaxParticipants(message: string, topic: string, roll: nat): (cap: nat)
    ensures Contains(message, "大家") || Contains(message, "所有人") ==> cap == 4
    ensures !(Contains(message, "大家") || Contains(message, "所有人")) && (topic == "community" || topic == "social")
      ==> 2 <= cap <= 4
    ensures !(Contains(message, "大家") || Contains(message, "所有人")) && !(topic == "community" || topic == "social")
      ==> 1 <= cap <= 3
  {
    if Contains(message, "大家") || Contains(message, "所有人") then 4
    else if topic == "community" || topic == "social" then RandInt(2, 4, roll) as nat
    else RandInt(1, 3, roll) as nat
  }

  /**
   * `_calculate_response_delay`; `baseDraw` is `random.uniform(3.0, 8.0)` and
   * `orderDraw` is `random.uniform(2.0, 4.0)`.
   */
  function ResponseDelay(personality: string, order: nat, score: real, baseDraw: real, orderDraw: real): (d: real)
    ensures 1.0 <= d <= 30.0
  {
    Clamp((BaseDelay(personality, baseDraw) + order as real * orderDraw) * (2.0 - score), 1.0, 30.0)
  }

  /** The personality-scaled base delay: outgoing residents answer sooner, introverts later. */
  function BaseDelay(personality: string, baseDraw: real): (d: real)
    ensures baseDraw >= 0.0 ==> baseDraw * 0.8 <= d <= baseDraw * 1.3
  {
    if Contains(personality, "外向") || Contains(personality, "乐观") then baseDraw * 0.8
    else if Contains(personality, "内向") then baseDraw * 1.3 else baseDraw
  }

  /** With draws and score in their ranges, the delay never needs the lower clamp: it is at least 2.4 s. */
  lemma DelayAtLeastBase(personality: string, order: nat, score: real, baseDraw: real, orderDraw: real)
    requires 3.0 <= baseDraw <= 8.0 && 2.0 <= orderDraw <= 4.0 && 0.0 <= score <= 1.0
    ensures ResponseDelay(personality, order, score, baseDraw, orderDraw) >= 2.4
  {
    var lag := order as real * orderDraw;
    NonNegativeProduct(order as real, orderDraw);
    var stretch := BaseDelay(personality, baseDraw) + lag;
    assert stretch >= 2.4;
    NonNegativeProduct(stretch, 1.0 - score);
    assert stretch * (2.0 - score) == stretch + stretch * (1.0 - score);
    assert ResponseDelay(personality, order, score, baseDraw, orderDraw) == Clamp(stretch * (2.0 - score), 1.0, 30.0);
  }

  lemma NonNegativeProduct(a: real, b: real)
    requires a >= 0.0 && b >= 0.0
    ensures a * b >= 0.0
  {
  }

  // ---------------------------------------------------------------- validator

  /** Judging phrases that disqualify a reply outright. */
  const Evaluative: seq<string> := [
    "这个观点很棒", "讨论很有价值", "学到了很多", "很有启发",
    "值得思考", "很有道理", "讨论氛围", "这个话题有意思",
    "讨论很精彩", "分享很棒", "想法很好", "说得很对"]

  /** First-person phrases that mark a reply as taking part. */
  const FirstPerson: seq<string> := [
    "我通常", "我喜欢", "我建议", "我知道", "我经常", "我觉得",
    "我推荐", "我会", "我的经验", "我认为", "我发现", "我试过",
    "我习惯", "我一般", "我常常", "我倾向于", "据我", "在我看来",
    "我个人", "我感觉", "我想", "我见过", "我听说", "我去过"]

  /** Words that show concrete content. */
  const Concrete: seq<string> := [
    "公园", "跑步", "散步", "运动", "书店", "咖啡厅", "餐厅", "商店",
    "学校", "医院", "市中心", "附近", "地方", "方法", "技巧", "经验",
    "建议", "推荐", "试试", "可以去", "不如", "或者", "比如", "例如",
    "首先", "然后", "最后", "步骤", "计划", "安排", "时间", "周末"]

  /** Words that engage the other speaker. */
  const Engaging: seq<string> := [
    "？", "?", "吗", "呢", "吧", "怎么样", "如何", "哪里", "什么时候",
    "为什么", "怎么", "多少", "哪个", "哪些"]

  /** Plain agreement or disagreement, which also counts as taking part in longer replies. */
  const Agreement: seq<string> := [
    "同意", "赞成", "支持", "不同意", "反对", "觉得不", "不太",
    "确实", "没错", "对的", "是的", "当然", "可能", "也许", "或许"]

  /** The five phrase lists `_is_participatory_response` consults. */
  datatype Phrases = Phrases(evaluative: seq<string>, firstPerson: seq<string>, concrete: seq<string>,
                             engaging: seq<string>, agreement: seq<string>)

  /** The lists as the handler's validator writes them. */
  const ValidatorPhrases: Phrases := Phrases(Evaluative, FirstPerson, Concrete, Engaging, Agreement)

  /** No phrase of a list is empty. */
  predicate NonEmptyPhrases(phrases: seq<string>)
  {
    forall k :: 0 <= k < |phrases| ==> phrases[k] != []
  }

  /** No phrase of any of the five lists is empty. */
  predicate WellFormed(v: Phrases)
  {
    NonEmptyPhrases(v.evaluative) && NonEmptyPhrases(v.firstPerson) && NonEmptyPhrases(v.concrete)
    && NonEmptyPhrases(v.engaging) && NonEmptyPhrases(v.agreement)
  }

  /** The handler's phrase lists hold no empty phrase. */
  lemma ValidatorPhrasesWellFormed()
    ensures WellFormed(ValidatorPhrases)
  {
    assert NonEmptyPhrases(Evaluative);
    assert NonEmptyPhrases(FirstPerson);
    assert NonEmptyPhrases(Concrete);
    assert NonEmptyPhrases(Engaging);
    assert NonEmptyPhrases(Agreement);
  }

  /** No phrase of a list occurs in the empty reply. */
  lemma NothingInEmpty(s: string, phrases: seq<string>)
    requires |s| == 0 && NonEmptyPhrases(phrases)
    ensures !ContainsAny(s, phrases)
  {
  }

  /** `_is_participatory_response` over the phrase lists `v`. */
  predicate IsParticipatory(v: Phrases, response: string)
  {
    if ContainsAny(response, v.evaluative) then false
    else if ContainsAny(response, v.firstPerson) then true
    else if ContainsTwo(response, v.concrete) && ContainsAny(response, v.engaging) then true
    else if |response| > 30 && ContainsAny(response, v.concrete) then true
    else |response| > 20 && ContainsAny(response, v.agreement)
  }

  /**
   * The validator rejects any judging reply, accepts any first-person one
   * that does not judge, and accepts nothing without a first-person,
   * concrete or agreeing phrase.
   */
  lemma ValidatorRules(v: Phrases, response: string)
    ensures ContainsAny(response, v.evaluative) ==> !IsParticipatory(v, response)
    ensures !ContainsAny(response, v.evaluative) && ContainsAny(response, v.firstPerson) ==> IsParticipatory(v, response)
    ensures IsParticipatory(v, response) ==>
      ContainsAny(response, v.firstPerson) || ContainsAny(response, v.concrete) || ContainsAny(response, v.agreement)
  {
  }

  /** An empty reply never passes the validator. */
  lemma EmptyIsNotParticipatory(v: Phrases, response: string)
    requires WellFormed(v) && |response| == 0
    ensures !IsParticipatory(v, response)
  {
    NothingInEmpty(response, v.firstPerson);
    NothingInEmpty(response, v.concrete);
    ValidatorRules(v, response);
  }

  // ---------------------------------------------------------------- retry and fallback

  /** What one call of the external generator produced. */
  datatype Attempt = Raised | Returned(success: bool, agentResponse: Option<string>)

  /** The stripped reply of a call that succeeded with a non-empty reply, when it passes the validator. */
  function Verdict(v: Phrases, a: Attempt): (r: Option<string>)
    ensures r.Some? ==> IsParticipatory(v, r.value)
    ensures r.Some? ==> a.Returned? && a.success && a.agentResponse.Some? && r.value == Strip(a.agentResponse.value)
  {
    if a.Returned? && a.success && a.agentResponse.Some? && a.agentResponse.value != "" then
      var content := Strip(a.agentResponse.value);
      if IsParticipatory(v, content) then Some(content) else None
    else None
  }

  const MaxAttempts: nat := 3

  /** The first reply among the verdicts of attempts `k` up to the third, else the fallback. */
  function FirstReply(verdicts: nat -> Option<string>, fallback: string, k: nat): (reply: string)
    decreases MaxAttempts - k
  {
    if k >= MaxAttempts then fallback
    else if verdicts(k).Some? then verdicts(k).value
    else FirstReply(verdicts, fallback, k + 1)
  }

  /** When verdict `j` is the first reply from `k` on, it is the settled reply. */
  lemma {:induction false} FirstReplyTakesFirst(verdicts: nat -> Option<string>, fallback: string, k: nat, j: nat)
    requires k <= j < MaxAttempts && verdicts(j).Some?
    requires forall i: nat :: k <= i < j ==> verdicts(i).None?
    ensures FirstReply(verdicts, fallback, k) == verdicts(j).value
    decreases j - k
  {
    if k < j {
      FirstReplyTakesFirst(verdicts, fallback, k + 1, j);
    }
  }

  /** When no verdict from `k` on is a reply, the fallback is the settled reply. */
  lemma {:induction false} FirstReplyFallsBack(verdicts: nat -> Option<string>, fallback: string, k: nat)
    requires forall i: nat :: k <= i < MaxAttempts ==> verdicts(i).None?
    ensures FirstReply(verdicts, fallback, k) == fallback
    decreases MaxAttempts - k
  {
    if k < MaxAttempts {
      FirstReplyFallsBack(verdicts, fallback, k + 1);
    }
  }

  /** The settled reply is the fallback or one of the verdicts' replies. */
  lemma {:induction false} FirstReplyIsAVerdict(verdicts: nat -> Option<string>, fallback: string, k: nat)
    ensures FirstReply(verdicts, fallback, k) == fallback
      || exists i: nat :: k <= i < MaxAttempts && verdicts(i) == Some(FirstReply(verdicts, fallback, k))
    decreases MaxAttempts - k
  {
    if k < MaxAttempts && verdicts(k).None? {
      FirstReplyIsAVerdict(verdicts, fallback, k + 1);
    }
  }

  /** The verdict on each call of a sequence of generator calls. */
  function Verdicts(v: Phrases, attempts: nat -> Attempt): nat -> Option<string>
  {
    (k: nat) => Verdict(v, attempts(k))
  }

  /** The reply `_generate_llm_response` settles on. */
  function SettledReply(v: Phrases, attempts: nat -> Attempt, fallback: string): string
  {
    FirstReply(Verdicts(v, attempts), fallback, 0)
  }

  /**
   * `_generate_llm_response`: at most three generator calls; the first stripped
   * reply that passes the validator wins, otherwise the fallback. `attempts(k)`
   * is what the k-th call produced; `calls` is how many calls were made.
   */
  method GenerateReply(v: Phrases, attempts: nat -> Attempt, fallback: string) returns (reply: string, calls: nat)
    ensures reply == SettledReply(v, attempts, fallback)
    ensures 1 <= calls <= MaxAttempts
    ensures calls < MaxAttempts ==> Verdict(v, attempts(calls - 1)) == Some(reply)
  {
    ghost var verdicts := Verdicts(v, attempts);
    var attempt := 0;
    while attempt < MaxAttempts
      invariant 0 <= attempt <= MaxAttempts
      invariant FirstReply(verdicts, fallback, 0) == FirstReply(verdicts, fallback, attempt)
    {
      var verdict := Verdict(v, attempts(attempt));
      assert verdicts(attempt) == verdict;
      if verdict.Some? {
        return verdict.value, attempt + 1;
      }
      attempt := attempt + 1;
    }
    return fallback, MaxAttempts;
  }

  /** The settled reply is the fallback or a non-empty reply that passes the validator. */
  lemma SettledReplyValid(v: Phrases, attempts: nat -> Attempt, fallback: string)
    requires WellFormed(v)
    ensures SettledReply(v, attempts, fallback) != fallback ==>
      SettledReply(v, attempts, fallback) != "" && IsParticipatory(v, SettledReply(v, attempts, fallback))
  {
    var verdicts := Verdicts(v, attempts);
    var reply := SettledReply(v, attempts, fallback);
    FirstReplyIsAVerdict(verdicts, fallback, 0);
    if reply != fallback {
      var i: nat :| i < MaxAttempts && verdicts(i) == Some(reply);
      assert Verdict(v, attempts(i)) == verdicts(i);
      if |reply| == 0 {
        EmptyIsNotParticipatory(v, reply);
      }
    }
  }

  /** The reply lists of `_generate_smart_fallback_response`, chosen by the message's wording. */
  datatype FallbackList =
    | AskRelax | AskStudy | AskWork | AskOther
    | RecommendFood | RecommendOuting | RecommendOther
    | Decision | Sharing | Default

  const AskWords: seq<string> := ["怎么", "如何", "什么", "哪里", "建议", "方法", "经验"]
  const RecommendWords: seq<string> := ["推荐", "哪里", "什么地方", "好吃", "好玩"]
  const DecisionWords: seq<string> := ["怎么样", "好不好", "选择", "决定"]
  const SharingWords: seq<string> := ["最近", "今天", "昨天", "感觉"]

  /** Which reply list the fallback draws from, by the precedence of its keyword groups. */
  function FallbackListFor(message: string): (l: FallbackList)
    ensures ContainsAny(Lower(message), AskWords) <==> l in {AskRelax, AskStudy, AskWork, AskOther}
    ensures l in {RecommendFood, RecommendOuting, RecommendOther} <==>
      !ContainsAny(Lower(message), AskWords) && ContainsAny(Lower(message), RecommendWords)
    ensures l == Default <==> (!ContainsAny(Lower(message), AskWords) && !ContainsAny(Lower(message), RecommendWords)
      && !ContainsAny(Lower(message), DecisionWords) && !ContainsAny(Lower(message), SharingWords))
  {
    var m := Lower(message);
    if ContainsAny(m, AskWords) then
      if Contains(m, "放松") || Contains(m, "压力") then AskRelax
      else if Contains(m, "学习") || Contains(m, "技能") then AskStudy
      else if Contains(m, "工作") || Contains(m, "困难") then AskWork
      else AskOther
    else if ContainsAny(m, RecommendWords) then
      if Contains(m, "吃") || Contains(m, "餐厅") || Contains(m, "火锅") then RecommendFood
      else if Contains(m, "玩") || Contains(m, "去哪") then RecommendOuting
      else RecommendOther
    else if ContainsAny(m, DecisionWords) then Decision
    else if ContainsAny(m, SharingWords) then Sharing
    else Default
  }

  /** "怎么样" contains "怎么", so a message asking "怎么样" is always answered from an asking list. */
  lemma HowIsItAsks(message: string)
    requires Contains(Lower(message), "怎么样")
    ensures FallbackListFor(message) in {AskRelax, AskStudy, AskWork, AskOther}
  {
    var m := Lower(message);
    var i :| OccursAt(m, "怎么样", i);
    assert m[i..i + 3] == "怎么样";
    assert m[i..i + 2] == m[i..i + 3][..2];
    assert OccursAt(m, "怎么", i);
    assert Contains(m, AskWords[0]);
  }

  // The reply lists of `_generate_smart_fallback_response`.
  const AskRelaxReplies: seq<string> :=
    ["我平时压力大的时候会去附近公园走走，特别是早晨的时候空气很清新。",
     "我喜欢听音乐放松，有时候也会和朋友聊聊天。",
     "我的经验是做些运动比较有效，比如跑步或者游泳。"]
  const AskStudyReplies: seq<string> :=
    ["我觉得制定学习计划很重要，每天抽出固定时间练习。",
     "我建议可以找一些在线课程跟着学，边学边实践效果比较好。",
     "我的方法是先从基础开始，不要急于求成。"]
  const AskWorkReplies: seq<string> :=
    ["遇到工作问题时，我通常会先梳理一下思路，看看问题出在哪里。",
     "我的经验是多和同事交流，有时候换个角度就能找到解决办法。",
     "我建议可以把问题拆分成小的部分，逐个解决。"]
  const AskOtherReplies: seq<string> :=
    ["这个问题挺有意思的，我觉得可以试试从不同角度考虑一下。",
     "我的经验是遇到这种情况时，先收集一些相关信息比较好。",
     "我建议可以问问身边有经验的朋友，看看他们怎么处理的。"]
  const RecommendFoodReplies: seq<string> :=
    ["我知道市中心有家川菜馆挺不错的，他们家的麻婆豆腐特别正宗。",
     "我经常去学校附近那家小火锅店，老板很实在，料也很新鲜。",
     "我推荐试试东街那家面馆，他们的牛肉面分量很足。"]
  const RecommendOutingReplies: seq<string> :=
    ["我周末常去公园那边，可以散步也可以划船，环境挺好的。",
     "我喜欢去图书馆看书，安静而且还能学到新东西。",
     "我建议可以去市博物馆看看，最近有个很有意思的展览。"]
  const RecommendOtherReplies: seq<string> :=
    ["这个要看你的喜好了，我个人比较喜欢安静一点的地方。",
     "我觉得可以先在网上查查评价，然后再做决定。",
     "我的建议是选择离家近一点的，这样比较方便。"]
  const DecisionReplies: seq<string> :=
    ["我觉得这个想法不错，值得试试。",
     "我个人觉得可以，不过最终还是要看你自己的喜好。",
     "我的建议是可以先试试看，不合适再调整。"]
  const SharingReplies: seq<string> :=
    ["是啊，我最近也有类似的感受。",
     "我也注意到了这个情况，确实很有意思。",
     "我的感觉和你差不多，可能很多人都是这样想的。"]
  const DefaultReplies: seq<string> :=
    ["这个话题让我想起了自己的一些经历，确实值得聊聊。",
     "我对这个也挺感兴趣的，平时偶尔会关注一下。",
     "我觉得这个角度很有意思，我们可以继续聊聊。"]

  /** The three replies of each list, in order. */
  function Replies(l: FallbackList): (r: seq<string>)
    ensures |r| == 3
  {
    match l
    case AskRelax => AskRelaxReplies
    case AskStudy => AskStudyReplies
    case AskWork => AskWorkReplies
    case AskOther => AskOtherReplies
    case RecommendFood => RecommendFoodReplies
    case RecommendOuting => RecommendOutingReplies
    case RecommendOther => RecommendOtherReplies
    case Decision => DecisionReplies
    case Sharing => SharingReplies
    case Default => DefaultReplies
  }

  /** Every reply of every list is non-empty and shorter than 50 characters. */
  lemma RepliesShort(l: FallbackList)
    ensures forall k :: 0 <= k < |Replies(l)| ==> 0 < |Replies(l)[k]| < 50
  {
  }

  /** The short reply an introvert falls back to when no template is short enough. */
  const IntrovertReply: string := "我也有类似的想法。"

  /** The templates of `replies` shorter than 50 characters, in order. */
  function Short(replies: seq<string>): (r: seq<string>)
    ensures forall k :: 0 <= k < |r| ==> |r[k]| < 50 && r[k] in replies
    ensures forall x :: x in replies && |x| < 50 ==> x in r
  {
    if replies == [] then []
    else (if |replies[0]| < 50 then [replies[0]] else []) + Short(replies[1..])
  }

  /**
   * The personality adjustment of `_generate_smart_fallback_response`: an
   * optimist's pick turns "。" into "！", an introvert picks among the short
   * templates. `pick` drives `random.choice`; `replies` is the chosen list.
   */
  function SmartFallback(personality: string, replies: seq<string>, pick: nat): (r: string)
    requires |replies| > 0 && forall k :: 0 <= k < |replies| ==> replies[k] != ""
    ensures r != ""
    ensures Contains(personality, "乐观") ==> '。' !in r
    ensures !Contains(personality, "乐观") && Contains(personality, "内向") ==> |r| < 50 && (r in replies || r == IntrovertReply)
    ensures !Contains(personality, "乐观") && !Contains(personality, "内向") ==> r in replies
  {
    if Contains(personality, "乐观") then
      ReplaceChar(replies[pick % |replies|], '。', '！')
    else if Contains(personality, "内向") then
      var short := Short(replies);
      if short == [] then IntrovertReply else short[pick % |short|]
    else replies[pick % |replies|]
  }

  /** A list whose replies are all shorter than 50 characters loses none of them to the introvert's filter. */
  lemma {:induction false} ShortKeepsAll(replies: seq<string>)
    requires forall k :: 0 <= k < |replies| ==> |replies[k]| < 50
    ensures Short(replies) == replies
  {
    if replies != [] {
      ShortKeepsAll(replies[1..]);
      assert replies == [replies[0]] + replies[1..];
    }
  }

  /** `_generate_smart_fallback_response` for a resident of `personality` answering `message`; `pick` drives `random.choice`. */
  function FallbackReply(personality: string, message: string, pick: nat): (r: string)
  {
    RepliesShort(FallbackListFor(message));
    SmartFallback(personality, Replies(FallbackListFor(message)), pick)
  }

  /**
   * The fallback is never empty and comes from the list the message's wording
   * picks: verbatim except for an optimist, whose "。" become "！". Every
   * reply is short, so an introvert gets a reply of the list too and
   * never the introvert default.
   */
  lemma FallbackReplySpec(personality: string, message: string, pick: nat)
    ensures FallbackReply(personality, message, pick) != ""
    ensures Contains(personality, "乐观") ==>
      FallbackReply(personality, message, pick) == ReplaceChar(Replies(FallbackListFor(message))[pick % 3], '。', '！')
    ensures !Contains(personality, "乐观") ==>
      FallbackReply(personality, message, pick) == Replies(FallbackListFor(message))[pick % 3]
  {
    var replies := Replies(FallbackListFor(message));
    RepliesShort(FallbackListFor(message));
    if !Contains(personality, "乐观") && Contains(personality, "内向") {
      ShortKeepsAll(replies);
    }
  }

  // ---------------------------------------------------------------- duplicates and cache

  /** The word set of a reply after turning '，' and '。' into spaces. */
  function TokenSet(s: string): set<string>
  {
    set w | w in Words(ReplaceChar(ReplaceChar(s, '，', ' '), '。', ' '))
  }

  /** A reply whose only characters are whitespace, '，' and '。' has no words, and only such a reply. */
  lemma NoTokensWhenBlank(s: string)
    ensures TokenSet(s) == {} <==> forall k :: 0 <= k < |s| ==> IsSpace(s[k]) || s[k] == '，' || s[k] == '。'
  {
    var t := ReplaceChar(ReplaceChar(s, '，', ' '), '。', ' ');
    var ws := Words(t);
    assert forall k :: 0 <= k < |s| ==> (IsSpace(t[k]) <==> IsSpace(s[k]) || s[k] == '，' || s[k] == '。');
    if ws != [] {
      assert ws[0] in TokenSet(s);
    }
  }

  /** Word-set overlap above 0.7, skipped when either set is empty: |A ∩ B| / |A ∪ B| > 7/10. */
  predicate Similar(a: string, b: string)
  {
    var ta, tb := TokenSet(a), TokenSet(b);
    ta != {} && tb != {} && 10 * |ta * tb| > 7 * |ta + tb|
  }

  /** Some cached reply is similar to `response`. */
  predicate AnySimilar(response: string, cached: seq<string>)
    ensures AnySimilar(response, cached) <==> exists k :: 0 <= k < |cached| && Similar(response, cached[k])
  {
    if cached == [] then false
    else
      var rest := cached[1..];
      assert forall k :: 0 < k < |cached| ==> cached[k] == rest[k - 1];
      assert forall j :: 0 <= j < |rest| ==> rest[j] == cached[j + 1];
      Similar(response, cached[0]) || AnySimilar(response, rest)
  }

  /** `_is_duplicate_response` against a reply cache keyed by resident name. */
  predicate IsDuplicate(cache: map<string, seq<string>>, response: string, name: string)
  {
    if name !in cache then false
    else if response in cache[name] then true
    else AnySimilar(response, cache[name])
  }

  /**
   * No cache means no duplicate; an exact match is one; otherwise a reply is a
   * duplicate exactly when it matches or resembles one of the cached replies.
   */
  lemma DuplicateSpec(cache: map<string, seq<string>>, response: string, name: string)
    ensures name !in cache ==> !IsDuplicate(cache, response, name)
    ensures name in cache && response in cache[name] ==> IsDuplicate(cache, response, name)
    ensures IsDuplicate(cache, response, name) <==> (name in cache
      && exists k :: 0 <= k < |cache[name]| && (cache[name][k] == response || Similar(response, cache[name][k])))
  {
    if name in cache && response in cache[name] {
      var k :| 0 <= k < |cache[name]| && cache[name][k] == response;
    }
  }

  /** Replies shared by both word sets make two replies similar once they agree on most words. */
  lemma SameWordsAreSimilar(a: string, b: string)
    requires TokenSet(a) == TokenSet(b) && TokenSet(a) != {}
    ensures Similar(a, b)
  {
    var t := TokenSet(a);
    assert t * t == t && t + t == t;
  }

  /** The size of the reply cache per resident. */
  const CacheSize: nat := 3

  /** `_cache_response`: append, then keep the newest three. */
  function Cached(cache: map<string, seq<string>>, name: string, response: string): map<string, seq<string>>
  {
    var before := if name in cache then cache[name] else [];
    cache[name := Tail(before + [response], CacheSize)]
  }

  /** Caching adds `name`'s list if absent and leaves every other resident's list alone. */
  lemma CachedKeys(cache: map<string, seq<string>>, name: string, response: string)
    ensures Cached(cache, name, response).Keys == cache.Keys + {name}
    ensures forall n :: n in cache && n != name ==> Cached(cache, name, response)[n] == cache[n]
  {
  }

  /** The cached list ends with the new reply and holds at most three. */
  lemma CachedNewest(cache: map<string, seq<string>>, name: string, response: string)
    ensures |Cached(cache, name, response)[name]| <= CacheSize
    ensures var c := Cached(cache, name, response)[name]; c != [] && c[|c| - 1] == response
  {
    var before := if name in cache then cache[name] else [];
    var xs := before + [response];
    var kept := Tail(xs, CacheSize);
    assert Cached(cache, name, response)[name] == kept;
    assert |xs| == |before| + 1 && xs[|before|] == response;
    assert kept == xs[|xs| - |kept|..];
    assert kept[|kept| - 1] == xs[|xs| - 1];
  }

  /** While a list is shorter than three the reply is appended outright; a first reply starts a list of its own. */
  lemma CachedAppends(cache: map<string, seq<string>>, name: string, response: string)
    ensures name in cache && |cache[name]| < CacheSize ==> Cached(cache, name, response)[name] == cache[name] + [response]
    ensures name !in cache ==> Cached(cache, name, response)[name] == [response]
  {
  }

  /** Every cached list holds at most three replies. */
  ghost predicate CacheBounded(cache: map<string, seq<string>>)
  {
    forall n :: n in cache ==> |cache[n]| <= CacheSize
  }

  /** Caching a reply keeps every list at most three long. */
  lemma CachedBounded(cache: map<string, seq<string>>, name: string, response: string)
    requires CacheBounded(cache)
    ensures CacheBounded(Cached(cache, name, response))
  {
    var before := if name in cache then cache[name] else [];
    var kept := Tail(before + [response], CacheSize);
    assert Cached(cache, name, response) == cache[name := kept];
    StoreBounded(cache, name, kept);
  }

  /** Storing a list of at most three replies keeps every list at most three long. */
  lemma StoreBounded(cache: map<string, seq<string>>, name: string, kept: seq<string>)
    requires CacheBounded(cache) && |kept| <= CacheSize
    ensures CacheBounded(cache[name := kept])
  {
  }

  // ---------------------------------------------------------------- state update

  /** `_update_agent_state` on a profile value. */
  function UpdatedState(p: Profile, topic: string, now: int): Profile
  {
    var count := p.conversationCount + 1;
    var topics := if topic in p.recentTopics then p.recentTopics else Tail(p.recentTopics + [topic], 5);
    p.(lastMessageTime := Some(now), conversationCount := count, recentTopics := topics,
       energy := if count > 2 then p.energy * 0.95 else p.energy)
  }

  /**
   * The update stamps the time, counts one more conversation, adds the topic
   * only when absent (keeping at most five), decays energy once the count
   * passes two and leaves the rest of the profile alone.
   */
  lemma UpdatedStateSpec(p: Profile, topic: string, now: int)
    ensures var q := UpdatedState(p, topic, now);
      q.name == p.name && q.personality == p.personality && q.occupation == p.occupation && q.age == p.age
    ensures UpdatedState(p, topic, now).lastMessageTime == Some(now)
    ensures UpdatedState(p, topic, now).conversationCount == p.conversationCount + 1
    ensures topic in p.recentTopics ==> UpdatedState(p, topic, now).recentTopics == p.recentTopics
    ensures topic in UpdatedState(p, topic, now).recentTopics
    ensures |p.recentTopics| <= 5 ==> |UpdatedState(p, topic, now).recentTopics| <= 5
    ensures var q := UpdatedState(p, topic, now);
      q.energy == if q.conversationCount > 2 then p.energy * 0.95 else p.energy
  {
    if topic !in p.recentTopics {
      var topics := Tail(p.recentTopics + [topic], 5);
      assert topics[|topics| - 1] == topic;
    }
  }

  /** No topic appears twice in a list. */
  predicate Distinct(xs: seq<string>)
  {
    forall i, j :: 0 <= i < j < |xs| ==> xs[i] != xs[j]
  }

  /** The recent-topic list stays duplicate-free and at most five long. */
  lemma UpdateKeepsTopics(p: Profile, topic: string, now: int)
    requires Distinct(p.recentTopics) && |p.recentTopics| <= 5
    ensures Distinct(UpdatedState(p, topic, now).recentTopics)
    ensures |UpdatedState(p, topic, now).recentTopics| <= 5
  {
    var xs := p.recentTopics + [topic];
    if topic !in p.recentTopics {
      assert Distinct(xs);
      var t := Tail(xs, 5);
      assert forall i, j :: 0 <= i < j < |t| ==> t[i] == xs[i + |xs| - |t|] && t[j] == xs[j + |xs| - |t|];
    }
  }

  // ---------------------------------------------------------------- the turn

  /** One participant's generated reply, before the duplicate check. */
  datatype Proposal = Proposal(id: string, score: real, delay: real, reply: string)

  /** One delivered reply, as `process_user_message` returns it. */
  datatype Reply = Reply(agentId: string, agentName: string, response: string, delay: real, score: real)

  /** The handler's mutable state: profiles and the reply cache. */
  datatype State = State(profiles: map<string, Profile>, cache: map<string, seq<string>>)

  /** The replies a turn delivers, with the state they leave behind. */
  datatype Outcome = Outcome(replies: seq<Reply>, state: State)

  /**
   * One proposal of the commit loop of `process_user_message`: a non-empty,
   * non-duplicate reply is delivered, updates its speaker's state and enters
   * the cache; any other proposal changes nothing.
   */
  function Commit(s: State, p: Proposal, topic: string, now: int): Outcome
  {
    if p.id !in s.profiles then Outcome([], s)
    else
    var name := s.profiles[p.id].name;
    if p.reply != "" && !IsDuplicate(s.cache, p.reply, name) then
      Outcome([Reply(p.id, name, p.reply, p.delay, p.score)],
        State(s.profiles[p.id := UpdatedState(s.profiles[p.id], topic, now)], Cached(s.cache, name, p.reply)))
    else Outcome([], s)
  }

  /**
   * A proposal delivers at most one reply, exactly when its reply is non-empty
   * and no duplicate, under its own resident's id and name; a proposal that
   * delivers nothing leaves the state as it was; residents stay the same and
   * caches stay bounded.
   */
  lemma CommitSpec(s: State, p: Proposal, topic: string, now: int)
    ensures Commit(s, p, topic, now).state.profiles.Keys == s.profiles.Keys
    ensures |Commit(s, p, topic, now).replies| <= 1
    ensures Commit(s, p, topic, now).replies == [] ==> Commit(s, p, topic, now).state == s
    ensures p.id in s.profiles ==> (Commit(s, p, topic, now).replies == []
      <==> p.reply == "" || IsDuplicate(s.cache, p.reply, s.profiles[p.id].name))
    ensures var o := Commit(s, p, topic, now);
      o.replies != [] ==> o.replies[0].agentId == p.id && o.replies[0].response == p.reply
    ensures var o := Commit(s, p, topic, now);
      o.replies != [] ==> p.id in s.profiles && o.replies[0].agentName == s.profiles[p.id].name
    ensures CacheBounded(s.cache) ==> CacheBounded(Commit(s, p, topic, now).state.cache)
  {
    if CacheBounded(s.cache) && p.id in s.profiles {
      CachedBounded(s.cache, s.profiles[p.id].name, p.reply);
    }
  }

  /** The commit loop over all proposals, in order. */
  function Deliver(s: State, proposals: seq<Proposal>, topic: string, now: int): (o: Outcome)
    decreases |proposals|
  {
    if proposals == [] then Outcome([], s)
    else
      var first := Commit(s, proposals[0], topic, now);
      var rest := Deliver(first.state, proposals[1..], topic, now);
      Outcome(first.replies + rest.replies, rest.state)
  }

  /** A turn keeps the set of residents, delivers at most one reply per proposal, never an empty one, and keeps caches bounded. */
  lemma {:induction false} DeliverBounds(s: State, proposals: seq<Proposal>, topic: string, now: int)
    ensures Deliver(s, proposals, topic, now).state.profiles.Keys == s.profiles.Keys
    ensures |Deliver(s, proposals, topic, now).replies| <= |proposals|
    ensures forall k :: 0 <= k < |Deliver(s, proposals, topic, now).replies| ==>
      Deliver(s, proposals, topic, now).replies[k].response != ""
    ensures CacheBounded(s.cache) ==> CacheBounded(Deliver(s, proposals, topic, now).state.cache)
    decreases |proposals|
  {
    if proposals != [] {
      var first := Commit(s, proposals[0], topic, now);
      CommitSpec(s, proposals[0], topic, now);
      DeliverBounds(first.state, proposals[1..], topic, now);
    }
  }

  /** Every delivered reply is some proposal's reply, spoken by that proposal's resident. */
  lemma {:induction false} DeliveredWereProposed(s: State, proposals: seq<Proposal>, topic: string, now: int, r: Reply)
    requires r in Deliver(s, proposals, topic, now).replies
    ensures exists k :: 0 <= k < |proposals| && proposals[k].id == r.agentId && proposals[k].reply == r.response
    decreases |proposals|
  {
    var first := Commit(s, proposals[0], topic, now);
    CommitSpec(s, proposals[0], topic, now);
    if r !in first.replies {
      DeliveredWereProposed(first.state, proposals[1..], topic, now, r);
      var k :| 0 <= k < |proposals[1..]| && proposals[1..][k].id == r.agentId && proposals[1..][k].reply == r.response;
      assert proposals[k + 1] == proposals[1..][k];
    }
  }

  /** The commit loop from position `i` is one commit followed by the loop from `i + 1`. */
  lemma DeliverStep(s: State, proposals: seq<Proposal>, i: nat, topic: string, now: int)
    requires i < |proposals|
    ensures var c := Commit(s, proposals[i], topic, now);
      var rest := Deliver(c.state, proposals[i + 1..], topic, now);
      Deliver(s, proposals[i..], topic, now) == Outcome(c.replies + rest.replies, rest.state)
  {
    assert proposals[i..][0] == proposals[i];
    assert proposals[i..][1..] == proposals[i + 1..];
  }

  /**
   * When the commit at position `i` delivers `delivered` and moves to `after`,
   * the replies so far grow by `delivered` and the loop carries on from `i + 1`.
   */
  lemma DeliverAdvance(start: State, before: State, proposals: seq<Proposal>, i: nat, topic: string, now: int,
                       replies: seq<Reply>, delivered: seq<Reply>, after: State)
    requires i < |proposals|
    requires Commit(before, proposals[i], topic, now) == Outcome(delivered, after)
    requires Deliver(start, proposals, topic, now)
      == Outcome(replies + Deliver(before, proposals[i..], topic, now).replies, Deliver(before, proposals[i..], topic, now).state)
    ensures Deliver(start, proposals, topic, now)
      == Outcome((replies + delivered) + Deliver(after, proposals[i + 1..], topic, now).replies,
                 Deliver(after, proposals[i + 1..], topic, now).state)
  {
    DeliverStep(before, proposals, i, topic, now);
    var rest := Deliver(after, proposals[i + 1..], topic, now);
    assert replies + (delivered + rest.replies) == (replies + delivered) + rest.replies;
  }

  /** No reply in `replies` is spoken by `n`. */
  predicate Silent(replies: seq<Reply>, n: string)
  {
    forall k :: 0 <= k < |replies| ==> replies[k].agentName != n
  }

  /** Both halves of a run of replies without `n` are without `n`. */
  lemma SilentSplit(a: seq<Reply>, b: seq<Reply>, n: string)
    requires Silent(a + b, n)
    ensures Silent(a, n) && Silent(b, n)
  {
    assert forall k :: 0 <= k < |a| ==> a[k] == (a + b)[k];
    assert forall k :: 0 <= k < |b| ==> b[k] == (a + b)[|a| + k];
  }

  /** A proposal that delivers nothing under `n` leaves `n`'s cache as it was. */
  lemma CommitKeepsSilentCache(s: State, p: Proposal, topic: string, now: int, n: string)
    requires Silent(Commit(s, p, topic, now).replies, n)
    ensures n in Commit(s, p, topic, now).state.cache <==> n in s.cache
    ensures n in s.cache ==> Commit(s, p, topic, now).state.cache[n] == s.cache[n]
  {
    CommitSpec(s, p, topic, now);
    if Commit(s, p, topic, now).replies != [] {
      var name := s.profiles[p.id].name;
      assert name != n;
      CachedKeys(s.cache, name, p.reply);
    }
  }

  /** A resident who delivers nothing in a turn keeps their reply cache. */
  lemma {:induction false} SilentKeepCache(s: State, proposals: seq<Proposal>, topic: string, now: int, n: string)
    requires Silent(Deliver(s, proposals, topic, now).replies, n)
    ensures n in Deliver(s, proposals, topic, now).state.cache <==> n in s.cache
    ensures n in s.cache ==> Deliver(s, proposals, topic, now).state.cache[n] == s.cache[n]
    decreases |proposals|
  {
    if proposals != [] {
      var first := Commit(s, proposals[0], topic, now);
      var rest := Deliver(first.state, proposals[1..], topic, now);
      assert Deliver(s, proposals, topic, now) == Outcome(first.replies + rest.replies, rest.state);
      SilentSplit(first.replies, rest.replies, n);
      CommitKeepsSilentCache(s, proposals[0], topic, now, n);
      SilentKeepCache(first.state, proposals[1..], topic, now, n);
    }
  }

  /** Every profile scored with its jitter draw, in profile order. */
  function ScoreAll(ids: seq<string>, profiles: map<string, Profile>, message: string, topic: string,
                    jitter: nat -> real): (r: seq<Candidate>)
    requires forall k :: 0 <= k < |ids| ==> ids[k] in profiles
    ensures |r| == |ids|
    ensures forall k :: 0 <= k < |r| ==> r[k].id == ids[k] && 0.0 <= r[k].score <= 1.0
  {
    var r := seq(|ids|, k requires 0 <= k < |ids| =>
      Candidate(ids[k], ParticipationScore(profiles[ids[k]], message, topic, jitter(k))));
    assert forall k :: 0 <= k < |r| ==> r[k] == Candidate(ids[k], ParticipationScore(profiles[ids[k]], message, topic, jitter(k)));
    r
  }

  /**
   * The proposals of a turn: the i-th chosen resident's delay and the reply
   * the generator settles on from that resident's attempts.
   */
  function Proposals(v: Phrases, profiles: map<string, Profile>, chosen: seq<Candidate>, delayDraws: nat -> (real, real),
                     attempts: (nat, nat) -> Attempt, message: string, pick: nat -> nat): (ps: seq<Proposal>)
    requires forall i :: 0 <= i < |chosen| ==> chosen[i].id in profiles
    ensures |ps| == |chosen|
    ensures forall i :: 0 <= i < |ps| ==> ps[i].id == chosen[i].id && 1.0 <= ps[i].delay <= 30.0
  {
    var ps := seq(|chosen|, i requires 0 <= i < |chosen| => ProposalAt(v, profiles, chosen, i, delayDraws, attempts, message, pick));
    assert forall i :: 0 <= i < |ps| ==> ps[i] == ProposalAt(v, profiles, chosen, i, delayDraws, attempts, message, pick);
    ps
  }

  /** The i-th chosen resident's proposal. */
  function ProposalAt(v: Phrases, profiles: map<string, Profile>, chosen: seq<Candidate>, i: nat, delayDraws: nat -> (real, real),
                      attempts: (nat, nat) -> Attempt, message: string, pick: nat -> nat): (p: Proposal)
    requires i < |chosen| && chosen[i].id in profiles
    ensures p.id == chosen[i].id && 1.0 <= p.delay <= 30.0
  {
    Proposal(chosen[i].id, chosen[i].score,
      ResponseDelay(profiles[chosen[i].id].personality, i, chosen[i].score, delayDraws(i).0, delayDraws(i).1),
      SettledReply(v, AttemptsFor(attempts, i), FallbackReply(profiles[chosen[i].id].personality, message, pick(i))))
  }

  /** A proposal depends on the profiles only through the speaker's personality. */
  lemma SamePersonalitySameProposal(v: Phrases, profiles: map<string, Profile>, other: map<string, Profile>,
                                    chosen: seq<Candidate>, i: nat, delayDraws: nat -> (real, real),
                                    attempts: (nat, nat) -> Attempt, message: string, pick: nat -> nat)
    requires i < |chosen| && chosen[i].id in profiles && chosen[i].id in other
    requires profiles[chosen[i].id].personality == other[chosen[i].id].personality
    ensures ProposalAt(v, profiles, chosen, i, delayDraws, attempts, message, pick)
      == ProposalAt(v, other, chosen, i, delayDraws, attempts, message, pick)
  {
  }

  /** Every proposal carries a reply: one that passes the validator, or the speaker's non-empty fallback. */
  lemma ProposalReplySpec(v: Phrases, profiles: map<string, Profile>, chosen: seq<Candidate>, i: nat,
                          delayDraws: nat -> (real, real), attempts: (nat, nat) -> Attempt, message: string, pick: nat -> nat)
    requires WellFormed(v) && i < |chosen| && chosen[i].id in profiles
    ensures ProposalAt(v, profiles, chosen, i, delayDraws, attempts, message, pick).reply != ""
    ensures ProposalAt(v, profiles, chosen, i, delayDraws, attempts, message, pick).reply
        == FallbackReply(profiles[chosen[i].id].personality, message, pick(i))
      || IsParticipatory(v, ProposalAt(v, profiles, chosen, i, delayDraws, attempts, message, pick).reply)
  {
    var fallback := FallbackReply(profiles[chosen[i].id].personality, message, pick(i));
    SettledReplyValid(v, AttemptsFor(attempts, i), fallback);
    FallbackReplySpec(profiles[chosen[i].id].personality, message, pick(i));
  }

  /** Everyone selected from the scored profiles has a profile. */
  lemma ChosenAreResidents(ids: seq<string>, profiles: map<string, Profile>, message: string, topic: string,
                           jitter: nat -> real, cap: nat)
    requires forall k :: 0 <= k < |ids| ==> ids[k] in profiles
    ensures forall i :: 0 <= i < |Selected(ScoreAll(ids, profiles, message, topic, jitter), cap)| ==>
      Selected(ScoreAll(ids, profiles, message, topic, jitter), cap)[i].id in profiles
  {
    var scored := ScoreAll(ids, profiles, message, topic, jitter);
    var picked := Selected(scored, cap);
    SelectedFromInput(scored, cap);
    forall i | 0 <= i < |picked| ensures picked[i].id in profiles {
      assert picked[i] in multiset(scored);
      var k :| 0 <= k < |scored| && scored[k] == picked[i];
    }
  }

  /** The generator calls made on the i-th participant's behalf. */
  function AttemptsFor(attempts: (nat, nat) -> Attempt, i: nat): nat -> Attempt
  {
    (k: nat) => attempts(i, k)
  }

  /** The smart chat handler's resident profiles (ids in insertion order) and reply cache. */
  class Handler {
    const topics: seq<Category>
    const validator: Phrases
    var order: seq<string>
    var profiles: map<string, Profile>
    var cache: map<string, seq<string>>

    /** Profile ids are listed once each, and every cache list is at most three long. */
    ghost predicate Valid()
      reads this
    {
      (forall i, j :: 0 <= i < j < |order| ==> order[i] != order[j])
      && (forall id :: id in profiles <==> id in order)
      && CacheBounded(cache)
    }

    constructor (ids: seq<string>, initial: map<string, Profile>)
      requires forall i, j :: 0 <= i < j < |ids| ==> ids[i] != ids[j]
      requires forall id :: id in initial <==> id in ids
      ensures Valid() && topics == TopicTable && validator == ValidatorPhrases
      ensures order == ids && profiles == initial && cache == map[]
    {
      topics := TopicTable;
      validator := ValidatorPhrases;
      order := ids;
      profiles := initial;
      cache := map[];
    }

    /** `_cache_response`. */
    method CacheResponse(response: string, name: string)
      requires Valid()
      modifies this
      ensures Valid()
      ensures order == old(order) && profiles == old(profiles)
      ensures cache == Cached(old(cache), name, response)
    {
      CachedBounded(cache, name, response);
      cache := Cached(cache, name, response);
    }

    /** `_update_agent_state` on the profile stored under `id`. */
    method UpdateAgentState(id: string, topic: string, now: int)
      requires Valid() && id in profiles
      modifies this
      ensures Valid()
      ensures order == old(order) && cache == old(cache)
      ensures profiles == old(profiles)[id := UpdatedState(old(profiles)[id], topic, now)]
    {
      profiles := profiles[id := UpdatedState(profiles[id], topic, now)];
    }

    /** The delay and the generated reply for the i-th chosen resident. */
    method Propose(picked: seq<Candidate>, i: nat, delayDraws: nat -> (real, real),
                   attempts: (nat, nat) -> Attempt, message: string, pick: nat -> nat) returns (p: Proposal)
      requires i < |picked| && picked[i].id in profiles
      ensures p == ProposalAt(validator, profiles, picked, i, delayDraws, attempts, message, pick)
    {
      var id := picked[i].id;
      var draws := delayDraws(i);
      var delay := ResponseDelay(profiles[id].personality, i, picked[i].score, draws.0, draws.1);
      var response, _ := GenerateReply(validator, AttemptsFor(attempts, i), FallbackReply(profiles[id].personality, message, pick(i)));
      p := Proposal(id, picked[i].score, delay, response);
    }

    /** One pass of the loop of `process_user_message`: deliver, update state and cache, or drop. */
    method CommitProposal(p: Proposal, topic: string, now: int) returns (delivered: seq<Reply>)
      requires Valid() && p.id in profiles
      modifies this
      ensures Valid() && order == old(order)
      ensures forall id :: id in profiles <==> id in old(profiles)
      ensures forall id :: id in profiles ==> profiles[id].personality == old(profiles)[id].personality
      ensures Commit(State(old(profiles), old(cache)), p, topic, now) == Outcome(delivered, State(profiles, cache))
    {
      var profile := profiles[p.id];
      delivered := [];
      if p.reply != "" && !IsDuplicate(cache, p.reply, profile.name) {
        delivered := [Reply(p.id, profile.name, p.reply, p.delay, p.score)];
        UpdatedStateSpec(profile, topic, now);
        UpdateAgentState(p.id, topic, now);
        CacheResponse(p.reply, profile.name);
      }
    }

    /**
     * `process_user_message`. The draws are parameters: `jitter(k)` for the
     * k-th profile's score, `capRoll` for the cap, `delayDraws(i)` for the i-th
     * participant's two delay draws, `attempts(i, n)` for the n-th generator call
     * on the i-th participant's behalf and `pick(i)` for the choice of its fallback reply.
     * `chosen` is who took part.
     */
    method ProcessUserMessage(message: string, now: int, jitter: nat -> real, capRoll: nat,
                              delayDraws: nat -> (real, real), attempts: (nat, nat) -> Attempt,
                              pick: nat -> nat)
      returns (replies: seq<Reply>, ghost chosen: seq<Candidate>)
      requires Valid()
      modifies this
      ensures Valid() && order == old(order)
      ensures chosen == Selected(ScoreAll(old(order), old(profiles), message, AnalyzeTopic(topics, message), jitter),
                                 MaxParticipants(message, AnalyzeTopic(topics, message), capRoll))
      ensures forall i :: 0 <= i < |chosen| ==> chosen[i].id in old(profiles)
      ensures Deliver(State(old(profiles), old(cache)), Proposals(validator, old(profiles), chosen, delayDraws, attempts, message, pick),
                      AnalyzeTopic(topics, message), now) == Outcome(replies, State(profiles, cache))
    {
      var topic := AnalyzeTopic(topics, message);
      var scored := ScoreAll(order, profiles, message, topic, jitter);
      var cap := MaxParticipants(message, topic, capRoll);
      var picked := SelectTop(scored, cap);
      chosen := picked;
      ChosenAreResidents(order, profiles, message, topic, jitter, cap);
      replies := CommitChosen(picked, topic, now, delayDraws, attempts, message, pick);
    }

    /** One pass of the loop of `CommitChosen`: propose for the i-th participant and commit the proposal. */
    method CommitStep(picked: seq<Candidate>, i: nat, topic: string, now: int, delayDraws: nat -> (real, real),
                      attempts: (nat, nat) -> Attempt, message: string, pick: nat -> nat, ghost start: State,
                      ghost proposals: seq<Proposal>, ghost original: map<string, Profile>, ghost replies: seq<Reply>)
      returns (delivered: seq<Reply>)
      requires Valid() && i < |picked| && picked[i].id in profiles && picked[i].id in original
      requires profiles[picked[i].id].personality == original[picked[i].id].personality
      requires i < |proposals| && proposals[i] == ProposalAt(validator, original, picked, i, delayDraws, attempts, message, pick)
      requires Deliver(start, proposals, topic, now)
        == Outcome(replies + Deliver(State(profiles, cache), proposals[i..], topic, now).replies,
                   Deliver(State(profiles, cache), proposals[i..], topic, now).state)
      modifies this
      ensures Valid() && order == old(order)
      ensures profiles.Keys == old(profiles).Keys
      ensures forall id :: id in profiles ==> profiles[id].personality == old(profiles)[id].personality
      ensures Deliver(start, proposals, topic, now)
        == Outcome((replies + delivered) + Deliver(State(profiles, cache), proposals[i + 1..], topic, now).replies,
                   Deliver(State(profiles, cache), proposals[i + 1..], topic, now).state)
    {
      ghost var before := State(profiles, cache);
      var proposal := Propose(picked, i, delayDraws, attempts, message, pick);
      SamePersonalitySameProposal(validator, profiles, original, picked, i, delayDraws, attempts, message, pick);
      assert proposal == proposals[i];
      delivered := CommitProposal(proposal, topic, now);
      DeliverAdvance(start, before, proposals, i, topic, now, replies, delivered, State(profiles, cache));
    }

    /**
     * The loop of `process_user_message` over the chosen residents, in order:
     * generate, drop empty and duplicate replies, update state and cache.
     */
    method CommitChosen(picked: seq<Candidate>, topic: string, now: int, delayDraws: nat -> (real, real),
                        attempts: (nat, nat) -> Attempt, message: string, pick: nat -> nat)
      returns (replies: seq<Reply>)
      requires Valid()
      requires forall i :: 0 <= i < |picked| ==> picked[i].id in profiles
      modifies this
      ensures Valid() && order == old(order)
      ensures Deliver(State(old(profiles), old(cache)), Proposals(validator, old(profiles), picked, delayDraws, attempts, message, pick),
                      topic, now) == Outcome(replies, State(profiles, cache))
    {
      ghost var proposals := Proposals(validator, profiles, picked, delayDraws, attempts, message, pick);
      ghost var start := State(profiles, cache);
      replies := [];
      var i := 0;
      while i < |picked|
        invariant 0 <= i <= |picked|
        invariant Valid() && order == old(order)
        invariant profiles.Keys == old(profiles).Keys
        invariant forall id :: id in profiles ==> profiles[id].personality == old(profiles)[id].personality
        invariant Deliver(start, proposals, topic, now)
          == Outcome(replies + Deliver(State(profiles, cache), proposals[i..], topic, now).replies,
                     Deliver(State(profiles, cache), proposals[i..], topic, now).state)
      {
        var delivered := CommitStep(picked, i, topic, now, delayDraws, attempts, message, pick, start, proposals, old(profiles), replies);
        replies := replies + delivered;
        i := i + 1;
      }
    }
  }
}
