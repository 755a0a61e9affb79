/**
 * The realistic chat system: a keyword topic classifier with "general" as the
 * default, a two-way sentiment, threshold selection on clamped scores, a cap
 * that depends on question marks, topic and length, and a schedule that gives
 * every selected resident a delay and marks only the first as first responder.
 * Each resident keeps a conversation memory of at most twenty entries.
 * Reply generation reads the generator's answer under a key the generator
 * never sets; the model has that version and the corrected one.
 */
module RealisticChat {
  import opened Wrappers
  import opened Text
  import opened Builtins
  import opened Classify
  import opened Selection

  // ---------------------------------------------------------------- topic and sentiment

  /** The system's topic table, in declaration order. */
  const TopicTable: seq<Category> := [
    Category("social", ["聚会", "活动", "朋友", "社交", "聊天", "交流"]),
    Category("work", ["工作", "职业", "项目", "任务", "学习", "研究"]),
    Category("health", ["健康", "运动", "医疗", "身体", "锻炼", "养生"]),
    Category("entertainment", ["娱乐", "游戏", "电影", "音乐", "艺术", "创作"]),
    Category("life", ["生活", "日常", "家庭", "购物", "美食", "旅行"]),
    Category("community", ["社群", "邻居", "建设", "发展", "改善", "问题"])
  ]

  /**
   * `_analyze_message_topic`: the category of `topics` with most keyword hits
   * in the message as written (no lowercasing), the first such in table
   * order, and "general" when no keyword occurs.
   */
  function AnalyzeTopic(topics: seq<Category>, message: string): (topic: string)
    ensures (forall k :: 0 <= k < |topics| ==> !ContainsAny(message, topics[k].keywords)) ==> topic == "general"
    ensures (exists k :: 0 <= k < |topics| && ContainsAny(message, topics[k].keywords)) ==>
      exists i :: 0 <= i < |topics| && topic == topics[i].name && ContainsAny(message, topics[i].keywords)
  {
    TopicOf(topics, message, "general")
  }

  /** The positive words of `_analyze_message_sentiment`. */
  const PositiveWords: seq<string> := ["好", "棒", "喜欢", "开心", "高兴", "满意", "赞", "优秀", "完美", "太好了"]

  /** The negative words of `_analyze_message_sentiment`. */
  const NegativeWords: seq<string> := ["坏", "差", "讨厌", "生气", "愤怒", "不满", "糟糕", "失望", "难过", "问题"]

  /**
   * `_analyze_message_sentiment`: positive or negative when that side has
   * strictly more hits, neutral on a tie, and never questioning.
   */
  function AnalyzeSentiment(message: string): (r: Sentiment)
    ensures r != Questioning
    ensures r == Positive <==> HitCount(PositiveWords, message) > HitCount(NegativeWords, message)
    ensures r == Negative <==> HitCount(NegativeWords, message) > HitCount(PositiveWords, message)
    ensures r == Neutral <==> HitCount(PositiveWords, message) == HitCount(NegativeWords, message)
  {
    CompareSentiment(message, PositiveWords, NegativeWords)
  }

  // ---------------------------------------------------------------- profiles

  /** `AgentChatProfile`; times are integer seconds. */
  datatype Profile = Profile(
    id: string,
    name: string,
    personality: string,
    occupation: string,
    age: int,
    interests: seq<string>,
    chattiness: real,
    responseSpeed: real,
    topicEngagement: map<string, real>,
    socialEnergy: real,
    lastMessageTime: Option<int>,
    recentTopics: seq<string>,
    conversationCount: nat)

  /** The personality names of the trait table. */
  const TraitPersonalities: seq<string> := ["乐观开朗", "现实主义", "创造型", "分析型", "社交型", "内向型", "领导型", "支持型"]

  /** The chat traits of a personality (`personality_traits`): chattiness, response speed and social energy. */
  function ChatTraits(personality: string): (t: (real, real, real))
    ensures 0.3 <= t.0 <= 0.9 && 0.4 <= t.1 <= 0.9 && 0.4 <= t.2 <= 0.9
    ensures personality !in TraitPersonalities ==> t == (0.5, 0.5, 0.5)
  {
    if personality == "乐观开朗" then (0.8, 0.9, 0.9)
    else if personality == "现实主义" then (0.5, 0.6, 0.6)
    else if personality == "创造型" then (0.7, 0.7, 0.7)
    else if personality == "分析型" then (0.4, 0.5, 0.5)
    else if personality == "社交型" then (0.9, 0.8, 0.9)
    else if personality == "内向型" then (0.3, 0.4, 0.4)
    else if personality == "领导型" then (0.7, 0.8, 0.8)
    else if personality == "支持型" then (0.6, 0.7, 0.7)
    else (0.5, 0.5, 0.5)
  }

  /** The occupations of the engagement table. */
  const EngagementOccupations: seq<string> := ["教师", "医生", "工程师", "艺术家", "商人", "农民", "学生", "研究员", "厨师", "建筑工人"]

  /** The topic engagement of an occupation (`occupation_interests`); an unknown occupation engages 0.5 in all six topics. */
  function TopicEngagement(occupation: string): (m: map<string, real>)
    ensures forall t :: t in m ==> 0.5 <= m[t] <= 0.9
    ensures occupation !in EngagementOccupations ==>
      m == map["social" := 0.5, "work" := 0.5, "health" := 0.5, "entertainment" := 0.5, "life" := 0.5, "community" := 0.5]
  {
    if occupation == "教师" then map["work" := 0.9, "social" := 0.8, "community" := 0.8, "life" := 0.7]
    else if occupation == "医生" then map["health" := 0.9, "work" := 0.8, "community" := 0.7, "life" := 0.6]
    else if occupation == "工程师" then map["work" := 0.8, "entertainment" := 0.6, "life" := 0.6, "community" := 0.5]
    else if occupation == "艺术家" then map["entertainment" := 0.9, "social" := 0.8, "life" := 0.7, "work" := 0.6]
    else if occupation == "商人" then map["work" := 0.8, "social" := 0.8, "community" := 0.7, "life" := 0.7]
    else if occupation == "农民" then map["life" := 0.8, "health" := 0.7, "community" := 0.7, "work" := 0.6]
    else if occupation == "学生" then map["work" := 0.7, "social" := 0.9, "entertainment" := 0.8, "life" := 0.7]
    else if occupation == "研究员" then map["work" := 0.9, "entertainment" := 0.5, "life" := 0.5, "community" := 0.6]
    else if occupation == "厨师" then map["life" := 0.9, "social" := 0.8, "health" := 0.7, "entertainment" := 0.7]
    else if occupation == "建筑工人" then map["work" := 0.7, "community" := 0.8, "life" := 0.7, "social" := 0.6]
    else map["social" := 0.5, "work" := 0.5, "health" := 0.5, "entertainment" := 0.5, "life" := 0.5, "community" := 0.5]
  }

  /** `_create_agent_profile`: the traits and engagement of the tables, no history, no recent topics. */
  function NewProfile(id: string, name: string, personality: string, occupation: string, age: int,
                      interests: seq<string>): (p: Profile)
    ensures p.id == id && p.name == name && p.personality == personality && p.occupation == occupation
    ensures p.lastMessageTime == None && p.recentTopics == [] && p.conversationCount == 0
    ensures 0.3 <= p.chattiness <= 0.9 && 0.4 <= p.responseSpeed <= 0.9 && 0.4 <= p.socialEnergy <= 0.9
    ensures forall t :: t in p.topicEngagement ==> 0.5 <= p.topicEngagement[t] <= 0.9
  {
    var t := ChatTraits(personality);
    Profile(id, name, personality, occupation, age, interests, t.0, t.1, TopicEngagement(occupation), t.2, None, [], 0)
  }

  // ---------------------------------------------------------------- score, cap, delay

  /** The reaction of a personality to the message's sentiment. */
  function SentimentBonus(sentiment: Sentiment, personality: string): real
  {
    if sentiment == Positive && (personality == "乐观开朗" || personality == "社交型") then 0.1
    else if sentiment == Negative && (personality == "支持型" || personality == "领导型") then 0.15
    else 0.0
  }

  /** The resident spoke less than five minutes (300 seconds) before `now`. */
  predicate SpokeRecently(p: Profile, now: int)
  {
    p.lastMessageTime.Some? && now - p.lastMessageTime.value < 300
  }

  /**
   * The score before the clamp: chattiness, topic engagement (0.5 when the
   * topic has none), social energy below five conversations or a 0.1 penalty
   * from five on, 0.15 per listed interest found in the message, the
   * sentiment reaction, the `random.uniform(-0.1, 0.1)` draw `noise`, and a
   * 0.2 penalty for a recent speaker.
   */
  function RawScore(p: Profile, message: string, topic: string, sentiment: Sentiment, noise: real, now: int): real
  {
    p.chattiness * 0.3
    + (if topic in p.topicEngagement then p.topicEngagement[topic] else 0.5) * 0.4
    + (if p.conversationCount < 5 then p.socialEnergy * 0.2 else -0.1)
    + 0.15 * HitCount(p.interests, message) as real
    + SentimentBonus(sentiment, p.personality)
    + noise
    + (if SpokeRecently(p, now) then -0.2 else 0.0)
  }

  /** `_calculate_participation_score`: the raw score clamped to [0, 1]. */
  function ParticipationScore(p: Profile, message: string, topic: string, sentiment: Sentiment, noise: real,
                              now: int): (s: real)
    ensures 0.0 <= s <= 1.0
  {
    Clamp(RawScore(p, message, topic, sentiment, noise, now), 0.0, 1.0)
  }

  /** A resident who spoke in the last five minutes never scores above the same resident with no history. */
  lemma RecentSpeakerScoresLower(p: Profile, message: string, topic: string, sentiment: Sentiment, noise: real,
                                 now: int)
    requires SpokeRecently(p, now)
    ensures ParticipationScore(p, message, topic, sentiment, noise, now)
      <= ParticipationScore(p.(lastMessageTime := None), message, topic, sentiment, noise, now)
  {
    var q := p.(lastMessageTime := None);
    assert RawScore(p, message, topic, sentiment, noise, now) == RawScore(q, message, topic, sentiment, noise, now) - 0.2;
  }

  /** An optimistic or sociable resident never scores lower on a positive message than on a neutral one. */
  lemma PositiveMessageLifts(p: Profile, message: string, topic: string, noise: real, now: int)
    requires p.personality == "乐观开朗" || p.personality == "社交型"
    ensures ParticipationScore(p, message, topic, Neutral, noise, now)
      <= ParticipationScore(p, message, topic, Positive, noise, now)
  {
    assert RawScore(p, message, topic, Positive, noise, now) == RawScore(p, message, topic, Neutral, noise, now) + 0.1;
  }

  /** Every profile of `ids` scored with its noise draw, in profile order. */
  function ScoreAll(ids: seq<string>, profiles: map<string, Profile>, message: string, topic: string,
                    sentiment: Sentiment, noise: nat -> real, now: int): (r: seq<Candidate>)
    requires forall k :: 0 <= k < |ids| ==> ids[k] in profiles
    ensures |r| == |ids|
    ensures forall k :: 0 <= k < |r| ==> r[k].id == ids[k] && 0.0 <= r[k].score <= 1.0
  {
    var r := seq(|ids|, k requires 0 <= k < |ids| =>
      Candidate(ids[k], ParticipationScore(profiles[ids[k]], message, topic, sentiment, noise(k), now)));
    assert forall k :: 0 <= k < |r| ==> r[k] == Candidate(ids[k], ParticipationScore(profiles[ids[k]], message, topic,
      sentiment, noise(k), now));
    r
  }

  /** A question mark, ASCII or full-width, occurs in the message. */
  predicate AsksQuestion(message: string)
  {
    '?' in message || '？' in message
  }

  /**
   * `_determine_max_participants`; `roll` drives the `random.randint` draw.
   * The first rule that applies wins: a question, then a community or social
   * topic, then a message longer than fifty characters.
   */
  function MaxParticipants(message: string, topic: string, roll: nat): (cap: nat)
    ensures AsksQuestion(message) ==> 2 <= cap <= 4
    ensures !AsksQuestion(message) && (topic == "community" || topic == "social") ==> 2 <= cap <= 3
    ensures !AsksQuestion(message) && !(topic == "community" || topic == "social") && |message| > 50 ==> 1 <= cap <= 3
    ensures !AsksQuestion(message) && !(topic == "community" || topic == "social") && |message| <= 50 ==> 1 <= cap <= 2
  {
    if AsksQuestion(message) then RandInt(2, 4, roll) as nat
    else if topic == "community" || topic == "social" then RandInt(2, 3, roll) as nat
    else if |message| > 50 then RandInt(1, 3, roll) as nat
    else RandInt(1, 2, roll) as nat
  }

  /** Every cap the source can draw for a message is one the model can produce. */
  lemma MaxParticipantsCovers(message: string, topic: string, cap: nat)
    requires AsksQuestion(message) && 2 <= cap <= 4
    ensures exists roll: nat :: MaxParticipants(message, topic, roll) == cap
  {
    assert MaxParticipants(message, topic, (cap - 2) as nat) == cap;
  }

  /** The personality factor of the delay: quick talkers below 1, hesitant ones above. */
  function PersonalityModifier(personality: string): (m: real)
    ensures 0.7 <= m <= 1.5
  {
    if personality == "社交型" then 0.7
    else if personality == "乐观开朗" || personality == "领导型" then 0.8
    else if personality == "内向型" then 1.5
    else if personality == "分析型" then 1.3
    else if personality == "现实主义" then 1.1
    else 1.0
  }

  /** The delay before the personality and random factors: the speed-based base, the order offset and the interest term. */
  function Stretch(p: Profile, order: nat, score: real, orderDraw: real): real
  {
    (1.0 - p.responseSpeed) * 20.0 + 2.0 + order as real * orderDraw + (1.0 - score) * 10.0
  }

  /** The delay before the clamp. */
  function RawDelay(p: Profile, order: nat, score: real, orderDraw: real, factor: real): real
  {
    Stretch(p, order, score, orderDraw) * PersonalityModifier(p.personality) * factor
  }

  /**
   * `_calculate_response_delay`; `orderDraw` is `random.uniform(3, 8)` and
   * `factor` is `random.uniform(0.8, 1.2)`. The result is clamped to [1, 60].
   */
  function ResponseDelay(p: Profile, order: nat, score: real, orderDraw: real, factor: real): (d: real)
    ensures 1.0 <= d <= 60.0
  {
    Clamp(RawDelay(p, order, score, orderDraw, factor), 1.0, 60.0)
  }

  /** Clamping keeps the order of two values. */
  lemma ClampMonotone(x: real, y: real, lo: real, hi: real)
    requires lo <= hi && x <= y
    ensures Clamp(x, lo, hi) <= Clamp(y, lo, hi)
  {
  }

  /** Scaling by two non-negative factors keeps the order of two values. */
  lemma ScaleMonotone(x: real, y: real, m: real, f: real)
    requires x <= y && m >= 0.0 && f >= 0.0
    ensures x * m * f <= y * m * f
  {
    assert x * m <= y * m;
  }

  /** The clamped delay follows the order of the stretches. */
  lemma DelayFollowsStretch(p: Profile, o1: nat, s1: real, o2: nat, s2: real, orderDraw: real, factor: real)
    requires Stretch(p, o1, s1, orderDraw) <= Stretch(p, o2, s2, orderDraw) && factor >= 0.0
    ensures ResponseDelay(p, o1, s1, orderDraw, factor) <= ResponseDelay(p, o2, s2, orderDraw, factor)
  {
    var m := PersonalityModifier(p.personality);
    ScaleMonotone(Stretch(p, o1, s1, orderDraw), Stretch(p, o2, s2, orderDraw), m, factor);
    ClampMonotone(RawDelay(p, o1, s1, orderDraw, factor), RawDelay(p, o2, s2, orderDraw, factor), 1.0, 60.0);
  }

  /** A more interested resident never answers later than a less interested one. */
  lemma InterestSpeedsReply(p: Profile, order: nat, low: real, high: real, orderDraw: real, factor: real)
    requires low <= high && factor >= 0.0
    ensures ResponseDelay(p, order, high, orderDraw, factor) <= ResponseDelay(p, order, low, orderDraw, factor)
  {
    DelayFollowsStretch(p, order, high, order, low, orderDraw, factor);
  }

  /** A later speaker never answers before an earlier one with the same draws. */
  lemma LaterSpeakersWait(p: Profile, early: nat, late: nat, score: real, orderDraw: real, factor: real)
    requires early <= late && orderDraw >= 0.0 && factor >= 0.0
    ensures ResponseDelay(p, early, score, orderDraw, factor) <= ResponseDelay(p, late, score, orderDraw, factor)
  {
    assert (late - early) as real * orderDraw >= 0.0;
    assert late as real * orderDraw == early as real * orderDraw + (late - early) as real * orderDraw;
    DelayFollowsStretch(p, early, score, late, score, orderDraw, factor);
  }

  // ---------------------------------------------------------------- the schedule

  /**
   * The profile update of the scheduling loop: stamp the time, count one more
   * conversation, and append an absent topic, dropping the oldest one when
   * the list grows past five (`pop(0)` removes exactly one).
   */
  function Scheduled(p: Profile, topic: string, now: int): Profile
  {
    var topics :=
      if topic in p.recentTopics then p.recentTopics
      else
        var t := p.recentTopics + [topic];
        if |t| > 5 then t[1..] else t;
    p.(lastMessageTime := Some(now), conversationCount := p.conversationCount + 1, recentTopics := topics)
  }

  /** The update counts exactly one conversation, stamps the time and changes nothing else but the topics. */
  lemma ScheduledSpec(p: Profile, topic: string, now: int)
    ensures Scheduled(p, topic, now).conversationCount == p.conversationCount + 1
    ensures Scheduled(p, topic, now).lastMessageTime == Some(now)
    ensures Scheduled(p, topic, now).(lastMessageTime := p.lastMessageTime, conversationCount := p.conversationCount,
                                      recentTopics := p.recentTopics) == p
  {
  }

  /** No topic appears twice in a list. */
  predicate Distinct(xs: seq<string>)
  {
    forall i, j :: 0 <= i < j < |xs| ==> xs[i] != xs[j]
  }

  /**
   * The topic ends up in the list, a present topic leaves the list alone, the
   * list stays within five and free of duplicates, and the newest topic is last.
   */
  lemma ScheduledTopics(p: Profile, topic: string, now: int)
    ensures topic in Scheduled(p, topic, now).recentTopics
    ensures topic in p.recentTopics ==> Scheduled(p, topic, now).recentTopics == p.recentTopics
    ensures topic !in p.recentTopics ==> Scheduled(p, topic, now).recentTopics[|Scheduled(p, topic, now).recentTopics| - 1] == topic
    ensures |p.recentTopics| <= 5 ==> |Scheduled(p, topic, now).recentTopics| <= 5
    ensures Distinct(p.recentTopics) ==> Distinct(Scheduled(p, topic, now).recentTopics)
  {
    var t := p.recentTopics + [topic];
    if topic !in p.recentTopics {
      assert t[|t| - 1] == topic;
      if Distinct(p.recentTopics) {
        assert Distinct(t);
        if |t| > 5 {
          assert forall i, j :: 0 <= i < j < |t| - 1 ==> t[1..][i] == t[i + 1] && t[1..][j] == t[j + 1];
        }
      }
    }
  }

  /** One entry of the returned schedule. */
  datatype Entry = Entry(agentId: string, agentName: string, delay: real, score: real, topic: string,
                         isFirstResponder: bool)

  /** The draws of one turn: `order(i)` and `factor(i)` for the i-th participant's delay. */
  datatype Draws = Draws(order: nat -> real, factor: nat -> real)

  /** A schedule with the profiles it leaves behind. */
  datatype Outcome = Outcome(entries: seq<Entry>, profiles: map<string, Profile>)

  /** The entry of the i-th participant. */
  function EntryFor(p: Profile, c: Candidate, i: nat, topic: string, d: Draws): Entry
  {
    Entry(c.id, p.name, ResponseDelay(p, i, c.score, d.order(i), d.factor(i)), c.score, topic, i == 0)
  }

  /** One schedule entry with the profiles after its update. */
  datatype Stepped = Stepped(entry: Entry, profiles: map<string, Profile>)

  /**
   * One pass of the loop of `process_user_message` for the i-th participant:
   * its entry and its profile update. An id without a profile raises
   * `KeyError` in the source; here the step is then `None`.
   */
  function Step(profiles: map<string, Profile>, c: Candidate, i: nat, topic: string, now: int, d: Draws): Option<Stepped>
  {
    if c.id !in profiles then None
    else Some(Stepped(EntryFor(profiles[c.id], c, i, topic, d), profiles[c.id := Scheduled(profiles[c.id], topic, now)]))
  }

  /**
   * The loop of `process_user_message` from position `i` of the selection
   * on, after the entries `acc`; `None` when a step raises.
   */
  function Schedule(profiles: map<string, Profile>, chosen: seq<Candidate>, i: nat, topic: string, now: int,
                    d: Draws, acc: seq<Entry>): Option<Outcome>
    decreases |chosen| - i
  {
    if i >= |chosen| then Some(Outcome(acc, profiles))
    else
      match Step(profiles, chosen[i], i, topic, now, d)
      case None => None
      case Some(st) => Schedule(st.profiles, chosen, i + 1, topic, now, d, acc + [st.entry])
  }

  /** The schedule exists exactly when every remaining selected id has a profile, and it keeps the set of residents. */
  lemma {:induction false} ScheduleDefined(profiles: map<string, Profile>, chosen: seq<Candidate>, i: nat, topic: string,
                                           now: int, d: Draws, acc: seq<Entry>)
    ensures Schedule(profiles, chosen, i, topic, now, d, acc).Some?
      <==> (forall k :: i <= k < |chosen| ==> chosen[k].id in profiles)
    ensures Schedule(profiles, chosen, i, topic, now, d, acc).Some? ==>
      Schedule(profiles, chosen, i, topic, now, d, acc).value.profiles.Keys == profiles.Keys
    decreases |chosen| - i
  {
    if i < |chosen| && chosen[i].id in profiles {
      var st := Step(profiles, chosen[i], i, topic, now, d).value;
      assert st.profiles.Keys == profiles.Keys;
      ScheduleDefined(st.profiles, chosen, i + 1, topic, now, d, acc + [st.entry]);
    }
  }

  /** Entry `e` schedules candidate `c`, selected at position `k`, on `topic` with a delay in [1, 60]. */
  predicate Fits(e: Entry, c: Candidate, k: nat, topic: string)
  {
    e.agentId == c.id && e.score == c.score && e.topic == topic
    && (e.isFirstResponder <==> k == 0) && 1.0 <= e.delay <= 60.0
  }

  /**
   * The schedule lists the selection in order, one entry per participant at
   * the participant's own position; only position 0 is the first responder.
   */
  lemma {:induction false} ScheduleShape(profiles: map<string, Profile>, chosen: seq<Candidate>, i: nat, topic: string,
                                         now: int, d: Draws, acc: seq<Entry>)
    requires i <= |chosen| && |acc| == i && Schedule(profiles, chosen, i, topic, now, d, acc).Some?
    ensures var es := Schedule(profiles, chosen, i, topic, now, d, acc).value.entries;
      |es| == |chosen| && es[..i] == acc && forall k :: i <= k < |chosen| ==> Fits(es[k], chosen[k], k, topic)
    decreases |chosen| - i
  {
    if i < |chosen| {
      var st := Step(profiles, chosen[i], i, topic, now, d).value;
      var acc' := acc + [st.entry];
      assert Fits(st.entry, chosen[i], i, topic);
      ScheduleShape(st.profiles, chosen, i + 1, topic, now, d, acc');
      var es := Schedule(st.profiles, chosen, i + 1, topic, now, d, acc').value.entries;
      assert es[..i] == es[..i + 1][..i];
      assert es[i] == es[..i + 1][i];
    }
  }

  /** Resident `id` is selected at some position from `i` on. */
  predicate PickedFrom(chosen: seq<Candidate>, i: nat, id: string)
  {
    exists k :: i <= k < |chosen| && chosen[k].id == id
  }

  /** The ids of the selection from position `i` on are pairwise different. */
  predicate DistinctFrom(chosen: seq<Candidate>, i: nat)
  {
    forall j, k :: i <= j < k < |chosen| ==> chosen[j].id != chosen[k].id
  }

  /**
   * With distinct selected ids, every scheduled resident has exactly one more
   * conversation and every other resident is left as it was.
   */
  lemma {:induction false} ScheduleCounts(profiles: map<string, Profile>, chosen: seq<Candidate>, i: nat, topic: string,
                                          now: int, d: Draws, acc: seq<Entry>)
    requires DistinctFrom(chosen, i) && Schedule(profiles, chosen, i, topic, now, d, acc).Some?
    ensures var after := Schedule(profiles, chosen, i, topic, now, d, acc).value.profiles;
      forall id :: id in profiles && PickedFrom(chosen, i, id) ==>
        id in after && after[id].conversationCount == profiles[id].conversationCount + 1
    ensures var after := Schedule(profiles, chosen, i, topic, now, d, acc).value.profiles;
      forall id :: id in profiles && !PickedFrom(chosen, i, id) ==> id in after && after[id] == profiles[id]
    decreases |chosen| - i
  {
    if i < |chosen| {
      var c := chosen[i];
      var st := Step(profiles, c, i, topic, now, d).value;
      ScheduleCounts(st.profiles, chosen, i + 1, topic, now, d, acc + [st.entry]);
      ScheduleDefined(st.profiles, chosen, i + 1, topic, now, d, acc + [st.entry]);
      assert !PickedFrom(chosen, i + 1, c.id);
      forall id | id in profiles && PickedFrom(chosen, i, id) && id != c.id
        ensures PickedFrom(chosen, i + 1, id)
      {
        var k :| i <= k < |chosen| && chosen[k].id == id;
        assert k != i;
      }
    }
  }

  /** The loop of `process_user_message` over the chosen residents, on the profile map it updates. */
  method ScheduleLoop(profiles: map<string, Profile>, chosen: seq<Candidate>, topic: string, now: int, d: Draws)
    returns (schedule: seq<Entry>, after: map<string, Profile>)
    requires forall k :: 0 <= k < |chosen| ==> chosen[k].id in profiles
    ensures Schedule(profiles, chosen, 0, topic, now, d, []) == Some(Outcome(schedule, after))
  {
    schedule := [];
    after := profiles;
    var i := 0;
    while i < |chosen|
      invariant 0 <= i <= |chosen| && after.Keys == profiles.Keys
      invariant Schedule(profiles, chosen, 0, topic, now, d, []) == Schedule(after, chosen, i, topic, now, d, schedule)
    {
      var c := chosen[i];
      var p := after[c.id];
      var entry := Entry(c.id, p.name, ResponseDelay(p, i, c.score, d.order(i), d.factor(i)), c.score, topic, i == 0);
      var next := after[c.id := Scheduled(p, topic, now)];
      assert Step(after, c, i, topic, now, d) == Some(Stepped(entry, next));
      schedule := schedule + [entry];
      after := next;
      i := i + 1;
    }
  }

  /** Everyone selected from the scored profiles has a profile. */
  lemma ChosenAreResidents(ids: seq<string>, profiles: map<string, Profile>, message: string, topic: string,
                           sentiment: Sentiment, noise: nat -> real, now: int, cap: nat)
    requires forall k :: 0 <= k < |ids| ==> ids[k] in profiles
    ensures forall i :: 0 <= i < |Selected(ScoreAll(ids, profiles, message, topic, sentiment, noise, now), cap)| ==>
      Selected(ScoreAll(ids, profiles, message, topic, sentiment, noise, now), cap)[i].id in profiles
  {
    var scored := ScoreAll(ids, profiles, message, topic, sentiment, noise, now);
    var picked := Selected(scored, cap);
    SelectedFromInput(scored, cap);
    forall i | 0 <= i < |picked| ensures picked[i].id in profiles {
      assert picked[i] in multiset(scored);
      var k :| 0 <= k < |scored| && scored[k] == picked[i];
    }
  }

  // ---------------------------------------------------------------- memory

  /** One entry of an agent's conversation memory. */
  datatype MemoryEntry = MemoryEntry(timestamp: int, userMessage: string, agentResponse: string, topic: string)

  /** The size of each agent's conversation memory. */
  const MemorySize: nat := 20

  /** `_update_conversation_memory` on the memory map: append under `id`, then keep the newest twenty. */
  function Remembered(memory: map<string, seq<MemoryEntry>>, id: string, entry: MemoryEntry): map<string, seq<MemoryEntry>>
  {
    memory[id := Tail((if id in memory then memory[id] else []) + [entry], MemorySize)]
  }

  /** Remembering touches only the list of `id`. */
  lemma RememberedKeepsOthers(memory: map<string, seq<MemoryEntry>>, id: string, entry: MemoryEntry)
    ensures Remembered(memory, id, entry).Keys == memory.Keys + {id}
    ensures forall n :: n in memory && n != id ==> Remembered(memory, id, entry)[n] == memory[n]
  {
  }

  /**
   * The new entry is the newest, the list holds at most twenty entries, the
   * newest ones of the old list followed by the new one, and none is dropped
   * while the old list is shorter than twenty.
   */
  lemma RememberedNewest(memory: map<string, seq<MemoryEntry>>, id: string, entry: MemoryEntry)
    ensures var before := if id in memory then memory[id] else [];
      |Remembered(memory, id, entry)[id]| == if |before| < MemorySize then |before| + 1 else MemorySize
    ensures Remembered(memory, id, entry)[id][|Remembered(memory, id, entry)[id]| - 1] == entry
    ensures var before := if id in memory then memory[id] else [];
      Remembered(memory, id, entry)[id] == (before + [entry])[|before| + 1 - |Remembered(memory, id, entry)[id]|..]
    ensures var before := if id in memory then memory[id] else [];
      |before| < MemorySize ==> Remembered(memory, id, entry)[id] == before + [entry]
  {
    var before := if id in memory then memory[id] else [];
    var xs := before + [entry];
    var after := Tail(xs, MemorySize);
    assert Remembered(memory, id, entry)[id] == after;
    assert |xs| == |before| + 1 && xs[|before|] == entry;
    assert after == xs[|xs| - |after|..];
    assert after[|after| - 1] == xs[|xs| - 1];
  }

  // ---------------------------------------------------------------- replies

  /** A reply text with the resident's self-introduction "我是{name}" between two fixed pieces. */
  datatype Template = Template(before: string, after: string)

  /** The text of a template for the resident `name`. */
  function Render(t: Template, name: string): string
  {
    t.before + ("我是" + name) + t.after
  }

  /** Every rendered template introduces the resident by name. */
  lemma RenderNamesSpeaker(t: Template, name: string)
    ensures Contains(Render(t, name), "我是" + name)
  {
    ContainsConcat(t.before, "我是" + name, t.after);
  }

  /** The reply used when the generator's answer holds no `agent_response`: `我是{name}，很高兴参与讨论！`. */
  const DefaultTemplate: Template := Template("", "，很高兴参与讨论！")

  /** The three fallback templates of a topic (`_generate_fallback_response`); topics without a list share a general one. */
  function FallbackTemplates(occupation: string, topic: string): (ts: seq<Template>)
    ensures |ts| == 3
  {
    if topic == "social" then [
      Template("", "，这个话题很有意思！我很喜欢和大家交流。"),
      Template("作为" + occupation + "，我觉得社交活动对我们社群很重要。", "。"),
      Template("", "，大家一起讨论这个话题真好！")]
    else if topic == "work" then [
      Template("", "，从" + occupation + "的角度来看，这确实值得关注。"),
      Template("作为" + occupation + "，我对这个话题有一些想法。", "。"),
      Template("", "，工作相关的话题我很感兴趣！")]
    else if topic == "community" then [
      Template("", "，社群发展确实需要大家一起努力。"),
      Template("作为社群的一员，", "，我很关心这个问题。"),
      Template("", "，我们社群的未来需要大家共同参与！")]
    else [
      Template("", "，很高兴参与这个讨论！"),
      Template("作为" + occupation + "，我想分享一下我的看法。", "。"),
      Template("", "，这个话题让我想到了很多。")]
  }

  /** `_generate_fallback_response`; `pick` drives `random.choice`. */
  function FallbackReply(p: Profile, topic: string, pick: nat): (reply: string)
  {
    Render(FallbackTemplates(p.occupation, topic)[pick % 3], p.name)
  }

  /** Every fallback reply introduces the resident by name, whatever the topic and the pick. */
  lemma FallbackNamesSpeaker(p: Profile, topic: string, pick: nat)
    ensures Contains(FallbackReply(p, topic, pick), "我是" + p.name)
  {
    RenderNamesSpeaker(FallbackTemplates(p.occupation, topic)[pick % 3], p.name);
  }

  /**
   * The generator call: it raises, or returns a dictionary with its `success`
   * flag and its string-valued keys.
   */
  datatype Call = Raised | Returned(success: bool, fields: map<string, string>)

  /**
   * The dictionary `generate_agent_conversation_response` returns on every
   * path: the keys `agent_response`, `response_type` and `emotion` (besides
   * `success` and `usage`), and never a `content` key.
   */
  function GeneratorAnswer(agentResponse: string, responseType: string, emotion: string): (fields: map<string, string>)
    ensures "content" !in fields
    ensures "agent_response" in fields && fields["agent_response"] == agentResponse
  {
    map["agent_response" := agentResponse, "response_type" := responseType, "emotion" := emotion]
  }

  /**
   * `json.loads` on the texts it can meet here: the literal "{}" is the empty
   * object, and any other text is given to `parse`, a stand-in for the library.
   */
  function Loads(text: string, parse: string -> Json): Json
  {
    if text == "{}" then Object(map[]) else parse(text)
  }


  /** The reply and its labels as `generate_agent_response` returns them. */
  datatype AgentReply = AgentReply(success: bool, agentResponse: string, responseType: string, emotion: string)

  /**
   * `generate_agent_response` as written: on success it parses the value
   * under `content` ("{}" when absent) and takes `agent_response` from what
   * it parsed. `fallback` is the fallback reply of the resident.
   */
  function ReplyAsWritten(name: string, call: Call, parse: string -> Json, fallback: string): AgentReply
  {
    match call
    case Raised => AgentReply(false, fallback, "error_fallback", "neutral")
    case Returned(success, fields) =>
      if success then
        match Loads(Get(fields, "content", "{}"), parse)
        case Object(data) =>
          AgentReply(true, Get(data, "agent_response", Render(DefaultTemplate, name)),
                     Get(data, "response_type", "general"), Get(data, "emotion", "neutral"))
        case DecodeError => AgentReply(true, Get(fields, "content", Render(DefaultTemplate, name)), "general", "neutral")
        case OtherValue => AgentReply(false, fallback, "error_fallback", "neutral")
      else AgentReply(true, fallback, "fallback", "neutral")
  }

  /**
   * As written, every successful answer of the generator is replaced by the
   * default self-introduction, whatever reply the generator produced.
   */
  lemma AsWrittenDropsGeneratedReply(name: string, agentResponse: string, responseType: string, emotion: string,
                                     parse: string -> Json, fallback: string)
    ensures var call := Returned(true, GeneratorAnswer(agentResponse, responseType, emotion));
      ReplyAsWritten(name, call, parse, fallback) == AgentReply(true, "我是" + name + "，很高兴参与讨论！", "general", "neutral")
  {
  }

  /** A concrete answer the written version loses: the generator says "你好", the resident says the default. */
  lemma AsWrittenCounterexample(parse: string -> Json)
    ensures ReplyAsWritten("小王", Returned(true, GeneratorAnswer("你好", "normal", "happy")), parse, "").agentResponse
      != "你好"
  {
    AsWrittenDropsGeneratedReply("小王", "你好", "normal", "happy", parse, "");
    assert |"我是" + "小王" + "，很高兴参与讨论！"| != |"你好"|;
  }

  /**
   * `generate_agent_response` reading the key the generator sets: on success
   * its `agent_response`, `response_type` and `emotion` are passed on; a
   * failed answer gives the fallback and an exception the error fallback.
   */
  function Reply(name: string, call: Call, fallback: string): (r: AgentReply)
  {
    match call
    case Raised => AgentReply(false, fallback, "error_fallback", "neutral")
    case Returned(success, fields) =>
      if success then
        AgentReply(true, Get(fields, "agent_response", Render(DefaultTemplate, name)),
                   Get(fields, "response_type", "general"), Get(fields, "emotion", "neutral"))
      else AgentReply(true, fallback, "fallback", "neutral")
  }

  /** Corrected, a successful generator answer reaches the resident unchanged. */
  lemma ReplyKeepsGeneratedReply(name: string, agentResponse: string, responseType: string, emotion: string,
                                 fallback: string)
    ensures Reply(name, Returned(true, GeneratorAnswer(agentResponse, responseType, emotion)), fallback)
      == AgentReply(true, agentResponse, responseType, emotion)
  {
  }

  /** The written and the corrected version agree on every path but a successful answer. */
  lemma ReplyAgreesOffSuccess(name: string, call: Call, parse: string -> Json, fallback: string)
    requires !(call.Returned? && call.success)
    ensures ReplyAsWritten(name, call, parse, fallback) == Reply(name, call, fallback)
    ensures Reply(name, call, fallback).agentResponse == fallback
  {
  }

  // ---------------------------------------------------------------- the system

  /** The realistic chat system's profiles (ids in insertion order) and conversation memory. */
  class Handler {
    const topics: seq<Category>
    const positive: seq<string>
    const negative: seq<string>
    var order: seq<string>
    var profiles: map<string, Profile>
    var memory: map<string, seq<MemoryEntry>>

    /** Profile ids are listed once each, and no memory holds more than twenty entries. */
    ghost predicate Valid()
      reads this
    {
      (forall i, j :: 0 <= i < j < |order| ==> order[i] != order[j])
      && (forall id :: id in profiles <==> id in order)
      && (forall id :: id in memory ==> |memory[id]| <= MemorySize)
    }

    /** `initialize_agent_profiles`: one profile and one empty memory per agent. */
    constructor (ids: seq<string>, initial: map<string, Profile>)
      requires forall i, j :: 0 <= i < j < |ids| ==> ids[i] != ids[j]
      requires forall id :: id in initial <==> id in ids
      ensures Valid() && topics == TopicTable && positive == PositiveWords && negative == NegativeWords
      ensures order == ids && profiles == initial
      ensures memory.Keys == initial.Keys && forall id :: id in memory ==> memory[id] == []
    {
      topics := TopicTable;
      positive := PositiveWords;
      negative := NegativeWords;
      order := ids;
      profiles := initial;
      memory := map id | id in initial :: [];
    }

    /** `_update_conversation_memory`. */
    method UpdateConversationMemory(id: string, userMessage: string, agentResponse: string, topic: string, now: int)
      requires Valid()
      modifies this
      ensures Valid() && order == old(order) && profiles == old(profiles)
      ensures memory == Remembered(old(memory), id, MemoryEntry(now, userMessage, agentResponse, topic))
    {
      var entry := MemoryEntry(now, userMessage, agentResponse, topic);
      var list := if id in memory then memory[id] else [];
      list := list + [entry];
      if |list| > MemorySize {
        list := list[|list| - MemorySize..];
      }
      memory := memory[id := list];
    }

    /**
     * `generate_agent_response` with the corrected key: the generator call's
     * outcome and the fallback pick are parameters. The memory records the
     * reply unless the call raised.
     */
    method GenerateAgentResponse(id: string, message: string, topic: string, call: Call, pick: nat, now: int)
      returns (reply: AgentReply)
      requires Valid() && id in profiles
      modifies this
      ensures Valid() && order == old(order) && profiles == old(profiles)
      ensures reply == Reply(old(profiles)[id].name, call, FallbackReply(old(profiles)[id], topic, pick))
      ensures call.Raised? ==> memory == old(memory)
      ensures call.Returned? ==> memory == Remembered(old(memory), id, MemoryEntry(now, message, reply.agentResponse, topic))
    {
      var fallback := FallbackReply(profiles[id], topic, pick);
      reply := Reply(profiles[id].name, call, fallback);
      if call.Returned? {
        UpdateConversationMemory(id, message, reply.agentResponse, topic, now);
      }
    }

    /**
     * `process_user_message`. The draws are parameters: `noise(k)` for the
     * k-th profile's score, `capRoll` for the cap and `d` for the delays.
     * `chosen` is the selection the schedule follows.
     */
    method ProcessUserMessage(message: string, now: int, noise: nat -> real, capRoll: nat, d: Draws)
      returns (schedule: seq<Entry>, ghost chosen: seq<Candidate>)
      requires Valid()
      modifies this
      ensures Valid() && order == old(order) && memory == old(memory)
      ensures chosen == Selected(ScoreAll(old(order), old(profiles), message, AnalyzeTopic(topics, message),
                                          CompareSentiment(message, positive, negative), noise, now),
                                 MaxParticipants(message, AnalyzeTopic(topics, message), capRoll))
      ensures Schedule(old(profiles), chosen, 0, AnalyzeTopic(topics, message), now, d, []) == Some(Outcome(schedule, profiles))
    {
      var topic := AnalyzeTopic(topics, message);
      var sentiment := CompareSentiment(message, positive, negative);
      var scored := ScoreAll(order, profiles, message, topic, sentiment, noise, now);
      var cap := MaxParticipants(message, topic, capRoll);
      var picked := SelectTop(scored, cap);
      ChosenAreResidents(order, profiles, message, topic, sentiment, noise, now, cap);
      chosen := picked;
      schedule := ScheduleChosen(picked, topic, now, d);
    }

    /** The loop of `process_user_message` over the chosen residents, updating their profiles. */
    method ScheduleChosen(chosen: seq<Candidate>, topic: string, now: int, d: Draws) returns (schedule: seq<Entry>)
      requires Valid() && forall k :: 0 <= k < |chosen| ==> chosen[k].id in profiles
      modifies this
      ensures Valid() && order == old(order) && memory == old(memory)
      ensures Schedule(old(profiles), chosen, 0, topic, now, d, []) == Some(Outcome(schedule, profiles))
    {
      var after;
      schedule, after := ScheduleLoop(profiles, chosen, topic, now, d);
      ScheduleDefined(profiles, chosen, 0, topic, now, d, []);
      profiles := after;
    }
  }
}
