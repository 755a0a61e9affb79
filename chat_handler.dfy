/**
 * The simple chat handler: a keyword table whose first hit fixes the reply,
 * then short messages, then questions, then a general template; and a
 * sentiment label from two word counts.
 *
 * `random.choice` is a `roll` parameter; the reply lists other than the
 * keyword table are prose, so a reply names its list and the position picked.
 */
module ChatHandler {
  import opened Wrappers
  import opened Text
  import opened Classify

  /** The keyword replies, in the dictionary's insertion order. */
  const KeywordResponses: seq<(string, string)> := [
    ("聚会", "举办聚会是增进社群成员感情的好方法！我会安排一些有趣的活动。"),
    ("建设", "基础设施建设对社群发展很重要。我们可以考虑建设一些公共设施。"),
    ("冲突", "解决冲突需要耐心和智慧。我会帮助调解，促进大家的理解。"),
    ("幸福", "提升社群幸福感是我们的共同目标。让我们一起努力创造更好的环境。"),
    ("活跃", "保持社群活跃需要大家的参与。我会组织更多有趣的活动。"),
    ("问题", "发现问题是解决问题的第一步。让我们一起分析并找到解决方案。"),
    ("建议", "你的建议很宝贵！我会认真考虑并尝试实施。"),
    ("帮助", "我很乐意帮助你！请告诉我具体需要什么协助。"),
    ("改进", "持续改进是社群发展的关键。感谢你的关注和建议。"),
    ("未来", "对于社群的未来，我充满期待。让我们一起创造美好的明天。")]

  /** Sizes of the three prose reply lists. */
  const ShortReplies := 5
  const QuestionReplies := 5
  const GeneralReplies := 10

  /** A reply: a keyword's own text, or the position picked from one of the prose lists. */
  datatype Reply = Keyword(response: string) | Short(pick: nat) | Question(pick: nat) | General(pick: nat)

  /** No keyword from position `i` on occurs in `message`. */
  predicate NoKeywordFrom(table: seq<(string, string)>, message: string, i: nat)
  {
    forall j :: i <= j < |table| ==> !Contains(message, table[j].0)
  }

  /** Position `k` holds the first keyword that occurs in `message`. */
  predicate FirstHit(table: seq<(string, string)>, message: string, k: int)
  {
    0 <= k < |table| && Contains(message, table[k].0) && forall j :: 0 <= j < k ==> !Contains(message, table[j].0)
  }

  /** The position of the first keyword from `i` on that occurs in `message`. */
  function FirstKeyword(table: seq<(string, string)>, message: string, i: nat): (r: Option<nat>)
    requires i <= |table|
    ensures r.None? <==> NoKeywordFrom(table, message, i)
    ensures r.Some? ==>
      && i <= r.value < |table|
      && Contains(message, table[r.value].0)
      && forall j :: i <= j < r.value ==> !Contains(message, table[j].0)
    decreases |table| - i
  {
    if i == |table| then None
    else if Contains(message, table[i].0) then Some(i)
    else FirstKeyword(table, message, i + 1)
  }

  /** `"?" in message or "？" in message`. */
  predicate IsQuestion(message: string)
  {
    Contains(message, "?") || Contains(message, "？")
  }

  /** `generate_response`: keyword first, then length, then question marks, then the general list. */
  function Respond(table: seq<(string, string)>, message: string, roll: nat): (r: Reply)
    ensures r.Keyword? <==> !NoKeywordFrom(table, message, 0)
    ensures r.Keyword? ==> exists k :: FirstHit(table, message, k) && r.response == table[k].1
    ensures r.Short? <==> NoKeywordFrom(table, message, 0) && |message| < 10
    ensures r.Question? <==> NoKeywordFrom(table, message, 0) && |message| >= 10 && IsQuestion(message)
    ensures r.General? <==> NoKeywordFrom(table, message, 0) && |message| >= 10 && !IsQuestion(message)
    ensures r.Short? ==> r.pick < ShortReplies
    ensures r.Question? ==> r.pick < QuestionReplies
    ensures r.General? ==> r.pick < GeneralReplies
  {
    match FirstKeyword(table, message, 0)
    case Some(k) => Keyword(table[k].1)
    case None =>
      if |message| < 10 then Short(roll % ShortReplies)
      else if IsQuestion(message) then Question(roll % QuestionReplies)
      else General(roll % GeneralReplies)
  }

  /** A short message gets a short reply even when it asks a question. */
  lemma ShortQuestion(table: seq<(string, string)>, message: string, roll: nat)
    requires NoKeywordFrom(table, message, 0) && |message| < 10 && IsQuestion(message)
    ensures Respond(table, message, roll).Short?
  {
  }

  /** The keyword reply does not depend on the message's length, its question marks or the roll. */
  lemma KeywordOverrides(table: seq<(string, string)>, message: string, roll: nat, other: nat)
    ensures Respond(table, message, roll).Keyword? ==> Respond(table, message, roll) == Respond(table, message, other)
    ensures Respond(table, message, roll).Keyword? ==> Respond(table, message + "?", roll).Keyword?
  {
    if Respond(table, message, roll).Keyword? {
      var k :| 0 <= k < |table| && Contains(message, table[k].0);
      var i :| OccursAt(message, table[k].0, i);
      assert (message + "?")[i..i + |table[k].0|] == message[i..i + |table[k].0|];
      assert OccursAt(message + "?", table[k].0, i);
    }
  }

  const PositiveWords := ["好", "棒", "喜欢", "开心", "高兴", "满意", "赞", "优秀", "完美"]
  const NegativeWords := ["坏", "差", "讨厌", "生气", "愤怒", "不满", "糟糕", "失望", "难过"]

  /** `analyze_sentiment`: positive or negative only with strictly more hits on that side, neutral otherwise. */
  function AnalyzeSentiment(message: string): (r: string)
    ensures r == "positive" <==> HitCount(PositiveWords, message) > HitCount(NegativeWords, message)
    ensures r == "negative" <==> HitCount(NegativeWords, message) > HitCount(PositiveWords, message)
    ensures r == "neutral" <==> HitCount(PositiveWords, message) == HitCount(NegativeWords, message)
  {
    match CompareSentiment(message, PositiveWords, NegativeWords)
    case Positive => "positive"
    case Negative => "negative"
    case _ => "neutral"
  }

  /** A message with no word from either list is neutral. */
  lemma NoWordsNeutral(message: string)
    requires !ContainsAny(message, PositiveWords) && !ContainsAny(message, NegativeWords)
    ensures AnalyzeSentiment(message) == "neutral"
  {
  }
}
