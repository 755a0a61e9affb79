/**
 * The keyword classifiers shared by the chat handlers: a topic is the category
 * of a keyword table with the most keyword hits (Python's `max` over the
 * positive scores returns the first maximal category in table order), and a
 * sentiment compares the hits of a positive and a negative word list.
 */
module Classify {
  import opened Text
  import opened Wrappers

  /** One row of a topic table: a category name and its keywords. */
  datatype Category = Category(name: string, keywords: seq<string>)

  /** The keyword hits of every category of `table` in `msg`, in table order. */
  function Scores(table: seq<Category>, msg: string): (r: seq<nat>)
    ensures |r| == |table|
    ensures forall k :: 0 <= k < |table| ==> r[k] == HitCount(table[k].keywords, msg)
  {
    if table == [] then [] else [HitCount(table[0].keywords, msg)] + Scores(table[1..], msg)
  }

  /** The first index holding the largest value of a non-empty sequence. */
  function FirstMax(xs: seq<nat>): (i: nat)
    requires |xs| > 0
    ensures i < |xs|
    ensures forall k :: 0 <= k < |xs| ==> xs[k] <= xs[i]
    ensures forall k :: 0 <= k < i ==> xs[k] < xs[i]
  {
    if |xs| == 1 then 0
    else
      var j := FirstMax(xs[..|xs| - 1]);
      if xs[|xs| - 1] > xs[j] then |xs| - 1 else j
  }

  /** The index of the winning category, or `None` when no keyword of any category occurs. */
  function TopicIndex(table: seq<Category>, msg: string): (r: Option<nat>)
    ensures r.None? <==> forall k :: 0 <= k < |table| ==> HitCount(table[k].keywords, msg) == 0
    ensures r.Some? ==> r.value < |table| && HitCount(table[r.value].keywords, msg) > 0
    ensures r.Some? ==> forall k :: 0 <= k < |table| ==>
      HitCount(table[k].keywords, msg) <= HitCount(table[r.value].keywords, msg)
    ensures r.Some? ==> forall k :: 0 <= k < r.value ==>
      HitCount(table[k].keywords, msg) < HitCount(table[r.value].keywords, msg)
  {
    var scores := Scores(table, msg);
    if table == [] then None
    else
      var i := FirstMax(scores);
      if scores[i] == 0 then None else Some(i)
  }

  /** `_analyze_message_topic`: the winning category's name, or `default` when nothing matches. */
  function TopicOf(table: seq<Category>, msg: string, default: string): (t: string)
    ensures (forall k :: 0 <= k < |table| ==> HitCount(table[k].keywords, msg) == 0) ==> t == default
    ensures (exists k :: 0 <= k < |table| && HitCount(table[k].keywords, msg) > 0) ==>
      exists i :: 0 <= i < |table| && t == table[i].name && HitCount(table[i].keywords, msg) > 0
        && (forall k :: 0 <= k < |table| ==> HitCount(table[k].keywords, msg) <= HitCount(table[i].keywords, msg))
        && (forall k :: 0 <= k < i ==> HitCount(table[k].keywords, msg) < HitCount(table[i].keywords, msg))
  {
    match TopicIndex(table, msg)
    case None => default
    case Some(i) => table[i].name
  }

  /** The sentiments the handlers report. */
  datatype Sentiment = Positive | Negative | Neutral | Questioning

  /** Positive or negative only when that side has strictly more hits; neutral on a tie. */
  function CompareSentiment(msg: string, positive: seq<string>, negative: seq<string>): (r: Sentiment)
    ensures r != Questioning
    ensures r == Positive <==> HitCount(positive, msg) > HitCount(negative, msg)
    ensures r == Negative <==> HitCount(negative, msg) > HitCount(positive, msg)
    ensures r == Neutral <==> HitCount(positive, msg) == HitCount(negative, msg)
  {
    var p := HitCount(positive, msg);
    var n := HitCount(negative, msg);
    if p > n then Positive else if n > p then Negative else Neutral
  }

  /** A question marker overrides the positive/negative comparison. */
  function QuestionFirstSentiment(msg: string, positive: seq<string>, negative: seq<string>, questions: seq<string>): (r: Sentiment)
    ensures r == Questioning <==> ContainsAny(msg, questions)
    ensures !ContainsAny(msg, questions) ==> r == CompareSentiment(msg, positive, negative)
  {
    if HitCount(questions, msg) > 0 then Questioning else CompareSentiment(msg, positive, negative)
  }
}
