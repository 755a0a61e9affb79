/**
 * A resident of the community: five statistics in [0, 100], a memory list
 * capped at 100 entries, relationship strengths in [-100, 100], and the
 * pure rules that turn an event's impact into a reaction (intensity,
 * emotion, personal impact). Time is an integer number of seconds and
 * `random.random()` arrives as a real parameter.
 */
module Agents {
  import opened Wrappers
  import opened Text
  import opened Sorting
  import opened Builtins

  datatype Personality = Optimistic | Realistic | Creative | Analytical | Social | Introvert | Leader | Supporter

  datatype Occupation = Teacher | Doctor | Engineer | Artist | Merchant | Farmer | Student | Researcher | Chef | Builder

  /** One memory; `timestamp` is in seconds. */
  datatype Memory = Memory(description: string, timestamp: int, importance: int, emotion: string)

  // ---------------------------------------------------------------------
  // AgentStats
  // ---------------------------------------------------------------------

  /** The values of the five statistics. */
  datatype StatValues = StatValues(happiness: int, health: int, education: int, wealth: int, socialConnections: int)

  /** Every statistic lies in [0, 100]. */
  predicate InRange(v: StatValues)
  {
    0 <= v.happiness <= 100 && 0 <= v.health <= 100 && 0 <= v.education <= 100 &&
    0 <= v.wealth <= 100 && 0 <= v.socialConnections <= 100
  }

  /** The statistic an attribute name stands for (`getattr`), or None when there is no such statistic. */
  function Field(v: StatValues, name: string): Option<int>
  {
    if name == "happiness" then Some(v.happiness)
    else if name == "health" then Some(v.health)
    else if name == "education" then Some(v.education)
    else if name == "wealth" then Some(v.wealth)
    else if name == "social_connections" then Some(v.socialConnections)
    else None
  }

  /** One step of `update_stats`: the named statistic becomes clamp(old + change, 0, 100). */
  function Changed(v: StatValues, name: string, change: int): StatValues
  {
    if name == "happiness" then v.(happiness := ClampInt(v.happiness + change, 0, 100))
    else if name == "health" then v.(health := ClampInt(v.health + change, 0, 100))
    else if name == "education" then v.(education := ClampInt(v.education + change, 0, 100))
    else if name == "wealth" then v.(wealth := ClampInt(v.wealth + change, 0, 100))
    else if name == "social_connections" then v.(socialConnections := ClampInt(v.socialConnections + change, 0, 100))
    else v
  }

  /** `update_stats(changes)`: every change applied in dictionary order. */
  function ApplyChanges(v: StatValues, changes: seq<(string, int)>): StatValues
    decreases |changes|
  {
    if changes == [] then v else ApplyChanges(Changed(v, changes[0].0, changes[0].1), changes[1..])
  }

  /** One change sets its own statistic to the clamped sum, leaves every other one, and ignores unknown names. */
  lemma ChangedSpec(v: StatValues, name: string, change: int, other: string)
    ensures Field(v, name).Some? ==> Field(Changed(v, name, change), name) == Some(ClampInt(Field(v, name).value + change, 0, 100))
    ensures Field(v, name).None? ==> Changed(v, name, change) == v
    ensures other != name ==> Field(Changed(v, name, change), other) == Field(v, other)
  {
  }

  /** Updating keeps every statistic within [0, 100]. */
  lemma {:induction false} ApplyChangesInRange(v: StatValues, changes: seq<(string, int)>)
    requires InRange(v)
    ensures InRange(ApplyChanges(v, changes))
    decreases |changes|
  {
    if changes != [] {
      ApplyChangesInRange(Changed(v, changes[0].0, changes[0].1), changes[1..]);
    }
  }

  /** A statistic no change names keeps its value. */
  lemma {:induction false} ApplyChangesUntouched(v: StatValues, changes: seq<(string, int)>, name: string)
    requires forall k :: 0 <= k < |changes| ==> changes[k].0 != name
    ensures Field(ApplyChanges(v, changes), name) == Field(v, name)
    decreases |changes|
  {
    if changes != [] {
      ChangedSpec(v, changes[0].0, changes[0].1, name);
      assert forall k :: 0 <= k < |changes[1..]| ==> changes[1..][k].0 == changes[k + 1].0;
      ApplyChangesUntouched(Changed(v, changes[0].0, changes[0].1), changes[1..], name);
    }
  }

  /** Changes that name no statistic change nothing. */
  lemma {:induction false} ApplyChangesUnknown(v: StatValues, changes: seq<(string, int)>)
    requires forall k :: 0 <= k < |changes| ==> Field(v, changes[k].0).None?
    ensures ApplyChanges(v, changes) == v
  {
    if changes != [] {
      ChangedSpec(v, changes[0].0, changes[0].1, changes[0].0);
      assert forall k :: 0 <= k < |changes[1..]| ==> changes[1..][k].0 == changes[k + 1].0;
      ApplyChangesUnknown(v, changes[1..]);
    }
  }

  /** A statistic that some change names ends within [0, 100], whatever it was before. */
  lemma {:induction false} ApplyChangesTouched(v: StatValues, changes: seq<(string, int)>, name: string, k: nat)
    requires k < |changes| && changes[k].0 == name && Field(v, name).Some?
    ensures Field(ApplyChanges(v, changes), name).Some?
    ensures 0 <= Field(ApplyChanges(v, changes), name).value <= 100
    decreases |changes|
  {
    var w := Changed(v, changes[0].0, changes[0].1);
    ChangedSpec(v, changes[0].0, changes[0].1, name);
    assert forall j :: 0 <= j < |changes[1..]| ==> changes[1..][j].0 == changes[j + 1].0;
    if k > 0 {
      ApplyChangesTouched(w, changes[1..], name, k - 1);
    } else if exists j :: 1 <= j < |changes| && changes[j].0 == name {
      var j :| 1 <= j < |changes| && changes[j].0 == name;
      ApplyChangesTouched(w, changes[1..], name, j - 1);
    } else {
      ApplyChangesUntouched(w, changes[1..], name);
    }
  }

  /** The statistics object: `update_stats` rewrites its fields one change at a time. */
  class Stats {
    var happiness: int
    var health: int
    var education: int
    var wealth: int
    var socialConnections: int

    function Values(): StatValues
      reads this
    {
      StatValues(happiness, health, education, wealth, socialConnections)
    }

    constructor()
      ensures Values() == StatValues(50, 50, 50, 50, 50)
    {
      happiness, health, education, wealth, socialConnections := 50, 50, 50, 50, 50;
    }

    method UpdateStats(changes: seq<(string, int)>)
      modifies this
      ensures Values() == ApplyChanges(old(Values()), changes)
    {
      var i := 0;
      while i < |changes|
        invariant 0 <= i <= |changes|
        invariant ApplyChanges(old(Values()), changes) == ApplyChanges(Values(), changes[i..])
      {
        var (stat, change) := changes[i];
        if stat == "happiness" {
          happiness := ClampInt(happiness + change, 0, 100);
        } else if stat == "health" {
          health := ClampInt(health + change, 0, 100);
        } else if stat == "education" {
          education := ClampInt(education + change, 0, 100);
        } else if stat == "wealth" {
          wealth := ClampInt(wealth + change, 0, 100);
        } else if stat == "social_connections" {
          socialConnections := ClampInt(socialConnections + change, 0, 100);
        }
        assert changes[i..][1..] == changes[i + 1..];
        i := i + 1;
      }
    }
  }

  /** The occupation modifiers applied when a resident is created. */
  function OccupationModifiers(o: Occupation): seq<(string, int)>
  {
    match o
    case Teacher => [("education", 20), ("social_connections", 15)]
    case Doctor => [("health", 25), ("wealth", 15), ("education", 15)]
    case Engineer => [("education", 20), ("wealth", 10)]
    case Artist => [("happiness", 15), ("education", 10)]
    case Merchant => [("wealth", 20), ("social_connections", 10)]
    case Farmer => [("health", 15), ("happiness", 10)]
    case Student => [("education", 15), ("happiness", 5)]
    case Researcher => [("education", 25), ("wealth", 5)]
    case Chef => [("happiness", 15), ("health", 10)]
    case Builder => [("health", 20), ("wealth", 5)]
  }

  /** The personality modifiers applied after the occupation modifiers. */
  function PersonalityModifiers(p: Personality): seq<(string, int)>
  {
    match p
    case Optimistic => [("happiness", 20), ("social_connections", 10)]
    case Realistic => [("health", 10), ("wealth", 10)]
    case Creative => [("happiness", 15), ("education", 10)]
    case Analytical => [("education", 15), ("wealth", 5)]
    case Social => [("social_connections", 25), ("happiness", 10)]
    case Introvert => [("health", 10), ("education", 10)]
    case Leader => [("social_connections", 20), ("wealth", 10)]
    case Supporter => [("happiness", 10), ("social_connections", 15)]
  }

  // ---------------------------------------------------------------------
  // Memories
  // ---------------------------------------------------------------------

  /** The most memories a resident keeps. */
  const MemoryLimit := 100

  /** The sort key `(importance, timestamp)` of `add_memory`, negated so that the descending sort is ascending. */
  function Ascending(m: Memory): Rank
  {
    Rank(-(m.importance as real), -(m.timestamp as real))
  }

  /** `a` is not after `b` in the order of `(importance, timestamp)`. */
  predicate NotAbove(a: Memory, b: Memory)
  {
    a.importance < b.importance || (a.importance == b.importance && a.timestamp <= b.timestamp)
  }

  /** The memories `add_memory` keeps: all of them, or the last 100 after an ascending stable sort. */
  function Kept(all: seq<Memory>): (r: seq<Memory>)
    ensures |r| == if |all| > MemoryLimit then MemoryLimit else |all|
    ensures multiset(r) <= multiset(all)
  {
    if |all| > MemoryLimit then
      var s := Sort(all, Ascending);
      assert s == s[..|s| - MemoryLimit] + s[|s| - MemoryLimit..];
      s[|s| - MemoryLimit..]
    else all
  }

  /** The memories `add_memory` forgets. */
  function Dropped(all: seq<Memory>): seq<Memory>
  {
    if |all| > MemoryLimit then Sort(all, Ascending)[..|all| - MemoryLimit] else []
  }

  /** The ascending stable sort orders the memories by `(importance, timestamp)`. */
  lemma AscendingOrdered(all: seq<Memory>)
    ensures forall i, j :: 0 <= i < j < |Sort(all, Ascending)| ==> NotAbove(Sort(all, Ascending)[i], Sort(all, Ascending)[j])
  {
    var s := Sort(all, Ascending);
    SortOrdered(all, Ascending);
    forall i, j | 0 <= i < j < |s| ensures NotAbove(s[i], s[j]) {
      assert !Outranks(Ascending(s[j]), Ascending(s[i]));
    }
  }

  /** Cutting an ordered list: nothing before the cut is after anything behind it. */
  lemma SplitOrdered(s: seq<Memory>, cut: nat)
    requires cut <= |s|
    requires forall i, j :: 0 <= i < j < |s| ==> NotAbove(s[i], s[j])
    ensures forall d, k :: d in s[..cut] && k in s[cut..] ==> NotAbove(d, k)
    ensures forall i, j :: 0 <= i < j < |s[cut..]| ==> NotAbove(s[cut..][i], s[cut..][j])
  {
    forall d, k | d in s[..cut] && k in s[cut..] ensures NotAbove(d, k) {
      var i :| 0 <= i < cut && s[..cut][i] == d;
      var j :| 0 <= j < |s| - cut && s[cut..][j] == k;
      assert s[i] == d && s[cut + j] == k;
    }
  }

  /**
   * Trimming splits the memories into kept and dropped ones; no dropped memory
   * is after a kept one in `(importance, timestamp)` order, and the kept ones
   * are in that ascending order.
   */
  lemma KeptAreLargest(all: seq<Memory>)
    ensures multiset(Kept(all)) + multiset(Dropped(all)) == multiset(all)
    ensures forall d, k :: d in Dropped(all) && k in Kept(all) ==> NotAbove(d, k)
    ensures |all| > MemoryLimit ==> forall i, j :: 0 <= i < j < |Kept(all)| ==> NotAbove(Kept(all)[i], Kept(all)[j])
  {
    if |all| > MemoryLimit {
      var s := Sort(all, Ascending);
      var cut := |s| - MemoryLimit;
      assert Kept(all) == s[cut..] && Dropped(all) == s[..cut];
      assert s == s[..cut] + s[cut..];
      AscendingOrdered(all);
      SplitOrdered(s, cut);
    }
  }

  /** The key of `get_recent_memories`: newest first. */
  function ByTime(m: Memory): Rank
  {
    Rank(m.timestamp as real, 0.0)
  }

  /** The key of `get_important_memories`: most important first. */
  function ByImportance(m: Memory): Rank
  {
    Rank(m.importance as real, 0.0)
  }

  /** `get_recent_memories(count)`. */
  function RecentMemories(memories: seq<Memory>, count: int): seq<Memory>
  {
    Top(memories, ByTime, count)
  }

  /** `get_important_memories(count)`. */
  function ImportantMemories(memories: seq<Memory>, count: int): seq<Memory>
  {
    Top(memories, ByImportance, count)
  }

  /** At most `count` memories, newest first, and none left out is newer than one returned. */
  lemma RecentMemoriesSpec(memories: seq<Memory>, count: int)
    ensures count >= 0 ==> |RecentMemories(memories, count)| <= count
    ensures multiset(RecentMemories(memories, count)) <= multiset(memories)
    ensures forall i, j :: 0 <= i < j < |RecentMemories(memories, count)| ==>
      RecentMemories(memories, count)[i].timestamp >= RecentMemories(memories, count)[j].timestamp
    ensures forall m, i :: m in memories && m !in RecentMemories(memories, count) && 0 <= i < |RecentMemories(memories, count)| ==>
      m.timestamp <= RecentMemories(memories, count)[i].timestamp
  {
    var r := RecentMemories(memories, count);
    TopSpec(memories, ByTime, count);
    forall i, j | 0 <= i < j < |r| ensures r[i].timestamp >= r[j].timestamp {
      assert !Outranks(ByTime(r[j]), ByTime(r[i]));
    }
    forall m, i | m in memories && m !in r && 0 <= i < |r| ensures m.timestamp <= r[i].timestamp {
      assert !Outranks(ByTime(m), ByTime(r[i]));
    }
  }

  /** At most `count` memories, most important first, and none left out is more important than one returned. */
  lemma ImportantMemoriesSpec(memories: seq<Memory>, count: int)
    ensures count >= 0 ==> |ImportantMemories(memories, count)| <= count
    ensures multiset(ImportantMemories(memories, count)) <= multiset(memories)
    ensures forall i, j :: 0 <= i < j < |ImportantMemories(memories, count)| ==>
      ImportantMemories(memories, count)[i].importance >= ImportantMemories(memories, count)[j].importance
    ensures forall m, i :: m in memories && m !in ImportantMemories(memories, count) && 0 <= i < |ImportantMemories(memories, count)| ==>
      m.importance <= ImportantMemories(memories, count)[i].importance
  {
    var r := ImportantMemories(memories, count);
    TopSpec(memories, ByImportance, count);
    forall i, j | 0 <= i < j < |r| ensures r[i].importance >= r[j].importance {
      assert !Outranks(ByImportance(r[j]), ByImportance(r[i]));
    }
    forall m, i | m in memories && m !in r && 0 <= i < |r| ensures m.importance <= r[i].importance {
      assert !Outranks(ByImportance(m), ByImportance(r[i]));
    }
  }

  // ---------------------------------------------------------------------
  // Relationships
  // ---------------------------------------------------------------------

  /** The strength `update_relationship` stores: clamp(current (0 when absent) + change, -100, 100). */
  function Relationship(relationships: map<string, int>, other: string, change: int): (r: int)
    ensures -100 <= r <= 100
  {
    ClampInt(Get(relationships, other, 0) + change, -100, 100)
  }

  /** A first contact starts from 0; within the bounds the change is added exactly, beyond them it saturates. */
  lemma RelationshipSpec(relationships: map<string, int>, other: string, change: int)
    ensures other !in relationships && -100 <= change <= 100 ==> Relationship(relationships, other, change) == change
    ensures other in relationships && -100 <= relationships[other] + change <= 100 ==>
      Relationship(relationships, other, change) == relationships[other] + change
    ensures Get(relationships, other, 0) + change >= 100 ==> Relationship(relationships, other, change) == 100
    ensures Get(relationships, other, 0) + change <= -100 ==> Relationship(relationships, other, change) == -100
  {
  }

  // ---------------------------------------------------------------------
  // Reactions
  // ---------------------------------------------------------------------

  function Abs(x: int): nat
  {
    if x < 0 then -x else x
  }

  /** `sum(abs(value) for value in event_impact.values())`. */
  function ImpactTotal(impact: seq<(string, int)>): nat
  {
    if impact == [] then 0 else Abs(impact[0].1) + ImpactTotal(impact[1..])
  }

  /** The personality multiplier of `_calculate_reaction_intensity`, in tenths. */
  function Multiplier(p: Personality): nat
  {
    match p
    case Optimistic => 8
    case Realistic => 10
    case Creative => 12
    case Analytical => 9
    case Social => 11
    case Introvert => 7
    case Leader => 13
    case Supporter => 10
  }

  /** `max(1, min(5, int(total * multiplier / 10)))`; the product is never negative, so `int` is the floor. */
  function ReactionIntensity(impact: seq<(string, int)>, p: Personality): (r: int)
    ensures 1 <= r <= 5
  {
    ClampInt(ImpactTotal(impact) * Multiplier(p) / 100, 1, 5)
  }

  lemma ScaledMonotone(a: nat, b: nat, m: nat, n: nat)
    requires a <= b && m <= n
    ensures a * m / 100 <= b * n / 100
  {
    assert a * m <= b * m;
    assert b * m <= b * n;
  }

  /** A larger total impact, or a personality with a larger multiplier, never gives a weaker reaction. */
  lemma IntensityMonotone(a: seq<(string, int)>, b: seq<(string, int)>, p: Personality, q: Personality)
    requires ImpactTotal(a) <= ImpactTotal(b) && Multiplier(p) <= Multiplier(q)
    ensures ReactionIntensity(a, p) <= ReactionIntensity(b, q)
  {
    ScaledMonotone(ImpactTotal(a), ImpactTotal(b), Multiplier(p), Multiplier(q));
  }

  /** `sum(max(0, value) ...)`. */
  function PositiveTotal(impact: seq<(string, int)>): nat
  {
    if impact == [] then 0 else (if impact[0].1 > 0 then impact[0].1 else 0) + PositiveTotal(impact[1..])
  }

  /** `abs(sum(min(0, value) ...))`. */
  function NegativeTotal(impact: seq<(string, int)>): nat
  {
    if impact == [] then 0 else (if impact[0].1 < 0 then -impact[0].1 else 0) + NegativeTotal(impact[1..])
  }

  const PleasedWords: seq<string> := ["非常高兴", "高兴", "满意"]
  const WorriedWords: seq<string> := ["非常担忧", "担忧", "不满"]
  const Calm: string := "平静"

  /** Which word of a mood list the intensity picks: 0 from 4 up, 1 at 3, 2 below. */
  function Strength(intensity: int): (k: nat)
    ensures k < 3
  {
    if intensity >= 4 then 0 else if intensity >= 3 then 1 else 2
  }

  /** `_generate_emotional_response`. */
  function Emotion(impact: seq<(string, int)>, intensity: int): string
  {
    if PositiveTotal(impact) > NegativeTotal(impact) then PleasedWords[Strength(intensity)]
    else if NegativeTotal(impact) > PositiveTotal(impact) then WorriedWords[Strength(intensity)]
    else Calm
  }

  /**
   * The emotion is a pleased word exactly when the positive side is larger, a
   * worried word exactly when the negative side is larger, and calm exactly on
   * a tie; a stronger reaction never picks a milder word.
   */
  lemma EmotionSpec(impact: seq<(string, int)>, intensity: int)
    ensures Emotion(impact, intensity) in PleasedWords <==> PositiveTotal(impact) > NegativeTotal(impact)
    ensures Emotion(impact, intensity) in WorriedWords <==> NegativeTotal(impact) > PositiveTotal(impact)
    ensures Emotion(impact, intensity) == Calm <==> PositiveTotal(impact) == NegativeTotal(impact)
    ensures PositiveTotal(impact) > NegativeTotal(impact) && intensity >= 4 ==> Emotion(impact, intensity) == "非常高兴"
    ensures NegativeTotal(impact) > PositiveTotal(impact) && intensity >= 4 ==> Emotion(impact, intensity) == "非常担忧"
  {
  }

  /** The stronger of two intensities picks a word at least as strong. */
  lemma StrengthMonotone(i: int, j: int)
    requires i <= j
    ensures Strength(j) <= Strength(i)
  {
  }

  /** The statistics a personal impact may name. */
  const ImpactKeys: seq<string> := ["happiness", "health", "education", "wealth"]

  /** The occupation relevance factor of `_calculate_personal_impact`, in tenths (1.0 when none applies). */
  function Relevance(stat: string, o: Occupation): nat
  {
    if stat == "education" then (match o case Teacher => 15 case Student => 13 case Researcher => 14 case _ => 10)
    else if stat == "health" then (match o case Doctor => 15 case Farmer => 12 case Builder => 13 case _ => 10)
    else if stat == "economy" then (match o case Merchant => 15 case Engineer => 13 case Artist => 12 case _ => 10)
    else 10
  }

  /** `int(impact * (intensity / 5.0) * relevance * 0.5)`, as the exact fraction truncated toward zero. */
  function Share(impact: int, intensity: int, relevance: nat): int
  {
    TruncDiv(impact * intensity * relevance, 100)
  }

  /** The statistic an impact entry updates, as written: line 275 admits only the four keys, so "economy" never passes. */
  function TargetAsWritten(stat: string): Option<string>
  {
    if stat in ImpactKeys then Some(stat) else None
  }

  /** The statistic an impact entry updates, as intended by line 276: "economy" is the resident's wealth. */
  function Target(stat: string): Option<string>
  {
    if stat in ImpactKeys then Some(stat) else if stat == "economy" then Some("wealth") else None
  }

  /** The loop of `_calculate_personal_impact`, with the key mapping `target`, assigning into `acc`. */
  function PersonalFrom(impact: seq<(string, int)>, intensity: int, o: Occupation, target: string -> Option<string>,
                        acc: seq<(string, int)>): seq<(string, int)>
  {
    if impact == [] then acc
    else
      var (stat, value) := impact[0];
      var next := match target(stat)
        case None => acc
        case Some(name) => Assign(acc, name, Share(value, intensity, Relevance(stat, o)));
      PersonalFrom(impact[1..], intensity, o, target, next)
  }

  /** `_calculate_personal_impact` as written. */
  function PersonalImpactAsWritten(impact: seq<(string, int)>, intensity: int, o: Occupation): seq<(string, int)>
  {
    PersonalFrom(impact, intensity, o, TargetAsWritten, [])
  }

  /** `_calculate_personal_impact` with the "economy" entry mapped to wealth, as line 276 intends. */
  function PersonalImpact(impact: seq<(string, int)>, intensity: int, o: Occupation): seq<(string, int)>
  {
    PersonalFrom(impact, intensity, o, Target, [])
  }

  /** Every key produced comes from `acc` or is the target of some impact entry. */
  lemma {:induction false} PersonalFromKeys(impact: seq<(string, int)>, intensity: int, o: Occupation,
                                            target: string -> Option<string>, acc: seq<(string, int)>)
    ensures forall e :: e in PersonalFrom(impact, intensity, o, target, acc) ==>
      e in acc || exists k :: 0 <= k < |impact| && target(impact[k].0) == Some(e.0)
  {
    if impact != [] {
      var (stat, value) := impact[0];
      var next := match target(stat)
        case None => acc
        case Some(name) => Assign(acc, name, Share(value, intensity, Relevance(stat, o)));
      PersonalFromKeys(impact[1..], intensity, o, target, next);
      if target(stat).Some? {
        AssignKeys(acc, target(stat).value, Share(value, intensity, Relevance(stat, o)));
      }
      forall e | e in PersonalFrom(impact, intensity, o, target, acc)
        ensures e in acc || exists k :: 0 <= k < |impact| && target(impact[k].0) == Some(e.0)
      {
        if !(e in next) {
          var k :| 0 <= k < |impact[1..]| && target(impact[1..][k].0) == Some(e.0);
          assert impact[k + 1] == impact[1..][k];
        } else if !(e in acc) {
          assert target(impact[0].0) == Some(e.0);
        }
      }
    }
  }

  /** A key present in `acc` stays present. */
  lemma {:induction false} PersonalFromKeeps(impact: seq<(string, int)>, intensity: int, o: Occupation,
                                             target: string -> Option<string>, acc: seq<(string, int)>, key: string)
    requires exists e :: e in acc && e.0 == key
    ensures exists e :: e in PersonalFrom(impact, intensity, o, target, acc) && e.0 == key
  {
    if impact != [] {
      var (stat, value) := impact[0];
      var next := match target(stat)
        case None => acc
        case Some(name) => Assign(acc, name, Share(value, intensity, Relevance(stat, o)));
      if target(stat).Some? {
        var name := target(stat).value;
        var v := Share(value, intensity, Relevance(stat, o));
        AssignKeys(acc, name, v);
        var e :| e in acc && e.0 == key;
        if key == name {
          assert (name, v) in next;
        } else {
          assert e in next;
        }
      }
      PersonalFromKeeps(impact[1..], intensity, o, target, next, key);
    }
  }

  /** As written, every key is one of the four statistics and never the target of "economy". */
  lemma PersonalImpactAsWrittenKeys(impact: seq<(string, int)>, intensity: int, o: Occupation)
    ensures forall e :: e in PersonalImpactAsWritten(impact, intensity, o) ==>
      e.0 in ImpactKeys && exists k :: 0 <= k < |impact| && impact[k].0 == e.0
  {
    PersonalFromKeys(impact, intensity, o, TargetAsWritten, []);
  }

  /** As written, an impact with only "economy" entries gives no personal impact at all. */
  lemma EconomyIgnoredAsWritten(impact: seq<(string, int)>, intensity: int, o: Occupation)
    requires forall k :: 0 <= k < |impact| ==> impact[k].0 == "economy"
    ensures PersonalImpactAsWritten(impact, intensity, o) == []
  {
    var r := PersonalImpactAsWritten(impact, intensity, o);
    if r != [] {
      assert r[0] in r;
      PersonalImpactAsWrittenKeys(impact, intensity, o);
      assert false;
    }
  }

  /** A concrete case: a merchant loses the whole effect of an economic event. */
  lemma EconomyCounterexample()
    ensures PersonalImpactAsWritten([("economy", 10)], 5, Merchant) == []
    ensures PersonalImpact([("economy", 10)], 5, Merchant) == [("wealth", 7)]
  {
    EconomyIgnoredAsWritten([("economy", 10)], 5, Merchant);
  }

  /** Corrected, every key is one of the four statistics, and an "economy" entry always reaches wealth. */
  lemma PersonalImpactKeys(impact: seq<(string, int)>, intensity: int, o: Occupation)
    ensures forall e :: e in PersonalImpact(impact, intensity, o) ==> e.0 in ImpactKeys
    ensures (exists k :: 0 <= k < |impact| && impact[k].0 == "economy") ==>
      exists e :: e in PersonalImpact(impact, intensity, o) && e.0 == "wealth"
  {
    PersonalFromKeys(impact, intensity, o, Target, []);
    if exists k :: 0 <= k < |impact| && impact[k].0 == "economy" {
      var k :| 0 <= k < |impact| && impact[k].0 == "economy";
      EconomyReachesWealth(impact, intensity, o, [], k);
    }
  }

  lemma {:induction false} EconomyReachesWealth(impact: seq<(string, int)>, intensity: int, o: Occupation,
                                                acc: seq<(string, int)>, k: nat)
    requires k < |impact| && impact[k].0 == "economy"
    ensures exists e :: e in PersonalFrom(impact, intensity, o, Target, acc) && e.0 == "wealth"
  {
    var (stat, value) := impact[0];
    var next := match Target(stat)
      case None => acc
      case Some(name) => Assign(acc, name, Share(value, intensity, Relevance(stat, o)));
    if k > 0 {
      assert impact[1..][k - 1] == impact[k];
      EconomyReachesWealth(impact[1..], intensity, o, next, k - 1);
    } else {
      var v := Share(value, intensity, Relevance(stat, o));
      AssignKeys(acc, "wealth", v);
      assert ("wealth", v) in next;
      PersonalFromKeeps(impact[1..], intensity, o, Target, next, "wealth");
    }
  }

  /** What `react_to_event` reports besides names and the random comment. */
  datatype Reaction = Reaction(intensity: int, emotion: string, personalImpact: seq<(string, int)>)

  // ---------------------------------------------------------------------
  // Invitations
  // ---------------------------------------------------------------------

  /** Three days in seconds: `timedelta.days < 3` holds exactly below this difference. */
  const ThreeDays := 259200

  /** A memory of an invitation made less than three days before `now`. */
  predicate IsRecentInvitation(m: Memory, now: int)
  {
    Contains(m.description, "邀请") && now - m.timestamp < ThreeDays
  }

  /** Some of the last ten memories is a recent invitation. */
  predicate InvitedRecently(memories: seq<Memory>, now: int)
  {
    exists i :: 0 <= i < |Tail(memories, 10)| && IsRecentInvitation(Tail(memories, 10)[i], now)
  }

  /** The memory an invitation leaves. */
  function InvitationMemory(friend: string, now: int): Memory
  {
    Memory("我邀请了朋友" + friend + "加入社群", now, 4, "期待")
  }

  /** The outcome of `initiate_invitation_behavior`. */
  datatype Invitation = NotEligible | AlreadyInvited | Invited(friend: string)

  /** While fewer than 100 memories are held, an invitation blocks another one for three days. */
  lemma InvitationBlocksRepeat(memories: seq<Memory>, friend: string, now: int, later: int)
    requires |memories| < MemoryLimit && later - now < ThreeDays
    ensures InvitedRecently(Kept(memories + [InvitationMemory(friend, now)]), later)
  {
    var all := memories + [InvitationMemory(friend, now)];
    var tail := Tail(all, 10);
    assert tail[|tail| - 1] == InvitationMemory(friend, now);
    assert "我邀请了朋友" + friend + "加入社群" == "我" + "邀请" + ("了朋友" + friend + "加入社群");
    ContainsConcat("我", "邀请", "了朋友" + friend + "加入社群");
    assert IsRecentInvitation(tail[|tail| - 1], later);
  }

  // ---------------------------------------------------------------------
  // Agent
  // ---------------------------------------------------------------------

  class Agent {
    const id: string
    const name: string
    const personality: Personality
    const occupation: Occupation
    const stats: Stats
    var memories: seq<Memory>
    var relationships: map<string, int>
    var isActive: bool

    /** The bounds every method keeps. */
    predicate Valid()
      reads this, stats
    {
      InRange(stats.Values()) && |memories| <= MemoryLimit &&
      forall k :: k in relationships ==> -100 <= relationships[k] <= 100
    }

    /** A new resident: default statistics adjusted by occupation, then by personality. */
    constructor(id: string, name: string, personality: Personality, occupation: Occupation)
      ensures Valid() && fresh(stats)
      ensures this.id == id && this.name == name && this.personality == personality && this.occupation == occupation
      ensures stats.Values() == ApplyChanges(ApplyChanges(StatValues(50, 50, 50, 50, 50), OccupationModifiers(occupation)),
                                             PersonalityModifiers(personality))
      ensures memories == [] && relationships == map[] && isActive
    {
      this.id := id;
      this.name := name;
      this.personality := personality;
      this.occupation := occupation;
      var s := new Stats();
      this.stats := s;
      memories := [];
      relationships := map[];
      isActive := true;
      new;
      s.UpdateStats(OccupationModifiers(occupation));
      s.UpdateStats(PersonalityModifiers(personality));
      ApplyChangesInRange(StatValues(50, 50, 50, 50, 50), OccupationModifiers(occupation));
      ApplyChangesInRange(ApplyChanges(StatValues(50, 50, 50, 50, 50), OccupationModifiers(occupation)),
                          PersonalityModifiers(personality));
    }

    /** `add_memory`: append, then keep the 100 largest by `(importance, timestamp)` once there are more. */
    method AddMemory(description: string, importance: int, emotion: string, now: int)
      modifies this
      ensures memories == Kept(old(memories) + [Memory(description, now, importance, emotion)])
      ensures relationships == old(relationships) && isActive == old(isActive)
      ensures old(Valid()) ==> Valid()
    {
      memories := Kept(memories + [Memory(description, now, importance, emotion)]);
    }

    /** `update_relationship`. */
    method UpdateRelationship(other: string, change: int)
      modifies this
      ensures relationships == old(relationships)[other := Relationship(old(relationships), other, change)]
      ensures memories == old(memories) && isActive == old(isActive)
      ensures old(Valid()) ==> Valid()
    {
      relationships := relationships[other := Relationship(relationships, other, change)];
    }

    /**
     * `react_to_event`: the reaction's intensity, emotion and personal impact
     * (with the corrected "economy" mapping), the statistics updated by that
     * impact, and a memory of the event with the intensity as importance.
     */
    method ReactToEvent(description: string, impact: seq<(string, int)>, now: int) returns (r: Reaction)
      modifies this, stats
      ensures r.intensity == ReactionIntensity(impact, personality)
      ensures r.emotion == Emotion(impact, r.intensity)
      ensures r.personalImpact == PersonalImpact(impact, r.intensity, occupation)
      ensures stats.Values() == ApplyChanges(old(stats.Values()), r.personalImpact)
      ensures memories == Kept(old(memories) + [Memory(description, now, r.intensity, r.emotion)])
      ensures relationships == old(relationships) && isActive == old(isActive)
      ensures old(Valid()) ==> Valid()
    {
      var intensity := ReactionIntensity(impact, personality);
      var emotion := Emotion(impact, intensity);
      var personal := PersonalImpact(impact, intensity, occupation);
      if InRange(stats.Values()) {
        ApplyChangesInRange(stats.Values(), personal);
      }
      stats.UpdateStats(personal);
      AddMemory(description, intensity, emotion, now);
      r := Reaction(intensity, emotion, personal);
    }

    /** `can_invite_friends`, with `draw` standing for `random.random()`. */
    function CanInviteFriends(draw: real): bool
      reads this, stats
    {
      if !isActive then false
      else if stats.socialConnections < 30 then false
      else if personality in {Social, Optimistic, Leader} then true
      else draw > 0.7
    }

    /**
     * The guard and memory parts of `initiate_invitation_behavior`: refuse
     * when not eligible or when one of the last ten memories is an invitation
     * under three days old; otherwise invite `friend` (the random pick among
     * the virtual friends, a list that is never empty) and remember it.
     */
    method InitiateInvitation(draw: real, now: int, friend: string) returns (r: Invitation)
      modifies this
      ensures !old(CanInviteFriends(draw)) ==> r == NotEligible
      ensures old(CanInviteFriends(draw)) && InvitedRecently(old(memories), now) ==> r == AlreadyInvited
      ensures old(CanInviteFriends(draw)) && !InvitedRecently(old(memories), now) ==> r == Invited(friend)
      ensures memories == if r.Invited? then Kept(old(memories) + [InvitationMemory(friend, now)]) else old(memories)
      ensures relationships == old(relationships) && isActive == old(isActive)
      ensures old(Valid()) ==> Valid()
    {
      if !CanInviteFriends(draw) {
        return NotEligible;
      }
      if InvitedRecently(memories, now) {
        return AlreadyInvited;
      }
      var m := InvitationMemory(friend, now);
      AddMemory(m.description, m.importance, m.emotion, now);
      r := Invited(friend);
    }
  }

  /** An eligible resident is active with at least 30 social connections; the three outgoing personalities always are. */
  lemma CanInviteSpec(a: Agent, draw: real)
    ensures a.CanInviteFriends(draw) ==> a.isActive && a.stats.socialConnections >= 30
    ensures a.isActive && a.stats.socialConnections >= 30 && a.personality in {Social, Optimistic, Leader} ==>
      a.CanInviteFriends(draw)
    ensures a.personality !in {Social, Optimistic, Leader} && a.CanInviteFriends(draw) ==> draw > 0.7
  {
  }
}
