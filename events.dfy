/**
 * Community events: an event's impact on the four community statistics,
 * its severity and expiry, and the generator that picks a random event
 * among the types not cooling down, weighted by the community's state, and
 * keeps the newest 100 events. Time is in seconds; the random draws
 * (`random.random()` and the template pick) arrive as parameters.
 */
module Events {
  import opened Wrappers
  import opened Text
  import opened Sorting
  import opened Builtins

  datatype EventType = Celebration | Disaster | Discovery | Conflict | Cooperation | Innovation | Economic | Social
                     | Educational | Health

  /** The members of `EventType` in declaration order, as `for event_type in EventType` visits them. */
  const AllTypes: seq<EventType> :=
    [Celebration, Disaster, Discovery, Conflict, Cooperation, Innovation, Economic, Social, Educational, Health]

  datatype Severity = Minor | Moderate | Major | Critical

  /** An event's effect on the community statistics. */
  datatype EventImpact = EventImpact(happiness: int, health: int, education: int, economy: int)

  /** `EventImpact.to_dict`, in field order. */
  function ToDict(i: EventImpact): seq<(string, int)>
  {
    [("happiness", i.happiness), ("health", i.health), ("education", i.education), ("economy", i.economy)]
  }

  /** `scale_by_factor`: every field multiplied and truncated toward zero on its own. */
  function ScaleByFactor(i: EventImpact, factor: real): EventImpact
  {
    EventImpact(Trunc(i.happiness as real * factor), Trunc(i.health as real * factor),
                Trunc(i.education as real * factor), Trunc(i.economy as real * factor))
  }

  /** Scaling one value by a non-negative factor keeps its sign and never grows past the exact product. */
  lemma ScaleValue(x: int, factor: real)
    requires factor >= 0.0
    ensures x >= 0 ==> 0 <= Trunc(x as real * factor) && Trunc(x as real * factor) as real <= x as real * factor
    ensures x <= 0 ==> Trunc(x as real * factor) <= 0 && x as real * factor <= Trunc(x as real * factor) as real
  {
    if x >= 0 {
      assert x as real * factor >= 0.0;
    } else {
      assert x as real * factor <= 0.0;
    }
  }

  /** `y` is zero or has the sign of `x`. */
  predicate SameSign(x: int, y: int)
  {
    (x >= 0 ==> y >= 0) && (x <= 0 ==> y <= 0)
  }

  /** A factor of 1 changes nothing. */
  lemma ScaleByOne(i: EventImpact)
    ensures ScaleByFactor(i, 1.0) == i
  {
    assert i.happiness as real * 1.0 == i.happiness as real;
    assert i.health as real * 1.0 == i.health as real;
    assert i.education as real * 1.0 == i.education as real;
    assert i.economy as real * 1.0 == i.economy as real;
  }

  /** A non-negative factor keeps the sign of every field. */
  lemma ScaleKeepsSign(i: EventImpact, factor: real)
    requires factor >= 0.0
    ensures var r := ScaleByFactor(i, factor);
      SameSign(i.happiness, r.happiness) && SameSign(i.health, r.health) &&
      SameSign(i.education, r.education) && SameSign(i.economy, r.economy)
  {
    ScaleValue(i.happiness, factor);
    ScaleValue(i.health, factor);
    ScaleValue(i.education, factor);
    ScaleValue(i.economy, factor);
  }

  /** A game event; `timestamp` is in seconds. */
  datatype GameEvent = GameEvent(title: string, description: string, eventType: EventType, severity: Severity,
                                 impact: EventImpact, timestamp: int, durationHours: int, triggeredBy: string,
                                 affectsAgents: seq<string>, isActive: bool)

  /** `is_expired` at time `now`. */
  predicate IsExpired(e: GameEvent, now: int)
  {
    !e.isActive || now > e.timestamp + e.durationHours * 3600
  }

  /** An inactive event is always expired, an active one exactly after its end, and expiry never ends. */
  lemma IsExpiredSpec(e: GameEvent, now: int, later: int)
    ensures !e.isActive ==> IsExpired(e, now)
    ensures e.isActive ==> (IsExpired(e, now) <==> now > e.timestamp + e.durationHours * 3600)
    ensures IsExpired(e, now) && now <= later ==> IsExpired(e, later)
  {
  }

  function Abs(x: int): nat
  {
    if x < 0 then -x else x
  }

  /** The sum of the absolute impacts. */
  function ImpactTotal(i: EventImpact): nat
  {
    Abs(i.happiness) + Abs(i.health) + Abs(i.education) + Abs(i.economy)
  }

  /** `_calculate_severity_from_impact`. */
  function SeverityOf(i: EventImpact): Severity
  {
    var total := ImpactTotal(i);
    if total >= 80 then Critical else if total >= 50 then Major else if total >= 20 then Moderate else Minor
  }

  function Level(s: Severity): nat
  {
    match s
    case Minor => 0
    case Moderate => 1
    case Major => 2
    case Critical => 3
  }

  /** A larger total impact never gives a lower severity; no impact at all is minor and 80 or more is critical. */
  lemma SeverityMonotone(a: EventImpact, b: EventImpact)
    ensures ImpactTotal(a) <= ImpactTotal(b) ==> Level(SeverityOf(a)) <= Level(SeverityOf(b))
    ensures ImpactTotal(a) < 20 <==> SeverityOf(a) == Minor
    ensures ImpactTotal(a) >= 80 <==> SeverityOf(a) == Critical
  {
  }

  /** `create_custom_event`: the severity comes from the impact. */
  function CustomEvent(title: string, description: string, t: EventType, impact: EventImpact, triggeredBy: string,
                       durationHours: int, now: int): (e: GameEvent)
    ensures e.severity == SeverityOf(impact) && e.impact == impact && e.eventType == t
    ensures e.isActive && e.affectsAgents == [] && e.timestamp == now
  {
    GameEvent(title, description, t, SeverityOf(impact), impact, now, durationHours, triggeredBy, [], true)
  }

  // ---------------------------------------------------------------------
  // Templates
  // ---------------------------------------------------------------------

  datatype Template = Template(key: string, title: string, description: string, eventType: EventType,
                               severity: Severity, impact: EventImpact, durationHours: int)

  /** The templates of `_init_event_templates`, in dictionary order. */
  const EventTemplates: seq<Template> := [
    Template("harvest_festival", "丰收节", "社群举办盛大的丰收节庆典，居民们载歌载舞，分享丰收的喜悦。",
             Celebration, Moderate, EventImpact(20, 5, 0, 10), 8),
    Template("founding_day", "建立纪念日", "社群庆祝成立周年，举行盛大的纪念活动和游行。",
             Celebration, Major, EventImpact(25, 0, 5, 15), 12),
    Template("heavy_rain", "暴雨来袭", "突如其来的暴雨影响了社群的正常生活，部分设施受损。",
             Disaster, Moderate, EventImpact(-15, -10, 0, -20), 24),
    Template("epidemic_outbreak", "疫情爆发", "社群出现传染病疫情，需要紧急应对和隔离措施。",
             Disaster, Critical, EventImpact(-30, -40, -10, -25), 72),
    Template("mineral_discovery", "矿藏发现", "探险队在社群附近发现了丰富的矿产资源。",
             Discovery, Major, EventImpact(15, 0, 10, 30), 1),
    Template("ancient_artifact", "古代文物", "考古学家在社群中发现了珍贵的古代文物。",
             Discovery, Moderate, EventImpact(10, 0, 20, 5), 1),
    Template("new_technology", "技术突破", "社群研究人员取得重大技术突破，将改善生活质量。",
             Innovation, Major, EventImpact(20, 15, 25, 20), 1),
    Template("medical_advance", "医疗进步", "新的医疗技术和治疗方法被成功应用。",
             Innovation, Moderate, EventImpact(15, 30, 10, 5), 1),
    Template("community_project", "社区合作项目", "居民们联手开展社区改善项目，加强了彼此的联系。",
             Cooperation, Moderate, EventImpact(18, 8, 12, 10), 48),
    Template("volunteer_campaign", "志愿者活动", "大规模志愿者活动改善了社群环境和服务质量。",
             Cooperation, Minor, EventImpact(12, 10, 8, 5), 24),
    Template("resource_dispute", "资源争议", "不同群体对资源分配产生分歧，引发了争论。",
             Conflict, Moderate, EventImpact(-20, -5, 0, -15), 36),
    Template("ideological_clash", "理念冲突", "社群内部出现理念分歧，导致紧张局势。",
             Conflict, Minor, EventImpact(-15, 0, -10, -5), 24)
  ]

  /** The templates of one type, in dictionary order. */
  function Matching(templates: seq<Template>, t: EventType): seq<Template>
  {
    if templates == [] then []
    else (if templates[0].eventType == t then [templates[0]] else []) + Matching(templates[1..], t)
  }

  /** The matching templates are exactly the templates of type `t`. */
  lemma {:induction false} MatchingSpec(templates: seq<Template>, t: EventType)
    ensures forall x :: x in Matching(templates, t) <==> x in templates && x.eventType == t
  {
    if templates != [] {
      MatchingSpec(templates[1..], t);
      assert templates == [templates[0]] + templates[1..];
    }
  }

  /** `_select_event_template`, with `pick` standing for `random.choice`. */
  function SelectTemplate(templates: seq<Template>, t: EventType, pick: nat): (r: Option<Template>)
    ensures r.Some? <==> Matching(templates, t) != []
    ensures r.Some? ==> r.value in Matching(templates, t)
  {
    var matching := Matching(templates, t);
    if matching == [] then None else Some(matching[pick % |matching|])
  }

  /** Every matching template is some pick's choice. */
  lemma SelectTemplateCovers(templates: seq<Template>, t: EventType, pick: nat)
    requires pick < |Matching(templates, t)|
    ensures SelectTemplate(templates, t, pick) == Some(Matching(templates, t)[pick])
  {
    var matching := Matching(templates, t);
    SmallRemainder(pick, |matching|);
    assert SelectTemplate(templates, t, pick) == Some(matching[pick % |matching|]);
  }

  lemma SmallRemainder(k: nat, n: nat)
    requires k < n
    ensures k % n == k
  {
  }

  /** Every choice is a template of the requested type. */
  lemma SelectTemplateType(templates: seq<Template>, t: EventType, pick: nat)
    ensures SelectTemplate(templates, t, pick).Some? ==>
      SelectTemplate(templates, t, pick).value in templates && SelectTemplate(templates, t, pick).value.eventType == t
  {
    MatchingSpec(templates, t);
  }

  /** The type of each template in `EventTemplates`, in order. */
  const TemplateKinds: seq<EventType> :=
    [Celebration, Celebration, Disaster, Disaster, Discovery, Discovery, Innovation, Innovation, Cooperation,
     Cooperation, Conflict, Conflict]

  lemma TemplateKindsMatch()
    ensures |EventTemplates| == |TemplateKinds|
    ensures forall i :: 0 <= i < |EventTemplates| ==> EventTemplates[i].eventType == TemplateKinds[i]
  {
  }

  /** A type missing from the list of template types has no matching template. */
  lemma {:induction false} NoKindNoMatch(templates: seq<Template>, kinds: seq<EventType>, t: EventType)
    requires |templates| == |kinds| && t !in kinds
    requires forall i :: 0 <= i < |templates| ==> templates[i].eventType == kinds[i]
    ensures Matching(templates, t) == []
  {
    if templates != [] {
      assert kinds[0] in kinds;
      assert forall i :: 0 <= i < |templates[1..]| ==> templates[1..][i].eventType == kinds[1..][i];
      NoKindNoMatch(templates[1..], kinds[1..], t);
    }
  }

  /** A type in the list of template types has a matching template. */
  lemma KindMatches(templates: seq<Template>, kinds: seq<EventType>, t: EventType, i: nat)
    requires |templates| == |kinds| && i < |kinds| && kinds[i] == t
    requires forall i :: 0 <= i < |templates| ==> templates[i].eventType == kinds[i]
    ensures Matching(templates, t) != []
  {
    MatchingSpec(templates, t);
    assert templates[i] in Matching(templates, t);
  }

  /** Economic, social, educational and health events have no template, so choosing one never produces an event. */
  lemma UntemplatedTypes(t: EventType)
    requires t in {Economic, Social, Educational, Health}
    ensures Matching(EventTemplates, t) == []
  {
    TemplateKindsMatch();
    NoKindNoMatch(EventTemplates, TemplateKinds, t);
  }

  /** Every other type has a template. */
  lemma TemplatedTypes(t: EventType)
    requires t !in {Economic, Social, Educational, Health}
    ensures Matching(EventTemplates, t) != []
  {
    var i := match t
      case Celebration => 0
      case Disaster => 2
      case Discovery => 4
      case Innovation => 6
      case Cooperation => 8
      case Conflict => 10
      case _ => 0;
    TemplateKindsMatch();
    KindMatches(EventTemplates, TemplateKinds, t, i);
  }

  // ---------------------------------------------------------------------
  // Cooldowns and probabilities
  // ---------------------------------------------------------------------

  /** A type can be generated: it has no cooldown or `now` is past its end. */
  predicate IsAvailable(cooldowns: map<EventType, int>, now: int, t: EventType)
  {
    t !in cooldowns || now > cooldowns[t]
  }

  /** The available types among `types`, in order. */
  function Available(cooldowns: map<EventType, int>, now: int, types: seq<EventType>): seq<EventType>
  {
    if types == [] then []
    else (if IsAvailable(cooldowns, now, types[0]) then [types[0]] else []) + Available(cooldowns, now, types[1..])
  }

  /** The available types are exactly the listed types not cooling down. */
  lemma {:induction false} AvailableSpec(cooldowns: map<EventType, int>, now: int, types: seq<EventType>)
    ensures |Available(cooldowns, now, types)| <= |types|
    ensures forall t :: t in Available(cooldowns, now, types) <==> t in types && IsAvailable(cooldowns, now, t)
  {
    if types != [] {
      AvailableSpec(cooldowns, now, types[1..]);
      assert types == [types[0]] + types[1..];
    }
  }

  /** `_get_available_event_types`, visiting `types` (all of `EventType`, in `AllTypes`) in order. */
  method AvailableTypes(cooldowns: map<EventType, int>, now: int, types: seq<EventType>) returns (available: seq<EventType>)
    ensures available == Available(cooldowns, now, types)
  {
    available := [];
    var i := 0;
    while i < |types|
      invariant 0 <= i <= |types|
      invariant Available(cooldowns, now, types) == available + Available(cooldowns, now, types[i..])
    {
      var t := types[i];
      assert types[i..][1..] == types[i + 1..];
      if IsAvailable(cooldowns, now, t) {
        available := available + [t];
      }
      i := i + 1;
    }
    assert available + [] == available;
  }

  /** The base probability (0.1 for the types missing from the table). */
  function BaseProbability(t: EventType): real
  {
    match t
    case Celebration => 0.15
    case Disaster => 0.10
    case Discovery => 0.08
    case Conflict => 0.12
    case Cooperation => 0.20
    case Innovation => 0.10
    case Economic => 0.15
    case Social => 0.10
    case _ => 0.1
  }

  /**
   * The adjustment `adjustments.get(t, 1.0)` ends with once the rules of
   * `_calculate_event_probabilities` have run in order (a later rule for the
   * same type overwrites or multiplies the earlier value).
   */
  function Adjustment(happiness: int, health: int, education: int, economy: int, t: EventType): real
  {
    match t
    case Celebration => if happiness > 70 then 1.5 else if happiness < 30 then 0.3 else 1.0
    case Cooperation => if happiness > 70 then 1.3 else 1.0
    case Conflict =>
      (if happiness > 70 then 0.5 else if happiness < 30 then 1.8 else 1.0) * (if economy < 40 then 1.3 else 1.0)
    case Disaster => (if happiness < 30 then 1.2 else 1.0) * (if health < 40 then 1.5 else 1.0)
    case Innovation => if education > 60 then 1.8 else 1.0
    case Discovery => if education > 60 then 1.4 else 1.0
    case Economic => if economy < 40 then 1.6 else 1.0
    case _ => 1.0
  }

  /** The weight of one type for the community statistics `stats` (each defaulting to 50). */
  function Weight(stats: map<string, int>, t: EventType): real
  {
    BaseProbability(t) *
      Adjustment(Get(stats, "happiness", 50), Get(stats, "health", 50), Get(stats, "education", 50),
                 Get(stats, "economy", 50), t)
  }

  /** Every weight is positive. */
  lemma WeightPositive(stats: map<string, int>, t: EventType)
    ensures Weight(stats, t) > 0.0
  {
    var a := Adjustment(Get(stats, "happiness", 50), Get(stats, "health", 50), Get(stats, "education", 50),
                        Get(stats, "economy", 50), t);
    assert a > 0.0;
    assert BaseProbability(t) > 0.0;
  }

  /** `_calculate_event_probabilities`: one entry per available type, in the order given. */
  method EventProbabilities(stats: map<string, int>, available: seq<EventType>) returns (probs: seq<(EventType, real)>)
    ensures |probs| == |available|
    ensures forall i :: 0 <= i < |probs| ==> probs[i] == (available[i], Weight(stats, available[i]))
  {
    probs := [];
    var i := 0;
    while i < |available|
      invariant 0 <= i <= |available| && |probs| == i
      invariant forall k :: 0 <= k < i ==> probs[k] == (available[k], Weight(stats, available[k]))
    {
      probs := probs + [(available[i], Weight(stats, available[i]))];
      i := i + 1;
    }
  }

  /** The probabilities as a value: one entry per available type. */
  function Probabilities(stats: map<string, int>, available: seq<EventType>): (probs: seq<(EventType, real)>)
    ensures |probs| == |available|
    ensures forall i :: 0 <= i < |probs| ==> probs[i] == (available[i], Weight(stats, available[i]))
  {
    seq(|available|, i requires 0 <= i < |available| => (available[i], Weight(stats, available[i])))
  }

  // ---------------------------------------------------------------------
  // Weighted choice
  // ---------------------------------------------------------------------

  /** The sum of the first `n` weights. */
  function PrefixSum(probs: seq<(EventType, real)>, n: nat): real
    requires n <= |probs|
  {
    if n == 0 then 0.0 else PrefixSum(probs, n - 1) + probs[n - 1].1
  }

  function Total(probs: seq<(EventType, real)>): real
  {
    PrefixSum(probs, |probs|)
  }

  /** The running-sum loop from position `i` with `current` the sum so far; the first key is the fallback. */
  function Choose(probs: seq<(EventType, real)>, target: real, i: nat, current: real): EventType
    requires 0 < |probs| && i <= |probs|
    decreases |probs| - i
  {
    if i == |probs| then probs[0].0
    else if target <= current + probs[i].1 then probs[i].0
    else Choose(probs, target, i + 1, current + probs[i].1)
  }

  /** `_weighted_random_choice` with `draw` standing for `random.random()`. */
  function WeightedChoiceOf(probs: seq<(EventType, real)>, draw: real): Option<EventType>
  {
    if probs == [] then None
    else if Total(probs) <= 0.0 then None
    else Some(Choose(probs, draw * Total(probs), 0, 0.0))
  }

  /** `_weighted_random_choice`: the running-sum loop over the probabilities. */
  method WeightedChoice(probs: seq<(EventType, real)>, draw: real) returns (r: Option<EventType>)
    ensures r == WeightedChoiceOf(probs, draw)
  {
    if probs == [] {
      return None;
    }
    var total := 0.0;
    var k := 0;
    while k < |probs|
      invariant 0 <= k <= |probs| && total == PrefixSum(probs, k)
    {
      total := total + probs[k].1;
      k := k + 1;
    }
    if total <= 0.0 {
      return None;
    }
    var target := draw * total;
    var current := 0.0;
    var i := 0;
    while i < |probs|
      invariant 0 <= i <= |probs| && current == PrefixSum(probs, i)
      invariant Choose(probs, target, 0, 0.0) == Choose(probs, target, i, current)
    {
      current := current + probs[i].1;
      if target <= current {
        return Some(probs[i].0);
      }
      i := i + 1;
    }
    return Some(probs[0].0);
  }

  /** Position `k` is the first whose running sum reaches `target`. */
  predicate FirstReaching(probs: seq<(EventType, real)>, target: real, k: nat)
    requires k < |probs|
  {
    target <= PrefixSum(probs, k + 1) && forall j :: 0 < j <= k ==> target > PrefixSum(probs, j)
  }

  /** From position `i`, the loop returns the first later type whose running sum reaches the target. */
  lemma {:induction false} ChooseFirstReaching(probs: seq<(EventType, real)>, target: real, i: nat)
    requires 0 < |probs| && i < |probs| && target <= Total(probs)
    requires forall j :: 0 < j <= i ==> target > PrefixSum(probs, j)
    ensures exists k :: i <= k < |probs| && Choose(probs, target, i, PrefixSum(probs, i)) == probs[k].0 &&
                        FirstReaching(probs, target, k)
    decreases |probs| - i
  {
    assert PrefixSum(probs, i + 1) == PrefixSum(probs, i) + probs[i].1;
    if target <= PrefixSum(probs, i + 1) {
      assert FirstReaching(probs, target, i);
    } else if i + 1 == |probs| {
      assert false;
    } else {
      ChooseFirstReaching(probs, target, i + 1);
    }
  }

  lemma DrawBelowTotal(draw: real, total: real)
    requires 0.0 <= draw <= 1.0 && total > 0.0
    ensures draw * total <= total
  {
    assert (1.0 - draw) * total >= 0.0;
  }

  /**
   * No choice without a positive total; otherwise, for a draw in [0, 1], the
   * choice is the first type whose running weight reaches draw × total, so the
   * fallback to the first key is never needed.
   */
  lemma WeightedChoiceSpec(probs: seq<(EventType, real)>, draw: real)
    ensures WeightedChoiceOf(probs, draw).None? <==> probs == [] || Total(probs) <= 0.0
    ensures probs != [] && Total(probs) > 0.0 && 0.0 <= draw <= 1.0 ==>
      exists k :: 0 <= k < |probs| && WeightedChoiceOf(probs, draw) == Some(probs[k].0) &&
                  FirstReaching(probs, draw * Total(probs), k)
  {
    if probs != [] && Total(probs) > 0.0 && 0.0 <= draw <= 1.0 {
      DrawBelowTotal(draw, Total(probs));
      ChooseFirstReaching(probs, draw * Total(probs), 0);
    }
  }

  /** The choice is always one of the keys. */
  lemma {:induction false} ChooseIsKey(probs: seq<(EventType, real)>, target: real, i: nat, current: real)
    requires 0 < |probs| && i <= |probs|
    ensures exists k :: 0 <= k < |probs| && probs[k].0 == Choose(probs, target, i, current)
    decreases |probs| - i
  {
    if i == |probs| {
      assert probs[0].0 == Choose(probs, target, i, current);
    } else if target <= current + probs[i].1 {
      assert probs[i].0 == Choose(probs, target, i, current);
    } else {
      ChooseIsKey(probs, target, i + 1, current + probs[i].1);
    }
  }

  // ---------------------------------------------------------------------
  // Event creation
  // ---------------------------------------------------------------------

  /** The base scale of each severity. */
  function BaseScale(s: Severity): real
  {
    match s
    case Minor => 0.7
    case Moderate => 1.0
    case Major => 1.4
    case Critical => 1.8
  }

  /**
   * `_calculate_impact_scale`: the base scale times `max(0.5, min(1.5, 100 / population))`,
   * population defaulting to 100; a population of 0 raises ZeroDivisionError.
   */
  function ImpactScale(stats: map<string, int>, s: Severity): Result<real, string>
  {
    var population := Get(stats, "population", 100);
    if population == 0 then Err("division by zero")
    else
      var ratio := 100.0 / population as real;
      Ok(BaseScale(s) * (if ratio < 0.5 then 0.5 else if ratio > 1.5 then 1.5 else ratio))
  }

  /** The scale is between 0.35 and 2.7, and fails exactly for a population of 0. */
  lemma ImpactScaleSpec(stats: map<string, int>, s: Severity)
    ensures ImpactScale(stats, s).Err? <==> "population" in stats && stats["population"] == 0
    ensures ImpactScale(stats, s).Ok? ==> 0.35 <= ImpactScale(stats, s).value <= 2.7
  {
    var population := Get(stats, "population", 100);
    if population != 0 {
      var ratio := 100.0 / population as real;
      var f := if ratio < 0.5 then 0.5 else if ratio > 1.5 then 1.5 else ratio;
      assert 0.5 <= f <= 1.5;
      assert 0.7 <= BaseScale(s) <= 1.8;
      assert 0.7 * 0.5 <= BaseScale(s) * f by {
        assert BaseScale(s) * f >= 0.7 * f;
      }
      assert BaseScale(s) * f <= 1.8 * 1.5 by {
        assert BaseScale(s) * f <= 1.8 * f;
      }
    }
  }

  /** `_create_event_from_template`: the template's fields with the impact scaled, created at `now`. */
  function EventFromTemplate(t: Template, stats: map<string, int>, now: int): Result<GameEvent, string>
  {
    match ImpactScale(stats, t.severity)
    case Err(e) => Err(e)
    case Ok(scale) =>
      Ok(GameEvent(t.title, t.description, t.eventType, t.severity, ScaleByFactor(t.impact, scale), now,
                   t.durationHours, "system", [], true))
  }

  /** The cooldown of each type, in hours (24 for the types missing from the table). */
  function CooldownHours(t: EventType): nat
  {
    match t
    case Celebration => 48
    case Disaster => 72
    case Discovery => 24
    case Conflict => 36
    case Cooperation => 12
    case Innovation => 48
    case Economic => 24
    case Social => 12
    case _ => 24
  }
  /** The cooldowns once an event of type `t` has been generated at `now`: that type waits out its cooldown. */
  function CooledDown(cooldowns: map<EventType, int>, t: EventType, now: int): map<EventType, int>
  {
    cooldowns[t := now + CooldownHours(t) * 3600]
  }


  /** `generate_random_event` as a value: `Ok(None)` when nothing is generated, `Err` when event creation raises. */
  function Generation(templates: seq<Template>, cooldowns: map<EventType, int>, stats: map<string, int>, now: int,
                      draw: real, pick: nat): Result<Option<GameEvent>, string>
  {
    var available := Available(cooldowns, now, AllTypes);
    if available == [] then Ok(None)
    else
      match WeightedChoiceOf(Probabilities(stats, available), draw)
      case None => Ok(None)
      case Some(t) =>
        match SelectTemplate(templates, t, pick)
        case None => Ok(None)
        case Some(template) =>
          match EventFromTemplate(template, stats, now)
          case Err(e) => Err(e)
          case Ok(event) => Ok(Some(event))
  }

  /** Nothing is generated when every type is cooling down. */
  lemma NothingAvailable(templates: seq<Template>, cooldowns: map<EventType, int>, stats: map<string, int>, now: int,
                         draw: real, pick: nat)
    requires forall t :: t in AllTypes ==> !IsAvailable(cooldowns, now, t)
    ensures Generation(templates, cooldowns, stats, now, draw, pick) == Ok(None)
  {
    var available := Available(cooldowns, now, AllTypes);
    if available != [] {
      assert available[0] in available;
      AvailableSpec(cooldowns, now, AllTypes);
      assert false;
    }
  }

  /** Whenever some type is available, a type is chosen, whatever the draw. */
  lemma ChoiceMade(stats: map<string, int>, available: seq<EventType>, draw: real)
    requires available != []
    ensures WeightedChoiceOf(Probabilities(stats, available), draw).Some?
  {
    PositiveTotal(stats, available);
  }

  /** A choice is always one of the listed types. */
  lemma ChoiceIsListed(probs: seq<(EventType, real)>, draw: real)
    ensures WeightedChoiceOf(probs, draw).Some? ==>
      exists k :: 0 <= k < |probs| && probs[k].0 == WeightedChoiceOf(probs, draw).value
  {
    if probs != [] && Total(probs) > 0.0 {
      ChooseIsKey(probs, draw * Total(probs), 0, 0.0);
    }
  }

  /** A generated event has a type that was available, comes from a template of that type, and starts now. */
  lemma GeneratedEvent(templates: seq<Template>, cooldowns: map<EventType, int>, stats: map<string, int>, now: int,
                       draw: real, pick: nat)
    requires Generation(templates, cooldowns, stats, now, draw, pick).Ok?
    requires Generation(templates, cooldowns, stats, now, draw, pick).value.Some?
    ensures var e := Generation(templates, cooldowns, stats, now, draw, pick).value.value;
      IsAvailable(cooldowns, now, e.eventType) && e.timestamp == now && e.isActive && e.affectsAgents == [] &&
      e.triggeredBy == "system" &&
      exists x :: x in templates && x.eventType == e.eventType && x.title == e.title && x.durationHours == e.durationHours
  {
    var available := Available(cooldowns, now, AllTypes);
    var probs := Probabilities(stats, available);
    var c := WeightedChoiceOf(probs, draw);
    assert available != [];
    assert c.Some?;
    ChoiceIsListed(probs, draw);
    var k :| 0 <= k < |probs| && probs[k].0 == c.value;
    assert c.value in available;
    AvailableSpec(cooldowns, now, AllTypes);
    SelectTemplateType(templates, c.value, pick);
  }

  /** The total weight of a non-empty list of types is positive. */
  lemma {:induction false} PositiveTotal(stats: map<string, int>, available: seq<EventType>)
    requires available != []
    ensures Total(Probabilities(stats, available)) > 0.0
  {
    var probs := Probabilities(stats, available);
    PrefixPositive(probs, |probs|, stats);
  }

  lemma {:induction false} PrefixPositive(probs: seq<(EventType, real)>, n: nat, stats: map<string, int>)
    requires 0 < n <= |probs|
    requires forall i :: 0 <= i < |probs| ==> probs[i].1 == Weight(stats, probs[i].0)
    ensures PrefixSum(probs, n) > 0.0
  {
    WeightPositive(stats, probs[n - 1].0);
    if n > 1 {
      PrefixPositive(probs, n - 1, stats);
    } else {
      assert PrefixSum(probs, 0) == 0.0;
    }
  }

  // ---------------------------------------------------------------------
  // The generator
  // ---------------------------------------------------------------------

  /** The most events the history keeps. */
  const HistoryLimit := 100

  /** The key of `get_event_history`: newest first. */
  function ByTimestamp(e: GameEvent): Rank
  {
    Rank(e.timestamp as real, 0.0)
  }

  class EventGenerator {
    const templates: seq<Template>
    var recentEvents: seq<GameEvent>
    var cooldowns: map<EventType, int>

    constructor()
      ensures templates == EventTemplates && recentEvents == [] && cooldowns == map[]
    {
      templates := EventTemplates;
      recentEvents := [];
      cooldowns := map[];
    }

    /**
     * `generate_random_event`: the event `Generation` describes; the chosen
     * type's cooldown is set only once its event has been built.
     */
    method GenerateRandomEvent(stats: map<string, int>, now: int, draw: real, pick: nat)
      returns (r: Result<Option<GameEvent>, string>)
      modifies this
      ensures r == Generation(templates, old(cooldowns), stats, now, draw, pick)
      ensures cooldowns == if r.Ok? && r.value.Some?
        then CooledDown(old(cooldowns), r.value.value.eventType, now)
        else old(cooldowns)
      ensures recentEvents == old(recentEvents)
    {
      var available := AvailableTypes(cooldowns, now, AllTypes);
      if available == [] {
        return Ok(None);
      }
      var probs := EventProbabilities(stats, available);
      assert probs == Probabilities(stats, available);
      var selected := WeightedChoice(probs, draw);
      if selected.None? {
        return Ok(None);
      }
      var template := SelectTemplate(templates, selected.value, pick);
      SelectTemplateType(templates, selected.value, pick);
      if template.None? {
        return Ok(None);
      }
      var event := EventFromTemplate(template.value, stats, now);
      if event.Err? {
        return Err(event.error);
      }
      // The template's type is the selected one.
      cooldowns := cooldowns[selected.value := now + CooldownHours(selected.value) * 3600];
      r := Ok(Some(event.value));
    }

    /** `get_event_history(limit)`. */
    function EventHistory(limit: int): seq<GameEvent>
      reads this
    {
      Top(recentEvents, ByTimestamp, limit)
    }

    /** `add_event_to_history`: append, keeping the newest 100. */
    method AddEventToHistory(e: GameEvent)
      modifies this
      ensures recentEvents == Tail(old(recentEvents) + [e], HistoryLimit)
      ensures cooldowns == old(cooldowns)
    {
      recentEvents := Tail(recentEvents + [e], HistoryLimit);
    }
  }

  /** The added event is always kept, as the newest, and at most 100 events remain. */
  lemma HistorySpec(events: seq<GameEvent>, e: GameEvent)
    ensures |Tail(events + [e], HistoryLimit)| <= HistoryLimit
    ensures Tail(events + [e], HistoryLimit)[|Tail(events + [e], HistoryLimit)| - 1] == e
    ensures |events| < HistoryLimit ==> Tail(events + [e], HistoryLimit) == events + [e]
  {
  }

  /** The history answer has at most `limit` events, newest first, and none left out is newer than one returned. */
  lemma EventHistorySpec(g: EventGenerator, limit: int)
    ensures limit >= 0 ==> |g.EventHistory(limit)| <= limit
    ensures multiset(g.EventHistory(limit)) <= multiset(g.recentEvents)
    ensures forall i, j :: 0 <= i < j < |g.EventHistory(limit)| ==> g.EventHistory(limit)[i].timestamp >= g.EventHistory(limit)[j].timestamp
    ensures forall e, i :: e in g.recentEvents && e !in g.EventHistory(limit) && 0 <= i < |g.EventHistory(limit)| ==>
      e.timestamp <= g.EventHistory(limit)[i].timestamp
  {
    var r := g.EventHistory(limit);
    TopSpec(g.recentEvents, ByTimestamp, limit);
    forall i, j | 0 <= i < j < |r| ensures r[i].timestamp >= r[j].timestamp {
      assert !Outranks(ByTimestamp(r[j]), ByTimestamp(r[i]));
    }
    forall e, i | e in g.recentEvents && e !in r && 0 <= i < |r| ensures e.timestamp <= r[i].timestamp {
      assert !Outranks(ByTimestamp(e), ByTimestamp(r[i]));
    }
  }

  /** After a type's cooldown is set at `now`, it is unavailable up to the end of the cooldown and available after. */
  lemma CooldownBlocks(cooldowns: map<EventType, int>, t: EventType, now: int, later: int)
    ensures var c := cooldowns[t := now + CooldownHours(t) * 3600];
      (IsAvailable(c, later, t) <==> later > now + CooldownHours(t) * 3600) &&
      forall u :: u != t ==> (IsAvailable(c, later, u) <==> IsAvailable(cooldowns, later, u))
  {
  }
}
