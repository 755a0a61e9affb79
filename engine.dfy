/**
 * The community simulation: its residents, the running flag and the time of
 * the last update, the community statistics averaged over the residents, and
 * applying an event to the residents it concerns. Time is in seconds; the
 * background loop is replaced by explicit calls to `UpdateSimulation`.
 */
module Engine {
  import opened Wrappers
  import opened Text
  import opened Builtins
  import Agents
  import Events

  /** A resident created at start-up. */
  datatype Resident = Resident(name: string, personality: Agents.Personality, occupation: Agents.Occupation)

  /** The residents of `_initialize_default_agents`, in order. */
  const DefaultResidents: seq<Resident> := [
    Resident("张明", Agents.Optimistic, Agents.Teacher),
    Resident("李华", Agents.Creative, Agents.Artist),
    Resident("王丽", Agents.Analytical, Agents.Doctor),
    Resident("刘强", Agents.Leader, Agents.Engineer),
    Resident("陈静", Agents.Social, Agents.Merchant),
    Resident("赵勇", Agents.Realistic, Agents.Farmer),
    Resident("孙娜", Agents.Supporter, Agents.Student),
    Resident("周杰", Agents.Introvert, Agents.Researcher)
  ]

  // ---------------------------------------------------------------------
  // Community statistics
  // ---------------------------------------------------------------------

  datatype CommunityStats = CommunityStats(population: int, happiness: int, health: int, education: int, economy: int)

  /** The statistics as the dictionary the event generator reads. */
  function AsDict(c: CommunityStats): map<string, int>
  {
    map["population" := c.population, "happiness" := c.happiness, "health" := c.health,
        "education" := c.education, "economy" := c.economy]
  }

  /** The sum of one statistic over the residents. */
  function Sum(values: seq<Agents.StatValues>, f: Agents.StatValues -> int): int
  {
    if values == [] then 0 else f(values[0]) + Sum(values[1..], f)
  }

  /**
   * `get_community_stats`: with no residents, population 0 and 50 for the
   * rest; otherwise the population and each statistic's `int(total / count)`,
   * the economy being the average wealth.
   */
  function Community(values: seq<Agents.StatValues>): CommunityStats
  {
    if values == [] then CommunityStats(0, 50, 50, 50, 50)
    else
      var n := |values|;
      CommunityStats(n, TruncDiv(Sum(values, (v: Agents.StatValues) => v.happiness), n), TruncDiv(Sum(values, (v: Agents.StatValues) => v.health), n),
                     TruncDiv(Sum(values, (v: Agents.StatValues) => v.education), n), TruncDiv(Sum(values, (v: Agents.StatValues) => v.wealth), n))
  }

  /** Values of a statistic all between 0 and 100 sum to between 0 and 100 per resident. */
  lemma {:induction false} SumBounds(values: seq<Agents.StatValues>, f: Agents.StatValues -> int)
    requires forall i :: 0 <= i < |values| ==> 0 <= f(values[i]) <= 100
    ensures 0 <= Sum(values, f) <= 100 * |values|
  {
    if values != [] {
      assert forall i :: 0 <= i < |values[1..]| ==> values[1..][i] == values[i + 1];
      SumBounds(values[1..], f);
    }
  }

  /** Sums of a statistic that agrees resident by resident are equal, whatever the other statistics hold. */
  lemma {:induction false} SumAgrees(a: seq<Agents.StatValues>, b: seq<Agents.StatValues>, f: Agents.StatValues -> int)
    requires |a| == |b| && forall i :: 0 <= i < |a| ==> f(a[i]) == f(b[i])
    ensures Sum(a, f) == Sum(b, f)
  {
    if a != [] {
      assert forall i :: 0 <= i < |a[1..]| ==> a[1..][i] == a[i + 1] && b[1..][i] == b[i + 1];
      SumAgrees(a[1..], b[1..], f);
    }
  }

  /** `n` residents with the same value `x` sum to `n * x`. */
  lemma {:induction false} SumUniform(values: seq<Agents.StatValues>, f: Agents.StatValues -> int, x: int)
    requires forall i :: 0 <= i < |values| ==> f(values[i]) == x
    ensures Sum(values, f) == |values| * x
  {
    if values != [] {
      assert forall i :: 0 <= i < |values[1..]| ==> values[1..][i] == values[i + 1];
      SumUniform(values[1..], f, x);
    }
  }

  /** A quotient of a total between 0 and `100 * n` lies between 0 and 100. */
  lemma AverageBounds(total: int, n: int)
    requires n > 0 && 0 <= total <= 100 * n
    ensures 0 <= TruncDiv(total, n) <= 100
  {
  }

  /** `n * x / n` is `x`. */
  lemma AverageOfUniform(n: int, x: int)
    requires n > 0
    ensures TruncDiv(n * x, n) == x
  {
  }

  /** The population is the number of residents, and statistics kept in [0, 100] average to [0, 100]. */
  lemma CommunityInRange(values: seq<Agents.StatValues>)
    requires forall i :: 0 <= i < |values| ==> Agents.InRange(values[i])
    ensures var c := Community(values);
      c.population == |values| && 0 <= c.happiness <= 100 && 0 <= c.health <= 100 &&
      0 <= c.education <= 100 && 0 <= c.economy <= 100
  {
    var n := |values|;
    if n > 0 {
      SumBounds(values, (v: Agents.StatValues) => v.happiness);
      AverageBounds(Sum(values, (v: Agents.StatValues) => v.happiness), n);
      SumBounds(values, (v: Agents.StatValues) => v.health);
      AverageBounds(Sum(values, (v: Agents.StatValues) => v.health), n);
      SumBounds(values, (v: Agents.StatValues) => v.education);
      AverageBounds(Sum(values, (v: Agents.StatValues) => v.education), n);
      SumBounds(values, (v: Agents.StatValues) => v.wealth);
      AverageBounds(Sum(values, (v: Agents.StatValues) => v.wealth), n);
    }
  }

  /** When every resident has the same statistics, the averages are those statistics (economy being wealth). */
  lemma CommunityOfEquals(values: seq<Agents.StatValues>, v: Agents.StatValues)
    requires values != [] && forall i :: 0 <= i < |values| ==> values[i] == v
    ensures Community(values) == CommunityStats(|values|, v.happiness, v.health, v.education, v.wealth)
  {
    var n := |values|;
    SumUniform(values, (u: Agents.StatValues) => u.happiness, v.happiness);
    AverageOfUniform(n, v.happiness);
    SumUniform(values, (u: Agents.StatValues) => u.health, v.health);
    AverageOfUniform(n, v.health);
    SumUniform(values, (u: Agents.StatValues) => u.education, v.education);
    AverageOfUniform(n, v.education);
    SumUniform(values, (u: Agents.StatValues) => u.wealth, v.wealth);
    AverageOfUniform(n, v.wealth);
  }

  /** The economy figure depends on the residents' wealth alone. */
  lemma EconomyFromWealth(a: seq<Agents.StatValues>, b: seq<Agents.StatValues>)
    requires |a| == |b| && forall i :: 0 <= i < |a| ==> a[i].wealth == b[i].wealth
    ensures Community(a).economy == Community(b).economy
  {
    if a != [] {
      SumAgrees(a, b, (v: Agents.StatValues) => v.wealth);
    }
  }

  /** With no residents the population is 0, so building an event would divide by zero. */
  lemma EmptyCommunityCannotScale(s: Events.Severity)
    ensures Community([]) == CommunityStats(0, 50, 50, 50, 50)
    ensures Events.ImpactScale(AsDict(Community([])), s).Err?
  {
    Events.ImpactScaleSpec(AsDict(Community([])), s);
  }

  /** The current statistics of the residents, in order. */
  function StatsOf(xs: seq<Agents.Agent>): (r: seq<Agents.StatValues>)
    reads set a | a in xs :: a.stats
    ensures |r| == |xs| && forall i :: 0 <= i < |xs| ==> r[i] == xs[i].stats.Values()
  {
    if xs == [] then [] else [xs[0].stats.Values()] + StatsOf(xs[1..])
  }

  // ---------------------------------------------------------------------
  // Applying an event
  // ---------------------------------------------------------------------

  /** The residents an event concerns: everyone when its list is empty, otherwise those listed. */
  predicate Affects(e: Events.GameEvent, id: string)
  {
    e.affectsAgents == [] || id in e.affectsAgents
  }

  /** The reaction `react_to_event` gives for a resident's personality and occupation. */
  function ExpectedReaction(a: Agents.Agent, impact: seq<(string, int)>): Agents.Reaction
  {
    var intensity := Agents.ReactionIntensity(impact, a.personality);
    Agents.Reaction(intensity, Agents.Emotion(impact, intensity),
                    Agents.PersonalImpact(impact, intensity, a.occupation))
  }

  /** The reactions of the concerned residents, in resident order. */
  function Reactions(xs: seq<Agents.Agent>, e: Events.GameEvent): seq<Agents.Reaction>
  {
    if xs == [] then []
    else Reactions(xs[..|xs| - 1], e) +
         (if Affects(e, xs[|xs| - 1].id) then [ExpectedReaction(xs[|xs| - 1], Events.ToDict(e.impact))] else [])
  }

  /** Every resident reacts, in order, when the event lists nobody. */
  lemma {:induction false} EveryoneReacts(xs: seq<Agents.Agent>, e: Events.GameEvent)
    requires e.affectsAgents == []
    ensures |Reactions(xs, e)| == |xs|
    ensures forall i :: 0 <= i < |xs| ==> Reactions(xs, e)[i] == ExpectedReaction(xs[i], Events.ToDict(e.impact))
  {
    if xs != [] {
      var init := xs[..|xs| - 1];
      EveryoneReacts(init, e);
      assert Reactions(xs, e) == Reactions(init, e) + [ExpectedReaction(xs[|xs| - 1], Events.ToDict(e.impact))];
      assert forall i :: 0 <= i < |init| ==> init[i] == xs[i];
    }
  }

  /** There is one reaction per concerned resident. */
  lemma {:induction false} ReactionsCount(xs: seq<Agents.Agent>, e: Events.GameEvent)
    ensures |Reactions(xs, e)| == |set i | 0 <= i < |xs| && Affects(e, xs[i].id)|
  {
    if xs != [] {
      var n := |xs| - 1;
      var init := xs[..n];
      ReactionsCount(init, e);
      var before := set i | 0 <= i < n && Affects(e, init[i].id);
      var all := set i | 0 <= i < |xs| && Affects(e, xs[i].id);
      if Affects(e, xs[n].id) {
        assert all == before + {n};
      } else {
        assert all == before;
      }
    }
  }

  /** What a resident's mutable state was at some moment. */
  datatype Snapshot = Snapshot(memories: seq<Agents.Memory>, relationships: map<string, int>, isActive: bool,
                               stats: Agents.StatValues)

  function SnapshotOf(a: Agents.Agent): Snapshot
    reads a, a.stats
  {
    Snapshot(a.memories, a.relationships, a.isActive, a.stats.Values())
  }

  /**
   * A resident's state after `apply_event` compared with `before`: a concerned
   * resident has remembered the event and taken its personal impact; anyone
   * else is unchanged. Relationships and activity never change.
   */
  predicate AfterEvent(a: Agents.Agent, e: Events.GameEvent, now: int, before: Snapshot)
    reads a, a.stats
  {
    var r := ExpectedReaction(a, Events.ToDict(e.impact));
    a.relationships == before.relationships && a.isActive == before.isActive &&
    if Affects(e, a.id) then
      a.memories == Agents.Kept(before.memories + [Agents.Memory(e.description, now, r.intensity, r.emotion)]) &&
      a.stats.Values() == Agents.ApplyChanges(before.stats, r.personalImpact)
    else
      a.memories == before.memories && a.stats.Values() == before.stats
  }

  /** A valid resident that has (`done`) or has not yet taken its part of an event. */
  predicate Stepped(a: Agents.Agent, e: Events.GameEvent, now: int, before: Snapshot, done: bool)
    reads a, a.stats
  {
    a.Valid() && if done then AfterEvent(a, e, now, before) else SnapshotOf(a) == before
  }

  /** One resident's part of `apply_event`: a concerned resident reacts, anyone else is left alone. */
  method ReactOne(a: Agents.Agent, e: Events.GameEvent, now: int) returns (r: seq<Agents.Reaction>)
    requires a.Valid()
    modifies a, a.stats
    ensures a.Valid() && AfterEvent(a, e, now, old(SnapshotOf(a)))
    ensures r == if Affects(e, a.id) then [ExpectedReaction(a, Events.ToDict(e.impact))] else []
  {
    if Affects(e, a.id) {
      var reaction := a.ReactToEvent(e.description, Events.ToDict(e.impact), now);
      r := [reaction];
    } else {
      r := [];
    }
  }

  /** The loop of `apply_event`: the residents take their parts in order. */
  method ReactAll(xs: seq<Agents.Agent>, e: Events.GameEvent, now: int) returns (reactions: seq<Agents.Reaction>)
    requires Distinct(xs) && AllValid(xs)
    modifies Footprint(xs)
    ensures AllValid(xs)
    ensures reactions == Reactions(xs, e)
    ensures forall i :: 0 <= i < |xs| ==> AfterEvent(xs[i], e, now, old(SnapshotOf(xs[i])))
  {
    reactions := [];
    var i := 0;
    while i < |xs|
      invariant 0 <= i <= |xs|
      invariant reactions == Reactions(xs[..i], e)
      invariant forall k :: 0 <= k < |xs| ==> Stepped(xs[k], e, now, old(SnapshotOf(xs[k])), k < i)
    {
      var a := xs[i];
      assert xs[..i + 1][..i] == xs[..i];
      assert forall k :: 0 <= k < |xs| && k != i ==> xs[k] != a && xs[k].stats != a.stats;
      var r := ReactOne(a, e, now);
      reactions := reactions + r;
      i := i + 1;
    }
    assert xs[..i] == xs;
  }

  // ---------------------------------------------------------------------
  // Residents
  // ---------------------------------------------------------------------

  /** The residents and their statistics objects. */
  function Footprint(xs: seq<Agents.Agent>): set<object>
  {
    (set a | a in xs :: a as object) + (set a | a in xs :: a.stats as object)
  }

  /** The simulation object is none of the residents' objects. */
  lemma OutsideFootprint(s: Simulation, xs: seq<Agents.Agent>)
    ensures s !in Footprint(xs)
  {
  }

  /** The event generator is none of the residents' objects. */
  lemma GeneratorOutside(g: Events.EventGenerator, xs: seq<Agents.Agent>)
    ensures g !in Footprint(xs)
  {
  }

  /** Distinct objects with distinct identifiers and statistics objects. */
  predicate Distinct(xs: seq<Agents.Agent>)
  {
    forall i, j :: 0 <= i < j < |xs| ==> xs[i] != xs[j] && xs[i].stats != xs[j].stats && xs[i].id != xs[j].id
  }

  predicate AllValid(xs: seq<Agents.Agent>)
    reads Footprint(xs)
  {
    forall i :: 0 <= i < |xs| ==> xs[i] in xs && xs[i].Valid()
  }

  /** Appending a resident different from every listed one keeps the list distinct. */
  lemma DistinctAppend(xs: seq<Agents.Agent>, a: Agents.Agent)
    requires Distinct(xs)
    requires forall k :: 0 <= k < |xs| ==> xs[k] != a && xs[k].stats != a.stats && xs[k].id != a.id
    ensures Distinct(xs + [a])
  {
  }

  /** `a` is the new resident `r` with identifier `id`: no memories yet, and active. */
  predicate Created(a: Agents.Agent, id: string, r: Resident)
    reads a
  {
    a.id == id && a.name == r.name && a.personality == r.personality && a.occupation == r.occupation &&
    a.memories == [] && a.isActive
  }

  /** One new resident from the table. */
  method NewResident(id: string, r: Resident) returns (a: Agents.Agent)
    ensures fresh(a) && fresh(a.stats) && a.Valid() && Created(a, id, r)
  {
    a := new Agents.Agent(id, r.name, r.personality, r.occupation);
  }

  /** The residents of `residents`, created in order with the identifiers `ids`. */
  method CreateResidents(ids: seq<string>, residents: seq<Resident>) returns (xs: seq<Agents.Agent>)
    requires |ids| == |residents|
    requires forall i, j :: 0 <= i < j < |ids| ==> ids[i] != ids[j]
    ensures Distinct(xs) && AllValid(xs) && |xs| == |residents|
    ensures forall i :: 0 <= i < |xs| ==> fresh(xs[i]) && fresh(xs[i].stats) && Created(xs[i], ids[i], residents[i])
  {
    xs := [];
    var i := 0;
    while i < |residents|
      invariant 0 <= i <= |residents| && |xs| == i
      invariant Distinct(xs) && AllValid(xs)
      invariant forall k :: 0 <= k < i ==> fresh(xs[k]) && fresh(xs[k].stats) && Created(xs[k], ids[k], residents[k])
    {
      var a := NewResident(ids[i], residents[i]);
      assert forall k :: 0 <= k < i ==> xs[k] != a && xs[k].stats != a.stats && xs[k].id != a.id;
      DistinctAppend(xs, a);
      xs := xs + [a];
      i := i + 1;
    }
  }

  // ---------------------------------------------------------------------
  // The simulation
  // ---------------------------------------------------------------------

  /** The seconds below which `_update_simulation` does nothing: 0.1 hours. */
  const MinUpdateGap := 360
  /** The seconds after which an update tries a random event: `auto_event_interval_hours` of 6. */
  const EventInterval := 21600

  /** What one call of `_update_simulation` did. */
  datatype Update = TooSoon | Updated | EventApplied(event: Events.GameEvent, reactions: seq<Agents.Reaction>)
                  | Failed(reason: string)

  class Simulation {
    var agents: seq<Agents.Agent>
    const generator: Events.EventGenerator
    var running: bool
    var lastUpdate: int

    function Objects(): set<object>
      reads this
    {
      Footprint(agents)
    }

    /** Residents are distinct, with distinct identifiers, each within its bounds. */
    predicate Valid()
      reads this, Objects()
    {
      Distinct(agents) && AllValid(agents)
    }

    /** `get_community_stats` for the current residents. */
    function CommunityNow(): CommunityStats
      reads this, Objects()
    {
      Community(StatsOf(agents))
    }

    /** A stopped simulation with the eight default residents; `ids` stands for their generated identifiers. */
    constructor(ids: seq<string>, now: int)
      requires |ids| == |DefaultResidents|
      requires forall i, j :: 0 <= i < j < |ids| ==> ids[i] != ids[j]
      ensures Valid() && fresh(generator) && !running && lastUpdate == now
      ensures generator.templates == Events.EventTemplates && generator.recentEvents == [] && generator.cooldowns == map[]
      ensures |agents| == |DefaultResidents|
      ensures forall i :: 0 <= i < |agents| ==> Created(agents[i], ids[i], DefaultResidents[i])
    {
      var xs := CreateResidents(ids, DefaultResidents);
      agents := xs;
      generator := new Events.EventGenerator();
      running := false;
      lastUpdate := now;
    }

    /** `start_simulation`: does nothing when already running; otherwise starts and stamps the time. */
    method StartSimulation(now: int)
      modifies this
      ensures running
      ensures lastUpdate == if old(running) then old(lastUpdate) else now
      ensures agents == old(agents)
    {
      if running {
        return;
      }
      running := true;
      lastUpdate := now;
    }

    /** `stop_simulation`. */
    method StopSimulation()
      modifies this
      ensures !running && lastUpdate == old(lastUpdate) && agents == old(agents)
    {
      running := false;
    }

    /**
     * `apply_event`: the concerned residents react in order, each
     * remembering the event and taking its personal impact, the others stay
     * as they were, and the event joins the history once.
     */
    method ApplyEvent(e: Events.GameEvent, now: int) returns (reactions: seq<Agents.Reaction>)
      requires Valid()
      modifies Objects(), generator
      ensures Valid()
      ensures reactions == Reactions(agents, e)
      ensures forall i :: 0 <= i < |agents| ==> AfterEvent(agents[i], e, now, old(SnapshotOf(agents[i])))
      ensures generator.recentEvents == Tail(old(generator.recentEvents) + [e], Events.HistoryLimit)
      ensures generator.cooldowns == old(generator.cooldowns)
    {
      reactions := ReactAll(agents, e, now);
      generator.AddEventToHistory(e);
    }

    /**
     * `_update_simulation` at time `now`, with `draw` and `pick` standing for
     * the random draws of event generation: nothing happens within 6 minutes
     * of the last update; after 6 hours a random event is generated and
     * applied; the update time is stamped unless generating the event raised.
     */
    method UpdateSimulation(now: int, draw: real, pick: nat) returns (outcome: Update)
      requires Valid()
      modifies this, Objects(), generator
      ensures Valid() && agents == old(agents) && running == old(running)
      ensures now - old(lastUpdate) < EventInterval ==>
        generator.recentEvents == old(generator.recentEvents) && generator.cooldowns == old(generator.cooldowns) &&
        outcome == (if now - old(lastUpdate) < MinUpdateGap then TooSoon else Updated) &&
        lastUpdate == (if now - old(lastUpdate) < MinUpdateGap then old(lastUpdate) else now)
      ensures now - old(lastUpdate) >= EventInterval ==>
        outcome == UpdateOutcome(Events.Generation(generator.templates, old(generator.cooldowns),
                                                   AsDict(old(CommunityNow())), now, draw, pick), agents) &&
        lastUpdate == (if outcome.Failed? then old(lastUpdate) else now) &&
        generator.recentEvents == if outcome.EventApplied?
          then Tail(old(generator.recentEvents) + [outcome.event], Events.HistoryLimit)
          else old(generator.recentEvents)
      ensures generator.cooldowns == if outcome.EventApplied?
        then Events.CooledDown(old(generator.cooldowns), outcome.event.eventType, now)
        else old(generator.cooldowns)
      ensures outcome.EventApplied? ==>
        forall i :: 0 <= i < |agents| ==> AfterEvent(agents[i], outcome.event, now, old(SnapshotOf(agents[i])))
      ensures !outcome.EventApplied? ==> forall i :: 0 <= i < |agents| ==> SnapshotOf(agents[i]) == old(SnapshotOf(agents[i]))
    {
      if now - lastUpdate < MinUpdateGap {
        return TooSoon;
      }
      if now - lastUpdate < EventInterval {
        Stamp(now);
        return Updated;
      }
      outcome := UpdateWithEvent(now, draw, pick);
    }

    /** The part of `_update_simulation` past the event interval: try an event, then stamp the time unless that raised. */
    method UpdateWithEvent(now: int, draw: real, pick: nat) returns (outcome: Update)
      requires Valid()
      modifies this, Objects(), generator
      ensures Valid() && agents == old(agents) && running == old(running)
      ensures outcome == UpdateOutcome(Events.Generation(generator.templates, old(generator.cooldowns),
                                                         AsDict(old(CommunityNow())), now, draw, pick), agents)
      ensures lastUpdate == if outcome.Failed? then old(lastUpdate) else now
      ensures generator.recentEvents == if outcome.EventApplied?
        then Tail(old(generator.recentEvents) + [outcome.event], Events.HistoryLimit)
        else old(generator.recentEvents)
      ensures generator.cooldowns == if outcome.EventApplied?
        then Events.CooledDown(old(generator.cooldowns), outcome.event.eventType, now)
        else old(generator.cooldowns)
      ensures outcome.EventApplied? ==>
        forall i :: 0 <= i < |agents| ==> AfterEvent(agents[i], outcome.event, now, old(SnapshotOf(agents[i])))
      ensures !outcome.EventApplied? ==> forall i :: 0 <= i < |agents| ==> SnapshotOf(agents[i]) == old(SnapshotOf(agents[i]))
    {
      // generation, then the stamp once generation has not raised, then the residents' reactions:
      // applying the event neither reads nor writes the time stamp
      GeneratorOutside(generator, agents);
      var g := Generate(now, draw, pick);
      outcome := StampAndApply(g, now);
    }

    /** Once generation has given `g`: fail if it raised, otherwise stamp the time and apply the event when there is one. */
    method StampAndApply(g: Result<Option<Events.GameEvent>, string>, now: int) returns (outcome: Update)
      requires Valid()
      modifies this, Objects(), generator
      ensures Valid() && agents == old(agents) && running == old(running)
      ensures lastUpdate == if g.Err? then old(lastUpdate) else now
      ensures outcome == UpdateOutcome(g, agents)
      ensures generator.recentEvents == if outcome.EventApplied?
        then Tail(old(generator.recentEvents) + [outcome.event], Events.HistoryLimit)
        else old(generator.recentEvents)
      ensures generator.cooldowns == old(generator.cooldowns)
      ensures outcome.EventApplied? ==>
        forall i :: 0 <= i < |agents| ==> AfterEvent(agents[i], outcome.event, now, old(SnapshotOf(agents[i])))
      ensures !outcome.EventApplied? ==> forall i :: 0 <= i < |agents| ==> SnapshotOf(agents[i]) == old(SnapshotOf(agents[i]))
    {
      if g.Err? {
        return Failed(g.error);
      }
      Stamp(now);
      OutsideFootprint(this, agents);
      outcome := ApplyGenerated(g, now);
    }

    /** `self.last_update = now`: the residents are not touched. */
    method Stamp(now: int)
      requires Valid()
      modifies this
      ensures Valid()
      ensures lastUpdate == now && agents == old(agents) && running == old(running)
      ensures forall i :: 0 <= i < |agents| ==> SnapshotOf(agents[i]) == old(SnapshotOf(agents[i]))
    {
      OutsideFootprint(this, agents);
      lastUpdate := now;
    }

    /**
     * `_try_generate_random_event`: generate an event for the current
     * statistics and apply it when there is one; a raised error ends the attempt.
     */
    method TryGenerateEvent(now: int, draw: real, pick: nat) returns (outcome: Update)
      requires Valid()
      modifies Objects(), generator
      ensures Valid()
      ensures outcome == UpdateOutcome(Events.Generation(generator.templates, old(generator.cooldowns),
                                                         AsDict(old(CommunityNow())), now, draw, pick), agents)
      ensures generator.recentEvents == if outcome.EventApplied?
        then Tail(old(generator.recentEvents) + [outcome.event], Events.HistoryLimit)
        else old(generator.recentEvents)
      ensures generator.cooldowns == if outcome.EventApplied?
        then Events.CooledDown(old(generator.cooldowns), outcome.event.eventType, now)
        else old(generator.cooldowns)
      ensures outcome.EventApplied? ==>
        forall i :: 0 <= i < |agents| ==> AfterEvent(agents[i], outcome.event, now, old(SnapshotOf(agents[i])))
      ensures !outcome.EventApplied? ==> forall i :: 0 <= i < |agents| ==> SnapshotOf(agents[i]) == old(SnapshotOf(agents[i]))
    {
      GeneratorOutside(generator, agents);
      var g := Generate(now, draw, pick);
      outcome := ApplyGenerated(g, now);
    }

    /** The generation half of `_try_generate_random_event`: only the generator changes. */
    method Generate(now: int, draw: real, pick: nat) returns (g: Result<Option<Events.GameEvent>, string>)
      requires Valid()
      modifies generator
      ensures Valid()
      ensures g == Events.Generation(generator.templates, old(generator.cooldowns), AsDict(old(CommunityNow())), now, draw, pick)
      ensures generator.cooldowns == if g.Ok? && g.value.Some?
        then Events.CooledDown(old(generator.cooldowns), g.value.value.eventType, now)
        else old(generator.cooldowns)
      ensures agents == old(agents) && generator.recentEvents == old(generator.recentEvents)
      ensures forall i :: 0 <= i < |agents| ==> SnapshotOf(agents[i]) == old(SnapshotOf(agents[i]))
    {
      GeneratorOutside(generator, agents);
      var stats := AsDict(CommunityNow());
      g := generator.GenerateRandomEvent(stats, now, draw, pick);
    }

    /** The rest of `_try_generate_random_event` once generation has given `g`: apply the event when there is one. */
    method ApplyGenerated(g: Result<Option<Events.GameEvent>, string>, now: int) returns (outcome: Update)
      requires Valid()
      modifies Objects(), generator
      ensures Valid() && agents == old(agents)
      ensures outcome == UpdateOutcome(g, agents)
      ensures generator.recentEvents == if outcome.EventApplied?
        then Tail(old(generator.recentEvents) + [outcome.event], Events.HistoryLimit)
        else old(generator.recentEvents)
      ensures generator.cooldowns == old(generator.cooldowns)
      ensures outcome.EventApplied? ==>
        forall i :: 0 <= i < |agents| ==> AfterEvent(agents[i], outcome.event, now, old(SnapshotOf(agents[i])))
      ensures !outcome.EventApplied? ==> forall i :: 0 <= i < |agents| ==> SnapshotOf(agents[i]) == old(SnapshotOf(agents[i]))
    {
      if g.Err? {
        return Failed(g.error);
      }
      OutsideFootprint(this, agents);
      if g.value.None? {
        return Updated;
      }
      var e := g.value.value;
      var reactions := ApplyEvent(e, now);
      outcome := EventApplied(e, reactions);
    }
  }

  /** The outcome of an update that tried to generate an event, given what generation gave. */
  function UpdateOutcome(g: Result<Option<Events.GameEvent>, string>, xs: seq<Agents.Agent>): Update
  {
    match g
    case Err(reason) => Failed(reason)
    case Ok(None) => Updated
    case Ok(Some(e)) => EventApplied(e, Reactions(xs, e))
  }
}
