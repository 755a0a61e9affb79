/**
 * Participant selection shared by the three chat handlers: every resident
 * whose participation score is above the threshold becomes a candidate, the
 * candidates are sorted by descending score (stable, so ties keep profile
 * order) and the list is cut to the cap. Random draws arrive as parameters.
 */
module Selection {
  import opened Sorting
  import opened Text

  /** A resident id with its participation score. */
  datatype Candidate = Candidate(id: string, score: real)

  /** The participation threshold of all three handlers. */
  const Threshold: real := 0.3

  /** `max(lo, min(hi, x))`. */
  function Clamp(x: real, lo: real, hi: real): (r: real)
    requires lo <= hi
    ensures lo <= r <= hi
    ensures lo <= x <= hi ==> r == x
    ensures x < lo ==> r == lo
    ensures x > hi ==> r == hi
  {
    if x < lo then lo else if x > hi then hi else x
  }

  /** `random.randint(lo, hi)`, driven by an arbitrary draw `roll`. */
  function RandInt(lo: int, hi: int, roll: nat): (r: int)
    requires lo <= hi
    ensures lo <= r <= hi
  {
    lo + roll % (hi - lo + 1)
  }

  /** Every value of `[lo, hi]` is some draw's result, so the model loses no outcome of `randint`. */
  lemma RandIntCovers(lo: int, hi: int, v: int)
    requires lo <= v <= hi
    ensures exists roll: nat :: RandInt(lo, hi, roll) == v
  {
    assert RandInt(lo, hi, (v - lo) as nat) == v;
  }

  /** The sort key: the score, highest first. */
  function ByScore(c: Candidate): Rank
  {
    Rank(c.score, 0.0)
  }

  /** The candidates whose score exceeds the threshold, in input order. */
  function Eligible(scored: seq<Candidate>): (r: seq<Candidate>)
    ensures |r| <= |scored|
  {
    if scored == [] then []
    else
      var init := scored[..|scored| - 1];
      var last := scored[|scored| - 1];
      Eligible(init) + (if last.score > Threshold then [last] else [])
  }

  /** The eligible candidates are drawn from the input, all score above the threshold, and none scoring above it is missing. */
  lemma EligibleSpec(scored: seq<Candidate>)
    ensures multiset(Eligible(scored)) <= multiset(scored)
    ensures forall j :: 0 <= j < |Eligible(scored)| ==> Eligible(scored)[j].score > Threshold
    ensures forall c :: c in scored && c.score > Threshold ==> c in Eligible(scored)
  {
    EligibleFromInput(scored);
    EligibleAbove(scored);
    EligibleComplete(scored);
  }

  lemma {:induction false} EligibleFromInput(scored: seq<Candidate>)
    ensures multiset(Eligible(scored)) <= multiset(scored)
  {
    if scored != [] {
      var init := scored[..|scored| - 1];
      var last := scored[|scored| - 1];
      assert scored == init + [last];
      EligibleFromInput(init);
      assert multiset(scored) == multiset(init) + multiset([last]);
    }
  }

  /** Every eligible candidate scores above the threshold. */
  predicate AllAbove(xs: seq<Candidate>)
  {
    forall j :: 0 <= j < |xs| ==> xs[j].score > Threshold
  }

  lemma AllAboveJoin(a: seq<Candidate>, b: seq<Candidate>)
    requires AllAbove(a) && AllAbove(b)
    ensures AllAbove(a + b)
  {
    assert forall j :: 0 <= j < |a| + |b| ==> (a + b)[j] == if j < |a| then a[j] else b[j - |a|];
  }

  lemma {:induction false} EligibleAbove(scored: seq<Candidate>)
    ensures AllAbove(Eligible(scored))
  {
    if scored != [] {
      var init := scored[..|scored| - 1];
      var last := scored[|scored| - 1];
      EligibleAbove(init);
      AllAboveJoin(Eligible(init), if last.score > Threshold then [last] else []);
    }
  }

  lemma {:induction false} EligibleComplete(scored: seq<Candidate>)
    ensures forall c :: c in scored && c.score > Threshold ==> c in Eligible(scored)
  {
    if scored != [] {
      var init := scored[..|scored| - 1];
      var last := scored[|scored| - 1];
      assert scored == init + [last];
      EligibleComplete(init);
    }
  }

  /** The selection: the eligible candidates, stably sorted by descending score, cut to `cap`. */
  function Selected(scored: seq<Candidate>, cap: nat): (chosen: seq<Candidate>)
    ensures |chosen| == if cap < |Eligible(scored)| then cap else |Eligible(scored)|
  {
    SliceTo(Sort(Eligible(scored), ByScore), cap)
  }

  /** `_select_participating_agents`: the threshold filter loop, then the sort and the cut. */
  method SelectTop(scored: seq<Candidate>, cap: nat) returns (chosen: seq<Candidate>)
    ensures chosen == Selected(scored, cap)
    ensures |chosen| <= cap
  {
    var candidates := FilterEligible(scored);
    chosen := SliceTo(Sort(candidates, ByScore), cap);
  }

  /** The filter loop: the candidates above the threshold, in input order. */
  method FilterEligible(scored: seq<Candidate>) returns (candidates: seq<Candidate>)
    ensures candidates == Eligible(scored)
  {
    candidates := [];
    var i := 0;
    while i < |scored|
      invariant 0 <= i <= |scored|
      invariant candidates == Eligible(scored[..i])
    {
      assert scored[..i + 1][..i] == scored[..i];
      if scored[i].score > Threshold {
        candidates := candidates + [scored[i]];
      }
      i := i + 1;
    }
    assert scored[..|scored|] == scored;
  }

  /** Every selected resident comes from the input. */
  lemma SelectedFromInput(scored: seq<Candidate>, cap: nat)
    ensures multiset(Selected(scored, cap)) <= multiset(scored)
  {
    EligibleSpec(scored);
    var sorted := Sort(Eligible(scored), ByScore);
    var chosen := SliceTo(sorted, cap);
    assert sorted == chosen + sorted[|chosen|..];
  }

  /** Every selected resident scores strictly above the threshold. */
  lemma SelectedAboveThreshold(scored: seq<Candidate>, cap: nat)
    ensures forall j :: 0 <= j < |Selected(scored, cap)| ==> Selected(scored, cap)[j].score > Threshold
  {
    EligibleSpec(scored);
    var eligible := Eligible(scored);
    var sorted := Sort(eligible, ByScore);
    var chosen := SliceTo(sorted, cap);
    forall j | 0 <= j < |chosen| ensures chosen[j].score > Threshold {
      assert chosen[j] == sorted[j];
      assert sorted[j] in multiset(eligible);
    }
  }

  /** The selection is in descending score order. */
  lemma SelectedDescending(scored: seq<Candidate>, cap: nat)
    ensures forall i, j :: 0 <= i < j < |Selected(scored, cap)| ==>
      Selected(scored, cap)[i].score >= Selected(scored, cap)[j].score
  {
    var sorted := Sort(Eligible(scored), ByScore);
    SortOrdered(Eligible(scored), ByScore);
    var chosen := SliceTo(sorted, cap);
    assert forall m :: 0 <= m < |chosen| ==> sorted[m] == chosen[m];
  }

  /** No eligible resident left out of the selection scores above a selected one. */
  lemma SelectedAreBest(scored: seq<Candidate>, cap: nat, c: Candidate, j: nat)
    requires c in scored && c.score > Threshold
    requires c !in Selected(scored, cap) && j < |Selected(scored, cap)|
    ensures c.score <= Selected(scored, cap)[j].score
  {
    EligibleSpec(scored);
    var eligible := Eligible(scored);
    var sorted := Sort(eligible, ByScore);
    SortOrdered(eligible, ByScore);
    var chosen := SliceTo(sorted, cap);
    assert c in multiset(sorted);
    var k :| 0 <= k < |sorted| && sorted[k] == c;
    assert forall m :: 0 <= m < |chosen| ==> sorted[m] == chosen[m];
    assert k >= |chosen|;
    assert !Outranks(ByScore(sorted[k]), ByScore(sorted[j]));
  }

  /** Residents with equal scores appear in the selection in their input order. */
  lemma {:induction false} SelectionKeepsTies(scored: seq<Candidate>, s: real)
    ensures WithRank(Sort(Eligible(scored), ByScore), ByScore, Rank(s, 0.0))
      == WithRank(Eligible(scored), ByScore, Rank(s, 0.0))
  {
    SortStable(Eligible(scored), ByScore, Rank(s, 0.0));
  }
}
