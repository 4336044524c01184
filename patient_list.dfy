/** `PatientList` (src/components/PatientList.tsx): the search filter, the
    slice of cards shown, the "Show More" / "Show Less" counter and the
    visibility of the two buttons. */
module List {
  import opened Text
  import opened Records

  /** The number of cards on the first page, and the threshold for "Show Less". */
  const InitialCount: nat := 12
  /** How many cards one click adds or removes. */
  const Step: nat := 6
  /** `Math.max(prevCount - 6, 10)`: the floor of "Show Less". */
  const LessFloor: nat := 10

  /** Every patient has a `name`; `patient.name.toLowerCase()` throws otherwise. */
  predicate AllNamed(ps: seq<Record>) {
    forall i :: 0 <= i < |ps| ==> "name" in ps[i].values
  }

  /** `patient.name.toLowerCase().includes(searchQuery.toLowerCase())` */
  predicate Matches(p: Record, query: string)
    requires "name" in p.values
  {
    Contains(Lower(p.values["name"]), Lower(query))
  }

  /** `patients.filter(...)`: the matching patients, in their order. */
  function Filtered(ps: seq<Record>, query: string): (r: seq<Record>)
    requires AllNamed(ps)
    ensures |r| <= |ps| && AllNamed(r)
    ensures forall p :: p in r ==> p in ps && Matches(p, query)
    ensures forall i :: 0 <= i < |ps| && Matches(ps[i], query) ==> ps[i] in r
  {
    if ps == [] then []
    else
      var rest := Filtered(ps[1..], query);
      assert forall i :: 1 <= i < |ps| ==> ps[i] == ps[1..][i - 1];
      if Matches(ps[0], query) then [ps[0]] + rest else rest
  }

  /** Filtering keeps order: the result for a concatenation is the
      concatenation of the results. */
  lemma {:induction false} FilteredAppend(a: seq<Record>, b: seq<Record>, query: string)
    requires AllNamed(a) && AllNamed(b)
    ensures AllNamed(a + b)
    ensures Filtered(a + b, query) == Filtered(a, query) + Filtered(b, query)
  {
    assert AllNamed(a + b) by {
      forall i | 0 <= i < |a + b| ensures "name" in (a + b)[i].values {
        if i >= |a| { assert (a + b)[i] == b[i - |a|]; }
      }
    }
    if a == [] {
      assert a + b == b;
    } else {
      assert (a + b)[0] == a[0];
      assert (a + b)[1..] == a[1..] + b;
      assert AllNamed(a[1..]);
      FilteredAppend(a[1..], b, query);
    }
  }

  /** An empty search box keeps every patient. */
  lemma {:induction false} FilteredEmptyQuery(ps: seq<Record>)
    requires AllNamed(ps)
    ensures Filtered(ps, "") == ps
  {
    if ps != [] {
      ContainsEmpty(Lower(ps[0].values["name"]));
      assert AllNamed(ps[1..]);
      FilteredEmptyQuery(ps[1..]);
    }
  }

  /** `filteredPatients.slice(0, visibleCount)`: the first `visibleCount`
      cards, or all of them when there are fewer. */
  function Shown(filtered: seq<Record>, visibleCount: nat): (r: seq<Record>)
    ensures |r| <= visibleCount && |r| <= |filtered| && r == filtered[..|r|]
    ensures |r| == visibleCount || r == filtered
  {
    if visibleCount < |filtered| then filtered[..visibleCount] else filtered
  }

  /** The cards on screen for a list, a query and a counter. */
  function DisplayedCards(ps: seq<Record>, query: string, visibleCount: nat): seq<Record>
    requires AllNamed(ps)
  {
    Shown(Filtered(ps, query), visibleCount)
  }

  /** "Show More": `Math.min(prevCount + 6, patients.length)`. */
  function MoreCount(count: nat, total: nat): (r: nat)
    ensures r <= total && r <= count + Step
    ensures r == count + Step || r == total
    ensures count < total ==> count < r
  {
    if count + Step < total then count + Step else total
  }

  /** "Show Less": `Math.max(prevCount - 6, 10)`. */
  function LessCount(count: nat): (r: nat)
    ensures LessFloor <= r && count - Step <= r
    ensures r == count - Step || r == LessFloor
  {
    if count - Step > LessFloor then count - Step else LessFloor
  }

  /** Alternating the buttons away from both bounds returns to the same count. */
  lemma MoreLessInverse(count: nat, total: nat)
    requires LessFloor + Step <= count && count + Step <= total
    ensures LessCount(MoreCount(count, total)) == count
    ensures MoreCount(LessCount(count), total) == count
  {
  }

  /** "Show Less" can go below the initial page: 15 cards become 10, not 12. */
  lemma LessUndershootsInitial()
    ensures LessCount(InitialCount + 3) == LessFloor < InitialCount
  {
  }

  /** `visibleCount < patients.length` (against the unfiltered list). */
  predicate ShowMoreVisible(visibleCount: nat, total: nat) {
    visibleCount < total
  }

  /** `visibleCount > initialCount` */
  predicate ShowLessVisible(visibleCount: nat) {
    visibleCount > InitialCount
  }

  /** `patients.length === 0 || filteredPatients.length < visibleCount`: the
      button container is not displayed. */
  predicate ButtonsHidden(total: nat, filteredCount: nat, visibleCount: nat) {
    total == 0 || filteredCount < visibleCount
  }

  /** After a click, "Show More" stays visible exactly while six more cards
      still leave some out, and "Show Less" stays visible exactly when more
      than 18 cards were showing. */
  lemma ButtonsAfterClick(count: nat, total: nat)
    ensures ShowMoreVisible(MoreCount(count, total), total) <==> count + Step < total
    ensures ShowLessVisible(LessCount(count)) <==> count > InitialCount + Step
  {
  }

  /** While the buttons are displayed, exactly `visibleCount` cards are on
      screen, and clicking a visible "Show More" shows more of them, up to the
      filtered total. */
  lemma ButtonsShownMeansFullPage(ps: seq<Record>, query: string, visibleCount: nat)
    requires AllNamed(ps)
    requires !ButtonsHidden(|ps|, |Filtered(ps, query)|, visibleCount)
    ensures |DisplayedCards(ps, query, visibleCount)| == visibleCount
    ensures ShowMoreVisible(visibleCount, |ps|) && visibleCount < |Filtered(ps, query)| ==>
      |DisplayedCards(ps, query, visibleCount)| < |DisplayedCards(ps, query, MoreCount(visibleCount, |ps|))|
  {
  }

  class PatientList {
    /** How many of the filtered cards are rendered; starts at the first-page size. */
    var visibleCount: nat

    constructor ()
      ensures visibleCount == InitialCount
    {
      visibleCount := InitialCount;
    }

    /** `handleShowMore`, its delayed update taken as one step; the counter
        never passes the number of patients. */
    method HandleShowMore(total: nat)
      modifies this
      ensures visibleCount == MoreCount(old(visibleCount), total)
      ensures visibleCount <= total
    {
      visibleCount := MoreCount(visibleCount, total);
    }

    /** `handleShowLess`, its delayed update taken as one step; the counter
        never drops below 10. */
    method HandleShowLess()
      modifies this
      ensures visibleCount == LessCount(old(visibleCount))
      ensures visibleCount >= LessFloor
    {
      visibleCount := LessCount(visibleCount);
    }
  }
}
