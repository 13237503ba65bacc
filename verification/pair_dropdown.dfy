/**
  The pair selector of the advanced mode navigation bar
  (web/src/partials/PairDropdown.js): when it picks a pair on its own and
  which pair it picks. The pair id read from the route is an input.
 */
module PairDropdown {
  import opened Common
  import opened AcoFactory

  function HasIdTest(id: string): Pair -> bool
  {
    (p: Pair) => p.id == id
  }

  /** The pair whose id the route names, the first one if several share it, else the first pair. */
  function SelectInitialPair(pairs: seq<Pair>, routePairId: Option<string>): (r: Pair)
    requires |pairs| > 0
    ensures r in pairs
    ensures Truthy(routePairId) && (exists i :: 0 <= i < |pairs| && pairs[i].id == routePairId.value) ==>
              r.id == routePairId.value
    ensures !Truthy(routePairId) || (forall i :: 0 <= i < |pairs| ==> pairs[i].id != routePairId.value) ==>
              r == pairs[0]
  {
    if Truthy(routePairId) then
      match FindFirst(pairs, HasIdTest(routePairId.value))
      case Some(k) => pairs[k]
      case None => pairs[0]
    else pairs[0]
  }

  /** Among pairs sharing the route's id, the earliest one is chosen. */
  lemma SelectsEarliestMatch(pairs: seq<Pair>, routePairId: Option<string>, k: int)
    requires 0 <= k < |pairs| && Truthy(routePairId) && pairs[k].id == routePairId.value
    requires forall j :: 0 <= j < k ==> pairs[j].id != routePairId.value
    ensures SelectInitialPair(pairs, routePairId) == pairs[k]
  {
    var f := FindFirst(pairs, HasIdTest(routePairId.value));
    assert HasIdTest(routePairId.value)(pairs[k]);
  }

  /** The initial selection runs when the pairs are loaded and not empty and nothing is selected yet. */
  predicate ShouldSelectInitial(pairs: Option<seq<Pair>>, selectedPair: Option<Pair>)
  {
    pairs.Some? && |pairs.value| > 0 && selectedPair.None?
  }

  /** `componentDidMount`: the pair selected, if the initial selection runs. */
  function DidMount(pairs: Option<seq<Pair>>, selectedPair: Option<Pair>, routePairId: Option<string>)
    : (r: Option<Pair>)
    ensures r.Some? <==> ShouldSelectInitial(pairs, selectedPair)
    ensures r.Some? ==> r.value in pairs.value
  {
    if ShouldSelectInitial(pairs, selectedPair) then Some(SelectInitialPair(pairs.value, routePairId)) else None
  }

  /** `componentDidUpdate`: the mount check runs again exactly when the pairs go from null to loaded. */
  function DidUpdate(
    prevPairs: Option<seq<Pair>>, pairs: Option<seq<Pair>>, selectedPair: Option<Pair>, routePairId: Option<string>)
    : (r: Option<Pair>)
    ensures r.Some? <==> prevPairs.None? && ShouldSelectInitial(pairs, selectedPair)
    ensures r.Some? ==> r == DidMount(pairs, selectedPair, routePairId)
  {
    if prevPairs.None? && pairs.Some? then DidMount(pairs, selectedPair, routePairId) else None
  }

  /** The menu of alternative pairs appears only when more than one pair is loaded. */
  function ShowsPairMenu(pairs: Option<seq<Pair>>): (r: bool)
    ensures r ==> pairs.Some? && |pairs.value| >= 2
    ensures pairs.Some? && |pairs.value| > 1 ==> r
  {
    pairs.Some? && |pairs.value| > 1
  }
}
