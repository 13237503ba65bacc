/**
  Option and pair selection of the options web app
  (web/src/util/acoFactoryMethods.js): pairs derived from the option list,
  the options of a pair, the option-listing filter and the address lookups.
  The option list itself comes from contract events and is an input here.
 */
module AcoFactory {
  import opened Common

  datatype AssetInfo = AssetInfo(symbol: string, decimals: nat)

  datatype AcoOption = AcoOption(
    acoToken: string,
    underlying: string,
    underlyingInfo: AssetInfo,
    strikeAsset: string,
    strikeAssetInfo: AssetInfo,
    isCall: bool,
    expiryTime: int)

  datatype Pair = Pair(
    id: string,
    underlying: string,
    underlyingInfo: AssetInfo,
    underlyingSymbol: string,
    strikeAsset: string,
    strikeAssetInfo: AssetInfo,
    strikeAssetSymbol: string)

  /** The wall clock in milliseconds and the length of a second in the same unit. */
  datatype Clock = Clock(nowMs: int, oneSecond: int)

  /** The symbol key of an option's pair: underlying symbol, `_`, strike-asset symbol. */
  function PairKey(o: AcoOption): string
  {
    o.underlyingInfo.symbol + "_" + o.strikeAssetInfo.symbol
  }

  function PairOf(o: AcoOption): Pair
  {
    Pair(PairKey(o), o.underlying, o.underlyingInfo, o.underlyingInfo.symbol,
         o.strikeAsset, o.strikeAssetInfo, o.strikeAssetInfo.symbol)
  }

  /** `k` is the first position of an option with pair key `id`. */
  predicate FirstWithKey(options: seq<AcoOption>, k: int, id: string)
  {
    && 0 <= k < |options|
    && PairKey(options[k]) == id
    && forall m :: 0 <= m < k ==> PairKey(options[m]) != id
  }

  predicate HasId(pairs: seq<Pair>, id: string)
  {
    exists i :: 0 <= i < |pairs| && pairs[i].id == id
  }

  /** The pair was built from the first option carrying its key. */
  predicate BuiltFromFirst(options: seq<AcoOption>, p: Pair)
  {
    exists k :: 0 <= k < |options| && FirstWithKey(options, k, p.id) && p == PairOf(options[k])
  }

  lemma HasIdSnoc(pairs: seq<Pair>, p: Pair)
    ensures forall id :: HasId(pairs + [p], id) <==> HasId(pairs, id) || id == p.id
  {
    var q := pairs + [p];
    assert q[|pairs|].id == p.id;
    forall id | HasId(pairs, id)
      ensures HasId(q, id)
    {
      var i :| 0 <= i < |pairs| && pairs[i].id == id;
      assert q[i] == pairs[i];
    }
    forall id | HasId(q, id)
      ensures HasId(pairs, id) || id == p.id
    {
      var i :| 0 <= i < |q| && q[i].id == id;
      if i < |pairs| {
        assert q[i] == pairs[i];
      }
    }
  }

  /** Earlier pairs have keys that first appear earlier in the option list. */
  ghost predicate PairsInFirstOrder(options: seq<AcoOption>, pairs: seq<Pair>)
  {
    forall i, j, a, b :: 0 <= i < j < |pairs| && FirstWithKey(options, a, pairs[i].id) && FirstWithKey(options, b, pairs[j].id)
      ==> a < b
  }

  /** Every pair's key first appears before position `n`. */
  ghost predicate FirstPositionsBelow(options: seq<AcoOption>, pairs: seq<Pair>, n: int)
  {
    forall i, a :: 0 <= i < |pairs| && FirstWithKey(options, a, pairs[i].id) ==> a < n
  }

  predicate DistinctIds(pairs: seq<Pair>)
  {
    forall i, j :: 0 <= i < j < |pairs| ==> pairs[i].id != pairs[j].id
  }

  ghost predicate AllBuiltFromFirst(options: seq<AcoOption>, pairs: seq<Pair>)
  {
    forall i :: 0 <= i < |pairs| ==> BuiltFromFirst(options, pairs[i])
  }

  /** Every key among the first `n` options has a pair. */
  ghost predicate CoversFirst(options: seq<AcoOption>, n: int, pairs: seq<Pair>)
    requires 0 <= n <= |options|
  {
    forall k :: 0 <= k < n ==> HasId(pairs, PairKey(options[k]))
  }

  /** What the pairs built from the first `n` options satisfy. */
  ghost predicate PairsSoFar(options: seq<AcoOption>, n: int, pairs: seq<Pair>)
    requires 0 <= n <= |options|
  {
    && DistinctIds(pairs)
    && AllBuiltFromFirst(options, pairs)
    && CoversFirst(options, n, pairs)
    && FirstPositionsBelow(options, pairs, n)
    && PairsInFirstOrder(options, pairs)
  }

  lemma FirstWithKeyUnique(options: seq<AcoOption>, a: int, b: int, id: string)
    requires FirstWithKey(options, a, id) && FirstWithKey(options, b, id)
    ensures a == b
  {
  }

  lemma PairsSoFarStep(options: seq<AcoOption>, n: int, pairs: seq<Pair>)
    requires 0 <= n < |options| && PairsSoFar(options, n, pairs)
    ensures HasId(pairs, PairKey(options[n])) ==> PairsSoFar(options, n + 1, pairs)
    ensures !HasId(pairs, PairKey(options[n])) ==> PairsSoFar(options, n + 1, pairs + [PairOf(options[n])])
  {
    var key := PairKey(options[n]);
    if HasId(pairs, key) {
      assert CoversFirst(options, n + 1, pairs);
      assert FirstPositionsBelow(options, pairs, n + 1);
    } else {
      var p := PairOf(options[n]);
      assert forall m :: 0 <= m < n ==> PairKey(options[m]) != key by {
        assert CoversFirst(options, n, pairs);
      }
      assert FirstWithKey(options, n, key);
      assert BuiltFromFirst(options, p);
      AppendKeepsDistinctAndBuilt(options, pairs, p);
      AppendCovers(options, n, pairs, p);
      AppendKeepsFirstOrder(options, n, pairs, p);
    }
  }

  lemma AppendKeepsDistinctAndBuilt(options: seq<AcoOption>, pairs: seq<Pair>, p: Pair)
    requires DistinctIds(pairs) && AllBuiltFromFirst(options, pairs)
    requires !HasId(pairs, p.id) && BuiltFromFirst(options, p)
    ensures DistinctIds(pairs + [p]) && AllBuiltFromFirst(options, pairs + [p])
  {
    var q := pairs + [p];
    assert forall i :: 0 <= i < |pairs| ==> q[i] == pairs[i];
    assert q[|pairs|] == p;
  }

  lemma AppendCovers(options: seq<AcoOption>, n: int, pairs: seq<Pair>, p: Pair)
    requires 0 <= n < |options| && CoversFirst(options, n, pairs) && p.id == PairKey(options[n])
    ensures CoversFirst(options, n + 1, pairs + [p])
  {
    HasIdSnoc(pairs, p);
  }

  /** Appending the pair of a key first seen at `n` keeps the pairs in first-appearance order. */
  lemma AppendKeepsFirstOrder(options: seq<AcoOption>, n: int, pairs: seq<Pair>, p: Pair)
    requires FirstWithKey(options, n, p.id)
    requires FirstPositionsBelow(options, pairs, n) && PairsInFirstOrder(options, pairs)
    ensures FirstPositionsBelow(options, pairs + [p], n + 1) && PairsInFirstOrder(options, pairs + [p])
  {
    var q := pairs + [p];
    assert forall i :: 0 <= i < |pairs| ==> q[i] == pairs[i];
    forall i, a | 0 <= i < |q| && FirstWithKey(options, a, q[i].id)
      ensures a < n + 1
    {
      if i == |pairs| {
        FirstWithKeyUnique(options, a, n, p.id);
      }
    }
    forall i, j, a, b | 0 <= i < j < |q| && FirstWithKey(options, a, q[i].id) && FirstWithKey(options, b, q[j].id)
      ensures a < b
    {
      if j == |pairs| {
        FirstWithKeyUnique(options, b, n, p.id);
      }
    }
  }

  /**
    One pair per distinct symbol key, built from the first option with that
    key and listed in the order the keys first appear.
   */
  method GetPairsFromOptions(options: seq<AcoOption>) returns (pairs: seq<Pair>)
    ensures forall i, j :: 0 <= i < j < |pairs| ==> pairs[i].id != pairs[j].id
    ensures forall i :: 0 <= i < |pairs| ==> BuiltFromFirst(options, pairs[i])
    ensures forall k :: 0 <= k < |options| ==> HasId(pairs, PairKey(options[k]))
    ensures PairsInFirstOrder(options, pairs)
  {
    var byId: map<string, Pair> := map[];
    pairs := [];
    for n := 0 to |options|
      invariant forall id :: id in byId <==> HasId(pairs, id)
      invariant PairsSoFar(options, n, pairs)
    {
      var option := options[n];
      var key := PairKey(option);
      PairsSoFarStep(options, n, pairs);
      if key !in byId {
        HasIdSnoc(pairs, PairOf(option));
        byId := byId[key := PairOf(option)];
        pairs := pairs + [PairOf(option)];
      }
    }
  }

  /**
    Whatever satisfies the contract of `GetPairsFromOptions` starts with the
    pair of the first option: the pair the dropdown falls back to.
   */
  lemma FirstPairIsFirstOptionsPair(options: seq<AcoOption>, pairs: seq<Pair>)
    requires |options| > 0
    requires forall i :: 0 <= i < |pairs| ==> BuiltFromFirst(options, pairs[i])
    requires forall k :: 0 <= k < |options| ==> HasId(pairs, PairKey(options[k]))
    requires PairsInFirstOrder(options, pairs)
    ensures |pairs| > 0 && pairs[0] == PairOf(options[0])
  {
    var key := PairKey(options[0]);
    assert HasId(pairs, key);
    var i :| 0 <= i < |pairs| && pairs[i].id == key;
    assert FirstWithKey(options, 0, key);
    var k :| 0 <= k < |options| && FirstWithKey(options, k, pairs[0].id) && pairs[0] == PairOf(options[k]);
    if i > 0 {
      assert false;
    }
    FirstWithKeyUnique(options, k, 0, key);
  }

  /** The option belongs to the pair: same underlying symbol and same strike-asset symbol. */
  predicate InPair(o: AcoOption, pair: Pair)
  {
    o.underlyingInfo.symbol == pair.underlyingSymbol && o.strikeAssetInfo.symbol == pair.strikeAssetSymbol
  }

  function InPairTest(pair: Pair): AcoOption -> bool
  {
    (o: AcoOption) => InPair(o, pair)
  }

  /** Nothing without both an option list and a pair; otherwise the pair's options, in list order. */
  function GetOptionsFromPair(options: Option<seq<AcoOption>>, selectedPair: Option<Pair>): (r: seq<AcoOption>)
    ensures options.None? || selectedPair.None? ==> r == []
    ensures options.Some? && selectedPair.Some? ==>
              && (forall i :: 0 <= i < |r| ==> r[i] in options.value && InPair(r[i], selectedPair.value))
              && (forall i :: 0 <= i < |options.value| && InPair(options.value[i], selectedPair.value) ==>
                    options.value[i] in r)
    ensures options.Some? && selectedPair.Some? ==>
              var idx := Kept(options.value, InPairTest(selectedPair.value));
              |r| == |idx| && forall i :: 0 <= i < |r| ==> r[i] == options.value[idx[i]]
  {
    if options.Some? && selectedPair.Some? then
      FilterKeepsOrder(options.value, InPairTest(selectedPair.value));
      Filter(options.value, InPairTest(selectedPair.value))
    else []
  }

  predicate Unexpired(o: AcoOption, clock: Clock)
  {
    o.expiryTime * clock.oneSecond > clock.nowMs
  }

  /** A falsy option type (null or 0) admits every option, 1 only calls, anything else only puts. */
  predicate TypeAdmits(o: AcoOption, optionType: Option<int>)
  {
    if optionType.None? || optionType.value == 0 then true
    else if optionType.value == 1 then o.isCall
    else !o.isCall
  }

  /** The condition `listOptions` applies to each available option before sorting. */
  predicate ListOptionsAdmits(o: AcoOption, pair: Pair, optionType: Option<int>, removeExpired: bool, clock: Clock)
  {
    InPair(o, pair) && TypeAdmits(o, optionType) && (!removeExpired || Unexpired(o, clock))
  }

  function ListOptionsTest(pair: Pair, optionType: Option<int>, removeExpired: bool, clock: Clock): AcoOption -> bool
  {
    (o: AcoOption) => ListOptionsAdmits(o, pair, optionType, removeExpired, clock)
  }

  /** The options `listOptions` keeps, in list order, before it sorts them. */
  function ListOptions(
    available: seq<AcoOption>, pair: Pair, optionType: Option<int>, removeExpired: bool, clock: Clock)
    : (r: seq<AcoOption>)
    ensures forall i :: 0 <= i < |r| ==> r[i] in available && InPair(r[i], pair)
    ensures optionType == Some(1) ==> forall i :: 0 <= i < |r| ==> r[i].isCall
    ensures optionType.Some? && optionType.value != 0 && optionType.value != 1 ==>
              forall i :: 0 <= i < |r| ==> !r[i].isCall
    ensures removeExpired ==> forall i :: 0 <= i < |r| ==> Unexpired(r[i], clock)
    ensures forall i :: 0 <= i < |available| && ListOptionsAdmits(available[i], pair, optionType, removeExpired, clock)
              ==> available[i] in r
    ensures var idx := Kept(available, ListOptionsTest(pair, optionType, removeExpired, clock));
            |r| == |idx| && forall i :: 0 <= i < |r| ==> r[i] == available[idx[i]]
  {
    KeptOptions(available, pair, optionType, removeExpired, clock);
    Filter(available, ListOptionsTest(pair, optionType, removeExpired, clock))
  }

  lemma KeptOptions(available: seq<AcoOption>, pair: Pair, optionType: Option<int>, removeExpired: bool, clock: Clock)
    ensures var test := ListOptionsTest(pair, optionType, removeExpired, clock);
            var r := Filter(available, test);
            && (forall i :: 0 <= i < |r| ==> r[i] in available && ListOptionsAdmits(r[i], pair, optionType, removeExpired, clock))
            && (forall i :: 0 <= i < |available| && ListOptionsAdmits(available[i], pair, optionType, removeExpired, clock)
                  ==> available[i] in r)
            && var idx := Kept(available, test);
               |r| == |idx| && forall i :: 0 <= i < |r| ==> r[i] == available[idx[i]]
  {
    var test := ListOptionsTest(pair, optionType, removeExpired, clock);
    FilterKeepsOrder(available, test);
    var r := Filter(available, test);
    assert forall i :: 0 <= i < |r| ==> test(r[i]);
  }

  /** Listing every type without the expiry test keeps exactly the options `getOptionsFromPair` keeps. */
  lemma UnfilteredListingIsPairOptions(available: seq<AcoOption>, pair: Pair, clock: Clock)
    ensures ListOptions(available, pair, None, false, clock) == GetOptionsFromPair(Some(available), Some(pair))
  {
    FilterAgrees(available, ListOptionsTest(pair, None, false, clock), InPairTest(pair));
  }

  /** Every call comes before every put. */
  predicate CallsFirst(s: seq<AcoOption>)
  {
    forall i, j :: 0 <= i < j < |s| && s[j].isCall ==> s[i].isCall
  }

  /**
    What `sortByDesc(options, "isCall")` is relied on for: it reorders its
    argument, keeping every element as often as it occurs, and puts the
    calls first.
   */
  ghost predicate SortsCallsFirst(sortByDesc: seq<AcoOption> -> seq<AcoOption>)
  {
    forall s :: multiset(sortByDesc(s)) == multiset(s) && CallsFirst(sortByDesc(s))
  }

  /** `listOptions`: the kept options, reordered with the calls first. */
  function SortedListOptions(
    available: seq<AcoOption>, pair: Pair, optionType: Option<int>, removeExpired: bool, clock: Clock,
    sortByDesc: seq<AcoOption> -> seq<AcoOption>)
    : (r: seq<AcoOption>)
    requires SortsCallsFirst(sortByDesc)
    ensures CallsFirst(r)
    ensures multiset(r) == multiset(ListOptions(available, pair, optionType, removeExpired, clock))
    ensures forall o :: o in r <==> o in available && ListOptionsAdmits(o, pair, optionType, removeExpired, clock)
  {
    var kept := ListOptions(available, pair, optionType, removeExpired, clock);
    var r := sortByDesc(kept);
    assert multiset(r) == multiset(kept);
    forall o
      ensures o in r <==> o in available && ListOptionsAdmits(o, pair, optionType, removeExpired, clock)
    {
      assert o in r <==> o in multiset(r);
      assert o in kept <==> o in multiset(kept);
      if o in kept {
        var i :| 0 <= i < |kept| && kept[i] == o;
        var idx := Kept(available, ListOptionsTest(pair, optionType, removeExpired, clock));
        assert ListOptionsTest(pair, optionType, removeExpired, clock)(available[idx[i]]);
      }
      if o in available && ListOptionsAdmits(o, pair, optionType, removeExpired, clock) {
        var k :| 0 <= k < |available| && available[k] == o;
        assert o in kept;
      }
    }
    r
  }

  /** The listing of all options of a pair is exactly the union of its calls (type 1) and its puts (type 2). */
  lemma CallsAndPutsPartitionListing(available: seq<AcoOption>, pair: Pair, removeExpired: bool, clock: Clock, o: AcoOption)
    requires o in available
    ensures (o in ListOptions(available, pair, None, removeExpired, clock))
              <==> (o in ListOptions(available, pair, Some(1), removeExpired, clock)
                    || o in ListOptions(available, pair, Some(2), removeExpired, clock))
    ensures !(o in ListOptions(available, pair, Some(1), removeExpired, clock)
              && o in ListOptions(available, pair, Some(2), removeExpired, clock))
  {
    var k :| 0 <= k < |available| && available[k] == o;
    var all := ListOptions(available, pair, None, removeExpired, clock);
    var calls := ListOptions(available, pair, Some(1), removeExpired, clock);
    var puts := ListOptions(available, pair, Some(2), removeExpired, clock);
    if o in all {
      var i :| 0 <= i < |all| && all[i] == o;
      assert ListOptionsAdmits(available[k], pair, Some(1), removeExpired, clock)
          || ListOptionsAdmits(available[k], pair, Some(2), removeExpired, clock);
    }
    if o in calls {
      var i :| 0 <= i < |calls| && calls[i] == o;
      assert ListOptionsAdmits(available[k], pair, None, removeExpired, clock);
    }
    if o in puts {
      var i :| 0 <= i < |puts| && puts[i] == o;
      assert ListOptionsAdmits(available[k], pair, None, removeExpired, clock);
    }
  }

  /** The address test of `getOption`: same token address ignoring case and, if asked, not expired. */
  function AddressTest(address: string, removeExpired: bool, clock: Clock): AcoOption -> bool
  {
    (o: AcoOption) => SameIgnoringCase(o.acoToken, address) && (!removeExpired || Unexpired(o, clock))
  }

  /** The first option with the given token address (ignoring case) that passes the expiry test, or null. */
  function GetOption(available: seq<AcoOption>, address: string, removeExpired: bool, clock: Clock)
    : (r: Option<AcoOption>)
    ensures r.None? <==>
              forall i :: 0 <= i < |available| ==>
                !(SameIgnoringCase(available[i].acoToken, address) && (!removeExpired || Unexpired(available[i], clock)))
    ensures r.Some? ==>
              exists k :: 0 <= k < |available| && available[k] == r.value
                && SameIgnoringCase(r.value.acoToken, address) && (!removeExpired || Unexpired(r.value, clock))
                && forall m :: 0 <= m < k ==> !AddressTest(address, removeExpired, clock)(available[m])
  {
    match FindFirst(available, AddressTest(address, removeExpired, clock))
    case None => None
    case Some(k) => Some(available[k])
  }

  /** The pair key of the first option with the given token address (ignoring case), expired or not, or null. */
  function GetOptionPairIdFromAddress(available: seq<AcoOption>, optionAddress: string): (r: Option<string>)
    ensures r.None? <==> forall i :: 0 <= i < |available| ==> !SameIgnoringCase(available[i].acoToken, optionAddress)
    ensures r.Some? ==>
              exists k :: 0 <= k < |available| && PairKey(available[k]) == r.value
                && SameIgnoringCase(available[k].acoToken, optionAddress)
  {
    match FindFirst(available, AddressTest(optionAddress, false, Clock(0, 0)))
    case None => None
    case Some(k) => Some(PairKey(available[k]))
  }

  /** Without the expiry test, the pair-id lookup names the pair of exactly the option `getOption` finds. */
  lemma PairIdLookupAgreesWithGetOption(available: seq<AcoOption>, address: string, clock: Clock)
    ensures GetOptionPairIdFromAddress(available, address)
              == (match GetOption(available, address, false, clock)
                  case None => None
                  case Some(o) => Some(PairKey(o)))
  {
    var a := FindFirst(available, AddressTest(address, false, Clock(0, 0)));
    var b := FindFirst(available, AddressTest(address, false, clock));
    assert forall i :: 0 <= i < |available| ==>
      AddressTest(address, false, Clock(0, 0))(available[i]) == AddressTest(address, false, clock)(available[i]);
    if a.Some? && b.Some? {
      assert a.value == b.value;
    }
  }
}
