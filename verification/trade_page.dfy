/**
  The advanced-mode trade page of the options web app
  (web/src/pages/Trade.js): its initial state, which option the route
  selects once the pair's options are loaded, the state and route after
  selecting an option or an expiry, and which reaction an update
  triggers. Balances and the embedded trade widget are loaded through
  I/O and appear only as the option handed to the widget.
 */
module TradePage {
  import opened Common
  import opened AcoFactory
  import opened NavBar

  /** `selectedExpiryTime`: the "all" key, null, or an expiry time. */
  datatype ExpiryFilter = AllOptions | Unset | ExpiringAt(expiryTime: int)

  datatype TradeState = TradeState(
    options: Option<seq<AcoOption>>,
    balances: map<string, int>,
    selectedExpiryTime: ExpiryFilter,
    selectedOption: Option<AcoOption>)

  function InitialState(): (r: TradeState)
    ensures r.options.None? && r.balances == map[] && r.selectedExpiryTime == AllOptions && r.selectedOption.None?
  {
    TradeState(None, map[], AllOptions, None)
  }

  function MatchesToken(tokenAddress: string): AcoOption -> bool
  {
    (o: AcoOption) => Lower(o.acoToken) == Lower(tokenAddress)
  }

  /**
    `selectOption`: the first option whose token address equals the route's,
    both lower-cased; none when the route has no token address or nothing matches.
   */
  function SelectOption(options: seq<AcoOption>, tokenAddress: Option<string>): (r: Option<AcoOption>)
    ensures r.None? <==>
              tokenAddress.None? || forall i :: 0 <= i < |options| ==> Lower(options[i].acoToken) != Lower(tokenAddress.value)
    ensures r.Some? ==>
              exists k :: 0 <= k < |options| && options[k] == r.value
                && Lower(r.value.acoToken) == Lower(tokenAddress.value)
                && forall j :: 0 <= j < k ==> Lower(options[j].acoToken) != Lower(tokenAddress.value)
  {
    if tokenAddress.None? then None
    else match FindFirst(options, MatchesToken(tokenAddress.value))
      case None => None
      case Some(k) => Some(options[k])
  }

  /** Selecting by route token is the expiry-blind address lookup of the option list. */
  lemma SelectOptionIsGetOption(options: seq<AcoOption>, tokenAddress: string, clock: Clock)
    ensures SelectOption(options, Some(tokenAddress)) == GetOption(options, tokenAddress, false, clock)
  {
    var a := FindFirst(options, MatchesToken(tokenAddress));
    var b := FindFirst(options, AddressTest(tokenAddress, false, clock));
    assert forall i :: 0 <= i < |options| ==>
      MatchesToken(tokenAddress)(options[i]) == AddressTest(tokenAddress, false, clock)(options[i]);
    if a.Some? && b.Some? {
      assert a.value == b.value;
    }
  }

  const TradeBase: string := "/advanced/trade/"

  /** The trade route of a pair, followed by "/" and the token address when an option is selected. */
  function TradeRoute(pair: Pair, option: Option<AcoOption>): (r: string)
    ensures |r| >= |TradeBase| + |pair.id| && r[..|TradeBase| + |pair.id|] == TradeBase + pair.id
    ensures option.None? <==> |r| == |TradeBase| + |pair.id|
    ensures option.Some? ==> r[|TradeBase| + |pair.id|..] == "/" + option.value.acoToken
  {
    TradeBase + pair.id + (if option.Some? then "/" + option.value.acoToken else "")
  }

  /** The new state, the route pushed, and the option whose market the trade widget is mounted with. */
  datatype Effects = Effects(state: TradeState, route: string, mountedMarket: Option<AcoOption>)

  /** `onSelectOption`: select the option (or none) and move the route with it. */
  function OnSelectOption(state: TradeState, pair: Pair, option: Option<AcoOption>): (r: Effects)
    ensures r.state.selectedOption == option
    ensures r.state.selectedExpiryTime == if option.Some? then Unset else AllOptions
    ensures r.state.options == state.options && r.state.balances == state.balances
    ensures r.route == TradeRoute(pair, option)
    ensures r.mountedMarket == option
  {
    Effects(
      state.(selectedOption := option, selectedExpiryTime := if option.Some? then Unset else AllOptions),
      TradeRoute(pair, option),
      option)
  }

  /** `onSelectExpiryTime`: filter by the expiry, drop the selected option and route to the pair alone. */
  function OnSelectExpiryTime(state: TradeState, pair: Pair, expiry: ExpiryFilter): (r: Effects)
    ensures r.state.selectedExpiryTime == expiry && r.state.selectedOption.None?
    ensures r.state.options == state.options && r.state.balances == state.balances
    ensures r.route == TradeBase + pair.id
    ensures r.mountedMarket.None?
  {
    Effects(state.(selectedExpiryTime := expiry, selectedOption := None), TradeRoute(pair, None), None)
  }

  /** Choosing an expiry lands on the same route and option as deselecting, differing only in the filter. */
  lemma ExpiryChoiceIsDeselectWithFilter(state: TradeState, pair: Pair, expiry: ExpiryFilter)
    ensures var byExpiry := OnSelectExpiryTime(state, pair, expiry);
            var deselect := OnSelectOption(state, pair, None);
            byExpiry.route == deselect.route
            && byExpiry.state == deselect.state.(selectedExpiryTime := expiry)
  {
  }

  /**
    `loadOptions` followed by `selectOption`: with a selected pair, list its
    unexpired options of both types, calls first, and select the one the route names.
   */
  function LoadOptions(
    state: TradeState, selectedPair: Option<Pair>, available: seq<AcoOption>, clock: Clock, tokenAddress: Option<string>,
    sortByDesc: seq<AcoOption> -> seq<AcoOption>)
    : (r: Option<Effects>)
    requires SortsCallsFirst(sortByDesc)
    ensures r.None? <==> selectedPair.None?
    ensures r.Some? ==>
              r.value.state.options == Some(SortedListOptions(available, selectedPair.value, None, true, clock, sortByDesc))
    ensures r.Some? && r.value.state.selectedOption.Some? ==>
              var o := r.value.state.selectedOption.value;
              o in available && InPair(o, selectedPair.value) && Unexpired(o, clock)
              && tokenAddress.Some? && Lower(o.acoToken) == Lower(tokenAddress.value)
              && r.value.route == TradeBase + selectedPair.value.id + "/" + o.acoToken
    ensures r.Some? && r.value.state.selectedOption.None? ==>
              r.value.state.selectedExpiryTime == AllOptions && r.value.route == TradeBase + selectedPair.value.id
  {
    if selectedPair.None? then None
    else
      var options := SortedListOptions(available, selectedPair.value, None, true, clock, sortByDesc);
      var selected := SelectOption(options, tokenAddress);
      SelectedIsListed(options, available, selectedPair.value, clock, tokenAddress, sortByDesc);
      Some(OnSelectOption(state.(options := Some(options)), selectedPair.value, selected))
  }

  lemma SelectedIsListed(
    options: seq<AcoOption>, available: seq<AcoOption>, pair: Pair, clock: Clock, tokenAddress: Option<string>,
    sortByDesc: seq<AcoOption> -> seq<AcoOption>)
    requires SortsCallsFirst(sortByDesc)
    requires options == SortedListOptions(available, pair, None, true, clock, sortByDesc)
    ensures var selected := SelectOption(options, tokenAddress);
            selected.Some? ==>
              && selected.value in available && InPair(selected.value, pair) && Unexpired(selected.value, clock)
              && tokenAddress.Some? && Lower(selected.value.acoToken) == Lower(tokenAddress.value)
  {
    var selected := SelectOption(options, tokenAddress);
    if selected.Some? {
      var k :| 0 <= k < |options| && options[k] == selected.value;
      assert ListOptionsAdmits(selected.value, pair, None, true, clock);
    }
  }

  /**
    Since the listing puts calls first, the route selects a put only when
    no listed call carries the route's token address.
   */
  lemma SelectionPrefersCalls(options: seq<AcoOption>, tokenAddress: Option<string>)
    requires CallsFirst(options)
    ensures var selected := SelectOption(options, tokenAddress);
            selected.Some? && !selected.value.isCall ==>
              forall i :: 0 <= i < |options| && options[i].isCall ==>
                Lower(options[i].acoToken) != Lower(tokenAddress.value)
  {
    var selected := SelectOption(options, tokenAddress);
    if selected.Some? && !selected.value.isCall {
      var k :| 0 <= k < |options| && options[k] == selected.value
               && forall j :: 0 <= j < k ==> Lower(options[j].acoToken) != Lower(tokenAddress.value);
      forall i | 0 <= i < |options| && options[i].isCall
        ensures Lower(options[i].acoToken) != Lower(tokenAddress.value)
      {
        if k < i {
          assert false;
        }
      }
    }
  }

  datatype TradeProps = TradeProps(selectedPair: Option<Pair>, accountToggle: bool, tokenAddress: Option<string>)

  datatype UpdateReaction = ReloadOptions | ReloadOptionsData | Deselect | NoReaction

  /** `componentDidUpdate`: a pair change wins over an account change, which wins over a dropped token. */
  function DidUpdate(prev: TradeProps, props: TradeProps): (r: UpdateReaction)
    ensures r == ReloadOptions <==> props.selectedPair != prev.selectedPair
    ensures r == ReloadOptionsData <==>
              props.selectedPair == prev.selectedPair && props.accountToggle != prev.accountToggle
    ensures r == Deselect <==>
              props.selectedPair == prev.selectedPair && props.accountToggle == prev.accountToggle
              && !Truthy(props.tokenAddress) && Truthy(prev.tokenAddress)
  {
    if props.selectedPair != prev.selectedPair then ReloadOptions
    else if props.accountToggle != prev.accountToggle then ReloadOptionsData
    else if !Truthy(props.tokenAddress) && Truthy(prev.tokenAddress) then Deselect
    else NoReaction
  }

  datatype MountReaction = GoHome | LoadPairOptions

  /** `componentDidMount`: without a connected account on the right network the page sends the user home. */
  function DidMount(web3: Option<Web3>): (r: MountReaction)
    ensures r == GoHome <==> !Connected(web3)
  {
    if !Connected(web3) then GoHome else LoadPairOptions
  }
}
