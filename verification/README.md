# Options exchange front end: order book, trade planning and navigation

This project is a Dafny model of the decision logic behind two web
front ends of an on-chain options exchange.

The `trade` application shows a 0x order book and turns a buy or sell
request into a sequence of steps the wallet has to run. Modelled here:

- the normalizer, which turns signed orders (optionally with on-chain fill
  information) into UI orders;
- the aggregator, which merges those orders into price levels;
- the balance check;
- the market planner, which asks the matcher how much of the book a request
  takes, re-checks balances at the average price and builds market steps;
- the limit planner, which appends limit-order steps for the rest;
- the small standalone step sequences (token lock toggle, ETH wrapping).

The `web` application lists option pairs and options and lets users trade
and deposit into pools. Modelled here:

- pairs built from the option list;
- option lookup by address, and listing by pair, type and expiry with calls
  sorted first;
- the pool deposit dialog: asset choice, button validation, approval
  decision, and the step numbers and steps-modal contents along every run;
- the navigation bar's basic/advanced mode toggle, with the pair id carried
  along;
- the pair selector's automatic initial choice;
- the advanced trade page's option selection and routing.

Every module is a set of pure functions over immutable datatypes. The only
method is `AcoFactory.GetPairsFromOptions`, whose loop mirrors the source's
loop.

Anything the source obtains by I/O or from code outside these files enters
the model as an input or as a function-typed parameter:

- the store selectors (`StoreState`);
- the 0x asset-data encoder;
- `isWeth`;
- the market matcher `buildMarketOrders`;
- the step generators;
- wallet replies and the nonce;
- the wall clock;
- the route's pair id and token address.

Amounts are exact rationals (`real`) scaled by `Pow10(decimals)`. Balances
and raw order amounts are integers.

Where the code and its documented intent differ, the model follows the code:

- `mergeByPrice` reduces each price group without an initial value. Each
  level therefore takes its side, price and `filled` from the group's first
  order. Only that first order's fill is subtracted, although the intent is
  described as "summed size minus summed filled".
  - `UiOrders.MergeConservesSize` states the exact total the code produces:
    total size minus the first fill of each level.
  - `UiOrders.LaterFillsAtSamePriceAreNotNetted` exhibits two orders at one
    price where the level shows 16 while the net resting size is 13.
- `startBuySellLimitSteps` takes the third element of the market plan as
  `totalFilled`. That element is the filled QUOTE amount, and it is compared
  with and subtracted from the requested base amount. `TradeActions.LimitFlow`
  and `TradeActions.LimitRemainderRequest` state this as written.

## Model

| member | source | states |
|---|---|---|
| Common.IndexOfFromIsFirst | web/src/partials/NavBar.js:36-38 | the search from k returns the first position at or after k where the fragment occurs, and -1 exactly when it occurs nowhere from k on (JavaScript `indexOf` semantics relied on by `isAdvanced` and `changeMode`) |
| Common.IndexOfIsFirst | web/src/partials/NavBar.js:36-38 | `indexOf` is -1 iff the fragment occurs nowhere; otherwise it occurs at the returned index and at no earlier index |
| Common.IndexOfPositive | web/src/partials/NavBar.js:36-38 | a test `indexOf(p) > 0` holds iff p occurs somewhere but not at position 0 |
| UiOrders.WithoutInfoOrder | trade/src/util/ui_orders.ts:22-39 | Buy exactly when the taker asset is the base token. Size is the maker amount for Sell and the taker amount for Buy. Price is taker/maker for Sell and maker/taker for Buy. No fill, no status, raw order kept |
| UiOrders.OrdersToUIOrdersWithoutOrderInfo | trade/src/util/ui_orders.ts:19-41 | one UI order per signed order, position by position. Each keeps its raw order and has no fill or status. Each is a Buy exactly when its taker asset is the base token's encoded asset data. Its size is the maker amount for a Sell and the taker amount for a Buy, and its price times that size gives the other amount |
| UiOrders.WithInfoOrder | trade/src/util/ui_orders.ts:58-89 | same side and size rule. Status is the on-chain status. A Buy's fill is the taker-filled amount. A Sell's fill is the taker-filled amount carried over to the maker amount in proportion (the price is stated by `UiOrders.WithInfoPriceRescales`) |
| UiOrders.OrdersToUIOrdersWithOrdersInfo | trade/src/util/ui_orders.ts:44-90 | fails, with both lengths in the error, exactly when the info list is not aligned with the orders. Otherwise one UI order per position, paired with the info at the same position. Each keeps its raw order and takes that info's status. Side and size follow the rule above. A Buy's fill is the info's taker fill, and a Sell's fill is that fill carried over to the maker amount in proportion |
| UiOrders.OrdersToUIOrders | trade/src/util/ui_orders.ts:10-16 | the on-chain path is taken exactly when both the order info and the quote token are given |
| UiOrders.SellBuyPricesReciprocal | trade/src/util/ui_orders.ts:27-30 | for the same amounts, the Sell price and the Buy price multiply to one |
| UiOrders.MirrorKeepsPriceAndSize | trade/src/util/ui_orders.ts:23-30 | an order selling base and its mirror, which buys base, get opposite sides but the same size and the same quote-per-base price |
| UiOrders.PathsAgreeOnSideAndSize | trade/src/util/ui_orders.ts:63-65 | with or without on-chain info, an order gets the same side and the same size |
| UiOrders.RescaledRatioPrice | trade/src/util/ui_orders.ts:76-78 | pricing amounts after converting both to whole tokens multiplies the raw ratio by 10^(dm-dt) for Sell and by 10^(dt-dm) for Buy |
| UiOrders.WithInfoPriceRescales | trade/src/util/ui_orders.ts:67-78 | the on-chain price equals the raw-ratio price of the info-less path, rescaled by the two assets' decimals |
| UiOrders.OrderPathsAgree | trade/src/util/ui_orders.ts:22-89 | for one order, both paths give the same raw order, side and size. The on-chain price is the raw price times 10^dm/10^dt for a Sell and 10^dt/10^dm for a Buy, where dm and dt are the maker's and taker's decimals |
| UiOrders.NormalizedListsAgree | trade/src/util/ui_orders.ts:19-90 | over the same aligned order list the on-chain normalizer succeeds. Position by position, the two lists agree on raw order, side and size, and the on-chain price is the rescaled raw price |
| UiOrders.SellFillIsProportional | trade/src/util/ui_orders.ts:73-75 | a Sell order's filled fraction of the maker amount equals the on-chain filled fraction of the taker amount; it never exceeds the size while the taker fill is within the taker amount |
| UiOrders.PriceKeys | trade/src/util/ui_orders.ts:94-102 | the level keys are distinct, each is the rounded price of some order, and every order's rounded price is one of them |
| UiOrders.MergeGroup | trade/src/util/ui_orders.ts:104-121 | a level has its first order's side and price, and its size plus the first order's fill is the group's summed size |
| UiOrders.KeysHaveGroups | trade/src/util/ui_orders.ts:94-99 | every listed key has a non-empty group whose head is the first order in the book with that key |
| UiOrders.MergeKeys | trade/src/util/ui_orders.ts:102-122 | one level per key, in key order, each merged from that key's group |
| UiOrders.MergeKeysKeys | trade/src/util/ui_orders.ts:102-110 | the i-th level's rounded price is the i-th key |
| UiOrders.MergeKeysCover | trade/src/util/ui_orders.ts:102-110 | every order's rounded price is the key of some level |
| UiOrders.MergeByPrice | trade/src/util/ui_orders.ts:92-123 | one level per distinct rounded price, no two levels share a key, and every order is represented by a level |
| UiOrders.MergeLevelAt | trade/src/util/ui_orders.ts:104-121 | a given level takes side and price from the first order with its key, and its size is the group's summed size minus that order's fill |
| UiOrders.MergeLevelsFromFirstOrder | trade/src/util/ui_orders.ts:104-121 | the same for every level of the book |
| UiOrders.GroupsPartition | trade/src/util/ui_orders.ts:94-99 | grouping by key partitions the orders: the group sizes add up to the total size |
| UiOrders.MergeKeysSum | trade/src/util/ui_orders.ts:104-121 | the levels' sizes add up to the groups' sizes minus the first fill of each group |
| UiOrders.MergeConservesSize | trade/src/util/ui_orders.ts:92-123 | the book's total size is the orders' total size minus the fill of each level's first order |
| UiOrders.LaterFillsAtSamePriceAreNotNetted | trade/src/util/ui_orders.ts:111-121 | a second order's fill at an existing price is not subtracted: the level shows more than the orders' net resting size |
| TradeActions.StartFlow | trade/src/store/ui/actions.ts:127-129 | the modal holds the whole flow in order with nothing done; there is no current step exactly when the flow is empty |
| TradeActions.GetUnlockTokenStep | trade/src/store/ui/actions.ts:184-191 | a standalone toggle step for the token that records it as locked, so running it unlocks the token |
| TradeActions.GetLockTokenStep | trade/src/store/ui/actions.ts:193-200 | a standalone toggle step for the token that records it as unlocked, so running it locks the token |
| TradeActions.StartToggleTokenLockSteps | trade/src/store/ui/actions.ts:65-73 | a single standalone toggle step for the token that locks an unlocked token and unlocks a locked one |
| TradeActions.StartWrapEtherSteps | trade/src/store/ui/actions.ts:75-91 | a single standalone wrap step from the current WETH balance to the requested one |
| TradeActions.RequiredQuote | trade/src/store/ui/actions.ts:167-169 | in whole tokens, the quote cost is the base amount in whole tokens times the price |
| TradeActions.CheckBalances | trade/src/store/ui/actions.ts:154-181 | a Sell fails iff a base balance is known and below the amount. A Buy in WETH fails iff the total ETH balance selector's value is below the quote cost. Any other Buy fails iff a quote balance is known and below the cost. The error names the token that is short |
| TradeActions.RequiredQuoteMonotone | trade/src/store/ui/actions.ts:166-176 | a higher price never costs less quote |
| TradeActions.CheckBalancesMonotoneInPrice | trade/src/store/ui/actions.ts:159-179 | a check that passes at a price passes at every lower price |
| TradeActions.AvgPrice | trade/src/store/ui/actions.ts:272-275 | the average price times the requested amount gives back the summed filled amounts |
| TradeActions.GetMarketSteps | trade/src/store/ui/actions.ts:262-282 | refuses for lack of liquidity iff the book cannot fill the amount and no price was given. Otherwise it fails iff the balance check at the average price fails. It builds market steps exactly when the filled quote amount is positive, and returns both totals |
| TradeActions.LimitFlow | trade/src/store/ui/actions.ts:109-125 | the market steps always come first, and nothing is appended when the third plan element reaches the amount |
| TradeActions.LimitRemainderRequest | trade/src/store/ui/actions.ts:111-124 | otherwise the appended limit steps ask for the amount minus that element, at the caller's price, flagged when it is positive |
| TradeActions.StartBuySellLimitSteps | trade/src/store/ui/actions.ts:93-131 | a failing balance check at the limit price is the result. Once that check passes, the result succeeds iff the market planner does, and a planner error becomes the result. Any error is a balance error. On success the modal holds the limit flow with nothing done |
| TradeActions.StartBuySellMarketSteps | trade/src/store/ui/actions.ts:133-152 | fails exactly as the market planner does; otherwise the modal holds the market flow with nothing done |
| TradeActions.LiquidityErrorPrecedesBalanceError | trade/src/store/ui/actions.ts:269-276 | a price-less market order the book cannot fill is refused for liquidity whatever the balances |
| Common.FilterKeepsOrder | web/src/util/acoFactoryMethods.js:111-115 | a filter returns the elements at the positions that pass, once each and in increasing order of position (the `Array.prototype.filter` order both filters rely on) |
| AcoFactory.PairsSoFarStep | web/src/util/acoFactoryMethods.js:94-107 | one loop step keeps these facts: pair ids are distinct, each pair is built from the first option with its key, and every key seen so far has a pair. Every pair's key first appears before the current option, and pairs are ordered by where their keys first appear |
| AcoFactory.GetPairsFromOptions | web/src/util/acoFactoryMethods.js:92-109 | pair ids are distinct, each pair is built from the first option with its key, every option's key has a pair, and pairs are listed in the order their keys first appear in the option list |
| AcoFactory.FirstPairIsFirstOptionsPair | web/src/util/acoFactoryMethods.js:92-109 | for a non-empty option list, the first pair (the dropdown's fallback) is the pair of the first option |
| AcoFactory.GetOptionsFromPair | web/src/util/acoFactoryMethods.js:111-115 | nothing without an option list and a pair. Otherwise exactly the pair's options, in list order, each position that passes appearing once |
| AcoFactory.ListOptions | web/src/util/acoFactoryMethods.js:117-129 | the options kept before the sort: exactly the available options of the pair that pass the type test (1 calls, other non-zero puts, falsy all) and, if asked, the expiry test. They come in list order, each position that passes appearing once |
| AcoFactory.KeptOptions | web/src/util/acoFactoryMethods.js:119-128 | the loop's kept options are available and pass the test, every passing option is kept, and they are kept in list order, once per position |
| AcoFactory.UnfilteredListingIsPairOptions | web/src/util/acoFactoryMethods.js:111-129 | listing a pair's options with no type and no expiry test gives exactly `getOptionsFromPair` of the same list |
| AcoFactory.SortedListOptions | web/src/util/acoFactoryMethods.js:117-133 | the result of `listOptions` is a reordering of the kept options with all calls before all puts, and holds exactly the available options that pass the tests |
| AcoFactory.CallsAndPutsPartitionListing | web/src/util/acoFactoryMethods.js:123-126 | an option is listed with no type iff it is listed as a call or as a put, and never as both |
| AcoFactory.GetOption | web/src/util/acoFactoryMethods.js:137-151 | null iff no option has the address (ignoring case) and passes the expiry test; otherwise the first such option |
| AcoFactory.GetOptionPairIdFromAddress | web/src/util/acoFactoryMethods.js:153-166 | null iff no option has the address; otherwise the pair key of the first such option |
| AcoFactory.PairIdLookupAgreesWithGetOption | web/src/util/acoFactoryMethods.js:137-166 | the pair-id lookup names the pair of the option `getOption` finds without the expiry test |
| DepositModal.DepositSideIsConsistent | web/src/partials/Pool/DepositModal.js:42-56 | the deposit asset's address, decimals and symbol all come from the underlying for a call pool and from the strike asset for a put pool |
| DepositModal.ButtonMessage | web/src/partials/Pool/DepositModal.js:196-204 | "Enter an amount" iff the field is empty or not positive; "Insufficient funds" iff a positive amount exceeds the balance in base units; no message (null) iff a positive amount is covered by the balance |
| DepositModal.CanDeposit | web/src/partials/Pool/DepositModal.js:206-212 | a deposit is allowed iff a positive amount is typed and the balance covers it |
| DepositModal.MaxAmountIsDepositable | web/src/partials/Pool/DepositModal.js:214-229 | the MAX amount, the balance in whole tokens, can be deposited whenever the balance is positive |
| DepositModal.CanDepositMonotone | web/src/partials/Pool/DepositModal.js:196-212 | lowering a positive amount or raising the balance never forbids an allowed deposit |
| DepositModal.NeedApprove | web/src/partials/Pool/DepositModal.js:182-194 | ether never needs approval; a token needs it iff the allowance is below the amount in base units |
| DepositModal.SendDepositTransaction | web/src/partials/Pool/DepositModal.js:98-124 | the steps shown count up from the next step and end in the success step or the error step. The "sending" step appears iff the wallet accepted the deposit. The deposit is sent with the given nonce |
| DepositModal.OnDepositClick | web/src/partials/Pool/DepositModal.js:58-96 | nothing happens without a valid amount. Otherwise steps start at 1 or 3 by approval, count up, and end in 5 or error. A refused approval stops at [1, error] and an unmined one at [1, 2, error]. The deposit is sent iff the amount is valid and any needed approval was sent and mined. Step 4 shows iff it was sent and accepted. Step 5 is reached iff every needed transaction is sent and mined. The deposit nonce is one past the fetched nonce after an approval |
| DepositModal.StepsModal | web/src/partials/Pool/DepositModal.js:126-171 | title, unlock and deposit progress, done flag, close-with-success only on step 5, and a subtitle exactly for the steps the dialog uses |
| DepositModal.OnlyLastShownStepIsDone | web/src/partials/Pool/DepositModal.js:58-171 | along every run, each step shown has a message and only the last one offers the done button |
| NavBar.IsAdvanced | web/src/partials/NavBar.js:36-38 | a path is advanced iff "advanced" occurs in it but not at position 0 |
| NavBar.FirstHitIsEarliest | web/src/partials/NavBar.js:46-63 | a first-match table yields "" iff no fragment occurs after position 0, and otherwise the target of the earliest fragment that does |
| NavBar.ToggleTargetIsFirstHit | web/src/partials/NavBar.js:46-63 | `NavBar.ToggleTarget`, the if-chain of `changeMode`, is the first match in the eight-entry toggle table |
| NavBar.NoToggleTargetIffNoHit | web/src/partials/NavBar.js:46-63 | `NavBar.ToggleTarget` gives no target iff no fragment of the table occurs after position 0 |
| NavBar.AdvancedRoute | web/src/partials/NavBar.js:36-38 | every path starting with "/advanced" and longer than it is in advanced mode |
| NavBar.BasicRoute | web/src/partials/NavBar.js:36-38 | a path without the letter 'v' is in basic mode |
| NavBar.SwapsBuyAndTrade | web/src/partials/NavBar.js:46-63 | "/buy" and "/advanced/trade" toggle into each other across modes |
| NavBar.SwapsWriteAndMint | web/src/partials/NavBar.js:46-63 | "/write" and "/advanced/mint" toggle into each other across modes |
| NavBar.SwapsManageAndExercise | web/src/partials/NavBar.js:46-63 | "/manage" and "/advanced/exercise" toggle into each other across modes |
| NavBar.SwapsPoolsAndAdvancedPools | web/src/partials/NavBar.js:46-63 | "/pools" and "/advanced/pools" toggle into each other across modes |
| NavBar.ToggleIsAnInvolution | web/src/partials/NavBar.js:45-73 | on the eight mode routes the toggle lands on a mode route of the other mode and toggling twice returns to the start |
| NavBar.AdvancedPoolsGoesToPools | web/src/partials/NavBar.js:59-62 | "/advanced/pools" contains "pools" yet goes to "/pools", because the longer fragment is checked first |
| NavBar.UrlWithPairId | web/src/partials/NavBar.js:75-81 | the base route, extended by "/" and the pair id exactly when the pair id is non-empty |
| NavBar.ChangeMode | web/src/partials/NavBar.js:45-73 | the toggled route with the pair id; it navigates iff an account is connected on the right network, and otherwise signs in towards it |
| NavBar.ConnectWalletTarget | web/src/partials/NavBar.js:147 | the wallet link signs in towards "/advanced/mint" or "/write", staying in the current mode |
| PairDropdown.SelectInitialPair | web/src/partials/PairDropdown.js:22-37 | a loaded pair: the one with the route's id when the route names a present pair, else the first pair |
| PairDropdown.SelectsEarliestMatch | web/src/partials/PairDropdown.js:24-30 | among pairs sharing the route's id, the earliest is chosen |
| PairDropdown.DidMount | web/src/partials/PairDropdown.js:10-14 | a pair is selected iff pairs are loaded, not empty and none is selected yet, and it is one of the loaded pairs |
| PairDropdown.DidUpdate | web/src/partials/PairDropdown.js:16-20 | the mount selection reruns exactly when the pairs go from not loaded to loaded |
| PairDropdown.ShowsPairMenu | web/src/partials/PairDropdown.js:47-52 | the pair menu is shown iff more than one pair is loaded |
| TradePage.InitialState | web/src/pages/Trade.js:16 | no options, no balances, the "all" expiry filter and no selected option |
| TradePage.SelectOption | web/src/pages/Trade.js:49-58 | none iff there is no route token or no option matches it ignoring case; otherwise the first matching option |
| TradePage.SelectOptionIsGetOption | web/src/pages/Trade.js:49-58 | selection by route token is the expiry-blind address lookup of the option list |
| TradePage.TradeRoute | web/src/pages/Trade.js:104-115 | the trade route of the pair, extended by "/" and the token address exactly when an option is selected |
| TradePage.OnSelectOption | web/src/pages/Trade.js:104-115 | the option becomes selected, the filter is cleared (or reset to "all" when deselecting), the route follows, and the widget gets that option |
| TradePage.OnSelectExpiryTime | web/src/pages/Trade.js:117-120 | the filter is set, the option is deselected and the route shows the pair alone |
| TradePage.ExpiryChoiceIsDeselectWithFilter | web/src/pages/Trade.js:104-120 | choosing an expiry lands on the same route and state as deselecting, except for the filter |
| TradePage.SelectedIsListed | web/src/pages/Trade.js:40-58 | an option selected after loading is available, belongs to the pair, is unexpired and matches the route token |
| TradePage.SelectionPrefersCalls | web/src/pages/Trade.js:49-58 | in a listing with calls first, a put is selected only when no listed call matches the route token |
| TradePage.LoadOptions | web/src/pages/Trade.js:40-47 | with a pair: the state holds the sorted listing of the pair's unexpired options of both types, calls first. The matching option is selected with its route, or none with the "all" filter. Without a pair: nothing |
| TradePage.DidUpdate | web/src/pages/Trade.js:28-38 | reload on a pair change; else reload data on an account change; else deselect when the route token disappears |
| TradePage.DidMount | web/src/pages/Trade.js:19-26 | the page goes home iff no account is connected on the right network |

## Left out

- I/O is not modelled:
  - promises, contract calls, wallet prompts, transaction mining, nonce
    fetching and the Redux dispatches;
  - the steps-modal reducer and the steps-modal open/close actions
    (trade/src/store/ui/actions.ts:61-63).
  - Their results are inputs (`Replies`, `StoreState`, the nonce) or the
    returned modal contents.
- The following are function-typed parameters or plain inputs, because
  their code is not part of this model:
  - the 0x asset-data encoder;
  - the market matcher `buildMarketOrders`;
  - the step generators `createBuySellMarketSteps` and
    `createBuySellLimitSteps`;
  - `isWeth`;
  - `getPairIdFromRoute`;
  - the store selectors.
- The decimal helpers `tokenAmountInUnitsToBigNumber`,
  `unitsInTokenAmount`, `toDecimals` and `fromDecimals` are exact scaling
  by a power of ten. Their rounding and string formatting are not modelled.
- The aggregator's `toFixed` price rounding is the parameter `key`.
- Object key order is first-insertion order. JavaScript orders integer-like
  keys first; that case is not modelled.
- UiOrders.WithoutInfoOrder, UiOrders.WithInfoOrder and the list
  normalizers: require non-zero maker and taker amounts for every order.
  The source divides by only one amount per case:
  - a Sell price divides by the maker amount;
  - a Buy price divides by the taker amount;
  - on the path with order info, a Sell fill also divides by the taker
    amount.
  A zero divisor gives Infinity or NaN. The requires also excludes two
  finite cases that the source handles:
  - a Buy order with a zero maker amount, whose price is 0 on both paths;
  - a Sell order with a zero taker amount on the path without order info,
    whose price is 0.
- TradeActions.GetMarketSteps, TradeActions.StartBuySellLimitSteps and
  TradeActions.StartBuySellMarketSteps: require a positive amount. With a
  zero amount, `avgPrice` divides by zero.
- `null` and `undefined` are both the absent `Option` value. BigNumber
  truthiness is "present".
- Object identity (the `!==` comparisons of props) is modelled as value
  inequality.
- Rendering is not modelled: JSX, images, CSS classes, tooltips, the
  expiry and option lists on screen, and React state plumbing beyond the
  fields listed.
- The trade page's balance loading and the trade widget's own behaviour
  are not modelled. The widget appears only as the option it is mounted
  with.
- AcoFactory.SortedListOptions: `sortByDesc` (web/src/util/constants.js)
  is not part of this model. It is a parameter assumed to permute its input
  and put every call (`isCall` true) before every put. Nothing is assumed
  about the order within the calls or within the puts, so the contract does
  not state it.
- Common.Lower: folds only the ASCII letters A-Z. JavaScript's
  `toLowerCase` folds all of Unicode, so two addresses or route tokens
  that differ only in non-ASCII case match in the source but not in the
  model.
- UiOrders.SellBuyPricesReciprocal: holds only under exact arithmetic.
  BigNumber `div` rounds to 20 decimal places by default. The prices
  (trade/src/util/ui_orders.ts:27-30, 76-78), the Sell fill (73-75) and the
  average price (trade/src/store/ui/actions.ts:272-275) are exact rationals
  in the model.
- UiOrders.WithInfoPriceRescales, UiOrders.SellFillIsProportional and
  UiOrders.NormalizedListsAgree: exact in the model for the same reason.
- TradeActions.AvgPrice: exact in the model for the same reason.
- DepositModal.MaxAmountIsDepositable: holds only under exact scaling.
  `fromDecimals` formats the balance with a fixed precision, and the
  formatted MAX amount can differ from the balance in whole tokens.
- The other `acoFactoryMethods.js` functions (contract reads and writes)
  and the rest of the web application are outside the modelled core.
