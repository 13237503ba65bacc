/**
  The trade-flow planner of the trade widget (trade/src/store/ui/actions.ts):
  the balance gate, the market-step planning over the matcher's result, the
  limit and market flows that initialise the steps modal, and the standalone
  lock-toggle and wrap steps.

  The store selectors, the market matcher `buildMarketOrders`, `isWeth` and
  the step generators are collaborators this model does not look inside:
  their results are inputs (`StoreState`) or function-typed parameters
  (`Collaborators`).
 */
module TradeActions {
  import opened Common
  import opened UiOrders

  /** Fee parameters, forwarded to the step generators unchanged. */
  datatype OrderFeeData = OrderFeeData(makerFee: nat, takerFee: nat, feeRecipientAddress: string, senderAddress: string)

  datatype TokenBalance = TokenBalance(token: Token, balance: int, isUnlocked: bool)

  datatype StepContext = Standalone | InOrderFlow

  /** The steps an executor runs; the planner builds the first two itself and receives the others from the generators. */
  datatype Step =
    | ToggleTokenLock(token: Token, isUnlocked: bool, context: StepContext)
    | WrapEth(currentWethBalance: int, newWethBalance: int, context: StepContext)
    | BuySellLimit(amount: int, price: real, side: OrderSide)
    | BuySellMarket(amount: int, side: OrderSide)

  /** What the steps modal shows: the step in progress, those still to come and those done. */
  datatype StepsModal = StepsModal(currentStep: Option<Step>, pendingSteps: seq<Step>, doneSteps: seq<Step>)

  /** The values the planner reads through the store selectors. */
  datatype StoreState = StoreState(
    baseToken: Token,
    quoteToken: Token,
    tokenBalances: seq<TokenBalance>,
    wethTokenBalance: TokenBalance,
    ethBalance: int,
    wethBalance: int,
    totalEthBalance: int,
    baseTokenBalance: Option<TokenBalance>,
    quoteTokenBalance: Option<TokenBalance>,
    openBuyOrders: seq<UIOrder>,
    openSellOrders: seq<UIOrder>)

  datatype TradeError = InsufficientTokenBalance(symbol: string) | InsufficientOrdersAmount

  /** The matcher's answer: orders to fill, base amount taken from each, whether the whole amount is covered, and the quote total. */
  datatype MarketFill = MarketFill(
    ordersToFill: seq<SignedOrder>,
    filledAmounts: seq<int>,
    canBeFilled: bool,
    filledQuoteAmount: int)

  datatype MarketStepsRequest = MarketStepsRequest(
    baseToken: Token, quoteToken: Token, tokenBalances: seq<TokenBalance>, wethTokenBalance: TokenBalance,
    ethBalance: int, amount: int, side: OrderSide, avgPrice: real, orderFeeData: OrderFeeData, price: Option<real>)

  datatype LimitStepsRequest = LimitStepsRequest(
    baseToken: Token, quoteToken: Token, tokenBalances: seq<TokenBalance>, wethTokenBalance: TokenBalance,
    amount: int, price: real, expirationTimeSeconds: int, side: OrderSide, orderFeeData: OrderFeeData,
    isPartiallyFilled: bool)

  datatype Collaborators = Collaborators(
    isWeth: string -> bool,
    buildMarketOrders: (int, seq<UIOrder>, OrderSide, Option<real>) -> MarketFill,
    createBuySellMarketSteps: MarketStepsRequest -> seq<Step>,
    createBuySellLimitSteps: LimitStepsRequest -> seq<Step>)

  /** The planner's result: the filled base total, the market steps, and the filled quote amount. */
  datatype MarketPlan = MarketPlan(totalFilledAmount: int, buySellMarketFlow: seq<Step>, filledQuoteAmount: int)

  // ---------------------------------------------------------------------------
  // Steps modal

  /** All steps of the modal in execution order. */
  function AllSteps(m: StepsModal): seq<Step>
  {
    m.doneSteps + (if m.currentStep.Some? then [m.currentStep.value] else []) + m.pendingSteps
  }

  /** Dispatching current = flow[0], pending = flow.slice(1), done = []: an empty flow leaves no current step. */
  function StartFlow(flow: seq<Step>): (m: StepsModal)
    ensures m.doneSteps == []
    ensures AllSteps(m) == flow
    ensures m.currentStep.None? <==> flow == []
  {
    if flow == [] then StepsModal(None, [], [])
    else StepsModal(Some(flow[0]), flow[1..], [])
  }

  /** A token that is unlocked gets a lock step, a locked one an unlock step; nothing else is queued. */
  function StartToggleTokenLockSteps(token: Token, isUnlocked: bool): (m: StepsModal)
    ensures m.currentStep.Some? && m.currentStep.value.ToggleTokenLock?
    ensures m.currentStep.value.token == token && m.currentStep.value.context == Standalone
    ensures m.currentStep.value.isUnlocked == isUnlocked
    ensures m.pendingSteps == [] && m.doneSteps == []
  {
    var step := if isUnlocked then GetLockTokenStep(token) else GetUnlockTokenStep(token);
    StepsModal(Some(step), [], [])
  }

  /** A standalone toggle step for a token that is currently locked, so that running it unlocks the token. */
  function GetUnlockTokenStep(token: Token): (r: Step)
    ensures r.ToggleTokenLock? && r.token == token && r.context == Standalone
    ensures !r.isUnlocked
  {
    ToggleTokenLock(token, false, Standalone)
  }

  /** A standalone toggle step for a token that is currently unlocked, so that running it locks the token. */
  function GetLockTokenStep(token: Token): (r: Step)
    ensures r.ToggleTokenLock? && r.token == token && r.context == Standalone
    ensures r.isUnlocked
  {
    ToggleTokenLock(token, true, Standalone)
  }

  /** A standalone wrap from the current WETH balance to the requested one. */
  function StartWrapEtherSteps(state: StoreState, newWethBalance: int): (m: StepsModal)
    ensures m.currentStep == Some(WrapEth(state.wethBalance, newWethBalance, Standalone))
    ensures m.pendingSteps == [] && m.doneSteps == []
  {
    StepsModal(Some(WrapEth(state.wethBalance, newWethBalance, Standalone)), [], [])
  }

  // ---------------------------------------------------------------------------
  // Balance gate

  /** The quote base-unit amount a Buy of `amount` base units at `price` (quote per base, in whole tokens) costs. */
  function RequiredQuote(amount: int, price: real, baseToken: Token, quoteToken: Token): (r: real)
    ensures ToUnits(r, quoteToken.decimals) == ToUnits(amount as real, baseToken.decimals) * price
  {
    FromUnits(ToUnits(amount as real, baseToken.decimals) * price, quoteToken.decimals)
  }

  /**
    Selling needs base-token balance; buying needs quote-token balance, or,
    when the quote token is WETH, the store's total ETH balance. An absent
    balance entry lets the balance test pass.
   */
  function CheckBalances(state: StoreState, side: OrderSide, amount: int, price: real, isWeth: string -> bool)
    : (r: Outcome<TradeError>)
    ensures side == Sell ==>
              (r.Fail? <==> state.baseTokenBalance.Some? && state.baseTokenBalance.value.balance < amount)
    ensures side == Sell && r.Fail? ==> r.error == InsufficientTokenBalance(state.baseToken.symbol)
    ensures side == Buy && isWeth(state.quoteToken.symbol) ==>
              (r.Fail? <==>
                 (state.totalEthBalance as real) < RequiredQuote(amount, price, state.baseToken, state.quoteToken))
    ensures side == Buy && !isWeth(state.quoteToken.symbol) ==>
              (r.Fail? <==>
                 && state.quoteTokenBalance.Some?
                 && (state.quoteTokenBalance.value.balance as real)
                      < RequiredQuote(amount, price, state.baseToken, state.quoteToken))
    ensures side == Buy && r.Fail? ==> r.error == InsufficientTokenBalance(state.quoteToken.symbol)
  {
    if side == Sell then
      if state.baseTokenBalance.Some? && state.baseTokenBalance.value.balance < amount
      then Fail(InsufficientTokenBalance(state.baseToken.symbol))
      else Pass
    else
      var totalAmountDecimals := RequiredQuote(amount, price, state.baseToken, state.quoteToken);
      var ethAndWethNotEnough := isWeth(state.quoteToken.symbol) && (state.totalEthBalance as real) < totalAmountDecimals;
      var otherQuoteNotEnough :=
        && !isWeth(state.quoteToken.symbol)
        && state.quoteTokenBalance.Some?
        && (state.quoteTokenBalance.value.balance as real) < totalAmountDecimals;
      if ethAndWethNotEnough || otherQuoteNotEnough
      then Fail(InsufficientTokenBalance(state.quoteToken.symbol))
      else Pass
  }

  lemma RequiredQuoteMonotone(amount: int, lower: real, higher: real, baseToken: Token, quoteToken: Token)
    requires amount >= 0 && lower <= higher
    ensures RequiredQuote(amount, lower, baseToken, quoteToken) <= RequiredQuote(amount, higher, baseToken, quoteToken)
  {
    var u := ToUnits(amount as real, baseToken.decimals);
    var p := Pow10(quoteToken.decimals);
    ToUnitsNonNegative(amount as real, baseToken.decimals);
    MulMonotone(lower, higher, u);
    assert u * lower <= u * higher;
    MulMonotone(u * lower, u * higher, p);
    assert RequiredQuote(amount, lower, baseToken, quoteToken) == (u * lower) * p;
    assert RequiredQuote(amount, higher, baseToken, quoteToken) == (u * higher) * p;
  }

  /** A balance check that passes at some price also passes at every lower price. */
  lemma CheckBalancesMonotoneInPrice(
    state: StoreState, side: OrderSide, amount: int, lower: real, higher: real, isWeth: string -> bool)
    requires amount >= 0 && lower <= higher
    requires CheckBalances(state, side, amount, higher, isWeth).Pass?
    ensures CheckBalances(state, side, amount, lower, isWeth).Pass?
  {
    RequiredQuoteMonotone(amount, lower, higher, state.baseToken, state.quoteToken);
  }

  // ---------------------------------------------------------------------------
  // Market planning

  /** A Buy is matched against the open sell orders and a Sell against the open buy orders. */
  function CounterOrders(state: StoreState, side: OrderSide): seq<UIOrder>
  {
    if side == Buy then state.openSellOrders else state.openBuyOrders
  }

  function MatchFor(state: StoreState, side: OrderSide, amount: int, price: Option<real>, collab: Collaborators)
    : MarketFill
  {
    collab.buildMarketOrders(amount, CounterOrders(state, side), side, price)
  }

  /** The average price the planner derives: the summed filled amounts over the requested amount. */
  function AvgPrice(totalFilledAmount: int, amount: int): (p: real)
    requires amount > 0
    ensures p * amount as real == totalFilledAmount as real
  {
    totalFilledAmount as real / amount as real
  }

  function MarketRequest(
    state: StoreState, fill: MarketFill, side: OrderSide, avgPrice: real, orderFeeData: OrderFeeData,
    price: Option<real>)
    : MarketStepsRequest
  {
    MarketStepsRequest(state.baseToken, state.quoteToken, state.tokenBalances, state.wethTokenBalance,
                       state.ethBalance, fill.filledQuoteAmount, side, avgPrice, orderFeeData, price)
  }

  /**
    Refuses a market order the book cannot fill when no price was given,
    before anything else; otherwise re-checks the balances at the average
    price, and builds market steps only for a positive filled quote amount.
   */
  function GetMarketSteps(
    state: StoreState, side: OrderSide, amount: int, price: Option<real>, orderFeeData: OrderFeeData,
    collab: Collaborators)
    : (r: Result<MarketPlan, TradeError>)
    requires amount > 0
    ensures var fill := MatchFor(state, side, amount, price, collab);
            r == Err(InsufficientOrdersAmount) <==> !fill.canBeFilled && price.None?
    ensures var fill := MatchFor(state, side, amount, price, collab);
            var avg := AvgPrice(SumInts(fill.filledAmounts), amount);
            (fill.canBeFilled || price.Some?) ==>
              (r.Err? <==> CheckBalances(state, side, amount, avg, collab.isWeth).Fail?) &&
              (r.Err? ==> r.error == CheckBalances(state, side, amount, avg, collab.isWeth).error)
    ensures var fill := MatchFor(state, side, amount, price, collab);
            r.Ok? ==>
              && r.value.totalFilledAmount == SumInts(fill.filledAmounts)
              && r.value.filledQuoteAmount == fill.filledQuoteAmount
              && (fill.filledQuoteAmount <= 0 ==> r.value.buySellMarketFlow == [])
              && (fill.filledQuoteAmount > 0 ==>
                    r.value.buySellMarketFlow == collab.createBuySellMarketSteps(
                      MarketRequest(state, fill, side, AvgPrice(SumInts(fill.filledAmounts), amount),
                                    orderFeeData, price)))
  {
    var fill := MatchFor(state, side, amount, price, collab);
    if !fill.canBeFilled && price.None? then Err(InsufficientOrdersAmount)
    else
      var totalFilledAmount := SumInts(fill.filledAmounts);
      var avgPrice := AvgPrice(totalFilledAmount, amount);
      match CheckBalances(state, side, amount, avgPrice, collab.isWeth)
      case Fail(e) => Err(e)
      case Pass =>
        var flow :=
          if fill.filledQuoteAmount > 0
          then collab.createBuySellMarketSteps(MarketRequest(state, fill, side, avgPrice, orderFeeData, price))
          else [];
        Ok(MarketPlan(totalFilledAmount, flow, fill.filledQuoteAmount))
  }

  /**
    The flow of a limit order: market steps for what the book fills now,
    followed by limit steps for the rest. The rest is measured against the
    third component of the market plan, the filled quote amount.
   */
  function LimitFlow(
    state: StoreState, plan: MarketPlan, amount: int, price: real, expirationTimeSeconds: int, side: OrderSide,
    orderFeeData: OrderFeeData, collab: Collaborators)
    : (flow: seq<Step>)
    ensures |flow| >= |plan.buySellMarketFlow| && flow[..|plan.buySellMarketFlow|] == plan.buySellMarketFlow
    ensures plan.filledQuoteAmount >= amount ==> flow == plan.buySellMarketFlow
  {
    var totalFilled := plan.filledQuoteAmount;
    if totalFilled < amount then
      plan.buySellMarketFlow + collab.createBuySellLimitSteps(
        LimitStepsRequest(state.baseToken, state.quoteToken, state.tokenBalances, state.wethTokenBalance,
                          amount - totalFilled, price, expirationTimeSeconds, side, orderFeeData, totalFilled > 0))
    else plan.buySellMarketFlow
  }

  function StartBuySellLimitSteps(
    state: StoreState, amount: int, price: real, expirationTimeSeconds: int, side: OrderSide,
    orderFeeData: OrderFeeData, collab: Collaborators)
    : (r: Result<StepsModal, TradeError>)
    requires amount > 0
    ensures CheckBalances(state, side, amount, price, collab.isWeth).Fail? ==>
              r == Err(CheckBalances(state, side, amount, price, collab.isWeth).error)
    ensures r.Err? ==> r.error.InsufficientTokenBalance?
    ensures var plan := GetMarketSteps(state, side, amount, Some(price), orderFeeData, collab);
            CheckBalances(state, side, amount, price, collab.isWeth).Pass? ==>
              (r.Ok? <==> plan.Ok?) && (plan.Err? ==> r == Err(plan.error))
    ensures r.Ok? ==>
              var plan := GetMarketSteps(state, side, amount, Some(price), orderFeeData, collab);
              && CheckBalances(state, side, amount, price, collab.isWeth).Pass?
              && plan.Ok?
              && r.value.doneSteps == []
              && AllSteps(r.value)
                   == LimitFlow(state, plan.value, amount, price, expirationTimeSeconds, side, orderFeeData, collab)
  {
    match CheckBalances(state, side, amount, price, collab.isWeth)
    case Fail(e) => Err(e)
    case Pass =>
      match GetMarketSteps(state, side, amount, Some(price), orderFeeData, collab)
      case Err(e) => Err(e)
      case Ok(plan) =>
        Ok(StartFlow(LimitFlow(state, plan, amount, price, expirationTimeSeconds, side, orderFeeData, collab)))
  }

  /**
    When the filled quote amount falls short of the amount, the limit steps
    ask for exactly the difference, at the caller's price, and are flagged
    as following a partial fill when something was filled.
   */
  lemma LimitRemainderRequest(
    state: StoreState, plan: MarketPlan, amount: int, price: real, expirationTimeSeconds: int, side: OrderSide,
    orderFeeData: OrderFeeData, collab: Collaborators)
    requires plan.filledQuoteAmount < amount
    ensures var flow := LimitFlow(state, plan, amount, price, expirationTimeSeconds, side, orderFeeData, collab);
            var req := LimitStepsRequest(state.baseToken, state.quoteToken, state.tokenBalances,
                                         state.wethTokenBalance, amount - plan.filledQuoteAmount, price,
                                         expirationTimeSeconds, side, orderFeeData, plan.filledQuoteAmount > 0);
            flow[|plan.buySellMarketFlow|..] == collab.createBuySellLimitSteps(req)
  {
  }

  function StartBuySellMarketSteps(
    state: StoreState, amount: int, side: OrderSide, orderFeeData: OrderFeeData, price: Option<real>,
    collab: Collaborators)
    : (r: Result<StepsModal, TradeError>)
    requires amount > 0
    ensures var plan := GetMarketSteps(state, side, amount, price, orderFeeData, collab);
            && (r.Err? <==> plan.Err?)
            && (r.Err? ==> r.error == plan.error)
            && (r.Ok? ==> r.value.doneSteps == [] && AllSteps(r.value) == plan.value.buySellMarketFlow)
  {
    match GetMarketSteps(state, side, amount, price, orderFeeData, collab)
    case Err(e) => Err(e)
    case Ok(plan) => Ok(StartFlow(plan.buySellMarketFlow))
  }

  /**
    A market order with no price that the book cannot fill is refused even
    when the balances would not cover it either: the liquidity error wins.
   */
  lemma LiquidityErrorPrecedesBalanceError(
    state: StoreState, side: OrderSide, amount: int, orderFeeData: OrderFeeData, collab: Collaborators)
    requires amount > 0
    requires !MatchFor(state, side, amount, None, collab).canBeFilled
    ensures StartBuySellMarketSteps(state, amount, side, orderFeeData, None, collab) == Err(InsufficientOrdersAmount)
  {
  }
}
