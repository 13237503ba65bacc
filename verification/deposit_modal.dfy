/**
  The pool deposit dialog of the options web app
  (web/src/partials/Pool/DepositModal.js): which asset a pool takes,
  the confirm-button validation, the approval decision, the step
  numbers the dialog walks through and what the steps modal shows for
  each of them. Wallet, contract calls and mining are replaced by the
  replies they produce.
 */
module DepositModal {
  import opened Common
  import opened AcoFactory

  datatype Pool = Pool(
    acoPool: string,
    isCall: bool,
    underlying: string,
    underlyingInfo: AssetInfo,
    strikeAsset: string,
    strikeAssetInfo: AssetInfo)

  function DepositAsset(pool: Pool): string
  {
    if pool.isCall then pool.underlying else pool.strikeAsset
  }

  function DepositAssetDecimals(pool: Pool): nat
  {
    if pool.isCall then pool.underlyingInfo.decimals else pool.strikeAssetInfo.decimals
  }

  function DepositAssetSymbol(pool: Pool): string
  {
    if pool.isCall then pool.underlyingInfo.symbol else pool.strikeAssetInfo.symbol
  }

  /** Address, decimals and symbol of the deposit asset all come from the same side of the pool. */
  lemma DepositSideIsConsistent(pool: Pool)
    ensures pool.isCall ==>
              DepositAsset(pool) == pool.underlying
              && DepositAssetDecimals(pool) == pool.underlyingInfo.decimals
              && DepositAssetSymbol(pool) == pool.underlyingInfo.symbol
    ensures !pool.isCall ==>
              DepositAsset(pool) == pool.strikeAsset
              && DepositAssetDecimals(pool) == pool.strikeAssetInfo.decimals
              && DepositAssetSymbol(pool) == pool.strikeAssetInfo.symbol
  {
  }

  /**
    The text of the amount field and the number it denotes (the decimal
    input only admits decimal text; the number is irrelevant when the
    text is empty).
   */
  datatype DepositInput = DepositInput(text: string, amount: real)

  /** The typed amount in base units of the deposit asset. */
  function DepositBaseUnits(input: DepositInput, decimals: nat): real
  {
    FromUnits(input.amount, decimals)
  }

  predicate IsInsufficientFunds(input: DepositInput, balance: nat, decimals: nat)
  {
    DepositBaseUnits(input, decimals) > balance as real
  }

  const EnterAnAmount: string := "Enter an amount"
  const InsufficientFunds: string := "Insufficient funds"

  /** The message shown on the confirm button; none means the deposit may go ahead. */
  function ButtonMessage(input: DepositInput, balance: nat, decimals: nat): (r: Option<string>)
    ensures r == Some(EnterAnAmount) <==> input.text == "" || input.amount <= 0.0
    ensures r == Some(InsufficientFunds) <==>
              input.text != "" && input.amount > 0.0 && input.amount * Pow10(decimals) > balance as real
    ensures r.None? <==>
              input.text != "" && input.amount > 0.0 && input.amount * Pow10(decimals) <= balance as real
  {
    if input.text == "" || input.amount <= 0.0 then Some(EnterAnAmount)
    else if IsInsufficientFunds(input, balance, decimals) then Some(InsufficientFunds)
    else None
  }

  /** A deposit is possible exactly for a typed, positive amount the balance covers. */
  function CanDeposit(input: DepositInput, balance: nat, decimals: nat): (r: bool)
    ensures r <==> input.text != "" && input.amount > 0.0 && input.amount * Pow10(decimals) <= balance as real
  {
    ButtonMessage(input, balance, decimals).None?
  }

  /** The MAX button fills in the whole balance, which can then be deposited whenever it is positive. */
  lemma MaxAmountIsDepositable(balance: nat, decimals: nat, text: string)
    requires balance > 0 && text != ""
    ensures CanDeposit(DepositInput(text, ToUnits(balance as real, decimals)), balance, decimals)
  {
    var amount := ToUnits(balance as real, decimals);
    ToUnitsScalesBack(balance as real, decimals);
    assert amount * Pow10(decimals) == balance as real;
  }

  /** A larger balance or a smaller positive amount never turns an allowed deposit into a refused one. */
  lemma CanDepositMonotone(input: DepositInput, smaller: real, balance: nat, larger: nat, decimals: nat)
    requires CanDeposit(input, balance, decimals)
    requires 0.0 < smaller <= input.amount && balance <= larger
    ensures CanDeposit(DepositInput(input.text, smaller), larger, decimals)
  {
    var p := Pow10(decimals);
    MulMonotone(smaller, input.amount, p);
    assert smaller * p <= balance as real <= larger as real;
  }

  /** Ether needs no approval; a token needs one when the pool's allowance is below the amount. */
  function NeedApprove(isEther: bool, allowance: nat, input: DepositInput, decimals: nat): (r: bool)
    ensures isEther ==> !r
    ensures !isEther ==> (r <==> (allowance as real) < input.amount * Pow10(decimals))
  {
    !isEther && (allowance as real) < DepositBaseUnits(input, decimals)
  }

  /** Whether each asynchronous call resolved truthy (a falsy result and a rejection both count as failure). */
  datatype Replies = Replies(approveSent: bool, approveMined: bool, depositSent: bool, depositMined: bool)

  /** The step numbers the dialog shows, in order, and the nonce the deposit transaction was sent with. */
  datatype DepositRun = DepositRun(shown: seq<int>, depositNonce: Option<int>)

  const ErrorStep: int := -1

  /** `sendDepositTransaction`: three more steps after `stepNumber`, or the error step. */
  function SendDepositTransaction(stepNumber: int, nonce: int, replies: Replies): (r: DepositRun)
    ensures r.depositNonce == Some(nonce)
    ensures |r.shown| == 2 || |r.shown| == 3
    ensures r.shown[0] == stepNumber + 1
    ensures |r.shown| == 3 <==> replies.depositSent
    ensures r.shown[|r.shown| - 1] == if replies.depositSent && replies.depositMined then stepNumber + 3 else ErrorStep
    ensures forall i :: 0 <= i < |r.shown| - 1 ==> r.shown[i] == stepNumber + 1 + i
  {
    var tail :=
      if !replies.depositSent then [ErrorStep]
      else [stepNumber + 2] + (if replies.depositMined then [stepNumber + 3] else [ErrorStep]);
    DepositRun([stepNumber + 1] + tail, Some(nonce))
  }

  /** `onDepositClick`, given whether the deposit is allowed, whether approval is needed and the fetched nonce. */
  function OnDepositClick(canDeposit: bool, needApproval: bool, nonce: int, replies: Replies): (r: DepositRun)
    ensures !canDeposit ==> r.shown == [] && r.depositNonce.None?
    ensures canDeposit ==>
              && |r.shown| >= 2
              && r.shown[0] == (if needApproval then 1 else 3)
              && (r.shown[|r.shown| - 1] == 5 || r.shown[|r.shown| - 1] == ErrorStep)
              && (forall i :: 0 <= i < |r.shown| - 1 ==> r.shown[i] == r.shown[0] + i)
    ensures 5 in r.shown <==>
              canDeposit && (needApproval ==> replies.approveSent && replies.approveMined)
              && replies.depositSent && replies.depositMined
    ensures r.depositNonce.Some? <==> 3 in r.shown
    ensures r.depositNonce.Some? <==> canDeposit && (needApproval ==> replies.approveSent && replies.approveMined)
    ensures canDeposit && needApproval && !replies.approveSent ==> r.shown == [1, ErrorStep]
    ensures canDeposit && needApproval && replies.approveSent && !replies.approveMined ==> r.shown == [1, 2, ErrorStep]
    ensures 4 in r.shown <==> r.depositNonce.Some? && replies.depositSent
    ensures r.depositNonce.Some? ==> r.depositNonce.value == if needApproval then nonce + 1 else nonce
  {
    if !canDeposit then DepositRun([], None)
    else if needApproval then
      if !replies.approveSent then DepositRun([1, ErrorStep], None)
      else if !replies.approveMined then DepositRun([1, 2, ErrorStep], None)
      else
        var rest := SendDepositTransaction(2, nonce + 1, replies);
        DepositRun([1, 2] + rest.shown, rest.depositNonce)
    else
      SendDepositTransaction(2, nonce, replies)
  }

  datatype ProgressStep = ProgressStep(title: string, progress: int, active: bool)

  /** What the done button does: close the whole dialog reporting success, or only hide the steps modal. */
  datatype DoneAction = CloseWithSuccess | HideSteps

  datatype StepsModalInfo = StepsModalInfo(
    title: string,
    subtitle: string,
    steps: seq<ProgressStep>,
    isDone: bool,
    onDone: DoneAction)

  function StepSubtitle(stepNumber: int, needApproval: bool, symbol: string, depositText: string): string
  {
    if needApproval && stepNumber == 1 then "Confirm on Metamask to unlock " + symbol + "."
    else if needApproval && stepNumber == 2 then "Unlocking " + symbol + "..."
    else if stepNumber == 3 then "Confirm on Metamask to deposit " + depositText + " " + symbol + "."
    else if stepNumber == 4 then "Sending " + depositText + " " + symbol + "..."
    else if stepNumber == 5 then "You have successfully deposited."
    else if stepNumber == ErrorStep then "An error ocurred. Please try again."
    else ""
  }

  /** `setStepsModalInfo`: what the steps modal shows for a step number. */
  function StepsModal(stepNumber: int, needApproval: bool, symbol: string, depositText: string): (r: StepsModalInfo)
    ensures r.title == "Unlock token" <==> needApproval && stepNumber <= 2
    ensures r.title != "Unlock token" ==> r.title == "Deposit"
    ensures |r.steps| == if needApproval then 2 else 1
    ensures needApproval ==>
              r.steps[0].title == "Unlock" && r.steps[0].active
              && (r.steps[0].progress == 100 <==> stepNumber > 2)
              && (r.steps[0].progress == 0 <==> stepNumber <= 2)
    ensures var d := r.steps[|r.steps| - 1];
              d.title == "Deposit"
              && (d.progress == 100 <==> stepNumber > 4)
              && (d.progress == 0 <==> stepNumber <= 4)
              && (d.active <==> stepNumber >= 3)
    ensures r.isDone <==> stepNumber == 5 || stepNumber == ErrorStep
    ensures r.onDone == CloseWithSuccess <==> stepNumber == 5
    ensures r.subtitle != "" <==>
              (needApproval && (stepNumber == 1 || stepNumber == 2)) || 3 <= stepNumber <= 5 || stepNumber == ErrorStep
  {
    var title := if needApproval && stepNumber <= 2 then "Unlock token" else "Deposit";
    var unlock := if needApproval then [ProgressStep("Unlock", if stepNumber > 2 then 100 else 0, true)] else [];
    var deposit := ProgressStep("Deposit", if stepNumber > 4 then 100 else 0, stepNumber >= 3);
    StepsModalInfo(
      title,
      StepSubtitle(stepNumber, needApproval, symbol, depositText),
      unlock + [deposit],
      stepNumber == 5 || stepNumber == ErrorStep,
      if stepNumber == 5 then CloseWithSuccess else HideSteps)
  }

  /**
    Along any run of the dialog, every step shown has a message, and only
    the last one offers the done button.
   */
  lemma OnlyLastShownStepIsDone(
    canDeposit: bool, needApproval: bool, nonce: int, replies: Replies, symbol: string, depositText: string)
    ensures var shown := OnDepositClick(canDeposit, needApproval, nonce, replies).shown;
            forall i :: 0 <= i < |shown| ==>
              var info := StepsModal(shown[i], needApproval, symbol, depositText);
              info.subtitle != "" && (info.isDone <==> i == |shown| - 1)
  {
    var shown := OnDepositClick(canDeposit, needApproval, nonce, replies).shown;
    forall i | 0 <= i < |shown|
      ensures var info := StepsModal(shown[i], needApproval, symbol, depositText);
              info.subtitle != "" && (info.isDone <==> i == |shown| - 1)
    {
      if i < |shown| - 1 {
        assert 1 <= shown[i] <= 4;
        assert needApproval || shown[i] >= 3;
      }
    }
  }
}
