/**
 * The staking modal's workflow (`StakeModal`): approve the pool token, wrap it
 * when a garden (wrapper) contract is configured, otherwise stake it, then
 * follow the transaction to its receipt.
 *
 * Every awaited wallet or chain call splits a handler in two: the method that
 * starts the call records it in the ghost multiset `inFlight`, and the method
 * that receives its outcome (a parameter) may run only while that record is
 * there. Submitted transactions and `captureException` reports are kept in
 * ghost logs.
 */
module StakeFlow {
  import opened Wrappers

  /** `StakeState`. */
  datatype StakeState =
    | Approve | Approving
    | Wrap | Wrapping
    | Stake | Staking
    | Confirming | Confirmed | Error

  /** The error code a wallet returns when the user rejects a request (EIP-1193). */
  const UserRejected := 4001

  /** What an awaited call produced: a value, or a thrown error with its optional `code`. */
  datatype Outcome<T> = Returned(value: T) | Threw(code: Option<int>)

  /** What `stakeTokens`/`wrapToken` resolve to: nothing, or a transaction response. */
  datatype TxResponse = NoResponse | Sent(hash: string)

  /** The two transaction steps that share one response/receipt protocol. */
  datatype Step = StakeStep | WrapStep {
    /** The state that offers the step's button, and to which a retry returns. */
    function Retry(): StakeState {
      if StakeStep? then Stake else Wrap
    }
    /** The state while the step's submission is awaited. */
    function Pending(): StakeState {
      if StakeStep? then Staking else Wrapping
    }
    /** The `section` tag of the step's error reports. */
    function Section(): string {
      if StakeStep? then "onStake" else "onWrap"
    }
  }

  /**
   * A continuation waiting for an external call. `AwaitAllowance` is a block
   * handler that read `amount` when the block arrived and now awaits the
   * allowance.
   */
  datatype Task =
    | AwaitApproval
    | AwaitAllowance(amount: nat)
    | AwaitResponse(step: Step)
    | AwaitReceipt(step: Step)

  /** A transaction request handed to the wallet. */
  datatype Request =
    | ApproveRequest(amount: nat, spender: string, token: string)
    | StakeRequest(amount: nat, pool: string, lm: string, permit: bool)
    | WrapRequest(amount: nat, pool: string, garden: string)

  /** A `captureException` call: the error's code and the `section` tag. */
  datatype Report = Report(code: Option<int>, section: string)

  /** Where a granted approval leads: the wrap step with a garden, else the stake step. */
  function AfterApproval(gardenAddress: Option<string>): (s: StakeState)
    ensures s == Wrap <==> gardenAddress.Some?
    ensures s == Stake <==> gardenAddress.None?
  {
    if gardenAddress.Some? then Wrap else Stake
  }

  /** Where a thrown error leads: a user rejection back to `retry`, anything else to ERROR. */
  function AfterThrow(code: Option<int>, retry: StakeState): (s: StakeState)
    requires retry != Error
    ensures s == Error <==> code != Some(UserRejected)
    ensures s != Error ==> s == retry
  {
    if code == Some(UserRejected) then retry else Error
  }

  /** A button of the modal and the handler it calls. */
  datatype Action = ApproveAction | WrapAction | StakeAction

  /** The action button rendered in each state (none while a call is pending or after it). */
  function OfferedAction(s: StakeState): (a: Option<Action>)
    ensures a.Some? <==> s in {Approve, Wrap, Stake}
    ensures a == Some(ApproveAction) <==> s == Approve
    ensures a == Some(WrapAction) <==> s == Wrap
    ensures a == Some(StakeAction) <==> s == Stake
  {
    match s
    case Approve => Some(ApproveAction)
    case Wrap => Some(WrapAction)
    case Stake => Some(StakeAction)
    case _ => None
  }

  /**
   * The `disabled` flag passed to the amount input and the permit toggle is
   * off exactly in APPROVE and STAKE. The toggle ignores the flag.
   */
  function InputsEnabled(s: StakeState): (r: bool)
    ensures r ==> OfferedAction(s).Some?
    ensures r <==> s == Approve || s == Stake
  {
    s == Approve || s == Stake
  }

  /** An offered action button is disabled for a zero amount or one above the maximum. */
  function ActionDisabled(amount: nat, maxAmount: nat): (r: bool)
    ensures !r <==> 0 < amount <= maxAmount
  {
    amount == 0 || maxAmount < amount
  }

  /** The form is replaced by the submitted/confirmed/error panel in the last three states. */
  function ShowsResultPanel(s: StakeState): (r: bool)
    ensures r <==> s in {Confirming, Confirmed, Error}
    ensures r ==> OfferedAction(s).None? && !InputsEnabled(s)
  {
    s == Confirming || s == Confirmed || s == Error
  }

  class StakeModal {
    const lmAddress: string
    const poolAddress: string
    const gardenAddress: Option<string>

    var amount: nat
    var txHash: string
    var stakeState: StakeState
    var permit: bool

    ghost var inFlight: multiset<Task>
    ghost var submitted: seq<Request>
    ghost var reports: seq<Report>

    /** The wrap path exists only with a garden, and a garden keeps permit mode off. */
    ghost predicate Valid()
      reads this
    {
      && (gardenAddress.Some? ==> !permit)
      && (gardenAddress.None? ==>
            && stakeState != Wrap && stakeState != Wrapping
            && AwaitResponse(WrapStep) !in inFlight && AwaitReceipt(WrapStep) !in inFlight)
    }

    /** The stake and wrap transactions in flight: awaited submissions and receipts. */
    ghost function Submissions(): nat
      reads this
    {
      inFlight[AwaitResponse(StakeStep)] + inFlight[AwaitResponse(WrapStep)]
      + inFlight[AwaitReceipt(StakeStep)] + inFlight[AwaitReceipt(WrapStep)]
    }

    /**
     * The submissions in flight are the one the state shows: a STAKING state
     * awaits one stake response, WRAPPING one wrap response, CONFIRMING one
     * receipt, and every other state none.
     */
    ghost predicate Sequenced()
      reads this
    {
      && inFlight[AwaitResponse(StakeStep)] == (if stakeState == Staking then 1 else 0)
      && inFlight[AwaitResponse(WrapStep)] == (if stakeState == Wrapping then 1 else 0)
      && inFlight[AwaitReceipt(StakeStep)] + inFlight[AwaitReceipt(WrapStep)]
         == (if stakeState == Confirming then 1 else 0)
    }

    /** In a sequenced session at most one transaction is in flight, and none while a button is offered. */
    lemma OneSubmissionAtATime()
      requires Sequenced()
      ensures Submissions() <= 1
      ensures Submissions() == 1 <==> stakeState in {Staking, Wrapping, Confirming}
      ensures OfferedAction(stakeState).Some? ==> Submissions() == 0
    {
    }

    /** The contract whose allowance the approval grants: the garden when configured, else the LM contract. */
    function Spender(): (r: string)
      ensures gardenAddress.Some? ==> r == gardenAddress.value
      ensures gardenAddress.None? ==> r == lmAddress
    {
      if gardenAddress.Some? then gardenAddress.value else lmAddress
    }

    /** A fresh session: APPROVE, amount 0, no hash, permit off. */
    constructor (lm: string, pool: string, garden: Option<string>)
      ensures Valid() && Sequenced()
      ensures lmAddress == lm && poolAddress == pool && gardenAddress == garden
      ensures stakeState == Approve && amount == 0 && txHash == "" && !permit
      ensures inFlight == multiset{} && submitted == [] && reports == []
    {
      lmAddress, poolAddress, gardenAddress := lm, pool, garden;
      amount, txHash, stakeState, permit := 0, "", Approve, false;
      inFlight, submitted, reports := multiset{}, [], [];
    }

    /** Editing the amount; the effect on `amount` sends a WRAP session back to APPROVE. */
    method SetAmount(a: nat)
      requires Valid()
      modifies this
      ensures Valid()
      ensures old(Sequenced()) ==> Sequenced()
      ensures amount == a
      ensures stakeState == (if a != old(amount) && old(stakeState) == Wrap then Approve else old(stakeState))
      ensures txHash == old(txHash) && permit == old(permit)
      ensures inFlight == old(inFlight) && submitted == old(submitted) && reports == old(reports)
    {
      var changed := a != amount;
      amount := a;
      if changed && stakeState == Wrap {
        stakeState := Approve;
      }
    }

    /**
     * `onApprove`, run from APPROVE with an amount within `maxAmount`: an
     * amount of 0 or a missing library changes nothing; otherwise enter
     * APPROVING and ask the wallet to approve `amount` of the pool token for
     * the spender.
     */
    method OnApprove(libraryConnected: bool, maxAmount: nat)
      requires Valid()
      requires OfferedAction(stakeState) == Some(ApproveAction) && amount <= maxAmount
      modifies this
      ensures Valid()
      ensures old(Sequenced()) ==> Sequenced()
      ensures amount == old(amount) && txHash == old(txHash) && permit == old(permit) && reports == old(reports)
      ensures old(amount) == 0 || !libraryConnected ==>
        stakeState == old(stakeState) && inFlight == old(inFlight) && submitted == old(submitted)
      ensures old(amount) != 0 && libraryConnected ==>
        && stakeState == Approving
        && inFlight == old(inFlight) + multiset{AwaitApproval}
        && submitted == old(submitted) + [ApproveRequest(amount, Spender(), poolAddress)]
    {
      if amount == 0 {
        return;
      }
      if !libraryConnected {
        return;
      }
      stakeState := Approving;
      submitted := submitted + [ApproveRequest(amount, Spender(), poolAddress)];
      inFlight := inFlight + multiset{AwaitApproval};
    }

    /**
     * The approval call returns, as the code is written: granted leads to WRAP
     * or STAKE, refused back to APPROVE, whatever the state has become in the
     * meantime. `onApprove` catches nothing, so a thrown approval leaves the
     * state as it is and reports nothing.
     */
    method ApprovalSettled(outcome: Outcome<bool>)
      requires Valid() && AwaitApproval in inFlight
      modifies this
      ensures Valid()
      ensures inFlight == old(inFlight) - multiset{AwaitApproval}
      ensures outcome == Returned(true) ==> stakeState == AfterApproval(gardenAddress)
      ensures outcome == Returned(false) ==> stakeState == Approve
      ensures outcome.Threw? ==> stakeState == old(stakeState)
      ensures amount == old(amount) && txHash == old(txHash) && permit == old(permit)
      ensures submitted == old(submitted) && reports == old(reports)
    {
      inFlight := inFlight - multiset{AwaitApproval};
      match outcome
      case Returned(isApproved) =>
        stakeState := if isApproved then AfterApproval(gardenAddress) else Approve;
      case Threw(_) =>
    }

    /**
     * The approval result as evidently intended: it moves the workflow only
     * while it still shows APPROVE PENDING, so a late result cannot reopen a
     * button while a transaction is in flight.
     */
    method ApprovalSettledIntended(outcome: Outcome<bool>)
      requires Valid() && AwaitApproval in inFlight
      modifies this
      ensures Valid()
      ensures old(Sequenced()) ==> Sequenced()
      ensures inFlight == old(inFlight) - multiset{AwaitApproval}
      ensures old(stakeState) != Approving || outcome.Threw? ==> stakeState == old(stakeState)
      ensures old(stakeState) == Approving && outcome == Returned(true) ==> stakeState == AfterApproval(gardenAddress)
      ensures old(stakeState) == Approving && outcome == Returned(false) ==> stakeState == Approve
      ensures amount == old(amount) && txHash == old(txHash) && permit == old(permit)
      ensures submitted == old(submitted) && reports == old(reports)
    {
      inFlight := inFlight - multiset{AwaitApproval};
      if stakeState == Approving {
        match outcome
        case Returned(isApproved) =>
          stakeState := if isApproved then AfterApproval(gardenAddress) else Approve;
        case Threw(_) =>
      }
    }

    /**
     * A new block while APPROVING with a positive amount starts the handler:
     * it keeps the `amount` of that moment and awaits the signer's address and
     * the pool token's allowance for the spender.
     */
    method OnBlock()
      requires Valid()
      modifies this
      ensures Valid()
      ensures old(Sequenced()) ==> Sequenced()
      ensures inFlight ==
        (if old(amount) > 0 && old(stakeState) == Approving
         then old(inFlight) + multiset{AwaitAllowance(old(amount))} else old(inFlight))
      ensures amount == old(amount) && stakeState == old(stakeState)
      ensures txHash == old(txHash) && permit == old(permit)
      ensures submitted == old(submitted) && reports == old(reports)
    {
      if amount > 0 && stakeState == Approving {
        inFlight := inFlight + multiset{AwaitAllowance(amount)};
      }
    }

    /**
     * The allowance read of a block handler returns, as the code is written:
     * an allowance covering the amount the handler kept moves on as a granted
     * approval would, whatever the state has become in the meantime; removing
     * the listener does not stop a handler already running. A failed read is
     * an unhandled rejection and changes nothing.
     */
    method AllowanceSettled(blockAmount: nat, allowance: Outcome<nat>)
      requires Valid() && AwaitAllowance(blockAmount) in inFlight
      modifies this
      ensures Valid()
      ensures inFlight == old(inFlight) - multiset{AwaitAllowance(blockAmount)}
      ensures stakeState ==
        (if allowance.Returned? && blockAmount <= allowance.value
         then AfterApproval(gardenAddress) else old(stakeState))
      ensures amount == old(amount) && txHash == old(txHash) && permit == old(permit)
      ensures submitted == old(submitted) && reports == old(reports)
    {
      inFlight := inFlight - multiset{AwaitAllowance(blockAmount)};
      match allowance
      case Returned(value) =>
        if blockAmount <= value {
          stakeState := AfterApproval(gardenAddress);
        }
      case Threw(_) =>
    }

    /** The allowance result as evidently intended: it moves the workflow only while still APPROVING. */
    method AllowanceSettledIntended(blockAmount: nat, allowance: Outcome<nat>)
      requires Valid() && AwaitAllowance(blockAmount) in inFlight
      modifies this
      ensures Valid()
      ensures old(Sequenced()) ==> Sequenced()
      ensures inFlight == old(inFlight) - multiset{AwaitAllowance(blockAmount)}
      ensures stakeState ==
        (if old(stakeState) == Approving && allowance.Returned? && blockAmount <= allowance.value
         then AfterApproval(gardenAddress) else old(stakeState))
      ensures amount == old(amount) && txHash == old(txHash) && permit == old(permit)
      ensures submitted == old(submitted) && reports == old(reports)
    {
      inFlight := inFlight - multiset{AwaitAllowance(blockAmount)};
      if stakeState == Approving {
        match allowance
        case Returned(value) =>
          if blockAmount <= value {
            stakeState := AfterApproval(gardenAddress);
          }
        case Threw(_) =>
      }
    }

    /**
     * `onStake`, run by the STAKE button (enabled only for a positive amount
     * within `maxAmount`): enter STAKING and submit the stake with the permit
     * flag.
     */
    method OnStake(maxAmount: nat)
      requires Valid()
      requires OfferedAction(stakeState) == Some(StakeAction) && !ActionDisabled(amount, maxAmount)
      modifies this
      ensures Valid()
      ensures old(Sequenced()) ==> Sequenced()
      ensures stakeState == Staking
      ensures inFlight == old(inFlight) + multiset{AwaitResponse(StakeStep)}
      ensures submitted == old(submitted) + [StakeRequest(amount, poolAddress, lmAddress, permit)]
      ensures amount == old(amount) && txHash == old(txHash) && permit == old(permit) && reports == old(reports)
    {
      stakeState := Staking;
      submitted := submitted + [StakeRequest(amount, poolAddress, lmAddress, permit)];
      inFlight := inFlight + multiset{AwaitResponse(StakeStep)};
    }

    /**
     * `onWrap`, run by the button offered in WRAP (enabled only for a positive
     * amount within `maxAmount`): enter WRAPPING and submit the wrap to the
     * garden. Its guard against a missing garden cannot fire, since WRAP needs
     * one.
     */
    method OnWrap(maxAmount: nat)
      requires Valid()
      requires OfferedAction(stakeState) == Some(WrapAction) && !ActionDisabled(amount, maxAmount)
      modifies this
      ensures Valid()
      ensures old(Sequenced()) ==> Sequenced()
      ensures gardenAddress.Some?
      ensures stakeState == Wrapping
      ensures inFlight == old(inFlight) + multiset{AwaitResponse(WrapStep)}
      ensures submitted == old(submitted) + [WrapRequest(amount, poolAddress, gardenAddress.value)]
      ensures amount == old(amount) && txHash == old(txHash) && permit == old(permit) && reports == old(reports)
    {
      if gardenAddress.None? {
        return;
      }
      stakeState := Wrapping;
      submitted := submitted + [WrapRequest(amount, poolAddress, gardenAddress.value)];
      inFlight := inFlight + multiset{AwaitResponse(WrapStep)};
    }

    /**
     * The stake or wrap submission returns: no response goes back to the step's
     * state; a response records its hash, enters CONFIRMING and awaits the
     * receipt; a thrown error goes back on a user rejection and to ERROR
     * otherwise, and is reported in both cases.
     */
    method SubmissionSettled(step: Step, outcome: Outcome<TxResponse>)
      requires Valid() && AwaitResponse(step) in inFlight
      modifies this
      ensures Valid()
      ensures old(Sequenced()) ==> Sequenced()
      ensures outcome == Returned(NoResponse) ==>
        stakeState == step.Retry() && txHash == old(txHash)
        && inFlight == old(inFlight) - multiset{AwaitResponse(step)} && reports == old(reports)
      ensures outcome.Returned? && outcome.value.Sent? ==>
        stakeState == Confirming && txHash == outcome.value.hash
        && inFlight == old(inFlight) - multiset{AwaitResponse(step)} + multiset{AwaitReceipt(step)}
        && reports == old(reports)
      ensures outcome.Threw? ==>
        stakeState == AfterThrow(outcome.code, step.Retry()) && txHash == old(txHash)
        && inFlight == old(inFlight) - multiset{AwaitResponse(step)}
        && reports == old(reports) + [Report(outcome.code, step.Section())]
      ensures amount == old(amount) && permit == old(permit) && submitted == old(submitted)
    {
      inFlight := inFlight - multiset{AwaitResponse(step)};
      match outcome
      case Returned(NoResponse) =>
        stakeState := step.Retry();
      case Returned(Sent(hash)) =>
        txHash := hash;
        stakeState := Confirming;
        inFlight := inFlight + multiset{AwaitReceipt(step)};
      case Threw(code) =>
        stakeState := AfterThrow(code, step.Retry());
        reports := reports + [Report(code, step.Section())];
    }

    /**
     * The receipt of a stake or wrap transaction arrives: CONFIRMED on a truthy
     * status, ERROR otherwise; a throw from the wait is handled like a thrown
     * submission.
     */
    method ReceiptSettled(step: Step, outcome: Outcome<bool>)
      requires Valid() && AwaitReceipt(step) in inFlight
      modifies this
      ensures Valid()
      ensures old(Sequenced()) ==> Sequenced()
      ensures inFlight == old(inFlight) - multiset{AwaitReceipt(step)}
      ensures outcome.Returned? ==>
        stakeState == (if outcome.value then Confirmed else Error) && reports == old(reports)
      ensures outcome.Threw? ==>
        stakeState == AfterThrow(outcome.code, step.Retry())
        && reports == old(reports) + [Report(outcome.code, step.Section())]
      ensures amount == old(amount) && txHash == old(txHash) && permit == old(permit)
      ensures submitted == old(submitted)
    {
      inFlight := inFlight - multiset{AwaitReceipt(step)};
      match outcome
      case Returned(status) =>
        stakeState := if status then Confirmed else Error;
      case Threw(code) =>
        stakeState := AfterThrow(code, step.Retry());
        reports := reports + [Report(code, step.Section())];
    }

    /**
     * `handlePermit`, wired to the toggle that is rendered without a garden
     * wherever the form is shown. The toggle ignores its `disabled` flag, so
     * a press in APPROVING or STAKING reaches it too: turning permit on skips
     * to STAKE, turning it off returns to APPROVE, whatever is in flight.
     */
    method HandlePermit()
      requires Valid() && gardenAddress.None? && !ShowsResultPanel(stakeState)
      modifies this
      ensures Valid()
      ensures permit == !old(permit)
      ensures stakeState == (if permit then Stake else Approve)
      ensures amount == old(amount) && txHash == old(txHash)
      ensures inFlight == old(inFlight) && submitted == old(submitted) && reports == old(reports)
    {
      if permit {
        permit := false;
        stakeState := Approve;
      } else {
        permit := true;
        stakeState := Stake;
      }
    }

    /**
     * `handlePermit` as evidently intended: the toggle honours its `disabled`
     * flag, so it acts only in APPROVE and STAKE, where nothing is in flight.
     */
    method HandlePermitIntended()
      requires Valid() && gardenAddress.None? && InputsEnabled(stakeState)
      modifies this
      ensures Valid()
      ensures old(Sequenced()) ==> Sequenced()
      ensures permit == !old(permit)
      ensures stakeState == (if permit then Stake else Approve)
      ensures amount == old(amount) && txHash == old(txHash)
      ensures inFlight == old(inFlight) && submitted == old(submitted) && reports == old(reports)
    {
      if permit {
        permit := false;
        stakeState := Approve;
      } else {
        permit := true;
        stakeState := Stake;
      }
    }
  }

  /** A session whose amount is 0 submits nothing on APPROVE; neither does one without a library. */
  method ZeroAmountApproveSubmitsNothing(lm: string, pool: string)
  {
    var m := new StakeModal(lm, pool, None);
    m.OnApprove(true, 10);
    assert m.stakeState == Approve && m.submitted == [];
    m.SetAmount(3);
    m.OnApprove(false, 10);
    assert m.stakeState == Approve && m.submitted == [];
  }

  /** With a garden, a block that shows enough allowance moves APPROVING to WRAP. */
  method BlockAdvancesToWrap(lm: string, pool: string, garden: string, a: nat)
    requires a > 0
  {
    var m := new StakeModal(lm, pool, Some(garden));
    m.SetAmount(a);
    m.OnApprove(true, a);
    assert m.stakeState == Approving;
    m.OnBlock();
    m.AllowanceSettledIntended(a, Returned(a));
    assert m.stakeState == Wrap;
    m.SetAmount(a + 1);
    assert m.stakeState == Approve;
  }

  /** A rejected stake returns to STAKE and is still reported. */
  method RejectedStakeRetries(lm: string, pool: string)
  {
    var m := new StakeModal(lm, pool, None);
    m.HandlePermit();
    assert m.stakeState == Stake && m.permit;
    m.SetAmount(1);
    m.OnStake(1);
    m.SubmissionSettled(StakeStep, Threw(Some(UserRejected)));
    assert m.stakeState == Stake;
    assert m.reports == [Report(Some(UserRejected), "onStake")];
  }

  /**
   * As written, an approval result that arrives after the block handler has
   * already moved the session on, and the user has pressed STAKE, puts the
   * session back to STAKE: a second press submits a second stake while the
   * first is still awaited.
   */
  method LateApprovalResubmits(lm: string, pool: string) returns (m: StakeModal)
    ensures m.inFlight[AwaitResponse(StakeStep)] == 2
    ensures |m.submitted| == 3 && m.submitted[1] == m.submitted[2]
  {
    m := new StakeModal(lm, pool, None);
    m.SetAmount(5);
    m.OnApprove(true, 5);
    m.OnBlock();
    m.AllowanceSettled(5, Returned(5));
    m.OnStake(5);
    m.ApprovalSettled(Returned(true));
    assert m.stakeState == Stake;
    m.OnStake(5);
  }

  /**
   * As written, a block handler whose allowance read resolves after the
   * approval has moved the session on, and the user has pressed STAKE, puts
   * the session back to STAKE in the same way.
   */
  method LateAllowanceResubmits(lm: string, pool: string) returns (m: StakeModal)
    ensures m.inFlight[AwaitResponse(StakeStep)] == 2
    ensures |m.submitted| == 3 && m.submitted[1] == m.submitted[2]
  {
    m := new StakeModal(lm, pool, None);
    m.SetAmount(5);
    m.OnApprove(true, 5);
    m.OnBlock();
    m.ApprovalSettled(Returned(true));
    m.OnStake(5);
    m.AllowanceSettled(5, Returned(5));
    assert m.stakeState == Stake;
    m.OnStake(5);
  }

  /**
   * With the intended settle methods the same interleavings leave the late
   * result without effect: the session stays STAKING with one stake awaited,
   * and no button is offered.
   */
  method LateResultsIgnored(lm: string, pool: string) returns (m: StakeModal)
    ensures m.stakeState == Staking && m.Sequenced() && m.Submissions() == 1
    ensures OfferedAction(m.stakeState).None?
  {
    m := new StakeModal(lm, pool, None);
    m.SetAmount(5);
    m.OnApprove(true, 5);
    m.OnBlock();
    m.OnBlock();
    m.AllowanceSettledIntended(5, Returned(5));
    m.OnStake(5);
    m.ApprovalSettledIntended(Returned(true));
    m.AllowanceSettledIntended(5, Returned(5));
  }

  /**
   * As written, the permit toggle still reacts while a stake is awaited:
   * turning permit on from STAKING shows STAKE again, and a second press
   * submits a second stake, even with the intended settle methods.
   */
  method PermitToggleResubmits(lm: string, pool: string) returns (m: StakeModal)
    ensures m.inFlight[AwaitResponse(StakeStep)] == 2 && !m.Sequenced()
    ensures |m.submitted| == 3 && m.submitted[1].StakeRequest? && m.submitted[2].StakeRequest?
  {
    m := new StakeModal(lm, pool, None);
    m.SetAmount(5);
    m.OnApprove(true, 5);
    m.ApprovalSettledIntended(Returned(true));
    m.OnStake(5);
    assert m.stakeState == Staking && !m.permit;
    m.HandlePermit();
    assert m.stakeState == Stake;
    m.OnStake(5);
  }
}
