/** The client of the on-chain Dispenser contract: the status read with its
    unit conversion, the client-side eligibility check, and the six
    transactions it submits, each through the same estimate-then-send
    pipeline under one of three error policies. */
module Dispenser {
  import opened Outcomes

  type Address = string

  /** A decimal amount, held as the exact number its decimal string denotes. */
  type Amount = real

  /** The `amount` that dispense and isDispensable use when the caller passes none. */
  const DefaultAmount: Amount := 1.0

  /** The unit helpers of the web3 handle, kept abstract: `toWei` scales a
      human-readable amount to base units, `fromWei` scales back. */
  datatype Units = Units(toWei: Amount -> Amount, fromWei: Amount -> Amount)

  // ---------------------------------------------------------------------------
  // Status
  // ---------------------------------------------------------------------------

  /** A snapshot of one datatoken's dispenser, as a value. */
  datatype DispenserState = DispenserState(
    active: bool,
    owner: Address,
    maxTokens: Amount,
    maxBalance: Amount,
    balance: Amount,
    isMinter: bool,
    allowedSwapper: Address)

  /** The record object the contract read hands back, which `Status` edits in place. */
  class DispenserToken {
    var active: bool
    var owner: Address
    var maxTokens: Amount
    var maxBalance: Amount
    var balance: Amount
    var isMinter: bool
    var allowedSwapper: Address

    function State(): DispenserState
      reads this
    {
      DispenserState(active, owner, maxTokens, maxBalance, balance, isMinter, allowedSwapper)
    }
  }

  /** The snapshot `status` reports for a raw snapshot read from the chain:
      the three amount fields are converted out of base units and nothing
      else changes. */
  function Converted(raw: DispenserState, fromWei: Amount -> Amount): (s: DispenserState)
    ensures s.maxTokens == fromWei(raw.maxTokens)
    ensures s.maxBalance == fromWei(raw.maxBalance)
    ensures s.balance == fromWei(raw.balance)
    ensures s.(maxTokens := raw.maxTokens, maxBalance := raw.maxBalance, balance := raw.balance) == raw
  {
    raw.(maxTokens := fromWei(raw.maxTokens),
         maxBalance := fromWei(raw.maxBalance),
         balance := fromWei(raw.balance))
  }

  /** The objects `Status` may update: the fetched record, when there is one. */
  function Fetched(read: Outcome<DispenserToken>): set<DispenserToken>
  {
    if read.Ok? then {read.value} else {}
  }

  /** `status`: `read` is the outcome of the contract's status call for the
      datatoken. A failed read is swallowed and yields null; otherwise the
      fetched object itself is returned, its amounts converted in place. */
  method Status(read: Outcome<DispenserToken>, units: Units) returns (r: DispenserToken?)
    modifies Fetched(read)
    ensures read.Err? ==> r == null
    ensures read.Ok? ==> r == read.value && r.State() == Converted(old(read.value.State()), units.fromWei)
  {
    match read
    case Err =>
      r := null;
    case Ok(result) =>
      result.maxTokens := units.fromWei(result.maxTokens);
      result.maxBalance := units.fromWei(result.maxBalance);
      result.balance := units.fromWei(result.balance);
      r := result;
  }

  // ---------------------------------------------------------------------------
  // Eligibility
  // ---------------------------------------------------------------------------

  /** The eligibility rule as one condition, with no order among its parts:
      an active dispenser, a requester holding strictly less than
      `maxBalance`, a request of at most `maxTokens`, and either enough held
      tokens or the right to mint. */
  predicate Eligible(s: DispenserState, requesterBalance: Amount, amount: Amount)
  {
    s.active
    && requesterBalance < s.maxBalance
    && amount <= s.maxTokens
    && (s.balance >= amount || s.isMinter)
  }

  /** What `isDispensable` answers for a status snapshot (None when the
      status read failed) and the outcome of the requester's balance query.
      The balance is only queried for an active dispenser, so only then can
      its failure escape as an exception (`Err`). */
  function Dispensable(status: Option<DispenserState>, requesterBalance: Outcome<Amount>, amount: Amount): (r: Outcome<bool>)
    ensures r.Err? <==> status.Some? && status.value.active && requesterBalance.Err?
    ensures r == Ok(true) <==> status.Some? && requesterBalance.Ok? && Eligible(status.value, requesterBalance.value, amount)
  {
    match status
    case None => Ok(false)
    case Some(s) =>
      if !s.active then Ok(false)
      else
        match requesterBalance
        case Err => Err
        case Ok(userBalance) => Ok(Eligible(s, userBalance, amount))
  }

  /** `isDispensable`: fetch the status, then run the checks in the client's
      order, returning at the first that fails. `requesterBalance` is the
      outcome of the datatoken balance query for the requester. */
  method IsDispensable(read: Outcome<DispenserToken>, units: Units, requesterBalance: Outcome<Amount>,
                       amount: Amount := DefaultAmount)
    returns (r: Outcome<bool>)
    modifies Fetched(read)
    ensures read.Ok? ==> read.value.State() == Converted(old(read.value.State()), units.fromWei)
    ensures r == Dispensable(if read.Ok? then Some(Converted(old(read.value.State()), units.fromWei)) else None,
                             requesterBalance, amount)
  {
    var status := Status(read, units);
    if status == null {
      return Ok(false);
    }
    if status.active == false {
      return Ok(false);
    }
    if requesterBalance.Err? {
      return Err;
    }
    var userBalance := requesterBalance.value;
    if userBalance >= status.maxBalance {
      return Ok(false);
    }
    if amount > status.maxTokens {
      return Ok(false);
    }
    if status.balance >= amount || status.isMinter == true {
      return Ok(true);
    }
    return Ok(false);
  }

  /** Without a status record the answer is false, whatever the balance and amount. */
  lemma NoStatusRejects(requesterBalance: Outcome<Amount>, amount: Amount)
    ensures Dispensable(None, requesterBalance, amount) == Ok(false)
  {
  }

  /** An inactive dispenser is refused even when every amount check would pass,
      and its requester balance is never consulted. */
  lemma InactiveRejects(s: DispenserState, requesterBalance: Outcome<Amount>, amount: Amount)
    requires !s.active
    ensures Dispensable(Some(s), requesterBalance, amount) == Ok(false)
  {
  }

  /** `maxBalance` is exclusive: a requester holding it or more is refused,
      equality included. */
  lemma MaxBalanceIsExclusive(s: DispenserState, requesterBalance: Amount, amount: Amount)
    requires requesterBalance >= s.maxBalance
    ensures Dispensable(Some(s), Ok(requesterBalance), amount) == Ok(false)
  {
  }

  /** `maxTokens` is inclusive: more is refused, exactly that much passes this check. */
  lemma MaxTokensIsInclusive(s: DispenserState, requesterBalance: Amount, amount: Amount)
    ensures amount > s.maxTokens ==> Dispensable(Some(s), Ok(requesterBalance), amount) != Ok(true)
    ensures s.active && requesterBalance < s.maxBalance && (s.balance >= s.maxTokens || s.isMinter)
            ==> Dispensable(Some(s), Ok(requesterBalance), s.maxTokens) == Ok(true)
  {
  }

  /** Once the earlier checks pass, the answer is true exactly when the
      dispenser holds at least `amount` or may mint. */
  lemma SupplyCheckDecides(s: DispenserState, requesterBalance: Amount, amount: Amount)
    requires s.active && requesterBalance < s.maxBalance && amount <= s.maxTokens
    ensures Dispensable(Some(s), Ok(requesterBalance), amount) == Ok(s.balance >= amount || s.isMinter)
  {
  }

  /** A smaller request, or a requester holding less, is never refused where a
      larger one was granted. */
  lemma DispensableIsMonotone(s: DispenserState, requesterBalance: Amount, amount: Amount,
                              smallerBalance: Amount, smallerAmount: Amount)
    requires smallerBalance <= requesterBalance && smallerAmount <= amount
    requires Dispensable(Some(s), Ok(requesterBalance), amount) == Ok(true)
    ensures Dispensable(Some(s), Ok(smallerBalance), smallerAmount) == Ok(true)
  {
  }

  /** The minting right is decisive: with maxTokens 10, maxBalance 5, a held
      balance of 2, a requester holding 1 and a request for 3, a minting
      dispenser grants and a non-minting one refuses. */
  lemma MinterFlagDecides(owner: Address, allowedSwapper: Address)
    ensures Dispensable(Some(DispenserState(true, owner, 10.0, 5.0, 2.0, true, allowedSwapper)), Ok(1.0), 3.0) == Ok(true)
    ensures Dispensable(Some(DispenserState(true, owner, 10.0, 5.0, 2.0, false, allowedSwapper)), Ok(1.0), 3.0) == Ok(false)
  {
  }

  /** The rule never shuts out everyone: an active dispenser with positive
      limits that holds tokens or may mint grants some positive amount to a
      requester holding nothing. The largest such amount is `maxTokens` for a
      minter and the smaller of `maxTokens` and the held balance otherwise. */
  lemma SomePositiveAmountIsGranted(s: DispenserState)
    requires s.active && s.maxTokens > 0.0 && s.maxBalance > 0.0 && (s.balance > 0.0 || s.isMinter)
    ensures exists amount: Amount :: amount > 0.0 && Dispensable(Some(s), Ok(0.0), amount) == Ok(true)
  {
    var amount := if s.isMinter || s.maxTokens <= s.balance then s.maxTokens else s.balance;
    assert Dispensable(Some(s), Ok(0.0), amount) == Ok(true);
  }

  /** A requester holding 6 against a maxBalance of 5 is refused whatever the
      other fields say. */
  lemma OverMaxBalanceRejects(s: DispenserState, amount: Amount)
    requires s.maxBalance == 5.0
    ensures Dispensable(Some(s), Ok(6.0), amount) != Ok(true)
  {
  }

  /** The order of the checks is observable: a failing balance query escapes
      from an active dispenser but is never reached for an inactive one. */
  lemma CheckOrderIsObservable(s: DispenserState, amount: Amount)
    ensures s.active ==> Dispensable(Some(s), Err, amount) == Err
    ensures Dispensable(Some(s.(active := false)), Err, amount) == Ok(false)
  {
  }

  // ---------------------------------------------------------------------------
  // Transactions
  // ---------------------------------------------------------------------------

  /** A contract method together with the arguments it is called with. */
  datatype ContractCall =
    | CreateCall(datatoken: Address, maxTokens: Amount, maxBalance: Amount, owner: Address, allowedSwapper: Address)
    | ActivateCall(datatoken: Address, maxTokens: Amount, maxBalance: Amount)
    | DeactivateCall(datatoken: Address)
    | SetAllowedSwapperCall(datatoken: Address, newAllowedSwapper: Address)
    | DispenseCall(datatoken: Address, amount: Amount, destination: Address)
    | OwnerWithdrawCall(datatoken: Address)

  /** The options a transaction is sent with. */
  datatype TxOptions = TxOptions(from: Address, gas: nat, gasPrice: nat)

  /** A transaction handed to the chain connector. */
  datatype Submission = Submission(call: ContractCall, options: TxOptions)

  /** The connector's transaction receipt; the client passes it on unread. */
  datatype Receipt = Receipt(transactionHash: string)

  /** The collaborators every transaction goes through: the gas estimate for
      a call made from an address, the fair gas price, and the send itself. */
  datatype Chain = Chain(
    estimateGas: (Address, ContractCall) -> Outcome<nat>,
    fairGasPrice: Outcome<nat>,
    send: Submission -> Outcome<Receipt>)

  /** How a client call ends: with the receipt, with null after a caught
      failure, or by throwing a failure to its caller. */
  datatype Completion = Returned(receipt: Receipt) | Null | Propagated

  /** What a transaction call did: the transaction it submitted, if any, and how it ended. */
  datatype Exchange = Exchange(submitted: Option<Submission>, completion: Completion)

  /** Which failures a call's try block covers: the gas estimate, and the
      step that fetches the gas price and sends. */
  datatype ErrorPolicy = ErrorPolicy(catchesEstimate: bool, catchesSend: bool)

  /** create: no try block. */
  const PropagateAll := ErrorPolicy(false, false)
  /** activate, deactivate, setAllowedSwapper: the whole body is in the try block. */
  const CatchAll := ErrorPolicy(true, true)
  /** dispense, ownerWithdraw: the estimate comes before the try block. */
  const CatchSendOnly := ErrorPolicy(false, true)

  function Failure(caught: bool): Completion
  {
    if caught then Null else Propagated
  }

  /** The transaction was sent from `from` with a gas limit one above the
      estimate for the very call it carries. */
  predicate SentAsEstimated(chain: Chain, from: Address, submission: Submission)
  {
    submission.options.from == from
    && submission.options.gas >= 1
    && chain.estimateGas(from, submission.call) == Ok(submission.options.gas - 1)
  }

  /** The pipeline shared by the six transactions: estimate the gas of
      `call` from `from`, then send `call` from `from` with gas limit
      `estimate + 1` at the fair gas price; failures end the call as the
      policy says. */
  function Submit(policy: ErrorPolicy, chain: Chain, from: Address, call: ContractCall): (r: Exchange)
    ensures r.submitted.Some? <==> chain.estimateGas(from, call).Ok? && chain.fairGasPrice.Ok?
    ensures r.submitted.Some? ==>
              r.submitted.value.call == call
              && r.submitted.value.options.gasPrice == chain.fairGasPrice.value
              && SentAsEstimated(chain, from, r.submitted.value)
    ensures r.completion.Returned? <==> r.submitted.Some? && chain.send(r.submitted.value).Ok?
    ensures r.completion.Returned? ==> chain.send(r.submitted.value) == Ok(r.completion.receipt)
    ensures r.completion.Propagated? <==>
              if chain.estimateGas(from, call).Err? then !policy.catchesEstimate
              else !r.completion.Returned? && !policy.catchesSend
  {
    match chain.estimateGas(from, call)
    case Err => Exchange(None, Failure(policy.catchesEstimate))
    case Ok(estGas) =>
      match chain.fairGasPrice
      case Err => Exchange(None, Failure(policy.catchesSend))
      case Ok(gasPrice) =>
        var submission := Submission(call, TxOptions(from, estGas + 1, gasPrice));
        match chain.send(submission)
        case Err => Exchange(Some(submission), Failure(policy.catchesSend))
        case Ok(receipt) => Exchange(Some(submission), Returned(receipt))
  }

  /** `create`: registers a dispenser owned by `address`; every failure reaches the caller. */
  function Create(chain: Chain, units: Units, dtAddress: Address, address: Address,
                  maxTokens: Amount, maxBalance: Amount, allowedSwapper: Address): (r: Exchange)
    ensures r.completion != Null
    ensures r.submitted.Some? ==>
              r.submitted.value.call
                == CreateCall(dtAddress, units.toWei(maxTokens), units.toWei(maxBalance), address, allowedSwapper)
              && SentAsEstimated(chain, address, r.submitted.value)
  {
    Submit(PropagateAll, chain, address,
           CreateCall(dtAddress, units.toWei(maxTokens), units.toWei(maxBalance), address, allowedSwapper))
  }

  /** `activate`: never throws; any failure gives null. */
  function Activate(chain: Chain, units: Units, dtAddress: Address,
                    maxTokens: Amount, maxBalance: Amount, address: Address): (r: Exchange)
    ensures r.completion != Propagated
    ensures r.submitted.Some? ==>
              r.submitted.value.call == ActivateCall(dtAddress, units.toWei(maxTokens), units.toWei(maxBalance))
              && SentAsEstimated(chain, address, r.submitted.value)
  {
    Submit(CatchAll, chain, address, ActivateCall(dtAddress, units.toWei(maxTokens), units.toWei(maxBalance)))
  }

  /** `deactivate`: never throws; any failure gives null. */
  function Deactivate(chain: Chain, dtAddress: Address, address: Address): (r: Exchange)
    ensures r.completion != Propagated
    ensures r.submitted.Some? ==>
              r.submitted.value.call == DeactivateCall(dtAddress)
              && SentAsEstimated(chain, address, r.submitted.value)
  {
    Submit(CatchAll, chain, address, DeactivateCall(dtAddress))
  }

  /** `setAllowedSwapper`: never throws; any failure gives null. */
  function SetAllowedSwapper(chain: Chain, dtAddress: Address, address: Address,
                             newAllowedSwapper: Address): (r: Exchange)
    ensures r.completion != Propagated
    ensures r.submitted.Some? ==>
              r.submitted.value.call == SetAllowedSwapperCall(dtAddress, newAllowedSwapper)
              && SentAsEstimated(chain, address, r.submitted.value)
  {
    Submit(CatchAll, chain, address, SetAllowedSwapperCall(dtAddress, newAllowedSwapper))
  }

  /** `dispense`: throws exactly when the gas estimate fails; a failed send gives null. */
  function Dispense(chain: Chain, units: Units, dtAddress: Address, address: Address,
                    amount: Amount := DefaultAmount, destination: Address): (r: Exchange)
    ensures r.completion.Propagated? <==>
              chain.estimateGas(address, DispenseCall(dtAddress, units.toWei(amount), destination)).Err?
    ensures r.submitted.Some? ==>
              r.submitted.value.call == DispenseCall(dtAddress, units.toWei(amount), destination)
              && SentAsEstimated(chain, address, r.submitted.value)
  {
    Submit(CatchSendOnly, chain, address, DispenseCall(dtAddress, units.toWei(amount), destination))
  }

  /** `ownerWithdraw`: throws exactly when the gas estimate fails; a failed send gives null. */
  function OwnerWithdraw(chain: Chain, dtAddress: Address, address: Address): (r: Exchange)
    ensures r.completion.Propagated? <==> chain.estimateGas(address, OwnerWithdrawCall(dtAddress)).Err?
    ensures r.submitted.Some? ==>
              r.submitted.value.call == OwnerWithdrawCall(dtAddress)
              && SentAsEstimated(chain, address, r.submitted.value)
  {
    Submit(CatchSendOnly, chain, address, OwnerWithdrawCall(dtAddress))
  }

  /** The error policy decides only how a failure surfaces: what is
      submitted, and every receipt returned, are the same under any policy. */
  lemma PolicyOnlyShapesFailures(p: ErrorPolicy, q: ErrorPolicy, chain: Chain, from: Address, call: ContractCall)
    ensures Submit(p, chain, from, call).submitted == Submit(q, chain, from, call).submitted
    ensures Submit(p, chain, from, call).completion.Returned?
            ==> Submit(q, chain, from, call).completion == Submit(p, chain, from, call).completion
  {
  }

  /** The three policies disagree exactly on failures: a failed estimate is
      thrown by create and dispense but turned into null by activate, and a
      failed send is thrown by create but turned into null by dispense. */
  lemma PoliciesDisagreeOnFailures(chain: Chain, from: Address, call: ContractCall)
    ensures chain.estimateGas(from, call).Err? ==>
              Submit(PropagateAll, chain, from, call).completion == Propagated
              && Submit(CatchSendOnly, chain, from, call).completion == Propagated
              && Submit(CatchAll, chain, from, call).completion == Null
    ensures chain.estimateGas(from, call).Ok? && !Submit(PropagateAll, chain, from, call).completion.Returned? ==>
              Submit(PropagateAll, chain, from, call).completion == Propagated
              && Submit(CatchSendOnly, chain, from, call).completion == Null
              && Submit(CatchAll, chain, from, call).completion == Null
  {
  }
}
