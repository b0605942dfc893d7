# Dispenser client model

A Dafny model of the typed client for the on-chain Dispenser contract
(`src/pools/dispenser/Dispenser.ts`). The contract hands out a datatoken to
requesters under limits set by the dispenser's owner. The client covers three things:

- **status**: reads a dispenser's record from the chain. A failed read becomes
  `null`. Otherwise the client converts `maxTokens`, `maxBalance` and `balance`
  from base units in place, on the fetched object.
- **isDispensable**: a client-side pre-flight check. It fetches the status and
  then runs its checks in order, stopping at the first that fails:
  1. a status record exists;
  2. the dispenser is active;
  3. the requester holds less than `maxBalance`;
  4. the request is at most `maxTokens`;
  5. the dispenser holds enough tokens, or may mint.
- **the six transactions** (`create`, `activate`, `deactivate`,
  `setAllowedSwapper`, `dispense`, `ownerWithdraw`). Each one:
  - estimates gas for a contract call;
  - sends that same call from the caller's address, with gas limit
    `estimate + 1` and the fair gas price;
  - handles failures by one of three error policies, depending on where its
    `try` block starts.

Files:

- `outcomes.dfy` (module `Outcomes`): `Option`, which stands for a result that
  may be `null`, and `Outcome`, the result of an awaited external call (a value
  or a thrown exception).
- `dispenser.dfy` (module `Dispenser`): everything else.

How the model is built:

- Amounts are `real`, the exact value of the decimal strings that the client
  compares through decimal.js.
- `toWei`/`fromWei` are abstract: they are function-valued fields of `Units`.
- The chain connector and gas helpers form a `Chain` value with three parts:
  - the gas estimate for a call made from an address;
  - the fair gas price;
  - the outcome of sending a given transaction.
- `status` and `isDispensable` are methods. They update a `DispenserToken`
  object in place, as the client does. `isDispensable` is proved against the
  declarative rule `Dispensable`.
- The transactions are functions from a `Chain` to an `Exchange`. An `Exchange`
  records the transaction that was submitted, if any, and whether the call
  returned a receipt, returned null or threw.

Where the code and its descriptions disagree, the model follows the code:

- `isDispensable` can throw. The datatoken balance query
  (src/pools/dispenser/Dispenser.ts:426) is outside any `try`, so its failure
  reaches the caller. The model shows this as `Err` for an active dispenser
  (see `Dispensable` and `CheckOrderIsObservable`).
- The parameter notes of `activate` say a requester is refused when their
  balance is greater than `maxBalance`. `isDispensable` already refuses at
  equality (`MaxBalanceIsExclusive`).

## Model

| member | source | states |
|---|---|---|
| `Dispenser.Converted` | src/pools/dispenser/Dispenser.ts:68-70 | the reported snapshot has `maxTokens`, `maxBalance` and `balance` converted by `fromWei`; every other field (active, owner, isMinter, allowedSwapper) is the raw one |
| `Dispenser.Status` | src/pools/dispenser/Dispenser.ts:63-76 | a failed contract read gives null instead of throwing; a successful read returns the fetched object itself, whose new contents are the converted snapshot of its old contents |
| `Dispenser.Dispensable` | src/pools/dispenser/Dispenser.ts:421-434 | the answer is an exception exactly when the status exists, is active and the requester balance query fails; it is true exactly when the status exists, the balance query succeeds and the dispenser is active, the requester holds less than `maxBalance`, the amount is at most `maxTokens`, and the dispenser holds at least the amount or may mint |
| `Dispenser.IsDispensable` | src/pools/dispenser/Dispenser.ts:415-435 | the early-return implementation, with default amount 1, run on the fetched status, answers what `Dispensable` answers for the converted snapshot (or for no snapshot when the read fails); afterwards the fetched object holds that converted snapshot |
| `Dispenser.NoStatusRejects` | src/pools/dispenser/Dispenser.ts:421-422 | with no status record the answer is false, whatever the balance query and the amount |
| `Dispenser.InactiveRejects` | src/pools/dispenser/Dispenser.ts:424 | an inactive dispenser gives false even if every balance and amount check would pass, and even if the balance query would fail |
| `Dispenser.MaxBalanceIsExclusive` | src/pools/dispenser/Dispenser.ts:426-427 | a requester holding `maxBalance` or more is refused (answer false), equality included |
| `Dispenser.OverMaxBalanceRejects` | src/pools/dispenser/Dispenser.ts:426-427 | a requester holding 6 against a `maxBalance` of 5 is refused whatever the other fields are |
| `Dispenser.MaxTokensIsInclusive` | src/pools/dispenser/Dispenser.ts:429 | an amount above `maxTokens` is refused; an amount equal to `maxTokens` is granted when the other checks pass |
| `Dispenser.SupplyCheckDecides` | src/pools/dispenser/Dispenser.ts:431-434 | once the active, balance and amount checks pass, the answer is exactly "held balance at least the amount, or minter" |
| `Dispenser.DispensableIsMonotone` | src/pools/dispenser/Dispenser.ts:426-434 | lowering the requested amount or the requester's balance never turns a grant into a refusal |
| `Dispenser.MinterFlagDecides` | src/pools/dispenser/Dispenser.ts:431-434 | with maxTokens 10, maxBalance 5, held balance 2, requester balance 1 and amount 3, a minting dispenser grants and a non-minting one refuses |
| `Dispenser.CheckOrderIsObservable` | src/pools/dispenser/Dispenser.ts:421-427 | for every dispenser and amount: a failing balance query is thrown when the dispenser is active, and the same dispenser made inactive answers false before the query is reached |
| `Dispenser.SomePositiveAmountIsGranted` | src/pools/dispenser/Dispenser.ts:424-434 | every active dispenser with positive `maxTokens` and `maxBalance` that holds tokens or may mint grants some positive amount to a requester holding nothing |
| `Dispenser.Submit` | src/pools/dispenser/Dispenser.ts:121-145 | a transaction is submitted exactly when the estimate and the gas price succeed; it carries the estimated call, from the estimating address, with gas limit estimate + 1 at the fair price; the receipt is returned exactly when the send succeeds; a failure is thrown exactly when the policy's try block does not cover the step that failed |
| `Dispenser.Create` | src/pools/dispenser/Dispenser.ts:114-146 | create never returns null; it sends `create(dt, toWei(maxTokens), toWei(maxBalance), address, allowedSwapper)` from `address` with gas limit one above the estimate for that same call |
| `Dispenser.Activate` | src/pools/dispenser/Dispenser.ts:179-210 | activate never throws; it sends `activate(dt, toWei(maxTokens), toWei(maxBalance))` from `address` with gas limit one above the estimate for that same call |
| `Dispenser.Deactivate` | src/pools/dispenser/Dispenser.ts:228-249 | deactivate never throws; it sends `deactivate(dt)` from `address` with gas limit one above the estimate for that same call |
| `Dispenser.SetAllowedSwapper` | src/pools/dispenser/Dispenser.ts:278-303 | setAllowedSwapper never throws; it sends `setAllowedSwapper(dt, newAllowedSwapper)` from `address` with gas limit one above the estimate for that same call |
| `Dispenser.Dispense` | src/pools/dispenser/Dispenser.ts:337-364 | with amount defaulting to 1, dispense throws exactly when the gas estimate for `dispense(dt, toWei(amount), destination)` fails; it sends that call from `address` with gas limit one above that estimate |
| `Dispenser.OwnerWithdraw` | src/pools/dispenser/Dispenser.ts:383-406 | ownerWithdraw throws exactly when the gas estimate for `ownerWithdraw(dt)` fails; it sends that call from `address` with gas limit one above that estimate |
| `Dispenser.PolicyOnlyShapesFailures` | src/pools/dispenser/Dispenser.ts:185-209 | the error policy changes neither what is submitted nor any receipt returned; it decides only how failures surface |
| `Dispenser.PoliciesDisagreeOnFailures` | src/pools/dispenser/Dispenser.ts:343-363 | a failed estimate is thrown by create and dispense/ownerWithdraw but gives null in activate/deactivate/setAllowedSwapper; a failed gas-price fetch or send is thrown only by create |

## Left out

- Construction of the client is not modelled: the web3 handle, contract binding, ABI default and network configuration default (src/pools/dispenser/Dispenser.ts:40-56). This is library wiring. The model takes the resulting `Units` and `Chain` as parameters.
- The `estGas*` methods are not modelled: each is a one-line delegation to the gas estimator, already used inside `Submit`.
- The internals of the gas estimator and the fair-gas-price helper are not modelled. Their results are the outcomes in `Chain`.
- `toWei`/`fromWei` are abstract and total. The model states no round-trip law for them and does not model their exceptions on malformed input. A `fromWei` failure inside `status` would partly overwrite the object and then return null; the model does not capture that.
- Decimal parsing is not modelled. Amounts arrive as exact numbers, so the exception `new Decimal` raises on a malformed string is left out.
- JavaScript number semantics are not modelled: gas is an unbounded `nat`, so `estGas + 1` can neither lose precision nor concatenate strings.
- Logging, `async` scheduling and the datatoken balance RPC are not modelled. The balance RPC appears only as its outcome.
- The on-chain contract's access control, minting and balance accounting are not modelled. They live in the deployed bytecode, not in the client.
