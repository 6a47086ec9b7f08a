# Token-holder payout handler, modelled in Dafny

This project models the core of a Go AWS Lambda handler, `HandleEvent` in `main.go`. The handler pays out a "deqode vault" on an Ethereum chain. In order, it:

1. parses its configuration;
2. dials the JSON-RPC endpoint;
3. fetches the suggested gas price;
4. parses the vault's and the processing identity's private keys;
5. reads the vault balance;
6. keeps back a fee reserve of `gasLimit * 2 * gasPrice` (with `gasLimit = 21000`) and rejects the run unless what is left is strictly positive;
7. transfers a third of the rest to the token-holder contract and twice that third to the deqode address;
8. loads the token-holder contract binding;
9. signs "sell vouchers" and "buy vouchers" with the processing key.

After each of the four transactions it waits for a receipt (`waitForTx`). The first call that fails ends the run with `("", err)`, built by `formatError`. A complete run returns `Token holder event successfully called at <event time>!`.

Modules:

- `Chain` (chain.dfy) holds the outcome types of collaborator calls. A call yields a value or fails with an opaque `ChainError`. `NotFound` is go-ethereum's `ethereum.NotFound`.
- `Fees` (fees.dfy) holds the reserve and the split, as exact integer arithmetic.
- `Receipts` (receipts.dfy) models `waitForTx`. The backend is a tagged variant:
  - `Simulated(reply)`: a backend that implements `Commit()`;
  - `Polled(rounds)`: any other backend. It is a finite script, one entry per loop iteration. Each entry says which `select` case fired (`ContextDone`, or `Tick(reply)` with the answer of the receipt query that follows).

  `Resolve` is the specification. `WaitForTx` is the loop, proved equal to it. When the script runs out before the loop ends, the result is `Unresolved`.
- `Handler` (handler.dfy) models the handler:
  - `Env` gives, stage by stage, what every collaborator call returns.
  - `Handle` is the specification of a run. It yields the outcome and the trace of calls made.
  - `HandleEvent` is the step-by-step version, proved equal to `Handle`. It keeps `vaultBalance` as a local that is reduced in place. It keeps the vault's `bind.TransactOpts` as a `TransactOpts` object whose fields are set one by one.
  - `StageFails` reads, from `Env` alone, whether each of the fifteen stages of `StageOrder` fails. The fail-fast lemmas are stated against it.

Details of the code the model keeps:

- The key parses come after the dial and the gas-price query.
- Errors are the code's `fmt.Errorf` format strings, kept verbatim as constants.
- The success text is `Token holder event successfully called at <time>!`.
- Every receipt query follows one 4-second wait, so a receipt found on the third query comes after three waits.
- The division by three is plain `big.Int.Div`. Its remainder (fewer than 3 wei) stays in the vault.

`types.ReceiptStatusSuccessful` comes from the repository's own `types` package, which is not part of this model. Its value is taken as 1, go-ethereum's value for a successful receipt.

## Model

| member | source | states |
|---|---|---|
| Fees.FeeReserve | main.go:101-102 | the reserve kept back is exactly 42000 × gasPrice (gas limit 21000, two transfers) |
| Fees.NetBalance | main.go:102 | what remains after the reserve, added back to the reserve, is the balance; it is positive exactly when the balance exceeds 42000 × gasPrice. Further properties in Fees.Split |
| Fees.TokenHolderShare | main.go:114-115 | the first transfer's value is the floor of the net balance over three: 3·r ≤ net < 3·r + 3 |
| Fees.DeqodeShare | main.go:127-128 | the second transfer's value is exactly twice the first, and together they never exceed the net balance |
| Fees.Split | main.go:101-107 | the run goes on iff the balance exceeds the reserve strictly (zero left is rejected); then the first share is the floor third of balance − reserve and the second is twice it |
| Fees.UndistributedDust | main.go:115-128 | what the two transfers leave beyond the reserve is net mod 3: non-negative and below 3 |
| Fees.SharesAreMaximal | main.go:115 | no larger first share fits three times into the net balance |
| Fees.SplitExample | main.go:101-128 | 900000 wei at gas price 10: reserve 420000, net 480000, shares 160000 and 320000 |
| Receipts.Check | main.go:203-214 | a query that answered ends the wait: its error is returned as it is, the result is nil exactly when the receipt's status is successful, and any other status gives "tx failed" with that status. Further properties in Receipts.FailedReceiptNotRetried and Receipts.CommitBranchQueriesOnce |
| Receipts.Poll | main.go:196-216 | specification of the polling loop: at most two calls per round of the script, and never a commit (that the two are a wait then a query is Receipts.EveryQueryAfterOneWait). Further properties in Receipts.PollByRounds, Receipts.EveryQueryAfterOneWait and Receipts.MinedAfterNotFound |
| Receipts.UnresolvedOnlyWhileNotFound | main.go:203-209 | the loop keeps waiting only while every query answers "not found"; any other round ends it |
| Receipts.Resolve | main.go:178-217 | specification of `waitForTx`: it commits iff the backend implements Commit(), and it is left unresolved only by a polled backend that answers nothing but "not found". Further properties in Receipts.WaitForTx and Receipts.CommitBranchQueriesOnce |
| Receipts.WaitForTx | main.go:178-217 | the commit branch and the polling loop return exactly the result and make exactly the calls of the specification Resolve |
| Receipts.PollByRounds | main.go:196-216 | each leading "not found" round costs one wait and one query and changes nothing else; the first other round decides: context done gives ctx.Err() after a wait with no query, an error is returned, a failed receipt gives "tx failed", a successful one nil |
| Receipts.EveryQueryAfterOneWait | main.go:196-203 | the polling loop's calls alternate wait, query, wait, ...; they end on a wait with no query after it exactly when the context was done; the loop never commits |
| Receipts.MinedAfterNotFound | main.go:203-214 | after k "not found" answers a successful receipt yields nil after exactly k+1 waits and k+1 queries |
| Receipts.CanceledAfterNotFound | main.go:197-199 | a done context after k "not found" rounds returns ctx.Err(), with k queries and none after the cancelling wait |
| Receipts.OtherErrorNotRetried | main.go:204-209 | any query error but "not found" is returned after one query, whatever the backend would answer later |
| Receipts.FailedReceiptNotRetried | main.go:211-213 | a receipt with a non-successful status yields "tx failed" after one query, without retrying |
| Receipts.CommitBranchQueriesOnce | main.go:181-194 | a backend with Commit() is committed once and queried once, with no wait; every query error, "not found" included, is returned; the receipt status decides nil or "tx failed" |
| Handler.TransactOpts.constructor | main.go:146 | a keyed transactor starts with only its signer set: nil gas price, gas limit 0, nil value |
| Handler.FormatError | main.go:219-221 | an error result is the empty string with a non-nil error carrying the format and its arguments unchanged. Further properties in Handler.HandleResultShape |
| Handler.WaitFailure | main.go:122-125 | a failed wait returns "" with the stage's format applied to the transaction hash and the wait's error; a wait that never resolves leaves the run blocked |
| Handler.Handle | main.go:59-172 | specification of a run: it makes between one and fifteen calls; an error result carries "", a nil-error result carries the success message. Further properties in Handler.HandleFollowsPlan, Handler.HandleFailsFast and Handler.HandleSucceedsIff |
| Handler.SuccessMessage | main.go:171 | the success message embeds the event time unmodified between the fixed prefix and "!" |
| Handler.HandleEvent | main.go:59-172 | the step-by-step handler (in-place balance reduction, options set field by field, four waits through WaitForTx) returns exactly the outcome and the calls of the specification Handle |
| Handler.HandleFollowsPlan | main.go:59-169 | every call of a run is, position by position, the planned one: the configuration, dial, gas-price, key and balance calls, then the vault-signed transfers carrying the fetched gas price, limit 21000 and the two shares, the waits on the hashes the submissions returned, the contract load and the processing-signed sell and buy calls |
| Handler.HandleFollowsStageOrder | main.go:59-169 | every run's calls are a non-empty prefix of the fixed stage order: config, dial, gas price, vault key, processing key, balance, pay token holder, wait, pay deqode, wait, load contract, sell, wait, buy, wait |
| Handler.HandleFailsFast | main.go:59-169 | every stage before the last one reached succeeded; the run stopped there exactly because that stage failed; a successful run went through all fifteen stages; a run is still blocked exactly when its last stage is a wait whose script of rounds ran out after nothing but "not found" answers |
| Handler.HandleErrorNamesStage | main.go:60-169 | an error a run returns is exactly the error of the stage it stopped at: that stage's own format string with the failing call's error, the transaction hash and the wait's error for a wait, the contract address for the contract load, and no argument for the fee check; no error is swallowed or replaced |
| Handler.StageErrorIffFails | main.go:60-169 | every stage a run reaches has an error to report exactly when it fails without still waiting for a receipt |
| Handler.HandleSucceedsIff | main.go:59-171 | a run returns the success message with a nil error iff every one of its fifteen stages succeeds (all calls ok, the balance covers the reserve, all four waits return nil) |
| Handler.HandleResultShape | main.go:219-221 | every returned result is the success message with a nil error, or an empty string with a non-nil error |
| Handler.NoTransferWithoutCover | main.go:104-116 | no transfer is submitted unless the gas price and balance were read and the balance exceeds the fee reserve |
| Handler.InsufficientBalanceStopsRun | main.go:104-107 | a balance not exceeding the reserve ends the run right after the balance is read, with "Not enough balance in vault to cover txn fees" and no transfer |
| Handler.TransfersCarryShares | main.go:109-129 | both transfers are signed by the vault key with the one gas price fetched and gas limit 21000; the token-holder contract gets the floor third, the deqode address twice that |
| Handler.VoucherCallsUseProcessingKey | main.go:146-160 | sell and buy vouchers are signed by the processing key, not the vault key, with nothing else set |
| Handler.FirstTransferFailureStopsRun | main.go:116-119 | when the first transfer cannot be submitted the run returns its error after seven calls: no wait, no second transfer, no sell or buy |
| Handler.DistributionScenario | main.go:101-171 | with 900000 wei at gas price 10 and every call succeeding, 160000 wei go to the token-holder contract, 320000 wei to the deqode address, and the run succeeds |
| Handler.SimulatedBackendScenario | main.go:184-194 | with a backend that commits and answers a successful receipt, each of the four waits commits once and queries once, and the run succeeds |

## Left out

- Loading parameters from the AWS parameter store and setting them as environment variables (`init`, main.go:34-56) is AWS I/O and process-wide state. It is not modelled.
- `lambda.Start` (main.go:174-176) is runtime plumbing. `ethclient.Dial`, `config.Parse`, `crypto.HexToECDSA`, `SuggestGasPrice`, `BalanceAt` and the contract binding's constructor are each an input outcome in `Env`. Their inner workings are not modelled.
- Deriving addresses (`common.HexToAddress`, `crypto.PubkeyToAddress`) is not modelled. The two configured addresses and the two signers are constants. `HexToAddress` has no error path in the handler.
- Signing and submitting transactions (`Transferer.Transfer`, `SellVouchers`, `BuyVouchers`) is not modelled. Each submission is an input that yields an opaque hash or an error. Nonces and the chain state they change are not modelled.
- Real time (`time.After(4 * time.Second)`), context cancellation and Go's random choice between two ready `select` cases are each abstracted as one script entry per loop iteration.
- Receipts.WaitForTx: the Go loop polls without bound. The model stops at the end of its finite script with `Unresolved`, and the handler then reports `Blocked` (still waiting).
- Handler.HandleEvent: every wait is given its own backend value. In `main.go` all four waits share one `*ethclient.Client`, which has no `Commit()`, so from `HandleEvent` only the polling branch is reachable. The model does not require the four backends to agree.
- Handler.SuccessMessage: the event time is taken already rendered as text. The `%s` formatting of Go's `time.Time` is not modelled.
- Error texts are kept as the format string plus its arguments. The `%s` / `%+v` substitution is not modelled, nor is the receipt detail printed in "tx failed". Logging (`log.Printf`) is not modelled.
