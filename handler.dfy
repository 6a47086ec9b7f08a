/**
 * HandleEvent: the Lambda handler that pays out the deqode vault.
 *
 * It parses its configuration, connects to the chain, fetches the
 * suggested gas price, parses the vault key and the processing key, reads
 * the vault's balance, keeps back a fee reserve, pays a third of the rest
 * to the token-holder contract and twice that third to the deqode address,
 * then has the token-holder contract sell and buy vouchers, waiting for a
 * receipt after every transaction. The first call that fails ends the run.
 *
 * Every call into a collaborator is an input: `Env` holds, stage by stage,
 * what that call returns, and `trace` records the calls made, in order.
 */
module Handler {
  import opened Chain
  import opened Fees
  import opened Receipts

  /** The two private keys the handler parses. */
  datatype Signer = Vault | Processing

  /** The two addresses read from the configuration. */
  datatype Address = TokenHolderContract | DeqodeAddress

  /** A transaction hash, as submission returns it. */
  type Hash = nat

  /**
   * The fields of `bind.TransactOpts` the handler sets, as they stand when a
   * transaction is submitted: `None` is a nil gas price (estimated by the
   * binding), a gas limit of 0 is "estimate", a value of 0 is a nil value.
   */
  datatype Opts = Opts(from: Signer, gasPrice: Option<nat>, gasLimit: nat, value: nat)

  /** `bind.TransactOpts`, which the handler updates field by field between submissions. */
  class TransactOpts {
    const from: Signer
    var gasPrice: Option<nat>
    var gasLimit: nat
    var value: nat

    /** `bind.NewKeyedTransactor(key)`: nothing set but the signer. */
    constructor (key: Signer)
      ensures Snapshot() == Opts(key, None, 0, 0)
    {
      from := key;
      gasPrice := None;
      gasLimit := 0;
      value := 0;
    }

    function Snapshot(): Opts
      reads this
    {
      Opts(from, gasPrice, gasLimit, value)
    }
  }

  /** The triggering CloudWatch event; only its time is read, already rendered as text. */
  datatype CloudWatchEvent = CloudWatchEvent(time: string)

  /** What each collaborator call returns in one run. */
  datatype Env = Env(
    config: Result<()>,           // config.Parse()
    dial: Result<()>,             // ethclient.Dial
    gasPrice: Result<nat>,        // SuggestGasPrice
    vaultKey: Result<()>,         // crypto.HexToECDSA of the vault key
    processingKey: Result<()>,    // crypto.HexToECDSA of the processing key
    balance: Result<nat>,         // BalanceAt of the vault address
    transfer1: Result<Hash>,      // transfer to the token-holder contract
    receipt1: Backend,            // the backend as waitForTx sees it for that transaction
    transfer2: Result<Hash>,      // transfer to the deqode address
    receipt2: Backend,
    contract: Result<()>,         // NewdeqodeTokenHolderProgramContract
    sell: Result<Hash>,           // SellVouchers
    receipt3: Backend,
    buy: Result<Hash>,            // BuyVouchers
    receipt4: Backend)

  /** The collaborator calls the handler makes. */
  datatype Step =
    | ParseConfig
    | Dial
    | SuggestGasPrice
    | ParseKey(key: Signer)
    | BalanceAt(owner: Signer)
    | Transfer(opts: Opts, to: Address)
    | AwaitReceipt(hash: Hash, actions: seq<Action>)   // waitForTx, with the calls it made on the backend
    | LoadContract(at: Address)
    | SellVouchers(opts: Opts)
    | BuyVouchers(opts: Opts)

  /** The stages of a run, one per call. */
  datatype Stage =
    | Configure | Connect | PriceGas | ParseVaultKey | ParseProcessingKey | ReadBalance
    | PayTokenHolder | PayDeqode | Confirm | Bind | Sell | Buy

  function Kind(step: Step): Stage
  {
    match step
    case ParseConfig => Configure
    case Dial => Connect
    case SuggestGasPrice => PriceGas
    case ParseKey(key) => if key == Vault then ParseVaultKey else ParseProcessingKey
    case BalanceAt(_) => ReadBalance
    case Transfer(_, to) => if to == TokenHolderContract then PayTokenHolder else PayDeqode
    case AwaitReceipt(_, _) => Confirm
    case LoadContract(_) => Bind
    case SellVouchers(_) => Sell
    case BuyVouchers(_) => Buy
  }

  /** The stages of a complete run, in the order the handler runs them. */
  const StageOrder: seq<Stage> := [
    Configure, Connect, PriceGas, ParseVaultKey, ParseProcessingKey, ReadBalance,
    PayTokenHolder, Confirm, PayDeqode, Confirm, Bind, Sell, Confirm, Buy, Confirm]

  /** An argument of an error message. */
  datatype Arg =
    | Cause(error: ChainError)      // a collaborator's error
    | WaitCause(wait: WaitError)    // waitForTx's error
    | HashArg(hash: Hash)           // txn.Hash().Hex()
    | AddressArg(address: Address)  // tokenHolderContractAddress.String()

  /** `fmt.Errorf(format, args...)`; the formatting itself is not modelled. */
  datatype Error = Errorf(format: string, args: seq<Arg>)

  /** The handler's `(string, error)` result, or `Blocked` while it is still inside a wait whose script ran out. */
  datatype Outcome = Returned(value: string, err: Option<Error>) | Blocked

  const FmtConfig := "Unable to parse environment variables with error : %s"
  const FmtDial := "Failed to call ethereum client with error : %s"
  const FmtGasPrice := "Failed to get gas price from ethereum client with error : %s"
  const FmtVaultKey := "Failed to parse ecdsa private key from deqode vault private key sting with error : %s"
  const FmtProcessingKey := "Failed to parse ecdsa private key from token holder processing key string with error : %s"
  const FmtBalance := "Failed to get balance for vault with error : %s"
  const FmtFees := "Not enough balance in vault to cover txn fees"
  const FmtTransferTokenHolder := "Failed to transfer vault balance to token holder contract with error : %s"
  const FmtTransferDeqode := "Failed to transfer vault balance to deqode address with error : %s"
  const FmtTransferWait := "Fund transfer txn with hash %s failed  with error : %s"
  const FmtLoadContract := "Failed to load token holder contract for address %s with error : %s"
  const FmtSell := "Failed to  call sell vouchers of token holder program contract with error : %s"
  const FmtSellWait := "Sell vouchers txn with hash %s failed  with error : %s"
  const FmtBuy := "Failed to  call buy vouchers of token holder program contract with error : %s"
  const FmtBuyWait := "Buy vouchers txn with hash %s failed  with error : %s"
  const SuccessPrefix := "Token holder event successfully called at "

  /** `formatError`: an empty value and a non-nil error. */
  function FormatError(format: string, args: seq<Arg>): (r: Outcome)
    ensures r.Returned? && r.value == "" && r.err.Some?
    ensures r.err.value.format == format && r.err.value.args == args
  {
    Returned("", Some(Errorf(format, args)))
  }

  /** The message of a successful run, with the event's time embedded unmodified. */
  function SuccessMessage(time: string): (m: string)
    ensures |m| == |SuccessPrefix| + |time| + 1
    ensures m[..|SuccessPrefix|] == SuccessPrefix && m[|SuccessPrefix|..|m| - 1] == time && m[|m| - 1] == '!'
  {
    SuccessPrefix + time + "!"
  }

  /** What the handler returns when a wait on `hash` did not end with nil. */
  function WaitFailure(w: WaitResult, format: string, hash: Hash): (r: Outcome)
    requires w != Mined
    ensures r.Blocked? <==> w == Unresolved
    ensures r.Returned? ==> r.value == "" && r.err == Some(Errorf(format, [HashArg(hash), WaitCause(w.error)]))
  {
    if w.Unresolved? then Blocked else FormatError(format, [HashArg(hash), WaitCause(w.error)])
  }

  /** A run: its outcome and the calls it made. */
  datatype Run = Run(outcome: Outcome, trace: seq<Step>)

  /** The specification of HandleEvent. */
  function Handle(env: Env, time: string): (r: Run)
    ensures 1 <= |r.trace| <= |StageOrder|
    ensures r.outcome.Returned? && r.outcome.err.Some? ==> r.outcome.value == ""
    ensures r.outcome.Returned? && r.outcome.err.None? ==> r.outcome.value == SuccessMessage(time)
  {
    var t0 := [ParseConfig];
    if env.config.Err? then Run(FormatError(FmtConfig, [Cause(env.config.error)]), t0) else
    var t1 := t0 + [Dial];
    if env.dial.Err? then Run(FormatError(FmtDial, [Cause(env.dial.error)]), t1) else
    var t2 := t1 + [SuggestGasPrice];
    if env.gasPrice.Err? then Run(FormatError(FmtGasPrice, [Cause(env.gasPrice.error)]), t2) else
    var gasPrice := env.gasPrice.value;
    var t3 := t2 + [ParseKey(Vault)];
    if env.vaultKey.Err? then Run(FormatError(FmtVaultKey, [Cause(env.vaultKey.error)]), t3) else
    var t4 := t3 + [ParseKey(Processing)];
    if env.processingKey.Err? then Run(FormatError(FmtProcessingKey, [Cause(env.processingKey.error)]), t4) else
    var t5 := t4 + [BalanceAt(Vault)];
    if env.balance.Err? then Run(FormatError(FmtBalance, [Cause(env.balance.error)]), t5) else
    match Split(env.balance.value, gasPrice)
    case None => Run(FormatError(FmtFees, []), t5)
    case Some(shares) =>
      var vaultOpts := Opts(Vault, Some(gasPrice), GasLimit, shares.tokenHolder);
      var t6 := t5 + [Transfer(vaultOpts, TokenHolderContract)];
      if env.transfer1.Err? then Run(FormatError(FmtTransferTokenHolder, [Cause(env.transfer1.error)]), t6) else
      var t7 := t6 + [AwaitReceipt(env.transfer1.value, Resolve(env.receipt1).actions)];
      var w1 := Resolve(env.receipt1).result;
      if w1 != Mined then Run(WaitFailure(w1, FmtTransferWait, env.transfer1.value), t7) else
      var t8 := t7 + [Transfer(vaultOpts.(value := shares.deqode), DeqodeAddress)];
      if env.transfer2.Err? then Run(FormatError(FmtTransferDeqode, [Cause(env.transfer2.error)]), t8) else
      var t9 := t8 + [AwaitReceipt(env.transfer2.value, Resolve(env.receipt2).actions)];
      var w2 := Resolve(env.receipt2).result;
      if w2 != Mined then Run(WaitFailure(w2, FmtTransferWait, env.transfer2.value), t9) else
      var t10 := t9 + [LoadContract(TokenHolderContract)];
      if env.contract.Err? then
        Run(FormatError(FmtLoadContract, [AddressArg(TokenHolderContract), Cause(env.contract.error)]), t10)
      else
      var processingOpts := Opts(Processing, None, 0, 0);
      var t11 := t10 + [SellVouchers(processingOpts)];
      if env.sell.Err? then Run(FormatError(FmtSell, [Cause(env.sell.error)]), t11) else
      var t12 := t11 + [AwaitReceipt(env.sell.value, Resolve(env.receipt3).actions)];
      var w3 := Resolve(env.receipt3).result;
      if w3 != Mined then Run(WaitFailure(w3, FmtSellWait, env.sell.value), t12) else
      var t13 := t12 + [BuyVouchers(processingOpts)];
      if env.buy.Err? then Run(FormatError(FmtBuy, [Cause(env.buy.error)]), t13) else
      var t14 := t13 + [AwaitReceipt(env.buy.value, Resolve(env.receipt4).actions)];
      var w4 := Resolve(env.receipt4).result;
      if w4 != Mined then Run(WaitFailure(w4, FmtBuyWait, env.buy.value), t14) else
      Run(Returned(SuccessMessage(time), None), t14)
  }

  /** HandleEvent, step by step: the vault balance is reduced in place and the vault's options are set field by field. */
  method HandleEvent(env: Env, event: CloudWatchEvent) returns (outcome: Outcome, trace: seq<Step>)
    ensures Run(outcome, trace) == Handle(env, event.time)
  {
    trace := [ParseConfig];
    if env.config.Err? {
      return FormatError(FmtConfig, [Cause(env.config.error)]), trace;
    }
    trace := trace + [Dial];
    if env.dial.Err? {
      return FormatError(FmtDial, [Cause(env.dial.error)]), trace;
    }
    trace := trace + [SuggestGasPrice];
    if env.gasPrice.Err? {
      return FormatError(FmtGasPrice, [Cause(env.gasPrice.error)]), trace;
    }
    var gasPrice := env.gasPrice.value;
    trace := trace + [ParseKey(Vault)];
    if env.vaultKey.Err? {
      return FormatError(FmtVaultKey, [Cause(env.vaultKey.error)]), trace;
    }
    trace := trace + [ParseKey(Processing)];
    if env.processingKey.Err? {
      return FormatError(FmtProcessingKey, [Cause(env.processingKey.error)]), trace;
    }
    trace := trace + [BalanceAt(Vault)];
    if env.balance.Err? {
      return FormatError(FmtBalance, [Cause(env.balance.error)]), trace;
    }
    var vaultBalance: int := env.balance.value;

    // keep back the fees of the two transfers
    vaultBalance := vaultBalance - FeeReserve(gasPrice);
    if vaultBalance <= 0 {
      return FormatError(FmtFees, []), trace;
    }

    var vaultAuth := new TransactOpts(Vault);
    vaultAuth.gasPrice := Some(gasPrice);
    vaultAuth.gasLimit := GasLimit;

    // a third to the token-holder contract
    vaultAuth.value := TokenHolderShare(vaultBalance);
    trace := trace + [Transfer(vaultAuth.Snapshot(), TokenHolderContract)];
    if env.transfer1.Err? {
      return FormatError(FmtTransferTokenHolder, [Cause(env.transfer1.error)]), trace;
    }
    var txn := env.transfer1.value;
    var err, actions := WaitForTx(env.receipt1);
    trace := trace + [AwaitReceipt(txn, actions)];
    if err != Mined {
      return WaitFailure(err, FmtTransferWait, txn), trace;
    }

    // two thirds to the deqode address
    vaultAuth.value := DeqodeShare(vaultBalance);
    trace := trace + [Transfer(vaultAuth.Snapshot(), DeqodeAddress)];
    if env.transfer2.Err? {
      return FormatError(FmtTransferDeqode, [Cause(env.transfer2.error)]), trace;
    }
    txn := env.transfer2.value;
    err, actions := WaitForTx(env.receipt2);
    trace := trace + [AwaitReceipt(txn, actions)];
    if err != Mined {
      return WaitFailure(err, FmtTransferWait, txn), trace;
    }

    trace := trace + [LoadContract(TokenHolderContract)];
    if env.contract.Err? {
      return FormatError(FmtLoadContract, [AddressArg(TokenHolderContract), Cause(env.contract.error)]), trace;
    }
    var tokenHolderAuth := new TransactOpts(Processing);

    trace := trace + [SellVouchers(tokenHolderAuth.Snapshot())];
    if env.sell.Err? {
      return FormatError(FmtSell, [Cause(env.sell.error)]), trace;
    }
    txn := env.sell.value;
    err, actions := WaitForTx(env.receipt3);
    trace := trace + [AwaitReceipt(txn, actions)];
    if err != Mined {
      return WaitFailure(err, FmtSellWait, txn), trace;
    }

    trace := trace + [BuyVouchers(tokenHolderAuth.Snapshot())];
    if env.buy.Err? {
      return FormatError(FmtBuy, [Cause(env.buy.error)]), trace;
    }
    txn := env.buy.value;
    err, actions := WaitForTx(env.receipt4);
    trace := trace + [AwaitReceipt(txn, actions)];
    if err != Mined {
      return WaitFailure(err, FmtBuyWait, txn), trace;
    }

    return Returned(SuccessMessage(event.time), None), trace;
  }

  /**
   * Whether stage `i` of StageOrder fails, read straight off the
   * collaborators' answers. Stage 5 fails when the balance cannot be read
   * or when it does not cover the fee reserve; a wait fails unless it ends
   * with nil (running out of script counts as not ending).
   */
  predicate StageFails(env: Env, i: nat)
  {
    match i
    case 0 => env.config.Err?
    case 1 => env.dial.Err?
    case 2 => env.gasPrice.Err?
    case 3 => env.vaultKey.Err?
    case 4 => env.processingKey.Err?
    case 5 => env.balance.Err? || (env.gasPrice.Ok? && Split(env.balance.value, env.gasPrice.value).None?)
    case 6 => env.transfer1.Err?
    case 7 => Resolve(env.receipt1).result != Mined
    case 8 => env.transfer2.Err?
    case 9 => Resolve(env.receipt2).result != Mined
    case 10 => env.contract.Err?
    case 11 => env.sell.Err?
    case 12 => Resolve(env.receipt3).result != Mined
    case 13 => env.buy.Err?
    case 14 => Resolve(env.receipt4).result != Mined
    case _ => false
  }

  /** The error a wait on `hash` ending with `w` reports under `format`, if it ended with one. */
  function WaitError(w: WaitResult, format: string, hash: Hash): Option<Error>
  {
    if w.Failed? then Some(Errorf(format, [HashArg(hash), WaitCause(w.error)])) else None
  }

  /**
   * The error stage `i` returns when it fails, read off the collaborators'
   * answers: that stage's own format string with the failing call's error
   * (and the transaction hash for a wait, the contract address for the
   * contract load); None when the stage does not fail with an error.
   */
  function StageError(env: Env, i: nat): Option<Error>
  {
    match i
    case 0 => if env.config.Err? then Some(Errorf(FmtConfig, [Cause(env.config.error)])) else None
    case 1 => if env.dial.Err? then Some(Errorf(FmtDial, [Cause(env.dial.error)])) else None
    case 2 => if env.gasPrice.Err? then Some(Errorf(FmtGasPrice, [Cause(env.gasPrice.error)])) else None
    case 3 => if env.vaultKey.Err? then Some(Errorf(FmtVaultKey, [Cause(env.vaultKey.error)])) else None
    case 4 =>
      if env.processingKey.Err? then Some(Errorf(FmtProcessingKey, [Cause(env.processingKey.error)])) else None
    case 5 =>
      if env.balance.Err? then Some(Errorf(FmtBalance, [Cause(env.balance.error)]))
      else if env.gasPrice.Ok? && Split(env.balance.value, env.gasPrice.value).None? then Some(Errorf(FmtFees, []))
      else None
    case 6 =>
      if env.transfer1.Err? then Some(Errorf(FmtTransferTokenHolder, [Cause(env.transfer1.error)])) else None
    case 7 => if env.transfer1.Ok? then WaitError(Resolve(env.receipt1).result, FmtTransferWait, env.transfer1.value) else None
    case 8 => if env.transfer2.Err? then Some(Errorf(FmtTransferDeqode, [Cause(env.transfer2.error)])) else None
    case 9 => if env.transfer2.Ok? then WaitError(Resolve(env.receipt2).result, FmtTransferWait, env.transfer2.value) else None
    case 10 =>
      if env.contract.Err? then Some(Errorf(FmtLoadContract, [AddressArg(TokenHolderContract), Cause(env.contract.error)]))
      else None
    case 11 => if env.sell.Err? then Some(Errorf(FmtSell, [Cause(env.sell.error)])) else None
    case 12 => if env.sell.Ok? then WaitError(Resolve(env.receipt3).result, FmtSellWait, env.sell.value) else None
    case 13 => if env.buy.Err? then Some(Errorf(FmtBuy, [Cause(env.buy.error)])) else None
    case 14 => if env.buy.Ok? then WaitError(Resolve(env.receipt4).result, FmtBuyWait, env.buy.value) else None
    case _ => None
  }

  /** Whether stage `i` is a wait whose script of rounds ran out after nothing but "not found" answers. */
  predicate StageHangs(env: Env, i: nat)
  {
    match i
    case 7 => Resolve(env.receipt1).result == Unresolved
    case 9 => Resolve(env.receipt2).result == Unresolved
    case 12 => Resolve(env.receipt3).result == Unresolved
    case 14 => Resolve(env.receipt4).result == Unresolved
    case _ => false
  }

  /** The calls in `t` are the first |t| stages of StageOrder. */
  predicate InOrder(t: seq<Step>)
  {
    |t| <= |StageOrder| && forall i | 0 <= i < |t| :: Kind(t[i]) == StageOrder[i]
  }

  /**
   * The call at position `i` of a run, read off the collaborators' answers:
   * what it is, and the values it is made with.
   */
  predicate Planned(env: Env, i: nat, step: Step)
  {
    match i
    case 0 => step == ParseConfig
    case 1 => step == Dial
    case 2 => step == SuggestGasPrice
    case 3 => step == ParseKey(Vault)
    case 4 => step == ParseKey(Processing)
    case 5 => step == BalanceAt(Vault)
    case 6 =>
      && env.gasPrice.Ok? && env.balance.Ok? && Split(env.balance.value, env.gasPrice.value).Some?
      && step == Transfer(Opts(Vault, Some(env.gasPrice.value), GasLimit,
                               Split(env.balance.value, env.gasPrice.value).value.tokenHolder),
                          TokenHolderContract)
    case 7 => env.transfer1.Ok? && step == AwaitReceipt(env.transfer1.value, Resolve(env.receipt1).actions)
    case 8 =>
      && env.gasPrice.Ok? && env.balance.Ok? && Split(env.balance.value, env.gasPrice.value).Some?
      && step == Transfer(Opts(Vault, Some(env.gasPrice.value), GasLimit,
                               Split(env.balance.value, env.gasPrice.value).value.deqode),
                          DeqodeAddress)
    case 9 => env.transfer2.Ok? && step == AwaitReceipt(env.transfer2.value, Resolve(env.receipt2).actions)
    case 10 => step == LoadContract(TokenHolderContract)
    case 11 => step == SellVouchers(Opts(Processing, None, 0, 0))
    case 12 => env.sell.Ok? && step == AwaitReceipt(env.sell.value, Resolve(env.receipt3).actions)
    case 13 => step == BuyVouchers(Opts(Processing, None, 0, 0))
    case 14 => env.buy.Ok? && step == AwaitReceipt(env.buy.value, Resolve(env.receipt4).actions)
    case _ => false
  }

  /** Every call of `t` is the planned one for its position. */
  predicate FollowsPlan(env: Env, t: seq<Step>)
  {
    forall i | 0 <= i < |t| :: Planned(env, i, t[i])
  }

  lemma FollowsPlanSnoc(env: Env, t: seq<Step>, s: Step)
    requires FollowsPlan(env, t) && Planned(env, |t|, s)
    ensures FollowsPlan(env, t + [s])
  {
  }

  lemma PlannedKind(env: Env, i: nat, s: Step)
    requires Planned(env, i, s)
    ensures i < |StageOrder| && Kind(s) == StageOrder[i]
  {
  }

  /** Every run makes, position by position, the planned call with the planned values. */
  lemma HandleFollowsPlan(env: Env, time: string)
    ensures 1 <= |Handle(env, time).trace| && FollowsPlan(env, Handle(env, time).trace)
  {
    var t := [ParseConfig];
    assert FollowsPlan(env, t);
    if env.config.Err? { return; }
    FollowsPlanSnoc(env, t, Dial);
    t := t + [Dial];
    if env.dial.Err? { return; }
    FollowsPlanSnoc(env, t, SuggestGasPrice);
    t := t + [SuggestGasPrice];
    if env.gasPrice.Err? { return; }
    FollowsPlanSnoc(env, t, ParseKey(Vault));
    t := t + [ParseKey(Vault)];
    if env.vaultKey.Err? { return; }
    FollowsPlanSnoc(env, t, ParseKey(Processing));
    t := t + [ParseKey(Processing)];
    if env.processingKey.Err? { return; }
    FollowsPlanSnoc(env, t, BalanceAt(Vault));
    t := t + [BalanceAt(Vault)];
    if env.balance.Err? { return; }
    var split := Split(env.balance.value, env.gasPrice.value);
    if split.None? { return; }
    var opts := Opts(Vault, Some(env.gasPrice.value), GasLimit, split.value.tokenHolder);
    var step := Transfer(opts, TokenHolderContract);
    FollowsPlanSnoc(env, t, step);
    t := t + [step];
    if env.transfer1.Err? { return; }
    step := AwaitReceipt(env.transfer1.value, Resolve(env.receipt1).actions);
    FollowsPlanSnoc(env, t, step);
    t := t + [step];
    if Resolve(env.receipt1).result != Mined { return; }
    step := Transfer(opts.(value := split.value.deqode), DeqodeAddress);
    FollowsPlanSnoc(env, t, step);
    t := t + [step];
    if env.transfer2.Err? { return; }
    step := AwaitReceipt(env.transfer2.value, Resolve(env.receipt2).actions);
    FollowsPlanSnoc(env, t, step);
    t := t + [step];
    if Resolve(env.receipt2).result != Mined { return; }
    FollowsPlanSnoc(env, t, LoadContract(TokenHolderContract));
    t := t + [LoadContract(TokenHolderContract)];
    if env.contract.Err? { return; }
    step := SellVouchers(Opts(Processing, None, 0, 0));
    FollowsPlanSnoc(env, t, step);
    t := t + [step];
    if env.sell.Err? { return; }
    step := AwaitReceipt(env.sell.value, Resolve(env.receipt3).actions);
    FollowsPlanSnoc(env, t, step);
    t := t + [step];
    if Resolve(env.receipt3).result != Mined { return; }
    step := BuyVouchers(Opts(Processing, None, 0, 0));
    FollowsPlanSnoc(env, t, step);
    t := t + [step];
    if env.buy.Err? { return; }
    step := AwaitReceipt(env.buy.value, Resolve(env.receipt4).actions);
    FollowsPlanSnoc(env, t, step);
    t := t + [step];
  }

  /** The calls of every run, however it ends, follow StageOrder from its start. */
  lemma HandleFollowsStageOrder(env: Env, time: string)
    ensures 1 <= |Handle(env, time).trace| && InOrder(Handle(env, time).trace)
  {
    var t := Handle(env, time).trace;
    HandleFollowsPlan(env, time);
    forall i | 0 <= i < |t|
      ensures i < |StageOrder| && Kind(t[i]) == StageOrder[i]
    {
      PlannedKind(env, i, t[i]);
    }
  }

  /**
   * Fail-fast: every stage before the last one the run reached succeeded,
   * and the run stopped there exactly because that stage failed; a run
   * that did not fail went through all fifteen stages.
   */
  lemma HandleFailsFast(env: Env, time: string)
    ensures var r := Handle(env, time);
      && (forall i | 0 <= i < |r.trace| - 1 :: !StageFails(env, i))
      && (r.outcome != Returned(SuccessMessage(time), None) <==> StageFails(env, |r.trace| - 1))
      && (r.outcome == Returned(SuccessMessage(time), None) ==> |r.trace| == |StageOrder|)
      && (r.outcome.Blocked? <==> StageHangs(env, |r.trace| - 1))
  {
  }

  /** A run succeeds exactly when every one of its fifteen stages succeeds. */
  lemma HandleSucceedsIff(env: Env, time: string)
    ensures Handle(env, time).outcome == Returned(SuccessMessage(time), None)
        <==> forall i | 0 <= i < |StageOrder| :: !StageFails(env, i)
  {
    HandleFollowsStageOrder(env, time);
    HandleFailsFast(env, time);
  }

  /**
   * No error is swallowed or relabelled: a run that returns an error returns
   * exactly the error of the stage it stopped at, with that stage's format
   * string and the failing call's own error.
   */
  lemma HandleErrorNamesStage(env: Env, time: string)
    ensures var r := Handle(env, time);
      r.outcome.Returned? && r.outcome.err.Some? ==> r.outcome.err == StageError(env, |r.trace| - 1)
  {
  }

  /**
   * A stage reached by a run has an error to report exactly when it fails
   * without hanging in a wait.
   */
  lemma StageErrorIffFails(env: Env, time: string)
    ensures var r := Handle(env, time);
      forall i | 0 <= i < |r.trace| :: StageError(env, i).Some? <==> StageFails(env, i) && !StageHangs(env, i)
  {
    HandleFollowsPlan(env, time);
  }

  /**
   * Every result the handler returns is either the success message with a
   * nil error, or an empty string with a non-nil error.
   */
  lemma HandleResultShape(env: Env, time: string)
    ensures var o := Handle(env, time).outcome;
      o.Returned? ==>
        || (o.value == SuccessMessage(time) && o.err.None?)
        || (o.value == "" && o.err.Some?)
  {
  }

  /** No transfer is submitted unless the balance left after the fee reserve is strictly positive. */
  lemma NoTransferWithoutCover(env: Env, time: string)
    ensures var r := Handle(env, time);
      forall i | 0 <= i < |r.trace| && r.trace[i].Transfer? ::
        env.gasPrice.Ok? && env.balance.Ok? && env.balance.value > FeeReserve(env.gasPrice.value)
  {
    HandleFollowsPlan(env, time);
  }

  /**
   * A balance that does not exceed the fee reserve (zero left included) ends
   * the run right after the balance is read, with the "not enough balance"
   * error and no transfer.
   */
  lemma InsufficientBalanceStopsRun(env: Env, time: string)
    requires forall i | 0 <= i < 5 :: !StageFails(env, i)
    requires env.gasPrice.Ok? && env.balance.Ok?
    requires env.balance.value <= FeeReserve(env.gasPrice.value)
    ensures Handle(env, time) == Run(FormatError(FmtFees, []),
      [ParseConfig, Dial, SuggestGasPrice, ParseKey(Vault), ParseKey(Processing), BalanceAt(Vault)])
  {
    assert !StageFails(env, 0) && !StageFails(env, 1) && !StageFails(env, 3) && !StageFails(env, 4);
  }

  /**
   * Both transfers are signed with the vault key, carry the one gas price
   * fetched at the start and a gas limit of 21000; the first pays the
   * token-holder contract a third of the net balance, the second pays the
   * deqode address twice that.
   */
  lemma TransfersCarryShares(env: Env, time: string)
    ensures var r := Handle(env, time);
      forall i | 0 <= i < |r.trace| && r.trace[i].Transfer? ::
        && env.gasPrice.Ok? && env.balance.Ok?
        && var split := Split(env.balance.value, env.gasPrice.value);
        && split.Some?
        && r.trace[i].opts.from == Vault
        && r.trace[i].opts.gasPrice == Some(env.gasPrice.value)
        && r.trace[i].opts.gasLimit == GasLimit
        && r.trace[i].opts.value ==
             if r.trace[i].to == TokenHolderContract then split.value.tokenHolder
             else 2 * split.value.tokenHolder
  {
    HandleFollowsPlan(env, time);
  }

  /** The sell and buy calls are signed with the processing key, never the vault key, and set nothing else. */
  lemma VoucherCallsUseProcessingKey(env: Env, time: string)
    ensures var r := Handle(env, time);
      forall i | 0 <= i < |r.trace| && (r.trace[i].SellVouchers? || r.trace[i].BuyVouchers?) ::
        r.trace[i].opts == Opts(Processing, None, 0, 0)
  {
    HandleFollowsPlan(env, time);
  }

  /** When the first transfer cannot be submitted, nothing after it runs: no second transfer, no contract call, no wait. */
  lemma FirstTransferFailureStopsRun(env: Env, time: string)
    requires forall i | 0 <= i < 6 :: !StageFails(env, i)
    requires env.transfer1.Err?
    ensures var r := Handle(env, time);
      && r.outcome == FormatError(FmtTransferTokenHolder, [Cause(env.transfer1.error)])
      && |r.trace| == 7
      && forall i | 0 <= i < |r.trace| :: !r.trace[i].AwaitReceipt? && Kind(r.trace[i]) !in {PayDeqode, Sell, Buy}
  {
    assert !StageFails(env, 0) && !StageFails(env, 1) && !StageFails(env, 2);
    assert !StageFails(env, 3) && !StageFails(env, 4) && !StageFails(env, 5);
    HandleFollowsStageOrder(env, time);
  }

  /**
   * A vault holding 900000 wei at a gas price of 10 wei, with every call
   * succeeding: 160000 wei to the token-holder contract, 320000 wei to the
   * deqode address, and the success message.
   */
  lemma DistributionScenario(env: Env, time: string)
    requires forall i | 0 <= i < |StageOrder| :: !StageFails(env, i)
    requires env.gasPrice == Ok(10) && env.balance == Ok(900000)
    ensures var r := Handle(env, time);
      && r.outcome == Returned(SuccessMessage(time), None)
      && r.trace[6] == Transfer(Opts(Vault, Some(10), 21000, 160000), TokenHolderContract)
      && r.trace[8] == Transfer(Opts(Vault, Some(10), 21000, 320000), DeqodeAddress)
  {
    HandleSucceedsIff(env, time);
    SplitExample();
    assert !StageFails(env, 0) && !StageFails(env, 1) && !StageFails(env, 2) && !StageFails(env, 3);
    assert !StageFails(env, 4) && !StageFails(env, 5) && !StageFails(env, 6) && !StageFails(env, 7);
  }

  /**
   * With a backend that implements Commit() and answers every receipt query
   * with a successful receipt, each of the four waits commits once, queries
   * once and never enters the polling loop.
   */
  lemma SimulatedBackendScenario(env: Env, time: string)
    requires forall i | 0 <= i < |StageOrder| && i !in {7, 9, 12, 14} :: !StageFails(env, i)
    requires env.receipt1 == env.receipt2 == env.receipt3 == env.receipt4 == Simulated(Receipt(ReceiptStatusSuccessful))
    ensures var r := Handle(env, time);
      && r.outcome == Returned(SuccessMessage(time), None)
      && forall i | 0 <= i < |r.trace| && r.trace[i].AwaitReceipt? :: r.trace[i].actions == [Commit, Query]
  {
    assert !StageFails(env, 0) && !StageFails(env, 1) && !StageFails(env, 2) && !StageFails(env, 3);
    assert !StageFails(env, 4) && !StageFails(env, 5) && !StageFails(env, 6) && !StageFails(env, 8);
    assert !StageFails(env, 10) && !StageFails(env, 11) && !StageFails(env, 13);
  }
}
