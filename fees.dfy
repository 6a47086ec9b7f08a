/**
 * The fee reserve and the one-third / two-thirds split that HandleEvent
 * applies to the vault's balance before it submits the two transfers.
 * All amounts are wei and exact: Go's `big.Int` never overflows, and so
 * neither does Dafny's `int`.
 */
module Fees {
  import opened Chain

  /** `gasLimit`: the gas limit of each of the two transfers. */
  const GasLimit: nat := 21000

  /** The reserve pays for this many transfers at the suggested gas price. */
  const ReservedTransfers: nat := 2

  /** The net balance is divided into this many parts ... */
  const Parts: nat := 3

  /** ... of which the deqode address receives this many (the token-holder contract one). */
  const DeqodeParts: nat := 2

  /**
   * The wei kept back from the vault balance to pay for the two transfers.
   * Contracts state the reserve in this closed form, 42000 * gasPrice, and
   * the split in terms of Parts and DeqodeParts.
   */
  function FeeReserve(gasPrice: nat): (r: nat)
    ensures r == 42000 * gasPrice
  {
    GasLimit * ReservedTransfers * gasPrice
  }

  /** The vault balance once the fee reserve is subtracted; it may be negative. */
  function NetBalance(balance: nat, gasPrice: nat): (net: int)
    ensures net + 42000 * gasPrice == balance
    ensures net > 0 <==> balance > 42000 * gasPrice
  {
    balance - FeeReserve(gasPrice)
  }

  /**
   * The first transfer's value, `vaultBalance / 3`. Go's `big.Int.Div` is
   * Euclidean division, as Dafny's `/` is; with a positive dividend both are
   * floor division, which the postcondition characterises.
   */
  function TokenHolderShare(net: int): (r: nat)
    requires net > 0
    ensures Parts * r <= net < Parts * r + Parts
  {
    net / Parts
  }

  /** The second transfer's value, `(vaultBalance / 3) * 2`. */
  function DeqodeShare(net: int): (r: nat)
    requires net > 0
    ensures r == DeqodeParts * TokenHolderShare(net)
    ensures TokenHolderShare(net) + r <= net
  {
    (net / Parts) * DeqodeParts
  }

  /** The two transfer values, to the token-holder contract and to the deqode address. */
  datatype Shares = Shares(tokenHolder: nat, deqode: nat)

  /**
   * The reserve is subtracted first; the run goes on only when what is left
   * is strictly positive (`Cmp(0) != 1` rejects zero too), and then the
   * shares are a third and twice that third of the net balance.
   */
  function Split(balance: nat, gasPrice: nat): (r: Option<Shares>)
    ensures r.Some? <==> balance > 42000 * gasPrice
    ensures r.Some? ==>
      var net := balance - 42000 * gasPrice;
      && Parts * r.value.tokenHolder <= net < Parts * r.value.tokenHolder + Parts
      && r.value.deqode == DeqodeParts * r.value.tokenHolder
  {
    var net := NetBalance(balance, gasPrice);
    if net <= 0 then None else Some(Shares(TokenHolderShare(net), DeqodeShare(net)))
  }

  /**
   * What the two transfers leave in the vault beyond the fee reserve is the
   * remainder of the division by three: fewer than three wei, and never a
   * negative amount (the shares never exceed the net balance).
   */
  lemma UndistributedDust(balance: nat, gasPrice: nat)
    requires Split(balance, gasPrice).Some?
    ensures var s := Split(balance, gasPrice).value;
      var net := balance - FeeReserve(gasPrice);
      && s.tokenHolder + s.deqode <= net
      && net - (s.tokenHolder + s.deqode) == net % Parts
      && 0 <= net - (s.tokenHolder + s.deqode) < Parts
  {
  }

  /** The shares are the largest a third / two thirds could be: one wei more would overdraw. */
  lemma SharesAreMaximal(balance: nat, gasPrice: nat, t: nat)
    requires Split(balance, gasPrice).Some?
    requires Parts * t <= balance - FeeReserve(gasPrice)
    ensures t <= Split(balance, gasPrice).value.tokenHolder
  {
  }

  /** A balance of 900000 wei at a gas price of 10 wei: reserve 420000, shares 160000 and 320000. */
  lemma SplitExample()
    ensures FeeReserve(10) == 420000
    ensures NetBalance(900000, 10) == 480000
    ensures Split(900000, 10) == Some(Shares(160000, 320000))
  {
  }
}
