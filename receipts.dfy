/**
 * `waitForTx`: waiting until a submitted transaction has a receipt.
 *
 * The backend's dynamic type picks the branch. A backend that implements
 * `Commit()` (a simulated chain) is committed once and asked for the
 * receipt once. Any other backend is polled: each round first waits for
 * either the context to be done or a 4-second timer, then asks for the
 * receipt; "not found" starts another round and every other answer ends
 * the wait. Time, the timer and the context are not modelled: a polled
 * backend is a finite script saying, round by round, which of the two
 * `select` cases fired and what the receipt query that follows answered.
 */
module Receipts {
  import opened Chain

  /** `types.ReceiptStatusSuccessful`. */
  const ReceiptStatusSuccessful: nat := 1

  /** One answer of `TransactionReceipt`: an error, or a receipt carrying its status. */
  datatype Reply = QueryError(error: ChainError) | Receipt(status: nat)

  /** One round of the polling loop: the context was done first, or the timer fired and the query answered `reply`. */
  datatype Round = ContextDone | Tick(reply: Reply)

  /** The backend passed to `waitForTx`. */
  datatype Backend =
    | Simulated(afterCommit: Reply)   // implements Commit(): its one receipt query answers `afterCommit`
    | Polled(rounds: seq<Round>)      // does not: polled round by round

  /** The non-nil errors `waitForTx` returns. */
  datatype WaitError =
    | Canceled                        // ctx.Err()
    | QueryFailed(error: ChainError)  // the receipt query's own error
    | TxFailed(status: nat)           // "tx failed: ..." for a receipt whose status is not successful

  /** `nil`, a non-nil error, or no answer yet because the script ran out while polling. */
  datatype WaitResult = Mined | Failed(error: WaitError) | Unresolved

  /** The calls `waitForTx` makes on its backend and its context. */
  datatype Action = Commit | Select | Query

  datatype Wait = Wait(result: WaitResult, actions: seq<Action>)

  /** What `waitForTx` returns once a receipt query has answered `reply` and the loop is not to continue. */
  function Check(reply: Reply): (r: WaitResult)
    ensures r != Unresolved
    ensures r == Mined <==> reply == Receipt(ReceiptStatusSuccessful)
    ensures reply.QueryError? ==> r == Failed(QueryFailed(reply.error))
    ensures reply.Receipt? && reply.status != ReceiptStatusSuccessful ==> r == Failed(TxFailed(reply.status))
  {
    match reply
    case QueryError(e) => Failed(QueryFailed(e))
    case Receipt(status) =>
      if status != ReceiptStatusSuccessful then Failed(TxFailed(status)) else Mined
  }

  /** The polling loop, run on a script of rounds. */
  function Poll(rounds: seq<Round>): (w: Wait)
    ensures |w.actions| <= 2 * |rounds|
    ensures Commit !in w.actions
    decreases |rounds|
  {
    if rounds == [] then Wait(Unresolved, [])
    else
      match rounds[0]
      case ContextDone => Wait(Failed(Canceled), [Select])
      case Tick(QueryError(NotFound)) =>
        var rest := Poll(rounds[1..]);
        Wait(rest.result, [Select, Query] + rest.actions)
      case Tick(reply) => Wait(Check(reply), [Select, Query])
  }

  /** The specification of `waitForTx` for either kind of backend. */
  function Resolve(backend: Backend): (w: Wait)
    ensures Commit in w.actions <==> backend.Simulated?
    ensures w.result == Unresolved ==> backend.Polled? && OnlyNotFound(backend.rounds)
  {
    match backend
    case Simulated(reply) => Wait(Check(reply), [Commit, Query])
    case Polled(rounds) => UnresolvedOnlyWhileNotFound(rounds); Poll(rounds)
  }

  /** Every round of the script is a tick whose query answered "not found". */
  predicate OnlyNotFound(rounds: seq<Round>)
  {
    forall j | 0 <= j < |rounds| :: rounds[j] == Tick(QueryError(NotFound))
  }

  /** The loop is left unresolved only by a script of nothing but "not found" answers. */
  lemma {:induction false} UnresolvedOnlyWhileNotFound(rounds: seq<Round>)
    ensures Poll(rounds).result == Unresolved ==> OnlyNotFound(rounds)
    decreases |rounds|
  {
    if rounds != [] && rounds[0] == Tick(QueryError(NotFound)) {
      UnresolvedOnlyWhileNotFound(rounds[1..]);
      assert forall j | 1 <= j < |rounds| :: rounds[j] == rounds[1..][j - 1];
    }
  }

  /** `waitForTx`, step by step; `actions` records the calls it makes, in order. */
  method WaitForTx(backend: Backend) returns (result: WaitResult, actions: seq<Action>)
    ensures Wait(result, actions) == Resolve(backend)
  {
    if backend.Simulated? {
      actions := [Commit];
      var reply := backend.afterCommit;
      actions := actions + [Query];
      if reply.QueryError? {
        return Failed(QueryFailed(reply.error)), actions;
      }
      if reply.status != ReceiptStatusSuccessful {
        return Failed(TxFailed(reply.status)), actions;
      }
      return Mined, actions;
    }

    var rounds := backend.rounds;
    actions := [];
    var i := 0;
    while i < |rounds|
      invariant 0 <= i <= |rounds|
      invariant Poll(rounds) == Wait(Poll(rounds[i..]).result, actions + Poll(rounds[i..]).actions)
    {
      ghost var here := rounds[i..];
      assert here[0] == rounds[i] && here[1..] == rounds[i + 1..];
      actions := actions + [Select];
      if rounds[i].ContextDone? {
        return Failed(Canceled), actions;
      }
      actions := actions + [Query];
      var reply := rounds[i].reply;
      if reply.QueryError? {
        if reply.error == NotFound {
          i := i + 1;
          continue;
        }
        return Failed(QueryFailed(reply.error)), actions;
      }
      if reply.status != ReceiptStatusSuccessful {
        return Failed(TxFailed(reply.status)), actions;
      }
      return Mined, actions;
    }
    return Unresolved, actions;
  }

  /** `k` rounds whose query answered "not found". */
  function NotFoundRounds(k: nat): (r: seq<Round>)
    ensures |r| == k && forall j | 0 <= j < k :: r[j] == Tick(QueryError(NotFound))
  {
    if k == 0 then [] else [Tick(QueryError(NotFound))] + NotFoundRounds(k - 1)
  }

  /** The actions of `k` rounds that each waited and then queried. */
  function Rounds(k: nat): seq<Action>
  {
    if k == 0 then [] else [Select, Query] + Rounds(k - 1)
  }

  /** How many times `a` occurs in `actions`. */
  function Count(a: Action, actions: seq<Action>): nat
  {
    if actions == [] then 0 else (if actions[0] == a then 1 else 0) + Count(a, actions[1..])
  }

  /** The number of rounds at the head of the script whose query answered "not found". */
  function LeadingNotFound(rounds: seq<Round>): (k: nat)
    ensures k <= |rounds|
    ensures forall j | 0 <= j < k :: rounds[j] == Tick(QueryError(NotFound))
    ensures k < |rounds| ==> rounds[k] != Tick(QueryError(NotFound))
    decreases |rounds|
  {
    if rounds == [] || rounds[0] != Tick(QueryError(NotFound)) then 0
    else 1 + LeadingNotFound(rounds[1..])
  }

  /** Waits and queries alternate, starting with a wait. */
  predicate Alternates(actions: seq<Action>)
  {
    forall i | 0 <= i < |actions| :: actions[i] == if i % 2 == 0 then Select else Query
  }

  lemma AlternatesThenSelect(actions: seq<Action>)
    requires Alternates(actions) && |actions| % 2 == 0
    ensures Alternates(actions + [Select])
  {
  }

  lemma {:induction false} RoundsShape(k: nat)
    ensures |Rounds(k)| == 2 * k && Alternates(Rounds(k))
    ensures Count(Select, Rounds(k)) == k && Count(Query, Rounds(k)) == k && Count(Commit, Rounds(k)) == 0
  {
    if k > 0 {
      RoundsShape(k - 1);
      var r := Rounds(k);
      assert r == [Select, Query] + Rounds(k - 1);
      assert r[1..] == [Query] + Rounds(k - 1);
      assert r[1..][1..] == Rounds(k - 1);
    }
  }

  lemma {:induction false} CountAppend(a: Action, xs: seq<Action>, ys: seq<Action>)
    ensures Count(a, xs + ys) == Count(a, xs) + Count(a, ys)
  {
    if xs != [] {
      assert (xs + ys)[0] == xs[0];
      assert (xs + ys)[1..] == xs[1..] + ys;
      CountAppend(a, xs[1..], ys);
    } else {
      assert xs + ys == ys;
    }
  }

  /**
   * The polling loop, described round by round instead of recursively: every
   * leading "not found" round costs one wait and one query and changes
   * nothing else; the first other round decides the result.
   */
  lemma {:induction false} PollByRounds(rounds: seq<Round>)
    ensures var k := LeadingNotFound(rounds);
      && (k == |rounds| ==> Poll(rounds) == Wait(Unresolved, Rounds(k)))
      && (k < |rounds| && rounds[k].ContextDone? ==>
            Poll(rounds) == Wait(Failed(Canceled), Rounds(k) + [Select]))
      && (k < |rounds| && rounds[k].Tick? ==>
            Poll(rounds) == Wait(Check(rounds[k].reply), Rounds(k + 1)))
    decreases |rounds|
  {
    if rounds != [] && rounds[0] == Tick(QueryError(NotFound)) {
      var rest := rounds[1..];
      PollByRounds(rest);
      assert LeadingNotFound(rounds) == 1 + LeadingNotFound(rest);
      var k := LeadingNotFound(rest);
      if k < |rest| {
        assert rounds[k + 1] == rest[k];
      }
    } else if rounds != [] && rounds[0].Tick? {
      assert Rounds(1) == [Select, Query];
    }
  }

  /** The actions of a loop that ran `k` full rounds: alternating, ending on a query, no commit. */
  lemma CompletedRoundsShape(k: nat)
    ensures Alternates(Rounds(k)) && Count(Commit, Rounds(k)) == 0
    ensures Rounds(k) != [] ==> Rounds(k)[|Rounds(k)| - 1] == Query
  {
    RoundsShape(k);
    if k > 0 {
      assert Rounds(k)[2 * k - 1] == Query;
    }
  }

  /** The actions of a loop canceled after `k` full rounds: alternating, ending on a wait, no commit. */
  lemma CanceledRoundsShape(k: nat)
    ensures var a := Rounds(k) + [Select];
      Alternates(a) && Count(Commit, a) == 0 && a[|a| - 1] == Select
  {
    RoundsShape(k);
    AlternatesThenSelect(Rounds(k));
    CountAppend(Commit, Rounds(k), [Select]);
    assert Count(Commit, [Select]) == 0;
  }

  /**
   * Every receipt query is preceded by exactly one wait: the actions of the
   * polling loop alternate wait, query, wait, query, ... and end on a wait
   * (with no query after it) exactly when the context was done.
   */
  lemma EveryQueryAfterOneWait(rounds: seq<Round>)
    ensures var w := Poll(rounds);
      && Alternates(w.actions)
      && (w.actions != [] && w.actions[|w.actions| - 1] == Select <==> w.result == Failed(Canceled))
      && Count(Commit, w.actions) == 0
  {
    var k := LeadingNotFound(rounds);
    PollByRounds(rounds);
    if k == |rounds| {
      CompletedRoundsShape(k);
    } else if rounds[k].ContextDone? {
      CanceledRoundsShape(k);
    } else {
      CompletedRoundsShape(k + 1);
      assert Check(rounds[k].reply) != Failed(Canceled);
    }
  }

  /** After k "not found" rounds, a successful receipt ends the wait with nil: k + 1 waits and k + 1 queries. */
  lemma MinedAfterNotFound(k: nat, rest: seq<Round>)
    ensures var w := Poll(NotFoundRounds(k) + [Tick(Receipt(ReceiptStatusSuccessful))] + rest);
      && w.result == Mined
      && Count(Select, w.actions) == k + 1 && Count(Query, w.actions) == k + 1
  {
    var rounds := NotFoundRounds(k) + [Tick(Receipt(ReceiptStatusSuccessful))] + rest;
    assert rounds[k] == Tick(Receipt(ReceiptStatusSuccessful));
    assert LeadingNotFound(rounds) == k;
    PollByRounds(rounds);
    RoundsShape(k + 1);
  }

  /** A done context ends the wait with ctx.Err(): the wait is the last action, and no query follows it. */
  lemma CanceledAfterNotFound(k: nat, rest: seq<Round>)
    ensures var w := Poll(NotFoundRounds(k) + [ContextDone] + rest);
      && w.result == Failed(Canceled)
      && w.actions == Rounds(k) + [Select]
      && Count(Query, w.actions) == k
  {
    var rounds := NotFoundRounds(k) + [ContextDone] + rest;
    assert rounds[k] == ContextDone;
    assert LeadingNotFound(rounds) == k;
    PollByRounds(rounds);
    RoundsShape(k);
    CountAppend(Query, Rounds(k), [Select]);
    assert Count(Query, [Select]) == 0;
  }

  /** Any query error but "not found" is returned at once, whatever the rest of the script holds. */
  lemma OtherErrorNotRetried(e: ChainError, rest: seq<Round>)
    requires e != NotFound
    ensures Poll([Tick(QueryError(e))] + rest) == Wait(Failed(QueryFailed(e)), [Select, Query])
  {
  }

  /** A receipt whose status is not successful is returned as "tx failed" at once, without another round. */
  lemma FailedReceiptNotRetried(status: nat, rest: seq<Round>)
    requires status != ReceiptStatusSuccessful
    ensures Poll([Tick(Receipt(status))] + rest) == Wait(Failed(TxFailed(status)), [Select, Query])
  {
  }

  /**
   * With a backend that implements Commit(): one commit, one query, no wait
   * and no loop; every query error, "not found" included, is returned.
   */
  lemma CommitBranchQueriesOnce(reply: Reply)
    ensures var w := Resolve(Simulated(reply));
      && w.actions == [Commit, Query]
      && w.result != Unresolved
      && (reply.QueryError? ==> w.result == Failed(QueryFailed(reply.error)))
      && (reply.Receipt? ==> (w.result == Mined <==> reply.status == ReceiptStatusSuccessful))
      && (reply.Receipt? && reply.status != ReceiptStatusSuccessful ==> w.result == Failed(TxFailed(reply.status)))
  {
  }
}
