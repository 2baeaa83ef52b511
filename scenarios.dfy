/**
  Concrete runs of the transfer transaction, and what two transfers in
  opposite directions do to the balances when run one after the other.
*/
module Scenarios {
  import opened Ledger
  import opened TransferSpec

  const StepsOk := StepFaults(false, false, false, false, false)
  const TxOk := TxFaults(false, false, false, false)

  /** Moving 100 from account 1 (500) to account 2 (300) leaves both at 400. */
  lemma OneToTwo()
    ensures var o := TransferTx(State(map[1 := 500, 2 := 300], [], []), TransferTxParams(1, 2, 100), StepsOk, TxOk);
      && o.err == None
      && o.state == State(map[1 := 400, 2 := 400], [Transfer(1, 2, 100)], [Entry(1, -100), Entry(2, 100)])
      && o.result == TransferTxResult(Transfer(1, 2, 100), Account(1, 400), Account(2, 400), Entry(1, -100), Entry(2, 100))
      && o.trace == [ CreateTransferCall(CreateTransferParams(1, 2, 100)),
                      CreateEntryCall(CreateEntryParams(1, -100)),
                      CreateEntryCall(CreateEntryParams(2, 100)),
                      AddAccountBalanceCall(AddAccountBalanceParams(1, -100)),
                      AddAccountBalanceCall(AddAccountBalanceParams(2, 100)) ]
  {
  }

  /**
    Moving 100 from account 2 to account 1: account 1 is still updated
    first, and the result still names account 2 as the from-account.
  */
  lemma TwoToOne()
    ensures var o := TransferTx(State(map[1 := 500, 2 := 300], [], []), TransferTxParams(2, 1, 100), StepsOk, TxOk);
      && o.err == None
      && o.result.fromAccount == Account(2, 200) && o.result.toAccount == Account(1, 600)
      && o.trace[3] == AddAccountBalanceCall(AddAccountBalanceParams(1, 100))
      && o.trace[4] == AddAccountBalanceCall(AddAccountBalanceParams(2, -100))
  {
  }

  /**
    A transfer from an account to itself succeeds and nets to zero; the
    credit is applied first, so the to-snapshot shows the balance plus the
    amount and the from-snapshot the final balance.
  */
  lemma ToSelf()
    ensures var o := TransferTx(State(map[7 := 50], [], []), TransferTxParams(7, 7, 20), StepsOk, TxOk);
      && o.err == None
      && o.state.balances == map[7 := 50]
      && o.result.toAccount == Account(7, 70) && o.result.fromAccount == Account(7, 50)
  {
  }

  /** A missing destination account aborts at the balance step and leaves the ledger as it was. */
  lemma MissingAccount()
    ensures var o := TransferTx(State(map[1 := 500], [], []), TransferTxParams(1, 2, 100), StepsOk, TxOk);
      && o.err == Some(NoRows(2))
      && o.state == State(map[1 := 500], [], [])
      && |o.trace| == 5
  {
  }

  /**
    Two committed transfers of the same amount between the same two accounts,
    in opposite directions, leave every balance as it was. Every committed
    transfer moves the balances as Moved says (TransferSpec.TransferTx).
  */
  lemma OppositeTransfersCancel(b: map<int, int>, b1: map<int, int>, b2: map<int, int>, x: int, y: int, a: int)
    requires Moved(b, TransferTxParams(x, y, a), b1)
    requires Moved(b1, TransferTxParams(y, x, a), b2)
    ensures b2 == b
  {
    forall k | k in b
      ensures b2[k] == b[k]
    {
    }
  }
}
