/**
  The entries as an audit trail. Every committed transfer writes one entry
  per balance change, so the balances can be rebuilt from the opening
  balances and the entry table, and the entry table as a whole sums to zero.
  Both facts survive every exit of the transfer transaction except a failed
  rollback, including a failed commit whichever way it went.
*/
module Audit {
  import opened Ledger
  import opened TransferSpec

  /** The net of all entries on account `id`. */
  function EntryTotal(entries: seq<Entry>, id: int): int
    decreases |entries|
  {
    if entries == [] then 0
    else (if entries[0].accountId == id then entries[0].amount else 0) + EntryTotal(entries[1..], id)
  }

  /** The sum of all entry amounts. */
  function EntrySum(entries: seq<Entry>): int
    decreases |entries|
  {
    if entries == [] then 0 else entries[0].amount + EntrySum(entries[1..])
  }

  lemma {:induction false} EntryTotalAppend(es: seq<Entry>, more: seq<Entry>, id: int)
    ensures EntryTotal(es + more, id) == EntryTotal(es, id) + EntryTotal(more, id)
    decreases |es|
  {
    if es != [] {
      assert (es + more)[1..] == es[1..] + more;
      EntryTotalAppend(es[1..], more, id);
    } else {
      assert es + more == more;
    }
  }

  lemma {:induction false} EntrySumAppend(es: seq<Entry>, more: seq<Entry>)
    ensures EntrySum(es + more) == EntrySum(es) + EntrySum(more)
    decreases |es|
  {
    if es != [] {
      assert (es + more)[1..] == es[1..] + more;
      EntrySumAppend(es[1..], more);
    } else {
      assert es + more == more;
    }
  }

  /** The net, per account, of the two entries one transfer writes. */
  lemma TransferEntriesNet(arg: TransferTxParams, x: int)
    ensures EntryTotal([Entry(arg.fromAccountId, -arg.amount), Entry(arg.toAccountId, arg.amount)], x)
         == Delta(x, arg.fromAccountId, -arg.amount) + Delta(x, arg.toAccountId, arg.amount)
    ensures EntrySum([Entry(arg.fromAccountId, -arg.amount), Entry(arg.toAccountId, arg.amount)]) == 0
  {
    var pair := [Entry(arg.fromAccountId, -arg.amount), Entry(arg.toAccountId, arg.amount)];
    var tail := [Entry(arg.toAccountId, arg.amount)];
    assert pair[1..] == tail && tail[1..] == [];
    assert EntryTotal(tail, x) == Delta(x, arg.toAccountId, arg.amount) + EntryTotal([], x);
    assert EntrySum(tail) == arg.amount + EntrySum([]);
  }

  /** Every balance equals its opening balance plus the net of its entries. */
  ghost predicate Reconciled(opening: map<int, int>, s: State) {
    && s.balances.Keys == opening.Keys
    && forall x | x in s.balances :: s.balances[x] == opening[x] + EntryTotal(s.entries, x)
  }

  /** The two entries of one transfer net, per account, to exactly the balance change it makes. */
  lemma {:induction false} AppliedKeepsReconciled(opening: map<int, int>, s: State, arg: TransferTxParams, s': State)
    requires Reconciled(opening, s) && Applied(s, arg, s')
    ensures Reconciled(opening, s')
  {
    var pair := [Entry(arg.fromAccountId, -arg.amount), Entry(arg.toAccountId, arg.amount)];
    forall x | x in s'.balances
      ensures s'.balances[x] == opening[x] + EntryTotal(s'.entries, x)
    {
      EntryTotalAppend(s.entries, pair, x);
      TransferEntriesNet(arg, x);
    }
  }

  /**
    Whatever fails, a transfer transaction whose rollback does not fail
    leaves a reconciled ledger reconciled.
  */
  lemma {:induction false} TransferTxKeepsReconciled(
    opening: map<int, int>, s: State, arg: TransferTxParams, sf: StepFaults, tf: TxFaults)
    requires Reconciled(opening, s)
    requires !RollbackLost(tf, Work(s, arg, sf))
    ensures Reconciled(opening, TransferTx(s, arg, sf, tf).state)
  {
    var o := TransferTx(s, arg, sf, tf);
    if o.state != s {
      AppliedKeepsReconciled(opening, s, arg, o.state);
    }
  }

  /**
    The two entries of a transfer sum to zero, so a transfer transaction
    whose rollback does not fail keeps the sum of the entry table.
  */
  lemma {:induction false} TransferTxKeepsEntrySum(s: State, arg: TransferTxParams, sf: StepFaults, tf: TxFaults)
    requires !RollbackLost(tf, Work(s, arg, sf))
    ensures EntrySum(TransferTx(s, arg, sf, tf).state.entries) == EntrySum(s.entries)
  {
    var o := TransferTx(s, arg, sf, tf);
    if o.state != s {
      var pair := [Entry(arg.fromAccountId, -arg.amount), Entry(arg.toAccountId, arg.amount)];
      EntrySumAppend(s.entries, pair);
      TransferEntriesNet(arg, arg.fromAccountId);
    }
  }
}
