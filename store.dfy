/**
  The store as the transfer transaction drives it: the ledger tables are
  fields that the single-row operations update in place, and the
  transaction wrapper saves and restores them. Every method is proved
  against the matching function of TransferSpec (or Ledger for the
  single-row operations).
*/
module Db {
  import opened Ledger
  import opened TransferSpec

  class Store {
    var balances: map<int, int>
    var transfers: seq<Transfer>
    var entries: seq<Entry>
    /** Every single-row call issued against the store, in order, rolled back or not. */
    ghost var log: seq<Query>

    /** The ledger as the open transaction sees it. */
    function Current(): State
      reads this
    {
      State(balances, transfers, entries)
    }

    constructor (opening: map<int, int>)
      ensures Current() == State(opening, [], []) && log == []
    {
      balances, transfers, entries := opening, [], [];
      log := [];
    }

    method CreateTransfer(p: CreateTransferParams, fail: bool) returns (t: Transfer, err: Option<Error>)
      modifies this
      ensures var r := Ledger.CreateTransfer(old(Current()), p, fail);
        Current() == r.state && t == r.value && err == r.err
      ensures log == old(log) + [CreateTransferCall(p)]
    {
      log := log + [CreateTransferCall(p)];
      if fail {
        return ZeroTransfer, Some(QueryFailed(CreateTransferCall(p)));
      }
      t := Transfer(p.fromAccountId, p.toAccountId, p.amount);
      transfers := transfers + [t];
      err := None;
    }

    method CreateEntry(p: CreateEntryParams, fail: bool) returns (e: Entry, err: Option<Error>)
      modifies this
      ensures var r := Ledger.CreateEntry(old(Current()), p, fail);
        Current() == r.state && e == r.value && err == r.err
      ensures log == old(log) + [CreateEntryCall(p)]
    {
      log := log + [CreateEntryCall(p)];
      if fail {
        return ZeroEntry, Some(QueryFailed(CreateEntryCall(p)));
      }
      e := Entry(p.accountId, p.amount);
      entries := entries + [e];
      err := None;
    }

    method AddAccountBalance(p: AddAccountBalanceParams, fail: bool) returns (a: Account, err: Option<Error>)
      modifies this
      ensures var r := Ledger.AddAccountBalance(old(Current()), p, fail);
        Current() == r.state && a == r.value && err == r.err
      ensures log == old(log) + [AddAccountBalanceCall(p)]
    {
      log := log + [AddAccountBalanceCall(p)];
      if fail {
        return ZeroAccount, Some(QueryFailed(AddAccountBalanceCall(p)));
      }
      if p.id !in balances {
        return ZeroAccount, Some(NoRows(p.id));
      }
      balances := balances[p.id := balances[p.id] + p.amount];
      a := Account(p.id, balances[p.id]);
      err := None;
    }

    /** Adds amount1 to account id1, then amount2 to account id2; stops at the first error. */
    method AddMoney(id1: int, amount1: int, id2: int, amount2: int, fail1: bool, fail2: bool)
      returns (account1: Account, account2: Account, err: Option<Error>)
      modifies this
      ensures var r := TransferSpec.AddMoney(old(Current()), id1, amount1, id2, amount2, fail1, fail2);
        Current() == r.state && account1 == r.account1 && account2 == r.account2 && err == r.err
        && log == old(log) + r.trace
    {
      account2 := ZeroAccount;
      account1, err := AddAccountBalance(AddAccountBalanceParams(id1, amount1), fail1);
      if err.Some? {
        return;
      }
      account2, err := AddAccountBalance(AddAccountBalanceParams(id2, amount2), fail2);
    }

    /** The unit of work of a transfer: the three records, then the balance step. */
    method TransferWork(arg: TransferTxParams, f: StepFaults) returns (result: TransferTxResult, err: Option<Error>)
      modifies this
      ensures var o := Work(old(Current()), arg, f);
        Current() == o.state && result == o.result && err == o.err && log == old(log) + o.trace
    {
      result, err := CreateRecords(arg, f);
      if err.Some? {
        return;
      }
      var fromAccount: Account, toAccount: Account;
      fromAccount, toAccount, err := UpdateBalances(arg, f);
      result := result.(fromAccount := fromAccount, toAccount := toAccount);
    }

    /**
      The first three steps of a transfer: each stores what it returns into
      the result, and the first failing step ends the work.
    */
    method CreateRecords(arg: TransferTxParams, f: StepFaults) returns (result: TransferTxResult, err: Option<Error>)
      modifies this
      ensures var o := TransferSpec.CreateRecords(old(Current()), arg, f);
        Current() == o.state && result == o.result && err == o.err && log == old(log) + o.trace
    {
      result := ZeroResult;
      var t: Transfer;
      t, err := CreateTransfer(CreateTransferParams(arg.fromAccountId, arg.toAccountId, arg.amount), f.createTransfer);
      result := result.(transfer := t);
      if err.Some? {
        return;
      }

      var e: Entry;
      e, err := CreateEntry(CreateEntryParams(arg.fromAccountId, -arg.amount), f.fromEntry);
      result := result.(fromEntry := e);
      if err.Some? {
        return;
      }

      e, err := CreateEntry(CreateEntryParams(arg.toAccountId, arg.amount), f.toEntry);
      result := result.(toEntry := e);
    }

    /**
      The balance step of a transfer: the account with the smaller id is
      updated first, and the two returned rows come back in from/to order.
    */
    method UpdateBalances(arg: TransferTxParams, f: StepFaults) returns (fromAccount: Account, toAccount: Account, err: Option<Error>)
      modifies this
      ensures var r := TransferSpec.UpdateBalances(old(Current()), arg, f);
        Current() == r.state && fromAccount == r.fromAccount && toAccount == r.toAccount && err == r.err
        && log == old(log) + r.trace
    {
      ghost var o := Order(arg);
      if arg.fromAccountId < arg.toAccountId {
        assert o.fromFirst && o.id1 == arg.fromAccountId && o.id2 == arg.toAccountId;
        fromAccount, toAccount, err := AddMoney(arg.fromAccountId, -arg.amount, arg.toAccountId, arg.amount, f.firstUpdate, f.secondUpdate);
      } else {
        assert !o.fromFirst && o.id1 == arg.toAccountId && o.id2 == arg.fromAccountId;
        toAccount, fromAccount, err := AddMoney(arg.toAccountId, arg.amount, arg.fromAccountId, -arg.amount, f.firstUpdate, f.secondUpdate);
      }
    }

    /** Puts the ledger tables back as they were saved. */
    method Restore(saved: State)
      modifies this
      ensures Current() == saved && log == old(log)
    {
      balances, transfers, entries := saved.balances, saved.transfers, saved.entries;
    }

    /**
      Runs the transfer's unit of work inside a transaction: nothing runs if
      begin fails; a failed work is rolled back, or reported with the
      rollback's error when that fails too; a successful work is committed,
      and a failed commit discards the work's writes unless they persisted.
    */
    method ExecTx(arg: TransferTxParams, sf: StepFaults, tf: TxFaults) returns (result: TransferTxResult, err: Option<Error>)
      modifies this
      ensures var w := Work(old(Current()), arg, sf);
        var r := TransferSpec.ExecTx(old(Current()), tf, TxReply(w.state, w.trace, w.err));
        Current() == r.state && err == r.err && log == old(log) + r.trace
        && result == (if tf.begin then ZeroResult else w.result)
    {
      result := ZeroResult;
      if tf.begin {
        return result, Some(BeginFailed);
      }
      var saved := Current();

      result, err := TransferWork(arg, sf);
      if err.Some? {
        if tf.rollback {
          err := Some(TxAndRollback(err.value, RollbackFailed));
        } else {
          Restore(saved);
        }
        return;
      }

      if tf.commit {
        if !tf.commitPersisted {
          Restore(saved);
        }
        err := Some(CommitFailed);
      }
    }

    /**
      The transfer transaction. On success one transfer and two entries are
      added and the two balances moved by the amount; on any error other than
      a failed rollback or a failed commit the ledger is as it was, and after
      a failed commit it is either as it was or as on success.
    */
    method TransferTx(arg: TransferTxParams, sf: StepFaults, tf: TxFaults) returns (result: TransferTxResult, err: Option<Error>)
      modifies this
      ensures var o := TransferSpec.TransferTx(old(Current()), arg, sf, tf);
        Current() == o.state && result == o.result && err == o.err && log == old(log) + o.trace
      ensures err.None? ==> Applied(old(Current()), arg, Current()) && log == old(log) + Script(arg)
      ensures err.None? ==> result.fromAccount == Account(arg.fromAccountId, balances[arg.fromAccountId])
      ensures err == Some(CommitFailed) ==> Current() == old(Current()) || Applied(old(Current()), arg, Current())
      ensures err.Some? && err != Some(CommitFailed) && !RollbackLost(tf, Work(old(Current()), arg, sf)) ==>
        Current() == old(Current())
    {
      result, err := ExecTx(arg, sf, tf);
    }
  }
}
