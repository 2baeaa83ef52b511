/**
  The ledger the transfer transaction works on, and the three generated
  single-row operations it calls (CreateTransfer, CreateEntry,
  AddAccountBalance). The generated query code is not part of this model:
  each operation is an append or an increment on the ledger that can be made
  to fail, so that every exit path of the transaction can be stated.
*/
module Ledger {

  datatype Option<+T> = None | Some(value: T)

  /** An account row as the balance update returns it. */
  datatype Account = Account(id: int, balance: int)

  /** A transfer record: money moved from one account to another. */
  datatype Transfer = Transfer(fromAccountId: int, toAccountId: int, amount: int)

  /** A ledger entry: one signed balance change on one account. */
  datatype Entry = Entry(accountId: int, amount: int)

  /** The zero values a failing operation hands back. */
  const ZeroAccount := Account(0, 0)
  const ZeroTransfer := Transfer(0, 0, 0)
  const ZeroEntry := Entry(0, 0)

  datatype CreateTransferParams = CreateTransferParams(fromAccountId: int, toAccountId: int, amount: int)
  datatype CreateEntryParams = CreateEntryParams(accountId: int, amount: int)
  datatype AddAccountBalanceParams = AddAccountBalanceParams(id: int, amount: int)

  /** One single-row operation as issued against the store. */
  datatype Query =
    | CreateTransferCall(transferParams: CreateTransferParams)
    | CreateEntryCall(entryParams: CreateEntryParams)
    | AddAccountBalanceCall(balanceParams: AddAccountBalanceParams)

  datatype Error =
    | BeginFailed
    | QueryFailed(query: Query)     // an injected failure of one single-row operation
    | NoRows(id: int)               // the balance update found no account with this id
    | RollbackFailed
    | CommitFailed
    | TxAndRollback(txErr: Error, rbErr: Error)  // the work failed and so did its rollback

  /** Balances by account id, and the transfer and entry tables in insertion order. */
  datatype State = State(balances: map<int, int>, transfers: seq<Transfer>, entries: seq<Entry>)

  /** What one single-row operation leaves behind: the new state, the row it returns, its error. */
  datatype Reply<T> = Reply(state: State, value: T, err: Option<Error>)

  /** True when `e` is the error that query `q` reports. */
  predicate Blames(e: Error, q: Query) {
    e == QueryFailed(q) || (q.AddAccountBalanceCall? && e == NoRows(q.balanceParams.id))
  }

  /** Inserts a transfer record; fails only when `fail` is set. */
  function CreateTransfer(s: State, p: CreateTransferParams, fail: bool): (r: Reply<Transfer>)
    ensures r.err.None? <==> !fail
    ensures r.err.None? ==> r.state == s.(transfers := s.transfers + [r.value])
    ensures r.err.None? ==> r.value == Transfer(p.fromAccountId, p.toAccountId, p.amount)
    ensures r.err.Some? ==> r.state == s && r.value == ZeroTransfer && Blames(r.err.value, CreateTransferCall(p))
  {
    if fail then Reply(s, ZeroTransfer, Some(QueryFailed(CreateTransferCall(p))))
    else
      var t := Transfer(p.fromAccountId, p.toAccountId, p.amount);
      Reply(s.(transfers := s.transfers + [t]), t, None)
  }

  /** Inserts an entry; fails only when `fail` is set. */
  function CreateEntry(s: State, p: CreateEntryParams, fail: bool): (r: Reply<Entry>)
    ensures r.err.None? <==> !fail
    ensures r.err.None? ==> r.state == s.(entries := s.entries + [r.value])
    ensures r.err.None? ==> r.value == Entry(p.accountId, p.amount)
    ensures r.err.Some? ==> r.state == s && r.value == ZeroEntry && Blames(r.err.value, CreateEntryCall(p))
  {
    if fail then Reply(s, ZeroEntry, Some(QueryFailed(CreateEntryCall(p))))
    else
      var e := Entry(p.accountId, p.amount);
      Reply(s.(entries := s.entries + [e]), e, None)
  }

  /**
    Adds a signed amount to one account's balance and returns the updated
    row; fails when `fail` is set or when no account has the id.
  */
  function AddAccountBalance(s: State, p: AddAccountBalanceParams, fail: bool): (r: Reply<Account>)
    ensures r.err.None? <==> !fail && p.id in s.balances
    ensures r.err.None? ==> r.state == s.(balances := s.balances[p.id := s.balances[p.id] + p.amount])
    ensures r.err.None? ==> r.value == Account(p.id, s.balances[p.id] + p.amount)
    ensures r.err.Some? ==> r.state == s && r.value == ZeroAccount && Blames(r.err.value, AddAccountBalanceCall(p))
  {
    if fail then Reply(s, ZeroAccount, Some(QueryFailed(AddAccountBalanceCall(p))))
    else if p.id !in s.balances then Reply(s, ZeroAccount, Some(NoRows(p.id)))
    else
      var b := s.balances[p.id] + p.amount;
      Reply(s.(balances := s.balances[p.id := b]), Account(p.id, b), None)
  }
}
