/**
 * The persistence contract `TransactionsDAO` as an abstract store: a history
 * per account that `save` appends to and `findLast` reads the end of, plus a
 * ghost log of every call made, so that call order can be stated.
 */
module Persistence {
  import opened Wrappers
  import opened Transactions

  datatype DaoCall =
    | FindLastCall(accountId: AccountId)
    | SaveCall(accountId: AccountId, transaction: Transaction)

  /** The history stored for an account; an account never saved to has none. */
  function History(m: map<AccountId, seq<Transaction>>, accountId: AccountId): seq<Transaction>
  {
    if accountId in m then m[accountId] else []
  }

  /** The most recent entry of a history, if any. */
  function Last(h: seq<Transaction>): Option<Transaction>
  {
    if h == [] then None else Some(h[|h| - 1])
  }

  class TransactionsDao {
    var histories: map<AccountId, seq<Transaction>>
    ghost var calls: seq<DaoCall>

    constructor ()
      ensures histories == map[] && calls == []
    {
      histories := map[];
      calls := [];
    }

    /** `save(accountId, transaction)`: appends to that account's history. */
    method Save(accountId: AccountId, transaction: Transaction)
      modifies this
      ensures histories == old(histories)[accountId := old(History(histories, accountId)) + [transaction]]
      ensures calls == old(calls) + [SaveCall(accountId, transaction)]
    {
      histories := histories[accountId := History(histories, accountId) + [transaction]];
      calls := calls + [SaveCall(accountId, transaction)];
    }

    /** `findLast(accountId)`: the most recently saved entry of that account, or none. */
    method FindLast(accountId: AccountId) returns (last: Option<Transaction>)
      modifies this`calls
      ensures histories == old(histories)
      ensures calls == old(calls) + [FindLastCall(accountId)]
      ensures last.None? <==> History(histories, accountId) == []
      ensures last.Some? ==> last.value == History(histories, accountId)[|History(histories, accountId)| - 1]
    {
      last := Last(History(histories, accountId));
      calls := calls + [FindLastCall(accountId)];
    }
  }
}
