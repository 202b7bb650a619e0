/**
 * `TransactionService`: computes a new ledger entry from the account's last
 * one and persists it through the DAO. The clock is read by the caller and
 * passed in as `now`.
 */
module Ledger {
  import opened Wrappers
  import opened Exceptions
  import opened Amounts
  import opened Transactions
  import opened Persistence

  /** BigDecimal.ZERO */
  const ZeroDecimal := Decimal(0, 0)

  /** getCurrentBalance's `map(balanceAfterExecution).orElse(amountOf(ZERO))` over findLast's answer. */
  function BalanceOf(last: Option<Transaction>): (balance: Amount)
    ensures last.None? ==> balance.cents == 0
    ensures last.Some? ==> balance == last.value.balanceAfterExecution
  {
    match last
    case Some(t) => t.balanceAfterExecution
    case None => AmountOf(ZeroDecimal).value
  }

  /** The balance of an account whose history is h. */
  function CurrentBalance(h: seq<Transaction>): (balance: Amount)
    ensures h == [] ==> balance.cents == 0
    ensures h != [] ==> balance == h[|h| - 1].balanceAfterExecution
  {
    BalanceOf(Last(h))
  }

  // ------------------------------------------------------- ledger invariant

  /** t's resulting balance is `prior` plus (deposit) or minus (withdrawal) its amount. */
  predicate Follows(prior: Amount, t: Transaction)
  {
    match t.kind
    case DEPOSIT => t.balanceAfterExecution.cents == prior.cents + t.amount.cents
    case WITHDRAWAL => t.balanceAfterExecution.cents + t.amount.cents == prior.cents
  }

  /** Every entry follows from the balance left by the entries before it (zero for the first). */
  predicate Consistent(h: seq<Transaction>)
    decreases |h|
  {
    h == [] || (Consistent(h[..|h| - 1]) && Follows(CurrentBalance(h[..|h| - 1]), h[|h| - 1]))
  }

  /** The effect of one entry on the balance. */
  function Signed(t: Transaction): int
  {
    match t.kind
    case DEPOSIT => t.amount.cents
    case WITHDRAWAL => -(t.amount.cents as int)
  }

  /** Sum of deposits minus sum of withdrawals. */
  function NetFlow(h: seq<Transaction>): int
    decreases |h|
  {
    if h == [] then 0 else NetFlow(h[..|h| - 1]) + Signed(h[|h| - 1])
  }

  /** Every entry of h is for accountId. */
  predicate BelongsTo(h: seq<Transaction>, accountId: AccountId)
  {
    forall k :: 0 <= k < |h| ==> h[k].accountId == accountId
  }

  /** The service's invariant over the whole store. */
  ghost predicate LedgerValid(m: map<AccountId, seq<Transaction>>)
  {
    forall id :: id in m ==> Consistent(m[id]) && BelongsTo(m[id], id)
  }

  /** In a consistent history the current balance is the net flow of all its entries. */
  lemma {:induction false} ConsistentBalanceIsNetFlow(h: seq<Transaction>)
    requires Consistent(h)
    ensures CurrentBalance(h).cents == NetFlow(h)
  {
    if h != [] {
      ConsistentBalanceIsNetFlow(h[..|h| - 1]);
    }
  }

  /** Appending an entry that follows from the current balance keeps a history consistent. */
  lemma AppendKeepsConsistent(h: seq<Transaction>, t: Transaction)
    requires Consistent(h) && Follows(CurrentBalance(h), t)
    ensures Consistent(h + [t])
    ensures CurrentBalance(h + [t]) == t.balanceAfterExecution
  {
    assert (h + [t])[..|h|] == h;
  }

  /** Appending such an entry to the right account keeps the whole store valid. */
  lemma AppendKeepsLedgerValid(m: map<AccountId, seq<Transaction>>, accountId: AccountId, t: Transaction)
    requires LedgerValid(m)
    requires t.accountId == accountId && Follows(CurrentBalance(History(m, accountId)), t)
    ensures LedgerValid(m[accountId := History(m, accountId) + [t]])
  {
    AppendKeepsConsistent(History(m, accountId), t);
  }

  // ------------------------------------------------------- the service

  class TransactionService {
    const transactionsDao: TransactionsDao

    constructor (transactionsDao: TransactionsDao)
      ensures this.transactionsDao == transactionsDao
    {
      this.transactionsDao := transactionsDao;
    }

    /** `getCurrentBalance`: one findLast; the answer's balance, or 0.00 when there is none. */
    method GetCurrentBalance(accountId: AccountId) returns (balance: Amount)
      modifies transactionsDao`calls
      ensures transactionsDao.histories == old(transactionsDao.histories)
      ensures transactionsDao.calls == old(transactionsDao.calls) + [FindLastCall(accountId)]
      ensures balance == CurrentBalance(History(transactionsDao.histories, accountId))
    {
      var last := transactionsDao.FindLast(accountId);
      balance := BalanceOf(last);
    }

    /**
     * `deposit`: never fails; returns the DEPOSIT entry whose balance is the
     * current balance plus the amount, after one findLast and one save of
     * that same entry, touching no other account.
     */
    method Deposit(accountId: AccountId, amount: Amount, now: DateTime) returns (deposit: Transaction)
      modifies transactionsDao
      ensures var prior := old(CurrentBalance(History(transactionsDao.histories, accountId)));
        && deposit == Transaction(accountId, now, amount, Plus(prior, amount), DEPOSIT)
        && deposit.balanceAfterExecution.cents == prior.cents + amount.cents
      ensures transactionsDao.histories
        == old(transactionsDao.histories)[accountId := old(History(transactionsDao.histories, accountId)) + [deposit]]
      ensures forall other :: other != accountId ==>
        History(transactionsDao.histories, other) == old(History(transactionsDao.histories, other))
      ensures transactionsDao.calls
        == old(transactionsDao.calls) + [FindLastCall(accountId), SaveCall(accountId, deposit)]
      ensures old(LedgerValid(transactionsDao.histories)) ==> LedgerValid(transactionsDao.histories)
    {
      var date := now;
      var currentBalance := GetCurrentBalance(accountId);
      deposit := Transaction(accountId, date, amount, Plus(currentBalance, amount), DEPOSIT);
      ghost var before := transactionsDao.histories;
      transactionsDao.Save(accountId, deposit);
      if LedgerValid(before) {
        AppendKeepsLedgerValid(before, accountId, deposit);
      }
    }

    /**
     * `withdrawal` (absent from the source; follows what its tests assert):
     * refused with NotEnoughMoney, after one findLast and nothing else, when
     * the amount exceeds the current balance; otherwise the WITHDRAWAL entry
     * whose balance is the current balance minus the amount, saved once.
     */
    method Withdrawal(accountId: AccountId, amount: Amount, now: DateTime) returns (r: Result<Transaction, LedgerError>)
      modifies transactionsDao
      ensures var prior := old(CurrentBalance(History(transactionsDao.histories, accountId)));
        && (r.Err? <==> amount.cents > prior.cents)
        && (r.Err? ==> r.error == NotEnoughMoney)
        && (r.Ok? ==> r.value.accountId == accountId && r.value.date == now && r.value.amount == amount
                      && r.value.kind == WITHDRAWAL
                      && r.value.balanceAfterExecution.cents == prior.cents - amount.cents)
      ensures r.Err? ==> transactionsDao.histories == old(transactionsDao.histories)
      ensures r.Err? ==> transactionsDao.calls == old(transactionsDao.calls) + [FindLastCall(accountId)]
      ensures r.Ok? ==> (transactionsDao.histories
        == old(transactionsDao.histories)[accountId := old(History(transactionsDao.histories, accountId)) + [r.value]])
      ensures r.Ok? ==> (transactionsDao.calls
        == old(transactionsDao.calls) + [FindLastCall(accountId), SaveCall(accountId, r.value)])
      ensures forall other :: other != accountId ==>
        History(transactionsDao.histories, other) == old(History(transactionsDao.histories, other))
      ensures old(LedgerValid(transactionsDao.histories)) ==> LedgerValid(transactionsDao.histories)
    {
      var date := now;
      ghost var oldHistories := transactionsDao.histories;
      var currentBalance := GetCurrentBalance(accountId);
      assert transactionsDao.histories == oldHistories;
      assert currentBalance == CurrentBalance(History(oldHistories, accountId));
      if CompareTo(amount, currentBalance) > 0 {
        r := Err(NotEnoughMoney);
        return;
      }
      var remaining := Minus(currentBalance, amount);
      assert remaining.Ok? && remaining.value.cents + amount.cents == currentBalance.cents;
      var withdrawal := Transaction(accountId, date, amount, remaining.value, WITHDRAWAL);
      assert Follows(currentBalance, withdrawal);
      transactionsDao.Save(accountId, withdrawal);
      if LedgerValid(oldHistories) {
        AppendKeepsLedgerValid(oldHistories, accountId, withdrawal);
      }
      r := Ok(withdrawal);
    }
  }

  // ------------------------------------------------------- scenarios

  /** Prior balance 20.00, deposit of 10.00: a DEPOSIT of 10.00 leaving 30.00, after findLast then save. */
  method DepositScenario(accountId: AccountId, now: DateTime) returns (deposit: Transaction)
    ensures deposit == Transaction(accountId, now, Amount(1000), Amount(3000), DEPOSIT)
  {
    var dao := new TransactionsDao();
    dao.Save(accountId, Transaction(accountId, now, Amount(2000), Amount(2000), DEPOSIT));
    var service := new TransactionService(dao);
    ghost var before := dao.calls;
    deposit := service.Deposit(accountId, Amount(1000), now);
    assert dao.calls == before + [FindLastCall(accountId), SaveCall(accountId, deposit)];
  }

  /** Prior balance 30.00, withdrawal of 10.00: a WITHDRAWAL of 10.00 leaving 20.00, after findLast then save. */
  method WithdrawalScenario(accountId: AccountId, now: DateTime) returns (r: Result<Transaction, LedgerError>)
    ensures r == Ok(Transaction(accountId, now, Amount(1000), Amount(2000), WITHDRAWAL))
  {
    var dao := new TransactionsDao();
    dao.Save(accountId, Transaction(accountId, now, Amount(500), Amount(3000), WITHDRAWAL));
    var service := new TransactionService(dao);
    ghost var before := dao.calls;
    r := service.Withdrawal(accountId, Amount(1000), now);
    assert dao.calls == before + [FindLastCall(accountId), SaveCall(accountId, r.value)];
  }

  /** Withdrawal of 10.00 against a balance of 5.00 or an empty history: NotEnoughMoney, one findLast, no save. */
  method RefusedWithdrawalScenario(accountId: AccountId, now: DateTime, seeded: bool) returns (r: Result<Transaction, LedgerError>)
    ensures r == Err(NotEnoughMoney)
  {
    var dao := new TransactionsDao();
    if seeded {
      dao.Save(accountId, Transaction(accountId, now, Amount(5000), Amount(500), WITHDRAWAL));
    }
    var service := new TransactionService(dao);
    ghost var before := dao.calls;
    ghost var stored := dao.histories;
    r := service.Withdrawal(accountId, Amount(1000), now);
    assert dao.calls == before + [FindLastCall(accountId)];
    assert dao.histories == stored;
  }
}
