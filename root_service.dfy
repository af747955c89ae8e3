/** The transfer service of the root lineage (TransferService.transfer): it
    looks both accounts up, repeats the root validator's three checks inline,
    moves the money and records one WITHDRAW entry for the source. */
module RootService {
  import opened Domain
  import RootValidator

  class TransferService {
    /** The user repository: what `findById` resolves each id to. */
    const accounts: map<int, Account>
    /** Every entry the history repository has saved, oldest first. */
    var history: seq<HistoryEntry>

    constructor (accounts: map<int, Account>)
      ensures this.accounts == accounts && history == []
    {
      this.accounts := accounts;
      history := [];
    }

    /** Transfers `amount` from the account `fromUserId` to the account
        `toUserId`. `todayTransferAmount` is what the transfer repository
        reports as sent from the source account today. On any refusal nothing
        changes; on success exactly the two balances move and one entry is saved. */
    method Transfer(fromUserId: int, toUserId: int, amount: int, todayTransferAmount: int) returns (r: Outcome)
      modifies this`history, accounts.Values`balance
      ensures fromUserId !in accounts || toUserId !in accounts ==> r == Fail(AccountNotFound)
      ensures fromUserId in accounts && toUserId in accounts ==>
        var from := accounts[fromUserId];
        r == RootValidator.ValidateTransfer(old(from.balance), from.withdrawAvailableAmountAtATime,
                                            from.transferAvailableAmountPerDay, todayTransferAmount, amount)
      ensures r.Fail? ==> history == old(history)
      ensures r.Fail? ==> forall a :: a in accounts.Values ==> a.balance == old(a.balance)
      ensures r.Pass? ==> fromUserId in accounts && toUserId in accounts
      ensures r.Pass? ==>
        var from, to := accounts[fromUserId], accounts[toUserId];
        && history == old(history) + [HistoryEntry(from, amount, Withdraw)]
        && (forall a :: a in accounts.Values ==> a.balance == old(a.balance) + Delta(a, from, to, amount))
        && (from != to ==> from.balance + to.balance == old(from.balance) + old(to.balance))
    {
      if fromUserId !in accounts {
        return Fail(AccountNotFound);
      }
      var fromAccount := accounts[fromUserId];
      if toUserId !in accounts {
        return Fail(AccountNotFound);
      }
      var toAccount := accounts[toUserId];

      if fromAccount.balance < amount {
        return Fail(LeakOfBalance);
      }
      if fromAccount.withdrawAvailableAmountAtATime < amount {
        return Fail(ExceedAtATime);
      }
      if fromAccount.transferAvailableAmountPerDay <= todayTransferAmount + amount {
        return Fail(ExceedPerDay);
      }

      fromAccount.balance := fromAccount.balance - amount;
      toAccount.balance := toAccount.balance + amount;

      history := history + [HistoryEntry(fromAccount, amount, Withdraw)];
      r := Pass;
    }
  }

  /** A successful transfer of 500 between two accounts holding 1000 each:
      the source ends with 500, the destination with 1500, and the only entry
      saved is the source's WITHDRAW of 500. */
  method TransferCompletedScenario() returns (r: Outcome, fromBalance: int, toBalance: int, saved: seq<(int, int, HistoryType)>)
    ensures r == Pass && fromBalance == 500 && toBalance == 1500
    ensures saved == [(1, 500, Withdraw)]
  {
    var from := new Account(1, 1000, 10000, 1000);
    var to := new Account(2, 1000, 10000, 1000);
    var service := new TransferService(map[1 := from, 2 := to]);
    assert service.accounts[1] == from && service.accounts[2] == to;
    r := service.Transfer(1, 2, 500, 0);
    fromBalance, toBalance := from.balance, to.balance;
    var h := service.history;
    saved := seq(|h|, i requires 0 <= i < |h| => (h[i].account.id, h[i].amount, h[i].kind));
  }

  /** 2000 out of a balance of 1000 is refused for the balance, and the
      balance stays at 1000. */
  method LeakOfBalanceScenario() returns (r: Outcome, balance: int)
    ensures r == Fail(LeakOfBalance) && balance == 1000
  {
    var from := new Account(1, 1000, 10000, 1000);
    var to := new Account(2, 1000, 10000, 1000);
    var service := new TransferService(map[1 := from, 2 := to]);
    assert service.accounts[1] == from;
    r := service.Transfer(1, 2, 2000, 0);
    balance := from.balance;
  }

  /** 6000 out of a balance of 10000 against a per-transaction ceiling of 500
      is refused for that ceiling, and the balance stays at 10000. */
  method ExceedAtATimeScenario() returns (r: Outcome, balance: int)
    ensures r == Fail(ExceedAtATime) && balance == 10000
  {
    var from := new Account(1, 10000, 10000, 500);
    var to := new Account(2, 1000, 10000, 500);
    var service := new TransferService(map[1 := from, 2 := to]);
    assert service.accounts[1] == from;
    r := service.Transfer(1, 2, 6000, 0);
    balance := from.balance;
  }

  /** Both ids resolve to the same account whose day total already equals its
      daily ceiling: 1000 more is refused for the daily ceiling. */
  method ExceedPerDayScenario() returns (r: Outcome, balance: int)
    ensures r == Fail(ExceedPerDay) && balance == 1000
  {
    var account := new Account(1, 1000, 10000, 1000);
    var service := new TransferService(map[1 := account]);
    assert service.accounts[1] == account;
    r := service.Transfer(1, 1, 1000, 10000);
    balance := account.balance;
  }

  /** An id the store does not know is refused, as source or as destination,
      and nothing is saved. */
  method AccountNotFoundScenario() returns (noSource: Outcome, noDestination: Outcome, saved: nat)
    ensures noSource == Fail(AccountNotFound) && noDestination == Fail(AccountNotFound) && saved == 0
  {
    var account := new Account(1, 0, 10000, 1000);
    var service := new TransferService(map[1 := account]);
    noSource := service.Transfer(0, 1, 10000, 0);
    noDestination := service.Transfer(1, 0, 10000, 0);
    saved := |service.history|;
  }
}
