/** The transfer service of the service package (service.TransferService): it
    looks both accounts up, delegates the checks to the package validator,
    moves the money with Account.Withdraw and records a WITHDRAW entry for
    the source followed by a DEPOSIT entry for the destination. */
module PackageService {
  import opened Domain
  import PackageValidator

  class TransferService {
    /** The user repository: what `findById` resolves each id to. */
    const accounts: map<int, Account>
    /** Every entry the history repository has saved, oldest first. */
    var history: seq<HistoryEntry>

    constructor (accounts: map<int, Account>)
      ensures this.accounts == accounts && history == []
    {
      this.accounts := accounts;
      history := [];
    }

    /** Transfers `amount` from the account `fromUserId` to the account
        `toUserId`. `todayWithdrawalAmount` is what the transfer repository
        reports as withdrawn from the source account today. A refusal of the
        validator is passed on unchanged and nothing changes; on success
        exactly the two balances move and two entries are saved, in order. */
    method Transfer(fromUserId: int, toUserId: int, amount: int, todayWithdrawalAmount: int) returns (r: Outcome)
      modifies this`history, accounts.Values`balance
      ensures fromUserId !in accounts || toUserId !in accounts ==> r == Fail(AccountNotFound)
      ensures fromUserId in accounts && toUserId in accounts ==>
        var from := accounts[fromUserId];
        r == PackageValidator.ValidateTransfer(old(from.balance), from.withdrawAvailableAmountAtATime,
                                               from.transferAvailableAmountPerDay, todayWithdrawalAmount, amount)
      ensures r.Fail? ==> history == old(history)
      ensures r.Fail? ==> forall a :: a in accounts.Values ==> a.balance == old(a.balance)
      ensures r.Pass? ==> fromUserId in accounts && toUserId in accounts
      ensures r.Pass? ==>
        var from, to := accounts[fromUserId], accounts[toUserId];
        && history == old(history) + [HistoryEntry(from, amount, Withdraw), HistoryEntry(to, amount, Deposit)]
        && (forall a :: a in accounts.Values ==> a.balance == old(a.balance) + Delta(a, from, to, amount))
        && (from != to ==> from.balance + to.balance == old(from.balance) + old(to.balance))
    {
      if fromUserId !in accounts {
        return Fail(AccountNotFound);
      }
      var fromAccount := accounts[fromUserId];
      if toUserId !in accounts {
        return Fail(AccountNotFound);
      }
      var toAccount := accounts[toUserId];

      r := PackageValidator.ValidateTransfer(fromAccount.balance, fromAccount.withdrawAvailableAmountAtATime,
                                             fromAccount.transferAvailableAmountPerDay, todayWithdrawalAmount, amount);
      if r.Fail? {
        return;
      }
      fromAccount.Withdraw(amount, toAccount);
      history := history + [HistoryEntry(fromAccount, amount, Withdraw)];
      history := history + [HistoryEntry(toAccount, amount, Deposit)];
    }
  }

  /** A successful transfer of 500 between two accounts holding 1000 each:
      the source ends with 500, the destination with 1500, and the entries
      saved are the source's WITHDRAW and then the destination's DEPOSIT. */
  method TransferCompletedScenario() returns (r: Outcome, fromBalance: int, toBalance: int, saved: seq<(int, int, HistoryType)>)
    ensures r == Pass && fromBalance == 500 && toBalance == 1500
    ensures saved == [(1, 500, Withdraw), (2, 500, Deposit)]
  {
    var from := new Account(1, 1000, 10000, 1000);
    var to := new Account(2, 1000, 10000, 1000);
    var service := new TransferService(map[1 := from, 2 := to]);
    assert service.accounts[1] == from && service.accounts[2] == to;
    r := service.Transfer(1, 2, 500, 0);
    fromBalance, toBalance := from.balance, to.balance;
    var h := service.history;
    saved := [(h[0].account.id, h[0].amount, h[0].kind), (h[1].account.id, h[1].amount, h[1].kind)];
  }

  /** 2000 out of a balance of 1000 is refused for the balance, and nothing
      is saved. */
  method LeakOfBalanceScenario() returns (r: Outcome, balance: int, saved: nat)
    ensures r == Fail(LeakOfBalance) && balance == 1000 && saved == 0
  {
    var from := new Account(1, 1000, 10000, 1000);
    var to := new Account(2, 1000, 10000, 1000);
    var service := new TransferService(map[1 := from, 2 := to]);
    assert service.accounts[1] == from;
    r := service.Transfer(1, 2, 2000, 0);
    balance, saved := from.balance, |service.history|;
  }

  /** Both ids resolve to the same account whose day total already equals its
      daily ceiling: 1000 more is refused for the daily ceiling. */
  method ExceedPerDayScenario() returns (r: Outcome, saved: nat)
    ensures r == Fail(ExceedPerDay) && saved == 0
  {
    var account := new Account(1, 1000, 10000, 1000);
    var service := new TransferService(map[1 := account]);
    assert service.accounts[1] == account;
    r := service.Transfer(1, 1, 1000, 10000);
    saved := |service.history|;
  }

  /** A day total of 9000 with 1000 more reaches the daily ceiling of 10000
      exactly, which this lineage allows. */
  method ReachCeilingScenario() returns (r: Outcome, fromBalance: int)
    ensures r == Pass && fromBalance == 0
  {
    var from := new Account(1, 1000, 10000, 1000);
    var to := new Account(2, 1000, 10000, 1000);
    var service := new TransferService(map[1 := from, 2 := to]);
    assert service.accounts[1] == from && service.accounts[2] == to;
    r := service.Transfer(1, 2, 1000, 9000);
    fromBalance := from.balance;
  }

  /** An id the store does not know is refused, as source or as destination,
      and nothing is saved. */
  method AccountNotFoundScenario() returns (noSource: Outcome, noDestination: Outcome, saved: nat)
    ensures noSource == Fail(AccountNotFound) && noDestination == Fail(AccountNotFound) && saved == 0
  {
    var account := new Account(1, 0, 10000, 1000);
    var service := new TransferService(map[1 := account]);
    noSource := service.Transfer(0, 1, 10000, 0);
    noDestination := service.Transfer(1, 0, 10000, 0);
    saved := |service.history|;
  }
}
