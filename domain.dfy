/** Entities shared by both lineages of the transfer rules: the account, the
    history record, the rejection reasons and the outcome of a transfer. */
module Domain {

  /** A bank account. Its id never changes; a successful transfer changes its
      balance in place. The two limits are fields of the account itself. */
  class Account {
    const id: int
    var balance: int
    var transferAvailableAmountPerDay: int
    var withdrawAvailableAmountAtATime: int

    constructor (id: int, balance: int, perDay: int, atATime: int)
      ensures this.id == id && this.balance == balance
      ensures transferAvailableAmountPerDay == perDay && withdrawAvailableAmountAtATime == atATime
    {
      this.id := id;
      this.balance := balance;
      transferAvailableAmountPerDay := perDay;
      withdrawAvailableAmountAtATime := atATime;
    }

    /** Moves `amount` from this account to `to`: debit first, then credit.
        When `to` is this very account the two steps cancel out. */
    method Withdraw(amount: int, to: Account)
      modifies this`balance, to`balance
      ensures to != this ==> balance == old(balance) - amount && to.balance == old(to.balance) + amount
      ensures to == this ==> balance == old(balance)
    {
      balance := balance - amount;
      to.balance := to.balance + amount;
    }
  }

  /** How much a balance moves for one transfer of `amount` from `from` to `to`:
      minus for the source, plus for the destination, both for an account that
      is both, nothing for any other account. */
  function Delta(a: Account, from: Account, to: Account, amount: int): int
  {
    (if a == to then amount else 0) - (if a == from then amount else 0)
  }

  datatype HistoryType = Withdraw | Deposit

  /** One record in the history store: the account it is about, the amount and the direction. */
  datatype HistoryEntry = HistoryEntry(account: Account, amount: int, kind: HistoryType)

  /** Why a transfer is refused. The two lineages name the two limit errors
      differently; both map to the same tag here. */
  datatype TransferError =
    | AccountNotFound
    | LeakOfBalance
    | ExceedAtATime
    | ExceedPerDay

  /** The outcome of a validation or a transfer: the source returns normally or throws. */
  datatype Outcome = Pass | Fail(error: TransferError)
}
