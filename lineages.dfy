/** How the two lineages of the validator differ: the per-day boundary and
    the order of the two ceilings. */
module Lineages {
  import opened Domain
  import RootValidator
  import PackageValidator

  /** Every request the root validator accepts, the package validator accepts
      too; so every request the package validator refuses, the root validator
      refuses too (not necessarily with the same error). */
  lemma RootStricterThanPackage(balance: int, atATime: int, perDay: int, today: int, amount: int)
    ensures RootValidator.ValidateTransfer(balance, atATime, perDay, today, amount).Pass?
        ==> PackageValidator.ValidateTransfer(balance, atATime, perDay, today, amount).Pass?
  {
  }

  /** The two lineages disagree on acceptance exactly when the other checks
      pass and the request brings the day total to the ceiling exactly: the
      root refuses it, the package allows it. */
  lemma AcceptanceDiffersOnlyAtCeiling(balance: int, atATime: int, perDay: int, today: int, amount: int)
    ensures RootValidator.ValidateTransfer(balance, atATime, perDay, today, amount).Pass?
         != PackageValidator.ValidateTransfer(balance, atATime, perDay, today, amount).Pass?
        <==> amount <= balance && amount <= atATime && today + amount == perDay
    ensures amount <= balance && amount <= atATime && today + amount == perDay
        ==> RootValidator.ValidateTransfer(balance, atATime, perDay, today, amount) == Fail(ExceedPerDay)
  {
  }

  /** When a request is within the balance but breaks both ceilings, the root
      reports the per-transaction ceiling and the package the per-day one. */
  lemma PrecedenceOfCeilings(balance: int, atATime: int, perDay: int, today: int, amount: int)
    requires amount <= balance && atATime < amount && perDay < today + amount
    ensures RootValidator.ValidateTransfer(balance, atATime, perDay, today, amount) == Fail(ExceedAtATime)
    ensures PackageValidator.ValidateTransfer(balance, atATime, perDay, today, amount) == Fail(ExceedPerDay)
  {
  }
}
