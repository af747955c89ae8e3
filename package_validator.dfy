/** The validator of the service package (service.TransferValidator):
    balance first, then the per-day ceiling, then the per-transaction ceiling,
    where reaching the per-day ceiling exactly is still allowed. */
module PackageValidator {
  import opened Domain
  import Rules

  /** The order in which the package validator checks its rules. */
  const Order: seq<TransferError> := [LeakOfBalance, ExceedPerDay, ExceedAtATime]

  /** Whether `rule` refuses moving `amount` out of an account with the given
      balance and limits, `today` having left it already today. */
  predicate Broken(rule: TransferError, balance: int, atATime: int, perDay: int, today: int, amount: int)
  {
    match rule
    case LeakOfBalance => balance < amount
    case ExceedAtATime => atATime < amount
    case ExceedPerDay => today + amount > perDay
    case AccountNotFound => false
  }

  /** The guard checks, as the source writes them. `today` is the amount the
      transfer store reports as withdrawn from the source account on the
      current date; the source asks for it once the balance check has passed. */
  function ValidateTransfer(balance: int, atATime: int, perDay: int, today: int, amount: int): (r: Outcome)
    ensures r == Rules.FirstBroken(Order, rule => Broken(rule, balance, atATime, perDay, today, amount))
    ensures r.Pass? <==> amount <= balance && today + amount <= perDay && amount <= atATime
    ensures r != Fail(AccountNotFound)
  {
    var broken := rule => Broken(rule, balance, atATime, perDay, today, amount);
    if balance < amount then
      Rules.FirstBrokenAt(Order, broken, 0);
      Fail(LeakOfBalance)
    else if today + amount > perDay then
      Rules.FirstBrokenAt(Order, broken, 1);
      Fail(ExceedPerDay)
    else if atATime < amount then
      Rules.FirstBrokenAt(Order, broken, 2);
      Fail(ExceedAtATime)
    else
      assert forall i :: 0 <= i < |Order| ==> !broken(Order[i]);
      Pass
  }

  /** The day total only matters once the balance check passes: when the
      balance refuses, any reported day total gives the same outcome. */
  lemma DayTotalConsultedAfterBalance(balance: int, atATime: int, perDay: int, today1: int, today2: int, amount: int)
    requires balance < amount
    ensures ValidateTransfer(balance, atATime, perDay, today1, amount)
         == ValidateTransfer(balance, atATime, perDay, today2, amount)
         == Fail(LeakOfBalance)
  {
    var b1 := rule => Broken(rule, balance, atATime, perDay, today1, amount);
    var b2 := rule => Broken(rule, balance, atATime, perDay, today2, amount);
    assert b1(Order[0]);
    Rules.DecidedByPrefix(Order, b1, b2, 1);
  }

  /** Balance and day total of one account after the requests `amounts` are
      validated one after another, each accepted request debiting the balance
      and adding to the day total (the limits stay as they are). */
  function DayRun(balance: int, atATime: int, perDay: int, today: int, amounts: seq<int>): (int, int)
    decreases |amounts|
  {
    if amounts == [] then (balance, today)
    else if ValidateTransfer(balance, atATime, perDay, today, amounts[0]).Pass? then
      DayRun(balance - amounts[0], atATime, perDay, today + amounts[0], amounts[1..])
    else
      DayRun(balance, atATime, perDay, today, amounts[1..])
  }

  /** Over any sequence of requests in one day, the day total never exceeds
      the daily ceiling, the balance never goes negative, and what left
      the balance is exactly what was added to the day total. */
  lemma {:induction false} DailyCeilingHolds(balance: int, atATime: int, perDay: int, today: int, amounts: seq<int>)
    requires 0 <= balance && today <= perDay
    ensures var (b, t) := DayRun(balance, atATime, perDay, today, amounts);
      0 <= b && t <= perDay && b + t == balance + today
    decreases |amounts|
  {
    if amounts != [] {
      var a := amounts[0];
      if ValidateTransfer(balance, atATime, perDay, today, a).Pass? {
        DailyCeilingHolds(balance - a, atATime, perDay, today + a, amounts[1..]);
      } else {
        DailyCeilingHolds(balance, atATime, perDay, today, amounts[1..]);
      }
    }
  }
}
