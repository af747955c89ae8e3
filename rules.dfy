/** Ordered guard checks: a request is checked against a list of rules in a
    fixed order, and the first rule it breaks is the error reported. Both
    lineages of the validator are instances of this with their own order. */
module Rules {
  import opened Domain

  /** The outcome of checking `rules` one after another, stopping at the first
      rule that `broken` reports. */
  function FirstBroken(rules: seq<TransferError>, broken: TransferError -> bool): (r: Outcome)
    ensures r.Pass? <==> forall i :: 0 <= i < |rules| ==> !broken(rules[i])
    ensures r.Fail? ==> r.error in rules && broken(r.error)
    decreases |rules|
  {
    if rules == [] then Pass
    else if broken(rules[0]) then Fail(rules[0])
    else
      var r := FirstBroken(rules[1..], broken);
      assert forall i :: 1 <= i < |rules| ==> rules[i] == rules[1..][i - 1];
      r
  }

  /** The error reported is the rule at position `k` exactly when that rule is
      broken and every rule checked before it holds: an earlier rule always
      wins, whatever the later ones say. */
  lemma {:induction false} FirstBrokenAt(rules: seq<TransferError>, broken: TransferError -> bool, k: nat)
    requires k < |rules|
    requires broken(rules[k])
    requires forall i :: 0 <= i < k ==> !broken(rules[i])
    ensures FirstBroken(rules, broken) == Fail(rules[k])
    decreases k
  {
    if k > 0 {
      assert !broken(rules[0]);
      FirstBrokenAt(rules[1..], broken, k - 1);
    }
  }

  /** Once one of the first `k` rules is broken, the rules after them are never
      consulted: two ways of judging the rules that agree on the first `k`
      give the same outcome. */
  lemma {:induction false} DecidedByPrefix(rules: seq<TransferError>, b1: TransferError -> bool, b2: TransferError -> bool, k: nat)
    requires k <= |rules|
    requires forall i :: 0 <= i < k ==> b1(rules[i]) == b2(rules[i])
    requires exists i :: 0 <= i < k && b1(rules[i])
    ensures FirstBroken(rules, b1) == FirstBroken(rules, b2)
    decreases k
  {
    if !b1(rules[0]) {
      var i :| 0 <= i < k && b1(rules[i]);
      assert i > 0;
      assert rules[1..][i - 1] == rules[i];
      assert forall j :: 0 <= j < k - 1 ==> rules[1..][j] == rules[j + 1];
      DecidedByPrefix(rules[1..], b1, b2, k - 1);
    }
  }
}
