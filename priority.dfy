/** "First matching rule wins": the reference reading of an `if … else if …` chain. */
module Priority {

  datatype Rule<!T, R> = Rule(matches: T -> bool, outcome: R)

  /** The outcome of the first rule that matches `x`, or `fallback` when none does. */
  function FirstMatch<T, R>(rules: seq<Rule<T, R>>, x: T, fallback: R): R
    decreases |rules|
  {
    if rules == [] then fallback
    else if rules[0].matches(x) then rules[0].outcome
    else FirstMatch(rules[1..], x, fallback)
  }

  /** A matching rule decides exactly when no earlier rule matches. */
  lemma {:induction false} FirstMatchPicksEarliest<T, R>(rules: seq<Rule<T, R>>, x: T, fallback: R, i: nat)
    requires i < |rules| && rules[i].matches(x)
    requires forall j :: 0 <= j < i ==> !rules[j].matches(x)
    ensures FirstMatch(rules, x, fallback) == rules[i].outcome
    decreases i
  {
    if i > 0 {
      assert !rules[0].matches(x);
      assert forall j :: 0 <= j < i - 1 ==> rules[1..][j] == rules[j + 1];
      FirstMatchPicksEarliest(rules[1..], x, fallback, i - 1);
    }
  }

  /** When no rule matches, the fallback is the outcome. */
  lemma {:induction false} FirstMatchFallsThrough<T, R>(rules: seq<Rule<T, R>>, x: T, fallback: R)
    requires forall j :: 0 <= j < |rules| ==> !rules[j].matches(x)
    ensures FirstMatch(rules, x, fallback) == fallback
    decreases |rules|
  {
    if rules != [] {
      assert !rules[0].matches(x);
      assert forall j :: 0 <= j < |rules| - 1 ==> rules[1..][j] == rules[j + 1];
      FirstMatchFallsThrough(rules[1..], x, fallback);
    }
  }
}
