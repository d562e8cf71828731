/** The work left in a sequence of tasks. */
module Measures {
  function Total<T>(work: T -> nat, s: seq<T>): nat {
    if s == [] then 0 else work(s[0]) + Total(work, s[1..])
  }

  lemma {:induction false} TotalUpdate<T>(work: T -> nat, s: seq<T>, i: nat, x: T)
    requires i < |s|
    ensures Total(work, s[i := x]) == Total(work, s) - work(s[i]) + work(x)
    decreases i
  {
    if i > 0 {
      TotalUpdate(work, s[1..], i - 1, x);
      assert s[i := x][1..] == s[1..][i - 1 := x];
    }
  }
}
