/** The de-duplication key of a silent token request: the account and its scopes in sorted order.
    Two requests get the same key exactly when they name the same account and one list of scopes
    is a permutation of the other. */
module Scopes {

  datatype Key = Key(account: string, scopes: seq<string>)

  /** Code-point order on strings, as the program's built-in sort compares them. */
  predicate Leq(a: string, b: string)
    decreases |a|
  {
    a == [] || (b != [] && (a[0] < b[0] || (a[0] == b[0] && Leq(a[1..], b[1..]))))
  }

  predicate Ordered(s: seq<string>) {
    forall i, j :: 0 <= i < j < |s| ==> Leq(s[i], s[j])
  }

  function Insert(x: string, s: seq<string>): seq<string> {
    if s == [] || Leq(x, s[0]) then [x] + s else [s[0]] + Insert(x, s[1..])
  }

  function Sorted(s: seq<string>): seq<string> {
    if s == [] then [] else Insert(s[0], Sorted(s[1..]))
  }

  function KeyOf(account: string, scopes: seq<string>): Key {
    Key(account, Sorted(scopes))
  }

  lemma {:induction false} LeqTotal(a: string, b: string)
    ensures Leq(a, b) || Leq(b, a)
    ensures Leq(a, b) && Leq(b, a) ==> a == b
    decreases |a|
  {
    if a != [] && b != [] && a[0] == b[0] {
      LeqTotal(a[1..], b[1..]);
      assert a == [a[0]] + a[1..] && b == [b[0]] + b[1..];
    }
  }

  lemma {:induction false} LeqTransitive(a: string, b: string, c: string)
    requires Leq(a, b) && Leq(b, c)
    ensures Leq(a, c)
    decreases |a|
  {
    if a != [] && a[0] == b[0] == c[0] {
      LeqTransitive(a[1..], b[1..], c[1..]);
    }
  }

  lemma HeadIsBelow(s: seq<string>, x: string, rest: seq<string>, j: nat)
    requires Ordered(s) && s != [] && Leq(s[0], x) && multiset(rest) == multiset(s[1..]) + multiset{x} && j < |rest|
    ensures Leq(s[0], rest[j])
  {
    assert rest[j] in multiset(rest);
    if rest[j] != x {
      assert rest[j] in multiset(s[1..]);
      var k :| 0 <= k < |s[1..]| && s[1..][k] == rest[j];
      assert s[k + 1] == rest[j];
    }
  }

  lemma {:induction false} InsertKeepsOrder(x: string, s: seq<string>)
    requires Ordered(s)
    ensures Ordered(Insert(x, s))
    ensures multiset(Insert(x, s)) == multiset(s) + multiset{x}
    decreases |s|
  {
    if s == [] {
    } else if Leq(x, s[0]) {
      forall j | 0 < j < |s| + 1 ensures Leq(x, ([x] + s)[j]) {
        if j > 1 { LeqTransitive(x, s[0], s[j - 1]); }
      }
    } else {
      var rest := Insert(x, s[1..]);
      InsertKeepsOrder(x, s[1..]);
      assert s == [s[0]] + s[1..];
      LeqTotal(x, s[0]);
      forall j | 0 <= j < |rest| ensures Leq(s[0], rest[j]) { HeadIsBelow(s, x, rest, j); }
    }
  }

  lemma {:induction false} SortedIsOrdered(s: seq<string>)
    ensures Ordered(Sorted(s)) && multiset(Sorted(s)) == multiset(s)
    decreases |s|
  {
    if s != [] {
      SortedIsOrdered(s[1..]);
      InsertKeepsOrder(s[0], Sorted(s[1..]));
      assert s == [s[0]] + s[1..];
    }
  }

  lemma HeadIsLeast(s: seq<string>, x: string)
    requires Ordered(s) && x in multiset(s)
    ensures s != [] && Leq(s[0], x)
  {
    var i :| 0 <= i < |s| && s[i] == x;
    LeqTotal(x, x);
  }

  lemma TailMultiset(s: seq<string>)
    requires s != []
    ensures multiset(s[1..]) == multiset(s) - multiset{s[0]}
  {
    assert s == [s[0]] + s[1..];
  }

  /** An ordered list is determined by which strings it holds and how often. */
  lemma {:induction false} OrderedIsUnique(s: seq<string>, t: seq<string>)
    requires Ordered(s) && Ordered(t) && multiset(s) == multiset(t)
    ensures s == t
    decreases |s|
  {
    assert |multiset(s)| == |s| && |multiset(t)| == |t|;
    if s != [] {
      assert s[0] in multiset(s) && t[0] in multiset(t);
      HeadIsLeast(s, t[0]);
      HeadIsLeast(t, s[0]);
      LeqTotal(s[0], t[0]);
      TailMultiset(s);
      TailMultiset(t);
      OrderedIsUnique(s[1..], t[1..]);
      assert s == [s[0]] + s[1..] && t == [t[0]] + t[1..];
    }
  }

  /** Two requests share a key exactly when they are for one account and the same scopes in any
      order: `[A, B]` and `[B, A]` collapse, `[A]` and `[A, A]` or `[B]` never do. */
  lemma SameKeyIffPermutation(a: string, s: seq<string>, b: string, t: seq<string>)
    ensures KeyOf(a, s) == KeyOf(b, t) <==> a == b && multiset(s) == multiset(t)
  {
    SortedIsOrdered(s);
    SortedIsOrdered(t);
    if multiset(s) == multiset(t) {
      OrderedIsUnique(Sorted(s), Sorted(t));
    }
  }
}
