/** Small facts about sequences that several modules need. */
module Sequences {

  predicate NoRepeats<T(==)>(s: seq<T>)
  {
    forall i, j :: 0 <= i < j < |s| ==> s[i] != s[j]
  }

  function Map<T, U>(f: T -> U, s: seq<T>): seq<U>
  {
    seq(|s|, i requires 0 <= i < |s| => f(s[i]))
  }

  lemma Associate<T>(a: seq<T>, b: seq<T>, c: seq<T>)
    ensures a + (b + c) == (a + b) + c
  { }

  lemma SplitLast<T>(a: seq<T>, b: seq<T>)
    requires b != []
    ensures b == b[..|b| - 1] + [b[|b| - 1]] && a + b == (a + b[..|b| - 1]) + [b[|b| - 1]]
  { }

  lemma Remainder<T>(a: seq<T>, b: seq<T>, i: nat)
    requires a <= b && i <= |a|
    ensures b[i..] == a[i..] + b[|a|..]
  { }

  lemma {:induction false} Multiplicity<T>(s: seq<T>, x: T)
    requires NoRepeats(s)
    ensures multiset(s)[x] == if x in s then 1 else 0
  {
    if s != [] {
      assert s == s[..|s| - 1] + [s[|s| - 1]];
      Multiplicity(s[..|s| - 1], x);
    }
  }

  lemma Twice<T>(s: seq<T>, i: nat, j: nat)
    requires i < j < |s| && s[i] == s[j]
    ensures multiset(s)[s[i]] >= 2
  {
    assert s == s[..j] + s[j..];
    assert s[..j][i] == s[i] && s[j..][0] == s[j];
    assert s[i] in multiset(s[..j]) && s[i] in multiset(s[j..]);
  }

  /** A sequence without repeats whose elements are all in another without repeats is no
      longer than that, and as long exactly when it holds the same elements. */
  lemma ContainedIn<T>(s: seq<T>, t: seq<T>)
    requires NoRepeats(s) && NoRepeats(t) && forall x | x in s :: x in t
    ensures |s| <= |t|
    ensures |s| == |t| <==> multiset(s) == multiset(t)
    ensures multiset(s) == multiset(t) <==> forall x | x in t :: x in s
  {
    forall x ensures multiset(s)[x] <= multiset(t)[x] && (x in t && x !in s ==> multiset(s)[x] < multiset(t)[x]) {
      Multiplicity(s, x);
      Multiplicity(t, x);
    }
    var missing := multiset(t) - multiset(s);
    assert multiset(t) == missing + multiset(s);
    assert |multiset(t)| == |missing| + |multiset(s)|;
    if forall x | x in t :: x in s {
      forall x ensures missing[x] == 0 {
        Multiplicity(s, x);
        Multiplicity(t, x);
      }
      assert missing == multiset{};
    }
    if |s| == |t| { assert |missing| == 0; }
  }

  /** `t` without its element at `j`. */
  function Except<T>(t: seq<T>, j: nat): seq<T>
    requires j < |t|
  {
    t[..j] + t[j + 1..]
  }

  lemma ExceptElements<T>(t: seq<T>, j: nat)
    requires j < |t|
    ensures multiset(t) == multiset(Except(t, j)) + multiset{t[j]}
  {
    assert t == t[..j] + ([t[j]] + t[j + 1..]);
  }

  lemma MapExcept<T, U>(f: T -> U, t: seq<T>, j: nat)
    requires j < |t|
    ensures Map(f, Except(t, j)) == Except(Map(f, t), j)
  { }

  lemma Cancelled<T>(s: multiset<T>, t: multiset<T>, x: T)
    requires s + multiset{x} == t + multiset{x}
    ensures s == t
  {
    assert s == (s + multiset{x}) - multiset{x} && t == (t + multiset{x}) - multiset{x};
  }

  lemma {:induction false} MapPermuted<T, U>(f: T -> U, s: seq<T>, t: seq<T>)
    requires multiset(s) == multiset(t)
    ensures multiset(Map(f, s)) == multiset(Map(f, t))
  {
    if s == [] {
      assert |multiset(t)| == 0;
      assert t == [];
    } else {
      hide Except;
      assert s[0] in multiset(t);
      var j :| 0 <= j < |t| && t[j] == s[0];
      ExceptElements(s, 0);
      ExceptElements(t, j);
      Cancelled(multiset(Except(s, 0)), multiset(Except(t, j)), s[0]);
      ExceptShorter(s, 0);
      MapPermuted(f, Except(s, 0), Except(t, j));
      MapExcept(f, s, 0);
      MapExcept(f, t, j);
      ExceptElements(Map(f, s), 0);
      ExceptElements(Map(f, t), j);
    }
  }

  lemma ExceptShorter<T>(t: seq<T>, j: nat)
    requires j < |t|
    ensures |Except(t, j)| < |t|
  { }
}
