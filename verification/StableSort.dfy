/** Python's `list.sort(key=...)`: ascending by key, stable. */
module StableSort {
  import opened Sequences

  /** A total order on keys, as `<` is on integers and on strings. */
  ghost predicate TotalOrder<K(!new)>(less: (K, K) -> bool)
  {
    && (forall a, b :: less(a, b) ==> !less(b, a))
    && (forall a, b :: a == b || less(a, b) || less(b, a))
    && (forall a, b, c :: less(a, b) && less(b, c) ==> less(a, c))
  }

  predicate IntLess(a: int, b: int) { a < b }

  /** Put `x` in front of the first element whose key is not smaller. */
  function Insert<T, K>(x: T, s: seq<T>, key: T -> K, less: (K, K) -> bool): seq<T>
  {
    if s == [] || !less(key(s[0]), key(x)) then [x] + s
    else [s[0]] + Insert(x, s[1..], key, less)
  }

  function Sort<T, K>(s: seq<T>, key: T -> K, less: (K, K) -> bool): seq<T>
  {
    if s == [] then [] else Insert(s[0], Sort(s[1..], key, less), key, less)
  }

  ghost predicate Ascending<T, K>(s: seq<T>, key: T -> K, less: (K, K) -> bool)
  {
    forall i, j :: 0 <= i < j < |s| ==> !less(key(s[j]), key(s[i]))
  }

  /** The elements with key `k`, in order. */
  function WithKey<T, K(==)>(s: seq<T>, key: T -> K, k: K): seq<T>
  {
    if s == [] then []
    else if key(s[0]) == k then [s[0]] + WithKey(s[1..], key, k)
    else WithKey(s[1..], key, k)
  }

  lemma {:induction false} InsertElements<T, K>(x: T, s: seq<T>, key: T -> K, less: (K, K) -> bool)
    ensures multiset(Insert(x, s, key, less)) == multiset{x} + multiset(s)
  {
    if s == [] || !less(key(s[0]), key(x)) {
    } else {
      InsertElements(x, s[1..], key, less);
      assert s == [s[0]] + s[1..];
    }
  }

  lemma {:induction false} InsertAscending<T, K(!new)>(x: T, s: seq<T>, key: T -> K, less: (K, K) -> bool)
    requires TotalOrder(less) && Ascending(s, key, less)
    ensures Ascending(Insert(x, s, key, less), key, less)
  {
    if s == [] {
    } else if !less(key(s[0]), key(x)) {
      forall j | 0 <= j < |s| ensures !less(key(s[j]), key(x)) {
        if j > 0 && less(key(s[j]), key(x)) { NotAbove(less, key(s[0]), key(s[j]), key(x)); }
      }
    } else {
      var rest := Insert(x, s[1..], key, less);
      InsertAscending(x, s[1..], key, less);
      InsertElements(x, s[1..], key, less);
      forall i | 0 <= i < |rest| ensures !less(key(rest[i]), key(s[0])) {
        assert rest[i] in multiset(rest);
        assert rest[i] == x || rest[i] in s[1..];
      }
    }
  }

  lemma NotAbove<K(!new)>(less: (K, K) -> bool, a: K, b: K, c: K)
    requires TotalOrder(less) && !less(b, a) && less(b, c)
    ensures less(a, c)
  { }

  lemma {:induction false} InsertStable<T, K>(x: T, s: seq<T>, key: T -> K, less: (K, K) -> bool, k: K)
    requires forall e | e in s :: less(key(e), key(x)) ==> key(e) != key(x)
    ensures WithKey(Insert(x, s, key, less), key, k) == WithKey([x] + s, key, k)
  {
    if s == [] || !less(key(s[0]), key(x)) {
    } else {
      assert s[0] in s && forall e | e in s[1..] :: e in s;
      InsertStable(x, s[1..], key, less, k);
      assert ([s[0]] + Insert(x, s[1..], key, less))[1..] == Insert(x, s[1..], key, less);
      assert ([x] + s)[1..] == s;
      assert ([x] + s[1..])[1..] == s[1..];
    }
  }

  /** Sorting is ascending, loses and invents nothing, and keeps the order of
      elements that compare equal. */
  lemma {:induction false} SortIsStable<T, K(!new)>(s: seq<T>, key: T -> K, less: (K, K) -> bool)
    requires TotalOrder(less)
    ensures Ascending(Sort(s, key, less), key, less)
    ensures multiset(Sort(s, key, less)) == multiset(s)
    ensures forall k :: WithKey(Sort(s, key, less), key, k) == WithKey(s, key, k)
  {
    if s != [] {
      var t := Sort(s[1..], key, less);
      SortIsStable(s[1..], key, less);
      InsertAscending(s[0], t, key, less);
      InsertElements(s[0], t, key, less);
      assert s == [s[0]] + s[1..];
      forall k ensures WithKey(Sort(s, key, less), key, k) == WithKey(s, key, k) {
        InsertStable(s[0], t, key, less, k);
        assert ([s[0]] + t)[1..] == t;
      }
    }
  }

  /** Where two elements of one group are among the elements of that group. */
  lemma {:induction false} InGroup<T, K>(s: seq<T>, key: T -> K, k: K, i: nat, j: nat) returns (a: nat, b: nat)
    requires i < j < |s| && key(s[i]) == k && key(s[j]) == k
    ensures a < b < |WithKey(s, key, k)| && WithKey(s, key, k)[a] == s[i] && WithKey(s, key, k)[b] == s[j]
  {
    if i == 0 {
      a := 0;
      b := AtInGroup(s[1..], key, k, j - 1);
      b := b + 1;
    } else {
      a, b := InGroup(s[1..], key, k, i - 1, j - 1);
      if key(s[0]) == k { a, b := a + 1, b + 1; }
    }
  }

  lemma {:induction false} AtInGroup<T, K>(s: seq<T>, key: T -> K, k: K, i: nat) returns (a: nat)
    requires i < |s| && key(s[i]) == k
    ensures a < |WithKey(s, key, k)| && WithKey(s, key, k)[a] == s[i]
  {
    if i == 0 {
      a := 0;
    } else {
      a := AtInGroup(s[1..], key, k, i - 1);
      if key(s[0]) == k { a := a + 1; }
    }
  }

  lemma {:induction false} GroupMembers<T, K>(s: seq<T>, key: T -> K, k: K)
    ensures forall x | x in WithKey(s, key, k) :: x in s
  {
    if s != [] { GroupMembers(s[1..], key, k); }
  }

  /** A group of an ascending list is ascending. */
  lemma {:induction false} GroupOfAscending<T, K, R>(s: seq<T>, key: T -> K, k: K, rank: T -> R, less: (R, R) -> bool)
    requires Ascending(s, rank, less)
    ensures Ascending(WithKey(s, key, k), rank, less)
  {
    if s != [] {
      GroupOfAscending(s[1..], key, k, rank, less);
      GroupMembers(s[1..], key, k);
      var rest := WithKey(s[1..], key, k);
      forall j | 0 <= j < |rest| ensures !less(rank(rest[j]), rank(s[0])) {
        assert rest[j] in s[1..];
        var m :| 0 <= m < |s[1..]| && s[1..][m] == rest[j];
        assert s[m + 1] == rest[j];
      }
    }
  }

  /** An ascending list is already sorted. */
  lemma {:induction false} SortOfAscending<T, K(!new)>(s: seq<T>, key: T -> K, less: (K, K) -> bool)
    requires Ascending(s, key, less)
    ensures Sort(s, key, less) == s
  {
    if s != [] {
      SortOfAscending(s[1..], key, less);
      if |s| > 1 { assert !less(key(s[1]), key(s[0])) && s[1..][0] == s[1]; }
    }
  }

  lemma {:induction false} InsertMapped<T, K>(x: T, s: seq<T>, f: T -> T, key: T -> K, less: (K, K) -> bool)
    requires key(f(x)) == key(x) && forall y | y in s :: key(f(y)) == key(y)
    ensures Insert(f(x), Map(f, s), key, less) == Map(f, Insert(x, s, key, less))
  {
    if s == [] || !less(key(s[0]), key(x)) {
      assert Map(f, [x] + s) == [f(x)] + Map(f, s);
    } else {
      assert s[0] in s && forall y | y in s[1..] :: y in s;
      InsertMapped(x, s[1..], f, key, less);
      assert Map(f, s)[1..] == Map(f, s[1..]);
      var rest := Insert(x, s[1..], key, less);
      assert Map(f, [s[0]] + rest) == [f(s[0])] + Map(f, rest);
    }
  }

  /** Changing elements without changing their keys commutes with sorting. */
  lemma {:induction false} SortMapped<T, K>(s: seq<T>, f: T -> T, key: T -> K, less: (K, K) -> bool)
    requires forall y | y in s :: key(f(y)) == key(y)
    ensures Sort(Map(f, s), key, less) == Map(f, Sort(s, key, less))
    ensures forall y | y in Sort(s, key, less) :: y in s
  {
    if s == [] {
      assert Map(f, s) == [];
    } else {
      assert s[0] in s && forall y | y in s[1..] :: y in s;
      SortMapped(s[1..], f, key, less);
      assert Map(f, s)[1..] == Map(f, s[1..]);
      InsertMapped(s[0], Sort(s[1..], key, less), f, key, less);
      InsertElements(s[0], Sort(s[1..], key, less), key, less);
      forall y | y in Sort(s, key, less) ensures y in s {
        assert y in multiset(Insert(s[0], Sort(s[1..], key, less), key, less));
      }
    }
  }

  // -- a finer key only decides ties ---------------------------------------------------------

  lemma {:induction false} InsertsAlike<T, J, K>(x: T, s: seq<T>, coarse: T -> J, below: (J, J) -> bool, fine: T -> K, less: (K, K) -> bool)
    requires forall e | e in s :: less(fine(e), fine(x)) <==> below(coarse(e), coarse(x))
    ensures Insert(x, s, fine, less) == Insert(x, s, coarse, below)
  {
    if s != [] {
      assert s[0] in s && forall e | e in s[1..] :: e in s;
      InsertsAlike(x, s[1..], coarse, below, fine, less);
    }
  }

  /** Of two elements that tie on the coarse key, the later has the smaller fine key. */
  ghost predicate TieTurned<T, J, K>(a: T, b: T, coarse: T -> J, fine: T -> K, less: (K, K) -> bool)
  {
    coarse(a) == coarse(b) && less(fine(b), fine(a))
  }

  ghost predicate Refines<T(!new), J, K>(coarse: T -> J, below: (J, J) -> bool, fine: T -> K, less: (K, K) -> bool)
  {
    forall a, b :: below(coarse(a), coarse(b)) ==> less(fine(a), fine(b))
  }

  /** Sorting by a key that refines another gives what the other gives exactly for the lists
      in which no tie of the coarser key stands the wrong way round. */
  lemma FinerSortsAlike<T(!new), J(!new), K(!new)>(
      s: seq<T>, coarse: T -> J, below: (J, J) -> bool, fine: T -> K, less: (K, K) -> bool)
    requires TotalOrder(below) && TotalOrder(less) && Refines(coarse, below, fine, less)
    ensures Sort(s, fine, less) == Sort(s, coarse, below)
            <==> forall i, j | 0 <= i < j < |s| :: !TieTurned(s[i], s[j], coarse, fine, less)
  {
    if forall i, j | 0 <= i < j < |s| :: !TieTurned(s[i], s[j], coarse, fine, less) {
      NoTieTurned(s, coarse, below, fine, less);
    } else {
      var i, j :| 0 <= i < j < |s| && TieTurned(s[i], s[j], coarse, fine, less);
      var k := coarse(s[i]);
      SortIsStable(s, fine, less);
      SortIsStable(s, coarse, below);
      var a, b := InGroup(s, coarse, k, i, j);
      var tied := WithKey(s, coarse, k);
      assert !Ascending(tied, fine, less) by { assert less(fine(tied[b]), fine(tied[a])); }
      hide Sort, WithKey, TotalOrder, Ascending;
      if Sort(s, fine, less) == Sort(s, coarse, below) {
        GroupOfAscending(Sort(s, fine, less), coarse, k, fine, less);
        assert false;
      }
    }
  }

  lemma {:induction false} NoTieTurned<T(!new), J(!new), K(!new)>(
      s: seq<T>, coarse: T -> J, below: (J, J) -> bool, fine: T -> K, less: (K, K) -> bool)
    requires TotalOrder(below) && TotalOrder(less) && Refines(coarse, below, fine, less)
    requires forall i, j | 0 <= i < j < |s| :: !TieTurned(s[i], s[j], coarse, fine, less)
    ensures Sort(s, fine, less) == Sort(s, coarse, below)
  {
    if s != [] {
      var t := Sort(s[1..], coarse, below);
      forall i, j | 0 <= i < j < |s[1..]| ensures !TieTurned(s[1..][i], s[1..][j], coarse, fine, less) {
        assert s[1..][i] == s[i + 1] && s[1..][j] == s[j + 1];
      }
      NoTieTurned(s[1..], coarse, below, fine, less);
      SortIsStable(s[1..], coarse, below);
      forall e | e in t ensures less(fine(e), fine(s[0])) <==> below(coarse(e), coarse(s[0])) {
        assert e in multiset(s[1..]);
        var j :| 0 <= j < |s[1..]| && s[1..][j] == e;
        assert !TieTurned(s[0], s[j + 1], coarse, fine, less);
      }
      InsertsAlike(s[0], t, coarse, below, fine, less);
    }
  }

  // -- when no two elements share a key, order is all there is to it ------------------------

  ghost predicate DistinctKeys<T, K>(s: seq<T>, key: T -> K)
  {
    forall i, j :: 0 <= i < j < |s| ==> key(s[i]) != key(s[j])
  }

  lemma SameHead<T, K(!new)>(s: seq<T>, t: seq<T>, key: T -> K, less: (K, K) -> bool)
    requires TotalOrder(less) && Ascending(s, key, less) && Ascending(t, key, less)
    requires DistinctKeys(s, key) && multiset(s) == multiset(t) && s != [] && t != []
    ensures s[0] == t[0]
  {
    assert s[0] in multiset(t) && t[0] in multiset(s);
    var i :| 0 <= i < |t| && t[i] == s[0];
    var j :| 0 <= j < |s| && s[j] == t[0];
    HeadIsLeast(s, key, less, j);
    HeadIsLeast(t, key, less, i);
    assert key(s[0]) == key(s[j]);
  }

  lemma HeadIsLeast<T, K(!new)>(s: seq<T>, key: T -> K, less: (K, K) -> bool, j: nat)
    requires TotalOrder(less) && Ascending(s, key, less) && j < |s|
    ensures !less(key(s[j]), key(s[0]))
  { }

  /** Two ascending lists of the same elements, with distinct keys, are the same list. */
  lemma {:induction false} AscendingUnique<T, K(!new)>(s: seq<T>, t: seq<T>, key: T -> K, less: (K, K) -> bool)
    requires TotalOrder(less) && Ascending(s, key, less) && Ascending(t, key, less)
    requires DistinctKeys(s, key) && multiset(s) == multiset(t)
    ensures s == t
  {
    assert |s| == |multiset(s)| == |multiset(t)| == |t|;
    if s != [] {
      SameHead(s, t, key, less);
      hide TotalOrder;
      SameTail(s, t);
      AscendingUnique(s[1..], t[1..], key, less);
      assert s == [s[0]] + s[1..] && t == [t[0]] + t[1..];
    }
  }

  lemma SameTail<T>(s: seq<T>, t: seq<T>)
    requires s != [] && t != [] && s[0] == t[0] && multiset(s) == multiset(t)
    ensures multiset(s[1..]) == multiset(t[1..])
  {
    assert s == [s[0]] + s[1..] && t == [t[0]] + t[1..];
    assert multiset(s[1..]) == multiset(s) - multiset{s[0]};
    assert multiset(t[1..]) == multiset(t) - multiset{t[0]};
  }

  lemma KeysStayDistinct<T(!new), K(!new)>(s: seq<T>, t: seq<T>, key: T -> K)
    requires DistinctKeys(s, key) && multiset(s) == multiset(t)
    ensures DistinctKeys(t, key)
  {
    forall i, j | 0 <= i < j < |t| ensures key(t[i]) != key(t[j]) {
      assert t[i] in multiset(s) && t[j] in multiset(s);
      var a :| 0 <= a < |s| && s[a] == t[i];
      var b :| 0 <= b < |s| && s[b] == t[j];
      if a == b {
        Twice(t, i, j);
        Once(s, a, key);
      }
    }
  }

  lemma Once<T, K>(s: seq<T>, a: nat, key: T -> K)
    requires DistinctKeys(s, key) && a < |s|
    ensures multiset(s)[s[a]] == 1
  {
    Multiplicity(s, s[a]);
  }

  lemma SameMembers<T(!new), K>(s: seq<T>, t: seq<T>, key: T -> K)
    requires DistinctKeys(s, key) && DistinctKeys(t, key) && forall x :: x in s <==> x in t
    ensures multiset(s) == multiset(t)
  {
    forall x ensures multiset(s)[x] == multiset(t)[x] {
      if x in s {
        var a :| 0 <= a < |s| && s[a] == x;
        var b :| 0 <= b < |t| && t[b] == x;
        Once(s, a, key);
        Once(t, b, key);
      }
    }
  }

  /** Sorting lists with distinct keys gives the same result exactly for the same elements. */
  lemma SortForgetsOrder<T(!new), K(!new)>(s: seq<T>, t: seq<T>, key: T -> K, less: (K, K) -> bool)
    requires TotalOrder(less) && DistinctKeys(s, key)
    ensures Sort(s, key, less) == Sort(t, key, less) <==> multiset(s) == multiset(t)
  {
    SortIsStable(s, key, less);
    SortIsStable(t, key, less);
    hide Sort, Ascending, TotalOrder;
    if multiset(s) == multiset(t) {
      KeysStayDistinct(s, Sort(s, key, less), key);
      AscendingUnique(Sort(s, key, less), Sort(t, key, less), key, less);
    }
  }
}
