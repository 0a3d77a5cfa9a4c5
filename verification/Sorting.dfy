/** slices.SortFunc, the byte order of strings, and counting. SortFunc is not
    stable, so nothing here depends on how ties are broken. */
module Sorting {

  // strings.Compare(a, b) < 0. UTF-8 keeps code-point order, so comparing
  // characters gives the order Go gets by comparing bytes.
  predicate StringLess(a: string, b: string) {
    if b == "" then false
    else if a == "" then true
    else a[0] < b[0] || (a[0] == b[0] && StringLess(a[1..], b[1..]))
  }

  // The strings agree before i; there a ends or has the smaller character.
  predicate DecidedAt(a: string, b: string, i: nat) {
    i <= |a| && i < |b| && (forall k :: 0 <= k < i ==> a[k] == b[k]) && (i < |a| ==> a[i] < b[i])
  }

  /** The order is decided at the first place where the strings differ. */
  lemma {:induction false} StringLessDecided(a: string, b: string)
    ensures StringLess(a, b) <==> exists i: nat :: DecidedAt(a, b, i)
  {
    if a == "" || b == "" {
      assert b != "" ==> DecidedAt(a, b, 0);
    } else if a[0] == b[0] {
      var a', b' := a[1..], b[1..];
      StringLessDecided(a', b');
      if i: nat :| DecidedAt(a', b', i) {
        assert forall k :: 0 < k <= i ==> a[k] == a'[k - 1] && b[k] == b'[k - 1];
        assert DecidedAt(a, b, i + 1);
      }
      if i: nat :| DecidedAt(a, b, i) {
        assert i > 0 && DecidedAt(a', b', i - 1);
      }
    } else {
      assert a[0] < b[0] ==> DecidedAt(a, b, 0);
    }
  }

  lemma StringLessConnected(a: string, b: string)
    requires a != b
    ensures StringLess(a, b) || StringLess(b, a)
  {
    if a != "" && b != "" && a[0] == b[0] {
      assert a == [a[0]] + a[1..] && b == [b[0]] + b[1..];
      StringLessConnected(a[1..], b[1..]);
    }
  }

  lemma StringLessAsymmetric(a: string, b: string)
    ensures !(StringLess(a, b) && StringLess(b, a))
  {
    if a != "" && b != "" {
      StringLessAsymmetric(a[1..], b[1..]);
    }
  }

  lemma StringLessTransitive(a: string, b: string, c: string)
    requires StringLess(a, b) && StringLess(b, c)
    ensures StringLess(a, c)
  {
    if a != "" && a[0] == b[0] == c[0] {
      StringLessTransitive(a[1..], b[1..], c[1..]);
    }
  }

  ghost predicate StrictOrder<T(!new)>(lt: (T, T) -> bool) {
    && (forall a, b :: !(lt(a, b) && lt(b, a)))
    && (forall a, b, c :: lt(a, b) && lt(b, c) ==> lt(a, c))
  }

  ghost predicate StrictlySorted<T>(s: seq<T>, lt: (T, T) -> bool) {
    forall i, j :: 0 <= i < j < |s| ==> lt(s[i], s[j])
  }

  // No two positions hold elements the order cannot tell apart.
  ghost predicate NoTies<T>(s: seq<T>, lt: (T, T) -> bool) {
    forall i, j :: 0 <= i < j < |s| ==> lt(s[i], s[j]) || lt(s[j], s[i])
  }

  function Insert<T>(x: T, s: seq<T>, lt: (T, T) -> bool): (r: seq<T>)
    ensures multiset(r) == multiset(s) + multiset{x}
  {
    if s == [] then [x]
    else
      assert s == [s[0]] + s[1..];
      if lt(s[0], x) then [s[0]] + Insert(x, s[1..], lt) else [x] + s
  }

  function Sort<T>(s: seq<T>, lt: (T, T) -> bool): (r: seq<T>)
    ensures multiset(r) == multiset(s)
    ensures |r| == |s|
  {
    if s == [] then []
    else
      assert s == [s[0]] + s[1..];
      var r := Insert(s[0], Sort(s[1..], lt), lt);
      assert |r| == |multiset(r)| == |multiset(s)| == |s|;
      r
  }

  lemma SameElements<T>(s: seq<T>, r: seq<T>)
    requires multiset(s) == multiset(r)
    ensures forall x :: x in s <==> x in r
  {
    forall x ensures x in s <==> x in r {
      assert x in s <==> x in multiset(s);
      assert x in r <==> x in multiset(r);
    }
  }

  lemma {:induction false} InsertStrict<T(!new)>(x: T, s: seq<T>, lt: (T, T) -> bool)
    requires StrictOrder(lt) && StrictlySorted(s, lt)
    requires forall y :: y in s ==> lt(x, y) || lt(y, x)
    ensures StrictlySorted(Insert(x, s, lt), lt)
  {
    if s != [] && lt(s[0], x) {
      var rest := Insert(x, s[1..], lt);
      InsertStrict(x, s[1..], lt);
      forall j | 0 <= j < |rest| ensures lt(s[0], rest[j]) {
        assert rest[j] in multiset(rest);
        assert rest[j] == x || rest[j] in s[1..];
      }
    } else if s != [] {
      assert lt(x, s[0]);
      forall j | 0 <= j < |s| ensures lt(x, s[j]) {
        if j > 0 { assert lt(s[0], s[j]); }
      }
    }
  }

  lemma {:induction false} SortStrict<T(!new)>(s: seq<T>, lt: (T, T) -> bool)
    requires StrictOrder(lt) && NoTies(s, lt)
    ensures StrictlySorted(Sort(s, lt), lt)
  {
    if s != [] {
      var rest := s[1..];
      SortStrict(rest, lt);
      SameElements(rest, Sort(rest, lt));
      forall y | y in Sort(rest, lt) ensures lt(s[0], y) || lt(y, s[0]) {
        assert y in rest;
      }
      InsertStrict(s[0], Sort(rest, lt), lt);
    }
  }

  /** Two strictly sorted sequences with the same elements are the same sequence. */
  lemma {:induction false} StrictlySortedUnique<T(!new)>(a: seq<T>, b: seq<T>, lt: (T, T) -> bool)
    requires StrictOrder(lt) && StrictlySorted(a, lt) && StrictlySorted(b, lt)
    requires forall x :: x in a <==> x in b
    ensures a == b
  {
    if a == [] {
      assert forall i :: 0 <= i < |b| ==> b[i] in b;
    } else {
      assert a[0] in b && b != [] && b[0] in a;
      assert a[0] == b[0];
      forall x ensures x in a[1..] <==> x in b[1..] {
        if x in a[1..] {
          assert x in b && lt(a[0], x);
        }
        if x in b[1..] {
          assert x in a && lt(b[0], x);
        }
      }
      StrictlySortedUnique(a[1..], b[1..], lt);
    }
  }

  function Count<T>(s: seq<T>, p: T -> bool): nat {
    if s == [] then 0 else Count(s[..|s| - 1], p) + (if p(s[|s| - 1]) then 1 else 0)
  }

  lemma {:induction false} CountAppend<T>(s: seq<T>, r: seq<T>, p: T -> bool)
    ensures Count(s + r, p) == Count(s, p) + Count(r, p)
  {
    if r == [] {
      assert s + r == s;
    } else {
      assert (s + r)[..|s + r| - 1] == s + r[..|r| - 1];
      CountAppend(s, r[..|r| - 1], p);
    }
  }

  lemma {:induction false} CountPermutation<T>(s: seq<T>, r: seq<T>, p: T -> bool)
    requires multiset(s) == multiset(r)
    ensures Count(s, p) == Count(r, p)
  {
    if s == [] {
      assert |multiset(r)| == |r|;
    } else {
      var x := s[0];
      assert x in multiset(s);
      assert x in r;
      var i :| 0 <= i < |r| && r[i] == x;
      assert s == [x] + s[1..];
      assert r == r[..i] + [x] + r[i + 1..];
      assert multiset(r[..i] + r[i + 1..]) == multiset(r) - multiset{x};
      assert multiset(s[1..]) == multiset(s) - multiset{x};
      CountPermutation(s[1..], r[..i] + r[i + 1..], p);
      CountAppend([x], s[1..], p);
      CountAppend(r[..i] + [x], r[i + 1..], p);
      CountAppend(r[..i], [x], p);
      CountAppend(r[..i], r[i + 1..], p);
    }
  }

  lemma {:induction false} CountCongruence<T>(s: seq<T>, p: T -> bool, q: T -> bool)
    requires forall x :: x in s ==> p(x) == q(x)
    ensures Count(s, p) == Count(s, q)
  {
    if s != [] {
      CountCongruence(s[..|s| - 1], p, q);
    }
  }

  lemma {:induction false} CountNone<T>(s: seq<T>, p: T -> bool)
    requires forall x :: x in s ==> !p(x)
    ensures Count(s, p) == 0
  {
    if s != [] { CountNone(s[..|s| - 1], p); }
  }

  lemma {:induction false} CountEvery<T>(s: seq<T>, p: T -> bool)
    requires forall x :: x in s ==> p(x)
    ensures Count(s, p) == |s|
  {
    if s != [] { CountEvery(s[..|s| - 1], p); }
  }

  // When p and q agree before position i and q holds nowhere from i on, counting
  // p before i counts q everywhere.
  lemma CountSplit<T>(s: seq<T>, i: nat, p: T -> bool, q: T -> bool)
    requires i <= |s|
    requires forall j :: 0 <= j < i ==> p(s[j]) == q(s[j])
    requires forall j :: i <= j < |s| ==> !q(s[j])
    ensures Count(s[..i], p) == Count(s, q)
  {
    assert s == s[..i] + s[i..];
    CountAppend(s[..i], s[i..], q);
    CountCongruence(s[..i], p, q);
    CountNone(s[i..], q);
  }

  ghost predicate Distinct<T>(s: seq<T>) {
    forall i, j :: 0 <= i < j < |s| ==> s[i] != s[j]
  }

  ghost function Chosen<T>(s: seq<T>, p: T -> bool): set<T> {
    set x | x in s && p(x)
  }

  // Without repetitions, counting is the size of a set.
  lemma {:induction false} CountElements<T>(s: seq<T>, p: T -> bool)
    requires Distinct(s)
    ensures Count(s, p) == |Chosen(s, p)|
  {
    if s != [] {
      var rest, last := s[..|s| - 1], s[|s| - 1];
      CountElements(rest, p);
      assert s == rest + [last];
      assert Chosen(s, p) == if p(last) then Chosen(rest, p) + {last} else Chosen(rest, p);
    }
  }

  lemma CountWithout<T>(s: seq<T>, rest: seq<T>, gone: T, p: T -> bool)
    requires Distinct(s) && Distinct(rest) && gone !in rest && forall x :: x in s <==> x in rest || x == gone
    ensures Count(s, p) == Count(rest, p) + if p(gone) then 1 else 0
  {
    CountElements(s, p);
    CountElements(rest, p);
    assert Chosen(s, p) == if p(gone) then Chosen(rest, p) + {gone} else Chosen(rest, p);
  }
}
