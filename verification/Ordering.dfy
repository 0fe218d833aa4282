/** Canonical row order: identifiers compare by code point, and rows with distinct identities sort in one way. */
module Ordering {
  import opened Basics

  predicate LexLess(a: string, b: string) {
    |b| > 0 && (|a| == 0 || a[0] < b[0] || (a[0] == b[0] && LexLess(a[1..], b[1..])))
  }

  lemma {:induction false} LexTrichotomy(a: string, b: string)
    ensures !(LexLess(a, b) && LexLess(b, a)) && !LexLess(a, a)
    ensures a != b ==> LexLess(a, b) || LexLess(b, a)
  {
    if |a| > 0 {
      LexTrichotomy(a[1..], a[1..]);
      if |b| > 0 && a[0] == b[0] {
        LexTrichotomy(a[1..], b[1..]);
        assert a == [a[0]] + a[1..] && b == [b[0]] + b[1..];
      }
    }
  }

  lemma {:induction false} LexTransitive(a: string, b: string, c: string)
    requires LexLess(a, b) && LexLess(b, c)
    ensures LexLess(a, c)
  {
    if |a| > 0 && a[0] == b[0] && b[0] == c[0] { LexTransitive(a[1..], b[1..], c[1..]); }
  }

  /** The order is that of code points: at the first difference, or by length where there is none. */
  lemma {:induction false} LexLessMeans(a: string, b: string)
    ensures LexLess(a, b) <==>
            exists k :: 0 <= k <= |a| && k < |b| && a[..k] == b[..k] && (k == |a| || a[k] < b[k])
  {
    if a != [] && b != [] && a[0] == b[0] {
      LexLessMeans(a[1..], b[1..]);
      if LexLess(a, b) {
        var k :| 0 <= k <= |a[1..]| && k < |b[1..]| && a[1..][..k] == b[1..][..k] && (k == |a[1..]| || a[1..][k] < b[1..][k]);
        assert a[..k + 1] == [a[0]] + a[1..][..k] && b[..k + 1] == [b[0]] + b[1..][..k];
      }
      if k :| 0 <= k <= |a| && k < |b| && a[..k] == b[..k] && (k == |a| || a[k] < b[k]) {
        assert k > 0;
        assert a[1..][..k - 1] == a[..k][1..] && b[1..][..k - 1] == b[..k][1..];
      }
    } else {
      if LexLess(a, b) { assert a[..0] == b[..0]; }
    }
  }

  predicate Increasing<T>(xs: seq<T>, key: T -> string) {
    forall i, j :: 0 <= i < j < |xs| ==> LexLess(key(xs[i]), key(xs[j]))
  }

  predicate DistinctKeys<T>(xs: seq<T>, key: T -> string) {
    forall i, j :: 0 <= i < j < |xs| ==> key(xs[i]) != key(xs[j])
  }

  function Insert<T>(x: T, xs: seq<T>, key: T -> string): seq<T> {
    if xs == [] then [x]
    else if LexLess(key(x), key(xs[0])) then [x] + xs
    else [xs[0]] + Insert(x, xs[1..], key)
  }

  function Sort<T>(xs: seq<T>, key: T -> string): seq<T> {
    if xs == [] then [] else Insert(xs[0], Sort(xs[1..], key), key)
  }

  /** The canonical order of validated rows; duplicate identities are refused. */
  function Ordered<T>(xs: seq<T>, key: T -> string): Option<seq<T>> {
    if DistinctKeys(xs, key) then Some(Sort(xs, key)) else None
  }

  lemma {:induction false} InsertMembers<T>(x: T, xs: seq<T>, key: T -> string)
    ensures multiset(Insert(x, xs, key)) == multiset(xs) + multiset{x}
  {
    if xs != [] {
      assert xs == [xs[0]] + xs[1..];
      if !LexLess(key(x), key(xs[0])) { InsertMembers(x, xs[1..], key); }
    }
  }

  lemma {:induction false} SortMembers<T>(xs: seq<T>, key: T -> string)
    ensures multiset(Sort(xs, key)) == multiset(xs)
  {
    if xs != [] {
      assert xs == [xs[0]] + xs[1..];
      SortMembers(xs[1..], key);
      InsertMembers(xs[0], Sort(xs[1..], key), key);
    }
  }

  lemma {:induction false} InsertIncreasing<T>(x: T, xs: seq<T>, key: T -> string)
    requires Increasing(xs, key) && forall i :: 0 <= i < |xs| ==> key(xs[i]) != key(x)
    ensures Increasing(Insert(x, xs, key), key)
  {
    if xs != [] {
      LexTrichotomy(key(x), key(xs[0]));
      if LexLess(key(x), key(xs[0])) {
        forall i | 0 <= i < |xs| ensures LexLess(key(x), key(xs[i])) {
          if i > 0 { LexTransitive(key(x), key(xs[0]), key(xs[i])); }
        }
      } else {
        var rest := Insert(x, xs[1..], key);
        InsertIncreasing(x, xs[1..], key);
        InsertMembers(x, xs[1..], key);
        forall i | 0 <= i < |rest| ensures LexLess(key(xs[0]), key(rest[i])) {
          assert rest[i] in multiset(rest);
          assert rest[i] == x || rest[i] in xs[1..];
        }
      }
    }
  }

  lemma {:induction false} SortIncreasing<T>(xs: seq<T>, key: T -> string)
    requires DistinctKeys(xs, key)
    ensures Increasing(Sort(xs, key), key)
  {
    if xs != [] {
      var rest := Sort(xs[1..], key);
      SortIncreasing(xs[1..], key);
      SortMembers(xs[1..], key);
      forall i | 0 <= i < |rest| ensures key(rest[i]) != key(xs[0]) {
        assert rest[i] in multiset(rest);
        assert rest[i] in xs[1..];
      }
      InsertIncreasing(xs[0], rest, key);
    }
  }

  /** Two increasing sequences over the same rows are the same sequence. */
  lemma {:induction false} IncreasingUnique<T>(xs: seq<T>, ys: seq<T>, key: T -> string)
    requires Increasing(xs, key) && Increasing(ys, key)
    requires forall x :: x in xs <==> x in ys
    ensures xs == ys
  {
    if |xs| > 0 { assert xs[0] in xs; }
    if |ys| > 0 { assert ys[0] in ys; }
    if xs != [] {
      var i :| 0 <= i < |ys| && ys[i] == xs[0];
      var j :| 0 <= j < |xs| && xs[j] == ys[0];
      LexTrichotomy(key(xs[0]), key(ys[0]));
      assert i == 0;
      forall x ensures x in xs[1..] <==> x in ys[1..] { RestMembers(xs, ys, key, x); RestMembers(ys, xs, key, x); }
      IncreasingUnique(xs[1..], ys[1..], key);
    }
  }

  lemma RestMembers<T>(xs: seq<T>, ys: seq<T>, key: T -> string, x: T)
    requires Increasing(xs, key) && xs != [] && ys != [] && xs[0] == ys[0]
    requires forall y :: y in xs ==> y in ys
    ensures x in xs[1..] ==> x in ys[1..]
  {
    if x in xs[1..] {
      var i :| 1 <= i < |xs| && xs[i] == x;
      LexTrichotomy(key(xs[0]), key(xs[0]));
      assert x in ys && x != ys[0];
    }
  }

  lemma DistinctMultiset<T>(xs: seq<T>, ys: seq<T>, key: T -> string)
    requires DistinctKeys(xs, key) && multiset(xs) == multiset(ys)
    ensures DistinctKeys(ys, key)
  {
    if i, j :| 0 <= i < j < |ys| && key(ys[i]) == key(ys[j]) {
      assert ys[i] in multiset(ys) && ys[j] in multiset(ys);
      var a :| 0 <= a < |xs| && xs[a] == ys[i];
      var b :| 0 <= b < |xs| && xs[b] == ys[j];
      assert ys[i] == ys[j];
      CountTwice(ys, i, j);
      CountOnce(xs, key, a);
    }
  }

  lemma CountTwice<T>(xs: seq<T>, i: nat, j: nat)
    requires i < j < |xs| && xs[i] == xs[j]
    ensures multiset(xs)[xs[i]] >= 2
  {
    assert xs == xs[..j] + [xs[j]] + xs[j + 1..];
    assert xs[..j] == xs[..i] + [xs[i]] + xs[i + 1..j];
  }

  lemma CountOnce<T>(xs: seq<T>, key: T -> string, i: nat)
    requires DistinctKeys(xs, key) && i < |xs|
    ensures multiset(xs)[xs[i]] == 1
  {
    assert xs == xs[..i] + [xs[i]] + xs[i + 1..];
    assert xs[i] !in xs[..i] && xs[i] !in xs[i + 1..];
  }

  /** Declaration order is immaterial: the same rows have one canonical form, or none. */
  lemma OrderedCanonical<T>(xs: seq<T>, ys: seq<T>, key: T -> string)
    requires multiset(xs) == multiset(ys)
    ensures Ordered(xs, key) == Ordered(ys, key)
    ensures Ordered(xs, key).Some? ==> Increasing(Ordered(xs, key).value, key)
    ensures Ordered(xs, key).Some? ==> multiset(Ordered(xs, key).value) == multiset(xs)
  {
    if DistinctKeys(xs, key) {
      DistinctMultiset(xs, ys, key);
      SortIncreasing(xs, key);
      SortIncreasing(ys, key);
      SortMembers(xs, key);
      SortMembers(ys, key);
      var a, b := Sort(xs, key), Sort(ys, key);
      forall x ensures x in a <==> x in b { assert x in a <==> x in multiset(a); assert x in b <==> x in multiset(b); }
      IncreasingUnique(a, b, key);
    } else if DistinctKeys(ys, key) {
      DistinctMultiset(ys, xs, key);
    }
  }
}
