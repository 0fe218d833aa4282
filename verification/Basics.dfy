/** Small shared vocabulary: optional values and weighted sums over index sets. */
module Basics {

  datatype Option<+T> = None | Some(value: T)

  function OneIf(c: bool): nat { if c then 1 else 0 }

  /** The total weight of the members of A among the positions of ws. */
  function Sum(ws: seq<nat>, A: set<nat>): nat {
    if |ws| == 0 then 0
    else Sum(ws[..|ws| - 1], A) + if |ws| - 1 in A then ws[|ws| - 1] else 0
  }

  /** n equal weights of one, so that Sum counts. */
  function Ones(n: nat): seq<nat> { seq(n, i => 1) }

  lemma {:induction false} SumMonotone(ws: seq<nat>, A: set<nat>, B: set<nat>)
    requires forall i :: 0 <= i < |ws| && i in A ==> i in B
    ensures Sum(ws, A) <= Sum(ws, B)
  {
    if |ws| > 0 { SumMonotone(ws[..|ws| - 1], A, B); }
  }

  lemma SumSame(ws: seq<nat>, A: set<nat>, B: set<nat>)
    requires forall i :: 0 <= i < |ws| ==> (i in A <==> i in B)
    ensures Sum(ws, A) == Sum(ws, B)
  {
    SumMonotone(ws, A, B);
    SumMonotone(ws, B, A);
  }

  lemma {:induction false} SumInsert(ws: seq<nat>, A: set<nat>, j: nat)
    requires j < |ws| && j !in A
    ensures Sum(ws, A + {j}) == Sum(ws, A) + ws[j]
  {
    var n := |ws| - 1;
    if j < n {
      SumInsert(ws[..n], A, j);
    } else {
      SumSame(ws[..n], A, A + {j});
    }
  }

  /** Each position beyond the old ones adds its own weight. */
  lemma SumAppend(ws: seq<nat>, w: nat, A: set<nat>)
    ensures Sum(ws + [w], A) == Sum(ws, A) + if |ws| in A then w else 0
  {
    assert (ws + [w])[..|ws|] == ws;
  }

  /** The members of A below n, in order. */
  function Members(n: nat, A: set<nat>): seq<nat> {
    if n == 0 then [] else Members(n - 1, A) + if n - 1 in A then [n - 1] else []
  }

  predicate Below(list: seq<nat>, n: nat) { forall i :: 0 <= i < |list| ==> list[i] < n }

  /** The total weight of a list of positions, counting repetitions. */
  function Total(ws: seq<nat>, list: seq<nat>): nat
    requires Below(list, |ws|)
  {
    if list == [] then 0 else Total(ws, list[..|list| - 1]) + ws[list[|list| - 1]]
  }

  lemma {:induction false} MembersBelow(n: nat, A: set<nat>)
    ensures Below(Members(n, A), n)
  {
    if n > 0 { MembersBelow(n - 1, A); }
  }

  lemma {:induction false} MembersOf(n: nat, A: set<nat>, x: nat)
    ensures x in Members(n, A) <==> x < n && x in A
  {
    if n > 0 { MembersOf(n - 1, A, x); }
  }

  lemma {:induction false} TotalPrefix(ws: seq<nat>, w: nat, list: seq<nat>)
    requires Below(list, |ws|)
    ensures Total(ws + [w], list) == Total(ws, list)
  {
    if list != [] { TotalPrefix(ws, w, list[..|list| - 1]); assert list[|list| - 1] < |ws|; }
  }

  /** Listing a set once gives its weight. */
  lemma {:induction false} TotalMembers(ws: seq<nat>, A: set<nat>)
    ensures Below(Members(|ws|, A), |ws|)
    ensures Total(ws, Members(|ws|, A)) == Sum(ws, A)
  {
    MembersBelow(|ws|, A);
    if |ws| > 0 {
      var n := |ws| - 1;
      var list := Members(n, A);
      MembersBelow(n, A);
      TotalMembers(ws[..n], A);
      TotalPrefix(ws[..n], ws[n], list);
      assert ws[..n] + [ws[n]] == ws;
      if n in A { assert (list + [n])[..|list|] == list; } else { assert list + [] == list; }
    }
  }

  /** A list that covers a set weighs at least as much. */
  lemma {:induction false} TotalCovers(ws: seq<nat>, A: set<nat>, list: seq<nat>)
    requires Below(list, |ws|)
    requires forall x :: 0 <= x < |ws| && x in A ==> x in list
    ensures Sum(ws, A) <= Total(ws, list)
    decreases |list|
  {
    if list == [] {
      SumMonotone(ws, A, {});
      SumNone(ws);
    } else {
      var last := list[|list| - 1];
      assert list == list[..|list| - 1] + [last];
      TotalCovers(ws, A - {last}, list[..|list| - 1]);
      if last in A {
        SumInsert(ws, A - {last}, last);
        assert (A - {last}) + {last} == A;
      } else {
        assert A - {last} == A;
      }
    }
  }

  /** A list without repetitions weighs at most as much as a set that holds all it names. */
  lemma {:induction false} TotalWithin(ws: seq<nat>, A: set<nat>, list: seq<nat>)
    requires Below(list, |ws|) && forall i, k :: 0 <= i < k < |list| ==> list[i] != list[k]
    requires forall i :: 0 <= i < |list| ==> list[i] in A
    ensures Total(ws, list) <= Sum(ws, A)
    decreases |list|
  {
    if list != [] {
      var last := list[|list| - 1];
      TotalWithin(ws, A - {last}, list[..|list| - 1]);
      SumInsert(ws, A - {last}, last);
      assert (A - {last}) + {last} == A;
    }
  }

  lemma {:induction false} MembersOnce(n: nat, A: set<nat>)
    ensures forall i, k :: 0 <= i < k < |Members(n, A)| ==> Members(n, A)[i] != Members(n, A)[k]
  {
    if n > 0 {
      MembersOnce(n - 1, A);
      MembersBelow(n - 1, A);
    }
  }

  lemma {:induction false} SumNone(ws: seq<nat>)
    ensures Sum(ws, {}) == 0
  {
    if |ws| > 0 { SumNone(ws[..|ws| - 1]); }
  }

  lemma {:induction false} TotalOnes(n: nat, list: seq<nat>)
    requires Below(list, n)
    ensures Total(Ones(n), list) == |list|
  {
    if list != [] { TotalOnes(n, list[..|list| - 1]); assert list[|list| - 1] < n; }
  }
}
