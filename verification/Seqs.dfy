/** Counting facts about finite sequences that the protocol proofs rest on:
    sums, 0/1 counts, and the pigeonhole principle in both directions. */
module Seqs {

  function Sum(s: seq<int>): int {
    if s == [] then 0 else s[0] + Sum(s[1..])
  }

  lemma {:induction false} SumUpdate(s: seq<int>, i: nat, x: int)
    requires i < |s|
    ensures Sum(s[i := x]) == Sum(s) - s[i] + x
  {
    if i == 0 {
      assert s[0 := x][1..] == s[1..];
    } else {
      assert s[i := x][1..] == s[1..][i - 1 := x];
      SumUpdate(s[1..], i - 1, x);
    }
  }

  /** A sum of 0/1 terms is at most the length, and reaches it only when every term is 1. */
  lemma {:induction false} SumOfBits(s: seq<int>)
    requires forall i :: 0 <= i < |s| ==> 0 <= s[i] <= 1
    ensures 0 <= Sum(s) <= |s|
    ensures Sum(s) == |s| <==> forall i :: 0 <= i < |s| ==> s[i] == 1
    ensures Sum(s) == 0 <==> forall i :: 0 <= i < |s| ==> s[i] == 0
  {
    if s != [] {
      SumOfBits(s[1..]);
      assert forall i :: 1 <= i < |s| ==> s[i] == s[1..][i - 1];
    }
  }

  lemma {:induction false} SumConst(s: seq<int>, k: int)
    requires forall i :: 0 <= i < |s| ==> s[i] == k
    ensures Sum(s) == k * |s|
  {
    if s != [] {
      SumConst(s[1..], k);
    }
  }

  lemma {:induction false} SumNonNegative(s: seq<int>)
    requires forall i :: 0 <= i < |s| ==> 0 <= s[i]
    ensures 0 <= Sum(s)
    ensures forall i :: 0 <= i < |s| ==> s[i] <= Sum(s)
  {
    if s != [] {
      SumNonNegative(s[1..]);
      assert forall i :: 1 <= i < |s| ==> s[i] == s[1..][i - 1];
    }
  }

  ghost predicate Distinct<T>(s: seq<T>) {
    forall i, j :: 0 <= i < j < |s| ==> s[i] != s[j]
  }

  function Range(m: nat): (r: set<int>)
    ensures |r| == m
    ensures forall x :: x in r <==> 0 <= x < m
  {
    if m == 0 then {} else Range(m - 1) + {m - 1}
  }

  function Elements(s: seq<int>): set<int> { set x | x in s }

  lemma {:induction false} ElementsSize(s: seq<int>)
    ensures |Elements(s)| <= |s|
    ensures Distinct(s) ==> |Elements(s)| == |s|
  {
    if s != [] {
      ElementsSize(s[1..]);
      assert Elements(s) == Elements(s[1..]) + {s[0]};
      if Distinct(s) {
        assert s[0] !in s[1..];
      }
    }
  }

  lemma SubsetSize<T>(a: set<T>, b: set<T>)
    requires a <= b
    ensures |a| <= |b|
    ensures |a| == |b| ==> a == b
  {
    assert b == a + (b - a);
  }

  /** Distinct numbers below `m` are at most `m` many, and exactly `m` only if all of them occur. */
  lemma Pigeonhole(s: seq<int>, m: nat)
    requires Distinct(s)
    requires forall i :: 0 <= i < |s| ==> 0 <= s[i] < m
    ensures |s| <= m
    ensures |s| == m ==> forall x :: 0 <= x < m ==> x in s
  {
    ElementsSize(s);
    SubsetSize(Elements(s), Range(m));
    if |s| == m {
      forall x | 0 <= x < m ensures x in s { assert x in Range(m); }
    }
  }

  /** A sequence in which every number below `m` occurs has at least `m` elements. */
  lemma Coverage(s: seq<int>, m: nat)
    requires forall x :: 0 <= x < m ==> x in s
    ensures m <= |s|
  {
    ElementsSize(s);
    SubsetSize(Range(m), Elements(s));
  }

  /** `f` and `g` are inverse partial injections: `g` lists who took ticket 0, 1, 2, ... and `f` gives the
      ticket of each participant, -1 for none. */
  ghost predicate Inverse(f: seq<int>, g: seq<int>) {
    && (forall j :: 0 <= j < |g| ==> 0 <= g[j] < |f| && f[g[j]] == j)
    && (forall a :: 0 <= a < |f| ==> f[a] == -1 || (0 <= f[a] < |g| && g[f[a]] == a))
  }

  /** Participant `a` takes the next ticket. */
  lemma InverseExtend(f: seq<int>, g: seq<int>, a: nat)
    requires Inverse(f, g) && a < |f| && f[a] < 0
    ensures Inverse(f[a := |g|], g + [a])
  {
  }

  /** Participant `a` hands its ticket to `b`. */
  lemma InverseMove(f: seq<int>, g: seq<int>, a: nat, b: nat)
    requires Inverse(f, g) && a < |f| && b < |f| && f[a] >= 0 && f[b] < 0
    ensures 0 <= f[a] < |g| && Inverse(f[a := -1][b := f[a]], g[f[a] := b])
  {
  }

  /** Tickets are at most as many as participants; a participant without a ticket leaves room for one; and
      when only one can be left, everybody else has one. */
  lemma InverseBound(f: seq<int>, g: seq<int>)
    requires Inverse(f, g)
    ensures |g| <= |f|
    ensures |g| == |f| ==> forall x :: 0 <= x < |f| ==> f[x] >= 0
    ensures forall a :: 0 <= a < |f| && f[a] < 0 ==> |g| < |f|
    ensures forall a, x :: 0 <= a < |f| && f[a] < 0 && |g| + 1 == |f| && 0 <= x < |f| && x != a ==> f[x] >= 0
    ensures (forall x :: 0 <= x < |f| ==> f[x] >= 0) ==> |g| == |f|
  {
    Pigeonhole(g, |f|);
    forall a | 0 <= a < |f| && f[a] < 0
      ensures |g| < |f|
      ensures |g| + 1 == |f| ==> forall x :: 0 <= x < |f| && x != a ==> f[x] >= 0
    {
      var q := g + [a];
      Pigeonhole(q, |f|);
      if |g| + 1 == |f| {
        forall x | 0 <= x < |f| && x != a ensures f[x] >= 0 { assert x in q; }
      }
    }
    if forall x :: 0 <= x < |f| ==> f[x] >= 0 {
      forall x | 0 <= x < |f| ensures x in g { assert g[f[x]] == x; }
      Coverage(g, |f|);
    }
  }
}
