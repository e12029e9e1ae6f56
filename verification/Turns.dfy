/** Going round `n` lines from a given one. */
module Turns {

  /** Line number `start + d`, wrapping around. */
  function Turn(start: nat, d: nat, n: nat): (j: nat)
    requires n > 0
    ensures j < n
  {
    (start + d) % n
  }

  /** The line after line `l`. */
  function Successor(l: nat, n: nat): (j: nat)
    requires l < n
    ensures j < n
  {
    if l + 1 == n then 0 else l + 1
  }

  /** How many lines after line `l` comes line `j`. */
  function Gap(l: nat, j: nat, n: nat): (d: nat)
    requires l < n && j < n
    ensures d < n
  {
    if l <= j then j - l else j + n - l
  }

  /** Taking the lines one after the other is going by turns. */
  lemma NextTurn(start: nat, d: nat, n: nat)
    requires n > 0
    ensures Turn(start, d + 1, n) == Successor(Turn(start, d, n), n)
  {
    var x := start + d;
    var q, r := x / n, x % n;
    if r + 1 == n { RemainderIs(x + 1, q + 1, 0, n); } else { RemainderIs(x + 1, q, r + 1, n); }
  }

  /** Once around, every line has its turn. */
  lemma TurnReaches(start: nat, j: nat, n: nat) returns (d: nat)
    requires j < n
    ensures d < n && Turn(start, d, n) == j
  {
    var q, r := start / n, start % n;
    d := if j >= r then j - r else j + n - r;
    if j >= r { RemainderIs(start + d, q, j, n); } else { RemainderIs(start + d, q + 1, j, n); }
  }

  lemma QuotientUnique(q: int, r: int, q': int, r': int, m: int)
    requires m > 0 && 0 <= r < m && 0 <= r' < m && q * m + r == q' * m + r'
    ensures r == r'
  {
    assert (q' - q) * m == q' * m - q * m;
    if q' > q { AtLeastOnce(q' - q, m); }
    if q' < q { AtLeastOnce(q - q', m); }
  }

  lemma AtLeastOnce(a: int, m: int)
    requires a >= 1 && m > 0
    ensures a * m >= m
  {
  }

  lemma RemainderIs(x: int, q: int, r: int, m: int)
    requires m > 0 && 0 <= r < m && x == q * m + r
    ensures x % m == r
  {
    QuotientUnique(q, r, x / m, x % m, m);
  }
}
