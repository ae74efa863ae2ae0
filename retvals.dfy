/** Sequences of kernel calls that stop at the first error, and the loops
    over fixed-size tables that stop at the first empty slot. */
module Retvals {

  /** The index of the first of the first `n` elements of `s` that satisfies
      `p`, or `n` when none does. */
  function FirstWhere<T>(s: seq<T>, n: nat, p: T -> bool): (k: nat)
    requires n <= |s|
    ensures k <= n
    ensures forall j :: 0 <= j < k ==> !p(s[j])
    ensures k < n ==> p(s[k])
  {
    if n == 0 then 0
    else if FirstWhere(s, n - 1, p) < n - 1 then FirstWhere(s, n - 1, p)
    else if p(s[n - 1]) then n - 1
    else n
  }

  /** The index of the first negative value among the first `n` results,
      or `n` when there is none: a sequence of calls that returns on the
      first error stops there. */
  function FirstFailure(results: seq<int>, n: nat): (k: nat)
    requires n <= |results|
    ensures k <= n
    ensures forall j :: 0 <= j < k ==> results[j] >= 0
    ensures k < n ==> results[k] < 0
  {
    FirstWhere(results, n, r => r < 0)
  }

  /** Any index with the defining property of `FirstWhere` is the one
      `FirstWhere` finds. */
  lemma FirstWhereUnique<T>(s: seq<T>, n: nat, p: T -> bool, k: nat)
    requires n <= |s| && k <= n
    requires forall j :: 0 <= j < k ==> !p(s[j])
    requires k < n ==> p(s[k])
    ensures FirstWhere(s, n, p) == k
  {
  }

  /** `s` in reverse order. */
  function Reversed<T>(s: seq<T>): (r: seq<T>)
    ensures |r| == |s|
    ensures forall j :: 0 <= j < |s| ==> r[j] == s[|s| - 1 - j]
  {
    if s == [] then [] else Reversed(s[1..]) + [s[0]]
  }

  /** Concatenation is associative. */
  lemma AppendAssoc<T>(a: seq<T>, b: seq<T>, c: seq<T>)
    ensures a + (b + c) == (a + b) + c
  {
  }
}
