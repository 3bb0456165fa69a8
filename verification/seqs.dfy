/** Small facts about sequence concatenation and multisets, stated once and
    used wherever a proof needs to regroup or take apart a sequence. */
module Seqs {

  lemma Associate<T>(x: seq<T>, y: seq<T>, z: seq<T>)
    ensures x + (y + z) == (x + y) + z
  {
  }

  lemma Pair<T>(a: T, b: T)
    ensures [a] + [b] == [a, b]
  {
  }

  lemma Regroup<T>(a: seq<T>, b: seq<T>, c: seq<T>, d: seq<T>, e: seq<T>)
    ensures a + (b + (c + d)) + e == (a + b) + c + (d + e)
  {
  }

  /** `s` is its part before `i`, its part from `i` to `j`, and the rest. */
  lemma Decompose<T>(s: seq<T>, i: int, j: int)
    requires 0 <= i <= j <= |s|
    ensures s == s[..i] + (s[i..j] + s[j..])
  {
  }

  /** `s` is its part before `k`, the element at `k`, and the rest. */
  lemma SplitAround<T>(s: seq<T>, k: int)
    requires 0 <= k < |s|
    ensures s == s[..k] + ([s[k]] + s[k + 1..])
  {
  }

  /** Two non-empty sequences with the same head and tail are equal. */
  lemma SameHeadAndTail<T>(a: seq<T>, b: seq<T>)
    requires |a| > 0 && |b| > 0 && a[0] == b[0] && a[1..] == b[1..]
    ensures a == b
  {
    assert a == [a[0]] + a[1..] && b == [b[0]] + b[1..];
  }

  /** Removing the element at `k` removes one copy of it from the multiset. */
  lemma RemoveAt<T>(s: seq<T>, k: int)
    requires 0 <= k < |s|
    ensures multiset(s[..k] + s[k + 1..]) == multiset(s) - multiset{s[k]}
  {
    assert s == s[..k] + [s[k]] + s[k + 1..];
  }

  lemma TailMultiset<T>(s: seq<T>)
    requires |s| > 0
    ensures multiset(s[1..]) == multiset(s) - multiset{s[0]}
  {
    assert s == [s[0]] + s[1..];
  }

  /** Two multisets that agree once a shared element is taken out agree. */
  lemma RestoreOne<T>(m: multiset<T>, n: multiset<T>, x: T)
    requires x in m && x in n && m - multiset{x} == n - multiset{x}
    ensures m == n
  {
    assert m == (m - multiset{x}) + multiset{x};
    assert n == (n - multiset{x}) + multiset{x};
  }

  /** Reordering the pieces of a concatenation keeps every element. */
  lemma Reorder3<T>(a: seq<T>, b: seq<T>, c: seq<T>)
    ensures multiset(b + c + a) == multiset(a + b + c)
  {
  }

  lemma Reorder5<T>(a: seq<T>, b: seq<T>, c: seq<T>, d: seq<T>, e: seq<T>)
    ensures multiset(c + a + e + b + d) == multiset(a + b + c + d + e)
  {
  }
}
