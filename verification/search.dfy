/** First-match search over an ordered table: the shape shared by the date
    layout table (try each layout, keep the first that parses) and the Atom
    link list (keep the first link whose relation qualifies). */
module Search {
  import opened Results
  import Seqs

  /** No element before index `i` produces a hit. */
  ghost predicate NoHitBefore<A, B>(xs: seq<A>, f: A -> Option<B>, i: int)
  {
    forall j :: 0 <= j < i && j < |xs| ==> f(xs[j]).None?
  }

  /** The hit of the earliest element of `xs` that produces one. */
  function FirstSome<A, B>(xs: seq<A>, f: A -> Option<B>): (r: Option<B>)
    ensures r.None? <==> NoHitBefore(xs, f, |xs|)
    ensures r.Some? ==> exists i :: 0 <= i < |xs| && f(xs[i]) == r && NoHitBefore(xs, f, i)
    decreases |xs|
  {
    if |xs| == 0 then None
    else if f(xs[0]).Some? then f(xs[0])
    else
      var r := FirstSome(xs[1..], f);
      assert forall j :: 1 <= j < |xs| ==> xs[j] == xs[1..][j - 1];
      r
  }

  /** Whichever element hits first decides the result: a hit at index `i`
      with no hit before it is the answer. */
  lemma FirstSomeAt<A, B>(xs: seq<A>, f: A -> Option<B>, i: int)
    requires 0 <= i < |xs| && f(xs[i]).Some? && NoHitBefore(xs, f, i)
    ensures FirstSome(xs, f) == f(xs[i])
  {
    var r := FirstSome(xs, f);
    assert r.Some? by { assert !NoHitBefore(xs, f, |xs|); }
  }

  /** The index of the element whose hit `FirstSome` returns. */
  lemma FirstSomeIndex<A, B>(xs: seq<A>, f: A -> Option<B>) returns (i: int)
    requires FirstSome(xs, f).Some?
    ensures 0 <= i < |xs| && f(xs[i]) == FirstSome(xs, f) && NoHitBefore(xs, f, i)
  {
    i :| 0 <= i < |xs| && f(xs[i]) == FirstSome(xs, f) && NoHitBefore(xs, f, i);
  }

  /** Elements after the table are consulted only when the table has no hit. */
  lemma {:induction false} FirstSomeAppend<A, B>(xs: seq<A>, ys: seq<A>, f: A -> Option<B>)
    ensures FirstSome(xs + ys, f) == if FirstSome(xs, f).Some? then FirstSome(xs, f) else FirstSome(ys, f)
    decreases |xs|
  {
    if |xs| == 0 {
      assert xs + ys == ys;
    } else if f(xs[0]).Some? {
      assert (xs + ys)[0] == xs[0];
    } else {
      assert (xs + ys)[0] == xs[0];
      assert (xs + ys)[1..] == xs[1..] + ys;
      FirstSomeAppend(xs[1..], ys, f);
    }
  }

  /** An entry that repeats an earlier entry of the table never changes the
      outcome: removing it leaves the search result unchanged. */
  lemma FirstSomeDropRepeat<A, B>(xs: seq<A>, k: int, f: A -> Option<B>)
    requires 0 <= k < |xs| && xs[k] in xs[..k]
    ensures FirstSome(xs[..k] + xs[k + 1..], f) == FirstSome(xs, f)
  {
    var pre, rest := xs[..k], xs[k + 1..];
    Seqs.SplitAround(xs, k);
    FirstSomeAppend(pre, [xs[k]] + rest, f);
    FirstSomeAppend(pre, rest, f);
    if FirstSome(pre, f).None? {
      RepeatMisses(pre, xs[k], f);
      FirstSomeAppend([xs[k]], rest, f);
    }
  }

  /** An element already in a table without hits is itself no hit. */
  lemma RepeatMisses<A, B>(pre: seq<A>, x: A, f: A -> Option<B>)
    requires x in pre && FirstSome(pre, f).None?
    ensures FirstSome([x], f).None?
  {
    var m :| 0 <= m < |pre| && pre[m] == x;
    assert f(pre[m]).None?;
    assert NoHitBefore([x], f, 1);
  }
}
