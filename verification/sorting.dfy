/** Newest-first ordering of normalised items (`sortItems` / `SortItems`):
    `sort.Slice` with "item i's date is after item j's date" as the order.
    `sort.Slice` is not stable, so the model promises what every run
    promises: a permutation whose dates never increase. */
module Sorting {
  import Dates
  import opened Feeds
  import Seqs

  /** Dates never increase along `items`. */
  ghost predicate NewestFirst(items: seq<Item>)
  {
    Descending(DatesOf(items))
  }

  /** Putting a not-older item in front keeps the order newest first. */
  lemma NewestFirstCons(h: Item, t: seq<Item>)
    ensures NewestFirst(t) && (|t| == 0 || h.pubDate >= t[0].pubDate) ==> NewestFirst([h] + t)
  {
    if !NewestFirst(t) || (|t| > 0 && h.pubDate < t[0].pubDate) { return; }
    var r := [h] + t;
    var d, dt := DatesOf(r), DatesOf(t);
    forall i, j | 0 <= i < j < |d| ensures d[i] >= d[j] {
      assert r[j] == t[j - 1];
      if i == 0 {
        assert j == 1 || dt[0] >= dt[j - 1];
      } else {
        assert r[i] == t[i - 1] && dt[i - 1] >= dt[j - 1];
      }
    }
  }

  /** Dropping the newest item keeps the rest newest first. */
  lemma NewestFirstTail(items: seq<Item>)
    ensures NewestFirst(items) && |items| > 0 ==> NewestFirst(items[1..])
  {
    if NewestFirst(items) && |items| > 0 {
      DatesTail(items);
      DescendingTail(DatesOf(items));
    }
  }

  /** Places `x` before the first item it is not older than. */
  function Insert(x: Item, items: seq<Item>): (r: seq<Item>)
    ensures NewestFirst(items) ==> NewestFirst(r)
    ensures multiset(r) == multiset(items) + multiset{x}
    ensures |r| == |items| + 1
    ensures r[0] == x || (|items| > 0 && r[0] == items[0])
  {
    if |items| == 0 then [x]
    else if x.pubDate >= items[0].pubDate then
      NewestFirstCons(x, items);
      [x] + items
    else
      var rest := Insert(x, items[1..]);
      NewestFirstTail(items);
      assert items == [items[0]] + items[1..];
      assert rest[0] == x || rest[0] == items[1];
      NewestFirstCons(items[0], rest);
      [items[0]] + rest
  }

  /** The sorted items: a rearrangement of the input, newest first. Items
      carrying the zero time come after every item dated after it. */
  function SortItems(items: seq<Item>): (r: seq<Item>)
    ensures multiset(r) == multiset(items)
    ensures |r| == |items|
    ensures NewestFirst(r)
    ensures forall i, j :: 0 <= i < |r| && 0 <= j < |r| && r[i].pubDate == Dates.Zero && r[j].pubDate > Dates.Zero ==> j < i
  {
    if |items| == 0 then []
    else
      assert items == [items[0]] + items[1..];
      Insert(items[0], SortItems(items[1..]))
  }

  function DatesOf(items: seq<Item>): (ds: seq<Dates.Instant>)
    ensures |ds| == |items|
    ensures forall k :: 0 <= k < |items| ==> ds[k] == items[k].pubDate
  {
    seq(|items|, k requires 0 <= k < |items| => items[k].pubDate)
  }

  lemma DatesTail(items: seq<Item>)
    requires |items| > 0
    ensures DatesOf(items[1..]) == DatesOf(items)[1..]
  {
  }

  lemma DatesRemoveAt(items: seq<Item>, k: int)
    requires 0 <= k < |items|
    ensures DatesOf(items[..k] + items[k + 1..]) == DatesOf(items)[..k] + DatesOf(items)[k + 1..]
  {
  }

  /** Taking the same item out of two rearrangements of each other leaves
      rearrangements of each other. */
  lemma RemoveMatching(a: seq<Item>, b: seq<Item>, k: int)
    requires multiset(a) == multiset(b) && |a| > 0 && 0 <= k < |b| && b[k] == a[0]
    ensures multiset(a[1..]) == multiset(b[..k] + b[k + 1..])
  {
    Seqs.TailMultiset(a);
    Seqs.RemoveAt(b, k);
  }

  /** Putting the date of that item back into both date sequences. */
  lemma RestoreMatching(a: seq<Item>, b: seq<Item>, k: int)
    requires |a| > 0 && 0 <= k < |b| && b[k] == a[0]
    requires multiset(DatesOf(a[1..])) == multiset(DatesOf(b[..k] + b[k + 1..]))
    ensures multiset(DatesOf(a)) == multiset(DatesOf(b))
  {
    var da, db := DatesOf(a), DatesOf(b);
    DatesTail(a);
    DatesRemoveAt(b, k);
    Seqs.TailMultiset(da);
    Seqs.RemoveAt(db, k);
    Seqs.RestoreOne(multiset(da), multiset(db), a[0].pubDate);
  }

  /** Rearranging items rearranges their dates. */
  lemma {:induction false} DatesPermutation(a: seq<Item>, b: seq<Item>)
    requires multiset(a) == multiset(b)
    ensures multiset(DatesOf(a)) == multiset(DatesOf(b))
    decreases |a|
  {
    if |a| > 0 {
      assert a[0] in multiset(b);
      var k :| 0 <= k < |b| && b[k] == a[0];
      RemoveMatching(a, b, k);
      DatesPermutation(a[1..], b[..k] + b[k + 1..]);
      RestoreMatching(a, b, k);
    }
  }

  ghost predicate Descending(a: seq<int>)
  {
    forall i, j :: 0 <= i < j < |a| ==> a[i] >= a[j]
  }

  /** The head of a non-increasing sequence bounds every value in it. */
  lemma HeadIsMax(a: seq<int>, x: int)
    requires Descending(a) && x in multiset(a)
    ensures |a| > 0 && a[0] >= x
  {
    var j :| 0 <= j < |a| && a[j] == x;
  }

  lemma DescendingTail(a: seq<int>)
    requires Descending(a) && |a| > 0
    ensures Descending(a[1..])
  {
    var t := a[1..];
    assert forall i :: 0 <= i < |t| ==> t[i] == a[i + 1];
  }

  /** Two non-increasing sequences holding the same values start with the
      same value, and what follows it still holds the same values. */
  lemma HeadsAgree(a: seq<int>, b: seq<int>)
    requires Descending(a) && Descending(b) && multiset(a) == multiset(b) && |a| > 0
    ensures |b| > 0 && a[0] == b[0]
    ensures Descending(a[1..]) && Descending(b[1..]) && multiset(a[1..]) == multiset(b[1..])
  {
    assert a[0] in multiset(b);
    HeadIsMax(b, a[0]);
    HeadIsMax(a, b[0]);
    DescendingTail(a);
    DescendingTail(b);
    Seqs.TailMultiset(a);
    Seqs.TailMultiset(b);
  }

  /** Two non-increasing integer sequences holding the same values are equal. */
  lemma {:induction false} DescendingUnique(a: seq<int>, b: seq<int>)
    requires Descending(a) && Descending(b)
    requires multiset(a) == multiset(b)
    ensures a == b
    decreases |a|
  {
    if |a| == 0 {
      assert |b| == |multiset(b)| == |multiset(a)| == 0;
    } else {
      HeadsAgree(a, b);
      DescendingUnique(a[1..], b[1..]);
      Seqs.SameHeadAndTail(a, b);
    }
  }

  /** Whatever order an unstable sort leaves equal-dated items in, the
      sequence of dates it produces is the same: the dates of every
      newest-first rearrangement of the input agree with `SortItems`. */
  lemma SortedDatesDetermined(items: seq<Item>, other: seq<Item>)
    requires multiset(other) == multiset(items) && NewestFirst(other)
    ensures DatesOf(other) == DatesOf(SortItems(items))
  {
    var s := SortItems(items);
    DatesPermutation(other, s);
    DescendingUnique(DatesOf(other), DatesOf(s));
  }

  /** No two items carry the same date. */
  ghost predicate DistinctDates(items: seq<Item>)
  {
    forall i, j :: 0 <= i < j < |items| ==> items[i].pubDate != items[j].pubDate
  }

  /** Among items with distinct dates, the date identifies the item. */
  lemma SameDateSameItem(items: seq<Item>, x: Item, y: Item)
    requires DistinctDates(items) && x in items && y in items && x.pubDate == y.pubDate
    ensures x == y
  {
    var i :| 0 <= i < |items| && items[i] == x;
    var j :| 0 <= j < |items| && items[j] == y;
    assert !(i < j) && !(j < i);
  }

  /** When no two items share a date, the unstable sort has no choice to
      make: the only newest-first rearrangement is `SortItems`' result. */
  lemma SortedDistinctDetermined(items: seq<Item>, other: seq<Item>)
    requires DistinctDates(items)
    requires multiset(other) == multiset(items) && NewestFirst(other)
    ensures other == SortItems(items)
  {
    var s := SortItems(items);
    SortedDatesDetermined(items, other);
    assert |other| == |multiset(other)| == |multiset(s)| == |s|;
    forall k | 0 <= k < |other| ensures other[k] == s[k] {
      assert other[k] in multiset(items) && s[k] in multiset(items);
      assert DatesOf(other)[k] == DatesOf(s)[k];
      SameDateSameItem(items, other[k], s[k]);
    }
  }
}
