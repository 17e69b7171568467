/** The top-N step of `draw_top_bar` and `draw_pie`
    (tganalyzer/html_export/__init__.py): the dict's items are sorted by
    value, largest first, and when there are more than `topsize` of them
    the tail from `topsize` on is replaced by one `Others` item holding the
    tail's sum. The labels and values lists `x`/`y` are kept as one list of
    entries. */
module TopBars {
  import opened StableSort
  import opened PyStrings

  /** `sum(y)`. */
  function Sum<K>(s: seq<Entry<K>>): int
    decreases |s|
  {
    if s == [] then 0 else s[0].val + Sum(s[1..])
  }

  /** The sorted entries with the tail from `topsize` folded into one
      `other` entry; `topsize` is a Python slice bound, so a negative one
      counts from the end. */
  function FoldOthers<K>(data: seq<Entry<K>>, topsize: int, other: K): seq<Entry<K>> {
    var sorted := SortDesc(data);
    if |sorted| > topsize then
      var k := SliceBound(|sorted|, topsize);
      sorted[..k] + [Entry(other, Sum(sorted[k..]))]
    else sorted
  }

  lemma {:induction false} SumAppend<K>(a: seq<Entry<K>>, b: seq<Entry<K>>)
    ensures Sum(a + b) == Sum(a) + Sum(b)
    decreases |a|
  {
    if a != [] {
      assert (a + b)[1..] == a[1..] + b;
      SumAppend(a[1..], b);
    } else {
      assert a + b == b;
    }
  }

  /** The sum depends only on the multiset of entries. */
  lemma {:induction false} SumPermutation<K>(a: seq<Entry<K>>, b: seq<Entry<K>>)
    requires multiset(a) == multiset(b)
    ensures Sum(a) == Sum(b)
    decreases |a|
  {
    if a == [] {
      assert |b| == |multiset(b)| == 0;
    } else {
      assert a[0] in multiset(b);
      var j :| 0 <= j < |b| && b[j] == a[0];
      var rest := b[..j] + b[j + 1..];
      PermutationRest(a, b, j);
      SumPermutation(a[1..], rest);
      assert b == b[..j] + ([b[j]] + b[j + 1..]);
      SumAppend(b[..j], [b[j]] + b[j + 1..]);
      SumAppend([b[j]], b[j + 1..]);
      SumAppend(b[..j], b[j + 1..]);
      assert Sum([b[j]]) == b[j].val;
      assert Sum(a) == a[0].val + Sum(a[1..]);
    }
  }

  /** Taking the first of `a` and its copy `b[j]` out leaves equal
      multisets. */
  lemma PermutationRest<T>(a: seq<T>, b: seq<T>, j: nat)
    requires a != [] && j < |b| && b[j] == a[0] && multiset(a) == multiset(b)
    ensures multiset(a[1..]) == multiset(b[..j] + b[j + 1..])
  {
    assert a == [a[0]] + a[1..];
    assert b == b[..j] + [b[j]] + b[j + 1..];
    calc {
      multiset(a[1..]) + multiset{a[0]};
      multiset(a);
      multiset(b);
      multiset(b[..j]) + multiset{b[j]} + multiset(b[j + 1..]);
      multiset(b[..j] + b[j + 1..]) + multiset{a[0]};
    }
    RemoveOne(multiset(a[1..]), multiset(b[..j] + b[j + 1..]), a[0]);
  }

  lemma RemoveOne<T>(x: multiset<T>, y: multiset<T>, e: T)
    requires x + multiset{e} == y + multiset{e}
    ensures x == y
  {
    assert x == x + multiset{e} - multiset{e};
    assert y == y + multiset{e} - multiset{e};
  }

  /** Folding keeps the total of the values. */
  lemma FoldOthersTotal<K>(data: seq<Entry<K>>, topsize: int, other: K)
    ensures Sum(FoldOthers(data, topsize, other)) == Sum(data)
  {
    var sorted := SortDesc(data);
    SumPermutation(sorted, data);
    if |sorted| > topsize {
      var k := SliceBound(|sorted|, topsize);
      assert sorted == sorted[..k] + sorted[k..];
      SumAppend(sorted[..k], sorted[k..]);
      SumAppend(sorted[..k], [Entry(other, Sum(sorted[k..]))]);
    }
  }

  /** For a non-negative `topsize` the chart has `min(n, topsize + 1)`
      items: the `topsize` largest, in sorted order, then `Others` when
      anything was folded. */
  lemma FoldOthersShape<K>(data: seq<Entry<K>>, topsize: nat, other: K)
    ensures var r := FoldOthers(data, topsize, other);
      && |r| == (if |data| <= topsize then |data| else topsize + 1)
      && (|data| <= topsize ==> r == SortDesc(data))
      && (|data| > topsize ==> r[topsize].key == other && r[..topsize] == SortDesc(data)[..topsize])
      && SortedDesc(r[..if |data| <= topsize then |data| else topsize])
  {
    var sorted := SortDesc(data);
    var r := FoldOthers(data, topsize, other);
    if |data| > topsize {
      assert r == sorted[..topsize] + [Entry(other, Sum(sorted[topsize..]))];
      assert r[..topsize] == sorted[..topsize];
    } else {
      assert r == sorted;
      assert r[..|data|] == r;
    }
  }

  /** When items were folded, none of them is larger than a kept one. */
  lemma FoldOthersRanked<K>(data: seq<Entry<K>>, topsize: nat, other: K)
    requires |data| > topsize
    ensures forall i, j :: 0 <= i < topsize <= j < |data| ==>
      FoldOthers(data, topsize, other)[i].val >= SortDesc(data)[j].val
  {
    var sorted := SortDesc(data);
    var r := FoldOthers(data, topsize, other);
    KeptPrefix(sorted, topsize, r, other);
    forall i, j | 0 <= i < topsize <= j < |data|
      ensures r[i].val >= sorted[j].val
    {
      assert r[i] == sorted[i];
    }
  }

  /** When items were folded, the kept and the folded items together are
      the dict's items. */
  lemma FoldOthersSplit<K>(data: seq<Entry<K>>, topsize: nat, other: K)
    requires |data| > topsize
    ensures multiset(FoldOthers(data, topsize, other)[..topsize]) + multiset(SortDesc(data)[topsize..]) == multiset(data)
  {
    var sorted := SortDesc(data);
    var r := FoldOthers(data, topsize, other);
    KeptPrefix(sorted, topsize, r, other);
    MultisetSplit(sorted, topsize);
  }

  /** A sequence is its prefix and its suffix, as multisets. */
  lemma MultisetSplit<T>(s: seq<T>, k: nat)
    requires k <= |s|
    ensures multiset(s[..k]) + multiset(s[k..]) == multiset(s)
  {
    assert s == s[..k] + s[k..];
  }

  /** The folded list starts with the kept prefix of the sorted one. */
  lemma KeptPrefix<K>(sorted: seq<Entry<K>>, topsize: nat, r: seq<Entry<K>>, other: K)
    requires topsize < |sorted|
    requires r == sorted[..topsize] + [Entry(other, Sum(sorted[topsize..]))]
    ensures r[..topsize] == sorted[..topsize]
    ensures forall i :: 0 <= i < topsize ==> r[i] == sorted[i]
  {
  }

  /** Lines 143-148 of `draw_top_bar` (and 205-211 of `draw_pie`): the
      sorted dict split into the label list `x` and the value list `y`,
      whose tails from `topsize` on are then replaced by `[other]` and
      `[sum(y[topsize:])]`. The two lists are the keys and the values of
      the folded entries. */
  method TopBar<K>(data: seq<Entry<K>>, topsize: int, other: K) returns (x: seq<K>, y: seq<int>)
    ensures |x| == |y| == |FoldOthers(data, topsize, other)|
    ensures forall i :: 0 <= i < |x| ==> FoldOthers(data, topsize, other)[i] == Entry(x[i], y[i])
  {
    var sorted := SortDesc(data);
    x, y := Unzip(sorted);
    if |y| > topsize {
      var k := SliceBound(|y|, topsize);
      var total := SumFrom(sorted, k);
      x, y := x[..k] + [other], y[..k] + [total];
    }
  }

  /** `list(d.keys()), list(d.values())`. */
  method Unzip<K>(s: seq<Entry<K>>) returns (x: seq<K>, y: seq<int>)
    ensures |x| == |y| == |s|
    ensures forall j :: 0 <= j < |s| ==> s[j] == Entry(x[j], y[j])
  {
    x, y := [], [];
    for i := 0 to |s|
      invariant |x| == |y| == i
      invariant forall j :: 0 <= j < i ==> s[j] == Entry(x[j], y[j])
    {
      x, y := x + [s[i].key], y + [s[i].val];
    }
  }

  /** `sum(y[k:])`. */
  method SumFrom<K>(s: seq<Entry<K>>, k: nat) returns (total: int)
    requires k <= |s|
    ensures total == Sum(s[k..])
  {
    total := 0;
    for j := k to |s|
      invariant total == Sum(s[k..j])
    {
      SumAppend(s[k..j], [s[j]]);
      assert s[k..j + 1] == s[k..j] + [s[j]];
      total := total + s[j].val;
    }
    assert s[k..|s|] == s[k..];
  }
}
