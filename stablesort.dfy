/** Python's `list.sort(key=lambda x: x[1], reverse=True)` on `[key, value]`
    pairs: a stable sort by value, largest first. Entries with equal values
    keep their original order, because `reverse=True` reverses the
    comparison and not the list. */
module StableSort {

  /** A `[key, value]` pair of the analyser's top lists. */
  datatype Entry<K> = Entry(key: K, val: int)

  /** Values never increase along `s`. */
  predicate SortedDesc<K>(s: seq<Entry<K>>) {
    forall i, j :: 0 <= i < j < |s| ==> s[i].val >= s[j].val
  }

  /** The first index whose value is below `v`, or `|s|`. */
  function FirstLess<K>(s: seq<Entry<K>>, v: int): (k: nat)
    ensures k <= |s|
    ensures forall i :: 0 <= i < k ==> s[i].val >= v
    ensures k < |s| ==> s[k].val < v
    decreases |s|
  {
    if s == [] || s[0].val < v then 0 else 1 + FirstLess(s[1..], v)
  }

  /** `s` with `p` inserted so that it lands at index `k`. */
  function InsertAt<K>(s: seq<Entry<K>>, p: Entry<K>, k: nat): (r: seq<Entry<K>>)
    requires k <= |s|
    ensures |r| == |s| + 1 && r[k] == p
    ensures forall i :: 0 <= i < k ==> r[i] == s[i]
    ensures forall i :: k < i < |r| ==> r[i] == s[i - 1]
  {
    s[..k] + [p] + s[k..]
  }

  /** Inserting `p` behind every entry whose value is at least `p.val`. */
  function InsertDesc<K>(s: seq<Entry<K>>, p: Entry<K>): seq<Entry<K>> {
    InsertAt(s, p, FirstLess(s, p.val))
  }

  lemma InsertDescSorted<K>(s: seq<Entry<K>>, p: Entry<K>)
    requires SortedDesc(s)
    ensures SortedDesc(InsertDesc(s, p))
    ensures multiset(InsertDesc(s, p)) == multiset(s) + multiset{p}
  {
    var k := FirstLess(s, p.val);
    InsertAtSorted(s, p, k);
    InsertAtMultiset(s, p, k);
  }

  /** Inserting at the first index of a smaller value keeps the order. */
  lemma InsertAtSorted<K>(s: seq<Entry<K>>, p: Entry<K>, k: nat)
    requires SortedDesc(s) && k <= |s|
    requires forall i :: 0 <= i < k ==> s[i].val >= p.val
    requires k < |s| ==> s[k].val < p.val
    ensures SortedDesc(InsertAt(s, p, k))
  {
    var r := InsertAt(s, p, k);
    forall i, j | 0 <= i < j < |r| ensures r[i].val >= r[j].val {
      if j < k {
        assert r[i] == s[i] && r[j] == s[j];
      } else if j == k {
        assert r[i] == s[i];
      } else if i < k {
        assert r[i] == s[i] && r[j] == s[j - 1];
      } else if i == k {
        assert r[j] == s[j - 1] && s[k].val < p.val;
        assert s[k].val >= s[j - 1].val || j - 1 == k;
      } else {
        assert r[i] == s[i - 1] && r[j] == s[j - 1];
      }
    }
  }

  lemma InsertAtMultiset<K>(s: seq<Entry<K>>, p: Entry<K>, k: nat)
    requires k <= |s|
    ensures multiset(InsertAt(s, p, k)) == multiset(s) + multiset{p}
  {
    assert s == s[..k] + s[k..];
    assert InsertAt(s, p, k) == s[..k] + [p] + s[k..];
  }

  /** The stable descending sort: each element, taken left to right, is
      inserted behind the already sorted entries of no smaller value. */
  function SortDesc<K>(s: seq<Entry<K>>): (r: seq<Entry<K>>)
    ensures |r| == |s|
    ensures SortedDesc(r)
    ensures multiset(r) == multiset(s)
    decreases |s|
  {
    if s == [] then []
    else
      var init := SortDesc(s[..|s| - 1]);
      InsertDescSorted(init, s[|s| - 1]);
      LastSplit(s);
      InsertDesc(init, s[|s| - 1])
  }

  lemma LastSplit<T>(s: seq<T>)
    requires s != []
    ensures multiset(s) == multiset(s[..|s| - 1]) + multiset{s[|s| - 1]}
  {
    assert s == s[..|s| - 1] + [s[|s| - 1]];
  }

  /** The entries of `s` whose value is `v`, in order. */
  function WithValue<K>(s: seq<Entry<K>>, v: int): seq<Entry<K>>
    decreases |s|
  {
    if s == [] then []
    else (if s[0].val == v then [s[0]] else []) + WithValue(s[1..], v)
  }

  lemma {:induction false} WithValueAppend<K>(a: seq<Entry<K>>, b: seq<Entry<K>>, v: int)
    ensures WithValue(a + b, v) == WithValue(a, v) + WithValue(b, v)
    decreases |a|
  {
    if a != [] {
      assert (a + b)[1..] == a[1..] + b;
      WithValueAppend(a[1..], b, v);
    } else {
      assert a + b == b;
    }
  }

  lemma {:induction false} WithValueNone<K>(s: seq<Entry<K>>, v: int)
    requires forall i :: 0 <= i < |s| ==> s[i].val != v
    ensures WithValue(s, v) == []
    decreases |s|
  {
    if s != [] { WithValueNone(s[1..], v); }
  }

  /** Inserting into a sorted sequence puts `p` behind every entry of its
      own value. */
  lemma InsertDescWithValue<K>(l: seq<Entry<K>>, p: Entry<K>, v: int)
    requires SortedDesc(l)
    ensures WithValue(InsertDesc(l, p), v) == WithValue(l, v) + WithValue([p], v)
  {
    var k := FirstLess(l, p.val);
    assert l == l[..k] + l[k..];
    assert InsertDesc(l, p) == l[..k] + [p] + l[k..];
    WithValueAppend(l[..k] + [p], l[k..], v);
    WithValueAppend(l[..k], [p], v);
    WithValueAppend(l[..k], l[k..], v);
    if p.val == v {
      forall i | 0 <= i < |l[k..]| ensures l[k..][i].val != v {
        assert l[k + i].val <= l[k].val;
      }
      WithValueNone(l[k..], v);
    }
  }

  /** Stability: sorting keeps the relative order of the entries of any one
      value. */
  lemma {:induction false} SortDescStable<K>(s: seq<Entry<K>>, v: int)
    ensures WithValue(SortDesc(s), v) == WithValue(s, v)
    decreases |s|
  {
    if s != [] {
      var init, p := s[..|s| - 1], s[|s| - 1];
      SortDescStable(init, v);
      InsertDescWithValue(SortDesc(init), p, v);
      assert s == init + [p];
      WithValueAppend(init, [p], v);
    }
  }

  /** A sequence that is already sorted is left as it is. */
  lemma {:induction false} SortDescOfSorted<K>(s: seq<Entry<K>>)
    requires SortedDesc(s)
    ensures SortDesc(s) == s
    decreases |s|
  {
    if s != [] {
      var init := s[..|s| - 1];
      assert SortedDesc(init);
      SortDescOfSorted(init);
      assert forall i :: 0 <= i < |init| ==> init[i].val >= s[|s| - 1].val;
      assert FirstLess(init, s[|s| - 1].val) == |init|;
      assert InsertAt(init, s[|s| - 1], |init|) == s;
    }
  }
}
