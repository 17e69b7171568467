/** The analyser's helper functions (tganalyzer/core/analyzer.py):
    `quan_counter`, `top_counter`, `top_counter_chats`, `sticker_append` and
    `top_num_stickers_finder`, with `sum(d.values())`. A dict mutated in
    place is a `map` passed in and returned; a top list is a `seq` of
    `[key, value]` entries. */
module Counters {
  import opened StableSort
  import opened Seqs

  /** `d.get(k, 0)`. */
  function Get<K(==)>(m: map<K, int>, k: K): int {
    if k in m then m[k] else 0
  }

  /** `quan_counter(update, aut, num)`: the count of `aut` (0 when absent)
      grows by `num`; every other key keeps its count. */
  function Bump<K(==)>(m: map<K, int>, k: K, n: int): (r: map<K, int>)
    ensures r.Keys == m.Keys + {k}
    ensures r[k] == Get(m, k) + n
    ensures forall j :: j in m && j != k ==> r[j] == m[j]
  {
    m[k := Get(m, k) + n]
  }

  /** `sum(m.values())`. */
  ghost function MapSum<K>(m: map<K, int>): int
    decreases |m|
  {
    if m == map[] then 0
    else
      var k :| k in m;
      m[k] + MapSum(m - {k})
  }

  /** The sum does not depend on which key is taken first. */
  lemma {:induction false} MapSumRemove<K>(m: map<K, int>, k: K)
    requires k in m
    ensures MapSum(m) == m[k] + MapSum(m - {k})
    decreases |m|
  {
    var j :| j in m && MapSum(m) == m[j] + MapSum(m - {j});
    if j != k {
      MapSumRemove(m - {j}, k);
      MapSumRemove(m - {k}, j);
      assert m - {j} - {k} == m - {k} - {j};
    }
  }

  lemma MapSumBump<K>(m: map<K, int>, k: K, n: int)
    ensures MapSum(Bump(m, k, n)) == MapSum(m) + n
  {
    var r := Bump(m, k, n);
    MapSumRemove(r, k);
    assert r - {k} == m - {k};
    if k in m {
      MapSumRemove(m, k);
    } else {
      assert m - {k} == m;
    }
  }

  /** `sum(m.values())` computed by visiting the keys one at a time. */
  method SumValues<K(==)>(m: map<K, int>) returns (s: int)
    ensures s == MapSum(m)
  {
    s := 0;
    var rest := m;
    while rest != map[]
      invariant s + MapSum(rest) == MapSum(m)
      decreases |rest|
    {
      var k :| k in rest;
      MapSumRemove(rest, k);
      s := s + rest[k];
      rest := rest - {k};
    }
  }

  /** The keys of `b` added into `a`, value by value. */
  function MergeAdd<K(==)>(a: map<K, int>, b: map<K, int>): (r: map<K, int>)
    ensures r.Keys == a.Keys + b.Keys
    ensures forall e :: e in a && e !in b ==> r[e] == a[e]
  {
    map e | e in a.Keys + b.Keys :: Get(a, e) + Get(b, e)
  }

  /** Merging adds the totals. */
  lemma {:induction false} MapSumMergeAdd<K>(a: map<K, int>, b: map<K, int>)
    ensures MapSum(MergeAdd(a, b)) == MapSum(a) + MapSum(b)
    decreases |b|
  {
    if b == map[] {
      assert MergeAdd(a, b) == a;
    } else {
      var k :| k in b;
      var b' := b - {k};
      MapSumMergeAdd(a, b');
      MergeAddStep(a, b, k);
      MapSumBump(MergeAdd(a, b'), k, b[k]);
      MapSumRemove(b, k);
    }
  }

  lemma MergeAddStep<K>(a: map<K, int>, b: map<K, int>, k: K)
    requires k in b
    ensures MergeAdd(a, b) == Bump(MergeAdd(a, b - {k}), k, b[k])
  {
    var l, r := MergeAdd(a, b), Bump(MergeAdd(a, b - {k}), k, b[k]);
    assert l.Keys == r.Keys;
    forall e | e in l ensures l[e] == r[e] {
      if e != k {
        assert Get(b - {k}, e) == Get(b, e);
      }
    }
  }

  /** `sticker_append(update, chat_stickers)`: each emoji of the chat is
      added to the running totals. */
  method StickerAppend<K(==)>(update: map<K, int>, chat: map<K, int>) returns (r: map<K, int>)
    ensures r == MergeAdd(update, chat)
  {
    r := update;
    var done: set<K> := {};
    StickerStart(update, chat);
    while done != chat.Keys
      invariant done <= chat.Keys
      invariant r == MergeAdd(update, Restrict(chat, done))
      decreases chat.Keys - done
    {
      SomeLeft(chat.Keys, done);
      var e :| e in chat.Keys - done;
      StickerStep(update, chat, done, e);
      // `update[emo] += n` or `update[emo] = n`, as `quan_counter` does
      r := Bump(r, e, chat[e]);
      done := done + {e};
    }
    RestrictAll(chat, done);
  }

  /** A proper subset leaves something out. */
  lemma SomeLeft<K>(a: set<K>, b: set<K>)
    requires b <= a && b != a
    ensures exists e :: e in a - b
  {
    assert !(a <= b);
    var x :| x in a && x !in b;
    assert x in a - b;
  }

  lemma StickerStart<K>(update: map<K, int>, chat: map<K, int>)
    ensures update == MergeAdd(update, Restrict(chat, {}))
  {
    var m := MergeAdd(update, Restrict(chat, {}));
    assert Restrict(chat, {}) == map[];
    assert m.Keys == update.Keys;
  }

  /** Adding one more emoji of the chat to the running totals. */
  lemma StickerStep<K>(update: map<K, int>, chat: map<K, int>, done: set<K>, e: K)
    requires e in chat && e !in done
    ensures Bump(MergeAdd(update, Restrict(chat, done)), e, chat[e]) == MergeAdd(update, Restrict(chat, done + {e}))
  {
    RestrictStep(chat, done, e);
    MergeAddStep(update, Restrict(chat, done + {e}), e);
  }

  lemma RestrictStep<K>(m: map<K, int>, s: set<K>, e: K)
    requires e in m && e !in s
    ensures Restrict(m, s + {e}) - {e} == Restrict(m, s)
    ensures Restrict(m, s + {e})[e] == m[e]
  {
    var l, r := Restrict(m, s + {e}) - {e}, Restrict(m, s);
    assert l.Keys == r.Keys;
  }

  lemma RestrictAll<K>(m: map<K, int>, s: set<K>)
    requires m.Keys <= s
    ensures Restrict(m, s) == m
  {
  }

  /** `m` cut down to the keys in `s`. */
  function Restrict<K(==)>(m: map<K, int>, s: set<K>): (r: map<K, int>)
    ensures r.Keys == m.Keys * s
    ensures forall k :: k in r ==> r[k] == m[k]
  {
    map k | k in m.Keys * s :: m[k]
  }

  /** The result of one swap pass of `top_counter` over a full list: the
      list as left in place and the pair pushed out at the end. */
  datatype Pass<K> = Pass(kept: seq<Entry<K>>, dropped: Entry<K>)

  /** `for j in range(n): if carry[1] > l[j][1]: l[j], carry = carry, l[j]`. */
  function Bubble<K>(l: seq<Entry<K>>, carry: Entry<K>, n: nat): (r: Pass<K>)
    requires n <= |l|
    ensures |r.kept| == |l|
    decreases n
  {
    if n == 0 then Pass(l, carry)
    else if carry.val > l[0].val then
      var p := Bubble(l[1..], l[0], n - 1);
      Pass([carry] + p.kept, p.dropped)
    else
      var p := Bubble(l[1..], carry, n - 1);
      Pass([l[0]] + p.kept, p.dropped)
  }

  /** `top_counter(update, aut, dur, top)` with `p == [aut, dur]`: a list
      shorter than `top` grows by `p` and is re-sorted; otherwise `p` is
      bubbled through the first `top` slots. */
  function TopStep<K>(l: seq<Entry<K>>, p: Entry<K>, top: int): seq<Entry<K>> {
    if |l| < top then SortDesc(l + [p])
    else Bubble(l, p, if top > 0 then top else 0).kept
  }

  /** `top_counter`, updating the list as the source does. */
  method TopCounter<K>(update: seq<Entry<K>>, aut: K, dur: int, top: int) returns (r: seq<Entry<K>>)
    ensures r == TopStep(update, Entry(aut, dur), top)
  {
    if |update| < top {
      r := SortDesc(update + [Entry(aut, dur)]);
    } else {
      var n := if top > 0 then top else 0;
      var out;
      r, out := BubblePass(update, Entry(aut, dur), n);
    }
  }

  /** The swap loop of `top_counter` over the first `n` slots. */
  method BubblePass<K>(update: seq<Entry<K>>, p: Entry<K>, n: nat) returns (r: seq<Entry<K>>, carry: Entry<K>)
    requires n <= |update|
    ensures Pass(r, carry) == Bubble(update, p, n)
  {
    carry := p;
    r := update;
    ghost var whole := Bubble(update, p, n);
    ghost var rest := whole;
    var j := 0;
    assert r[..0] + rest.kept == rest.kept;
    while j < n
      invariant 0 <= j <= n <= |update| == |r|
      invariant r[j..] == update[j..]
      invariant rest == Bubble(r[j..], carry, n - j)
      invariant whole == Pass(r[..j] + rest.kept, rest.dropped)
      decreases n - j
    {
      ghost var front, tail, c := r[..j], r[j..], carry;
      if carry.val > r[j].val {
        var displaced := r[j];
        r := r[j := carry];
        carry := displaced;
      }
      assert r[..j + 1] == front + [r[j]];
      assert r[j + 1..] == tail[1..];
      ghost var next := Bubble(r[j + 1..], carry, n - j - 1);
      PassStep(whole, front, tail, c, n - j, rest, r[j], carry, next);
      rest := next;
      j := j + 1;
    }
    assert r[..j] + r[j..] == r;
  }

  /** One step of the pass: the larger `x` of the head and the carried `c`
      is kept behind `front`, the other (`c2`) is carried on. */
  lemma PassStep<K>(whole: Pass<K>, front: seq<Entry<K>>, tail: seq<Entry<K>>, c: Entry<K>, m: nat,
                    rest: Pass<K>, x: Entry<K>, c2: Entry<K>, next: Pass<K>)
    requires 0 < m <= |tail| && rest == Bubble(tail, c, m)
    requires x == (if c.val > tail[0].val then c else tail[0])
    requires c2 == (if c.val > tail[0].val then tail[0] else c)
    requires next == Bubble(tail[1..], c2, m - 1)
    requires whole == Pass(front + rest.kept, rest.dropped)
    ensures whole == Pass((front + [x]) + next.kept, next.dropped)
  {
    assert rest == Pass([x] + next.kept, next.dropped);
    assert front + ([x] + next.kept) == (front + [x]) + next.kept;
  }

  /** `top_counter_chats(update, analysed, author, top)`: `author` is
      ranked by the total of its counts. */
  method TopCounterChats<K, A(==)>(update: seq<Entry<K>>, analysed: map<A, int>, author: K, top: int)
    returns (r: seq<Entry<K>>)
    ensures r == TopStep(update, Entry(author, MapSum(analysed)), top)
  {
    var total := SumValues(analysed);
    r := TopCounter(update, author, total, top);
  }

  /** All values of `s` are at least `v`. */
  predicate AtLeast<K>(s: seq<Entry<K>>, v: int) {
    forall i :: 0 <= i < |s| ==> s[i].val >= v
  }

  /** The swap pass exchanges the offered pair for the one it pushes out. */
  lemma {:induction false} BubbleMultiset<K>(l: seq<Entry<K>>, carry: Entry<K>, n: nat, r: Pass<K>)
    requires n <= |l| && r == Bubble(l, carry, n)
    ensures multiset(r.kept) + multiset{r.dropped} == multiset(l) + multiset{carry}
    decreases n
  {
    if n > 0 {
      var big := carry.val > l[0].val;
      var x := if big then carry else l[0];
      var c := if big then l[0] else carry;
      var p := Bubble(l[1..], c, n - 1);
      BubbleMultiset(l[1..], c, n - 1, p);
      assert r == Pass([x] + p.kept, p.dropped);
      PairSwap(x, c, carry, p.kept, p.dropped, l);
    }
  }

  /** One swap step, in multisets: of the head `l[0]` and the carried `b`,
      one (`x`) goes in front of what the rest of the pass keeps and the
      other (`c`) is carried on. */
  lemma PairSwap<T>(x: T, c: T, b: T, kept: seq<T>, d: T, l: seq<T>)
    requires l != []
    requires multiset(kept) + multiset{d} == multiset(l[1..]) + multiset{c}
    requires (x == l[0] && c == b) || (x == b && c == l[0])
    ensures multiset([x] + kept) + multiset{d} == multiset(l) + multiset{b}
  {
    assert l == [l[0]] + l[1..];
    assert multiset([x] + kept) == multiset{x} + multiset(kept);
    assert multiset(l) == multiset{l[0]} + multiset(l[1..]);
    forall o ensures (multiset([x] + kept) + multiset{d})[o] == (multiset(l) + multiset{b})[o] {
      assert (multiset(kept) + multiset{d})[o] == (multiset(l[1..]) + multiset{c})[o];
    }
  }

  /** Entries whose value is at least the offered one keep their slots (a
      tie never displaces an entry), and the offered pair lands right
      behind them. */
  lemma {:induction false} BubbleKeepsPrefix<K>(l: seq<Entry<K>>, carry: Entry<K>, n: nat, r: Pass<K>, k: nat)
    requires n <= |l| && r == Bubble(l, carry, n) && k == FirstLess(l, carry.val)
    ensures k <= n ==> r.kept[..k] == l[..k]
    ensures k < n ==> r.kept[k] == carry
    decreases n
  {
    if n > 0 {
      if l[0].val >= carry.val {
        var p := Bubble(l[1..], carry, n - 1);
        BubbleKeepsPrefix(l[1..], carry, n - 1, p, k - 1);
        assert r.kept == [l[0]] + p.kept;
        if k <= n {
          assert ([l[0]] + p.kept)[..k] == [l[0]] + p.kept[..k - 1];
          assert l[..k] == [l[0]] + l[1..][..k - 1];
        }
      } else {
        assert r.kept == [carry] + Bubble(l[1..], l[0], n - 1).kept;
      }
    }
  }

  /** On a sorted list the pass keeps it sorted and pushes out a least
      entry, never one larger than the offered pair. */
  lemma {:induction false} BubbleSorted<K>(l: seq<Entry<K>>, carry: Entry<K>, n: nat, r: Pass<K>)
    requires n <= |l| && SortedDesc(l[..n]) && r == Bubble(l, carry, n)
    ensures SortedDesc(r.kept[..n])
    ensures AtLeast(r.kept[..n], r.dropped.val)
    ensures r.dropped.val <= carry.val
    ensures n > 0 ==> r.kept[0].val == (if carry.val > l[0].val then carry.val else l[0].val)
    decreases n
  {
    if n > 0 {
      var big := carry.val > l[0].val;
      var x := if big then carry else l[0];
      var c := if big then l[0] else carry;
      var p := Bubble(l[1..], c, n - 1);
      assert SortedDesc(l[1..][..n - 1]) by {
        assert l[1..][..n - 1] == l[..n][1..];
      }
      BubbleSorted(l[1..], c, n - 1, p);
      assert r == Pass([x] + p.kept, p.dropped);
      assert r.kept[..n] == [x] + p.kept[..n - 1];
      if n > 1 {
        assert l[1].val <= l[0].val;
      }
      ConsSorted(x, p.kept[..n - 1], p.dropped.val);
    }
  }

  /** Putting a large enough entry in front keeps a list sorted and
      above a bound. */
  lemma ConsSorted<K>(x: Entry<K>, s: seq<Entry<K>>, v: int)
    requires SortedDesc(s) && AtLeast(s, v) && x.val >= v
    requires s != [] ==> x.val >= s[0].val
    ensures SortedDesc([x] + s) && AtLeast([x] + s, v)
  {
    var t := [x] + s;
    forall i, j | 0 <= i < j < |t| ensures t[i].val >= t[j].val {
      if i == 0 {
        assert t[j] == s[j - 1];
        assert j - 1 == 0 || s[0].val >= s[j - 1].val;
      } else {
        assert t[i] == s[i - 1] && t[j] == s[j - 1];
      }
    }
    forall i | 0 <= i < |t| ensures t[i].val >= v {
      if i > 0 { assert t[i] == s[i - 1]; }
    }
  }

  /** A list shorter than `top` grows by exactly the offered pair, which
      lands behind every entry of no smaller value. */
  lemma TopStepGrows<K>(l: seq<Entry<K>>, p: Entry<K>, top: int)
    requires SortedDesc(l) && |l| < top
    ensures TopStep(l, p, top) == InsertDesc(l, p)
    ensures |TopStep(l, p, top)| == |l| + 1 && SortedDesc(TopStep(l, p, top))
  {
    SortDescOfSorted(l);
    SplitLast(l + [p]);
    assert (l + [p])[..|l|] == l;
  }

  /** On a full sorted list the length stays `top`, the list stays sorted,
      the offered pair replaces one least entry (`dropped`), and entries of
      a value at least the offered one are not moved. */
  lemma TopStepFull<K>(l: seq<Entry<K>>, p: Entry<K>, top: nat)
    requires SortedDesc(l) && |l| == top
    ensures var r, d := TopStep(l, p, top), Bubble(l, p, top).dropped;
      && |r| == top && SortedDesc(r)
      && multiset(r) + multiset{d} == multiset(l) + multiset{p}
      && AtLeast(r, d.val)
      && r[..FirstLess(l, p.val)] == l[..FirstLess(l, p.val)]
      && (FirstLess(l, p.val) < top ==> r[FirstLess(l, p.val)] == p)
  {
    var pass := Bubble(l, p, top);
    var r := pass.kept;
    assert l[..top] == l && r[..top] == r;
    BubbleMultiset(l, p, top, pass);
    BubbleSorted(l, p, top, pass);
    BubbleKeepsPrefix(l, p, top, pass, FirstLess(l, p.val));
  }

  /** `update` is a top-`top` choice among the pairs `seen`: sorted, of the
      right length, drawn from `seen`, and no pair left out has a larger
      value than a pair kept. */
  ghost predicate IsTop<K>(update: seq<Entry<K>>, seen: seq<Entry<K>>, top: nat) {
    && SortedDesc(update)
    && |update| == (if |seen| < top then |seen| else top)
    && multiset(update) <= multiset(seen)
    && forall x :: x in multiset(seen) - multiset(update) ==> AtLeast(update, x.val)
  }

  /** One `top_counter` call keeps a top-`top` choice a top-`top` choice. */
  lemma TopStepKeepsTop<K>(l: seq<Entry<K>>, seen: seq<Entry<K>>, p: Entry<K>, top: nat)
    requires IsTop(l, seen, top)
    ensures IsTop(TopStep(l, p, top), seen + [p], top)
  {
    assert multiset(seen + [p]) == multiset(seen) + multiset{p};
    if |l| < top {
      MultisetSubsetEqualSize(multiset(l), multiset(seen));
      assert multiset(l + [p]) == multiset(seen + [p]);
    } else {
      FullStepKeepsTop(l, seen, p, top);
    }
  }

  lemma FullStepKeepsTop<K>(l: seq<Entry<K>>, seen: seq<Entry<K>>, p: Entry<K>, top: nat)
    requires IsTop(l, seen, top) && |l| == top
    requires multiset(seen + [p]) == multiset(seen) + multiset{p}
    ensures IsTop(Bubble(l, p, top).kept, seen + [p], top)
  {
    var pass := Bubble(l, p, top);
    BubbleMultiset(l, p, top, pass);
    BubbleSorted(l, p, top, pass);
    assert l[..top] == l && pass.kept[..top] == pass.kept;
    SwapKeepsTop(l, seen, p, top, pass.kept, pass.dropped);
  }

  /** Trading `p` for a least entry `d` of a full top-`top` choice. */
  lemma SwapKeepsTop<K>(l: seq<Entry<K>>, seen: seq<Entry<K>>, p: Entry<K>, top: nat, r: seq<Entry<K>>, d: Entry<K>)
    requires IsTop(l, seen, top) && |l| == top && |r| == top
    requires multiset(seen + [p]) == multiset(seen) + multiset{p}
    requires multiset(r) + multiset{d} == multiset(l) + multiset{p}
    requires SortedDesc(r) && AtLeast(r, d.val)
    ensures IsTop(r, seen + [p], top)
  {
    MultisetSwap(multiset(seen), multiset(l), multiset(r), p, d);
    forall x | x in multiset(seen + [p]) - multiset(r) ensures AtLeast(r, x.val) {
      if x != d {
        assert x in multiset(seen) - multiset(l);
        if d in multiset(l) {
          AtLeastMultiset(l, x.val, d);
        } else {
          AtLeastFrom(r, l, x.val);
        }
      }
    }
  }

  /** Swapping `p` in and `d` out of a part `l` of `m`. */
  lemma MultisetSwap<T>(m: multiset<T>, l: multiset<T>, r: multiset<T>, p: T, d: T)
    requires l <= m && r + multiset{d} == l + multiset{p}
    ensures r <= m + multiset{p}
    ensures (m + multiset{p}) - r == (m - l) + multiset{d}
    ensures d !in l ==> r == l
  {
    forall x ensures r[x] <= (m + multiset{p})[x] {
      assert (r + multiset{d})[x] == (l + multiset{p})[x];
    }
    forall x ensures ((m + multiset{p}) - r)[x] == ((m - l) + multiset{d})[x] {
      assert (r + multiset{d})[x] == (l + multiset{p})[x];
    }
    if d !in l {
      forall x ensures r[x] == l[x] {
        assert (r + multiset{d})[x] == (l + multiset{p})[x];
        assert (r + multiset{d})[d] == (l + multiset{p})[d];
      }
    }
  }

  /** An entry of `l` has a value at least `v` when all of `l` does. */
  lemma AtLeastMultiset<K>(l: seq<Entry<K>>, v: int, e: Entry<K>)
    requires AtLeast(l, v) && e in multiset(l)
    ensures e.val >= v
  {
    var i :| 0 <= i < |l| && l[i] == e;
  }

  lemma AtLeastFrom<K>(r: seq<Entry<K>>, l: seq<Entry<K>>, v: int)
    requires AtLeast(l, v) && multiset(r) == multiset(l)
    ensures AtLeast(r, v)
  {
    forall i | 0 <= i < |r| ensures r[i].val >= v {
      assert r[i] in multiset(l);
      AtLeastMultiset(l, v, r[i]);
    }
  }

  lemma MultisetSubsetEqualSize<T>(a: multiset<T>, b: multiset<T>)
    requires a <= b && |a| == |b|
    ensures a == b
  {
    var d := b - a;
    assert b == a + d;
    assert |d| == 0;
  }

  /** `top_counter` applied to the offers in order, starting from `l`. */
  function TopFold<K>(l: seq<Entry<K>>, offers: seq<Entry<K>>, top: int): seq<Entry<K>>
    decreases |offers|
  {
    if offers == [] then l else TopFold(TopStep(l, offers[0], top), offers[1..], top)
  }

  lemma {:induction false} TopFoldAppend<K>(l: seq<Entry<K>>, offers: seq<Entry<K>>, p: Entry<K>, top: int)
    ensures TopFold(l, offers + [p], top) == TopStep(TopFold(l, offers, top), p, top)
    decreases |offers|
  {
    if offers == [] {
      assert offers + [p] == [p];
    } else {
      assert (offers + [p])[1..] == offers[1..] + [p];
      TopFoldAppend(TopStep(l, offers[0], top), offers[1..], p, top);
    }
  }

  /** Whatever the order of the offers, a list built up from `[]` by
      `top_counter` holds `min(len(offers), top)` of the offered pairs with
      the largest values, sorted with the largest first. */
  lemma {:induction false} TopFoldIsTop<K>(offers: seq<Entry<K>>, top: nat)
    ensures IsTop(TopFold([], offers, top), offers, top)
    decreases |offers|
  {
    if offers != [] {
      var init, last := offers[..|offers| - 1], offers[|offers| - 1];
      SplitLast(offers);
      TopFoldIsTop(init, top);
      TopFoldAppend([], init, last, top);
      TopStepKeepsTop(TopFold([], init, top), init, last, top);
    }
  }

  /** A non-positive `top` leaves every list as it is. */
  lemma TopStepNonPositive<K>(l: seq<Entry<K>>, p: Entry<K>, top: int)
    requires top <= 0
    ensures TopStep(l, p, top) == l
  {
  }

  /** The pairs `[k, m[k]]` for the keys in `order`. */
  function Offers<K(==)>(m: map<K, int>, order: seq<K>): (r: seq<Entry<K>>)
    requires forall i :: 0 <= i < |order| ==> order[i] in m
    ensures |r| == |order|
    ensures forall i :: 0 <= i < |r| ==> r[i] == Entry(order[i], m[order[i]])
  {
    seq(|order|, i requires 0 <= i < |order| => Entry(order[i], m[order[i]]))
  }

  lemma OffersAppend<K>(m: map<K, int>, order: seq<K>, e: K)
    requires forall i :: 0 <= i < |order| ==> order[i] in m
    requires e in m
    ensures Offers(m, order + [e]) == Offers(m, order) + [Entry(e, m[e])]
  {
  }

  /** `top_num_stickers_finder(update, stickers, top)`: every emoji is
      offered to `top_counter` with its count, in the dict's iteration
      order, which the model leaves open (`order`). */
  method TopNumStickersFinder<K(==)>(update: seq<Entry<K>>, stickers: map<K, int>, top: int)
    returns (r: seq<Entry<K>>, ghost order: seq<K>)
    ensures forall i :: 0 <= i < |order| ==> order[i] in stickers
    ensures forall e :: e in stickers ==> e in order
    ensures forall i, j :: 0 <= i < j < |order| ==> order[i] != order[j]
    ensures r == TopFold(update, Offers(stickers, order), top)
    ensures update == [] && top >= 0 ==> IsTop(r, Offers(stickers, order), top)
  {
    r := update;
    order := [];
    var rest := stickers.Keys;
    while rest != {}
      invariant rest <= stickers.Keys
      invariant forall i :: 0 <= i < |order| ==> order[i] in stickers && order[i] !in rest
      invariant forall e :: e in stickers && e !in rest ==> e in order
      invariant forall i, j :: 0 <= i < j < |order| ==> order[i] != order[j]
      invariant r == TopFold(update, Offers(stickers, order), top)
      decreases |rest|
    {
      var e :| e in rest;
      TopFoldAppend(update, Offers(stickers, order), Entry(e, stickers[e]), top);
      OffersAppend(stickers, order, e);
      r := TopCounter(r, e, stickers[e], top);
      order := order + [e];
      rest := rest - {e};
    }
    if update == [] && top >= 0 {
      TopFoldIsTop(Offers(stickers, order), top);
    }
  }
}
