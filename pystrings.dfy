/** The Python `str` operations the modelled code calls: `isspace`,
    `strip()`, `split()`, `replace(' ', '')`, `find`, slicing with clamping,
    `in` on strings, `endswith` and the code-point order of `sorted`. */
module PyStrings {

  /** `c.isspace()`: the characters Python counts as whitespace. */
  predicate IsSpace(c: char) {
    c == '\t' || c == '\n' || c == '\U{000B}' || c == '\U{000C}' || c == '\r'
    || ('\U{001C}' <= c <= '\U{001F}') || c == ' ' || c == '\U{0085}' || c == '\U{00A0}'
    || c == '\U{1680}' || ('\U{2000}' <= c <= '\U{200A}') || c == '\U{2028}' || c == '\U{2029}'
    || c == '\U{202F}' || c == '\U{205F}' || c == '\U{3000}'
  }

  /** Number of leading whitespace characters of `s`. */
  function LeadingSpace(s: string): (n: nat)
    ensures n <= |s|
    ensures forall k :: 0 <= k < n ==> IsSpace(s[k])
    ensures n < |s| ==> !IsSpace(s[n])
    decreases |s|
  {
    if s == [] || !IsSpace(s[0]) then 0 else 1 + LeadingSpace(s[1..])
  }

  /** Length of `s` once its trailing whitespace is cut off. */
  function TrailingCut(s: string): (n: nat)
    ensures n <= |s|
    ensures forall k :: n <= k < |s| ==> IsSpace(s[k])
    ensures n > 0 ==> !IsSpace(s[n - 1])
    decreases |s|
  {
    if s == [] || !IsSpace(s[|s| - 1]) then |s| else TrailingCut(s[..|s| - 1])
  }

  /** `s.strip()`: `s` without its leading and trailing whitespace. */
  function Strip(s: string): (r: string)
    ensures LeadingSpace(s) + |r| <= |s|
    ensures r != [] ==> !IsSpace(r[0]) && !IsSpace(r[|r| - 1])
    ensures s == s[..LeadingSpace(s)] + r + s[LeadingSpace(s) + |r|..]
    ensures forall k :: LeadingSpace(s) + |r| <= k < |s| ==> IsSpace(s[k])
    ensures (forall k :: 0 <= k < |s| ==> IsSpace(s[k])) <==> r == []
  {
    var n := LeadingSpace(s);
    var t := s[n..];
    var m := TrailingCut(t);
    StripParts(s, n, t, m, t[..m]);
    t[..m]
  }

  lemma StripParts(s: string, n: nat, t: string, m: nat, r: string)
    requires n <= |s| && t == s[n..] && m <= |t| && r == t[..m]
    requires forall k :: 0 <= k < n ==> IsSpace(s[k])
    requires n < |s| ==> !IsSpace(s[n])
    requires forall k :: m <= k < |t| ==> IsSpace(t[k])
    requires m > 0 ==> !IsSpace(t[m - 1])
    ensures n + |r| <= |s|
    ensures r != [] ==> !IsSpace(r[0]) && !IsSpace(r[|r| - 1])
    ensures s == s[..n] + r + s[n + |r|..]
    ensures forall k :: n + |r| <= k < |s| ==> IsSpace(s[k])
    ensures (forall k :: 0 <= k < |s| ==> IsSpace(s[k])) <==> r == []
  {
    assert t == t[..m] + t[m..];
    assert s == s[..n] + t;
    assert t[m..] == s[n + m..];
    forall k | n + m <= k < |s| ensures IsSpace(s[k]) { assert s[k] == t[k - n]; }
    if m > 0 { assert s[n] == t[0]; }
  }

  /** Number of maximal runs of non-whitespace characters in `s`, when the
      character before `s` was whitespace (`afterSpace`) or not. */
  function RunStarts(s: string, afterSpace: bool): nat
    decreases |s|
  {
    if s == [] then 0
    else (if afterSpace && !IsSpace(s[0]) then 1 else 0) + RunStarts(s[1..], IsSpace(s[0]))
  }

  /** The first word of `s`, which starts with a non-whitespace character. */
  function TakeWord(s: string): (w: string)
    ensures |w| <= |s| && w == s[..|w|]
    ensures forall k :: 0 <= k < |w| ==> !IsSpace(w[k])
    ensures |w| < |s| ==> IsSpace(s[|w|])
    decreases |s|
  {
    if s == [] || IsSpace(s[0]) then [] else [s[0]] + TakeWord(s[1..])
  }

  /** `s.split()` with no separator: the words between runs of whitespace. */
  function Split(s: string): (ws: seq<string>)
    ensures forall i :: 0 <= i < |ws| ==> ws[i] != []
    ensures forall i, k :: 0 <= i < |ws| && 0 <= k < |ws[i]| ==> !IsSpace(ws[i][k])
    decreases |s|
  {
    var t := s[LeadingSpace(s)..];
    if t == [] then [] else
    var w := TakeWord(t);
    [w] + Split(t[|w|..])
  }

  lemma {:induction false} RunStartsOfSpaces(s: string, n: nat, b: bool)
    requires n <= |s|
    requires forall k :: 0 <= k < n ==> IsSpace(s[k])
    ensures RunStarts(s, b) == RunStarts(s[n..], if n == 0 then b else true)
    decreases n
  {
    if n > 0 {
      RunStartsOfSpaces(s[1..], n - 1, true);
      assert s[1..][n - 1..] == s[n..];
    }
  }

  lemma {:induction false} RunStartsOfWord(s: string, n: nat)
    requires 0 < n <= |s|
    requires forall k :: 0 <= k < n ==> !IsSpace(s[k])
    requires n < |s| ==> IsSpace(s[n])
    ensures RunStarts(s, true) == 1 + RunStarts(s[n..], true)
  {
    RunStartsInsideWord(s[1..], n - 1);
    assert s[1..][n - 1..] == s[n..];
  }

  lemma {:induction false} RunStartsInsideWord(s: string, n: nat)
    requires n <= |s|
    requires forall k :: 0 <= k < n ==> !IsSpace(s[k])
    requires n < |s| ==> IsSpace(s[n])
    ensures RunStarts(s, false) == RunStarts(s[n..], true)
    decreases n
  {
    if n > 0 {
      RunStartsInsideWord(s[1..], n - 1);
      assert s[1..][n - 1..] == s[n..];
    } else if s != [] {
      assert IsSpace(s[0]);
    }
  }

  /** The number of words `split()` returns is the number of places where a
      run of non-whitespace characters begins. */
  lemma {:induction false} SplitCountsRuns(s: string)
    ensures |Split(s)| == RunStarts(s, true)
    decreases |s|
  {
    var n := LeadingSpace(s);
    var t := s[n..];
    RunStartsOfSpaces(s, n, true);
    assert RunStarts(s, true) == RunStarts(t, true);
    if t != [] {
      var w := TakeWord(t);
      assert w != [] by { assert !IsSpace(t[0]); }
      RunStartsOfWord(t, |w|);
      SplitCountsRuns(t[|w|..]);
    }
  }

  /** `len(s.split())`. */
  function WordCount(s: string): nat {
    |Split(s)|
  }

  /** `s.replace(' ', '')`: `s` without its space characters (other
      whitespace is kept). */
  function RemoveSpaces(s: string): (r: string)
    ensures forall k :: 0 <= k < |r| ==> r[k] != ' '
    ensures multiset(r) == multiset(s)[' ' := 0]
    decreases |s|
  {
    if s == [] then []
    else
      var rest := RemoveSpaces(s[1..]);
      assert s == [s[0]] + s[1..];
      if s[0] == ' ' then rest else [s[0]] + rest
  }

  /** `len(s.replace(' ', ''))`, the symbol count of a message. */
  function SymbolCount(s: string): nat {
    |RemoveSpaces(s)|
  }

  /** `sub` occurs in `s` at index `i`. */
  predicate OccursAt(s: string, sub: string, i: int) {
    0 <= i && i + |sub| <= |s| && s[i..i + |sub|] == sub
  }

  /** `s.find(sub, from)`, the least index `i >= from` where `sub` occurs,
      or -1. */
  function FindFrom(s: string, sub: string, from: nat): (r: int)
    ensures r == -1 || (from <= r && OccursAt(s, sub, r))
    ensures r == -1 ==> forall i :: from <= i ==> !OccursAt(s, sub, i)
    ensures r != -1 ==> forall i :: from <= i < r ==> !OccursAt(s, sub, i)
    decreases |s| - from
  {
    if from + |sub| > |s| then -1
    else if s[from..from + |sub|] == sub then from
    else FindFrom(s, sub, from + 1)
  }

  /** `s.find(sub)`. */
  function Find(s: string, sub: string): int {
    FindFrom(s, sub, 0)
  }

  /** `sub in s` (substring containment). */
  predicate Contains(s: string, sub: string) {
    Find(s, sub) != -1
  }

  lemma ContainsIff(s: string, sub: string)
    ensures Contains(s, sub) <==> exists i :: OccursAt(s, sub, i)
  {
  }

  /** A slice bound after Python's normalisation: a negative bound counts
      from the end, then the bound is clamped to `0..|s|`. */
  function SliceBound(len: nat, b: int): (r: nat)
    ensures r <= len
  {
    if b < 0 then (if len + b < 0 then 0 else len + b) else if b > len then len else b
  }

  /** `s[a:b]`. */
  function Slice(s: string, a: int, b: int): (r: string)
    ensures |r| <= |s|
  {
    var lo, hi := SliceBound(|s|, a), SliceBound(|s|, b);
    if lo < hi then s[lo..hi] else []
  }

  /** `s.endswith(suffix)`. */
  predicate EndsWith(s: string, suffix: string) {
    |suffix| <= |s| && s[|s| - |suffix|..] == suffix
  }

  /** Python's `<` on strings: code-point lexicographic order. */
  predicate LexLess(a: string, b: string)
    decreases |a|
  {
    if a == [] then b != []
    else if b == [] then false
    else if a[0] != b[0] then a[0] < b[0]
    else LexLess(a[1..], b[1..])
  }

  lemma {:induction false} LexLessIrreflexive(a: string)
    ensures !LexLess(a, a)
    decreases |a|
  {
    if a != [] { LexLessIrreflexive(a[1..]); }
  }

  lemma {:induction false} LexLessTransitive(a: string, b: string, c: string)
    requires LexLess(a, b) && LexLess(b, c)
    ensures LexLess(a, c)
    decreases |a|
  {
    if a != [] && b != [] && c != [] && a[0] == b[0] && b[0] == c[0] {
      LexLessTransitive(a[1..], b[1..], c[1..]);
    }
  }

  lemma {:induction false} LexLessTotal(a: string, b: string)
    requires a != b
    ensures LexLess(a, b) || LexLess(b, a)
    decreases |a|
  {
    if a != [] && b != [] && a[0] == b[0] {
      assert a == [a[0]] + a[1..] && b == [b[0]] + b[1..];
      LexLessTotal(a[1..], b[1..]);
    }
  }
}
