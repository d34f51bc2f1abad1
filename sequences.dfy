/** The array operations the components use on their lists: `filter`, `find`, index-based
    `map`/`filter`, and a sort on a copy. */
module Sequences {
  import opened Wrappers

  /** `a` is `b` with some elements deleted and the rest kept in their order. */
  predicate IsSubsequence<T(==)>(a: seq<T>, b: seq<T>)
    decreases |b|
  {
    if b == [] then a == []
    else (a != [] && a[0] == b[0] && IsSubsequence(a[1..], b[1..])) || IsSubsequence(a, b[1..])
  }

  /** `Array.prototype.filter`: the elements satisfying `p`, in their original order. */
  function Filter<T(==,!new)>(p: T -> bool, s: seq<T>): (r: seq<T>)
    ensures |r| <= |s|
    ensures forall x :: x in r <==> x in s && p(x)
    ensures forall x :: multiset(r)[x] == if p(x) then multiset(s)[x] else 0
    ensures IsSubsequence(r, s)
  {
    if s == [] then []
    else
      assert s == [s[0]] + s[1..];
      if p(s[0]) then [s[0]] + Filter(p, s[1..]) else Filter(p, s[1..])
  }

  /** A filter whose predicate holds everywhere gives back the whole sequence. */
  lemma {:induction false} FilterKeepsAll<T(!new)>(p: T -> bool, s: seq<T>)
    requires forall i :: 0 <= i < |s| ==> p(s[i])
    ensures Filter(p, s) == s
  {
    if s != [] {
      FilterKeepsAll(p, s[1..]);
    }
  }

  /** Two sequences that agree on which positions pass and on every passing element filter alike. */
  lemma {:induction false} FilterAgrees<T(!new)>(p: T -> bool, r: seq<T>, s: seq<T>)
    requires |r| == |s|
    requires forall i :: 0 <= i < |s| ==> p(r[i]) == p(s[i]) && (p(s[i]) ==> r[i] == s[i])
    ensures Filter(p, r) == Filter(p, s)
  {
    if s != [] {
      FilterAgrees(p, r[1..], s[1..]);
    }
  }

  /** `Array.prototype.findIndex`, with "not found" as `None`. */
  function FindIndex<T>(p: T -> bool, s: seq<T>): (r: Option<nat>)
    ensures r.Some? ==> r.value < |s| && p(s[r.value]) && forall j :: 0 <= j < r.value ==> !p(s[j])
    ensures r.None? ==> forall j :: 0 <= j < |s| ==> !p(s[j])
  {
    if s == [] then None
    else if p(s[0]) then Some(0)
    else match FindIndex(p, s[1..])
      case None => None
      case Some(k) => Some(k + 1)
  }

  /** `Array.prototype.find`: the first element satisfying `p`, if any. */
  function Find<T>(p: T -> bool, s: seq<T>): (r: Option<T>)
    ensures r.None? <==> forall j :: 0 <= j < |s| ==> !p(s[j])
    ensures r.Some? ==> exists i :: 0 <= i < |s| && s[i] == r.value && p(s[i]) && forall j :: 0 <= j < i ==> !p(s[j])
  {
    match FindIndex(p, s)
    case None => None
    case Some(i) => Some(s[i])
  }

  /** `find` on a sequence with a known first element. */
  lemma FindCons<T>(p: T -> bool, x: T, s: seq<T>)
    ensures Find(p, [x] + s) == if p(x) then Some(x) else Find(p, s)
  {
    assert ([x] + s)[1..] == s;
    assert ([x] + s)[0] == x;
    if !p(x) {
      match FindIndex(p, s)
      case None =>
      case Some(k) => assert ([x] + s)[k + 1] == s[k];
    }
  }

  /** `find` returns the element at the first index where the test holds. */
  lemma {:induction false} FindAt<T>(p: T -> bool, s: seq<T>, j: nat)
    requires j < |s| && p(s[j]) && forall k :: 0 <= k < j ==> !p(s[k])
    ensures Find(p, s) == Some(s[j])
  {
    if j > 0 {
      FindAt(p, s[1..], j - 1);
    }
  }

  /** `s.filter((_, j) => j !== i)`: drops the element at position `i`; an `i` out of range drops nothing. */
  function RemoveAt<T>(s: seq<T>, i: int): (r: seq<T>)
    ensures 0 <= i < |s| ==> r == s[..i] + s[i + 1..]
    ensures !(0 <= i < |s|) ==> r == s
    decreases |s|
  {
    if s == [] then []
    else
      var rest := RemoveAt(s[1..], i - 1);
      if i == 0 then rest
      else if i < |s| && 0 < i then
        assert s[1..][..i - 1] == s[1..i] && s[1..][i..] == s[i + 1..];
        assert [s[0]] + s[1..i] == s[..i];
        [s[0]] + rest
      else
        assert [s[0]] + s[1..] == s;
        [s[0]] + rest
  }

  /** `s.map((x, j) => j === i ? f(x) : x)`: changes only position `i`; an `i` out of range changes nothing. */
  function UpdateAt<T>(s: seq<T>, i: int, f: T -> T): (r: seq<T>)
    ensures |r| == |s|
    ensures 0 <= i < |s| ==> r == s[i := f(s[i])]
    ensures !(0 <= i < |s|) ==> r == s
  {
    seq(|s|, j requires 0 <= j < |s| => if j == i then f(s[j]) else s[j])
  }

  /** Non-decreasing in `key`. */
  ghost predicate SortedBy<T>(key: T -> int, s: seq<T>) {
    forall i, j :: 0 <= i < j < |s| ==> key(s[i]) <= key(s[j])
  }

  /** Putting `h` in front of a sorted `t` keeps it sorted when `h` is not larger than any element of `t`. */
  lemma SortedCons<T>(key: T -> int, h: T, t: seq<T>)
    requires SortedBy(key, t)
    requires forall k :: 0 <= k < |t| ==> key(h) <= key(t[k])
    ensures SortedBy(key, [h] + t)
  {
    var r := [h] + t;
    forall i, j | 0 <= i < j < |r| ensures key(r[i]) <= key(r[j]) {
      if i > 0 {
        assert r[i] == t[i - 1] && r[j] == t[j - 1];
      } else {
        assert r[j] == t[j - 1];
      }
    }
  }

  /** Inserts `x` after every element whose key is not larger, so that equal keys keep their order. */
  function InsertBy<T>(key: T -> int, x: T, s: seq<T>): (r: seq<T>)
    requires SortedBy(key, s)
    ensures SortedBy(key, r)
    ensures multiset(r) == multiset(s) + multiset{x}
    ensures |r| == |s| + 1
  {
    if s == [] then [x]
    else if key(x) < key(s[0]) then
      SortedCons(key, x, s);
      [x] + s
    else
      var rest := InsertBy(key, x, s[1..]);
      assert s == [s[0]] + s[1..];
      InsertHeadBound(key, x, s, rest);
      SortedCons(key, s[0], rest);
      [s[0]] + rest
  }

  /** Every element of the insertion into `s[1..]` has a key of at least `key(s[0])`. */
  lemma InsertHeadBound<T>(key: T -> int, x: T, s: seq<T>, rest: seq<T>)
    requires s != [] && SortedBy(key, s) && key(s[0]) <= key(x)
    requires multiset(rest) == multiset(s[1..]) + multiset{x}
    ensures forall k :: 0 <= k < |rest| ==> key(s[0]) <= key(rest[k])
  {
    forall k | 0 <= k < |rest| ensures key(s[0]) <= key(rest[k]) {
      assert rest[k] in multiset(rest);
      if rest[k] != x {
        assert rest[k] in multiset(s[1..]);
        var m :| 0 <= m < |s[1..]| && s[1..][m] == rest[k];
        assert s[m + 1] == rest[k];
      }
    }
  }

  /** An insertion sort on a copy: `[...s].sort((a, b) => key(a) - key(b))`. */
  function SortBy<T>(key: T -> int, s: seq<T>): (r: seq<T>)
    ensures SortedBy(key, r)
    ensures multiset(r) == multiset(s)
    ensures |r| == |s|
  {
    if s == [] then []
    else
      var init, last := s[..|s| - 1], s[|s| - 1];
      assert s == init + [last];
      assert multiset(s) == multiset(init) + multiset{last};
      InsertBy(key, last, SortBy(key, init))
  }
}
