/**
 * The array pipeline the store's queries are built from: `filter`, a stable `sort`
 * (newest first by a timestamp, or ascending by a name) and `slice(0, limit)`.
 */
module Lists {

  /** `r` is `s` with some elements left out, the others in their original order. */
  ghost predicate Subsequence<T>(r: seq<T>, s: seq<T>)
    decreases |s|
  {
    if r == [] then true
    else if s == [] then false
    else if r[0] == s[0] then Subsequence(r[1..], s[1..])
    else Subsequence(r, s[1..])
  }

  /** `s.filter(p)`: the elements satisfying `p`, in their original order. */
  function Filter<T(!new)>(s: seq<T>, p: T -> bool): (r: seq<T>)
    ensures |r| <= |s|
    ensures forall x :: x in r <==> x in s && p(x)
    ensures forall i :: 0 <= i < |r| ==> p(r[i])
    ensures multiset(r) <= multiset(s)
  {
    if s == [] then []
    else
      assert s == [s[0]] + s[1..];
      (if p(s[0]) then [s[0]] else []) + Filter(s[1..], p)
  }

  /**
   * `Filter` keeps the order of `s`, and holds an element exactly as often as `s` does
   * when it satisfies `p`, and never otherwise.
   */
  lemma {:induction false} FilterSelects<T(!new)>(s: seq<T>, p: T -> bool)
    ensures Subsequence(Filter(s, p), s)
    ensures Selects(Filter(s, p), s, p)
    decreases |s|
  {
    if s != [] {
      assert s == [s[0]] + s[1..];
      var rest := Filter(s[1..], p);
      FilterSelects(s[1..], p);
      if p(s[0]) {
        assert Filter(s, p) == [s[0]] + rest;
        assert ([s[0]] + rest)[1..] == rest;
      } else {
        assert Filter(s, p) == rest;
        assert rest == [] || rest[0] != s[0];
      }
    }
  }

  lemma {:induction false} SubsequenceOfItself<T>(s: seq<T>)
    ensures Subsequence(s, s)
    decreases |s|
  {
    if s != [] {
      SubsequenceOfItself(s[1..]);
    }
  }

  /** A subsequence holds each element at most as often as the whole. */
  lemma {:induction false} SubsequenceMultiset<T>(r: seq<T>, s: seq<T>)
    requires Subsequence(r, s)
    ensures multiset(r) <= multiset(s)
    decreases |s|
  {
    if r != [] {
      assert s == [s[0]] + s[1..];
      if r[0] == s[0] {
        SubsequenceMultiset(r[1..], s[1..]);
        assert r == [r[0]] + r[1..];
      } else {
        SubsequenceMultiset(r, s[1..]);
      }
    }
  }

  /**
   * The contract of `Filter` pins it down: an in-order selection of `s` holding each
   * element as often as `s` does when it satisfies `p`, and never otherwise, is `Filter(s, p)`.
   */
  lemma {:induction false} FilterUnique<T(!new)>(s: seq<T>, p: T -> bool, r: seq<T>)
    requires Subsequence(r, s) && Selects(r, s, p)
    ensures r == Filter(s, p)
    decreases |s|
  {
    if s != [] {
      if p(s[0]) {
        FirstSelected(s, p, r);
        FilterUnique(s[1..], p, r[1..]);
        KeptHead(s, p, r);
      } else {
        SkipRejected(s, p, r);
        FilterUnique(s[1..], p, r);
        FilterCons(s, p);
      }
    }
  }

  lemma KeptHead<T(!new)>(s: seq<T>, p: T -> bool, r: seq<T>)
    requires s != [] && p(s[0]) && r != [] && r[0] == s[0] && r[1..] == Filter(s[1..], p)
    ensures r == Filter(s, p)
  {
    FilterCons(s, p);
    assert r == [s[0]] + r[1..];
  }

  /** `r` holds each element satisfying `p` as often as `s` does, and no other. */
  ghost predicate Selects<T(!new)>(r: seq<T>, s: seq<T>, p: T -> bool) {
    forall x :: multiset(r)[x] == if p(x) then multiset(s)[x] else 0
  }

  lemma FilterCons<T(!new)>(s: seq<T>, p: T -> bool)
    requires s != []
    ensures Filter(s, p) == if p(s[0]) then [s[0]] + Filter(s[1..], p) else Filter(s[1..], p)
  {
  }

  /** A selection holding `s[0]` as often as `s` does starts with it. */
  lemma FirstSelected<T(!new)>(s: seq<T>, p: T -> bool, r: seq<T>)
    requires s != [] && p(s[0]) && Subsequence(r, s) && Selects(r, s, p)
    ensures r != [] && r[0] == s[0] && Subsequence(r[1..], s[1..]) && Selects(r[1..], s[1..], p)
  {
    var t := s[1..];
    assert s == [s[0]] + t;
    assert multiset(r)[s[0]] == multiset(t)[s[0]] + 1;
    assert r != [];
    if r[0] != s[0] {
      SubsequenceMultiset(r, t);
      assert false;
    }
    assert r == [r[0]] + r[1..];
    forall x ensures multiset(r[1..])[x] == if p(x) then multiset(t)[x] else 0 {
      assert multiset(r)[x] == multiset(r[1..])[x] + (if x == s[0] then 1 else 0);
      assert multiset(s)[x] == multiset(t)[x] + (if x == s[0] then 1 else 0);
    }
  }

  /** A selection of elements satisfying `p` passes over an `s[0]` that does not. */
  lemma SkipRejected<T(!new)>(s: seq<T>, p: T -> bool, r: seq<T>)
    requires s != [] && !p(s[0]) && Subsequence(r, s) && Selects(r, s, p)
    ensures Subsequence(r, s[1..]) && Selects(r, s[1..], p)
  {
    var t := s[1..];
    assert s == [s[0]] + t;
    if r != [] {
      assert multiset(r)[r[0]] > 0;
    }
    forall x ensures multiset(r)[x] == if p(x) then multiset(t)[x] else 0 {
      assert multiset(s)[x] == multiset(t)[x] + (if x == s[0] then 1 else 0);
    }
  }

  /** Arrays with the same elements have equally long filters. */
  lemma FilterPermutation<T(!new)>(a: seq<T>, b: seq<T>, p: T -> bool)
    requires multiset(a) == multiset(b)
    ensures |Filter(a, p)| == |Filter(b, p)|
  {
    FilterSelects(a, p);
    FilterSelects(b, p);
    assert multiset(Filter(a, p)) == multiset(Filter(b, p));
    assert |Filter(a, p)| == |multiset(Filter(a, p))|;
  }

  /** Filtering distributes over concatenation. */
  lemma {:induction false} FilterAppend<T(!new)>(a: seq<T>, b: seq<T>, p: T -> bool)
    ensures Filter(a + b, p) == Filter(a, p) + Filter(b, p)
  {
    if a == [] {
      assert a + b == b;
    } else {
      assert (a + b)[1..] == a[1..] + b;
      FilterAppend(a[1..], b, p);
    }
  }

  /** `s.slice(0, n)` for a limit `n >= 0`: the first `n` elements, or all of them. */
  function Take<T>(s: seq<T>, n: nat): (r: seq<T>)
    ensures |r| == if n < |s| then n else |s|
    ensures forall i :: 0 <= i < |r| ==> r[i] == s[i]
  {
    if n < |s| then s[..n] else s
  }

  // ---- Newest first, by an integer timestamp ----

  /** No element is newer than one placed before it. */
  ghost predicate NewestFirstOrder<T>(s: seq<T>, ts: T -> int) {
    forall i, j :: 0 <= i < j < |s| ==> ts(s[i]) >= ts(s[j])
  }

  /**
   * Places `x` in front of the first element that is not newer than it, so that among
   * equal timestamps `x` (which came earlier in the input) stays in front.
   */
  function InsertNewestFirst<T>(x: T, s: seq<T>, ts: T -> int): (r: seq<T>)
    requires NewestFirstOrder(s, ts)
    ensures NewestFirstOrder(r, ts)
    ensures multiset(r) == multiset(s) + multiset{x}
  {
    if s == [] || ts(s[0]) <= ts(x) then
      PrependNewest(x, s, ts);
      [x] + s
    else
      var rest := InsertNewestFirst(x, s[1..], ts);
      assert s == [s[0]] + s[1..];
      InsertedElements(x, s, rest);
      PrependNewest(s[0], rest, ts);
      [s[0]] + rest
  }

  /** The elements of `s[1..]` with `x` inserted are `x` and those of `s[1..]`. */
  lemma InsertedElements<T>(x: T, s: seq<T>, rest: seq<T>)
    requires s != [] && multiset(rest) == multiset(s[1..]) + multiset{x}
    ensures forall y :: y in rest ==> y == x || exists j :: 1 <= j < |s| && s[j] == y
  {
    forall y | y in rest ensures y == x || exists j :: 1 <= j < |s| && s[j] == y {
      assert y in multiset(rest);
      if y != x {
        assert y in multiset(s[1..]);
        var j :| 0 <= j < |s| - 1 && s[1..][j] == y;
        assert s[j + 1] == y;
      }
    }
  }

  /** An element no older than everything in a newest-first sequence can go in front of it. */
  lemma PrependNewest<T>(h: T, rest: seq<T>, ts: T -> int)
    requires NewestFirstOrder(rest, ts) && forall y :: y in rest ==> ts(h) >= ts(y)
    ensures NewestFirstOrder([h] + rest, ts)
  {
    var r := [h] + rest;
    forall i, j | 0 <= i < j < |r| ensures ts(r[i]) >= ts(r[j]) {
      assert r[j] == rest[j - 1];
      if i > 0 {
        assert r[i] == rest[i - 1];
      }
    }
  }

  /** `s.sort((a, b) => ts(b) - ts(a))` with JavaScript's stable sort: newest first. */
  function SortNewestFirst<T>(s: seq<T>, ts: T -> int): (r: seq<T>)
    ensures NewestFirstOrder(r, ts)
    ensures multiset(r) == multiset(s)
  {
    if s == [] then []
    else
      assert s == [s[0]] + s[1..];
      InsertNewestFirst(s[0], SortNewestFirst(s[1..], ts), ts)
  }

  /**
   * `s.sort(newest first).slice(0, limit)`: the `limit` newest elements, newest first.
   * Whatever is cut off is no newer than anything kept.
   */
  function NewestFirst<T(!new)>(s: seq<T>, ts: T -> int, limit: nat): (r: seq<T>)
    ensures |r| == if limit < |s| then limit else |s|
    ensures NewestFirstOrder(r, ts)
    ensures multiset(r) <= multiset(s)
    ensures forall x, y :: x in multiset(s) - multiset(r) && y in r ==> ts(x) <= ts(y)
  {
    var sorted := SortNewestFirst(s, ts);
    var r := Take(sorted, limit);
    CutOffNoNewer(sorted, |r|, ts);
    assert r == sorted[..|r|];
    r
  }

  /** In a newest-first sequence, nothing after the first `n` elements is newer than them. */
  lemma CutOffNoNewer<T>(sorted: seq<T>, n: nat, ts: T -> int)
    requires NewestFirstOrder(sorted, ts) && n <= |sorted|
    ensures multiset(sorted[..n]) <= multiset(sorted)
    ensures forall x, y :: x in multiset(sorted) - multiset(sorted[..n]) && y in sorted[..n] ==> ts(x) <= ts(y)
  {
    var r, rest := sorted[..n], sorted[n..];
    assert sorted == r + rest;
    assert multiset(sorted) == multiset(r) + multiset(rest);
    forall x, y | x in multiset(sorted) - multiset(r) && y in r ensures ts(x) <= ts(y) {
      assert x in multiset(rest);
      var j :| 0 <= j < |rest| && rest[j] == x;
      var i :| 0 <= i < |r| && r[i] == y;
      assert sorted[i] == y && sorted[n + j] == x;
    }
  }

  // ---- Ascending by name ----

  /** Lexicographic order on strings by character code (a prefix comes first). */
  predicate LexLe(a: string, b: string) {
    a == [] || (b != [] && (a[0] < b[0] || (a[0] == b[0] && LexLe(a[1..], b[1..]))))
  }

  lemma {:induction false} LexLeTotal(a: string, b: string)
    ensures LexLe(a, b) || LexLe(b, a)
  {
    if a != [] && b != [] && a[0] == b[0] {
      LexLeTotal(a[1..], b[1..]);
    }
  }

  lemma {:induction false} LexLeTransitive(a: string, b: string, c: string)
    requires LexLe(a, b) && LexLe(b, c)
    ensures LexLe(a, c)
  {
    if a != [] && b != [] && c != [] && a[0] == b[0] == c[0] {
      LexLeTransitive(a[1..], b[1..], c[1..]);
    }
  }

  /** Every element's name is at most the names after it. */
  ghost predicate NameOrder<T>(s: seq<T>, name: T -> string) {
    forall i, j :: 0 <= i < j < |s| ==> LexLe(name(s[i]), name(s[j]))
  }

  /** Places `x` in front of the first element whose name is not below it (stable). */
  function InsertByName<T>(x: T, s: seq<T>, name: T -> string): (r: seq<T>)
    requires NameOrder(s, name)
    ensures NameOrder(r, name)
    ensures multiset(r) == multiset(s) + multiset{x}
  {
    if s == [] || LexLe(name(x), name(s[0])) then
      forall y | y in s ensures LexLe(name(x), name(y)) {
        var j :| 0 <= j < |s| && s[j] == y;
        if j > 0 { LexLeTransitive(name(x), name(s[0]), name(s[j])); }
      }
      PrependByName(x, s, name);
      [x] + s
    else
      var rest := InsertByName(x, s[1..], name);
      assert s == [s[0]] + s[1..];
      LexLeTotal(name(x), name(s[0]));
      InsertedElements(x, s, rest);
      PrependByName(s[0], rest, name);
      [s[0]] + rest
  }

  /** An element whose name is at most every name of a name-ordered sequence can go in front. */
  lemma PrependByName<T>(h: T, rest: seq<T>, name: T -> string)
    requires NameOrder(rest, name) && forall y :: y in rest ==> LexLe(name(h), name(y))
    ensures NameOrder([h] + rest, name)
  {
    var r := [h] + rest;
    forall i, j | 0 <= i < j < |r| ensures LexLe(name(r[i]), name(r[j])) {
      assert r[j] == rest[j - 1];
      if i > 0 {
        assert r[i] == rest[i - 1];
      }
    }
  }

  /** `s.sort((a, b) => name(a).localeCompare(name(b)))`, with character-code order. */
  function SortByName<T>(s: seq<T>, name: T -> string): (r: seq<T>)
    ensures NameOrder(r, name)
    ensures multiset(r) == multiset(s)
  {
    if s == [] then []
    else
      assert s == [s[0]] + s[1..];
      InsertByName(s[0], SortByName(s[1..], name), name)
  }

  /** `s.find(p)`: the first element satisfying `p`, if any. */
  function Find<T>(s: seq<T>, p: T -> bool): (r: nat)
    ensures r <= |s|
    ensures forall i :: 0 <= i < r ==> !p(s[i])
    ensures r < |s| ==> p(s[r])
  {
    if s == [] then 0
    else if p(s[0]) then 0
    else 1 + Find(s[1..], p)
  }

  /** Two sequences with the same multiset hold the same elements. */
  lemma SameElements<T>(a: seq<T>, b: seq<T>)
    requires multiset(a) == multiset(b)
    ensures forall x :: x in a <==> x in b
  {
    forall x ensures x in a <==> x in b {
      assert x in a <==> x in multiset(a);
      assert x in b <==> x in multiset(b);
    }
  }
}
