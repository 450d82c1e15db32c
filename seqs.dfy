/** Order-preserving filtering and the subsequence relation, as used by `Array.prototype.filter`. */
module Seqs {

  /** `a` can be obtained from `b` by deleting elements (order is kept). */
  predicate IsSubseq<T(==)>(a: seq<T>, b: seq<T>)
    decreases |b|
  {
    a == [] || (b != [] && ((a[0] == b[0] && IsSubseq(a[1..], b[1..])) || IsSubseq(a, b[1..])))
  }

  /** The elements of `s` that satisfy `p`, in their original order. */
  function Filter<T>(s: seq<T>, p: T -> bool): (r: seq<T>)
    ensures |r| <= |s|
    ensures forall x :: x in r ==> x in s && p(x)
    ensures forall x :: x in s && p(x) ==> x in r
  {
    if s == [] then []
    else if p(s[0]) then [s[0]] + Filter(s[1..], p)
    else Filter(s[1..], p)
  }

  /** The filter of the suffix `s[i..]`, walked by index; it evaluates step by step on a
      sequence written out element by element. */
  function FilterFrom<T>(s: seq<T>, p: T -> bool, i: nat): seq<T>
    requires i <= |s|
    decreases |s| - i
  {
    if i == |s| then []
    else if p(s[i]) then [s[i]] + FilterFrom(s, p, i + 1)
    else FilterFrom(s, p, i + 1)
  }

  lemma {:induction false} FilterFromIsFilter<T>(s: seq<T>, p: T -> bool, i: nat)
    requires i <= |s|
    ensures FilterFrom(s, p, i) == Filter(s[i..], p)
    decreases |s| - i
  {
    if i < |s| {
      FilterFromIsFilter(s, p, i + 1);
      assert s[i..][0] == s[i];
      assert s[i..][1..] == s[i + 1..];
    }
  }

  /** The filter deletes elements but never reorders the ones it keeps. */
  lemma {:induction false} FilterIsSubseq<T>(s: seq<T>, p: T -> bool)
    ensures IsSubseq(Filter(s, p), s)
  {
    if s != [] {
      FilterIsSubseq(s[1..], p);
      var r := Filter(s, p);
      if p(s[0]) {
        assert r[0] == s[0] && r[1..] == Filter(s[1..], p);
      }
    }
  }

  /** Number of elements of `s` that satisfy `p`. */
  function CountIf<T>(s: seq<T>, p: T -> bool): nat {
    if s == [] then 0 else (if p(s[0]) then 1 else 0) + CountIf(s[1..], p)
  }

  /** The filter keeps exactly as many elements as satisfy the predicate. */
  lemma {:induction false} FilterLength<T>(s: seq<T>, p: T -> bool)
    ensures |Filter(s, p)| == CountIf(s, p)
  {
    if s != [] {
      FilterLength(s[1..], p);
    }
  }

  /** A filter whose predicate holds everywhere changes nothing. */
  lemma {:induction false} FilterKeepsAll<T>(s: seq<T>, p: T -> bool)
    requires forall i :: 0 <= i < |s| ==> p(s[i])
    ensures Filter(s, p) == s
  {
    if s != [] {
      FilterKeepsAll(s[1..], p);
    }
  }

  /** Filtering twice is filtering once by the conjunction. */
  lemma {:induction false} FilterFilter<T>(s: seq<T>, p: T -> bool, q: T -> bool, pq: T -> bool)
    requires forall x :: pq(x) == (p(x) && q(x))
    ensures Filter(Filter(s, p), q) == Filter(s, pq)
  {
    if s != [] {
      FilterFilter(s[1..], p, q, pq);
    }
  }

  /** A predicate and its negation split a sequence: every element lands in exactly one part. */
  lemma {:induction false} FilterPartition<T>(s: seq<T>, p: T -> bool, notP: T -> bool)
    requires forall x :: notP(x) == !p(x)
    ensures |Filter(s, p)| + |Filter(s, notP)| == |s|
    ensures forall x :: x in Filter(s, p) ==> x !in Filter(s, notP)
  {
    if s != [] {
      FilterPartition(s[1..], p, notP);
    }
  }

  /** Elementwise image of a sequence (JavaScript's `Array.prototype.map`). */
  function Map<T, U>(s: seq<T>, f: T -> U): (r: seq<U>)
    ensures |r| == |s|
    ensures forall i :: 0 <= i < |s| ==> r[i] == f(s[i])
  {
    seq(|s|, i requires 0 <= i < |s| => f(s[i]))
  }

  /** Filtering an image is the image of filtering by the composed predicate. */
  lemma {:induction false} FilterMap<T, U>(s: seq<T>, f: T -> U, p: U -> bool, pf: T -> bool)
    requires forall x :: pf(x) == p(f(x))
    ensures Filter(Map(s, f), p) == Map(Filter(s, pf), f)
  {
    if s != [] {
      var fs := Map(s, f);
      var rest := Filter(s[1..], pf);
      FilterMap(s[1..], f, p, pf);
      assert fs[1..] == Map(s[1..], f);
      assert Filter(fs[1..], p) == Map(rest, f);
      if pf(s[0]) {
        assert Filter(fs, p) == [f(s[0])] + Map(rest, f);
        MapCons(s[0], rest, f);
      } else {
        assert Filter(fs, p) == Map(rest, f);
      }
    }
  }

  lemma MapCons<T, U>(x: T, t: seq<T>, f: T -> U)
    ensures Map([x] + t, f) == [f(x)] + Map(t, f)
  {
    var l := Map([x] + t, f);
    var r := [f(x)] + Map(t, f);
    assert |l| == |r|;
    forall i | 0 <= i < |l| ensures l[i] == r[i] {
      if i > 0 {
        assert ([x] + t)[i] == t[i - 1];
      }
    }
  }

  /** No element occurs twice. */
  predicate Distinct<T(==)>(s: seq<T>) {
    forall i, j :: 0 <= i < j < |s| ==> s[i] != s[j]
  }

  /** `IsSubseq` is transitive. */
  lemma {:induction false} IsSubseqTrans<T>(a: seq<T>, b: seq<T>, c: seq<T>)
    requires IsSubseq(a, b) && IsSubseq(b, c)
    ensures IsSubseq(a, c)
    decreases |c|
  {
    if a != [] {
      assert b != [] && c != [];
      if b[0] == c[0] && IsSubseq(b[1..], c[1..]) {
        if a[0] == b[0] && IsSubseq(a[1..], b[1..]) {
          IsSubseqTrans(a[1..], b[1..], c[1..]);
        } else {
          IsSubseqTrans(a, b[1..], c[1..]);
        }
      } else {
        IsSubseqTrans(a, b, c[1..]);
      }
    }
  }

  /** Every sequence is a subsequence of itself. */
  lemma {:induction false} IsSubseqRefl<T>(a: seq<T>)
    ensures IsSubseq(a, a)
    decreases |a|
  {
    if a != [] {
      IsSubseqRefl(a[1..]);
    }
  }

  /** A prefix is a subsequence. */
  lemma {:induction false} PrefixIsSubseq<T>(a: seq<T>, n: nat)
    requires n <= |a|
    ensures IsSubseq(a[..n], a)
    decreases |a|
  {
    if n > 0 {
      PrefixIsSubseq(a[1..], n - 1);
      assert a[..n][1..] == a[1..][..n - 1];
    }
  }

  /** A subsequence only holds elements of the larger sequence. */
  lemma {:induction false} IsSubseqMembers<T>(a: seq<T>, b: seq<T>)
    requires IsSubseq(a, b)
    ensures forall x :: x in a ==> x in b
    decreases |b|
  {
    if a != [] {
      if a[0] == b[0] && IsSubseq(a[1..], b[1..]) {
        IsSubseqMembers(a[1..], b[1..]);
        assert forall x :: x in a ==> x == a[0] || x in a[1..];
      } else {
        IsSubseqMembers(a, b[1..]);
      }
    }
  }

  /** `s.slice(0, end)`: a negative end counts back from the length. */
  function SliceTo<T>(s: seq<T>, end: int): (r: seq<T>)
    ensures end >= 0 ==> |r| == if end <= |s| then end else |s|
    ensures end < 0 ==> |r| == if |s| + end >= 0 then |s| + end else 0
    ensures r == s[..|r|]
  {
    var stop := if end < 0 then (if |s| + end >= 0 then |s| + end else 0) else (if end <= |s| then end else |s|);
    s[..stop]
  }

  /** The set of images of the elements (`new Set(s.map(f))`). */
  function Values<T, U>(s: seq<T>, f: T -> U): set<U> {
    if s == [] then {} else {f(s[0])} + Values(s[1..], f)
  }

  /** The set of images holds the image of every element, nothing else, and has at most as many
      members as the sequence has elements (at least one when it is not empty). */
  lemma {:induction false} ValuesSpec<T, U>(s: seq<T>, f: T -> U)
    ensures |Values(s, f)| <= |s|
    ensures s != [] ==> |Values(s, f)| >= 1
    ensures forall i :: 0 <= i < |s| ==> f(s[i]) in Values(s, f)
    ensures forall y :: y in Values(s, f) ==> exists i :: 0 <= i < |s| && f(s[i]) == y
  {
    if s != [] {
      ValuesSpec(s[1..], f);
      var rest := Values(s[1..], f);
      forall i | 1 <= i < |s| ensures f(s[i]) in rest {
        assert s[i] == s[1..][i - 1];
      }
      forall y | y in rest ensures exists i :: 0 <= i < |s| && f(s[i]) == y {
        var j :| 0 <= j < |s[1..]| && f(s[1..][j]) == y;
        assert f(s[j + 1]) == y;
      }
    }
  }

  /** `s[..p] + [x] + s[p..]`: `x` lands at `p` and the rest shift by one. */
  lemma InsertAt<T>(s: seq<T>, p: nat, x: T)
    requires p <= |s|
    ensures |s[..p] + [x] + s[p..]| == |s| + 1
    ensures (s[..p] + [x] + s[p..])[p] == x
    ensures forall i :: 0 <= i < p ==> (s[..p] + [x] + s[p..])[i] == s[i]
    ensures forall i :: p < i <= |s| ==> (s[..p] + [x] + s[p..])[i] == s[i - 1]
  {
  }

  /** Inserting `x` adds exactly `x` to the members, and keeps the elements distinct when `x` is new. */
  lemma InsertAtMembers<T>(s: seq<T>, p: nat, x: T)
    requires p <= |s|
    ensures forall y :: y in s[..p] + [x] + s[p..] <==> y == x || y in s
    ensures Distinct(s) && x !in s ==> Distinct(s[..p] + [x] + s[p..])
  {
    InsertAt(s, p, x);
    var t := s[..p] + [x] + s[p..];
    forall y | y in s ensures y in t {
      var i :| 0 <= i < |s| && s[i] == y;
      if i < p { assert t[i] == y; } else { assert t[i + 1] == y; }
    }
    forall y | y in t ensures y == x || y in s {
      var i :| 0 <= i < |t| && t[i] == y;
      if i < p { assert s[i] == y; } else if i > p { assert s[i - 1] == y; }
    }
    if Distinct(s) && x !in s {
      forall i, j | 0 <= i < j < |t| ensures t[i] != t[j] {
        if i == p || j == p {
        } else {
          var i' := if i < p then i else i - 1;
          var j' := if j < p then j else j - 1;
          assert t[i] == s[i'] && t[j] == s[j'];
        }
      }
    }
  }

  /** Filtering distributes over concatenation. */
  lemma {:induction false} FilterConcat<T>(a: seq<T>, b: seq<T>, p: T -> bool)
    ensures Filter(a + b, p) == Filter(a, p) + Filter(b, p)
    decreases |a|
  {
    if a == [] {
      assert a + b == b;
    } else {
      FilterConcat(a[1..], b, p);
      assert (a + b)[0] == a[0];
      assert (a + b)[1..] == a[1..] + b;
    }
  }

  /** Filtering keeps the elements distinct. */
  lemma {:induction false} FilterDistinct<T>(s: seq<T>, p: T -> bool)
    ensures Distinct(s) ==> Distinct(Filter(s, p))
  {
    if s != [] && Distinct(s) {
      assert Distinct(s[1..]);
      FilterDistinct(s[1..], p);
      var rest := Filter(s[1..], p);
      if p(s[0]) {
        assert s[0] !in s[1..];
        assert s[0] !in rest;
        var r := [s[0]] + rest;
        forall i, j | 0 <= i < j < |r| ensures r[i] != r[j] {
          if i == 0 {
            assert r[j] == rest[j - 1];
          } else {
            assert r[i] == rest[i - 1] && r[j] == rest[j - 1];
          }
        }
      }
    }
  }

  /** A list that holds, position by position, the values under a list of all the keys holds
      exactly the values of the map. */
  lemma ListedValues<K, V>(m: map<K, V>, r: seq<V>, ks: seq<K>)
    requires |r| == |ks|
    requires forall k :: k in ks <==> k in m
    requires forall i :: 0 <= i < |r| ==> ks[i] in m && r[i] == m[ks[i]]
    ensures forall v :: v in r <==> v in m.Values
  {
    forall v | v in m.Values ensures v in r {
      var k :| k in m && m[k] == v;
      var i :| 0 <= i < |ks| && ks[i] == k;
      assert r[i] == v;
    }
  }
}
