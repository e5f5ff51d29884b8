/** `std::sort` with a descending comparison, of which only the order and the contents are
    promised, and sums that do not depend on the order. */
module Sorting {

  ghost predicate Descending<T>(s: seq<T>, key: T -> real) {
    forall i, j :: 0 <= i < j < |s| ==> key(s[i]) >= key(s[j])
  }

  method SortDescending<T>(s: seq<T>, key: T -> real) returns (r: seq<T>)
    ensures Descending(r, key) && multiset(r) == multiset(s) && |r| == |s|
  {
    hide Descending;
    r := [];
    EmptyIsDescending(key);
    for i := 0 to |s|
      invariant Descending(r, key) && multiset(r) == multiset(s[..i]) && |r| == i
    {
      assert s[..i + 1] == s[..i] + [s[i]];
      r := Insert(r, s[i], key);
    }
    assert s[..|s|] == s;
  }

  lemma EmptyIsDescending<T>(key: T -> real)
    ensures Descending([], key)
  {
  }

  method Insert<T>(s: seq<T>, x: T, key: T -> real) returns (r: seq<T>)
    requires Descending(s, key)
    ensures Descending(r, key) && multiset(r) == multiset(s) + multiset{x} && |r| == |s| + 1
  {
    var j := 0;
    while j < |s| && key(s[j]) >= key(x)
      invariant 0 <= j <= |s|
      invariant forall k :: 0 <= k < j ==> key(s[k]) >= key(x)
    {
      j := j + 1;
    }
    r := s[..j] + ([x] + s[j..]);
    InsertedIsDescending(s, j, x, key);
    assert s == s[..j] + s[j..];
    hide Descending;
  }

  lemma InsertedIsDescending<T>(s: seq<T>, j: nat, x: T, key: T -> real)
    requires Descending(s, key) && j <= |s|
    requires forall k :: 0 <= k < j ==> key(s[k]) >= key(x)
    requires j < |s| ==> key(s[j]) < key(x)
    ensures Descending(s[..j] + ([x] + s[j..]), key)
  {
    var r := s[..j] + ([x] + s[j..]);
    forall a, b | 0 <= a < b < |r| ensures key(r[a]) >= key(r[b]) {
      assert r[a] == if a < j then s[a] else if a == j then x else s[a - 1];
      assert r[b] == if b < j then s[b] else if b == j then x else s[b - 1];
      assert j < |s| && j < b ==> key(s[j]) >= key(s[b - 1]);
    }
  }

  // ---------- Sums ----------

  ghost function SumSeq<T>(s: seq<T>, f: T -> real): real {
    if s == [] then 0.0 else f(s[0]) + SumSeq(s[1..], f)
  }

  lemma {:induction false} SumSeqConcat<T>(a: seq<T>, b: seq<T>, f: T -> real)
    ensures SumSeq(a + b, f) == SumSeq(a, f) + SumSeq(b, f)
  {
    if a == [] {
      assert a + b == b;
    } else {
      assert (a + b)[1..] == a[1..] + b;
      SumSeqConcat(a[1..], b, f);
    }
  }

  /** The sum depends on the contents only, so sorting keeps it. */
  lemma {:induction false} SumSeqOfContents<T>(a: seq<T>, b: seq<T>, f: T -> real)
    requires multiset(a) == multiset(b)
    ensures SumSeq(a, f) == SumSeq(b, f)
    decreases |a|
  {
    if a == [] {
      assert |multiset(b)| == 0;
    } else {
      assert a[0] in multiset(a) && a == [a[0]] + a[1..];
      var i :| 0 <= i < |b| && b[i] == a[0];
      var rest := b[..i] + b[i + 1..];
      assert b == b[..i] + ([b[i]] + b[i + 1..]);
      assert multiset(b) == multiset(rest) + multiset{b[i]};
      assert multiset(a) == multiset(a[1..]) + multiset{a[0]};
      var x := a[0];
      assert multiset(a[1..]) == multiset(a) - multiset{x};
      assert multiset(rest) == multiset(b) - multiset{x};
      SumSeqOfContents(a[1..], rest, f);
      SumSeqConcat(b[..i], b[i + 1..], f);
      SumSeqConcat(b[..i], [b[i]] + b[i + 1..], f);
      assert ([b[i]] + b[i + 1..])[1..] == b[i + 1..];
    }
  }

  ghost function SumSet<T>(s: set<T>, f: T -> real): real {
    if s == {} then 0.0 else var x :| x in s; f(x) + SumSet(s - {x}, f)
  }

  lemma {:induction false} SumSetRemove<T>(s: set<T>, f: T -> real, x: T)
    requires x in s
    ensures SumSet(s, f) == f(x) + SumSet(s - {x}, f)
    decreases s
  {
    var y :| y in s && SumSet(s, f) == f(y) + SumSet(s - {y}, f);
    if y != x {
      SumSetRemove(s - {y}, f, x);
      SumSetRemove(s - {x}, f, y);
      assert s - {y} - {x} == s - {x} - {y};
    }
  }

  lemma {:induction false} SumSetSame<T>(s: set<T>, f: T -> real, g: T -> real)
    requires forall x <- s :: f(x) == g(x)
    ensures SumSet(s, f) == SumSet(s, g)
    decreases s
  {
    if s != {} {
      var x :| x in s;
      SumSetRemove(s, f, x);
      SumSetRemove(s, g, x);
      SumSetSame(s - {x}, f, g);
    }
  }

  lemma {:induction false} SumSeqSame<T>(a: seq<T>, b: seq<T>, f: T -> real)
    requires |a| == |b| && forall i :: 0 <= i < |a| ==> f(a[i]) == f(b[i])
    ensures SumSeq(a, f) == SumSeq(b, f)
  {
    if a != [] {
      SumSeqSame(a[1..], b[1..], f);
    }
  }

  lemma {:induction false} SumSetZeros<T>(s: set<T>, t: set<T>, f: T -> real)
    requires t <= s && forall x <- s - t :: f(x) == 0.0
    ensures SumSet(s, f) == SumSet(t, f)
    decreases s
  {
    if s != t {
      assert t < s;
      var x :| x in s && x !in t;
      SumSetRemove(s, f, x);
      SumSetZeros(s - {x}, t, f);
    }
  }
}
