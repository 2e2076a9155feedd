/** Small shared vocabulary: optional values, first-seen key order (the key
    order of a JavaScript object or Python dict that is filled in a loop),
    and the stable sort that `Array.prototype.sort` performs. */
module Common {

  datatype Option<T> = None | Some(value: T)

  /** A payload from the server, kept as it arrived: the reducers that
      store one never look inside. */
  type Json = string

  /** The distinct elements of `ks`, in the order of their first occurrence. */
  function FirstSeen<K(==,!new)>(ks: seq<K>): (r: seq<K>)
    ensures forall x :: x in r <==> x in ks
    ensures Distinct(r)
    ensures |r| <= |ks|
  {
    if ks == [] then []
    else
      var p := FirstSeen(ks[..|ks| - 1]);
      assert ks == ks[..|ks| - 1] + [ks[|ks| - 1]];
      if ks[|ks| - 1] in p then p else p + [ks[|ks| - 1]]
  }

  predicate Distinct<K(==)>(s: seq<K>)
  {
    forall i, j :: 0 <= i < j < |s| ==> s[i] != s[j]
  }

  /** FirstSeen grows by at most one key, at the end, when one more key arrives. */
  lemma FirstSeenSnoc<K(!new)>(ks: seq<K>, k: K)
    ensures FirstSeen(ks + [k]) == if k in ks then FirstSeen(ks) else FirstSeen(ks) + [k]
  {
    assert (ks + [k])[..|ks + [k]| - 1] == ks;
  }

  /** A non-empty sequence is its prefix followed by its last element. */
  lemma LastSplit<T>(s: seq<T>)
    requires s != []
    ensures s[..|s| - 1] + [s[|s| - 1]] == s
  {
  }

  /** `s.filter(p)`: the elements satisfying `p`, in their order. */
  function Filter<T>(s: seq<T>, p: T -> bool): (r: seq<T>)
    ensures |r| <= |s|
    ensures forall i :: 0 <= i < |r| ==> r[i] in s && p(r[i])
    ensures forall i :: 0 <= i < |s| && p(s[i]) ==> s[i] in r
  {
    if s == [] then []
    else
      assert s == s[..|s| - 1] + [s[|s| - 1]];
      Filter(s[..|s| - 1], p) + (if p(s[|s| - 1]) then [s[|s| - 1]] else [])
  }

  lemma FilterSnoc<T>(s: seq<T>, x: T, p: T -> bool)
    ensures Filter(s + [x], p) == Filter(s, p) + (if p(x) then [x] else [])
  {
    assert (s + [x])[..|s|] == s;
  }

  /** Filtering distributes over concatenation. */
  lemma {:induction false} FilterConcat<T>(a: seq<T>, b: seq<T>, p: T -> bool)
    ensures Filter(a + b, p) == Filter(a, p) + Filter(b, p)
    decreases |b|
  {
    if b == [] {
      assert a + b == a;
    } else {
      var b', x := b[..|b| - 1], b[|b| - 1];
      assert a + b == (a + b') + [x];
      assert b == b' + [x];
      FilterConcat(a, b', p);
      FilterSnoc(a + b', x, p);
      FilterSnoc(b', x, p);
    }
  }

  /** A filter every element passes keeps the list as it is. */
  lemma {:induction false} FilterKeepsAll<T>(s: seq<T>, p: T -> bool)
    requires forall i :: 0 <= i < |s| ==> p(s[i])
    ensures Filter(s, p) == s
  {
    if s != [] {
      FilterKeepsAll(s[..|s| - 1], p);
      LastSplit(s);
    }
  }

  /** Filtering a list whose keys are pairwise distinct keeps them distinct. */
  lemma {:induction false} FilterKeysDistinct<T, K>(s: seq<T>, p: T -> bool, key: T -> K)
    requires forall i, j :: 0 <= i < j < |s| ==> key(s[i]) != key(s[j])
    ensures forall i, j :: 0 <= i < j < |Filter(s, p)| ==> key(Filter(s, p)[i]) != key(Filter(s, p)[j])
  {
    if s != [] {
      var rest, x := s[..|s| - 1], s[|s| - 1];
      FilterKeysDistinct(rest, p, key);
      var before := Filter(rest, p);
      var r := Filter(s, p);
      assert r == before + (if p(x) then [x] else []);
      forall i | 0 <= i < |before|
        ensures key(before[i]) != key(x)
      {
        assert before[i] in rest;
        var j :| 0 <= j < |rest| && rest[j] == before[i];
        assert s[j] == rest[j];
      }
      forall i, j | 0 <= i < j < |r|
        ensures key(r[i]) != key(r[j])
      {
        assert i < |before|;
        assert r[i] == before[i];
        if j < |before| {
          assert r[j] == before[j];
          assert key(before[i]) != key(before[j]);
        } else {
          assert r[j] == x;
        }
      }
    }
  }

  // ---------------------------------------------------------------------
  // Stable sorting by a real-valued key

  /** `a` may stand before `b`: ascending or descending by `key`. */
  predicate InOrder<T>(key: T -> real, descending: bool, a: T, b: T)
  {
    if descending then key(a) >= key(b) else key(a) <= key(b)
  }

  predicate SortedBy<T>(s: seq<T>, key: T -> real, descending: bool)
  {
    forall i, j :: 0 <= i < j < |s| ==> InOrder(key, descending, s[i], s[j])
  }

  /** Inserts `x` after every element it does not strictly precede, so that
      equal keys keep their arrival order. */
  function Insert<T>(x: T, s: seq<T>, key: T -> real, descending: bool): (r: seq<T>)
    requires SortedBy(s, key, descending)
    ensures multiset(r) == multiset(s) + multiset{x}
    ensures SortedBy(r, key, descending)
    ensures |r| == |s| + 1
  {
    if s == [] then [x]
    else if !InOrder(key, descending, s[0], x) then
      BeforeAll(x, s, key, descending);
      SortedCons(x, s, key, descending);
      [x] + s
    else
      var rest := Insert(x, s[1..], key, descending);
      assert s == [s[0]] + s[1..];
      HeadBeforeAll(s, x, rest, key, descending);
      SortedCons(s[0], rest, key, descending);
      [s[0]] + rest
  }

  /** An element that the head of a sorted list does not precede precedes all of it. */
  lemma BeforeAll<T>(x: T, s: seq<T>, key: T -> real, descending: bool)
    requires SortedBy(s, key, descending) && s != []
    requires !InOrder(key, descending, s[0], x)
    ensures forall i :: 0 <= i < |s| ==> InOrder(key, descending, x, s[i])
  {
    forall i | 0 <= i < |s|
      ensures InOrder(key, descending, x, s[i])
    {
      if i > 0 {
        assert InOrder(key, descending, s[0], s[i]);
      }
    }
  }

  /** The head of a sorted list precedes the rest with one more element it precedes. */
  lemma HeadBeforeAll<T>(s: seq<T>, x: T, rest: seq<T>, key: T -> real, descending: bool)
    requires SortedBy(s, key, descending) && s != []
    requires InOrder(key, descending, s[0], x)
    requires multiset(rest) == multiset(s[1..]) + multiset{x}
    ensures forall j :: 0 <= j < |rest| ==> InOrder(key, descending, s[0], rest[j])
  {
    forall j | 0 <= j < |rest|
      ensures InOrder(key, descending, s[0], rest[j])
    {
      assert rest[j] in multiset(rest);
      if rest[j] != x {
        assert rest[j] in multiset(s[1..]);
        var k :| 0 <= k < |s[1..]| && s[1..][k] == rest[j];
        assert InOrder(key, descending, s[0], s[k + 1]);
      }
    }
  }

  lemma SortedCons<T>(h: T, s: seq<T>, key: T -> real, descending: bool)
    requires SortedBy(s, key, descending)
    requires forall j :: 0 <= j < |s| ==> InOrder(key, descending, h, s[j])
    ensures SortedBy([h] + s, key, descending)
  {
    var r := [h] + s;
    forall i, j | 0 <= i < j < |r|
      ensures InOrder(key, descending, r[i], r[j])
    {
      if i > 0 {
        assert r[i] == s[i - 1] && r[j] == s[j - 1];
      }
    }
  }

  /** Stable sort: the elements of `s` inserted one after another, left to right. */
  function SortBy<T>(s: seq<T>, key: T -> real, descending: bool): (r: seq<T>)
    ensures SortedBy(r, key, descending)
    ensures multiset(r) == multiset(s)
    ensures |r| == |s|
  {
    if s == [] then []
    else
      assert s == s[..|s| - 1] + [s[|s| - 1]];
      Insert(s[|s| - 1], SortBy(s[..|s| - 1], key, descending), key, descending)
  }

  // ---------------------------------------------------------------------
  // Sums of a real-valued measure over a sequence (a left-to-right reduce)

  /** Ascending with no key twice is strictly ascending. */
  lemma SortedDistinctAscends<T>(s: seq<T>, key: T -> real)
    requires SortedBy(s, key, false)
    requires forall i, j :: 0 <= i < j < |s| ==> key(s[i]) != key(s[j])
    ensures forall i, j :: 0 <= i < j < |s| ==> key(s[i]) < key(s[j])
  {
    forall i, j | 0 <= i < j < |s|
      ensures key(s[i]) < key(s[j])
    {
      assert InOrder(key, false, s[i], s[j]);
    }
  }

  function SumOf<T>(s: seq<T>, f: T -> real): real
  {
    if s == [] then 0.0 else SumOf(s[..|s| - 1], f) + f(s[|s| - 1])
  }

  lemma SumOfSnoc<T>(s: seq<T>, x: T, f: T -> real)
    ensures SumOf(s + [x], f) == SumOf(s, f) + f(x)
  {
    assert (s + [x])[..|s|] == s;
  }

  /** A sum of one value taken `|s|` times. */
  lemma {:induction false} SumOfConstant<T>(s: seq<T>, f: T -> real, c: real)
    requires forall i :: 0 <= i < |s| ==> f(s[i]) == c
    ensures SumOf(s, f) == |s| as real * c
  {
    if s != [] {
      SumOfConstant(s[..|s| - 1], f, c);
    }
  }

  /** Two lists whose elements give the same values, place by place, have
      the same sum. */
  lemma {:induction false} SumOfPointwise<A, B>(s: seq<A>, t: seq<B>, f: A -> real, g: B -> real)
    requires |s| == |t| && forall i :: 0 <= i < |s| ==> f(s[i]) == g(t[i])
    ensures SumOf(s, f) == SumOf(t, g)
  {
    if s != [] {
      SumOfPointwise(s[..|s| - 1], t[..|t| - 1], f, g);
    }
  }

  lemma {:induction false} SumOfConcat<T>(a: seq<T>, b: seq<T>, f: T -> real)
    ensures SumOf(a + b, f) == SumOf(a, f) + SumOf(b, f)
    decreases |b|
  {
    if b == [] {
      assert a + b == a;
    } else {
      assert (a + b)[..|a + b| - 1] == a + b[..|b| - 1];
      SumOfConcat(a, b[..|b| - 1], f);
    }
  }

  /** Reordering does not change a sum. */
  lemma {:induction false} SumOfPermutation<T>(a: seq<T>, b: seq<T>, f: T -> real)
    requires multiset(a) == multiset(b)
    ensures SumOf(a, f) == SumOf(b, f)
    decreases |a|
  {
    if a == [] {
      assert |b| == |multiset(b)| == 0;
    } else {
      var x := a[|a| - 1];
      var a' := a[..|a| - 1];
      assert x in multiset(b) by {
        assert a == a' + [x];
      }
      var j :| 0 <= j < |b| && b[j] == x;
      var b' := Without(b, j);
      WithoutMultiset(a, |a| - 1);
      WithoutMultiset(b, j);
      SumOfPermutation(a', b', f);
      SumOfWithout(b, j, f);
    }
  }

  /** `s` with its element at `j` taken out. */
  function Without<T>(s: seq<T>, j: int): (r: seq<T>)
    requires 0 <= j < |s|
    ensures |r| == |s| - 1
  {
    s[..j] + s[j + 1..]
  }

  lemma WithoutMultiset<T>(s: seq<T>, j: int)
    requires 0 <= j < |s|
    ensures multiset(Without(s, j)) == multiset(s) - multiset{s[j]}
    ensures j == |s| - 1 ==> Without(s, j) == s[..j]
  {
    assert s == s[..j] + [s[j]] + s[j + 1..];
  }

  lemma SumOfWithout<T>(s: seq<T>, j: int, f: T -> real)
    requires 0 <= j < |s|
    ensures SumOf(s, f) == SumOf(Without(s, j), f) + f(s[j])
  {
    var left, right := s[..j], s[j + 1..];
    assert s == left + ([s[j]] + right);
    SumOfConcat(left, [s[j]] + right, f);
    SumOfConcat([s[j]], right, f);
    SumOfConcat(left, right, f);
    SumOfSingle(s[j], f);
  }

  lemma SumOfSingle<T>(x: T, f: T -> real)
    ensures SumOf([x], f) == f(x)
  {
    assert [x][..0] == [];
  }

  // ---------------------------------------------------------------------
  // Distinctness survives reordering

  lemma {:induction false} DistinctCount<T>(s: seq<T>, x: T)
    requires Distinct(s)
    ensures multiset(s)[x] <= 1
    decreases |s|
  {
    if s != [] {
      var s' := s[..|s| - 1];
      assert s == s' + [s[|s| - 1]];
      assert Distinct(s');
      DistinctCount(s', x);
      if x == s[|s| - 1] {
        assert x !in s';
      }
    }
  }

  lemma PermutationDistinct<T>(a: seq<T>, b: seq<T>)
    requires multiset(a) == multiset(b) && Distinct(a)
    ensures Distinct(b)
  {
    forall i, j | 0 <= i < j < |b|
      ensures b[i] != b[j]
    {
      if b[i] == b[j] {
        assert b == b[..i] + [b[i]] + b[i + 1..j] + [b[j]] + b[j + 1..];
        assert multiset(b)[b[i]] >= 2;
        DistinctCount(a, b[i]);
        assert false;
      }
    }
  }

  /** The keys of `r` are distinct when `r` reorders a list whose keys are distinct. */
  lemma PermutationKeysDistinct<V, K>(bs: seq<V>, r: seq<V>, key: V -> K)
    requires multiset(r) == multiset(bs)
    requires forall i, j :: 0 <= i < j < |bs| ==> key(bs[i]) != key(bs[j])
    ensures forall i, j :: 0 <= i < j < |r| ==> key(r[i]) != key(r[j])
  {
    assert Distinct(bs);
    PermutationDistinct(bs, r);
    forall i, j | 0 <= i < j < |r|
      ensures key(r[i]) != key(r[j])
    {
      assert r[i] in multiset(bs) && r[j] in multiset(bs);
      var m1 :| 0 <= m1 < |bs| && bs[m1] == r[i];
      var m2 :| 0 <= m2 < |bs| && bs[m2] == r[j];
      assert m1 != m2;
    }
  }

  // ---------------------------------------------------------------------
  // Strings in JavaScript's default sort order

  /** `a < b` on strings: the first differing character decides, and a
      proper prefix comes first. */
  predicate Precedes(a: string, b: string)
  {
    b != [] && (a == [] || a[0] < b[0] || (a[0] == b[0] && Precedes(a[1..], b[1..])))
  }

  lemma {:induction false} PrecedesIrreflexive(a: string)
    ensures !Precedes(a, a)
  {
    if a != [] {
      PrecedesIrreflexive(a[1..]);
    }
  }

  lemma {:induction false} PrecedesTransitive(a: string, b: string, c: string)
    requires Precedes(a, b) && Precedes(b, c)
    ensures Precedes(a, c)
  {
    if a != [] && a[0] == b[0] && b[0] == c[0] {
      PrecedesTransitive(a[1..], b[1..], c[1..]);
    }
  }

  lemma {:induction false} PrecedesTotal(a: string, b: string)
    requires a != b
    ensures Precedes(a, b) || Precedes(b, a)
  {
    if a != [] && b != [] && a[0] == b[0] {
      assert a == [a[0]] + a[1..] && b == [b[0]] + b[1..];
      PrecedesTotal(a[1..], b[1..]);
    }
  }

  predicate StrictlyAscending(s: seq<string>)
  {
    forall i, j :: 0 <= i < j < |s| ==> Precedes(s[i], s[j])
  }

  /** `x` put in its place in a strictly ascending list, unless present. */
  function InsertText(s: seq<string>, x: string): (r: seq<string>)
    requires StrictlyAscending(s)
    ensures StrictlyAscending(r)
    ensures forall y :: y in r <==> y in s || y == x
  {
    if s == [] then [x]
    else if x == s[0] then s
    else if Precedes(x, s[0]) then
      assert forall j :: 0 < j < |s| ==> Precedes(x, s[j]) by {
        forall j | 0 < j < |s|
          ensures Precedes(x, s[j])
        {
          PrecedesTransitive(x, s[0], s[j]);
        }
      }
      [x] + s
    else
      PrecedesTotal(x, s[0]);
      var rest := InsertText(s[1..], x);
      assert forall y :: y in rest ==> Precedes(s[0], y) by {
        forall y | y in rest
          ensures Precedes(s[0], y)
        {
          if y != x {
            var j :| 0 <= j < |s[1..]| && s[1..][j] == y;
            assert s[j + 1] == y;
          }
        }
      }
      assert forall j :: 0 <= j < |rest| ==> rest[j] in rest;
      [s[0]] + rest
  }

  /** `[...new Set(xs)].sort()`: the distinct strings of `xs` in ascending
      order. */
  function SortedDistinct(xs: seq<string>): (r: seq<string>)
    ensures StrictlyAscending(r)
    ensures forall y :: y in r <==> y in xs
  {
    if xs == [] then []
    else
      var r := InsertText(SortedDistinct(xs[..|xs| - 1]), xs[|xs| - 1]);
      assert forall y :: y in xs <==> y in xs[..|xs| - 1] || y == xs[|xs| - 1] by {
        LastSplit(xs);
      }
      r
  }

  lemma HeadIn<T>(s: seq<T>)
    ensures s != [] ==> s[0] in s
  {
  }

  /** A set of strings has one strictly ascending arrangement, so the
      de-duplicate-then-sort result is fixed by its elements alone. */
  lemma {:induction false} AscendingUnique(a: seq<string>, b: seq<string>)
    requires StrictlyAscending(a) && StrictlyAscending(b)
    requires forall y :: y in a <==> y in b
    ensures a == b
  {
    if a == [] {
      HeadIn(b);
    } else {
      assert a[0] in b;
      assert b[0] in a;
      var k :| 0 <= k < |b| && b[k] == a[0];
      var m :| 0 <= m < |a| && a[m] == b[0];
      if k > 0 {
        assert Precedes(b[0], a[0]);
        if m > 0 {
          assert Precedes(a[0], b[0]);
          PrecedesTransitive(a[0], b[0], a[0]);
        }
        PrecedesIrreflexive(a[0]);
        assert false;
      }
      forall y
        ensures y in a[1..] <==> y in b[1..]
      {
        if y in a[1..] {
          var i :| 0 <= i < |a[1..]| && a[1..][i] == y;
          assert Precedes(a[0], y);
          if y == a[0] {
            PrecedesIrreflexive(y);
          }
          assert y in b;
          var j :| 0 <= j < |b| && b[j] == y;
          assert j != 0;
          assert b[1..][j - 1] == y;
        }
        if y in b[1..] {
          var i :| 0 <= i < |b[1..]| && b[1..][i] == y;
          assert Precedes(b[0], y);
          if y == b[0] {
            PrecedesIrreflexive(y);
          }
          assert y in a;
          var j :| 0 <= j < |a| && a[j] == y;
          assert j != 0;
          assert a[1..][j - 1] == y;
        }
      }
      AscendingUnique(a[1..], b[1..]);
      assert a == [a[0]] + a[1..] && b == [b[0]] + b[1..];
    }
  }
}
