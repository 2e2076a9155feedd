/** Grouping loops: `if (!groups[k]) groups[k] = <initial>; groups[k] = <updated>`
    over a list, which fills a JavaScript object or a Python dict with one
    entry per distinct key in the order the keys first appear, and the
    reference definition such a loop is proved against. */
module Groups {
  import opened Common

  /** What a grouping loop does: the key of an element, the value a new key
      starts from, and how an element updates the value of its key. */
  datatype Grouping<!T, K, !V> = Grouping(key: T -> K, init: V, step: (V, T) -> V)

  /** One key of the dictionary and the value accumulated under it. */
  datatype Entry<K, V> = Entry(key: K, value: V)

  function KeysOf<T, K, V>(s: seq<T>, g: Grouping<T, K, V>): (ks: seq<K>)
    ensures |ks| == |s| && forall i :: 0 <= i < |s| ==> ks[i] == g.key(s[i])
  {
    seq(|s|, i requires 0 <= i < |s| => g.key(s[i]))
  }

  function EntryKeys<K, V>(es: seq<Entry<K, V>>): (ks: seq<K>)
    ensures |ks| == |es| && forall i :: 0 <= i < |es| ==> ks[i] == es[i].key
  {
    seq(|es|, i requires 0 <= i < |es| => es[i].key)
  }

  /** The value key `k` ends with: `init`, updated by each element with that
      key, left to right. */
  function ValueOf<T, K(==), V>(s: seq<T>, g: Grouping<T, K, V>, k: K): V
  {
    if s == [] then g.init
    else
      var v := ValueOf(s[..|s| - 1], g, k);
      if g.key(s[|s| - 1]) == k then g.step(v, s[|s| - 1]) else v
  }

  /** The entries of the keys `ks`, in that order. */
  function EntriesFor<T, K(==), V>(s: seq<T>, g: Grouping<T, K, V>, ks: seq<K>): (es: seq<Entry<K, V>>)
    ensures |es| == |ks|
    ensures forall j :: 0 <= j < |ks| ==> es[j] == Entry(ks[j], ValueOf(s, g, ks[j]))
  {
    seq(|ks|, j requires 0 <= j < |ks| => Entry(ks[j], ValueOf(s, g, ks[j])))
  }

  /** The reference definition: one entry per distinct key, in first-seen
      order, each holding the value its own elements give it. */
  function Grouped<T, K(==,!new), V>(s: seq<T>, g: Grouping<T, K, V>): seq<Entry<K, V>>
  {
    EntriesFor(s, g, FirstSeen(KeysOf(s, g)))
  }

  /** Where key `k` sits among the entries, or -1: a property lookup. */
  function IndexOfKey<K(==), V>(es: seq<Entry<K, V>>, k: K): (i: int)
    ensures -1 <= i < |es|
    ensures i >= 0 ==> es[i].key == k
    ensures i < 0 ==> forall j :: 0 <= j < |es| ==> es[j].key != k
  {
    if es == [] then -1
    else if es[|es| - 1].key == k then |es| - 1
    else IndexOfKey(es[..|es| - 1], k)
  }

  /** One turn of the loop: a new key is appended with the initial value,
      then the element updates the value of its key in place. */
  function AddAt<T, K(==), V>(es: seq<Entry<K, V>>, g: Grouping<T, K, V>, x: T): seq<Entry<K, V>>
  {
    var i := IndexOfKey(es, g.key(x));
    var widened := if i < 0 then es + [Entry(g.key(x), g.init)] else es;
    var at := if i < 0 then |es| else i;
    widened[at := Entry(g.key(x), g.step(widened[at].value, x))]
  }

  /** One turn of the loop, run on the dictionary held so far. */
  method Accumulate<T, K(==), V>(es: seq<Entry<K, V>>, g: Grouping<T, K, V>, x: T) returns (r: seq<Entry<K, V>>)
    ensures r == AddAt(es, g, x)
  {
    var i := IndexOfKey(es, g.key(x));
    if i < 0 {
      r := es + [Entry(g.key(x), g.step(g.init, x))];
    } else {
      r := es[i := Entry(g.key(x), g.step(es[i].value, x))];
    }
  }

  /** The dictionary after the elements of `s`, taken in order. */
  function Fold<T, K(==), V>(s: seq<T>, g: Grouping<T, K, V>): seq<Entry<K, V>>
  {
    if s == [] then [] else AddAt(Fold(s[..|s| - 1], g), g, s[|s| - 1])
  }

  lemma FoldSnoc<T, K, V>(s: seq<T>, x: T, g: Grouping<T, K, V>)
    ensures Fold(s + [x], g) == AddAt(Fold(s, g), g, x)
  {
    assert (s + [x])[..|s|] == s;
  }

  /** One forEach over `items`, continuing the dictionary filled from
      `before`: the loop's dictionary is always the fold of what it has seen. */
  method AccumulateAll<T, K(==), V>(ghost before: seq<T>, es: seq<Entry<K, V>>, g: Grouping<T, K, V>, items: seq<T>)
    returns (r: seq<Entry<K, V>>)
    requires es == Fold(before, g)
    ensures r == Fold(before + items, g)
  {
    r := es;
    assert before + items[..0] == before;
    for i := 0 to |items|
      invariant r == Fold(before + items[..i], g)
    {
      FoldSnoc(before + items[..i], items[i], g);
      assert before + items[..i + 1] == (before + items[..i]) + [items[i]];
      r := Accumulate(r, g, items[i]);
    }
    assert items[..|items|] == items;
  }

  /** Filling the dictionary in one pass gives the reference grouping. */
  lemma {:induction false} FoldIsGrouped<T, K(!new), V>(s: seq<T>, g: Grouping<T, K, V>)
    ensures Fold(s, g) == Grouped(s, g)
  {
    if s != [] {
      var seen, x := s[..|s| - 1], s[|s| - 1];
      FoldIsGrouped(seen, g);
      assert Fold(s, g) == AddAt(Fold(seen, g), g, x);
      AddAtStep(seen, x, g);
      LastSplit(s);
    }
  }

  lemma KeysOfSnoc<T, K(!new), V>(s: seq<T>, x: T, g: Grouping<T, K, V>)
    ensures KeysOf(s + [x], g) == KeysOf(s, g) + [g.key(x)]
    ensures FirstSeen(KeysOf(s + [x], g)) ==
      if g.key(x) in KeysOf(s, g) then FirstSeen(KeysOf(s, g)) else FirstSeen(KeysOf(s, g)) + [g.key(x)]
  {
    assert KeysOf(s + [x], g) == KeysOf(s, g) + [g.key(x)];
    FirstSeenSnoc(KeysOf(s, g), g.key(x));
  }

  lemma ValueOfSnoc<T, K, V>(s: seq<T>, x: T, g: Grouping<T, K, V>, k: K)
    ensures ValueOf(s + [x], g, k) == if g.key(x) == k then g.step(ValueOf(s, g, k), x) else ValueOf(s, g, k)
  {
    assert (s + [x])[..|s|] == s;
  }

  lemma {:induction false} ValueOfAbsent<T, K, V>(s: seq<T>, g: Grouping<T, K, V>, k: K)
    requires k !in KeysOf(s, g)
    ensures ValueOf(s, g, k) == g.init
  {
    if s != [] {
      assert KeysOf(s, g)[|s| - 1] == g.key(s[|s| - 1]);
      assert KeysOf(s[..|s| - 1], g) == KeysOf(s, g)[..|s| - 1];
      ValueOfAbsent(s[..|s| - 1], g, k);
    }
  }

  /** One turn of the loop agrees with recomputing the entries. */
  lemma AddAtStep<T, K(!new), V>(seen: seq<T>, x: T, g: Grouping<T, K, V>)
    ensures AddAt(Grouped(seen, g), g, x) == Grouped(seen + [x], g)
  {
    KeysOfSnoc(seen, x, g);
    var ks := FirstSeen(KeysOf(seen, g));
    if g.key(x) in KeysOf(seen, g) {
      AddAtSeen(seen, x, g, ks);
    } else {
      AddAtUnseen(seen, x, g, ks);
    }
  }

  lemma AddAtSeen<T, K, V>(seen: seq<T>, x: T, g: Grouping<T, K, V>, ks: seq<K>)
    requires Distinct(ks) && g.key(x) in ks
    ensures AddAt(EntriesFor(seen, g, ks), g, x) == EntriesFor(seen + [x], g, ks)
  {
    var before := EntriesFor(seen, g, ks);
    var j :| 0 <= j < |ks| && ks[j] == g.key(x);
    assert before[j].key == g.key(x);
    var i := IndexOfKey(before, g.key(x));
    assert ks[i] == g.key(x);
    UpdateAt(seen, x, g, ks, i);
  }

  lemma AddAtUnseen<T, K, V>(seen: seq<T>, x: T, g: Grouping<T, K, V>, ks: seq<K>)
    requires Distinct(ks) && g.key(x) !in ks && g.key(x) !in KeysOf(seen, g)
    ensures AddAt(EntriesFor(seen, g, ks), g, x) == EntriesFor(seen + [x], g, ks + [g.key(x)])
  {
    ValueOfAbsent(seen, g, g.key(x));
    assert EntriesFor(seen, g, ks) + [Entry(g.key(x), g.init)] == EntriesFor(seen, g, ks + [g.key(x)]);
    UpdateAt(seen, x, g, ks + [g.key(x)], |ks|);
  }

  /** Updating the entry of `x`'s key is the same as recomputing every entry
      with `x` included. */
  lemma UpdateAt<T, K, V>(seen: seq<T>, x: T, g: Grouping<T, K, V>, ks: seq<K>, i: int)
    requires Distinct(ks) && 0 <= i < |ks| && ks[i] == g.key(x)
    ensures EntriesFor(seen, g, ks)[i := Entry(g.key(x), g.step(EntriesFor(seen, g, ks)[i].value, x))]
         == EntriesFor(seen + [x], g, ks)
  {
    forall p | 0 <= p < |ks|
      ensures EntriesFor(seen, g, ks)[i := Entry(g.key(x), g.step(EntriesFor(seen, g, ks)[i].value, x))][p]
           == Entry(ks[p], ValueOf(seen + [x], g, ks[p]))
    {
      ValueOfSnoc(seen, x, g, ks[p]);
    }
  }

  // ---------------------------------------------------------------------
  // What every grouping promises

  /** The keys of the grouping are the distinct keys of the elements, in
      first-seen order. */
  lemma GroupedKeys<T, K(!new), V>(s: seq<T>, g: Grouping<T, K, V>)
    ensures EntryKeys(Grouped(s, g)) == FirstSeen(KeysOf(s, g))
    ensures forall k :: k in EntryKeys(Grouped(s, g)) <==> k in KeysOf(s, g)
    ensures Distinct(EntryKeys(Grouped(s, g)))
  {
    assert EntryKeys(Grouped(s, g)) == FirstSeen(KeysOf(s, g));
  }

  /** The elements whose key is `k`, in their original order. */
  function Members<T, K(==), V>(s: seq<T>, g: Grouping<T, K, V>, k: K): (m: seq<T>)
    ensures |m| <= |s|
  {
    if s == [] then []
    else Members(s[..|s| - 1], g, k) + (if g.key(s[|s| - 1]) == k then [s[|s| - 1]] else [])
  }

  /** A value depends only on the elements with that key: it is the fold of
      `step` over them. */
  lemma {:induction false} ValueOfMembers<T, K, V>(s: seq<T>, g: Grouping<T, K, V>, k: K)
    ensures ValueOf(s, g, k) == FoldSteps(Members(s, g, k), g)
  {
    if s != [] {
      var seen, x := s[..|s| - 1], s[|s| - 1];
      ValueOfMembers(seen, g, k);
      if g.key(x) == k {
        var m := Members(seen, g, k) + [x];
        assert m[..|m| - 1] == Members(seen, g, k);
      } else {
        assert Members(s, g, k) == Members(seen, g, k);
      }
    }
  }

  /** `init` updated by every element of `s`, left to right. */
  function FoldSteps<T, K, V>(s: seq<T>, g: Grouping<T, K, V>): V
  {
    if s == [] then g.init else g.step(FoldSteps(s[..|s| - 1], g), s[|s| - 1])
  }

  /** Every element belongs to the members of its own key and of no other. */
  lemma {:induction false} MembersOfKey<T, K, V>(s: seq<T>, g: Grouping<T, K, V>, k: K)
    ensures forall x :: x in Members(s, g, k) <==> x in s && g.key(x) == k
  {
    if s != [] {
      var seen, x := s[..|s| - 1], s[|s| - 1];
      MembersOfKey(seen, g, k);
      LastSplit(s);
      assert forall y :: y in s <==> y in seen || y == x;
    }
  }

  // ---------------------------------------------------------------------
  // Groupings that add up an amount per element

  function EntryValue<K>(e: Entry<K, real>): real
  {
    e.value
  }

  /** A summing grouping spreads the sum of all amounts over its entries:
      the entries together hold every amount exactly once. */
  lemma GroupedSum<T, K(!new)>(s: seq<T>, g: Grouping<T, K, real>, amt: T -> real)
    requires g.init == 0.0
    requires forall v, x :: g.step(v, x) == v + amt(x)
    ensures SumOf(Grouped(s, g), EntryValue) == SumOf(s, amt)
  {
    var ks := FirstSeen(KeysOf(s, g));
    forall i | 0 <= i < |s|
      ensures g.key(s[i]) in ks
    {
      assert KeysOf(s, g)[i] == g.key(s[i]);
    }
    EntriesSum(s, g, amt, ks);
  }

  lemma {:induction false} EntriesSum<T, K>(s: seq<T>, g: Grouping<T, K, real>, amt: T -> real, ks: seq<K>)
    requires g.init == 0.0
    requires forall v, x :: g.step(v, x) == v + amt(x)
    requires Distinct(ks)
    requires forall i :: 0 <= i < |s| ==> g.key(s[i]) in ks
    ensures SumOf(EntriesFor(s, g, ks), EntryValue) == SumOf(s, amt)
    decreases |s|
  {
    if s == [] {
      EntriesZero(s, g, ks);
    } else {
      var seen, x := s[..|s| - 1], s[|s| - 1];
      LastSplit(s);
      EntriesSum(seen, g, amt, ks);
      assert g.key(x) in ks;
      var j :| 0 <= j < |ks| && ks[j] == g.key(x);
      var before := EntriesFor(seen, g, ks);
      var e := Entry(g.key(x), g.step(before[j].value, x));
      assert before[j := e] == EntriesFor(s, g, ks) by {
        UpdateAt(seen, x, g, ks, j);
      }
      SumOfUpdate(before, j, e, EntryValue);
      assert EntryValue(e) == EntryValue(before[j]) + amt(x);
    }
  }

  lemma {:induction false} EntriesZero<T, K>(s: seq<T>, g: Grouping<T, K, real>, ks: seq<K>)
    requires s == [] && g.init == 0.0
    ensures SumOf(EntriesFor(s, g, ks), EntryValue) == 0.0
    decreases |ks|
  {
    if ks != [] {
      var ks' := ks[..|ks| - 1];
      EntriesZero(s, g, ks');
      assert EntriesFor(s, g, ks)[..|ks| - 1] == EntriesFor(s, g, ks');
    }
  }

  /** Replacing one element changes a sum by the difference. */
  lemma SumOfUpdate<T>(s: seq<T>, j: int, v: T, f: T -> real)
    requires 0 <= j < |s|
    ensures SumOf(s[j := v], f) == SumOf(s, f) - f(s[j]) + f(v)
  {
    SumOfWithout(s, j, f);
    SumOfWithout(s[j := v], j, f);
    assert Without(s[j := v], j) == Without(s, j);
  }

  // ---------------------------------------------------------------------
  // Groupings that collect their elements

  /** The members of the keys `ks`, one group after another. */
  function Flatten<T, K(==), V>(s: seq<T>, g: Grouping<T, K, V>, ks: seq<K>): seq<T>
  {
    if ks == [] then [] else Flatten(s, g, ks[..|ks| - 1]) + Members(s, g, ks[|ks| - 1])
  }

  /** Each element lands in exactly one group: the groups of the distinct
      keys, put together, are a rearrangement of the elements. */
  lemma GroupsPartition<T, K(!new), V>(s: seq<T>, g: Grouping<T, K, V>)
    ensures multiset(Flatten(s, g, FirstSeen(KeysOf(s, g)))) == multiset(s)
  {
    var ks := FirstSeen(KeysOf(s, g));
    forall i | 0 <= i < |s|
      ensures g.key(s[i]) in ks
    {
      assert KeysOf(s, g)[i] == g.key(s[i]);
    }
    FlattenCovers(s, g, ks);
  }

  lemma {:induction false} FlattenCovers<T, K, V>(s: seq<T>, g: Grouping<T, K, V>, ks: seq<K>)
    requires Distinct(ks)
    requires forall i :: 0 <= i < |s| ==> g.key(s[i]) in ks
    ensures multiset(Flatten(s, g, ks)) == multiset(s)
  {
    if s == [] {
      FlattenEmpty(s, g, ks);
    } else {
      var seen, x := s[..|s| - 1], s[|s| - 1];
      FlattenCovers(seen, g, ks);
      FlattenSnoc(seen, x, g, ks);
      LastSplit(s);
      assert g.key(x) in ks;
    }
  }

  lemma {:induction false} FlattenEmpty<T, K, V>(s: seq<T>, g: Grouping<T, K, V>, ks: seq<K>)
    requires s == []
    ensures Flatten(s, g, ks) == []
    decreases |ks|
  {
    if ks != [] {
      FlattenEmpty(s, g, ks[..|ks| - 1]);
    }
  }

  lemma MembersSnoc<T, K, V>(s: seq<T>, x: T, g: Grouping<T, K, V>, k: K)
    ensures Members(s + [x], g, k) == Members(s, g, k) + (if g.key(x) == k then [x] else [])
  {
    assert (s + [x])[..|s|] == s;
  }

  /** One more element joins the group of its key, if that key is listed. */
  lemma {:induction false} FlattenSnoc<T, K, V>(s: seq<T>, x: T, g: Grouping<T, K, V>, ks: seq<K>)
    requires Distinct(ks)
    ensures multiset(Flatten(s + [x], g, ks)) ==
      multiset(Flatten(s, g, ks)) + (if g.key(x) in ks then multiset{x} else multiset{})
    decreases |ks|
  {
    if ks != [] {
      var ks', k := ks[..|ks| - 1], ks[|ks| - 1];
      FlattenSnoc(s, x, g, ks');
      MembersSnoc(s, x, g, k);
      assert Flatten(s + [x], g, ks) == Flatten(s + [x], g, ks') + Members(s + [x], g, k);
      assert Flatten(s, g, ks) == Flatten(s, g, ks') + Members(s, g, k);
      assert ks == ks' + [k] by {
        LastSplit(ks);
      }
      if g.key(x) == k {
        assert k !in ks';
        assert Members(s + [x], g, k) == Members(s, g, k) + [x];
      } else {
        assert Members(s + [x], g, k) == Members(s, g, k);
        assert g.key(x) in ks <==> g.key(x) in ks';
      }
    }
  }
}
