/** Small facts about sequences and maps that several components share. */
module Collections {

  datatype Option<+T> = None | Some(value: T)

  /** The sum of `f` over the elements of `s`. */
  ghost function Sum<T>(s: seq<T>, f: T -> int): int {
    if s == [] then 0 else f(s[0]) + Sum(s[1..], f)
  }

  lemma {:induction false} SumConcat<T>(s: seq<T>, t: seq<T>, f: T -> int)
    ensures Sum(s + t, f) == Sum(s, f) + Sum(t, f)
  {
    if s == [] {
      assert s + t == t;
    } else {
      assert (s + t)[1..] == s[1..] + t;
      SumConcat(s[1..], t, f);
    }
  }

  lemma SumOne<T>(x: T, f: T -> int)
    ensures Sum([x], f) == f(x)
  {
    assert [x][1..] == [];
  }

  /** Replacing one element changes the sum by the difference of the two values. */
  lemma {:induction false} SumUpdate<T>(s: seq<T>, i: nat, x: T, f: T -> int)
    requires i < |s|
    ensures Sum(s[i := x], f) == Sum(s, f) - f(s[i]) + f(x)
  {
    if i == 0 {
      assert s[0 := x][1..] == s[1..];
    } else {
      assert s[i := x][1..] == s[1..][i - 1 := x];
      SumUpdate(s[1..], i - 1, x, f);
    }
  }

  /** A sum of non-negative terms bounds each of its terms. */
  lemma {:induction false} SumBounds<T>(s: seq<T>, i: nat, f: T -> int)
    requires i < |s|
    requires forall k :: 0 <= k < |s| ==> f(s[k]) >= 0
    ensures 0 <= f(s[i]) <= Sum(s, f)
  {
    SumNonNegative(s[1..], f);
    if i > 0 {
      SumBounds(s[1..], i - 1, f);
    }
  }

  lemma {:induction false} SumNonNegative<T>(s: seq<T>, f: T -> int)
    requires forall k :: 0 <= k < |s| ==> f(s[k]) >= 0
    ensures Sum(s, f) >= 0
  {
    if s != [] {
      SumNonNegative(s[1..], f);
    }
  }

  /** A positive sum of 0-or-more terms has a positive term. */
  lemma {:induction false} SumPositive<T>(s: seq<T>, f: T -> int) returns (i: nat)
    requires Sum(s, f) > 0
    ensures i < |s| && f(s[i]) > 0
  {
    if f(s[0]) > 0 {
      i := 0;
    } else {
      var j := SumPositive(s[1..], f);
      i := j + 1;
    }
  }

  lemma {:induction false} SumZero<T>(s: seq<T>, f: T -> int)
    requires forall k :: 0 <= k < |s| ==> f(s[k]) == 0
    ensures Sum(s, f) == 0
  {
    if s != [] {
      SumZero(s[1..], f);
    }
  }

  // ---------------------------------------------------------------- sets and maps

  ghost function Pick<T>(s: set<T>): (x: T)
    requires s != {}
    ensures x in s
  {
    var x :| x in s;
    x
  }

  /** The entries of `m` whose value is not `v`. */
  function DropValue<K, V(==)>(m: map<K, V>, v: V): map<K, V> {
    map k | k in m && m[k] != v :: m[k]
  }

  lemma DropAbsentValue<K, V>(m: map<K, V>, v: V)
    requires forall k :: k in m ==> m[k] != v
    ensures DropValue(m, v) == m
  {
  }

  lemma DropOnlyKey<K, V>(m: map<K, V>, v: V, k: K)
    requires k in m && m[k] == v
    requires forall j :: j in m && m[j] == v ==> j == k
    ensures DropValue(m, v) == m - {k}
  {
  }

  lemma MinusTwo<K, V>(m: map<K, V>, a: K, b: K)
    ensures m - {a} - {b} == m - {b} - {a} == m - {a, b}
  {
  }

  lemma MinusOverwritten<K, V>(m: map<K, V>, k: K, v: V, gone: set<K>)
    requires k in gone
    ensures m[k := v] - gone == m - gone
  {
  }

  lemma MinusAbsent<K, V>(m: map<K, V>, a: K)
    requires a !in m
    ensures m - {a} == m
  {
  }

  lemma MinusSize<K, V>(m: map<K, V>, a: K)
    ensures |m - {a}| == if a in m then |m| - 1 else |m|
  {
    assert (m - {a}).Keys == m.Keys - {a};
  }

  lemma PlusSize<K, V>(m: map<K, V>, a: K, v: V)
    ensures |m[a := v]| == if a in m then |m| else |m| + 1
  {
    assert m[a := v].Keys == m.Keys + {a};
  }

  // ---------------------------------------------------------------- orders of iteration

  /** `order` lists each key once: one order in which the map can be iterated. */
  ghost predicate Enumerates<K, V>(order: seq<K>, m: map<K, V>) {
    && (forall i, j :: 0 <= i < j < |order| ==> order[i] != order[j])
    && (forall k :: k in order ==> k in m)
    && (forall k :: k in m ==> k in order)
  }

  lemma {:induction false} SomeOrder<K>(keys: set<K>) returns (order: seq<K>)
    ensures forall i, j :: 0 <= i < j < |order| ==> order[i] != order[j]
    ensures forall k :: k in order <==> k in keys
  {
    if keys == {} {
      order := [];
    } else {
      var k := Pick(keys);
      var shorter := SomeOrder(keys - {k});
      order := shorter + [k];
    }
  }

  /** Some order puts a given key last, and some puts it first. */
  lemma SomeOrdersAround<K, V>(m: map<K, V>, k: K) returns (last: seq<K>, first: seq<K>)
    requires k in m
    ensures last != [] && last[|last| - 1] == k && Enumerates(last, m)
    ensures first != [] && first[0] == k && Enumerates(first, m)
  {
    var others := SomeOrder(m.Keys - {k});
    last, first := others + [k], [k] + others;
  }
}
