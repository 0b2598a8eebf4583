/**
 * JavaScript objects with integer keys, as the checkout's grouping object is: the keys in the
 * order they were created, the entries, and the order in which `Object.values` lists them.
 */
module JsObjects {
  import opened Seqs

  /** No value occurs twice. */
  ghost predicate Distinct(s: seq<int>) {
    forall x :: multiset(s)[x] <= 1
  }

  /** JavaScript array indices, 0 to 2^32 - 2: integer keys `Object.values` lists first, ascending. */
  predicate IsArrayIndex(k: int) {
    0 <= k <= 0xFFFF_FFFE
  }

  predicate IsOtherKey(k: int) {
    !IsArrayIndex(k)
  }

  predicate StrictlyAscending(s: seq<int>) {
    forall i, j :: 0 <= i < j < |s| ==> s[i] < s[j]
  }

  function InsertAscending(x: int, s: seq<int>): seq<int> {
    if s == [] then [x] else if x <= s[0] then [x] + s else [s[0]] + InsertAscending(x, s[1..])
  }

  function SortAscending(s: seq<int>): seq<int> {
    if s == [] then [] else InsertAscending(s[0], SortAscending(s[1..]))
  }

  /**
   * The property order of an object whose keys were created in the order `keys`: array-index
   * keys in ascending numeric order, then the other keys in creation order.
   */
  function PropertyOrder(keys: seq<int>): seq<int> {
    SortAscending(Filter(keys, IsArrayIndex)) + Filter(keys, IsOtherKey)
  }

  /** A JavaScript object with integer keys: its keys in creation order and its entries. */
  datatype JsRecord<V> = JsRecord(keys: seq<int>, entries: map<int, V>)

  /** `Object.values(record)`. */
  function ObjectValues<V>(record: JsRecord<V>): seq<V>
    requires forall k :: k in record.keys ==> k in record.entries
  {
    PropertyOrderCovered(record);
    ValuesIn(record.entries, PropertyOrder(record.keys))
  }

  /** The entries for the keys `order`, in that order. */
  function ValuesIn<V>(entries: map<int, V>, order: seq<int>): seq<V>
    requires forall j :: 0 <= j < |order| ==> order[j] in entries
  {
    seq(|order|, j requires 0 <= j < |order| => entries[order[j]])
  }

  lemma {:induction false} InsertAscendingMultiset(x: int, s: seq<int>)
    ensures multiset(InsertAscending(x, s)) == multiset(s) + multiset{x}
  {
    if s != [] && x > s[0] {
      InsertAscendingMultiset(x, s[1..]);
      assert s == [s[0]] + s[1..];
    }
  }

  lemma {:induction false} InsertAscendingMembers(x: int, s: seq<int>)
    ensures forall y :: y in InsertAscending(x, s) <==> y == x || y in s
  {
    if s != [] && x > s[0] {
      InsertAscendingMembers(x, s[1..]);
      assert s == [s[0]] + s[1..];
    }
  }

  lemma ConsAscending(h: int, t: seq<int>)
    requires StrictlyAscending(t)
    requires forall i :: 0 <= i < |t| ==> h < t[i]
    ensures StrictlyAscending([h] + t)
  {
    var s := [h] + t;
    forall i, j | 0 <= i < j < |s|
      ensures s[i] < s[j]
    {
      assert s[j] == t[j - 1];
      if i > 0 {
        assert s[i] == t[i - 1];
      }
    }
  }

  lemma {:induction false} InsertAscendingSorted(x: int, s: seq<int>)
    requires StrictlyAscending(s) && x !in s
    ensures StrictlyAscending(InsertAscending(x, s))
  {
    if s == [] {
    } else if x <= s[0] {
      ConsAscending(x, s);
    } else {
      var tail := s[1..];
      assert StrictlyAscending(tail) by {
        forall i, j | 0 <= i < j < |tail|
          ensures tail[i] < tail[j]
        {
          assert tail[i] == s[i + 1] && tail[j] == s[j + 1];
        }
      }
      var r := InsertAscending(x, tail);
      InsertAscendingSorted(x, tail);
      InsertAscendingMembers(x, tail);
      forall i | 0 <= i < |r|
        ensures s[0] < r[i]
      {
        assert r[i] in r;
        if r[i] != x {
          var k :| 0 <= k < |tail| && tail[k] == r[i];
          assert s[k + 1] == r[i];
        }
      }
      ConsAscending(s[0], r);
    }
  }

  lemma DistinctTail(s: seq<int>)
    requires s != [] && Distinct(s)
    ensures Distinct(s[1..]) && s[0] !in s[1..]
  {
    assert s == [s[0]] + s[1..];
    forall x
      ensures multiset(s[1..])[x] <= 1
    {
      assert multiset(s)[x] == multiset(s[1..])[x] + (if x == s[0] then 1 else 0);
    }
    assert multiset(s)[s[0]] == multiset(s[1..])[s[0]] + 1;
  }

  /** A list with no more copies of any value than a distinct list is distinct. */
  lemma DistinctBelow(s: seq<int>, t: seq<int>)
    requires Distinct(t)
    requires forall x :: multiset(s)[x] <= multiset(t)[x]
    ensures Distinct(s)
  {
  }

  /** Sorting the keys rearranges them. */
  lemma {:induction false} SortAscendingMultiset(s: seq<int>)
    ensures multiset(SortAscending(s)) == multiset(s)
  {
    if s != [] {
      SortAscendingMultiset(s[1..]);
      assert s == [s[0]] + s[1..];
      InsertAscendingMultiset(s[0], SortAscending(s[1..]));
    }
  }

  /** Distinct keys come out strictly ascending. */
  lemma {:induction false} SortAscendingSorted(s: seq<int>)
    requires Distinct(s)
    ensures StrictlyAscending(SortAscending(s))
  {
    if s != [] {
      DistinctTail(s);
      SortAscendingSorted(s[1..]);
      var t := SortAscending(s[1..]);
      SortAscendingMultiset(s[1..]);
      MultisetMembers(t, s[1..]);
      InsertAscendingSorted(s[0], t);
    }
  }

  /** `Object.values` lists each key exactly as often as it was created. */
  lemma PropertyOrderPermutes(keys: seq<int>)
    ensures multiset(PropertyOrder(keys)) == multiset(keys)
  {
    SortAscendingMultiset(Filter(keys, IsArrayIndex));
    FilterMultiset(keys, IsArrayIndex);
    FilterMultiset(keys, IsOtherKey);
  }

  /** The listed keys are the object's keys, and distinct keys stay distinct. */
  lemma PropertyOrderMembers(keys: seq<int>)
    ensures forall k :: k in PropertyOrder(keys) <==> k in keys
    ensures forall j :: 0 <= j < |PropertyOrder(keys)| ==> PropertyOrder(keys)[j] in keys
    ensures Distinct(keys) ==> Distinct(PropertyOrder(keys))
  {
    PropertyOrderPermutes(keys);
    MultisetMembers(PropertyOrder(keys), keys);
    if Distinct(keys) {
      DistinctBelow(PropertyOrder(keys), keys);
    }
    forall j | 0 <= j < |PropertyOrder(keys)|
      ensures PropertyOrder(keys)[j] in keys
    {
      assert PropertyOrder(keys)[j] in PropertyOrder(keys);
    }
  }

  lemma PropertyOrderCovered<V>(record: JsRecord<V>)
    requires forall k :: k in record.keys ==> k in record.entries
    ensures forall j :: 0 <= j < |PropertyOrder(record.keys)| ==> PropertyOrder(record.keys)[j] in record.entries
  {
    PropertyOrderMembers(record.keys);
    forall j | 0 <= j < |PropertyOrder(record.keys)|
      ensures PropertyOrder(record.keys)[j] in record.entries
    {
      var k := PropertyOrder(record.keys)[j];
      assert k in record.keys;
    }
  }

  /** Array-index keys come first, in ascending order. */
  lemma PropertyOrderAscending(keys: seq<int>)
    requires Distinct(keys)
    ensures forall i, j :: 0 <= i < j < |PropertyOrder(keys)| && IsArrayIndex(PropertyOrder(keys)[j]) ==>
      IsArrayIndex(PropertyOrder(keys)[i]) && PropertyOrder(keys)[i] < PropertyOrder(keys)[j]
  {
    var indices := Filter(keys, IsArrayIndex);
    var sorted := SortAscending(indices);
    var others := Filter(keys, IsOtherKey);
    var order := PropertyOrder(keys);
    FilterMultiset(keys, IsArrayIndex);
    DistinctBelow(indices, keys);
    SortAscendingSorted(indices);
    SortAscendingMultiset(indices);
    MultisetMembers(sorted, indices);
    FilterSatisfies(keys, IsArrayIndex);
    FilterSatisfies(keys, IsOtherKey);
    forall i, j | 0 <= i < j < |order| && IsArrayIndex(order[j])
      ensures IsArrayIndex(order[i]) && order[i] < order[j]
    {
      if j >= |sorted| {
        assert false;
      }
      assert order[i] == sorted[i] && order[j] == sorted[j];
      assert sorted[i] in sorted;
    }
  }

  lemma {:induction false} DistinctAt(s: seq<int>, i: nat, j: nat)
    requires Distinct(s) && i < j < |s|
    ensures s[i] != s[j]
  {
    var a, b := s[..j], s[j..];
    assert s == a + b;
    assert s[i] in a && s[j] in b;
    assert multiset(s)[s[j]] == multiset(a)[s[j]] + multiset(b)[s[j]];
  }
}
