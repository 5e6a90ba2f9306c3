/** Sorting by the order in which guests are shut down. */
module ShutdownOrder {

  datatype Key = Key(due: int, order: int, id: int) {
    predicate Less(k: Key) {
      due < k.due || (due == k.due && (order < k.order || (order == k.order && id < k.id)))
    }
  }

  // An index into a list, with the key it is sorted by.
  datatype Keyed = Keyed(key: Key, item: nat)

  function Insert(x: Keyed, s: seq<Keyed>): seq<Keyed> {
    if s == [] || !s[0].key.Less(x.key) then [x] + s else [s[0]] + Insert(x, s[1..])
  }

  /** The stable sort of the library, by key. */
  function Sort(s: seq<Keyed>): seq<Keyed> {
    if s == [] then [] else Insert(s[0], Sort(s[1..]))
  }

  ghost predicate StrictlySorted(s: seq<Keyed>) {
    forall i, j :: 0 <= i < j < |s| ==> s[i].key.Less(s[j].key)
  }

  ghost predicate DistinctKeys(s: seq<Keyed>) {
    forall i, j :: 0 <= i < j < |s| ==> s[i].key != s[j].key
  }

  lemma {:induction false} InsertKeepsElements(x: Keyed, s: seq<Keyed>)
    ensures |Insert(x, s)| == |s| + 1
    ensures forall y :: y in Insert(x, s) <==> y == x || y in s
  {
    if s != [] && s[0].key.Less(x.key) {
      InsertKeepsElements(x, s[1..]);
      assert s == [s[0]] + s[1..];
    }
  }

  lemma {:induction false} InsertSorts(x: Keyed, s: seq<Keyed>)
    requires StrictlySorted(s) && forall y :: y in s ==> y.key != x.key
    ensures StrictlySorted(Insert(x, s))
  {
    if s != [] && s[0].key.Less(x.key) {
      InsertSorts(x, s[1..]);
      InsertKeepsElements(x, s[1..]);
      var rest := Insert(x, s[1..]);
      forall j | 0 <= j < |rest| ensures s[0].key.Less(rest[j].key) {
        assert rest[j] in rest;
        if rest[j] != x {
          assert rest[j] in s[1..];
          var i :| 0 <= i < |s[1..]| && s[1..][i] == rest[j];
          assert s[i + 1] == rest[j];
        }
      }
    }
  }

  /** Sorting keeps the elements and puts distinct keys in strictly increasing order. */
  lemma {:induction false} SortSorts(s: seq<Keyed>)
    ensures |Sort(s)| == |s|
    ensures forall y :: y in Sort(s) <==> y in s
    ensures DistinctKeys(s) ==> StrictlySorted(Sort(s))
  {
    if s != [] {
      SortSorts(s[1..]);
      InsertKeepsElements(s[0], Sort(s[1..]));
      if DistinctKeys(s) {
        forall y | y in Sort(s[1..]) ensures y.key != s[0].key {
          assert y in s[1..];
          var i :| 0 <= i < |s[1..]| && s[1..][i] == y;
          assert s[i + 1] == y;
        }
        InsertSorts(s[0], Sort(s[1..]));
      }
    }
  }

  lemma EmptyTogether(a: seq<Keyed>, b: seq<Keyed>)
    requires forall x :: x in a <==> x in b
    ensures a == [] <==> b == []
  {
    if a != [] {
      assert a[0] in a;
    }
    if b != [] {
      assert b[0] in b;
    }
  }

  /** Strictly increasing sequences of the same elements are equal: the order leaves no freedom. */
  lemma {:induction false} SortedUnique(a: seq<Keyed>, b: seq<Keyed>)
    requires StrictlySorted(a) && StrictlySorted(b) && forall x :: x in a <==> x in b
    ensures a == b
  {
    EmptyTogether(a, b);
    if a != [] {
      assert a[0] in b && b[0] in a by {
        assert a[0] in a;
        assert b[0] in b;
      }
      assert a[0] == b[0];
      forall x ensures x in a[1..] <==> x in b[1..] {
        assert x in a <==> x == a[0] || x in a[1..];
        assert x in b <==> x == b[0] || x in b[1..];
        assert a[0] !in a[1..] && b[0] !in b[1..];
      }
      SortedUnique(a[1..], b[1..]);
    }
  }
}
