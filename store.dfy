/** A DynamoDB table with a composite primary key, as the three handlers use
    it: point put/get/delete, Query on one partition key (returned in
    ascending sort-key order), and Scan (returned in no particular order). */
module Store {
  import opened Wrappers
  import opened Text

  /** (PK, SK) */
  type Key = (string, string)

  /** The sort keys stored under partition key `pk`. */
  function PartitionKeys<V>(items: map<Key, V>, pk: string): (sks: set<string>)
    ensures forall sk :: sk in sks <==> (pk, sk) in items
  {
    var sks := set k | k in items.Keys && k.0 == pk :: k.1;
    assert forall sk :: (pk, sk) in items ==> sk in sks by {
      forall sk | (pk, sk) in items ensures sk in sks {
        var k: Key := (pk, sk);
        assert k in items.Keys && k.0 == pk;
      }
    }
    sks
  }

  predicate IsLeast(m: string, s: set<string>) {
    m in s && forall x :: x in s ==> LexLe(m, x)
  }

  ghost predicate StrictlyAscending(ks: seq<string>) {
    forall i, j :: 0 <= i < j < |ks| ==> LexLt(ks[i], ks[j])
  }

  /** Every non-empty finite set of strings has a least element. */
  lemma {:induction false} LeastExists(s: set<string>)
    requires s != {}
    ensures exists m :: IsLeast(m, s)
    decreases |s|
  {
    var x :| x in s;
    LexLeReflexive(x);
    if s == {x} {
      assert IsLeast(x, s);
    } else {
      LeastExists(s - {x});
      var m' :| IsLeast(m', s - {x});
      LexLeTotal(x, m');
      if LexLe(x, m') {
        forall y | y in s ensures LexLe(x, y) {
          if y != x {
            LexLeTransitive(x, m', y);
          }
        }
        assert IsLeast(x, s);
      } else {
        assert IsLeast(m', s);
      }
    }
  }

  /** The least element is unique. */
  lemma LeastUnique(m: string, n: string, s: set<string>)
    requires IsLeast(m, s) && IsLeast(n, s)
    ensures m == n
  {
    LexLeAntisymmetric(m, n);
  }

  /** The elements of `s` in ascending order: the order in which a Query
      returns the items of one partition. */
  ghost function AscendingKeys(s: set<string>): (ks: seq<string>)
    ensures StrictlyAscending(ks)
    ensures forall k :: k in ks <==> k in s
    ensures |ks| == |s|
    decreases |s|
  {
    if s == {} then []
    else
      LeastExists(s);
      var m :| IsLeast(m, s);
      var rest := AscendingKeys(s - {m});
      assert forall j :: 0 <= j < |rest| ==> LexLt(m, rest[j]) by {
        forall j | 0 <= j < |rest| ensures LexLt(m, rest[j]) {
          assert rest[j] in s - {m};
        }
      }
      [m] + rest
  }

  /** The ascending enumeration starts with the least element. */
  lemma AscendingKeysUnfold(s: set<string>, m: string)
    requires IsLeast(m, s)
    ensures AscendingKeys(s) == [m] + AscendingKeys(s - {m})
  {
    var ks := AscendingKeys(s);
    assert IsLeast(ks[0], s) by {
      forall x | x in s ensures LexLe(ks[0], x) {
        var j :| 0 <= j < |ks| && ks[j] == x;
        if j > 0 {
          assert LexLt(ks[0], x);
        } else {
          LexLeReflexive(x);
        }
      }
    }
    LeastUnique(m, ks[0], s);
  }

  /** One step of enumerating `whole` in ascending order: the least of what
      remains comes next. */
  lemma AscendingStep(done: seq<string>, remaining: set<string>, whole: set<string>, m: string)
    requires done + AscendingKeys(remaining) == AscendingKeys(whole)
    requires IsLeast(m, remaining)
    ensures (done + [m]) + AscendingKeys(remaining - {m}) == AscendingKeys(whole)
  {
    AscendingKeysUnfold(remaining, m);
    assert (done + [m]) + AscendingKeys(remaining - {m}) == done + ([m] + AscendingKeys(remaining - {m}));
  }

  /** The items a Query on `pk` returns, in ascending sort-key order. */
  ghost function QueryRows<V>(items: map<Key, V>, pk: string): (rows: seq<V>)
    ensures |rows| == |PartitionKeys(items, pk)|
  {
    var ks := AscendingKeys(PartitionKeys(items, pk));
    seq(|ks|, i requires 0 <= i < |ks| => items[(pk, ks[i])])
  }

  /** A Query in descending order with `Limit: 1` returns the item under the
      greatest sort key of the partition, which is the last of `QueryRows`. */
  lemma QueryLastIsGreatest<V>(items: map<Key, V>, pk: string)
    requires PartitionKeys(items, pk) != {}
    ensures var ks := AscendingKeys(PartitionKeys(items, pk));
      && |ks| > 0
      && ks[|ks| - 1] in PartitionKeys(items, pk)
      && QueryRows(items, pk)[|ks| - 1] == items[(pk, ks[|ks| - 1])]
      && forall sk :: sk in PartitionKeys(items, pk) ==> LexLe(sk, ks[|ks| - 1])
  {
    var ks := AscendingKeys(PartitionKeys(items, pk));
    var last := ks[|ks| - 1];
    forall sk | sk in PartitionKeys(items, pk) ensures LexLe(sk, last) {
      var i :| 0 <= i < |ks| && ks[i] == sk;
      if i < |ks| - 1 {
        assert LexLt(ks[i], ks[|ks| - 1]);
      } else {
        LexLeReflexive(sk);
      }
    }
  }

  /** Picks the least of a non-empty set by one pass over it. */
  method Least(s: set<string>) returns (m: string)
    requires s != {}
    ensures IsLeast(m, s)
  {
    m :| m in s;
    LexLeReflexive(m);
    var rest := s - {m};
    while rest != {}
      invariant rest <= s && m in s
      invariant forall x :: x in s && x !in rest ==> LexLe(m, x)
      decreases |rest|
    {
      var x :| x in rest;
      if !LexLe(m, x) {
        LexLeTotal(m, x);
        forall y | y in s && y !in rest ensures LexLe(x, y) {
          LexLeTransitive(x, m, y);
        }
        LexLeReflexive(x);
        m := x;
      }
      rest := rest - {x};
    }
  }

  class Table<V> {
    var items: map<Key, V>

    constructor ()
      ensures items == map[]
    {
      items := map[];
    }

    /** PutItem: inserts or entirely replaces the item under `k`. */
    method Put(k: Key, v: V)
      modifies this
      ensures items == old(items)[k := v]
    {
      items := items[k := v];
    }

    /** GetItem */
    method Get(k: Key) returns (r: Option<V>)
      ensures r.Some? <==> k in items
      ensures r.Some? ==> r.value == items[k]
    {
      r := if k in items then Some(items[k]) else None;
    }

    /** DeleteItem: removing an absent key is not an error. */
    method Delete(k: Key)
      modifies this
      ensures items == old(items) - {k}
    {
      items := items - {k};
    }

    /** The sort keys of partition `pk` in ascending order. */
    method SortKeys(pk: string) returns (ks: seq<string>)
      ensures ks == AscendingKeys(PartitionKeys(items, pk))
    {
      var part := PartitionKeys(items, pk);
      var remaining := part;
      ks := [];
      while remaining != {}
        invariant ks + AscendingKeys(remaining) == AscendingKeys(part)
        decreases |remaining|
      {
        var m := Least(remaining);
        AscendingStep(ks, remaining, part, m);
        ks := ks + [m];
        remaining := remaining - {m};
      }
      assert ks + [] == ks;
    }

    /** Query with `KeyConditionExpression: 'PK = :pk'`, ascending sort keys. */
    method Query(pk: string) returns (rows: seq<V>)
      ensures rows == QueryRows(items, pk)
    {
      var ks := SortKeys(pk);
      forall i | 0 <= i < |ks| ensures (pk, ks[i]) in items {
        assert ks[i] in PartitionKeys(items, pk);
      }
      var stored := items;
      rows := seq(|ks|, i requires 0 <= i < |ks| => stored[(pk, ks[i])]);
      assert |rows| == |QueryRows(items, pk)|;
      assert forall i :: 0 <= i < |rows| ==> rows[i] == QueryRows(items, pk)[i];
    }

    /** Scan: every item once, in an order the model leaves open. */
    method Scan() returns (keys: seq<Key>, rows: seq<V>)
      ensures |keys| == |rows| == |items|
      ensures forall k :: k in keys <==> k in items
      ensures forall i, j :: 0 <= i < j < |keys| ==> keys[i] != keys[j]
      ensures forall i :: 0 <= i < |keys| ==> keys[i] in items && rows[i] == items[keys[i]]
    {
      var remaining := items.Keys;
      keys, rows := [], [];
      while remaining != {}
        invariant remaining <= items.Keys
        invariant |keys| == |rows| && |keys| + |remaining| == |items.Keys|
        invariant forall k :: k in keys <==> k in items && k !in remaining
        invariant forall i, j :: 0 <= i < j < |keys| ==> keys[i] != keys[j]
        invariant forall i :: 0 <= i < |keys| ==> keys[i] in items && rows[i] == items[keys[i]]
        decreases |remaining|
      {
        var k :| k in remaining;
        keys, rows := keys + [k], rows + [items[k]];
        remaining := remaining - {k};
      }
    }

    /** Scan with `FilterExpression: 'SK = :sk'`: every item under that sort
        key once, in an order the model leaves open. */
    method ScanSortKey(sk: string) returns (keys: seq<Key>, rows: seq<V>)
      ensures |keys| == |rows|
      ensures forall k :: k in keys <==> k in items && k.1 == sk
      ensures forall i, j :: 0 <= i < j < |keys| ==> keys[i] != keys[j]
      ensures forall i :: 0 <= i < |keys| ==> keys[i] in items && rows[i] == items[keys[i]]
    {
      var remaining := items.Keys;
      keys, rows := [], [];
      while remaining != {}
        invariant remaining <= items.Keys
        invariant |keys| == |rows|
        invariant forall k :: k in keys <==> k in items && k !in remaining && k.1 == sk
        invariant forall i, j :: 0 <= i < j < |keys| ==> keys[i] != keys[j]
        invariant forall i :: 0 <= i < |keys| ==> keys[i] in items && rows[i] == items[keys[i]]
        decreases |remaining|
      {
        var k :| k in remaining;
        if k.1 == sk {
          keys, rows := keys + [k], rows + [items[k]];
        }
        remaining := remaining - {k};
      }
    }
  }
}
