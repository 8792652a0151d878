/**
 * The value-level view of a dict's backing store: a sequence of (key, value)
 * entries in iteration order, no two with the same key.  The map a store
 * stands for is AsMap(entries); every structural change the handles make is
 * one of the sequence transformers below, and the lemmas say what each does
 * to that map.
 */
module DictEntries {

  datatype Entry<K, V> = Entry(key: K, value: V)

  /** The recoverable failure of `at` on a key that is not present (std::out_of_range). */
  datatype Error = OutOfRange

  datatype Result<T> = Ok(value: T) | Err(error: Error)

  /** The store invariant: no two entries share a key. */
  predicate Distinct<K(==), V>(es: seq<Entry<K, V>>)
  {
    forall i, j :: 0 <= i < j < |es| ==> es[i].key != es[j].key
  }

  function Keys<K, V>(es: seq<Entry<K, V>>): set<K>
  {
    set i | 0 <= i < |es| :: es[i].key
  }

  /** The map the entries stand for. */
  function AsMap<K, V>(es: seq<Entry<K, V>>): map<K, V>
  {
    if es == [] then map[] else AsMap(es[1..])[es[0].key := es[0].value]
  }

  /** `m` holds exactly the keys of `es`, each with the value of its entry. */
  ghost predicate Represents<K, V>(es: seq<Entry<K, V>>, m: map<K, V>)
  {
    && m.Keys == Keys(es)
    && forall i :: 0 <= i < |es| ==> es[i].key in m && m[es[i].key] == es[i].value
  }

  /** The entries with the one at position `i` taken out; the others keep their order. */
  function RemoveAt<K, V>(es: seq<Entry<K, V>>, i: nat): seq<Entry<K, V>>
    requires i < |es|
  {
    es[..i] + es[i + 1..]
  }

  /** The entries with the value at position `i` replaced; its key and position stay. */
  function SetValueAt<K, V>(es: seq<Entry<K, V>>, i: nat, v: V): seq<Entry<K, V>>
    requires i < |es|
  {
    es[i := Entry(es[i].key, v)]
  }

  lemma KeysCons<K, V>(es: seq<Entry<K, V>>)
    requires es != []
    ensures Keys(es) == Keys(es[1..]) + {es[0].key}
  {
    var tail := es[1..];
    forall k | k in Keys(es) ensures k in Keys(tail) + {es[0].key} {
      var i :| 0 <= i < |es| && es[i].key == k;
      if i > 0 {
        assert tail[i - 1].key == k;
      }
    }
    forall k | k in Keys(tail) ensures k in Keys(es) {
      var i :| 0 <= i < |tail| && tail[i].key == k;
      assert es[i + 1].key == k;
    }
  }

  lemma {:induction false} AsMapKeys<K, V>(es: seq<Entry<K, V>>)
    ensures AsMap(es).Keys == Keys(es)
  {
    if es != [] {
      AsMapKeys(es[1..]);
      KeysCons(es);
    }
  }

  /** Every entry of a store is found in its map with its own value. */
  lemma {:induction false} AsMapAt<K, V>(es: seq<Entry<K, V>>, i: nat)
    requires Distinct(es)
    requires i < |es|
    ensures es[i].key in AsMap(es) && AsMap(es)[es[i].key] == es[i].value
  {
    if i > 0 {
      assert Distinct(es[1..]);
      assert es[1..][i - 1] == es[i];
      AsMapAt(es[1..], i - 1);
    }
  }

  /** AsMapAt for a store that may not be known to have distinct keys. */
  lemma EntryInMap<K, V>(es: seq<Entry<K, V>>, i: nat)
    requires i < |es|
    ensures Distinct(es) ==> es[i].key in AsMap(es) && AsMap(es)[es[i].key] == es[i].value
  {
    if Distinct(es) {
      AsMapAt(es, i);
    }
  }

  lemma AsMapRepresents<K, V>(es: seq<Entry<K, V>>)
    requires Distinct(es)
    ensures Represents(es, AsMap(es))
  {
    AsMapKeys(es);
    forall i | 0 <= i < |es| ensures es[i].key in AsMap(es) && AsMap(es)[es[i].key] == es[i].value {
      AsMapAt(es, i);
    }
  }

  /** A store with distinct keys stands for exactly one map. */
  lemma RepresentsUnique<K, V>(es: seq<Entry<K, V>>, m: map<K, V>)
    requires Distinct(es)
    requires Represents(es, m)
    ensures AsMap(es) == m
  {
    AsMapRepresents(es);
    forall k | k in m ensures AsMap(es)[k] == m[k] {
      var i :| 0 <= i < |es| && es[i].key == k;
    }
  }

  /** The number of entries is the number of distinct keys. */
  lemma {:induction false} AsMapSize<K, V>(es: seq<Entry<K, V>>)
    requires Distinct(es)
    ensures |AsMap(es)| == |es|
  {
    if es != [] {
      var tail := es[1..];
      assert Distinct(tail);
      AsMapSize(tail);
      AsMapKeys(tail);
      forall j | 0 <= j < |tail| ensures tail[j].key != es[0].key {
        assert tail[j] == es[j + 1];
      }
    }
  }

  lemma EmptyIffNoEntries<K, V>(es: seq<Entry<K, V>>)
    requires Distinct(es)
    ensures AsMap(es) == map[] <==> es == []
  {
    AsMapSize(es);
  }

  /** Appending an entry for an absent key adds exactly that key, with that value. */
  lemma AppendFresh<K, V>(es: seq<Entry<K, V>>, k: K, v: V)
    requires Distinct(es)
    requires k !in Keys(es)
    ensures Distinct(es + [Entry(k, v)])
    ensures Keys(es + [Entry(k, v)]) == Keys(es) + {k}
    ensures AsMap(es + [Entry(k, v)]) == AsMap(es)[k := v]
  {
    var es' := es + [Entry(k, v)];
    forall i, j | 0 <= i < j < |es'| ensures es'[i].key != es'[j].key {
      if j == |es| {
        assert es'[i].key == es[i].key;
      }
    }
    forall x | x in Keys(es') ensures x in Keys(es) + {k} {
      var i :| 0 <= i < |es'| && es'[i].key == x;
      if i < |es| {
        assert es[i].key == x;
      }
    }
    forall x | x in Keys(es) ensures x in Keys(es') {
      var i :| 0 <= i < |es| && es[i].key == x;
      assert es'[i].key == x;
    }
    assert es'[|es|].key == k;
    AsMapRepresents(es);
    RepresentsUnique(es', AsMap(es)[k := v]);
  }

  /** Overwriting the value at a position rebinds only that entry's key. */
  lemma SetValueAtMap<K, V>(es: seq<Entry<K, V>>, i: nat, v: V)
    requires Distinct(es)
    requires i < |es|
    ensures Distinct(SetValueAt(es, i, v))
    ensures Keys(SetValueAt(es, i, v)) == Keys(es)
    ensures AsMap(SetValueAt(es, i, v)) == AsMap(es)[es[i].key := v]
  {
    var es' := SetValueAt(es, i, v);
    forall j | 0 <= j < |es| ensures es'[j].key == es[j].key {
    }
    assert Keys(es') == Keys(es) by {
      forall x | x in Keys(es') ensures x in Keys(es) {
        var j :| 0 <= j < |es'| && es'[j].key == x;
        assert es[j].key == x;
      }
      forall x | x in Keys(es) ensures x in Keys(es') {
        var j :| 0 <= j < |es| && es[j].key == x;
        assert es'[j].key == x;
      }
    }
    AsMapRepresents(es);
    RepresentsUnique(es', AsMap(es)[es[i].key := v]);
  }

  /** Position `j` of RemoveAt(es, i) holds the entry that was at `j`, or at `j + 1` from `i` on. */
  lemma RemoveAtIndex<K, V>(es: seq<Entry<K, V>>, i: nat, j: nat)
    requires i < |es| && j < |es| - 1
    ensures |RemoveAt(es, i)| == |es| - 1
    ensures RemoveAt(es, i)[j] == es[if j < i then j else j + 1]
  {
  }

  lemma RemoveAtDistinct<K, V>(es: seq<Entry<K, V>>, i: nat)
    requires Distinct(es)
    requires i < |es|
    ensures Distinct(RemoveAt(es, i))
  {
    var es' := RemoveAt(es, i);
    forall a, b | 0 <= a < b < |es'| ensures es'[a].key != es'[b].key {
      RemoveAtIndex(es, i, a);
      RemoveAtIndex(es, i, b);
    }
  }

  lemma RemoveAtKeys<K, V>(es: seq<Entry<K, V>>, i: nat)
    requires Distinct(es)
    requires i < |es|
    ensures Keys(RemoveAt(es, i)) == Keys(es) - {es[i].key}
  {
    var es' := RemoveAt(es, i);
    forall x | x in Keys(es') ensures x in Keys(es) - {es[i].key} {
      var j :| 0 <= j < |es'| && es'[j].key == x;
      RemoveAtIndex(es, i, j);
      assert es[if j < i then j else j + 1].key == x;
    }
    forall x | x in Keys(es) - {es[i].key} ensures x in Keys(es') {
      var j :| 0 <= j < |es| && es[j].key == x;
      assert j != i;
      RemoveAtIndex(es, i, if j < i then j else j - 1);
      assert es'[if j < i then j else j - 1].key == x;
    }
  }

  /** Taking out the entry at a position removes exactly its key from the map. */
  lemma RemoveAtMap<K, V>(es: seq<Entry<K, V>>, i: nat)
    requires Distinct(es)
    requires i < |es|
    ensures Distinct(RemoveAt(es, i))
    ensures |RemoveAt(es, i)| == |es| - 1
    ensures Keys(RemoveAt(es, i)) == Keys(es) - {es[i].key}
    ensures AsMap(RemoveAt(es, i)) == AsMap(es) - {es[i].key}
  {
    var es' := RemoveAt(es, i);
    RemoveAtDistinct(es, i);
    RemoveAtKeys(es, i);
    AsMapRepresents(es);
    forall j | 0 <= j < |es'|
      ensures es'[j].key in AsMap(es) - {es[i].key} && (AsMap(es) - {es[i].key})[es'[j].key] == es'[j].value
    {
      RemoveAtIndex(es, i, j);
      assert es'[j] == es[if j < i then j else j + 1];
    }
    RepresentsUnique(es', AsMap(es) - {es[i].key});
  }
}
