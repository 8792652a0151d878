/**
 * c10::DictPtr<K, V>: a handle with reference semantics over a shared,
 * mutable backing store of (key, value) entries.  Copying a handle shares
 * the store, Copy() duplicates it, moving a handle hands the store over and
 * leaves the source on a new empty one.  Iterators are (store, position)
 * values; position |entries| is end().  Every structural change to a store
 * (an insertion, an erase, clear()) bumps its version, and an iterator is
 * usable only while it carries its store's current version: one taken before
 * such a change is invalidated, as the original leaves it undefined.
 */
module Dict {
  import opened DictEntries

  /** The backing store that handles share. */
  class Store<K(==), V> {
    var entries: seq<Entry<K, V>>
    /** Bumped by every change that invalidates the store's iterators. */
    var version: nat

    predicate Valid()
      reads this
    {
      Distinct(entries)
    }

    constructor (es: seq<Entry<K, V>>)
      requires Distinct(es)
      ensures Valid() && entries == es && version == 0
    {
      entries := es;
      version := 0;
    }
  }

  /**
   * One iterator type for both kinds; a const_iterator has `readOnly` set.
   * `version` is the store's version when the iterator was made.
   */
  datatype Iterator<K(==), V> = Iterator(store: Store<K, V>, pos: nat, readOnly: bool, version: nat)
  {
    /** Not invalidated: no structural change since the iterator was made. */
    predicate Current()
      reads store
    {
      version == store.version
    }

    /** Dereferenceable: not invalidated and strictly before end(). */
    predicate AtEntry()
      reads store
    {
      Current() && pos < |store.entries|
    }

    /** Not invalidated, and at an entry or at end(). */
    predicate InRange()
      reads store
    {
      Current() && pos <= |store.entries|
    }

    /** `iter->key()`: the key of an entry the dict holds. */
    function Key(): (k: K)
      reads store
      requires AtEntry()
      ensures store.Valid() ==> k in AsMap(store.entries)
    {
      EntryInMap(store.entries, pos);
      store.entries[pos].key
    }

    /** `iter->value()`: the value the dict holds for the iterator's key. */
    function Value(): (v: V)
      reads store
      requires AtEntry()
      ensures store.Valid() ==> AsMap(store.entries)[Key()] == v
    {
      EntryInMap(store.entries, pos);
      store.entries[pos].value
    }

    /**
     * `==` on iterators of one store.  Whether either one is a const_iterator
     * does not matter.  Comparing iterators of two different stores, or an
     * invalidated one, is left undefined, as in the original.
     */
    function Equal(other: Iterator<K, V>): (b: bool)
      reads store
      requires store == other.store && Current() && other.Current()
      ensures store.Valid() && AtEntry() && other.AtEntry() ==> (b <==> Key() == other.Key())
      ensures InRange() && other.InRange() && !AtEntry() ==> (b <==> !other.AtEntry())
      ensures InRange() && other.InRange() && !other.AtEntry() ==> (b <==> !AtEntry())
    {
      pos == other.pos
    }

    /** The iterator one entry further. */
    function Next(): Iterator<K, V>
      reads store
      requires AtEntry()
    {
      Iterator(store, pos + 1, readOnly, version)
    }

    /**
     * `++iter`: the pair (new value of the variable, value of the expression).
     * Both are the next position, which is a different entry (its key differs).
     */
    function PreIncrement(): (r: (Iterator<K, V>, Iterator<K, V>))
      reads store
      requires store.Valid() && AtEntry()
      ensures r.0 == r.1
      ensures r.0.store == store && r.0.readOnly == readOnly && r.0.pos == pos + 1 && r.0.InRange()
      ensures !r.0.Equal(this)
      ensures r.0.AtEntry() ==> r.0.Key() != Key()
    {
      (Next(), Next())
    }

    /**
     * `iter++`: the pair (new value of the variable, value of the expression).
     * The variable moves on to a different entry; the expression is the old position.
     */
    function PostIncrement(): (r: (Iterator<K, V>, Iterator<K, V>))
      reads store
      requires store.Valid() && AtEntry()
      ensures r.1 == this
      ensures r.0.store == store && r.0.readOnly == readOnly && r.0.pos == pos + 1 && r.0.InRange()
      ensures !r.0.Equal(r.1)
      ensures r.0.AtEntry() ==> r.0.Key() != r.1.Key()
    {
      (Next(), this)
    }

    /** The implicit conversion iterator -> const_iterator: same entry, now read-only. */
    function ToConst(): (c: Iterator<K, V>)
      reads store
      ensures c.readOnly && c.store == store && (c.Current() <==> Current())
      ensures Current() ==> c.Equal(this)
      ensures AtEntry() ==> c.AtEntry() && c.Key() == Key() && c.Value() == Value()
    {
      Iterator(store, pos, true, version)
    }

    /**
     * `iter->setValue(v)`: overwrites the value of the entry in place, in the
     * shared store; the key, the position and every other entry stay.
     */
    method SetValue(v: V)
      requires store.Valid() && !readOnly && AtEntry()
      modifies store
      ensures store.Valid() && store.version == old(store.version)
      ensures store.entries == SetValueAt(old(store.entries), pos, v)
      ensures AsMap(store.entries) == old(AsMap(store.entries))[old(Key()) := v]
      ensures AtEntry() && Key() == old(Key()) && Value() == v
    {
      SetValueAtMap(store.entries, pos, v);
      store.entries := SetValueAt(store.entries, pos, v);
    }
  }

  /** DictPtr<K, V>: a handle that is never null and always refers to one store. */
  class Handle<K(==), V> {
    var store: Store<K, V>

    predicate Valid()
      reads this, store
    {
      store.Valid()
    }

    /** The map the shared store stands for. */
    function Contents(): map<K, V>
      reads this, store
    {
      AsMap(store.entries)
    }

    /** make_dict<K, V>(): a new handle on a new empty store. */
    constructor MakeDict()
      ensures Valid() && fresh(store)
      ensures store.entries == [] && Contents() == map[]
    {
      store := new Store([]);
    }

    /** Copy construction `DictPtr d2(d1)`: both handles share one store. */
    constructor Alias(other: Handle<K, V>)
      requires other.Valid()
      ensures Valid() && store == other.store
    {
      store := other.store;
    }

    /** Copy assignment `d2 = d1`: this handle now shares the other's store. */
    method AssignFrom(other: Handle<K, V>)
      requires other.Valid()
      modifies this
      ensures Valid() && store == other.store
    {
      store := other.store;
    }

    /**
     * Move construction `DictPtr d2(std::move(d1))`: the store goes over to the
     * new handle and the source is left valid, on a new empty store.
     */
    constructor MoveFrom(other: Handle<K, V>)
      requires other.Valid()
      modifies other
      ensures Valid() && store == old(other.store)
      ensures other.Valid() && fresh(other.store) && other.store.entries == []
    {
      store := other.store;
      new;
      other.store := new Store([]);
    }

    /**
     * Move assignment `d2 = std::move(d1)`: as move construction.  When both
     * sides are one handle, it ends up on the new empty store.
     */
    method MoveAssignFrom(other: Handle<K, V>)
      requires Valid() && other.Valid()
      modifies this, other
      ensures Valid() && other.Valid()
      ensures other != this ==> store == old(other.store)
      ensures fresh(other.store) && other.store.entries == []
    {
      store := other.store;
      other.store := new Store([]);
    }

    /** A handle on the given store. */
    constructor On(s: Store<K, V>)
      requires s.Valid()
      ensures Valid() && store == s
    {
      store := s;
    }

    /** copy(): a new handle on a new store with the same entries in the same order. */
    method Copy() returns (h: Handle<K, V>)
      requires Valid()
      ensures fresh(h) && fresh(h.store) && h.Valid()
      ensures h.store.entries == store.entries && h.Contents() == Contents()
    {
      var duplicate := new Store(store.entries);
      h := new Handle.On(duplicate);
    }

    /** size(): the number of keys held. */
    function Size(): (n: nat)
      reads this, store
      requires Valid()
      ensures n == |Contents()|
    {
      AsMapSize(store.entries);
      |store.entries|
    }

    /** empty(): no key is held. */
    function Empty(): (b: bool)
      reads this, store
      requires Valid()
      ensures b <==> Contents() == map[]
      ensures b <==> Size() == 0
    {
      EmptyIffNoEntries(store.entries);
      |store.entries| == 0
    }

    /** begin(): at the first entry, or at end() when the dict is empty. */
    function Begin(): (it: Iterator<K, V>)
      reads this, store
      requires Valid()
      ensures it.store == store && !it.readOnly && it.InRange()
      ensures it.AtEntry() <==> !Empty()
      ensures it.AtEntry() ==> it.Key() == store.entries[0].key
    {
      Iterator(store, 0, false, store.version)
    }

    /** end(): one past the last entry; it is in range but not dereferenceable. */
    function End(): (it: Iterator<K, V>)
      reads this, store
      ensures it.store == store && !it.readOnly && it.InRange() && !it.AtEntry()
    {
      Iterator(store, |store.entries|, false, store.version)
    }

    /** cbegin(): begin() as a const_iterator. */
    function CBegin(): (it: Iterator<K, V>)
      reads this, store
      requires Valid()
      ensures it.store == store && it.readOnly && it.InRange()
      ensures it.AtEntry() <==> !Empty()
      ensures it.AtEntry() ==> it.Key() == store.entries[0].key
    {
      Iterator(store, 0, true, store.version)
    }

    /** cend(): end() as a const_iterator. */
    function CEnd(): (it: Iterator<K, V>)
      reads this, store
      ensures it.store == store && it.readOnly && it.InRange() && !it.AtEntry()
    {
      Iterator(store, |store.entries|, true, store.version)
    }

    /** begin() == end() and cbegin() == cend() exactly when the dict is empty. */
    lemma BeginIsEndIffEmpty()
      requires Valid()
      ensures Begin().Equal(End()) <==> Empty()
      ensures CBegin().Equal(CEnd()) <==> Empty()
      ensures !Empty() ==> Begin().AtEntry() && CBegin().AtEntry()
    {
    }

    /** The position of the entry for `k`, or |entries| when there is none. */
    method IndexOf(k: K) returns (i: nat)
      requires Valid()
      ensures i <= |store.entries|
      ensures i < |store.entries| ==> store.entries[i].key == k
      ensures i == |store.entries| <==> k !in Contents()
    {
      var es := store.entries;
      i := 0;
      while i < |es| && es[i].key != k
        invariant i <= |es|
        invariant forall j :: 0 <= j < i ==> es[j].key != k
      {
        i := i + 1;
      }
      AsMapKeys(es);
    }

    /** find(k): an iterator at the entry for `k`, or end() when there is none. */
    method Find(k: K) returns (it: Iterator<K, V>)
      requires Valid()
      ensures it.store == store && !it.readOnly && it.InRange()
      ensures it.Equal(End()) <==> k !in Contents()
      ensures it.AtEntry() ==> it.Key() == k && k in Contents() && it.Value() == Contents()[k]
    {
      var i := IndexOf(k);
      it := Iterator(store, i, false, store.version);
      if i < |store.entries| {
        AsMapAt(store.entries, i);
      }
    }

    /** contains(k) */
    method Contains(k: K) returns (b: bool)
      requires Valid()
      ensures b <==> k in Contents()
    {
      var i := IndexOf(k);
      b := i < |store.entries|;
    }

    /** at(k): the value held for `k`; out_of_range when `k` is absent. */
    method At(k: K) returns (r: Result<V>)
      requires Valid()
      ensures k in Contents() ==> r == Ok(Contents()[k])
      ensures k !in Contents() ==> r == Err(OutOfRange)
    {
      var it := Find(k);
      if it.AtEntry() {
        r := Ok(it.Value());
      } else {
        r := Err(OutOfRange);
      }
    }

    /**
     * insert(k, v): on an absent key appends the entry and returns (iterator
     * to it, true); on a present key changes nothing and returns (iterator to
     * the existing entry, false).
     */
    method Insert(k: K, v: V) returns (it: Iterator<K, V>, inserted: bool)
      requires Valid()
      modifies store
      ensures Valid()
      ensures inserted <==> k !in old(Contents())
      ensures inserted ==> store.entries == old(store.entries) + [Entry(k, v)]
      ensures !inserted ==> store.entries == old(store.entries)
      ensures store.version == old(store.version) + (if inserted then 1 else 0)
      ensures Contents() == if inserted then old(Contents())[k := v] else old(Contents())
      ensures Size() == old(Size()) + (if inserted then 1 else 0)
      ensures it.store == store && !it.readOnly && it.AtEntry()
      ensures it.Key() == k && it.Value() == Contents()[k]
    {
      AsMapSize(store.entries);
      AsMapKeys(store.entries);
      var i := IndexOf(k);
      if i < |store.entries| {
        inserted := false;
      } else {
        inserted := true;
        AppendFresh(store.entries, k, v);
        store.entries := store.entries + [Entry(k, v)];
        store.version := store.version + 1;
      }
      it := Iterator(store, i, false, store.version);
      AsMapAt(store.entries, i);
      AsMapSize(store.entries);
    }

    /**
     * insert_or_assign(k, v): on an absent key as insert; on a present key
     * overwrites its value in place and returns (iterator to it, false).
     */
    method InsertOrAssign(k: K, v: V) returns (it: Iterator<K, V>, inserted: bool)
      requires Valid()
      modifies store
      ensures Valid()
      ensures inserted <==> k !in old(Contents())
      ensures inserted ==> store.entries == old(store.entries) + [Entry(k, v)]
      ensures !inserted ==> it.pos < |old(store.entries)| && old(store.entries)[it.pos].key == k
                            && store.entries == SetValueAt(old(store.entries), it.pos, v)
      ensures store.version == old(store.version) + (if inserted then 1 else 0)
      ensures Contents() == old(Contents())[k := v]
      ensures Size() == old(Size()) + (if inserted then 1 else 0)
      ensures it.store == store && !it.readOnly && it.AtEntry()
      ensures it.Key() == k && it.Value() == v
    {
      AsMapSize(store.entries);
      AsMapKeys(store.entries);
      var i := IndexOf(k);
      if i < |store.entries| {
        inserted := false;
        SetValueAtMap(store.entries, i, v);
        store.entries := SetValueAt(store.entries, i, v);
      } else {
        inserted := true;
        AppendFresh(store.entries, k, v);
        store.entries := store.entries + [Entry(k, v)];
        store.version := store.version + 1;
      }
      it := Iterator(store, i, false, store.version);
      AsMapSize(store.entries);
    }

    /** erase(iterator): takes out the entry the iterator is at; the others keep their order. */
    method EraseAt(it: Iterator<K, V>)
      requires Valid()
      requires it.store == store && it.AtEntry()
      modifies store
      ensures Valid()
      ensures store.entries == RemoveAt(old(store.entries), it.pos)
      ensures store.version == old(store.version) + 1
      ensures Contents() == old(Contents()) - {old(it.Key())}
      ensures Size() == old(Size()) - 1
    {
      AsMapSize(store.entries);
      RemoveAtMap(store.entries, it.pos);
      store.entries := RemoveAt(store.entries, it.pos);
      store.version := store.version + 1;
      AsMapSize(store.entries);
    }

    /** erase(k): the number of entries removed, 1 when `k` was present and 0 otherwise. */
    method Erase(k: K) returns (count: nat)
      requires Valid()
      modifies store
      ensures Valid()
      ensures count == if k in old(Contents()) then 1 else 0
      ensures Contents() == old(Contents()) - {k}
      ensures Size() == old(Size()) - count
      ensures count == 0 ==> store.entries == old(store.entries)
      ensures store.version == old(store.version) + count
      ensures count == 1 ==> exists i :: 0 <= i < |old(store.entries)| && old(store.entries)[i].key == k
                                         && store.entries == RemoveAt(old(store.entries), i)
    {
      var it := Find(k);
      if it.AtEntry() {
        EraseAt(it);
        count := 1;
      } else {
        count := 0;
      }
    }

    /** clear(): every handle on this store sees it empty. */
    method Clear()
      requires Valid()
      modifies store
      ensures Valid()
      ensures store.entries == [] && Contents() == map[] && Size() == 0
      ensures store.version == old(store.version) + 1
    {
      store.entries := [];
      store.version := store.version + 1;
    }

    /** reserve(n): a capacity hint only; nothing observable changes. */
    method Reserve(n: nat)
      requires Valid()
      ensures Valid() && store.entries == old(store.entries) && store.version == old(store.version)
    {
    }

    /**
     * A walk from begin() to end() with `++iter`, as a range-for does: it
     * meets the entries in store order, so it meets every key held exactly
     * once, each with its value.
     */
    method Traverse() returns (seen: seq<Entry<K, V>>)
      requires Valid()
      ensures seen == store.entries
      ensures |seen| == Size()
      ensures Distinct(seen)
      ensures Keys(seen) == Contents().Keys
      ensures forall i :: 0 <= i < |seen| ==> seen[i].key in Contents() && Contents()[seen[i].key] == seen[i].value
    {
      seen := [];
      var it := Begin();
      while !it.Equal(End())
        invariant it.store == store && it.InRange()
        invariant seen == store.entries[..it.pos]
        decreases |store.entries| - it.pos
      {
        seen := seen + [Entry(it.Key(), it.Value())];
        it := it.PreIncrement().0;
      }
      AsMapRepresents(store.entries);
    }
  }
}
