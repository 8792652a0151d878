# c10::Dict: a shared, mutable key-value dict with reference-semantics handles

This project models `c10::DictPtr<K, V>`, the dict in PyTorch's ATen core.
The model is built from the contract that `aten/src/ATen/core/Dict_test.cpp`
pins down. The implementation header `ATen/core/Dict.h` is not part of this model.

- `DictEntries` (entries.dfy) is the value-level view of a store. A store is a
  sequence of `Entry(key, value)` with no repeated key (`Distinct`). The map it
  stands for is `AsMap`. `RemoveAt` and `SetValueAt` are the structural changes,
  and the lemmas say exactly what each does to that map.
- `Dict` (dict.dfy) has the imperative model:
  - `Store` is the shared backing store, a class with a mutable `entries` field.
  - `Handle` is `DictPtr`. Its `store` field refers to a `Store`.
  - Copy construction (`Alias`) and copy assignment (`AssignFrom`) make two
    handles share one `Store` object. That sharing is the reference semantics.
  - `Copy()` allocates a fresh `Store`.
  - A move (`MoveFrom`, `MoveAssignFrom`) hands the store over and leaves the
    source on a fresh empty one.
  - `Iterator(store, pos, readOnly, version)` is both `iterator` and
    `const_iterator`. Position `|entries|` is `end()`.
  - Each `Store` has a `version` counter. An insertion, an erase and `clear()`
    bump it. An iterator is usable (`Current`) only while its `version` equals
    its store's.
- `DictScenarios` (scenarios.dfy) restates the gtest cases as client methods.
  Each method's out-parameters are the values the case's `EXPECT_*` lines read.
  Its postconditions are what those lines expect.

The store keeps insertion order: a new key goes at the end, and overwriting a
value keeps the entry's position. The cases themselves accept either order
(lines 108-120). `Traverse` proves that a walk from `begin()` to `end()` meets
every key exactly once, with its value.

`erase(key)` returns a count (0 or 1) in the model. The cases store that count
in a `bool` and compare it with 1 and 0.

## Model

| member | source | states |
|---|---|---|
| `Dict.Handle.MakeDict` | aten/src/ATen/core/Dict_test.cpp:10-13 | make_dict gives a handle on a new store with no entries; the dict's map is empty |
| `Dict.Handle.Empty` | aten/src/ATen/core/Dict_test.cpp:10-19 | empty() is true exactly when the map held is empty, and exactly when size() is 0 |
| `Dict.Handle.Size` | aten/src/ATen/core/Dict_test.cpp:21-31 | size() is the number of distinct keys held |
| `Dict.Handle.Clear` | aten/src/ATen/core/Dict_test.cpp:33-39 | clear() leaves the shared store with no entries, an empty map and size 0, and invalidates its iterators (version + 1) |
| `Dict.Handle.Insert` | aten/src/ATen/core/Dict_test.cpp:41-65 | insert returns true exactly for an absent key; then the entry is appended, the map gains k -> v and size grows by 1; otherwise nothing changes; only an insertion invalidates iterators (version + 1); the iterator returned is at key k with the value now held for k (the old one for an existing key) |
| `Dict.Handle.InsertOrAssign` | aten/src/ATen/core/Dict_test.cpp:67-91 | returns true exactly for an absent key; the map becomes old map with k -> v either way; an existing entry is overwritten in place at its position and size stays; only an insertion invalidates iterators; the iterator is at (k, v) |
| `Dict.Handle.Begin` | aten/src/ATen/core/Dict_test.cpp:93-100 | begin() is a valid, mutable iterator of the dict's store; it is dereferenceable exactly when the dict is not empty, and then at the first entry |
| `Dict.Handle.End` | aten/src/ATen/core/Dict_test.cpp:93-100 | end() is a valid, mutable iterator of the dict's store that is in range but not dereferenceable |
| `Dict.Handle.CBegin` | aten/src/ATen/core/Dict_test.cpp:93-100 | cbegin() is begin() as a const_iterator: dereferenceable exactly when the dict is not empty, then at the first entry |
| `Dict.Handle.CEnd` | aten/src/ATen/core/Dict_test.cpp:93-100 | cend() is a valid const_iterator of the store, in range and not dereferenceable |
| `Dict.Iterator.Key` | aten/src/ATen/core/Dict_test.cpp:484-504 | dereferencing a valid iterator gives a key the dict holds |
| `Dict.Iterator.Value` | aten/src/ATen/core/Dict_test.cpp:484-504 | dereferencing a valid iterator gives the value the dict holds for its key |
| `Dict.Iterator.Equal` | aten/src/ATen/core/Dict_test.cpp:436-482 | two valid dereferenceable iterators of one store are equal exactly when they are at the same key; when either side is end(), two in-range iterators are equal exactly when the other side is end() too, so a dereferenceable iterator never equals end() |
| `Dict.Handle.BeginIsEndIffEmpty` | aten/src/ATen/core/Dict_test.cpp:93-100 | begin() == end() and cbegin() == cend() exactly when the dict is empty |
| `Dict.Handle.Traverse` | aten/src/ATen/core/Dict_test.cpp:102-194 | stepping ++ from begin() to end() yields the store's entries; they have distinct keys, their keys are exactly the keys held, each with its stored value, and there are size() of them |
| `Dict.Iterator.SetValue` | aten/src/ATen/core/Dict_test.cpp:196-201 | setValue replaces the value of the iterator's entry in the shared store; the key, position and all other entries stay, and the map rebinds only that key; other iterators stay valid |
| `Dict.Handle.EraseAt` | aten/src/ATen/core/Dict_test.cpp:203-215 | erase(iterator) takes out that entry, keeps the others in order, removes its key from the map, shrinks size by 1 and invalidates the store's iterators |
| `Dict.Handle.Erase` | aten/src/ATen/core/Dict_test.cpp:217-231 | erase(k) returns 1 if k was present and 0 otherwise; the map loses k; size shrinks by the count; an absent key leaves the entries and the iterators unchanged; a removal invalidates them |
| `Dict.Handle.At` | aten/src/ATen/core/Dict_test.cpp:233-245 | at(k) is Ok(value held for k) for a present key and Err(OutOfRange) for an absent one |
| `Dict.Handle.IndexOf` | aten/src/ATen/core/Dict_test.cpp:247-262 | the key lookup: the position of k's entry, or the entry count exactly when k is absent |
| `Dict.Handle.Find` | aten/src/ATen/core/Dict_test.cpp:247-281 | find(k) equals end() exactly when k is absent; otherwise it is at key k with the value held for k |
| `Dict.Handle.Contains` | aten/src/ATen/core/Dict_test.cpp:283-295 | contains(k) is true exactly when k is held |
| `Dict.Handle.Reserve` | aten/src/ATen/core/Dict_test.cpp:297-300 | reserve(n) changes no state, so the entries stay as they were |
| `Dict.Handle.Alias` | aten/src/ATen/core/Dict_test.cpp:302-312 | copy construction yields a handle on the same store object as the source |
| `Dict.Handle.AssignFrom` | aten/src/ATen/core/Dict_test.cpp:314-325 | copy assignment makes the handle refer to the source's store object |
| `Dict.Handle.On` | aten/src/ATen/core/Dict_test.cpp:327-337 | a handle on a given valid store; copy() uses it to put its new store behind a new handle |
| `Dict.Handle.Copy` | aten/src/ATen/core/Dict_test.cpp:327-337 | copy() yields a new handle on a newly allocated store with the same entries in the same order and the same map |
| `Dict.Handle.MoveFrom` | aten/src/ATen/core/Dict_test.cpp:339-349 | move construction: the new handle has the source's old store; the source is valid, on a new store with no entries |
| `Dict.Handle.MoveAssignFrom` | aten/src/ATen/core/Dict_test.cpp:351-362 | move assignment: the destination has the source's old store (two distinct handles); the source is left on a new empty store |
| `Dict.Iterator.ToConst` | aten/src/ATen/core/Dict_test.cpp:383-390 | conversion to const_iterator keeps the store and the position, so it compares equal and is at the same key and value |
| `Dict.Iterator.PostIncrement` | aten/src/ATen/core/Dict_test.cpp:392-412 | iter++ yields the old position while the variable moves to the next position (pos + 1) of the same store, which compares unequal and (if not end) has a different key |
| `Dict.Iterator.PreIncrement` | aten/src/ATen/core/Dict_test.cpp:414-434 | ++iter moves the variable to the next position (pos + 1) of the same store and yields that new position; it is unequal to the old one and (if not end) has a different key |
| `DictEntries.AsMapSize` | aten/src/ATen/core/Dict_test.cpp:26-31 | with distinct keys, the entry count equals the number of keys in the map |
| `DictEntries.AsMapKeys` | aten/src/ATen/core/Dict_test.cpp:283-295 | the map's keys are exactly the keys of the entries |
| `DictEntries.AsMapAt` | aten/src/ATen/core/Dict_test.cpp:233-238 | every entry's key is in the map, bound to that entry's value |
| `DictEntries.RepresentsUnique` | aten/src/ATen/core/Dict_test.cpp:102-123 | a store with distinct keys stands for exactly one map: the one with its keys and their entry values |
| `DictEntries.AppendFresh` | aten/src/ATen/core/Dict_test.cpp:41-47 | appending an absent key keeps keys distinct and adds exactly k -> v to the map |
| `DictEntries.SetValueAtMap` | aten/src/ATen/core/Dict_test.cpp:75-91 | overwriting a value in place keeps the keys and distinctness and rebinds only that key |
| `DictEntries.RemoveAtMap` | aten/src/ATen/core/Dict_test.cpp:203-231 | removing one entry keeps keys distinct, shortens by one and removes exactly its key from the map |
| `DictScenarios.FreshDictIsEmpty` | aten/src/ATen/core/Dict_test.cpp:93-100 | a new dict: empty, size 0, begin() == end(), cbegin() == cend(); on a second new dict seen as const, the const begin() == end() and cbegin() == cend() |
| `DictScenarios.InsertThenClear` | aten/src/ATen/core/Dict_test.cpp:15-39 | after inserting 3 and 4: not empty, size 2; after clear(): empty |
| `DictScenarios.InsertNewKey` | aten/src/ATen/core/Dict_test.cpp:41-47 | insert(3, "value") returns true and an iterator at (3, "value") |
| `DictScenarios.InsertExistingKey` | aten/src/ATen/core/Dict_test.cpp:49-65 | a second insert(3, …) returns false, an iterator at (3, "old_value"); size 1 and begin() at (3, "old_value") |
| `DictScenarios.InsertOrAssignNewKey` | aten/src/ATen/core/Dict_test.cpp:67-73 | insert_or_assign(3, "value") returns true and an iterator at (3, "value") |
| `DictScenarios.InsertOrAssignExistingKey` | aten/src/ATen/core/Dict_test.cpp:75-91 | insert_or_assign on 3 returns false, an iterator at (3, "new_value"); size 1 and begin() at (3, "new_value") |
| `DictScenarios.IterateFindsElements` | aten/src/ATen/core/Dict_test.cpp:102-123 | the test's loop finds key 3 once with "3", key 5 once with "5", and hits no failure branch |
| `DictScenarios.SetValueThroughIterator` | aten/src/ATen/core/Dict_test.cpp:506-517 | two setValue calls through one iterator are each read back by begin()->value(); size stays 1 |
| `DictScenarios.EraseByIterator` | aten/src/ATen/core/Dict_test.cpp:203-215 | erase(cbegin()) and erase(begin()) on a one-entry dict leave it empty |
| `DictScenarios.EraseByKey` | aten/src/ATen/core/Dict_test.cpp:217-231 | erase(3) on {3} returns 1 and empties it; erase(4) returns 0 and size stays 1 |
| `DictScenarios.Lookup` | aten/src/ATen/core/Dict_test.cpp:233-295 | at(4) == "4", at(5) is out_of_range, find(3) at (3, "3") and find(5) == end(), each also as const_iterator, contains(3), not contains(5) |
| `DictScenarios.CopiesAreEqual` | aten/src/ATen/core/Dict_test.cpp:302-337 | copy construction, copy assignment and copy() each see size 2, at(3) == "3" and at(4) == "4" |
| `DictScenarios.MovesTransferContents` | aten/src/ATen/core/Dict_test.cpp:339-381 | after move construction and after move assignment the destination has size 2, at(3) == "3" and at(4) == "4"; the source is empty |
| `DictScenarios.MutableToConstIterator` | aten/src/ATen/core/Dict_test.cpp:383-390 | on {3: "3"}, begin() converted to const_iterator reads key 3 and value "3" |
| `DictScenarios.PostfixIncrement` | aten/src/ATen/core/Dict_test.cpp:392-412 | on {3, 4}, `iter2 = iter1++` from begin() and from cbegin(): iter1's key differs from begin()'s and iter2's equals it |
| `DictScenarios.PrefixIncrement` | aten/src/ATen/core/Dict_test.cpp:414-434 | on {3, 4}, `iter2 = ++iter1` from begin() and from cbegin(): both keys differ from begin()'s |
| `DictScenarios.IteratorEquality` | aten/src/ATen/core/Dict_test.cpp:436-482 | on {3, 4}, two begin()s and two cbegin()s are == and not !=; after `iter2++` they are != and not == |
| `DictScenarios.Dereference` | aten/src/ATen/core/Dict_test.cpp:484-504 | on {3: "3"}, begin() and cbegin() both read key 3 and value "3" |
| `DictScenarios.IsReferenceType` | aten/src/ATen/core/Dict_test.cpp:519-529 | after an insert through dict1, dict1 and both of its handle copies have size 1 |
| `DictScenarios.CopyHasSeparateStorage` | aten/src/ATen/core/Dict_test.cpp:531-541 | after an insert into dict1, dict1 has size 1 and both copy() results (one moved into dict3) stay at size 0 |

## Left out

- Hashing and the key -> position index: the model finds a key by a linear scan
  (`IndexOf`). The hash function and the bucket layout are not observable here.
- Reference counting and freeing the store when the last handle goes away:
  Dafny's heap of objects stands for shared ownership.
- Allocation failure: the model assumes allocation always succeeds.
- Iterator invalidation is modelled conservatively. Every insertion, every erase
  and `clear()` invalidates all of a store's iterators, including the end()
  iterator. The original may keep some of them valid, but none of its cases
  relies on that. Dereferencing, comparing, stepping and erasing through an
  invalidated iterator is undefined in the original; the model rules it out with
  `requires` (`Current`). Comparing iterators of two different stores is
  undefined too, and the model rules it out with `it.store == other.store`.
- `iterator` versus `const_iterator` is one type with a `readOnly` flag.
  `SetValue` requires the flag to be off. A `const` handle's `begin()` and
  `find()` are modelled as the mutable ones followed by `ToConst`.
- `(*iter).key()` and `iter->key()` are the same dereference in the model.
- Self move-assignment (`d = std::move(d)`) is not exercised by any case. The
  model leaves such a handle on a fresh empty store.
- Keys, values and the type-erased `IValue` machinery: the model is generic over
  any key type with equality and any value type. The scenarios use int keys and
  string values, as the cases do.
- Concurrency: none is exercised or promised.
- The gtest harness (`TEST`, `EXPECT_*`, `ADD_FAILURE`): each assertion is a
  postcondition of a scenario method instead.
