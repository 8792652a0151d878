/**
 * The gtest cases of Dict_test.cpp, each written as a client of the model:
 * the out-parameters are the values the test's EXPECT_* lines look at and
 * the postconditions are what those lines expect of them.
 */
module DictScenarios {
  import opened DictEntries
  import opened Dict

  /**
   * A new dict is empty, has size 0, and begin() == end(), cbegin() == cend().
   * On a second new dict viewed as const, begin() and end() are const
   * iterators, and they too are equal, as are cbegin() and cend().
   */
  method FreshDictIsEmpty() returns (empty: bool, size: nat, beginIsEnd: bool, cbeginIsCend: bool,
                                     constBeginIsEnd: bool, constCbeginIsCend: bool)
    ensures empty && size == 0 && beginIsEnd && cbeginIsCend
    ensures constBeginIsEnd && constCbeginIsCend
  {
    var dict := new Handle<int, string>.MakeDict();
    empty := dict.Empty();
    size := dict.Size();
    dict.BeginIsEndIffEmpty();
    beginIsEnd := dict.Begin().Equal(dict.End());
    cbeginIsCend := dict.CBegin().Equal(dict.CEnd());

    var cdict := new Handle<int, string>.MakeDict();
    constBeginIsEnd := cdict.Begin().ToConst().Equal(cdict.End().ToConst());
    constCbeginIsCend := cdict.CBegin().Equal(cdict.CEnd());
  }

  /** After inserting keys 3 and 4 the dict is not empty and has size 2; clear() empties it. */
  method InsertThenClear() returns (emptyAfterInsert: bool, sizeAfterInsert: nat, emptyAfterClear: bool)
    ensures !emptyAfterInsert && sizeAfterInsert == 2 && emptyAfterClear
  {
    var dict := new Handle<int, string>.MakeDict();
    var _, _ := dict.Insert(3, "value");
    var _, _ := dict.Insert(4, "value2");
    emptyAfterInsert := dict.Empty();
    sizeAfterInsert := dict.Size();
    dict.Clear();
    emptyAfterClear := dict.Empty();
  }

  /** insert on a new key returns true and an iterator to (3, "value"). */
  method InsertNewKey() returns (inserted: bool, key: int, value: string)
    ensures inserted && key == 3 && value == "value"
  {
    var dict := new Handle<int, string>.MakeDict();
    var it;
    it, inserted := dict.Insert(3, "value");
    key, value := it.Key(), it.Value();
  }

  /**
   * insert on an existing key returns false and an iterator to the old entry,
   * and leaves the dict at size 1 with the old value.
   */
  method InsertExistingKey() returns (inserted: bool, key: int, value: string, size: nat, beginKey: int, beginValue: string)
    ensures !inserted && key == 3 && value == "old_value"
    ensures size == 1 && beginKey == 3 && beginValue == "old_value"
  {
    var dict := new Handle<int, string>.MakeDict();
    var _, _ := dict.Insert(3, "old_value");
    var it;
    it, inserted := dict.Insert(3, "new_value");
    key, value := it.Key(), it.Value();
    size := dict.Size();
    beginKey, beginValue := dict.Begin().Key(), dict.Begin().Value();
  }

  /** insert_or_assign on a new key returns true and an iterator to (3, "value"). */
  method InsertOrAssignNewKey() returns (inserted: bool, key: int, value: string)
    ensures inserted && key == 3 && value == "value"
  {
    var dict := new Handle<int, string>.MakeDict();
    var it;
    it, inserted := dict.InsertOrAssign(3, "value");
    key, value := it.Key(), it.Value();
  }

  /**
   * insert_or_assign on an existing key returns false and an iterator to the
   * changed entry, and leaves the dict at size 1 with the new value.
   */
  method InsertOrAssignExistingKey() returns (inserted: bool, key: int, value: string, size: nat, beginKey: int, beginValue: string)
    ensures !inserted && key == 3 && value == "new_value"
    ensures size == 1 && beginKey == 3 && beginValue == "new_value"
  {
    var dict := new Handle<int, string>.MakeDict();
    var _, _ := dict.Insert(3, "old_value");
    var it;
    it, inserted := dict.InsertOrAssign(3, "new_value");
    key, value := it.Key(), it.Value();
    size := dict.Size();
    beginKey, beginValue := dict.Begin().Key(), dict.Begin().Value();
  }

  /**
   * The loop of the iteration tests: walking begin() to end() over {3: "3",
   * 5: "5"} finds each key once with its value and nothing else.
   * `failures` counts the ADD_FAILURE and EXPECT_FALSE(found_*) lines that fire.
   */
  method IterateFindsElements() returns (foundFirst: bool, foundSecond: bool, failures: int)
    ensures foundFirst && foundSecond && failures == 0
  {
    var dict := new Handle<int, string>.MakeDict();
    var _, _ := dict.Insert(3, "3");
    var _, _ := dict.Insert(5, "5");
    assert dict.store.entries == [Entry(3, "3"), Entry(5, "5")];
    foundFirst, foundSecond, failures := false, false, 0;
    var iter := dict.Begin();
    while !iter.Equal(dict.End())
      invariant iter.store == dict.store && iter.InRange() && !iter.readOnly
      invariant foundFirst <==> iter.pos > 0
      invariant foundSecond <==> iter.pos > 1
      invariant failures == 0
      decreases |dict.store.entries| - iter.pos
    {
      if iter.Key() == 3 {
        if iter.Value() != "3" || foundFirst { failures := failures + 1; }
        foundFirst := true;
      } else if iter.Key() == 5 {
        if iter.Value() != "5" || foundSecond { failures := failures + 1; }
        foundSecond := true;
      } else {
        failures := failures + 1;
      }
      iter := iter.PreIncrement().0;
    }
  }

  /** setValue through begin(), once and again, is what a later begin()->value() reads. */
  method SetValueThroughIterator() returns (first: string, second: string, size: nat)
    ensures first == "new_value" && second == "new_value_2" && size == 1
  {
    var dict := new Handle<int, string>.MakeDict();
    var _, _ := dict.Insert(3, "3");
    var iter := dict.Begin();
    iter.SetValue("new_value");
    first := dict.Begin().Value();
    iter.SetValue("new_value_2");
    second := dict.Begin().Value();
    size := dict.Size();
  }

  /** erase(cbegin()) and erase(begin()) on a one-entry dict leave it empty. */
  method EraseByIterator() returns (emptyAfterConst: bool, emptyAfterMutable: bool)
    ensures emptyAfterConst && emptyAfterMutable
  {
    var dict := new Handle<int, string>.MakeDict();
    var _, _ := dict.Insert(3, "3");
    dict.EraseAt(dict.CBegin());
    emptyAfterConst := dict.Empty();
    var _, _ := dict.Insert(3, "3");
    dict.EraseAt(dict.Begin());
    emptyAfterMutable := dict.Empty();
  }

  /** erase(3) on {3} returns 1 and empties it; erase(4) on {3} returns 0 and keeps size 1. */
  method EraseByKey() returns (presentCount: nat, emptyAfter: bool, absentCount: nat, sizeAfter: nat)
    ensures presentCount == 1 && emptyAfter
    ensures absentCount == 0 && sizeAfter == 1
  {
    var dict := new Handle<int, string>.MakeDict();
    var _, _ := dict.Insert(3, "3");
    presentCount := dict.Erase(3);
    emptyAfter := dict.Empty();
    var other := new Handle<int, string>.MakeDict();
    var _, _ := other.Insert(3, "3");
    absentCount := other.Erase(4);
    sizeAfter := other.Size();
  }

  /**
   * On {3: "3", 4: "4"}: at(4) is "4" and at(5) is out_of_range; find(3)
   * is at (3, "3") for the mutable and the const iterator and find(5) is
   * end(), again for both; contains(3) and not contains(5).
   */
  method Lookup() returns (at4: Result<string>, at5: Result<string>, foundKey: int, foundValue: string,
                           constFoundKey: int, constFoundValue: string, missingIsEnd: bool,
                           constMissingIsEnd: bool, has3: bool, has5: bool)
    ensures at4 == Ok("4") && at5 == Err(OutOfRange)
    ensures foundKey == 3 && foundValue == "3" && constFoundKey == 3 && constFoundValue == "3"
    ensures missingIsEnd && constMissingIsEnd && has3 && !has5
  {
    var dict := new Handle<int, string>.MakeDict();
    var _, _ := dict.Insert(3, "3");
    var _, _ := dict.Insert(4, "4");
    at4 := dict.At(4);
    at5 := dict.At(5);
    var found := dict.Find(3);
    foundKey, foundValue := found.Key(), found.Value();
    var constFound := found.ToConst();
    constFoundKey, constFoundValue := constFound.Key(), constFound.Value();
    var missing := dict.Find(5);
    missingIsEnd := missing.Equal(dict.End());
    constMissingIsEnd := missing.ToConst().Equal(dict.End().ToConst());
    has3 := dict.Contains(3);
    has5 := dict.Contains(5);
  }

  /**
   * Copy construction, copy assignment and copy() all give a dict of size 2
   * with at(3) == "3" and at(4) == "4".
   */
  method CopiesAreEqual() returns (aliasSize: nat, aliasAt3: Result<string>, aliasAt4: Result<string>,
                                   assignedSize: nat, assignedAt3: Result<string>, assignedAt4: Result<string>,
                                   copySize: nat, copyAt3: Result<string>, copyAt4: Result<string>)
    ensures aliasSize == 2 && aliasAt3 == Ok("3") && aliasAt4 == Ok("4")
    ensures assignedSize == 2 && assignedAt3 == Ok("3") && assignedAt4 == Ok("4")
    ensures copySize == 2 && copyAt3 == Ok("3") && copyAt4 == Ok("4")
  {
    var dict1 := new Handle<int, string>.MakeDict();
    var _, _ := dict1.Insert(3, "3");
    var _, _ := dict1.Insert(4, "4");
    var dict2 := new Handle.Alias(dict1);
    aliasSize := dict2.Size();
    aliasAt3 := dict2.At(3);
    aliasAt4 := dict2.At(4);
    var dict3 := new Handle<int, string>.MakeDict();
    dict3.AssignFrom(dict1);
    assignedSize := dict3.Size();
    assignedAt3 := dict3.At(3);
    assignedAt4 := dict3.At(4);
    var dict4 := dict1.Copy();
    copySize := dict4.Size();
    copyAt3 := dict4.At(3);
    copyAt4 := dict4.At(4);
  }

  /**
   * Move construction and move assignment give the destination size 2 with
   * both values, and leave the source empty.
   */
  method MovesTransferContents() returns (movedSize: nat, movedAt3: Result<string>, movedAt4: Result<string>,
                                          sourceEmpty: bool, assignedSize: nat, assignedAt3: Result<string>,
                                          assignedAt4: Result<string>, assignSourceEmpty: bool)
    ensures movedSize == 2 && movedAt3 == Ok("3") && movedAt4 == Ok("4") && sourceEmpty
    ensures assignedSize == 2 && assignedAt3 == Ok("3") && assignedAt4 == Ok("4") && assignSourceEmpty
  {
    var dict1 := new Handle<int, string>.MakeDict();
    var _, _ := dict1.Insert(3, "3");
    var _, _ := dict1.Insert(4, "4");
    var dict2 := new Handle.MoveFrom(dict1);
    movedSize := dict2.Size();
    movedAt3 := dict2.At(3);
    movedAt4 := dict2.At(4);
    sourceEmpty := dict1.Empty();

    var dict3 := new Handle<int, string>.MakeDict();
    var _, _ := dict3.Insert(3, "3");
    var _, _ := dict3.Insert(4, "4");
    var dict4 := new Handle<int, string>.MakeDict();
    dict4.MoveAssignFrom(dict3);
    assignedSize := dict4.Size();
    assignedAt3 := dict4.At(3);
    assignedAt4 := dict4.At(4);
    assignSourceEmpty := dict3.Empty();
  }

  /** The dict {3: "3", 4: "4"}, built by two inserts. */
  method MakeThreeFour() returns (dict: Handle<int, string>)
    ensures fresh(dict) && fresh(dict.store) && dict.Valid()
    ensures dict.Contents() == map[3 := "3", 4 := "4"] && dict.Size() == 2
  {
    dict := new Handle<int, string>.MakeDict();
    var _, _ := dict.Insert(3, "3");
    var _, _ := dict.Insert(4, "4");
  }

  /** On {3: "3"}, begin() converted to a const_iterator is at (3, "3"). */
  method MutableToConstIterator() returns (constKey: int, constValue: string)
    ensures constKey == 3 && constValue == "3"
  {
    var dict := new Handle<int, string>.MakeDict();
    var _, _ := dict.Insert(3, "3");
    var constIter := dict.Begin().ToConst();
    constKey, constValue := constIter.Key(), constIter.Value();
  }

  /**
   * `iter2 = iter1++` from begin() and from cbegin() of {3, 4}: iter1 has
   * moved off begin()'s key and iter2 keeps it.  Which key comes first is
   * not fixed, so keys are only compared with begin()'s.
   */
  method PostfixIncrement() returns (beginKey: int, movedKey: int, resultKey: int,
                                     constMovedKey: int, constResultKey: int)
    ensures movedKey != beginKey && resultKey == beginKey
    ensures constMovedKey != beginKey && constResultKey == beginKey
  {
    var dict := MakeThreeFour();
    beginKey := dict.Begin().Key();

    var iter1, iter2 := dict.Begin().PostIncrement().0, dict.Begin().PostIncrement().1;
    movedKey, resultKey := iter1.Key(), iter2.Key();

    var citer1, citer2 := dict.CBegin().PostIncrement().0, dict.CBegin().PostIncrement().1;
    constMovedKey, constResultKey := citer1.Key(), citer2.Key();
  }

  /** `iter2 = ++iter1` from begin() and from cbegin() of {3, 4}: both are off begin()'s key. */
  method PrefixIncrement() returns (beginKey: int, movedKey: int, resultKey: int,
                                    constMovedKey: int, constResultKey: int)
    ensures movedKey != beginKey && resultKey != beginKey
    ensures constMovedKey != beginKey && constResultKey != beginKey
  {
    var dict := MakeThreeFour();
    beginKey := dict.Begin().Key();

    var pre := dict.Begin().PreIncrement();
    movedKey, resultKey := pre.0.Key(), pre.1.Key();

    var cpre := dict.CBegin().PreIncrement();
    constMovedKey, constResultKey := cpre.0.Key(), cpre.1.Key();
  }

  /**
   * On {3, 4}: two begin()s (and two cbegin()s) compare equal and not
   * unequal; after `iter2++` they compare unequal and not equal.
   */
  method IteratorEquality() returns (equal: bool, notEqual: bool, steppedEqual: bool, steppedNotEqual: bool,
                                     constEqual: bool, constNotEqual: bool,
                                     constSteppedEqual: bool, constSteppedNotEqual: bool)
    ensures equal && !notEqual && !steppedEqual && steppedNotEqual
    ensures constEqual && !constNotEqual && !constSteppedEqual && constSteppedNotEqual
  {
    var dict := MakeThreeFour();

    var iter1, iter2 := dict.Begin(), dict.Begin();
    equal, notEqual := iter1.Equal(iter2), !iter1.Equal(iter2);
    iter2 := iter2.PostIncrement().0;
    steppedEqual, steppedNotEqual := iter1.Equal(iter2), !iter1.Equal(iter2);

    var citer1, citer2 := dict.CBegin(), dict.CBegin();
    constEqual, constNotEqual := citer1.Equal(citer2), !citer1.Equal(citer2);
    citer2 := citer2.PostIncrement().0;
    constSteppedEqual, constSteppedNotEqual := citer1.Equal(citer2), !citer1.Equal(citer2);
  }

  /**
   * On {3: "3"}, dereferencing begin() and cbegin() gives (3, "3").  `(*iter).key()`
   * and `iter->key()` are the same read here, Iterator.Key().
   */
  method Dereference() returns (key: int, value: string, constKey: int, constValue: string)
    ensures key == 3 && value == "3"
    ensures constKey == 3 && constValue == "3"
  {
    var dict := new Handle<int, string>.MakeDict();
    var _, _ := dict.Insert(3, "3");
    var iter := dict.Begin();
    key, value := iter.Key(), iter.Value();
    var citer := dict.CBegin();
    constKey, constValue := citer.Key(), citer.Value();
  }

  /** Copies of a handle share its store: an insert through dict1 shows in the size of all three. */
  method IsReferenceType() returns (size1: nat, size2: nat, size3: nat)
    ensures size1 == 1 && size2 == 1 && size3 == 1
  {
    var dict1 := new Handle<int, string>.MakeDict();
    var dict2 := new Handle.Alias(dict1);
    var dict3 := new Handle<int, string>.MakeDict();
    dict3.AssignFrom(dict1);
    var _, _ := dict1.Insert(3, "three");
    size1, size2, size3 := dict1.Size(), dict2.Size(), dict3.Size();
  }

  /** copy() has storage of its own: an insert into dict1 leaves both copies at size 0. */
  method CopyHasSeparateStorage() returns (size1: nat, size2: nat, size3: nat)
    ensures size1 == 1 && size2 == 0 && size3 == 0
  {
    var dict1 := new Handle<int, string>.MakeDict();
    var dict2 := dict1.Copy();
    var dict3 := new Handle<int, string>.MakeDict();
    var copied := dict1.Copy();
    dict3.MoveAssignFrom(copied);
    var _, _ := dict1.Insert(3, "three");
    size1, size2, size3 := dict1.Size(), dict2.Size(), dict3.Size();
  }
}
