/**
 * `checkDuplicateIDs`: one pass over the rows with a map from each ID value
 * to the index where it was first seen; every later occurrence marks both
 * itself and that first occurrence.
 */
module Duplicates {
  import opened Js
  import opened Store
  import Lists

  /** The message every marked row carries. */
  function DuplicateMessage(idField: string): string
  {
    "Duplicate " + idField + " found"
  }

  /** Row `i` shares its ID value with some other row. */
  predicate IsDuplicated(data: seq<Row>, idField: string, i: int)
    requires 0 <= i < |data|
  {
    exists j :: 0 <= j < |data| && j != i && Get(data[j], idField) == Get(data[i], idField)
  }

  /** Among the first `k` values, some index other than `i` holds the value at `i`. */
  predicate RepeatedBefore(ids: seq<Value>, k: int, i: int)
    requires 0 <= i < |ids| && k <= |ids|
  {
    exists j :: 0 <= j < k && j != i && ids[j] == ids[i]
  }

  /** `checkDuplicateIDs(data, idField)`. */
  method CheckDuplicateIDs(data: seq<Row>, idField: string) returns (duplicates: RowErrorMap)
    ensures forall i :: i in duplicates <==> 0 <= i < |data| && IsDuplicated(data, idField, i)
    ensures forall i :: i in duplicates ==> duplicates[i] == map[idField := DuplicateMessage(idField)]
  {
    ghost var ids := Column(data, idField);
    var message := DuplicateMessage(idField);
    var seen: map<Value, int> := map[];
    duplicates := map[];
    var index := 0;
    while index < |data|
      invariant 0 <= index <= |data|
      invariant forall v :: v in seen ==> 0 <= seen[v] < index && ids[seen[v]] == v
      invariant forall j :: 0 <= j < index ==> ids[j] in seen
      invariant forall i :: i in duplicates <==> 0 <= i < index && RepeatedBefore(ids, index, i)
      invariant forall i :: i in duplicates ==> duplicates[i] == map[idField := message]
    {
      var id := Get(data[index], idField);
      assert id == ids[index];
      if id in seen {
        var firstIndex := seen[id];
        ghost var before := duplicates;
        var firstEntry := EntryOf(duplicates, firstIndex);
        SpreadMark(firstEntry, idField, message);
        duplicates := duplicates[firstIndex := firstEntry[idField := message]];
        var entry := EntryOf(duplicates, index);
        SpreadMark(entry, idField, message);
        duplicates := duplicates[index := entry[idField := message]];
        MarkStep(ids, index, firstIndex, before.Keys, duplicates.Keys);
      } else {
        NoMarkStep(ids, index, seen.Keys, duplicates.Keys);
        seen := seen[id := index];
      }
      index := index + 1;
    }
    forall i | 0 <= i < |data| ensures RepeatedBefore(ids, |data|, i) == IsDuplicated(data, idField, i) {
      if IsDuplicated(data, idField, i) {
        var j :| 0 <= j < |data| && j != i && Get(data[j], idField) == Get(data[i], idField);
        assert ids[j] == ids[i];
      }
    }
  }

  /** `duplicates[i]` spread into an object literal: an absent entry spreads as nothing. */
  function EntryOf(duplicates: RowErrorMap, i: int): CellErrorMap
  {
    if i in duplicates then duplicates[i] else map[]
  }

  /** `{...entry, [idField]: message}` when the entry is absent or already the mark. */
  lemma SpreadMark(entry: CellErrorMap, idField: string, message: string)
    requires entry == map[] || entry == map[idField := message]
    ensures entry[idField := message] == map[idField := message]
  {
  }

  /** A repeated value marks its first occurrence and the current row; every other earlier row with it is marked already. */
  lemma MarkStep(ids: seq<Value>, index: int, first: int, before: set<int>, after: set<int>)
    requires 0 <= first < index < |ids| && ids[first] == ids[index]
    requires forall i :: i in before <==> 0 <= i < index && RepeatedBefore(ids, index, i)
    requires after == before + {first, index}
    ensures forall i :: i in after <==> 0 <= i < index + 1 && RepeatedBefore(ids, index + 1, i)
  {
    forall i | 0 <= i < index + 1 && RepeatedBefore(ids, index + 1, i) ensures i in after {
      if i != first && i != index {
        var j :| 0 <= j < index + 1 && j != i && ids[j] == ids[i];
        if j == index {
          assert RepeatedBefore(ids, index, i) by { assert ids[first] == ids[i]; }
        } else {
          assert RepeatedBefore(ids, index, i);
        }
      }
    }
    assert RepeatedBefore(ids, index + 1, first) by { assert ids[index] == ids[first]; }
    assert RepeatedBefore(ids, index + 1, index) by { assert ids[first] == ids[index]; }
    forall i | i in before ensures RepeatedBefore(ids, index + 1, i) {
      var j :| 0 <= j < index && j != i && ids[j] == ids[i];
    }
  }

  /** A value not seen before marks nothing and leaves every earlier row's status as it was. */
  lemma NoMarkStep(ids: seq<Value>, index: int, seen: set<Value>, marked: set<int>)
    requires 0 <= index < |ids| && ids[index] !in seen
    requires forall j :: 0 <= j < index ==> ids[j] in seen
    requires forall i :: i in marked <==> 0 <= i < index && RepeatedBefore(ids, index, i)
    ensures forall i :: i in marked <==> 0 <= i < index + 1 && RepeatedBefore(ids, index + 1, i)
  {
    forall i | 0 <= i < index + 1 && RepeatedBefore(ids, index + 1, i) ensures i in marked {
      var j :| 0 <= j < index + 1 && j != i && ids[j] == ids[i];
      assert i != index && j != index;
      assert RepeatedBefore(ids, index, i);
    }
    forall i | i in marked ensures RepeatedBefore(ids, index + 1, i) {
      var j :| 0 <= j < index && j != i && ids[j] == ids[i];
    }
  }

  /** Being duplicated is shared: a duplicated row's partner is duplicated too, so the first occurrence is always marked. */
  lemma DuplicatePartner(data: seq<Row>, idField: string, i: int)
    requires 0 <= i < |data| && IsDuplicated(data, idField, i)
    ensures exists j :: 0 <= j < |data| && j != i && IsDuplicated(data, idField, j)
                        && Get(data[j], idField) == Get(data[i], idField)
  {
    var j :| 0 <= j < |data| && j != i && Get(data[j], idField) == Get(data[i], idField);
    assert IsDuplicated(data, idField, j);
  }

  /** Every row of a group of equal IDs is marked, however large the group. */
  lemma GroupAllMarked(data: seq<Row>, idField: string, group: set<int>)
    requires |group| >= 2
    requires forall i :: i in group ==> 0 <= i < |data|
    requires forall i, j :: i in group && j in group ==> Get(data[i], idField) == Get(data[j], idField)
    ensures forall i :: i in group ==> IsDuplicated(data, idField, i)
  {
    forall i | i in group ensures IsDuplicated(data, idField, i) {
      var rest := group - {i};
      assert |rest| >= 1;
      var j := Lists.PickElem(rest);
      assert j != i && Get(data[j], idField) == Get(data[i], idField);
    }
  }

  /** Rows that lack the ID field all read as `undefined` and are reported as duplicates of each other. */
  lemma MissingIdsAreDuplicates(data: seq<Row>, idField: string, i: int, j: int)
    requires 0 <= i < |data| && 0 <= j < |data| && i != j
    requires idField !in data[i] && idField !in data[j]
    ensures IsDuplicated(data, idField, i) && IsDuplicated(data, idField, j)
  {
  }

  /** A row whose ID value occurs nowhere else is never reported. */
  lemma UniqueNotMarked(data: seq<Row>, idField: string, i: int)
    requires 0 <= i < |data|
    requires forall j :: 0 <= j < |data| && j != i ==> Get(data[j], idField) != Get(data[i], idField)
    ensures !IsDuplicated(data, idField, i)
  {
  }
}
