/**
 * The AI data-modification hook for one entity: a pending set of per-row
 * field changes that is accepted as a whole, accepted one cell at a time, or
 * rejected.  Accepting marks the cells as AI-modified, merges the changes into
 * the entity's rows (re-normalising them) and re-validates the touched rows,
 * dropping clean row entries and an entity left without rows.
 */
module DataModification {
  import opened Js
  import opened Store
  import opened Normalize
  import opened Validators
  import Lists

  /** Row index to the fields proposed for that row. */
  type PendingChanges = map<int, Row>

  /** `m[r]` spread into an object literal: an absent entry spreads as nothing. */
  function EntryAt<V>(m: map<int, map<string, V>>, r: int): map<string, V>
  {
    if r in m then m[r] else map[]
  }

  /** `data[r]` spread into an object literal: an index past the end reads `undefined`, which spreads as nothing. */
  function RowAt(data: seq<Row>, r: int): Row
  {
    if 0 <= r < |data| then data[r] else map[]
  }

  /** The row map of entity `e`, `{}` when absent. */
  function EntityMarks(mods: AiModifications, e: EntityType): map<int, map<string, bool>>
  {
    if e in mods then mods[e] else map[]
  }

  // ---------------------------------------------------------------------------
  // What accepting all pending changes produces.

  /** A row's marks with every field of `fields` set to `true`. */
  function MarkFields(cells: map<string, bool>, fields: set<string>): map<string, bool>
  {
    map f | f in cells.Keys + fields :: if f in fields then true else cells[f]
  }

  /** The marks of one entity after every pending row's fields are marked. */
  function MarkedRows(rows: map<int, map<string, bool>>, pending: PendingChanges): map<int, map<string, bool>>
  {
    map r | r in rows.Keys + pending.Keys :: if r in pending then MarkFields(EntryAt(rows, r), pending[r].Keys) else rows[r]
  }

  /** The AI-modification record after accepting `pending` for entity `e`; the entity key is created even for no changes. */
  function MarksAfterApply(mods: AiModifications, e: EntityType, pending: PendingChanges): AiModifications
  {
    mods[e := MarkedRows(EntityMarks(mods, e), pending)]
  }

  /** The rows after accepting: each pending row in range is its old row overlaid with the changes, re-normalised. */
  function DataAfterApply(h: Host, e: EntityType, data: seq<Row>, pending: PendingChanges): (r: seq<Row>)
    ensures |r| == |data|
  {
    seq(|data|, i requires 0 <= i < |data| => if i in pending then NormalizeRow(h, e, data[i] + pending[i]) else data[i])
  }

  /** Every file of entity `e` gets its rows updated; other files are kept as they are. */
  function FilesAfterApply(h: Host, e: EntityType, files: seq<ParsedFile>, pending: PendingChanges): (r: seq<ParsedFile>)
    ensures |r| == |files|
  {
    seq(|files|, k requires 0 <= k < |files| =>
      if files[k].entityType == e then files[k].(rawData := DataAfterApply(h, e, files[k].rawData, pending)) else files[k])
  }

  /** The errors of every pending row after its change, each validated from its pre-change row. */
  function Recheck(h: Host, e: EntityType, data: seq<Row>, pending: PendingChanges): map<int, CellErrorMap>
  {
    map r | r in pending :: RowErrors(h, e, NormalizeRow(h, e, RowAt(data, r) + pending[r]))
  }

  /** An entity's rows with re-checked rows put back: a re-checked row is present exactly when its errors are non-empty. */
  function ReplaceRows(rows: RowErrorMap, rechecked: map<int, CellErrorMap>): RowErrorMap
  {
    map r | r in rows.Keys + rechecked.Keys && (r in rechecked ==> rechecked[r] != map[]) :: if r in rechecked then rechecked[r] else rows[r]
  }

  /** The replaced rows stored under `e`, or `e` removed when none remain. */
  function WithRows(errors: ValidationErrors, e: EntityType, rechecked: map<int, CellErrorMap>): ValidationErrors
  {
    var rows := ReplaceRows(EntityRowErrors(errors, e), rechecked);
    if rows == map[] then errors - {e} else errors[e := rows]
  }

  /** The error map after accepting: untouched without a file of `e` or without changes. */
  function ErrorsAfterApply(h: Host, e: EntityType, errors: ValidationErrors, files: seq<ParsedFile>, pending: PendingChanges): ValidationErrors
  {
    match FindFile(files, e)
    case None => errors
    case Some(f) => if pending == map[] then errors else WithRows(errors, e, Recheck(h, e, f.rawData, pending))
  }

  /** `aiMessage + " ✅ Changes applied successfully!"`; a null message concatenates as "null". */
  function AppliedMessage(message: Option<string>): string
  {
    (match message case None => "null" case Some(s) => s) + " ✅ Changes applied successfully!"
  }

  /** One row's re-validation step: a clean row's entry is deleted, a dirty one replaced, and an entity left empty removed. */
  function UpdateRowErrors(errors: ValidationErrors, e: EntityType, r: int, rowErrors: CellErrorMap): ValidationErrors
  {
    var rows := EntityRowErrors(errors, e);
    var updated := if rowErrors == map[] then rows - {r} else rows[r := rowErrors];
    if updated == map[] then errors - {e} else errors[e := updated]
  }

  // ---------------------------------------------------------------------------
  // What accepting one cell produces.

  /** The pending changes after cell (r, c) is taken: the row goes when empty, and everything goes to null when empty. */
  function PendingAfterTake(pending: PendingChanges, r: int, c: string): Option<PendingChanges>
  {
    var rest := if r in pending then
      (if pending[r] - {c} == map[] then pending - {r} else pending[r := pending[r] - {c}])
    else pending;
    if rest == map[] then None else Some(rest)
  }

  /** The guard of `applyIndividualChange`: there must be a pending value at (r, c) and it must be truthy. */
  predicate CanApplyCell(pending: Option<PendingChanges>, r: int, c: string)
  {
    pending.Some? && r in pending.value && Truthy(Get(pending.value[r], c))
  }

  // ---------------------------------------------------------------------------
  // The loops of the hook.

  /** `Object.keys(updatedFields).forEach((f) => marks[f] = true)`. */
  method MarkRow(cells: map<string, bool>, fields: Row) returns (marked: map<string, bool>)
    ensures marked == MarkFields(cells, fields.Keys)
  {
    marked := cells;
    var todo := fields.Keys;
    while todo != {}
      invariant todo <= fields.Keys
      invariant marked == MarkFields(cells, fields.Keys - todo)
      decreases todo
    {
      var f :| f in todo;
      MarkFieldsAdd(cells, fields.Keys - todo, f);
      assert fields.Keys - (todo - {f}) == (fields.Keys - todo) + {f};
      marked := marked[f := true];
      todo := todo - {f};
    }
  }

  /** The marking pass of `applyChanges`. */
  method MarkPending(mods: AiModifications, e: EntityType, pending: PendingChanges) returns (r: AiModifications)
    ensures r == MarksAfterApply(mods, e, pending)
  {
    var rows := EntityMarks(mods, e);
    ghost var rows0 := rows;
    var todo := pending.Keys;
    while todo != {}
      invariant todo <= pending.Keys
      invariant rows == MarkedRows(rows0, pending - todo)
      decreases todo
    {
      ghost var some := Lists.PickElem(todo);
      var row :| row in todo;
      ghost var done := pending - todo;
      assert EntryAt(rows, row) == EntryAt(rows0, row) by { assert row !in done; }
      var marked := MarkRow(EntryAt(rows, row), pending[row]);
      MarkedRowsAdd(rows0, done, row, pending[row]);
      MinusStep(pending, todo, row);
      rows := rows[row := marked];
      todo := todo - {row};
    }
    assert pending - todo == pending;
    r := mods[e := rows];
  }

  /** The row update of `applyChanges` for one file; an index outside the rows changes nothing. */
  method ApplyToRows(h: Host, e: EntityType, data: seq<Row>, pending: PendingChanges) returns (updated: seq<Row>)
    ensures updated == DataAfterApply(h, e, data, pending)
  {
    updated := data;
    var todo := pending.Keys;
    while todo != {}
      invariant todo <= pending.Keys
      invariant |updated| == |data|
      invariant forall i :: 0 <= i < |data| ==>
        updated[i] == if i in pending && i !in todo then NormalizeRow(h, e, data[i] + pending[i]) else data[i]
      decreases todo
    {
      ghost var some := Lists.PickElem(todo);
      var row :| row in todo;
      if 0 <= row < |updated| {
        updated := updated[row := NormalizeRow(h, e, updated[row] + pending[row])];
      }
      todo := todo - {row};
    }
    assert forall i :: 0 <= i < |data| ==> updated[i] == DataAfterApply(h, e, data, pending)[i];
  }

  /** `prev.map(...)` over the uploaded files. */
  method ApplyToFiles(h: Host, e: EntityType, files: seq<ParsedFile>, pending: PendingChanges) returns (updated: seq<ParsedFile>)
    ensures updated == FilesAfterApply(h, e, files, pending)
  {
    updated := [];
    var k := 0;
    while k < |files|
      invariant 0 <= k <= |files|
      invariant updated == FilesAfterApply(h, e, files, pending)[..k]
    {
      var file := files[k];
      if file.entityType == e {
        var data := ApplyToRows(h, e, file.rawData, pending);
        file := file.(rawData := data);
      }
      updated := updated + [file];
      k := k + 1;
    }
  }

  /**
   * One row's `validateSingleRow(entity, normalizeRowTypes(entity, {...originalRow, ...updatedFields}))`:
   * the map of rows re-checked so far, `done`, grows by this row's entry.
   */
  method RecheckRow(h: Host, e: EntityType, data: seq<Row>, pending: PendingChanges, rowIndex: int,
                    ghost todo: set<int>, ghost done: map<int, CellErrorMap>) returns (rowErrors: CellErrorMap)
    requires rowIndex in todo && todo <= pending.Keys
    requires done == Recheck(h, e, data, pending) - todo
    ensures done[rowIndex := rowErrors] == Recheck(h, e, data, pending) - (todo - {rowIndex})
  {
    var originalRow := RowAt(data, rowIndex);
    var updatedRow := NormalizeRow(h, e, originalRow + pending[rowIndex]);
    rowErrors := ValidateSingleRow(h, e, updatedRow);
    AddStep(Recheck(h, e, data, pending), todo, rowIndex, done);
  }

  /**
   * The `forEach` of `applyChanges`' validation step: each changed row is
   * validated from the entity's first file, and its error update is queued.
   */
  method RecheckRows(h: Host, e: EntityType, data: seq<Row>, pending: PendingChanges) returns (rechecked: map<int, CellErrorMap>)
    ensures rechecked == Recheck(h, e, data, pending)
  {
    rechecked := map[];
    var todo := pending.Keys;
    while todo != {}
      invariant todo <= pending.Keys && rechecked == Recheck(h, e, data, pending) - todo
      decreases todo
    {
      ghost var some := Lists.PickElem(todo);
      var rowIndex :| rowIndex in todo;
      var rowErrors := RecheckRow(h, e, data, pending, rowIndex, todo, rechecked);
      rechecked := rechecked[rowIndex := rowErrors];
      todo := todo - {rowIndex};
    }
    MinusNothing(Recheck(h, e, data, pending));
  }

  /** The validation step of `applyChanges`: skipped when the entity has no file. */
  method RevalidateEntity(h: Host, e: EntityType, errors: ValidationErrors, files: seq<ParsedFile>, pending: PendingChanges)
    returns (r: ValidationErrors)
    ensures r == ErrorsAfterApply(h, e, errors, files, pending)
  {
    r := errors;
    var entityFile := FindFile(files, e);
    if entityFile.Some? {
      var rechecked := RecheckRows(h, e, entityFile.value.rawData, pending);
      assert rechecked == map[] <==> pending == map[];
      r := PutBackRows(errors, e, rechecked);
    }
  }

  /**
   * The queued `setValidationErrors` updaters, run one after another: each
   * deletes or replaces its row and removes the entity once it has no rows.
   */
  method PutBackRows(errors: ValidationErrors, e: EntityType, rechecked: map<int, CellErrorMap>) returns (r: ValidationErrors)
    ensures r == if rechecked == map[] then errors else WithRows(errors, e, rechecked)
  {
    ghost var first := true;
    r := errors;
    var todo := rechecked.Keys;
    while todo != {}
      invariant todo <= rechecked.Keys
      invariant first ==> r == errors && todo == rechecked.Keys
      invariant !first ==> rechecked != map[] && r == WithRows(errors, e, rechecked - todo)
      decreases todo
    {
      ghost var some := Lists.PickElem(todo);
      var rowIndex :| rowIndex in todo;
      RevalidateStep(errors, e, rechecked, todo, rowIndex, r, first);
      r := UpdateRowErrors(r, e, rowIndex, rechecked[rowIndex]);
      todo := todo - {rowIndex};
      first := false;
    }
    if rechecked == map[] {
      assert first;
    } else {
      var k := Lists.PickKey(rechecked);
      assert !first;
      assert rechecked - todo == rechecked;
    }
  }

  // ---------------------------------------------------------------------------
  // Steps of the loops.

  lemma MarkFieldsAdd(cells: map<string, bool>, done: set<string>, f: string)
    ensures MarkFields(cells, done + {f}) == MarkFields(cells, done)[f := true]
  {
  }

  lemma MarkedRowsAdd(rows: map<int, map<string, bool>>, done: PendingChanges, r: int, fields: Row)
    requires r !in done
    ensures MarkedRows(rows, done[r := fields]) == MarkedRows(rows, done)[r := MarkFields(EntryAt(rows, r), fields.Keys)]
  {
  }

  /** One iteration of the re-validation loop keeps `r` equal to the rows re-checked so far put back. */
  lemma RevalidateStep(errors: ValidationErrors, e: EntityType, rechecked: map<int, CellErrorMap>, todo: set<int>,
                       row: int, r: ValidationErrors, first: bool)
    requires row in todo && todo <= rechecked.Keys
    requires first ==> r == errors && todo == rechecked.Keys
    requires !first ==> r == WithRows(errors, e, rechecked - todo)
    ensures UpdateRowErrors(r, e, row, rechecked[row]) == WithRows(errors, e, rechecked - (todo - {row}))
  {
    var done := rechecked - todo;
    MinusStep(rechecked, todo, row);
    if first {
      assert done == map[];
      ReplaceRowsNone(EntityRowErrors(errors, e));
    } else {
      WithRowsFacts(errors, e, done);
    }
    UpdateStep(r, errors, e, done, row, rechecked[row]);
  }

  /** Filling in one more key of `target` keeps the partial map equal to `target` off the to-do set. */
  lemma AddStep<K, V>(target: map<K, V>, todo: set<K>, k: K, partial: map<K, V>)
    requires k in todo && k in target && partial == target - todo
    ensures partial[k := target[k]] == target - (todo - {k})
  {
  }

  lemma MinusNothing<K, V>(m: map<K, V>)
    ensures m - {} == m
  {
  }

  /** Taking one more key out of the to-do set adds its entry to what is done. */
  lemma MinusStep<K, V>(m: map<K, V>, todo: set<K>, k: K)
    requires k in todo && k in m
    ensures m - (todo - {k}) == (m - todo)[k := m[k]]
  {
  }

  lemma WithRowsFacts(errors: ValidationErrors, e: EntityType, rechecked: map<int, CellErrorMap>)
    ensures EntityRowErrors(WithRows(errors, e, rechecked), e) == ReplaceRows(EntityRowErrors(errors, e), rechecked)
    ensures WithRows(errors, e, rechecked) - {e} == errors - {e}
  {
  }

  lemma ReplaceRowsNone(rows: RowErrorMap)
    ensures ReplaceRows(rows, map[]) == rows
  {
  }

  /** Re-checking one more row replaces or deletes just that row. */
  lemma ReplaceRowsAdd(rows: RowErrorMap, done: map<int, CellErrorMap>, r: int, rowErrors: CellErrorMap)
    requires r !in done
    ensures ReplaceRows(rows, done[r := rowErrors])
         == if rowErrors == map[] then ReplaceRows(rows, done) - {r} else ReplaceRows(rows, done)[r := rowErrors]
  {
  }

  /** Re-validating one more row is one `UpdateRowErrors` step on a map that already agrees with the rows done so far. */
  lemma UpdateStep(errs: ValidationErrors, errors: ValidationErrors, e: EntityType, done: map<int, CellErrorMap>,
                   r: int, rowErrors: CellErrorMap)
    requires r !in done
    requires EntityRowErrors(errs, e) == ReplaceRows(EntityRowErrors(errors, e), done)
    requires errs - {e} == errors - {e}
    ensures UpdateRowErrors(errs, e, r, rowErrors) == WithRows(errors, e, done[r := rowErrors])
  {
    ReplaceRowsAdd(EntityRowErrors(errors, e), done, r, rowErrors);
    var updated := ReplaceRows(EntityRowErrors(errors, e), done[r := rowErrors]);
    if updated != map[] {
      SameOffKey(errs, errors, e, updated);
    }
  }

  /** Two maps that agree off `e` agree once `e` is set. */
  lemma SameOffKey(errs: ValidationErrors, errors: ValidationErrors, e: EntityType, rows: RowErrorMap)
    requires errs - {e} == errors - {e}
    ensures errs[e := rows] == errors[e := rows]
  {
    forall d | d != e ensures (d in errs <==> d in errors) && (d in errs ==> errs[d] == errors[d]) {
      assert d in errs <==> d in errs - {e};
      assert d in errors <==> d in errors - {e};
      if d in errs { assert errs[d] == (errs - {e})[d]; }
    }
  }

  // ---------------------------------------------------------------------------
  // Properties of accepting.

  /**
   * After accepting, entity `e` has a mark record (even for `{}` pending
   * changes); a row is recorded iff it was before or is pending, and a field
   * iff it was marked before or is pending.  Pending fields read `true`, older
   * marks keep their value.
   */
  lemma MarksAfterApplyShape(mods: AiModifications, e: EntityType, pending: PendingChanges)
    ensures var after := MarksAfterApply(mods, e, pending); var rows := EntityMarks(mods, e);
      && e in after
      && (forall r :: r in after[e] <==> r in rows || r in pending)
      && (forall r, f :: r in after[e] ==>
            (f in after[e][r] <==> (r in rows && f in rows[r]) || (r in pending && f in pending[r])))
      && (forall r, f :: r in after[e] && f in after[e][r] ==>
            after[e][r][f] == if r in pending && f in pending[r] then true else rows[r][f])
  {
  }

  /** Accepting for `e` leaves every other entity's marks alone. */
  lemma MarksAfterApplyOthers(mods: AiModifications, e: EntityType, pending: PendingChanges, d: EntityType)
    requires d != e
    ensures (d in MarksAfterApply(mods, e, pending) <==> d in mods)
    ensures d in mods ==> MarksAfterApply(mods, e, pending)[d] == mods[d]
  {
  }

  /**
   * A pending row in range is its old row overlaid with the changes, the
   * changes winning, and then normalised; a row that is not pending is kept.
   */
  lemma DataAfterApplyRow(h: Host, e: EntityType, data: seq<Row>, pending: PendingChanges, i: int, f: string)
    requires 0 <= i < |data|
    ensures var row := DataAfterApply(h, e, data, pending)[i];
      && (i !in pending ==> row == data[i])
      && (i in pending && f !in CoercedFields(e) ==>
            Get(row, f) == if f in pending[i] then pending[i][f] else Get(data[i], f))
      && (i in pending && f in CoercedFields(e) ==>
            Get(row, f) == Num(ToNumber(h, if f in pending[i] then pending[i][f] else Get(data[i], f))))
  {
    if i in pending {
      var merged := data[i] + pending[i];
      assert Get(merged, f) == if f in pending[i] then pending[i][f] else Get(data[i], f);
    }
  }

  /** No pending rows, no change to the data. */
  lemma DataAfterApplyNothing(h: Host, e: EntityType, data: seq<Row>)
    ensures DataAfterApply(h, e, data, map[]) == data
  {
    assert forall i :: 0 <= i < |data| ==> DataAfterApply(h, e, data, map[])[i] == data[i];
  }

  /** Files keep their order, names and kinds; files of other entities are kept whole. */
  lemma FilesAfterApplyFacts(h: Host, e: EntityType, files: seq<ParsedFile>, pending: PendingChanges, k: int)
    requires 0 <= k < |files|
    ensures var f := FilesAfterApply(h, e, files, pending)[k];
      && f.fileName == files[k].fileName && f.entityType == files[k].entityType
      && (files[k].entityType != e ==> f == files[k])
      && |f.rawData| == |files[k].rawData|
  {
  }

  /** Taking one cell changes only that cell of that row, apart from the entity's coerced fields. */
  lemma CellChangeOnly(h: Host, e: EntityType, data: seq<Row>, r: int, c: string, v: Value, i: int, f: string)
    requires 0 <= i < |data|
    ensures var after := DataAfterApply(h, e, data, map[r := map[c := v]]);
      && (i != r ==> after[i] == data[i])
      && (i == r && f != c && f !in CoercedFields(e) ==> Get(after[i], f) == Get(data[i], f))
      && (i == r && c !in CoercedFields(e) ==> Get(after[i], c) == v)
  {
    DataAfterApplyRow(h, e, data, map[r := map[c := v]], i, f);
    DataAfterApplyRow(h, e, data, map[r := map[c := v]], i, c);
  }

  /** The errors stored for a changed row are the errors of that row's new contents. */
  lemma RecheckMatchesData(h: Host, e: EntityType, data: seq<Row>, pending: PendingChanges, r: int)
    requires r in pending && 0 <= r < |data|
    ensures Recheck(h, e, data, pending)[r] == RowErrors(h, e, DataAfterApply(h, e, data, pending)[r])
  {
    NormalizedRowSameErrors(h, e, data[r] + pending[r]);
  }

  /** Accepting keeps the "absence means clean" shape of the error map. */
  lemma ErrorsAfterApplyClean(h: Host, e: EntityType, errors: ValidationErrors, files: seq<ParsedFile>, pending: PendingChanges)
    requires AbsenceMeansClean(errors)
    ensures AbsenceMeansClean(ErrorsAfterApply(h, e, errors, files, pending))
  {
    match FindFile(files, e)
    case None =>
    case Some(f) => WithRowsClean(errors, e, Recheck(h, e, f.rawData, pending));
  }

  /**
   * With a file of `e` and some changes: a changed row has an entry iff its
   * re-check found errors, and then holds exactly them; an unchanged row's
   * entry is as it was; `e` is present iff some row entry remains.
   */
  lemma ErrorsAfterApplyRows(h: Host, e: EntityType, errors: ValidationErrors, files: seq<ParsedFile>,
                             pending: PendingChanges, r: int)
    requires FindFile(files, e).Some? && pending != map[]
    ensures var after := EntityRowErrors(ErrorsAfterApply(h, e, errors, files, pending), e);
      var before := EntityRowErrors(errors, e);
      var data := FindFile(files, e).value.rawData;
      && (r in pending ==>
            var rowErrors := RowErrors(h, e, NormalizeRow(h, e, RowAt(data, r) + pending[r]));
            (r in after <==> rowErrors != map[]) && (r in after ==> after[r] == rowErrors))
      && (r !in pending ==> (r in after <==> r in before) && (r in after ==> after[r] == before[r]))
      && (e in ErrorsAfterApply(h, e, errors, files, pending) <==> after != map[])
  {
    var data := FindFile(files, e).value.rawData;
    WithRowsRows(errors, e, Recheck(h, e, data, pending), r);
  }

  /** Putting re-checked rows back keeps the "absence means clean" shape. */
  lemma WithRowsClean(errors: ValidationErrors, e: EntityType, rechecked: map<int, CellErrorMap>)
    requires AbsenceMeansClean(errors)
    ensures AbsenceMeansClean(WithRows(errors, e, rechecked))
  {
    var rows := ReplaceRows(EntityRowErrors(errors, e), rechecked);
    assert forall r :: r in rows ==> rows[r] != map[];
  }

  /** A re-checked row is present iff its errors are non-empty; any other row is as it was. */
  lemma WithRowsRows(errors: ValidationErrors, e: EntityType, rechecked: map<int, CellErrorMap>, r: int)
    ensures var after := EntityRowErrors(WithRows(errors, e, rechecked), e);
      var before := EntityRowErrors(errors, e);
      && (r in rechecked ==> (r in after <==> rechecked[r] != map[]) && (r in after ==> after[r] == rechecked[r]))
      && (r !in rechecked ==> (r in after <==> r in before) && (r in after ==> after[r] == before[r]))
      && (e in WithRows(errors, e, rechecked) <==> after != map[])
  {
  }

  /** Accepting for `e` leaves every other entity's errors alone, and nothing changes without a file or without changes. */
  lemma ErrorsAfterApplyOthers(h: Host, e: EntityType, errors: ValidationErrors, files: seq<ParsedFile>,
                               pending: PendingChanges, d: EntityType)
    requires d != e
    ensures (d in ErrorsAfterApply(h, e, errors, files, pending) <==> d in errors)
    ensures d in errors ==> ErrorsAfterApply(h, e, errors, files, pending)[d] == errors[d]
    ensures FindFile(files, e).None? || pending == map[] ==> ErrorsAfterApply(h, e, errors, files, pending) == errors
  {
  }

  // ---------------------------------------------------------------------------
  // Properties of accepting one cell.

  /** The (row, field) pairs of a pending change set. */
  function PendingCells(pending: PendingChanges): set<(int, string)>
  {
    set r, f | r in pending && f in pending[r] :: (r, f)
  }

  /** `null` pending changes hold no cells. */
  function PendingOrEmpty(pending: Option<PendingChanges>): PendingChanges
  {
    match pending
    case None => map[]
    case Some(p) => p
  }

  /**
   * Taking (r, c) removes exactly that cell: the other cells keep their values,
   * row r stays only while it has cells left, and `null` is never stored as `{}`.
   */
  lemma PendingAfterTakeCells(pending: PendingChanges, r: int, c: string)
    ensures var rest := PendingOrEmpty(PendingAfterTake(pending, r, c));
      && PendingCells(rest) == PendingCells(pending) - {(r, c)}
      && (PendingAfterTake(pending, r, c).Some? ==> rest != map[])
      && (forall q :: q in rest ==> q in pending && (q != r ==> rest[q] == pending[q]))
      && (r in rest ==> rest[r] == pending[r] - {c} && rest[r] != map[])
  {
    var rest := PendingOrEmpty(PendingAfterTake(pending, r, c));
    forall q, f | q in rest && f in rest[q] ensures q in pending && f in pending[q] && (q, f) != (r, c) {
    }
    forall q, f | q in pending && f in pending[q] && (q, f) != (r, c) ensures q in rest && f in rest[q] {
      if q == r {
        assert f in pending[r] - {c};
      }
      assert PendingAfterTake(pending, r, c).Some?;
    }
  }

  /** A pending value that is `0`, `""`, `false`, `null` or `NaN` is never applied, nor a missing one. */
  lemma FalsyChangeIgnored(pending: PendingChanges, r: int, c: string)
    requires r !in pending || c !in pending[r]
          || pending[r][c] in {Num(Finite(0.0)), Str(""), Bool(false), Null, Num(NaN)}
    ensures !CanApplyCell(Some(pending), r, c)
  {
  }

  // ---------------------------------------------------------------------------
  // The hook.

  /** The hook's own state for one entity, over the shared store. */
  class AiDataModification {
    const h: Host
    const entity: EntityType
    const store: AppStore
    var aiMessage: Option<string>
    var pendingChanges: Option<PendingChanges>

    constructor (h: Host, entity: EntityType, store: AppStore)
      ensures this.h == h && this.entity == entity && this.store == store
      ensures aiMessage == None && pendingChanges == None
    {
      this.h := h;
      this.entity := entity;
      this.store := store;
      aiMessage := None;
      pendingChanges := None;
    }

    /** `runAIModification` as a setter: the model's reply (`message`, `changes`) is an input. */
    method RunAIModification(message: string, changes: Option<PendingChanges>)
      modifies this
      ensures FindFile(store.uploadedFiles, entity).None? ==>
        aiMessage == Some("No data found for entity.") && pendingChanges == None
      ensures FindFile(store.uploadedFiles, entity).Some? ==>
        aiMessage == Some(message) && pendingChanges == changes
    {
      aiMessage := None;
      pendingChanges := None;
      var entityFile := FindFile(store.uploadedFiles, entity);
      if entityFile.None? {
        aiMessage := Some("No data found for entity.");
        return;
      }
      aiMessage := Some(message);
      pendingChanges := changes;
    }

    /** `applyChanges`. */
    method ApplyChanges()
      modifies this, store
      ensures old(pendingChanges).None? ==>
        unchanged(store) && pendingChanges == old(pendingChanges) && aiMessage == old(aiMessage)
      ensures old(pendingChanges).Some? ==>
        && store.aiModifications == MarksAfterApply(old(store.aiModifications), entity, old(pendingChanges).value)
        && store.uploadedFiles == FilesAfterApply(h, entity, old(store.uploadedFiles), old(pendingChanges).value)
        && store.validationErrors
           == ErrorsAfterApply(h, entity, old(store.validationErrors), old(store.uploadedFiles), old(pendingChanges).value)
        && pendingChanges == None
        && aiMessage == Some(AppliedMessage(old(aiMessage)))
    {
      if pendingChanges.None? {
        return;
      }
      var pending := pendingChanges.value;
      var files := store.uploadedFiles;
      var marks := MarkPending(store.aiModifications, entity, pending);
      store.aiModifications := marks;
      var updatedFiles := ApplyToFiles(h, entity, files, pending);
      store.uploadedFiles := updatedFiles;
      var errors := RevalidateEntity(h, entity, store.validationErrors, files, pending);
      store.validationErrors := errors;
      pendingChanges := None;
      aiMessage := Some(AppliedMessage(aiMessage));
    }

    /** `rejectChanges`: data, errors and marks are left alone. */
    method RejectChanges()
      modifies this
      ensures pendingChanges == None && aiMessage == None
    {
      pendingChanges := None;
      aiMessage := None;
    }

    /** `applyIndividualChange(rowIndex, columnKey)`: the error map is not touched. */
    method ApplyIndividualChange(rowIndex: int, columnKey: string)
      modifies this, store
      ensures !CanApplyCell(old(pendingChanges), rowIndex, columnKey) ==>
        unchanged(this) && unchanged(store)
      ensures CanApplyCell(old(pendingChanges), rowIndex, columnKey) ==>
        var cell := map[rowIndex := map[columnKey := old(pendingChanges).value[rowIndex][columnKey]]];
        && store.aiModifications == MarksAfterApply(old(store.aiModifications), entity, cell)
        && store.uploadedFiles == FilesAfterApply(h, entity, old(store.uploadedFiles), cell)
        && store.validationErrors == old(store.validationErrors)
        && pendingChanges == PendingAfterTake(old(pendingChanges).value, rowIndex, columnKey)
        && aiMessage == old(aiMessage)
    {
      if !CanApplyCell(pendingChanges, rowIndex, columnKey) {
        return;
      }
      var pending := pendingChanges.value;
      var changeValue := pending[rowIndex][columnKey];
      var cell := map[rowIndex := map[columnKey := changeValue]];
      var marks := MarkPending(store.aiModifications, entity, cell);
      store.aiModifications := marks;
      var updatedFiles := ApplyToFiles(h, entity, store.uploadedFiles, cell);
      store.uploadedFiles := updatedFiles;
      pendingChanges := PendingAfterTake(pending, rowIndex, columnKey);
    }
  }
}
