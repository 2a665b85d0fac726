/**
 * The validation pipeline: each row is normalised, parsed against its entity's
 * schema, and the issues are folded into a field-to-message map; the rows that
 * fail make up the entity's row map, and entities without failing rows are
 * left out of the result.
 */
module Validators {
  import opened Js
  import opened Store
  import opened Schemas
  import opened Normalize

  /** The three schemas. */
  datatype Schema = ClientSchema | WorkerSchema | TaskSchema

  /** `getSchemaForEntity`: every entity kind has a schema. */
  function SchemaFor(e: EntityType): (s: Schema)
    ensures s.ClientSchema? <==> e == Clients
    ensures s.WorkerSchema? <==> e == Workers
    ensures s.TaskSchema? <==> e == Tasks
  {
    match e
    case Clients => ClientSchema
    case Workers => WorkerSchema
    case Tasks => TaskSchema
  }

  /** `schema.safeParse(row).error.issues` (empty on success). */
  function SchemaIssues(h: Host, s: Schema, row: Row): seq<Issue>
  {
    ObjectIssues(h, Shape(s), row)
  }

  /** The object shape of each schema. */
  function Shape(s: Schema): seq<FieldSchema>
  {
    match s
    case ClientSchema => ClientShape
    case WorkerSchema => WorkerShape
    case TaskSchema => TaskShape
  }

  /** `errors[issue.path[0]] = issue.message` for each issue in order. */
  function ErrorsOf(issues: seq<Issue>): CellErrorMap
  {
    if issues == [] then map[]
    else ErrorsOf(issues[..|issues| - 1])[issues[|issues| - 1].field := issues[|issues| - 1].message]
  }

  /** What a validated row must satisfy: the schema's predicate, applied to the normalised row. */
  predicate RowValid(h: Host, e: EntityType, row: Row)
  {
    var n := NormalizeRow(h, e, row);
    match e
    case Clients => ClientRowValid(h, n)
    case Workers => WorkerRowValid(n)
    case Tasks => TaskRowValid(n)
  }

  /** The error entry of one row; empty when the row passes. */
  function RowErrors(h: Host, e: EntityType, row: Row): CellErrorMap
  {
    ErrorsOf(SchemaIssues(h, SchemaFor(e), NormalizeRow(h, e, row)))
  }

  /** `rows.map(row => RowErrors(row))`. */
  function RowErrorsOf(h: Host, e: EntityType, rows: seq<Row>): seq<CellErrorMap>
  {
    seq(|rows|, i requires 0 <= i < |rows| => RowErrors(h, e, rows[i]))
  }

  /** The non-empty entries among the first `k` of a per-row list, keyed by row index. */
  function NonEmptyEntries(errs: seq<CellErrorMap>, k: nat): RowErrorMap
    requires k <= |errs|
  {
    if k == 0 then map[]
    else
      var acc := NonEmptyEntries(errs, k - 1);
      if errs[k - 1] != map[] then acc[k - 1 := errs[k - 1]] else acc
  }

  /** The row map `validateAllFiles` builds for one file. */
  function EntityErrors(h: Host, e: EntityType, rows: seq<Row>): RowErrorMap
  {
    NonEmptyEntries(RowErrorsOf(h, e, rows), |rows|)
  }

  /** Each file's row map, in file order. */
  function FileErrorsOf(h: Host, files: seq<ParsedFile>): seq<RowErrorMap>
  {
    seq(|files|, i requires 0 <= i < |files| => EntityErrors(h, files[i].entityType, files[i].rawData))
  }

  /** The entity loop of `validateAllFiles`: a file's map is stored under its entity only when non-empty, so a later such file replaces an earlier one. */
  function MergeEntityMaps(files: seq<ParsedFile>, maps: seq<RowErrorMap>): ValidationErrors
    requires |maps| == |files|
  {
    if files == [] then map[]
    else
      var acc := MergeEntityMaps(files[..|files| - 1], maps[..|files| - 1]);
      if |maps[|files| - 1]| > 0 then acc[files[|files| - 1].entityType := maps[|files| - 1]] else acc
  }

  /** `validateAllFiles(files)`. */
  function AllErrors(h: Host, files: seq<ParsedFile>): ValidationErrors
  {
    MergeEntityMaps(files, FileErrorsOf(h, files))
  }

  // ---------------------------------------------------------------------------
  // The loops of `validateSingleRow` and `validateAllFiles`.

  /** The issue loop: each issue writes its message under its top-level field. */
  method CollectErrors(issues: seq<Issue>) returns (errors: CellErrorMap)
    ensures errors == ErrorsOf(issues)
  {
    errors := map[];
    var j := 0;
    while j < |issues|
      invariant 0 <= j <= |issues|
      invariant errors == ErrorsOf(issues[..j])
    {
      assert issues[..j + 1][..j] == issues[..j];
      errors := errors[issues[j].field := issues[j].message];
      j := j + 1;
    }
    assert issues[..|issues|] == issues;
  }

  /** `validateSingleRow(entity, rawRow)`. */
  method ValidateSingleRow(h: Host, e: EntityType, rawRow: Row) returns (errors: CellErrorMap)
    ensures errors == RowErrors(h, e, rawRow)
  {
    var normalizedRow := NormalizeRow(h, e, rawRow);
    var schema := SchemaFor(e);
    var issues := SchemaIssues(h, schema, normalizedRow);
    errors := CollectErrors(issues);
  }

  /** The issue loop of `validateAllFiles` for row `rowIndex`: the row's entry is created on its first issue. */
  method RecordIssues(entityErrors: RowErrorMap, rowIndex: int, issues: seq<Issue>) returns (updated: RowErrorMap)
    requires rowIndex !in entityErrors
    ensures issues == [] ==> updated == entityErrors
    ensures issues != [] ==> updated == entityErrors[rowIndex := ErrorsOf(issues)]
  {
    updated := entityErrors;
    var j := 0;
    while j < |issues|
      invariant 0 <= j <= |issues|
      invariant j == 0 ==> updated == entityErrors
      invariant j > 0 ==> updated == entityErrors[rowIndex := ErrorsOf(issues[..j])]
    {
      if rowIndex !in updated {
        updated := updated[rowIndex := map[]];
      }
      assert issues[..j + 1][..j] == issues[..j];
      updated := updated[rowIndex := updated[rowIndex][issues[j].field := issues[j].message]];
      j := j + 1;
    }
    assert issues[..|issues|] == issues;
  }

  /** The row loop of `validateAllFiles` for one file. */
  method ValidateRows(h: Host, e: EntityType, rows: seq<Row>) returns (entityErrors: RowErrorMap)
    ensures entityErrors == EntityErrors(h, e, rows)
  {
    ghost var perRow := RowErrorsOf(h, e, rows);
    entityErrors := map[];
    var rowIndex := 0;
    while rowIndex < |rows|
      invariant 0 <= rowIndex <= |rows|
      invariant entityErrors == NonEmptyEntries(perRow, rowIndex)
    {
      var normalizedRow := NormalizeRow(h, e, rows[rowIndex]);
      var issues := SchemaIssues(h, SchemaFor(e), normalizedRow);
      RowErrorsOfIssues(h, e, rows, rowIndex);
      RowStep(perRow, rowIndex, issues);
      entityErrors := RecordIssues(entityErrors, rowIndex, issues);
      rowIndex := rowIndex + 1;
    }
  }

  /** `validateAllFiles(files)`. */
  method ValidateAllFiles(h: Host, files: seq<ParsedFile>) returns (allErrors: ValidationErrors)
    ensures allErrors == AllErrors(h, files)
    ensures AbsenceMeansClean(allErrors)
  {
    ghost var maps := FileErrorsOf(h, files);
    allErrors := map[];
    var n := 0;
    while n < |files|
      invariant 0 <= n <= |files|
      invariant allErrors == MergeEntityMaps(files[..n], maps[..n])
    {
      var file := files[n];
      var entityErrors := ValidateRows(h, file.entityType, file.rawData);
      MergeStep(files, maps, n);
      if |entityErrors| > 0 {
        allErrors := allErrors[file.entityType := entityErrors];
      }
      n := n + 1;
    }
    MergeWhole(files, maps);
    AllErrorsClean(h, files);
  }

  // ---------------------------------------------------------------------------
  // Properties of the fold.

  lemma ErrorsOfNonEmpty(issues: seq<Issue>)
    requires issues != []
    ensures ErrorsOf(issues) != map[]
  {
    assert issues[|issues| - 1].field in ErrorsOf(issues);
  }

  /** A field has an entry exactly when some issue is reported under it. */
  lemma {:induction false} ErrorsOfKeys(issues: seq<Issue>, field: string)
    ensures field in ErrorsOf(issues) <==> exists i :: 0 <= i < |issues| && issues[i].field == field
  {
    if issues != [] {
      var init := issues[..|issues| - 1];
      ErrorsOfKeys(init, field);
      if exists i :: 0 <= i < |init| && init[i].field == field {
        var i :| 0 <= i < |init| && init[i].field == field;
        assert issues[i].field == field;
      }
      if exists i :: 0 <= i < |issues| && issues[i].field == field {
        var i :| 0 <= i < |issues| && issues[i].field == field;
        if i < |init| {
          assert init[i].field == field;
        }
      }
    }
  }

  /** When a field has several issues, the message of the last one is kept. */
  lemma {:induction false} ErrorsOfLastWins(issues: seq<Issue>, i: int)
    requires 0 <= i < |issues|
    requires forall j :: i < j < |issues| ==> issues[j].field != issues[i].field
    ensures issues[i].field in ErrorsOf(issues)
    ensures ErrorsOf(issues)[issues[i].field] == issues[i].message
  {
    if i < |issues| - 1 {
      var init := issues[..|issues| - 1];
      ErrorsOfLastWins(init, i);
    }
  }

  /** A row's entry is empty exactly when the normalised row satisfies its schema. */
  lemma RowErrorsEmptyIff(h: Host, e: EntityType, row: Row)
    ensures RowErrors(h, e, row) == map[] <==> RowValid(h, e, row)
  {
    var issues := SchemaIssues(h, SchemaFor(e), NormalizeRow(h, e, row));
    if issues != [] {
      ErrorsOfNonEmpty(issues);
    }
    var n := NormalizeRow(h, e, row);
    match e
    case Clients => ClientSchemaIff(h, n);
    case Workers => WorkerSchemaIff(h, n);
    case Tasks => TaskSchemaIff(h, n);
  }

  /** Row `i`'s entry is what folding the issues of its normalised row gives. */
  lemma RowErrorsOfIssues(h: Host, e: EntityType, rows: seq<Row>, i: int)
    requires 0 <= i < |rows|
    ensures RowErrorsOf(h, e, rows)[i] == ErrorsOf(SchemaIssues(h, SchemaFor(e), NormalizeRow(h, e, rows[i])))
  {
  }

  /** One more row: its entry is recorded exactly when its issue list is non-empty. */
  lemma RowStep(perRow: seq<CellErrorMap>, k: int, issues: seq<Issue>)
    requires 0 <= k < |perRow| && perRow[k] == ErrorsOf(issues)
    ensures k !in NonEmptyEntries(perRow, k)
    ensures NonEmptyEntries(perRow, k + 1)
         == if issues == [] then NonEmptyEntries(perRow, k) else NonEmptyEntries(perRow, k)[k := ErrorsOf(issues)]
  {
    NonEmptyEntriesSpec(perRow, k, k);
    if issues != [] {
      ErrorsOfNonEmpty(issues);
    }
  }

  /** The map holds exactly the non-empty entries below `k`, each unchanged. */
  lemma {:induction false} NonEmptyEntriesSpec(errs: seq<CellErrorMap>, k: nat, i: int)
    requires k <= |errs|
    ensures i in NonEmptyEntries(errs, k) <==> 0 <= i < k && errs[i] != map[]
    ensures i in NonEmptyEntries(errs, k) ==> NonEmptyEntries(errs, k)[i] == errs[i]
  {
    if k > 0 {
      NonEmptyEntriesSpec(errs, k - 1, i);
    }
  }

  /** A row index is in an entity's map exactly when that row fails, and its entry is that row's own errors. */
  lemma RowPresentIff(h: Host, e: EntityType, rows: seq<Row>, i: int)
    ensures i in EntityErrors(h, e, rows) <==> 0 <= i < |rows| && !RowValid(h, e, rows[i])
    ensures i in EntityErrors(h, e, rows) ==> EntityErrors(h, e, rows)[i] == RowErrors(h, e, rows[i])
  {
    NonEmptyEntriesSpec(RowErrorsOf(h, e, rows), |rows|, i);
    if 0 <= i < |rows| {
      RowErrorsEmptyIff(h, e, rows[i]);
    }
  }

  /** A row's entry depends on that row alone: not on its index, not on its siblings. */
  lemma RowErrorsLocal(h: Host, e: EntityType, rows: seq<Row>, other: seq<Row>, i: int, j: int)
    requires 0 <= i < |rows| && 0 <= j < |other| && rows[i] == other[j]
    ensures i in EntityErrors(h, e, rows) <==> j in EntityErrors(h, e, other)
    ensures i in EntityErrors(h, e, rows) ==> EntityErrors(h, e, rows)[i] == EntityErrors(h, e, other)[j]
  {
    NonEmptyEntriesSpec(RowErrorsOf(h, e, rows), |rows|, i);
    NonEmptyEntriesSpec(RowErrorsOf(h, e, other), |other|, j);
  }

  /** Validating a row already normalised gives what validating the raw row gives. */
  lemma NormalizedRowSameErrors(h: Host, e: EntityType, row: Row)
    ensures RowErrors(h, e, NormalizeRow(h, e, row)) == RowErrors(h, e, row)
  {
    NormalizeIdempotent(h, e, row);
  }

  /** One more file: its map is stored under its entity when non-empty. */
  lemma MergeStep(files: seq<ParsedFile>, maps: seq<RowErrorMap>, n: int)
    requires |maps| == |files| && 0 <= n < |files|
    ensures var acc := MergeEntityMaps(files[..n], maps[..n]);
      MergeEntityMaps(files[..n + 1], maps[..n + 1])
      == if |maps[n]| > 0 then acc[files[n].entityType := maps[n]] else acc
  {
    assert files[..n + 1][..n] == files[..n] && maps[..n + 1][..n] == maps[..n];
  }

  lemma MergeWhole(files: seq<ParsedFile>, maps: seq<RowErrorMap>)
    requires |maps| == |files|
    ensures MergeEntityMaps(files[..|files|], maps[..|files|]) == MergeEntityMaps(files, maps)
  {
    assert files[..|files|] == files && maps[..|files|] == maps;
  }

  /** Merging maps whose row entries are all non-empty gives the absence-means-clean shape. */
  lemma {:induction false} MergeClean(files: seq<ParsedFile>, maps: seq<RowErrorMap>)
    requires |maps| == |files|
    requires forall i, r :: 0 <= i < |maps| && r in maps[i] ==> maps[i][r] != map[]
    ensures AbsenceMeansClean(MergeEntityMaps(files, maps))
  {
    if files != [] {
      MergeClean(files[..|files| - 1], maps[..|files| - 1]);
    }
  }

  /** An entity key is present only when some file of that entity has a non-empty map, and it holds that map. */
  lemma {:induction false} MergeKeys(files: seq<ParsedFile>, maps: seq<RowErrorMap>, e: EntityType)
    requires |maps| == |files|
    requires e in MergeEntityMaps(files, maps)
    ensures exists i :: 0 <= i < |files| && files[i].entityType == e
                        && maps[i] == MergeEntityMaps(files, maps)[e] && |maps[i]| > 0
  {
    var n := |files| - 1;
    if !(files[n].entityType == e && |maps[n]| > 0) {
      MergeKeys(files[..n], maps[..n], e);
      var i :| 0 <= i < n && files[..n][i].entityType == e
               && maps[..n][i] == MergeEntityMaps(files[..n], maps[..n])[e] && |maps[..n][i]| > 0;
      assert files[i] == files[..n][i] && maps[i] == maps[..n][i];
    }
  }

  /** With one file per entity, each file's map is its entity's entry when non-empty, and the entity is absent otherwise. */
  lemma {:induction false} MergeOneFilePerEntity(files: seq<ParsedFile>, maps: seq<RowErrorMap>, i: int)
    requires |maps| == |files|
    requires forall a, b :: 0 <= a < b < |files| ==> files[a].entityType != files[b].entityType
    requires 0 <= i < |files|
    ensures files[i].entityType in MergeEntityMaps(files, maps) <==> maps[i] != map[]
    ensures files[i].entityType in MergeEntityMaps(files, maps) ==> MergeEntityMaps(files, maps)[files[i].entityType] == maps[i]
  {
    var n := |files| - 1;
    var e := files[i].entityType;
    if i < n {
      MergeOneFilePerEntity(files[..n], maps[..n], i);
      assert files[..n][i] == files[i] && maps[..n][i] == maps[i];
    } else if e in MergeEntityMaps(files[..n], maps[..n]) {
      MergeKeys(files[..n], maps[..n], e);
    }
  }

  /** The result of `validateAllFiles` has the absence-means-clean shape. */
  lemma AllErrorsClean(h: Host, files: seq<ParsedFile>)
    ensures AbsenceMeansClean(AllErrors(h, files))
  {
    var maps := FileErrorsOf(h, files);
    forall i, r | 0 <= i < |maps| && r in maps[i] ensures maps[i][r] != map[] {
      NonEmptyEntriesSpec(RowErrorsOf(h, files[i].entityType, files[i].rawData), |files[i].rawData|, r);
    }
    MergeClean(files, maps);
  }

  /** An entity key is present only when a file of that entity has a failing row, and holds that file's row map. */
  lemma AllErrorsKeys(h: Host, files: seq<ParsedFile>, e: EntityType)
    requires e in AllErrors(h, files)
    ensures exists i :: 0 <= i < |files| && files[i].entityType == e
                        && EntityErrors(h, e, files[i].rawData) == AllErrors(h, files)[e]
                        && |AllErrors(h, files)[e]| > 0
  {
    var maps := FileErrorsOf(h, files);
    MergeKeys(files, maps, e);
    var i :| 0 <= i < |files| && files[i].entityType == e && maps[i] == MergeEntityMaps(files, maps)[e] && |maps[i]| > 0;
  }

  /** With one file per entity, each entity's entry is exactly that file's row map, present iff non-empty. */
  lemma AllErrorsOneFilePerEntity(h: Host, files: seq<ParsedFile>, i: int)
    requires forall a, b :: 0 <= a < b < |files| ==> files[a].entityType != files[b].entityType
    requires 0 <= i < |files|
    ensures var e := files[i].entityType; var ee := EntityErrors(h, e, files[i].rawData);
      && (e in AllErrors(h, files) <==> ee != map[])
      && (e in AllErrors(h, files) ==> AllErrors(h, files)[e] == ee)
  {
    MergeOneFilePerEntity(files, FileErrorsOf(h, files), i);
  }

  /** A field the entity's schema does not declare never produces an error, whatever it holds. */
  lemma UndeclaredFieldIgnored(h: Host, e: EntityType, row: Row, k: string, v: Value)
    requires k !in ShapeFields(Shape(SchemaFor(e)))
    ensures RowErrors(h, e, row[k := v]) == RowErrors(h, e, row)
  {
    var shape := Shape(SchemaFor(e));
    var a := NormalizeRow(h, e, row[k := v]);
    var b := NormalizeRow(h, e, row);
    NormalizeOtherFields(h, e, row, k, v, ShapeFields(shape));
    ObjectIssuesDeclaredOnly(h, shape, a, b);
  }

  /** Every key of a row's entry is a field its schema declares. */
  lemma RowErrorsDeclaredFields(h: Host, e: EntityType, row: Row, field: string)
    requires field in RowErrors(h, e, row)
    ensures field in ShapeFields(Shape(SchemaFor(e)))
  {
    var issues := SchemaIssues(h, SchemaFor(e), NormalizeRow(h, e, row));
    ErrorsOfKeys(issues, field);
    ObjectIssuesFields(h, Shape(SchemaFor(e)), NormalizeRow(h, e, row));
  }
}
