/**
 * The application's shared state: uploaded datasets, the validation error
 * map and the record of AI-modified cells, with the readiness predicate and
 * the "any errors" and error-count folds that the screens compute from them.
 */
module Store {
  import opened Js
  import Lists

  /** The three entity kinds; a closed set. */
  datatype EntityType = Clients | Workers | Tasks

  /** One uploaded spreadsheet: its name, its entity kind and its rows in file order. */
  datatype ParsedFile = ParsedFile(fileName: string, entityType: EntityType, rawData: seq<Row>)

  /** Field name to message. */
  type CellErrorMap = map<string, string>

  /** Row index to that row's field errors. */
  type RowErrorMap = map<int, CellErrorMap>

  /** Entity to its row errors; an entity without errors may be absent. */
  type ValidationErrors = map<EntityType, RowErrorMap>

  /** Entity to row index to field name to "this value came from an accepted AI change". */
  type AiModifications = map<EntityType, map<int, map<string, bool>>>

  /** The "absence means clean" shape: no entity maps to `{}` and no row maps to `{}`. */
  predicate AbsenceMeansClean(errors: ValidationErrors)
  {
    forall e :: e in errors ==> errors[e] != map[] && forall r :: r in errors[e] ==> errors[e][r] != map[]
  }

  /** `errors[e] || {}`: the row map of entity `e`, `{}` when absent. */
  function EntityRowErrors(errors: ValidationErrors, e: EntityType): RowErrorMap
  {
    if e in errors then errors[e] else map[]
  }

  /** `files.find((f) => f.entityType === e)`: the first file of that entity. */
  function FindFile(files: seq<ParsedFile>, e: EntityType): (r: Option<ParsedFile>)
    ensures r.None? <==> forall i :: 0 <= i < |files| ==> files[i].entityType != e
    ensures r.Some? ==> exists i :: 0 <= i < |files| && files[i] == r.value && r.value.entityType == e
                                 && forall j :: 0 <= j < i ==> files[j].entityType != e
  {
    if files == [] then None
    else if files[0].entityType == e then Some(files[0])
    else
      var r := FindFile(files[1..], e);
      assert r.Some? ==> exists i :: 0 <= i < |files[1..]| && files[1..][i] == r.value && r.value.entityType == e
                                   && (forall j :: 0 <= j < i ==> files[1..][j].entityType != e);
      r
  }

  /** `files.find((f) => f.entityType === e)?.rawData || []`. */
  function DataOf(files: seq<ParsedFile>, e: EntityType): seq<Row>
  {
    match FindFile(files, e)
    case Some(f) => f.rawData
    case None => []
  }

  /** `rows.map((row) => row[field])`: one entry per row, in row order. */
  function Column(rows: seq<Row>, field: string): (c: seq<Value>)
    ensures |c| == |rows|
    ensures forall i :: 0 <= i < |rows| ==> c[i] == Get(rows[i], field)
  {
    if rows == [] then [] else [Get(rows[0], field)] + Column(rows[1..], field)
  }

  /** `new Set(files.map((f) => f.entityType))`. */
  function TypesUploaded(files: seq<ParsedFile>): set<EntityType>
  {
    set i | 0 <= i < |files| :: files[i].entityType
  }

  /** `validationReadyAtom`: every one of clients, workers and tasks is among the uploaded types. */
  predicate ValidationReady(files: seq<ParsedFile>)
  {
    var uploaded := TypesUploaded(files);
    Clients in uploaded && Workers in uploaded && Tasks in uploaded
  }

  /** Some uploaded file is of entity `e`. */
  predicate HasFileOf(files: seq<ParsedFile>, e: EntityType)
  {
    exists i :: 0 <= i < |files| && files[i].entityType == e
  }

  lemma UploadedIff(files: seq<ParsedFile>, e: EntityType)
    ensures e in TypesUploaded(files) <==> HasFileOf(files, e)
  {
    if HasFileOf(files, e) {
      var i :| 0 <= i < |files| && files[i].entityType == e;
      assert files[i].entityType in TypesUploaded(files);
    }
  }

  /** Ready exactly when each entity kind has at least one uploaded file. */
  lemma ReadyIff(files: seq<ParsedFile>)
    ensures ValidationReady(files) <==> forall e :: HasFileOf(files, e)
  {
    UploadedIff(files, Clients);
    UploadedIff(files, Workers);
    UploadedIff(files, Tasks);
    if ValidationReady(files) {
      forall e ensures HasFileOf(files, e) {
        match e
        case Clients =>
        case Workers =>
        case Tasks =>
      }
    }
  }

  /** Readiness depends only on which files are present, not on their order or on repeats. */
  lemma ReadyIgnoresOrderAndRepeats(files: seq<ParsedFile>, other: seq<ParsedFile>)
    requires forall f :: f in files <==> f in other
    ensures ValidationReady(files) == ValidationReady(other)
  {
    forall e ensures HasFileOf(files, e) <==> HasFileOf(other, e) {
      if HasFileOf(files, e) {
        var i :| 0 <= i < |files| && files[i].entityType == e;
        assert files[i] in other;
      }
      if HasFileOf(other, e) {
        var j :| 0 <= j < |other| && other[j].entityType == e;
        assert other[j] in files;
      }
    }
    ReadyIff(files);
    ReadyIff(other);
  }

  /** Adding a file anywhere never turns ready into not ready. */
  lemma ReadyMonotone(files: seq<ParsedFile>, k: nat, f: ParsedFile)
    requires k <= |files| && ValidationReady(files)
    ensures ValidationReady(files[..k] + [f] + files[k..])
  {
    var bigger := files[..k] + [f] + files[k..];
    forall e | e in TypesUploaded(files) ensures e in TypesUploaded(bigger) {
      var i :| 0 <= i < |files| && files[i].entityType == e;
      if i < k {
        assert bigger[i] == files[i];
      } else {
        assert bigger[i + 1] == files[i];
      }
    }
  }

  /**
   * `Object.values(validationErrors).some((entityErrors) => entityErrors && Object.keys(entityErrors).length > 0)`.
   */
  predicate HasErrors(errors: ValidationErrors)
  {
    exists e :: e in errors && |errors[e]| > 0
  }

  /** The number of row entries an entity contributes: `Object.keys(entityErrors).length` summed over its rows' fields. */
  function RowErrorCount(rows: RowErrorMap): nat
  {
    |ErrorCells(rows)|
  }

  /** The (row, field) pairs that carry a message. */
  function ErrorCells(rows: RowErrorMap): set<(int, string)>
  {
    set r, f | r in rows && f in rows[r] :: (r, f)
  }

  /** The error count of one entity, 0 when its map is absent. */
  function EntityErrorCount(errors: ValidationErrors, e: EntityType): nat
  {
    if e in errors then RowErrorCount(errors[e]) else 0
  }

  /** `totalErrors`: the number of (row, field) entries summed over the three entities. */
  function TotalErrors(errors: ValidationErrors): nat
  {
    EntityErrorCount(errors, Clients) + EntityErrorCount(errors, Workers) + EntityErrorCount(errors, Tasks)
  }

  /** The entries `(r, f)` for the fields `f` of one row. */
  function RowCells(r: int, fields: set<string>): set<(int, string)>
  {
    set f | f in fields :: (r, f)
  }

  lemma {:induction false} RowCellsCount(r: int, fields: set<string>)
    ensures |RowCells(r, fields)| == |fields|
    decreases |fields|
  {
    if fields != {} {
      var f := Lists.PickElem(fields);
      RowCellsCount(r, fields - {f});
      assert RowCells(r, fields) == RowCells(r, fields - {f}) + {(r, f)};
    }
  }

  /**
   * The count is the fold `Object.values(rows).reduce((t, e) => t + Object.keys(e).length, 0)`:
   * nothing for no rows, and taking out any one row takes out exactly its number of fields.
   */
  lemma RowErrorCountIsSum(rows: RowErrorMap, r: int)
    ensures RowErrorCount(map[]) == 0
    ensures r in rows ==> RowErrorCount(rows) == RowErrorCount(rows - {r}) + |rows[r]|
  {
    assert ErrorCells(map[]) == {};
    if r in rows {
      var rest := rows - {r};
      assert ErrorCells(rows) == ErrorCells(rest) + RowCells(r, rows[r].Keys);
      assert ErrorCells(rest) !! RowCells(r, rows[r].Keys);
      RowCellsCount(r, rows[r].Keys);
    }
  }

  lemma CountedRowIsPresent(rows: RowErrorMap)
    requires RowErrorCount(rows) > 0
    ensures |rows| > 0
  {
    var p := Lists.PickElem(ErrorCells(rows));
    assert p.0 in rows;
  }

  lemma PresentCellIsCounted(rows: RowErrorMap, r: int, f: string)
    requires r in rows && f in rows[r]
    ensures RowErrorCount(rows) > 0
  {
    assert (r, f) in ErrorCells(rows);
  }

  /** A positive count implies some entity has a row entry. */
  lemma TotalErrorsImpliesHasErrors(errors: ValidationErrors)
    requires TotalErrors(errors) > 0
    ensures HasErrors(errors)
  {
    var e := if EntityErrorCount(errors, Clients) > 0 then Clients
             else if EntityErrorCount(errors, Workers) > 0 then Workers
             else Tasks;
    CountedRowIsPresent(errors[e]);
  }

  /** Conversely, when no row entry is `{}`, having a row entry means a positive count. */
  lemma HasErrorsImpliesTotalErrors(errors: ValidationErrors)
    requires HasErrors(errors)
    requires forall e :: e in errors ==> forall r :: r in errors[e] ==> errors[e][r] != map[]
    ensures TotalErrors(errors) > 0
  {
    var e :| e in errors && |errors[e]| > 0;
    assert errors[e] != map[];
    var r := Lists.PickKey(errors[e]);
    var f := Lists.PickKey(errors[e][r]);
    PresentCellIsCounted(errors[e], r, f);
    match e
    case Clients => assert EntityErrorCount(errors, Clients) > 0;
    case Workers => assert EntityErrorCount(errors, Workers) > 0;
    case Tasks => assert EntityErrorCount(errors, Tasks) > 0;
  }

  /** A row entry that is `{}` is counted by HasErrors but not by TotalErrors: the two can disagree. */
  lemma EmptyRowEntryDisagrees()
    ensures var errors: ValidationErrors := map[Clients := map[0 := map[]]];
      HasErrors(errors) && TotalErrors(errors) == 0
  {
    var errors: ValidationErrors := map[Clients := map[0 := map[]]];
    assert ErrorCells(errors[Clients]) == {};
  }

  /** The shared store: the upload, error and AI-modification atoms as fields. */
  class AppStore {
    var uploadedFiles: seq<ParsedFile>
    var validationErrors: ValidationErrors
    var aiModifications: AiModifications

    constructor ()
      ensures uploadedFiles == [] && validationErrors == map[] && aiModifications == map[]
    {
      uploadedFiles := [];
      validationErrors := map[];
      aiModifications := map[];
    }
  }
}
