/**
 * The AI validation-fix hook: it watches the error map for any row entry,
 * sends the error map with every entity filled in, keeps the assistant's
 * proposed fixes, and writes one proposed value into one cell on request.
 */
module ValidationFix {
  import opened Js
  import opened Store
  import DataModification

  /** The assistant's proposal: entity to row index to field to corrected value. */
  type FixResult = map<EntityType, map<int, Row>>

  /** The payload of `fixAllWithAI`: the uploaded files and the safe error map. */
  datatype FixRequest = FixRequest(uploadedFiles: seq<ParsedFile>, validationErrors: ValidationErrors)

  /** `safeValidationErrors`: the three entities, `{}` standing in for an absent one. */
  function SafeErrors(errors: ValidationErrors): ValidationErrors
  {
    map[Clients := EntityRowErrors(errors, Clients),
        Workers := EntityRowErrors(errors, Workers),
        Tasks := EntityRowErrors(errors, Tasks)]
  }

  /** Every entity is present, existing row maps are kept, and whether there are errors is unchanged. */
  lemma SafeErrorsShape(errors: ValidationErrors)
    ensures forall e :: e in SafeErrors(errors)
    ensures forall e :: e in errors ==> SafeErrors(errors)[e] == errors[e]
    ensures forall e :: e !in errors ==> SafeErrors(errors)[e] == map[]
    ensures HasErrors(SafeErrors(errors)) <==> HasErrors(errors)
  {
    var safe := SafeErrors(errors);
    forall e ensures e in safe && safe[e] == EntityRowErrors(errors, e) {
      match e
      case Clients =>
      case Workers =>
      case Tasks =>
    }
    if HasErrors(safe) {
      var e :| e in safe && |safe[e]| > 0;
      assert e in errors;
    }
  }

  /** The guard of `fixCell`: a fix for the row exists and names the field, whatever value it holds. */
  predicate FixApplies(fixes: FixResult, e: EntityType, r: int, field: string)
  {
    e in fixes && r in fixes[e] && field in fixes[e][r]
  }

  /** `{...data[r], [field]: v}` stored back at `r`; an index outside the rows changes nothing. */
  function FixRows(data: seq<Row>, r: int, field: string, v: Value): seq<Row>
  {
    if 0 <= r < |data| then data[r := data[r][field := v]] else data
  }

  /** `prev.map(...)`: every file of `e` gets the fixed cell, other files are kept. */
  function FilesAfterFix(files: seq<ParsedFile>, e: EntityType, r: int, field: string, v: Value): seq<ParsedFile>
  {
    seq(|files|, k requires 0 <= k < |files| =>
      if files[k].entityType == e then files[k].(rawData := FixRows(files[k].rawData, r, field, v)) else files[k])
  }

  /**
   * Exactly one cell changes, to exactly the proposed value (no normalisation,
   * even of a numeric field): other files, other rows and other fields keep
   * their contents, and files keep their order, names, kinds and lengths.
   */
  lemma FixCellOnly(files: seq<ParsedFile>, e: EntityType, r: int, field: string, v: Value, k: int, i: int, f: string)
    requires 0 <= k < |files| && 0 <= i < |files[k].rawData|
    ensures var after := FilesAfterFix(files, e, r, field, v);
      && |after| == |files|
      && after[k].fileName == files[k].fileName && after[k].entityType == files[k].entityType
      && |after[k].rawData| == |files[k].rawData|
      && (files[k].entityType != e ==> after[k] == files[k])
      && (files[k].entityType == e && i != r ==> after[k].rawData[i] == files[k].rawData[i])
      && (files[k].entityType == e && i == r ==>
            after[k].rawData[i].Keys == files[k].rawData[i].Keys + {field}
            && Get(after[k].rawData[i], f) == if f == field then v else Get(files[k].rawData[i], f))
  {
  }

  /** A proposed `0` is written by `fixCell`, while a pending AI change of `0` is never applied. */
  lemma ZeroFixApplied(e: EntityType, r: int, field: string)
    ensures FixApplies(map[e := map[r := map[field := Num(Finite(0.0))]]], e, r, field)
    ensures !DataModification.CanApplyCell(Some(map[r := map[field := Num(Finite(0.0))]]), r, field)
  {
  }

  /** The hook's state over the shared store. */
  class AiValidationFix {
    const store: AppStore
    var fixes: FixResult
    var loading: bool
    var hasErrors: bool

    constructor (store: AppStore)
      ensures this.store == store && fixes == map[] && !loading && !hasErrors
    {
      this.store := store;
      fixes := map[];
      loading := false;
      hasErrors := false;
    }

    /** The effect that recomputes `hasErrors` whenever the error map changes. */
    method RefreshHasErrors()
      modifies this
      ensures hasErrors == HasErrors(store.validationErrors)
      ensures fixes == old(fixes) && loading == old(loading)
    {
      var anyErrors := exists e :: e in store.validationErrors && |store.validationErrors[e]| > 0;
      hasErrors := anyErrors;
    }

    /**
     * `runFix`: nothing without errors; otherwise the request carries the
     * uploaded files and the safe error map, and the assistant's `reply`
     * becomes the cached fixes.
     */
    method RunFix(reply: FixResult) returns (request: Option<FixRequest>)
      modifies this
      ensures !old(hasErrors) ==> request == None && fixes == old(fixes) && loading == old(loading)
      ensures old(hasErrors) ==> request == Some(FixRequest(store.uploadedFiles, SafeErrors(store.validationErrors))) && fixes == reply && !loading
      ensures hasErrors == old(hasErrors)
    {
      request := None;
      if !hasErrors {
        return;
      }
      loading := true;
      var safeValidationErrors := SafeErrors(store.validationErrors);
      request := Some(FixRequest(store.uploadedFiles, safeValidationErrors));
      fixes := reply;
      loading := false;
    }

    /** `fixCell(entity, rowIndex, field)`: the error map and the AI marks are not touched. */
    method FixCell(e: EntityType, rowIndex: int, field: string)
      modifies store
      ensures store.uploadedFiles == if FixApplies(fixes, e, rowIndex, field)
                                     then FilesAfterFix(old(store.uploadedFiles), e, rowIndex, field, fixes[e][rowIndex][field])
                                     else old(store.uploadedFiles)
      ensures store.validationErrors == old(store.validationErrors)
      ensures store.aiModifications == old(store.aiModifications)
    {
      if !FixApplies(fixes, e, rowIndex, field) {
        return;
      }
      var fixedValue := fixes[e][rowIndex][field];
      store.uploadedFiles := FilesAfterFix(store.uploadedFiles, e, rowIndex, field, fixedValue);
    }
  }
}
