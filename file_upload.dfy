/**
 * The upload screen's data handling: detecting that a sheet's headers do not
 * match the entity's expected columns, renaming the keys of every row by a
 * header mapping, and replacing or removing the uploaded file of an entity.
 */
module FileUpload {
  import opened Js
  import opened Store
  import opened Normalize
  import Lists

  /** `expectedHeadersMap[e]`. */
  function ExpectedHeaders(e: EntityType): seq<string>
  {
    match e
    case Clients => ["ClientID", "ClientName", "PriorityLevel", "RequestedTaskIDs", "GroupTag", "AttributesJSON"]
    case Workers => ["WorkerID", "WorkerName", "Skills", "AvailableSlots", "MaxLoadPerPhase", "WorkerGroup", "QualificationLevel"]
    case Tasks => ["TaskID", "TaskName", "Category", "Duration", "RequiredSkills", "PreferredPhases", "MaxConcurrent"]
  }

  /** `expectedHeaders.some((h) => !rawHeaders.includes(h))`, the raw headers being the keys of the first row. */
  predicate HeadersMismatch(expected: seq<string>, first: Row)
  {
    exists i :: 0 <= i < |expected| && expected[i] !in first
  }

  /** A mismatch is exactly a missing expected header: extra columns alone never cause one. */
  lemma MismatchIff(expected: seq<string>, first: Row, extra: Row)
    ensures HeadersMismatch(expected, first) <==> exists h :: h in expected && h !in first.Keys
    ensures !HeadersMismatch(expected, first) ==> !HeadersMismatch(expected, first + extra)
  {
    if exists h :: h in expected && h !in first.Keys {
      var h :| h in expected && h !in first.Keys;
      var i :| 0 <= i < |expected| && expected[i] == h;
    }
  }

  /** `mapping[key] || key`: a non-empty mapped name, or the key itself. */
  function NewKey(mapping: map<string, string>, key: string): string
  {
    if key in mapping && mapping[key] != "" then mapping[key] else key
  }

  /** The `for…in` order of a row: each of its own keys exactly once. */
  predicate EnumeratesKeys(keys: seq<string>, row: Row)
  {
    Lists.NoDup(keys) && (forall k :: k in keys ==> k in row) && (forall k :: k in row ==> k in keys)
  }

  /** The renamed row after the keys `keys` have been visited in order; a later key wins a collision. */
  function Remapped(row: Row, keys: seq<string>, mapping: map<string, string>): Row
    requires forall k :: k in keys ==> k in row
  {
    if keys == [] then map[]
    else
      var last := keys[|keys| - 1];
      Remapped(row, keys[..|keys| - 1], mapping)[NewKey(mapping, last) := row[last]]
  }

  /** The renamed row has exactly the renamed keys. */
  lemma {:induction false} RemappedKeys(row: Row, keys: seq<string>, mapping: map<string, string>)
    requires forall k :: k in keys ==> k in row
    ensures Remapped(row, keys, mapping).Keys == set k | k in keys :: NewKey(mapping, k)
  {
    if keys != [] {
      var init := keys[..|keys| - 1];
      RemappedKeys(row, init, mapping);
      assert keys == init + [keys[|keys| - 1]];
    }
  }

  /** A renamed key holds the value of the last key, in visiting order, renamed to it. */
  lemma {:induction false} RemappedLastWins(row: Row, keys: seq<string>, mapping: map<string, string>, j: int)
    requires forall k :: k in keys ==> k in row
    requires 0 <= j < |keys|
    requires forall m :: j < m < |keys| ==> NewKey(mapping, keys[m]) != NewKey(mapping, keys[j])
    ensures NewKey(mapping, keys[j]) in Remapped(row, keys, mapping)
    ensures Remapped(row, keys, mapping)[NewKey(mapping, keys[j])] == row[keys[j]]
  {
    var n := |keys| - 1;
    if j < n {
      var init := keys[..n];
      forall m | j < m < |init| ensures NewKey(mapping, init[m]) != NewKey(mapping, init[j]) {
        assert init[m] == keys[m];
      }
      RemappedLastWins(row, init, mapping, j);
      assert init[j] == keys[j];
    }
  }

  /** With an empty mapping every key keeps its name and its value. */
  lemma RemappedIdentity(row: Row, keys: seq<string>)
    requires EnumeratesKeys(keys, row)
    ensures Remapped(row, keys, map[]) == row
  {
    var r := Remapped(row, keys, map[]);
    forall k | k in row ensures k in r && r[k] == row[k] {
      var j :| 0 <= j < |keys| && keys[j] == k;
      KeepsValue(row, keys, j);
    }
    forall k | k in r ensures k in row {
      KeepsNoOtherKey(row, keys, k);
    }
    Lists.MapsEqual(r, row);
  }

  lemma KeepsValue(row: Row, keys: seq<string>, j: int)
    requires EnumeratesKeys(keys, row) && 0 <= j < |keys|
    ensures keys[j] in Remapped(row, keys, map[]) && Remapped(row, keys, map[])[keys[j]] == row[keys[j]]
  {
    forall m | j < m < |keys| ensures NewKey(map[], keys[m]) != NewKey(map[], keys[j]) {
      assert keys[m] != keys[j];
    }
    RemappedLastWins(row, keys, map[], j);
  }

  lemma KeepsNoOtherKey(row: Row, keys: seq<string>, k: string)
    requires EnumeratesKeys(keys, row) && k in Remapped(row, keys, map[])
    ensures k in row
  {
    RemappedKeys(row, keys, map[]);
    var x :| x in keys && NewKey(map[], x) == k;
  }

  /** The `for (const key in row)` loop building `newRow`. */
  method RemapRow(row: Row, keys: seq<string>, mapping: map<string, string>) returns (newRow: Row)
    requires EnumeratesKeys(keys, row)
    ensures newRow == Remapped(row, keys, mapping)
  {
    newRow := map[];
    for i := 0 to |keys|
      invariant newRow == Remapped(row, keys[..i], mapping)
    {
      var key := keys[i];
      var newKey := if key in mapping && mapping[key] != "" then mapping[key] else key;
      assert keys[..i + 1][..i] == keys[..i];
      newRow := newRow[newKey := row[key]];
    }
    assert keys[..|keys|] == keys;
  }

  /** Every row's keys in `for…in` order. */
  predicate OrdersFit(rows: seq<Row>, orders: seq<seq<string>>)
  {
    |orders| == |rows| && forall i :: 0 <= i < |rows| ==> EnumeratesKeys(orders[i], rows[i])
  }

  /** `rawData.map(...)` renaming every row. */
  function RemappedRows(rows: seq<Row>, orders: seq<seq<string>>, mapping: map<string, string>): (r: seq<Row>)
    requires OrdersFit(rows, orders)
  {
    seq(|rows|, i requires 0 <= i < |rows| => Remapped(rows[i], orders[i], mapping))
  }

  /** `rawData.map((row) => { …for…in… })`. */
  method RemapRows(rows: seq<Row>, orders: seq<seq<string>>, mapping: map<string, string>) returns (remapped: seq<Row>)
    requires OrdersFit(rows, orders)
    ensures remapped == RemappedRows(rows, orders, mapping)
  {
    remapped := [];
    var k := 0;
    while k < |rows|
      invariant 0 <= k <= |rows|
      invariant remapped == RemappedRows(rows, orders, mapping)[..k]
    {
      var newRow := RemapRow(rows[k], orders[k], mapping);
      assert RemappedRows(rows, orders, mapping)[..k + 1] == RemappedRows(rows, orders, mapping)[..k] + [newRow];
      remapped := remapped + [newRow];
      k := k + 1;
    }
  }

  /** Keys are renamed only on a header mismatch and with a non-empty mapping; otherwise rows are used as parsed. */
  function FinalData(e: EntityType, rows: seq<Row>, orders: seq<seq<string>>, mapping: map<string, string>): seq<Row>
    requires OrdersFit(rows, orders) && |rows| > 0
  {
    if HeadersMismatch(ExpectedHeaders(e), rows[0]) && |mapping| > 0 then RemappedRows(rows, orders, mapping) else rows
  }

  /** The rows stored for an upload: the final data normalised row by row. */
  function UploadRows(h: Host, e: EntityType, rows: seq<Row>, orders: seq<seq<string>>, mapping: map<string, string>): seq<Row>
    requires OrdersFit(rows, orders) && |rows| > 0
  {
    var finalData := FinalData(e, rows, orders, mapping);
    seq(|rows|, i requires 0 <= i < |rows| => NormalizeRow(h, e, finalData[i]))
  }

  /**
   * Row count and row order are kept: row `i` of the upload comes from row
   * `i` of the sheet, renamed only when the headers mismatch and a mapping
   * was returned.
   */
  lemma UploadRowsFromSameRow(h: Host, e: EntityType, rows: seq<Row>, orders: seq<seq<string>>,
                              mapping: map<string, string>, i: int)
    requires OrdersFit(rows, orders) && |rows| > 0 && 0 <= i < |rows|
    ensures |UploadRows(h, e, rows, orders, mapping)| == |rows|
    ensures UploadRows(h, e, rows, orders, mapping)[i]
         == NormalizeRow(h, e, if HeadersMismatch(ExpectedHeaders(e), rows[0]) && |mapping| > 0
                               then Remapped(rows[i], orders[i], mapping) else rows[i])
  {
  }

  /** With matching headers, the mapping is never consulted. */
  lemma MatchingHeadersIgnoreMapping(h: Host, e: EntityType, rows: seq<Row>, orders: seq<seq<string>>,
                                     mapping: map<string, string>, other: map<string, string>)
    requires OrdersFit(rows, orders) && |rows| > 0
    requires !HeadersMismatch(ExpectedHeaders(e), rows[0])
    ensures UploadRows(h, e, rows, orders, mapping) == UploadRows(h, e, rows, orders, other)
  {
  }

  /** `files.filter((f) => f.entityType !== e)`. */
  function OtherFiles(files: seq<ParsedFile>, e: EntityType): seq<ParsedFile>
  {
    if files == [] then []
    else (if files[0].entityType == e then [] else [files[0]]) + OtherFiles(files[1..], e)
  }

  /** The filter keeps exactly the files of other entities. */
  lemma {:induction false} OtherFilesMembers(files: seq<ParsedFile>, e: EntityType)
    ensures forall f :: f in OtherFiles(files, e) <==> f in files && f.entityType != e
  {
    if files != [] {
      OtherFilesMembers(files[1..], e);
      assert forall f :: f in files <==> f == files[0] || f in files[1..];
    }
  }

  /** The filter distributes over concatenation, so the files it keeps stay in their relative order. */
  lemma {:induction false} OtherFilesAppend(a: seq<ParsedFile>, b: seq<ParsedFile>, e: EntityType)
    ensures OtherFiles(a + b, e) == OtherFiles(a, e) + OtherFiles(b, e)
  {
    if a != [] {
      assert (a + b)[0] == a[0] && (a + b)[1..] == a[1..] + b;
      OtherFilesAppend(a[1..], b, e);
      var head := if a[0].entityType == e then [] else [a[0]];
      assert OtherFiles(a + b, e) == head + OtherFiles(a[1..] + b, e);
      assert OtherFiles(a, e) == head + OtherFiles(a[1..], e);
    } else {
      assert a + b == b;
    }
  }

  /** Without files of `e` the filter keeps everything. */
  lemma {:induction false} OtherFilesNone(files: seq<ParsedFile>, e: EntityType)
    requires forall i :: 0 <= i < |files| ==> files[i].entityType != e
    ensures OtherFiles(files, e) == files
  {
    if files != [] {
      OtherFilesNone(files[1..], e);
    }
  }

  /** `[...prev.filter((f) => f.entityType !== e), file]`. */
  function WithUpload(files: seq<ParsedFile>, file: ParsedFile): seq<ParsedFile>
  {
    OtherFiles(files, file.entityType) + [file]
  }

  /** After an upload the entity has exactly one file, placed last; every other entity has a file iff it had one. */
  lemma WithUploadFacts(files: seq<ParsedFile>, file: ParsedFile, d: EntityType)
    ensures var r := WithUpload(files, file);
      && r[|r| - 1] == file
      && (forall i :: 0 <= i < |r| - 1 ==> r[i].entityType != file.entityType)
      && HasFileOf(r, file.entityType)
      && (d != file.entityType ==> (HasFileOf(r, d) <==> HasFileOf(files, d)))
  {
    var r := WithUpload(files, file);
    var rest := OtherFiles(files, file.entityType);
    OtherFilesMembers(files, file.entityType);
    assert forall i :: 0 <= i < |r| - 1 ==> r[i] == rest[i] && r[i] in rest;
    assert r[|r| - 1] == file;
    if d != file.entityType {
      if HasFileOf(files, d) {
        var i :| 0 <= i < |files| && files[i].entityType == d;
        assert files[i] in rest;
        var j :| 0 <= j < |rest| && rest[j] == files[i];
        assert r[j] == rest[j];
      }
      if HasFileOf(r, d) {
        var i :| 0 <= i < |r| && r[i].entityType == d;
        assert r[i] in rest;
        var j :| 0 <= j < |files| && files[j] == r[i];
      }
    }
  }

  /** Removing drops every file of `e` and keeps the files of other entities in order. */
  lemma RemoveFacts(files: seq<ParsedFile>, e: EntityType, d: EntityType)
    ensures !HasFileOf(OtherFiles(files, e), e)
    ensures d != e ==> (HasFileOf(OtherFiles(files, e), d) <==> HasFileOf(files, d))
  {
    var r := OtherFiles(files, e);
    OtherFilesMembers(files, e);
    forall i | 0 <= i < |r| ensures r[i].entityType != e {
      assert r[i] in r;
    }
    if d != e {
      if HasFileOf(files, d) {
        var i :| 0 <= i < |files| && files[i].entityType == d;
        assert files[i] in r;
        var j :| 0 <= j < |r| && r[j] == files[i];
      }
      if HasFileOf(r, d) {
        var i :| 0 <= i < |r| && r[i].entityType == d;
        assert r[i] in files;
        var j :| 0 <= j < |files| && files[j] == r[i];
      }
    }
  }

  /** The uploader over the shared store. */
  class FileUploader {
    const h: Host
    const store: AppStore

    constructor (h: Host, store: AppStore)
      ensures this.h == h && this.store == store
    {
      this.h := h;
      this.store := store;
    }

    /**
     * `handleFileUpload` once the sheet is parsed: `rawData` is the parser's
     * rows, `orders` their key order and `mapping` the header mapping the
     * assistant returns (consulted only on a mismatch).
     */
    method HandleFileUpload(fileName: string, e: EntityType, rawData: seq<Row>, orders: seq<seq<string>>,
                            mapping: map<string, string>)
      requires OrdersFit(rawData, orders)
      modifies store
      ensures |rawData| == 0 ==> store.uploadedFiles == old(store.uploadedFiles)
      ensures |rawData| > 0 ==>
        store.uploadedFiles == WithUpload(old(store.uploadedFiles), ParsedFile(fileName, e, UploadRows(h, e, rawData, orders, mapping)))
      ensures store.validationErrors == old(store.validationErrors)
      ensures store.aiModifications == old(store.aiModifications)
    {
      if |rawData| == 0 {
        return;
      }
      var headersAreMismatch := exists i :: 0 <= i < |ExpectedHeaders(e)| && ExpectedHeaders(e)[i] !in rawData[0];
      var finalData := rawData;
      if headersAreMismatch && |mapping| > 0 {
        finalData := RemapRows(rawData, orders, mapping);
      }
      assert headersAreMismatch == HeadersMismatch(ExpectedHeaders(e), rawData[0]);
      assert finalData == FinalData(e, rawData, orders, mapping);
      var parsedData := seq(|finalData|, i requires 0 <= i < |finalData| => NormalizeRow(h, e, finalData[i]));
      assert parsedData == UploadRows(h, e, rawData, orders, mapping);
      store.uploadedFiles := OtherFiles(store.uploadedFiles, e) + [ParsedFile(fileName, e, parsedData)];
    }

    /** `removeFile`. */
    method RemoveFile(e: EntityType)
      modifies store
      ensures store.uploadedFiles == OtherFiles(old(store.uploadedFiles), e)
      ensures store.validationErrors == old(store.validationErrors)
      ensures store.aiModifications == old(store.aiModifications)
    {
      store.uploadedFiles := OtherFiles(store.uploadedFiles, e);
    }
  }
}
