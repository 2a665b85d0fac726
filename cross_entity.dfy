/**
 * `validateCrossEntityRelations`: three independent reference checks over the
 * first file of each entity — requested task IDs must name a task, required
 * skills must be held by some worker, and available slots must be phase
 * numbers.  Building the worker skill set calls `trim` on every skill, which
 * throws a TypeError on a skill that is not a string.
 */
module CrossEntity {
  import opened Js
  import opened Store
  import Lists

  /** The outcome of a call that may throw. */
  datatype Outcome<T> = Returned(value: T) | Threw

  /** `isValidPhaseNumber(val)`: `Number(val)` is an integer of at least 1; there is no upper bound. */
  predicate IsValidPhaseNumber(h: Host, v: Value)
  {
    var num := ToNumber(h, v);
    !num.NaN? && IsInteger(num) && num.r >= 1.0
  }

  /** `Array.isArray(v) ? v : []`. */
  function ListOrEmpty(v: Value): seq<Value>
  {
    if v.Arr? then v.elems else []
  }

  /** What the `flatMap` callback `w.Skills || []` contributes: a falsy value nothing, an array its elements, anything else itself. */
  function SkillItems(v: Value): seq<Value>
  {
    if !Truthy(v) then [] else if v.Arr? then v.elems else [v]
  }

  /** `workers.flatMap((w) => w.Skills || [])`. */
  function FlatSkills(workers: seq<Row>): seq<Value>
  {
    if workers == [] then [] else SkillItems(Get(workers[0], "Skills")) + FlatSkills(workers[1..])
  }

  /** `.map((skill) => skill.trim())`, which throws on the first item that is not a string. */
  function TrimAll(items: seq<Value>): Outcome<seq<string>>
  {
    if items == [] then Returned([])
    else if !items[0].Str? then Threw
    else match TrimAll(items[1..])
      case Threw => Threw
      case Returned(rest) => Returned([Trim(items[0].s)] + rest)
  }

  /** `new Set(tasks.map((t) => t.TaskID))`. */
  function TaskIdSet(tasks: seq<Row>): set<Value>
  {
    set i | 0 <= i < |tasks| :: Get(tasks[i], "TaskID")
  }

  /** The trimmed skills as a set of string values. */
  function SkillSet(skills: seq<string>): set<Value>
  {
    set i | 0 <= i < |skills| :: Str(skills[i])
  }

  /** The first element, in list order, that is not in `present`. */
  function FirstMissing(ids: seq<Value>, present: set<Value>): (r: Option<Value>)
    ensures r.None? <==> forall m :: 0 <= m < |ids| ==> ids[m] in present
    ensures r.Some? ==> exists m :: 0 <= m < |ids| && ids[m] == r.value && r.value !in present
                                    && forall l :: 0 <= l < m ==> ids[l] in present
  {
    if ids == [] then None
    else if ids[0] !in present then Some(ids[0])
    else
      var r := FirstMissing(ids[1..], present);
      assert r.Some? ==> exists m :: 0 <= m < |ids[1..]| && ids[1..][m] == r.value && r.value !in present
                                     && forall l :: 0 <= l < m ==> ids[1..][l] in present;
      r
  }

  /** The two reference checks and their messages. */
  datatype RefCheck = TaskRef | SkillRef

  function RefMessage(h: Host, check: RefCheck, v: Value): string
  {
    match check
    case TaskRef => "Task ID \"" + ToStr(h, v) + "\" not found in tasks"
    case SkillRef => "Skill \"" + ToStr(h, v) + "\" has no available worker"
  }

  /** The entries a row-by-row check records: row `i` gets `entries[i]` when that is present. */
  function Collect(entries: seq<Option<CellErrorMap>>, k: nat): RowErrorMap
    requires k <= |entries|
  {
    if k == 0 then map[]
    else
      var acc := Collect(entries, k - 1);
      match entries[k - 1]
      case None => acc
      case Some(cells) => acc[k - 1 := cells]
  }

  /** One row of a reference check: an entry under `field` naming the first missing reference. */
  function RefEntry(h: Host, row: Row, field: string, present: set<Value>, check: RefCheck): Option<CellErrorMap>
  {
    match FirstMissing(ListOrEmpty(Get(row, field)), present)
    case None => None
    case Some(v) => Some(map[field := RefMessage(h, check, v)])
  }

  function RefEntries(h: Host, rows: seq<Row>, field: string, present: set<Value>, check: RefCheck): seq<Option<CellErrorMap>>
  {
    seq(|rows|, i requires 0 <= i < |rows| => RefEntry(h, rows[i], field, present, check))
  }

  /** The error map of a reference check over all rows. */
  function RefErrors(h: Host, rows: seq<Row>, field: string, present: set<Value>, check: RefCheck): RowErrorMap
  {
    Collect(RefEntries(h, rows, field, present, check), |rows|)
  }

  /** `slots.filter((slot) => !isValidPhaseNumber(slot))`. */
  function InvalidSlots(h: Host, slots: seq<Value>): (r: seq<Value>)
    ensures forall x :: x in r <==> x in slots && !IsValidPhaseNumber(h, x)
  {
    if slots == [] then []
    else (if IsValidPhaseNumber(h, slots[0]) then [] else [slots[0]]) + InvalidSlots(h, slots[1..])
  }

  /**
   * The filter keeps the failing slots in their listed order and keeps every
   * occurrence, so a repeated slot is reported as often as it is listed.
   */
  lemma {:induction false} InvalidSlotsFilter(h: Host, slots: seq<Value>)
    ensures Lists.Subsequence(InvalidSlots(h, slots), slots)
    ensures forall x :: multiset(InvalidSlots(h, slots))[x] == (if IsValidPhaseNumber(h, x) then 0 else multiset(slots)[x])
  {
    if slots != [] {
      var rest := InvalidSlots(h, slots[1..]);
      InvalidSlotsFilter(h, slots[1..]);
      assert slots == [slots[0]] + slots[1..];
      if IsValidPhaseNumber(h, slots[0]) {
        assert InvalidSlots(h, slots) == rest;
        assert Lists.Subsequence(rest, slots);
      } else {
        assert InvalidSlots(h, slots) == [slots[0]] + rest;
        assert ([slots[0]] + rest)[1..] == rest;
      }
    }
  }

  function SlotsMessage(h: Host, invalid: seq<Value>): string
  {
    "Invalid phase(s): " + JoinValues(h, invalid, ", ")
  }

  function WorkerInvalid(h: Host, worker: Row): seq<Value>
  {
    InvalidSlots(h, ListOrEmpty(Get(worker, "AvailableSlots")))
  }

  /** One worker of the slot check: an entry listing every invalid slot, when there is one. */
  function SlotEntry(h: Host, worker: Row): Option<CellErrorMap>
  {
    var invalid := WorkerInvalid(h, worker);
    if |invalid| > 0 then Some(map["AvailableSlots" := SlotsMessage(h, invalid)]) else None
  }

  function SlotEntries(h: Host, workers: seq<Row>): seq<Option<CellErrorMap>>
  {
    seq(|workers|, i requires 0 <= i < |workers| => SlotEntry(h, workers[i]))
  }

  /** The slot check's error map over all workers. */
  function SlotErrors(h: Host, workers: seq<Row>): RowErrorMap
  {
    Collect(SlotEntries(h, workers), |workers|)
  }

  /** The entity key is set only when its row map is non-empty. */
  function WithEntity(errors: ValidationErrors, e: EntityType, rows: RowErrorMap): ValidationErrors
  {
    if rows != map[] then errors[e := rows] else errors
  }

  /** `validateCrossEntityRelations(files)`. */
  function CrossErrors(h: Host, files: seq<ParsedFile>): Outcome<ValidationErrors>
  {
    var clients := DataOf(files, Clients);
    var tasks := DataOf(files, Tasks);
    var workers := DataOf(files, Workers);
    match TrimAll(FlatSkills(workers))
    case Threw => Threw
    case Returned(skills) =>
      var c := RefErrors(h, clients, "RequestedTaskIDs", TaskIdSet(tasks), TaskRef);
      var t := RefErrors(h, tasks, "RequiredSkills", SkillSet(skills), SkillRef);
      var w := SlotErrors(h, workers);
      Returned(Combined(c, t, w))
  }

  // ---------------------------------------------------------------------------
  // The method, loop by loop.

  /**
   * `errors[e] ??= {}; errors[e][rowIdx] ??= {}; errors[e][rowIdx][field] = message`.
   */
  function SetCell(errors: ValidationErrors, e: EntityType, rowIdx: int, field: string, message: string): ValidationErrors
  {
    var rows := if e in errors then errors[e] else map[];
    var cells := if rowIdx in rows then rows[rowIdx] else map[];
    errors[e := rows[rowIdx := cells[field := message]]]
  }

  /** One `forEach` over `rows`: each row's callback records its first reference not in `present`. */
  method CheckReferences(h: Host, errors: ValidationErrors, e: EntityType, rows: seq<Row>, field: string,
                         present: set<Value>, check: RefCheck) returns (updated: ValidationErrors)
    requires e !in errors
    ensures updated == WithEntity(errors, e, RefErrors(h, rows, field, present, check))
  {
    updated := errors;
    var rowIdx := 0;
    while rowIdx < |rows|
      invariant 0 <= rowIdx <= |rows|
      invariant updated == WithEntity(errors, e, Collect(RefEntries(h, rows, field, present, check), rowIdx))
    {
      RefRowStep(h, errors, e, rows, field, present, check, rowIdx);
      updated := CheckReferenceRow(h, updated, e, rows[rowIdx], rowIdx, field, present, check);
      rowIdx := rowIdx + 1;
    }
  }

  /** The callback for row `rowIdx`: the inner `for … break` stops at the first reference not in `present` and records it. */
  method CheckReferenceRow(h: Host, errors: ValidationErrors, e: EntityType, row: Row, rowIdx: int, field: string,
                           present: set<Value>, check: RefCheck) returns (updated: ValidationErrors)
    ensures var missing := FirstMissing(ListOrEmpty(Get(row, field)), present);
      updated == if missing.Some? then SetCell(errors, e, rowIdx, field, RefMessage(h, check, missing.value)) else errors
  {
    var ids := ListOrEmpty(Get(row, field));
    updated := errors;
    var j := 0;
    while j < |ids|
      invariant 0 <= j <= |ids|
      invariant forall m :: 0 <= m < j ==> ids[m] in present
      invariant updated == errors
    {
      if ids[j] !in present {
        FirstMissingAt(ids, present, j);
        updated := SetCell(updated, e, rowIdx, field, RefMessage(h, check, ids[j]));
        break;
      }
      PresentStep(ids, present, j);
      j := j + 1;
    }
  }

  /** The third `forEach`: every invalid slot of a worker is listed in one message. */
  method CheckSlots(h: Host, errors: ValidationErrors, workers: seq<Row>) returns (updated: ValidationErrors)
    requires Workers !in errors
    ensures updated == WithEntity(errors, Workers, SlotErrors(h, workers))
  {
    updated := errors;
    var rowIdx := 0;
    while rowIdx < |workers|
      invariant 0 <= rowIdx <= |workers|
      invariant updated == WithEntity(errors, Workers, Collect(SlotEntries(h, workers), rowIdx))
    {
      SlotRowStep(h, errors, workers, rowIdx);
      updated := CheckSlotRow(h, updated, workers[rowIdx], rowIdx);
      rowIdx := rowIdx + 1;
    }
  }

  /** The callback for worker `rowIdx`. */
  method CheckSlotRow(h: Host, errors: ValidationErrors, worker: Row, rowIdx: int) returns (updated: ValidationErrors)
    ensures var invalid := WorkerInvalid(h, worker);
      updated == if |invalid| > 0 then SetCell(errors, Workers, rowIdx, "AvailableSlots", SlotsMessage(h, invalid)) else errors
  {
    updated := errors;
    var slots := ListOrEmpty(Get(worker, "AvailableSlots"));
    var invalidSlots := InvalidSlots(h, slots);
    if |invalidSlots| > 0 {
      updated := SetCell(updated, Workers, rowIdx, "AvailableSlots", SlotsMessage(h, invalidSlots));
    }
  }

  /** `validateCrossEntityRelations(files)`. */
  method ValidateCrossEntityRelations(h: Host, files: seq<ParsedFile>) returns (r: Outcome<ValidationErrors>)
    ensures r == CrossErrors(h, files)
  {
    var clients := DataOf(files, Clients);
    var tasks := DataOf(files, Tasks);
    var workers := DataOf(files, Workers);
    var taskIDs := TaskIdSet(tasks);
    var trimmed := TrimAll(FlatSkills(workers));
    if trimmed.Threw? {
      return Threw;
    }
    var workerSkills := SkillSet(trimmed.value);
    var errors: ValidationErrors := map[];
    errors := CheckReferences(h, errors, Clients, clients, "RequestedTaskIDs", taskIDs, TaskRef);
    errors := CheckReferences(h, errors, Tasks, tasks, "RequiredSkills", workerSkills, SkillRef);
    errors := CheckSlots(h, errors, workers);
    r := Returned(errors);
  }

  // ---------------------------------------------------------------------------
  // Step lemmas for the loops.

  lemma PresentStep(ids: seq<Value>, present: set<Value>, j: int)
    requires 0 <= j < |ids| && ids[j] in present
    requires forall m :: 0 <= m < j ==> ids[m] in present
    ensures forall m :: 0 <= m < j + 1 ==> ids[m] in present
  {
  }

  lemma FirstMissingAt(ids: seq<Value>, present: set<Value>, j: int)
    requires 0 <= j < |ids| && ids[j] !in present
    requires forall m :: 0 <= m < j ==> ids[m] in present
    ensures FirstMissing(ids, present) == Some(ids[j])
  {
    var r := FirstMissing(ids, present);
    var m :| 0 <= m < |ids| && ids[m] == r.value && r.value !in present
             && forall l :: 0 <= l < m ==> ids[l] in present;
    assert m == j;
  }

  /** The map over the first `k` rows has keys below `k` only. */
  lemma {:induction false} CollectBelow(entries: seq<Option<CellErrorMap>>, k: nat, i: int)
    requires k <= |entries| && i >= k
    ensures i !in Collect(entries, k)
  {
    if k > 0 {
      CollectBelow(entries, k - 1, i);
    }
  }

  /** Row `i` has an entry exactly when it is below `k` and its own entry is present; the entry is that one. */
  lemma {:induction false} CollectIff(entries: seq<Option<CellErrorMap>>, k: nat, i: int)
    requires k <= |entries|
    ensures i in Collect(entries, k) <==> 0 <= i < k && entries[i].Some?
    ensures i in Collect(entries, k) ==> Collect(entries, k)[i] == entries[i].value
  {
    if k > 0 {
      CollectIff(entries, k - 1, i);
      if i == k - 1 {
        CollectBelow(entries, k - 1, i);
      }
    }
  }

  /** A reference callback on an error map built from the rows before `k` gives the map built from the rows up to `k`. */
  lemma RefRowStep(h: Host, errors: ValidationErrors, e: EntityType, rows: seq<Row>, field: string,
                   present: set<Value>, check: RefCheck, k: int)
    requires e !in errors && 0 <= k < |rows|
    ensures var entries := RefEntries(h, rows, field, present, check);
      var u := WithEntity(errors, e, Collect(entries, k));
      var missing := FirstMissing(ListOrEmpty(Get(rows[k], field)), present);
      (if missing.Some? then SetCell(u, e, k, field, RefMessage(h, check, missing.value)) else u)
      == WithEntity(errors, e, Collect(entries, k + 1))
  {
    var entries := RefEntries(h, rows, field, present, check);
    assert entries[k] == RefEntry(h, rows[k], field, present, check);
    CollectBelow(entries, k, k);
    var missing := FirstMissing(ListOrEmpty(Get(rows[k], field)), present);
    if missing.Some? {
      SetCellWithEntity(errors, e, Collect(entries, k), k, field, RefMessage(h, check, missing.value));
    }
  }

  /** The same for a slot callback. */
  lemma SlotRowStep(h: Host, errors: ValidationErrors, workers: seq<Row>, k: int)
    requires Workers !in errors && 0 <= k < |workers|
    ensures var entries := SlotEntries(h, workers);
      var u := WithEntity(errors, Workers, Collect(entries, k));
      var invalid := WorkerInvalid(h, workers[k]);
      (if |invalid| > 0 then SetCell(u, Workers, k, "AvailableSlots", SlotsMessage(h, invalid)) else u)
      == WithEntity(errors, Workers, Collect(entries, k + 1))
  {
    var entries := SlotEntries(h, workers);
    assert entries[k] == SlotEntry(h, workers[k]);
    CollectBelow(entries, k, k);
    var invalid := WorkerInvalid(h, workers[k]);
    if |invalid| > 0 {
      SetCellWithEntity(errors, Workers, Collect(entries, k), k, "AvailableSlots", SlotsMessage(h, invalid));
    }
  }

  lemma SetCellWithEntity(errors: ValidationErrors, e: EntityType, rows: RowErrorMap, k: int, field: string, message: string)
    requires e !in errors && k !in rows
    ensures SetCell(WithEntity(errors, e, rows), e, k, field, message) == WithEntity(errors, e, rows[k := map[field := message]])
  {
  }

  // ---------------------------------------------------------------------------
  // What the validator guarantees.

  /** The phase-number test accepts exactly the integers from 1 up, 7 and beyond included. */
  lemma PhaseNumberIff(h: Host, k: int)
    ensures IsValidPhaseNumber(h, Num(Finite(k as real))) <==> k >= 1
  {
  }

  /** The result throws exactly when some flattened worker skill is not a string. */
  lemma {:induction false} TrimAllThrowsIff(items: seq<Value>)
    ensures TrimAll(items).Threw? <==> exists m :: 0 <= m < |items| && !items[m].Str?
  {
    if items != [] && items[0].Str? {
      var rest := items[1..];
      TrimAllThrowsIff(rest);
      assert TrimAll(items).Threw? <==> TrimAll(rest).Threw?;
      if exists m :: 0 <= m < |rest| && !rest[m].Str? {
        var m :| 0 <= m < |rest| && !rest[m].Str?;
        assert items[m + 1] == rest[m];
      }
      if exists m :: 0 <= m < |items| && !items[m].Str? {
        var m :| 0 <= m < |items| && !items[m].Str?;
        assert rest[m - 1] == items[m];
      }
    }
  }

  /** When nothing throws, the skill list is the flattened list with every item trimmed, in order. */
  lemma {:induction false} TrimAllValues(items: seq<Value>)
    requires TrimAll(items).Returned?
    ensures |TrimAll(items).value| == |items|
    ensures forall m :: 0 <= m < |items| ==> items[m].Str? && TrimAll(items).value[m] == Trim(items[m].s)
  {
    if items != [] {
      TrimAllValues(items[1..]);
      var rest := TrimAll(items[1..]).value;
      assert TrimAll(items).value == [Trim(items[0].s)] + rest;
      forall m | 0 <= m < |items| ensures items[m].Str? && TrimAll(items).value[m] == Trim(items[m].s) {
        if m > 0 {
          var x := items[1..][m - 1];
          assert x == items[m];
          assert rest[m - 1] == Trim(x.s);
        }
      }
    }
  }

  /** A row has an entry exactly when some reference it lists is missing; the entry names the first one. */
  lemma RefErrorsIff(h: Host, rows: seq<Row>, field: string, present: set<Value>, check: RefCheck, i: int)
    ensures i in RefErrors(h, rows, field, present, check)
        <==> 0 <= i < |rows| && FirstMissing(ListOrEmpty(Get(rows[i], field)), present).Some?
    ensures i in RefErrors(h, rows, field, present, check) ==>
      RefErrors(h, rows, field, present, check)[i]
      == map[field := RefMessage(h, check, FirstMissing(ListOrEmpty(Get(rows[i], field)), present).value)]
  {
    var entries := RefEntries(h, rows, field, present, check);
    CollectIff(entries, |rows|, i);
    if 0 <= i < |rows| {
      assert entries[i] == RefEntry(h, rows[i], field, present, check);
    }
  }

  /** The entry names the first reference, in list order, that is missing; there is one exactly when some reference is missing. */
  lemma RefErrorsFirstMissing(h: Host, rows: seq<Row>, field: string, present: set<Value>, check: RefCheck, i: int)
    requires 0 <= i < |rows|
    ensures var ids := ListOrEmpty(Get(rows[i], field));
      && (i in RefErrors(h, rows, field, present, check) <==> exists m :: 0 <= m < |ids| && ids[m] !in present)
      && (i in RefErrors(h, rows, field, present, check) ==>
            exists m :: 0 <= m < |ids| && ids[m] !in present && (forall l :: 0 <= l < m ==> ids[l] in present)
                        && RefErrors(h, rows, field, present, check)[i] == map[field := RefMessage(h, check, ids[m])])
  {
    RefErrorsIff(h, rows, field, present, check, i);
  }

  /** A worker has an entry exactly when one of its slots is not a phase number; the message lists every such slot. */
  lemma SlotErrorsIff(h: Host, workers: seq<Row>, i: int)
    ensures i in SlotErrors(h, workers)
        <==> 0 <= i < |workers| && exists x :: x in ListOrEmpty(Get(workers[i], "AvailableSlots")) && !IsValidPhaseNumber(h, x)
    ensures i in SlotErrors(h, workers) ==>
      SlotErrors(h, workers)[i] == map["AvailableSlots" := SlotsMessage(h, WorkerInvalid(h, workers[i]))]
  {
    var entries := SlotEntries(h, workers);
    CollectIff(entries, |workers|, i);
    if 0 <= i < |workers| {
      assert entries[i] == SlotEntry(h, workers[i]);
      var invalid := WorkerInvalid(h, workers[i]);
      if |invalid| > 0 {
        assert invalid[0] in invalid;
      }
      if exists x :: x in ListOrEmpty(Get(workers[i], "AvailableSlots")) && !IsValidPhaseNumber(h, x) {
        var x :| x in ListOrEmpty(Get(workers[i], "AvailableSlots")) && !IsValidPhaseNumber(h, x);
        assert x in invalid;
      }
    }
  }

  /** A list field that is not an array counts as empty and never produces an entry. */
  lemma NonArrayNoError(h: Host, rows: seq<Row>, field: string, present: set<Value>, check: RefCheck, i: int)
    requires 0 <= i < |rows| && !Get(rows[i], field).Arr?
    ensures i !in RefErrors(h, rows, field, present, check)
  {
    RefErrorsIff(h, rows, field, present, check, i);
  }

  /** Every entry of a reference check holds only the check's field. */
  lemma RefErrorsShape(h: Host, rows: seq<Row>, field: string, present: set<Value>, check: RefCheck)
    ensures forall i :: i in RefErrors(h, rows, field, present, check) ==> RefErrors(h, rows, field, present, check)[i].Keys == {field}
  {
    forall i | i in RefErrors(h, rows, field, present, check)
      ensures RefErrors(h, rows, field, present, check)[i].Keys == {field}
    {
      RefErrorsIff(h, rows, field, present, check, i);
    }
  }

  lemma SlotErrorsShape(h: Host, workers: seq<Row>)
    ensures forall i :: i in SlotErrors(h, workers) ==> SlotErrors(h, workers)[i].Keys == {"AvailableSlots"}
  {
    forall i | i in SlotErrors(h, workers) ensures SlotErrors(h, workers)[i].Keys == {"AvailableSlots"} {
      SlotErrorsIff(h, workers, i);
    }
  }

  /** A successful result holds each check's map under its entity exactly when that map is non-empty. */
  lemma CrossErrorsParts(h: Host, files: seq<ParsedFile>, skills: seq<string>)
    requires TrimAll(FlatSkills(DataOf(files, Workers))) == Returned(skills)
    ensures var r := CrossErrors(h, files).value;
      var clients := DataOf(files, Clients);
      var tasks := DataOf(files, Tasks);
      var workers := DataOf(files, Workers);
      var c := RefErrors(h, clients, "RequestedTaskIDs", TaskIdSet(tasks), TaskRef);
      var t := RefErrors(h, tasks, "RequiredSkills", SkillSet(skills), SkillRef);
      var w := SlotErrors(h, workers);
      && CrossErrors(h, files).Returned?
      && r.Keys <= {Clients, Tasks, Workers}
      && (Clients in r <==> c != map[]) && (Clients in r ==> r[Clients] == c)
      && (Tasks in r <==> t != map[]) && (Tasks in r ==> r[Tasks] == t)
      && (Workers in r <==> w != map[]) && (Workers in r ==> r[Workers] == w)
  {
    var clients := DataOf(files, Clients);
    var tasks := DataOf(files, Tasks);
    var workers := DataOf(files, Workers);
    var c := RefErrors(h, clients, "RequestedTaskIDs", TaskIdSet(tasks), TaskRef);
    var t := RefErrors(h, tasks, "RequiredSkills", SkillSet(skills), SkillRef);
    var w := SlotErrors(h, workers);
    assert CrossErrors(h, files) == Returned(Combined(c, t, w));
    CombinedFacts(c, t, w);
  }

  /** The three maps, each stored under its entity only when non-empty. */
  function Combined(c: RowErrorMap, t: RowErrorMap, w: RowErrorMap): ValidationErrors
  {
    WithEntity(WithEntity(WithEntity(map[], Clients, c), Tasks, t), Workers, w)
  }

  lemma CombinedFacts(c: RowErrorMap, t: RowErrorMap, w: RowErrorMap)
    ensures var r := Combined(c, t, w);
      && r.Keys <= {Clients, Tasks, Workers}
      && (Clients in r <==> c != map[]) && (Clients in r ==> r[Clients] == c)
      && (Tasks in r <==> t != map[]) && (Tasks in r ==> r[Tasks] == t)
      && (Workers in r <==> w != map[]) && (Workers in r ==> r[Workers] == w)
  {
    var r1 := WithEntity(map[], Clients, c);
    var r2 := WithEntity(r1, Tasks, t);
    WithEntityFacts(map[], Clients, c);
    WithEntityFacts(r1, Tasks, t);
    WithEntityFacts(r2, Workers, w);
  }

  /** Setting one entity touches no other. */
  lemma WithEntityFacts(errors: ValidationErrors, e: EntityType, rows: RowErrorMap)
    ensures var r := WithEntity(errors, e, rows);
      && r.Keys == errors.Keys + (if rows != map[] then {e} else {})
      && (rows != map[] ==> r[e] == rows)
      && forall d :: d in errors && d != e ==> r[d] == errors[d]
  {
  }

  /** A successful result has the absence-means-clean shape, and each entity's entries hold only its check's field. */
  lemma CrossErrorsClean(h: Host, files: seq<ParsedFile>)
    requires CrossErrors(h, files).Returned?
    ensures AbsenceMeansClean(CrossErrors(h, files).value)
    ensures var r := CrossErrors(h, files).value;
      && (Clients in r ==> forall i :: i in r[Clients] ==> r[Clients][i].Keys == {"RequestedTaskIDs"})
      && (Tasks in r ==> forall i :: i in r[Tasks] ==> r[Tasks][i].Keys == {"RequiredSkills"})
      && (Workers in r ==> forall i :: i in r[Workers] ==> r[Workers][i].Keys == {"AvailableSlots"})
  {
    var clients := DataOf(files, Clients);
    var tasks := DataOf(files, Tasks);
    var workers := DataOf(files, Workers);
    var trimmed := TrimAll(FlatSkills(workers));
    if trimmed.Returned? {
      var skills := trimmed.value;
      var c := RefErrors(h, clients, "RequestedTaskIDs", TaskIdSet(tasks), TaskRef);
      var t := RefErrors(h, tasks, "RequiredSkills", SkillSet(skills), SkillRef);
      var w := SlotErrors(h, workers);
      CrossErrorsParts(h, files, skills);
      RefErrorsShape(h, clients, "RequestedTaskIDs", TaskIdSet(tasks), TaskRef);
      RefErrorsShape(h, tasks, "RequiredSkills", SkillSet(skills), SkillRef);
      SlotErrorsShape(h, workers);
      PartsClean(CrossErrors(h, files).value, c, t, w);
    }
  }

  /** Three single-field check maps, each stored only when non-empty, give a clean result. */
  lemma PartsClean(r: ValidationErrors, c: RowErrorMap, t: RowErrorMap, w: RowErrorMap)
    requires r.Keys <= {Clients, Tasks, Workers}
    requires (Clients in r <==> c != map[]) && (Clients in r ==> r[Clients] == c)
    requires (Tasks in r <==> t != map[]) && (Tasks in r ==> r[Tasks] == t)
    requires (Workers in r <==> w != map[]) && (Workers in r ==> r[Workers] == w)
    requires forall i :: i in c ==> c[i].Keys == {"RequestedTaskIDs"}
    requires forall i :: i in t ==> t[i].Keys == {"RequiredSkills"}
    requires forall i :: i in w ==> w[i].Keys == {"AvailableSlots"}
    ensures AbsenceMeansClean(r)
    ensures && (Clients in r ==> forall i :: i in r[Clients] ==> r[Clients][i].Keys == {"RequestedTaskIDs"})
            && (Tasks in r ==> forall i :: i in r[Tasks] ==> r[Tasks][i].Keys == {"RequiredSkills"})
            && (Workers in r ==> forall i :: i in r[Workers] ==> r[Workers][i].Keys == {"AvailableSlots"})
  {
    forall i | i in c ensures c[i] != map[] { assert "RequestedTaskIDs" in c[i]; }
    forall i | i in t ensures t[i] != map[] { assert "RequiredSkills" in t[i]; }
    forall i | i in w ensures w[i] != map[] { assert "AvailableSlots" in w[i]; }
  }

  /** Without a tasks file every client that requests at least one task gets an entry. */
  lemma NoTasksEveryRequestFails(h: Host, files: seq<ParsedFile>, i: int)
    requires forall k :: 0 <= k < |files| ==> files[k].entityType != Tasks
    requires CrossErrors(h, files).Returned?
    requires 0 <= i < |DataOf(files, Clients)|
    requires |ListOrEmpty(Get(DataOf(files, Clients)[i], "RequestedTaskIDs"))| > 0
    ensures Clients in CrossErrors(h, files).value && i in CrossErrors(h, files).value[Clients]
  {
    var clients := DataOf(files, Clients);
    var skills := TrimAll(FlatSkills(DataOf(files, Workers))).value;
    assert DataOf(files, Tasks) == [];
    CrossErrorsParts(h, files, skills);
    var ids := ListOrEmpty(Get(clients[i], "RequestedTaskIDs"));
    assert ids[0] !in TaskIdSet([]);
    RefErrorsIff(h, clients, "RequestedTaskIDs", TaskIdSet([]), TaskRef, i);
  }
}
