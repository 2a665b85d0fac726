# Data Alchemist: a verified model of the spreadsheet validation and rule-building core

Data Alchemist is a browser application. A user uploads three spreadsheets (clients, workers and tasks), and the application does the following:
- it repairs mismatched headers with the help of a language model;
- it normalises the numeric columns and validates every row against a schema;
- it checks references between the three sheets;
- it lets an assistant propose cell changes, cell fixes and scheduling rules, which the user accepts or rejects;
- business rules can also be built by hand in five small forms.

This project models that core in Dafny and proves what each piece promises.

- **Runtime slice (`Js`).** Cell values are modelled as the closed set of JavaScript shapes a cell can hold; rows are maps from field names to values. `Number(...)`, `String(...)`, truthiness, `Number.isInteger` and `String.prototype.trim` are written out. A `Host` value stands for the primitives that need the number parser and printer, `JSON.parse`, `parseInt` and zod's default messages. Every result holds for any behaviour of those primitives.
- **Shared state (`Store`).** The upload, error and AI-modification atoms are fields of the `Store.AppStore` class; the rules atom is the `Rules.RulesStore` class. The hooks and forms are classes over these stores. Their methods update the fields in place, and each method's contract gives the new state as a function of the old one.
- **Validation path.** Normalisation is `Normalize`; the three zod schemas are `Schemas`; `validateAllFiles` and `validateSingleRow` are `Validators`; `validateCrossEntityRelations` is `CrossEntity`; `checkDuplicateIDs` is `Duplicates`. All of these are loops or folds, modelled as methods proved equal to specification functions. The lemmas then state what those functions mean.
- **Assistant flows.**
  - Accept-all, accept-one and reject of proposed data changes: `DataModification`.
  - Single-cell fixes and the "any errors" flag: `ValidationFix`.
  - Merging proposed rules: `RulesCreation`.
  - The header repair and file replacement of the uploader: `FileUpload`.
- **Rule forms and chat.** The forms are `CoRunRuleForm`, `LoadLimitRuleForm`, `SlotRestrictionRuleForm`, `PrecedenceRuleForm` and `PhaseWindowRuleForm`; the multi-select toggle is `MultiSelect`; the chat's error counters and message list are `DataRetrievalChat`.

Some behaviours of the code are easy to miss, and the model keeps them as written:
- **`{}` row entries.** `hasErrors` counts a `{}` row entry as an error, but the chat's error counter adds 0 for it (`Store.EmptyRowEntryDisagrees`). The two never disagree in practice, because no reconciler stores `{}` (`Store.HasErrorsImpliesTotalErrors`).
- **Extra argument to `validateSingleRow`.** `applyChanges` passes a third argument that the function ignores; the model ignores it too.
- **Falsy cell values.** `applyIndividualChange` refuses a proposed value that is falsy (`0`, `""`, `false`, `null`, `NaN`), while `fixCell` writes any value, `0` included (`ValidationFix.ZeroFixApplied`).
- **Slot restriction group.** The slot-restriction form stores its group even when it is empty; the group type it shows is never recorded.

## Model

| member | source | states |
|---|---|---|
| Js.TrimEmptyIff | components/custom/DataRetrievalChat.tsx:108 | `s.trim()` is empty exactly when every character of `s` is whitespace. |
| Js.TrimEnds | components/custom/DataRetrievalChat.tsx:113 | A trimmed string neither starts nor ends with whitespace. |
| Js.TrimSlice | lib/crossEntityValidator.ts:18 | `trim` keeps exactly the run of characters between the stripped leading and trailing whitespace. |
| Js.TrimStartSpec | lib/crossEntityValidator.ts:18 | `trimStart` keeps a suffix and removes exactly the leading run of whitespace. |
| Js.TrimEndSpec | lib/crossEntityValidator.ts:18 | `trimEnd` keeps a prefix and removes exactly the trailing run of whitespace. |
| Js.NatToString | components/rules/precedenceOverrideRule.tsx:25 | `String(n)` of a natural number is a non-empty string of decimal digits. |
| Js.NatToStringInjective | components/custom/DataRetrievalChat.tsx:111-117 | Different numbers print differently. |
| Lists.RemoveAll | components/custom/multiSelect.tsx:27 | `filter(v => v !== x)` drops `x` entirely, keeps every other element, and never grows the list. |
| Lists.RemoveAllAppend | components/custom/multiSelect.tsx:27-29 | Filtering out a value that was just appended restores the list. |
| Lists.RemoveAllAbsent | components/custom/multiSelect.tsx:27 | Filtering out a value the list does not hold returns the list unchanged. |
| Lists.RemoveAllNoDup | components/rules/phaseWindowRule.tsx:52 | Filtering keeps a repetition-free list repetition-free. |
| Lists.RemoveAllAt | components/rules/phaseWindowRule.tsx:52 | In a repetition-free list, filtering out the value at position `k` drops that single entry and keeps the others in order. |
| Lists.RemoveIndexSpec | components/rules/precedenceOverrideRule.tsx:65 | `filter((_, i) => i !== index)` drops exactly position `index` and keeps the order of the rest; an index out of range changes nothing. |
| Normalize.NormalizeRow | utils/normalizeData.ts:4-24 | The normalised row has the row's keys plus the entity's coerced fields. Every other field is kept. Each coerced field holds `Number(row[field])`. |
| Normalize.NormalizeOtherFields | utils/normalizeData.ts:5-21 | Changing one raw field changes no other field of the normalised row. |
| Normalize.NormalizeIdempotent | utils/normalizeData.ts:4-24 | Normalising twice is the same as normalising once. |
| Normalize.ClientsCoerceOnlyPriority | utils/normalizeData.ts:7-10 | For clients only `PriorityLevel` changes, to exactly `Number(raw)`, with no default and no clamping. |
| Normalize.TasksAndWorkersCoerce | utils/normalizeData.ts:12-21 | For tasks only `Duration` and `MaxConcurrent` change; for workers only `MaxLoadPerPhase` changes. |
| Normalize.MissingFieldBecomesNaN | utils/normalizeData.ts:8-19 | A coerced field missing from the input becomes `NaN`. |
| Normalize.ArrayFieldsUntouched | utils/normalizeData.ts:15-20 | List-valued fields are never converted: an unsplit CSV string stays a string. |
| Schemas.StringIff | validators/schemas.ts:5 | A `z.string().min(1)` field raises no issue exactly when it holds a non-empty string. |
| Schemas.RangeIff | validators/schemas.ts:7 | `z.number().min(1).max(5)` accepts exactly the numbers from 1 to 5, NaN excluded. |
| Schemas.AtLeastIff | validators/schemas.ts:30 | `z.number().min(1)` accepts exactly the numbers of at least 1. |
| Schemas.PositiveIntIff | validators/schemas.ts:28 | `z.number().int().min(1)` accepts exactly the integers of at least 1. |
| Schemas.ElementsIff | validators/schemas.ts:8-10 | An array's elements raise no issue exactly when no single element does. |
| Schemas.StringArrayIff | validators/schemas.ts:8-10 | A non-empty array of non-empty strings is accepted, and nothing else is. |
| Schemas.PositiveIntArrayIff | validators/schemas.ts:27-29 | A non-empty array of integers of at least 1 is accepted, and nothing else is. |
| Schemas.ObjectIssuesEmptyIff | validators/schemas.ts:4-20 | An object parses exactly when every declared key's value parses. |
| Schemas.ClientSchemaIff | validators/schemas.ts:4-20 | A client row is accepted exactly when its six fields meet the client schema, `AttributesJSON` parsing as JSON included. |
| Schemas.WorkerSchemaIff | validators/schemas.ts:23-33 | A worker row is accepted exactly when its seven fields meet the worker schema. |
| Schemas.TaskSchemaIff | validators/schemas.ts:36-48 | A task row is accepted exactly when its seven fields meet the task schema. |
| Schemas.FractionalPriorityAccepted | validators/schemas.ts:7 | `PriorityLevel` has no integer check, so 2.5 passes. |
| Schemas.LargePhaseAccepted | validators/schemas.ts:28 | Slot and phase numbers have no upper bound: every integer of at least 1 passes. |
| Schemas.NaNRejected | validators/schemas.ts:7 | The `NaN` that normalising a non-numeric cell leaves behind fails every numeric field. |
| Schemas.StringInArrayFieldRejected | validators/schemas.ts:8-10 | A list field holding a plain string fails. |
| Schemas.FieldIssuesField | validators/schemas.ts:4-48 | Every issue a field raises is reported under that field's own name. |
| Schemas.ObjectIssuesFields | validators/schemas.ts:4-48 | Every issue of an object names one of the declared keys. |
| Schemas.ObjectIssuesDeclaredOnly | validators/schemas.ts:4-48 | An object's issues depend only on the values of its declared keys. |
| Validators.SchemaFor | lib/validators.ts:12-25 | Each entity kind gets its own schema and no other. |
| Validators.CollectErrors | lib/validators.ts:73-76 | The issue loop gives the error map of the issue list, each message under its top-level field. |
| Validators.ValidateSingleRow | lib/validators.ts:61-80 | The result is the error map of the normalised row's issues. |
| Validators.RecordIssues | lib/validators.ts:41-48 | A row without issues adds nothing; otherwise the row's entry is created with the messages of its issues. |
| Validators.ValidateRows | lib/validators.ts:37-50 | The row loop gives the map of non-empty row entries, indexed by row. |
| Validators.ValidateAllFiles | lib/validators.ts:28-58 | The file loop gives the merged error map; no entity key and no row entry is ever empty. |
| Validators.ErrorsOfNonEmpty | lib/validators.ts:41-48 | A failing row always gets a non-empty entry. |
| Validators.ErrorsOfKeys | lib/validators.ts:41-48 | A field has an entry exactly when some issue is reported under it. |
| Validators.ErrorsOfLastWins | lib/validators.ts:46-47 | When a field has several issues, the message of the last one is kept. |
| Validators.RowErrorsEmptyIff | lib/validators.ts:61-80 | A row's error map is empty exactly when the normalised row satisfies its schema. |
| Validators.RowPresentIff | lib/validators.ts:37-50 | A row index is present exactly when that row fails, and it holds that row's own errors. |
| Validators.RowErrorsLocal | lib/validators.ts:37-50 | A row's entry depends on that row alone, not on its index or its neighbours. |
| Validators.NormalizedRowSameErrors | lib/validators.ts:37-38 | Validating an already normalised row gives the same errors as validating the raw row. |
| Validators.MergeClean | lib/validators.ts:52-54 | Merging row maps whose entries are all non-empty leaves no empty entity key and no empty row entry. |
| Validators.MergeKeys | lib/validators.ts:52-54 | An entity key is present only when some file of that entity has a non-empty map, and the key holds that map. |
| Validators.MergeOneFilePerEntity | lib/validators.ts:31-55 | With one file per entity, an entity's key is present exactly when its file's map is non-empty, and holds that map. |
| Validators.AllErrorsClean | lib/validators.ts:28-58 | The result of `validateAllFiles` has no empty entity key and no empty row entry. |
| Validators.AllErrorsKeys | lib/validators.ts:28-58 | An entity key is present only when a file of that entity has a failing row, and it holds that file's row map. |
| Validators.AllErrorsOneFilePerEntity | lib/validators.ts:28-58 | With one file per entity, each entity's entry is exactly its file's row map, present exactly when that map is non-empty. |
| Validators.UndeclaredFieldIgnored | lib/validators.ts:37-50 | A field the schema does not declare never changes a row's errors. |
| Validators.RowErrorsDeclaredFields | lib/validators.ts:41-48 | Every key of a row's entry is a field its schema declares. |
| CrossEntity.FirstMissing | lib/crossEntityValidator.ts:36-43 | The result is absent exactly when every reference is present; otherwise it is the first missing reference in list order. |
| CrossEntity.InvalidSlots | lib/crossEntityValidator.ts:66 | A value is among the invalid slots exactly when it is listed and fails the phase-number test. |
| CrossEntity.InvalidSlotsFilter | lib/crossEntityValidator.ts:66-70 | The invalid slots keep their listed order and every occurrence: the list is a subsequence of the slots, and each failing value appears as often as it is listed. |
| CrossEntity.CheckReferences | lib/crossEntityValidator.ts:31-44 | The loop over the rows stores exactly the reference-check map under the entity. |
| CrossEntity.CheckReferenceRow | lib/crossEntityValidator.ts:36-43 | The inner loop stops at the first missing reference and records it under the field; a row with none changes nothing. |
| CrossEntity.CheckSlots | lib/crossEntityValidator.ts:63-72 | The worker loop stores exactly the slot-check map under workers. |
| CrossEntity.CheckSlotRow | lib/crossEntityValidator.ts:64-71 | A worker with invalid slots gets one message listing them all; any other worker changes nothing. |
| CrossEntity.ValidateCrossEntityRelations | lib/crossEntityValidator.ts:9-75 | The imperative validator computes the specification `CrossErrors`, including the throw on a non-string skill. |
| CrossEntity.PhaseNumberIff | lib/crossEntityValidator.ts:4-7 | The phase-number test accepts exactly the integers of at least 1, with no upper bound. |
| CrossEntity.TrimAllThrowsIff | lib/crossEntityValidator.ts:17-19 | Building the skill set throws exactly when some flattened skill is not a string. |
| CrossEntity.TrimAllValues | lib/crossEntityValidator.ts:17-19 | When nothing throws, the skills are the flattened list with every item trimmed, in order. |
| CrossEntity.RefErrorsIff | lib/crossEntityValidator.ts:31-60 | A row has an entry exactly when one of its references is missing. The entry names the first missing one. |
| CrossEntity.RefErrorsFirstMissing | lib/crossEntityValidator.ts:36-42 | The entry names the first reference, in list order, that is missing. |
| CrossEntity.SlotErrorsIff | lib/crossEntityValidator.ts:63-72 | A worker has an entry exactly when one of its slots is not a phase number; the message lists every such slot. |
| CrossEntity.NonArrayNoError | lib/crossEntityValidator.ts:32-34 | A reference field that is not an array counts as empty and never produces an entry. |
| CrossEntity.RefErrorsShape | lib/crossEntityValidator.ts:40 | Every reference-check entry holds only the checked field. |
| CrossEntity.SlotErrorsShape | lib/crossEntityValidator.ts:70 | Every slot-check entry holds only `AvailableSlots`. |
| CrossEntity.CrossErrorsParts | lib/crossEntityValidator.ts:9-75 | A successful result holds each check's map under its entity exactly when that map is non-empty. |
| CrossEntity.CombinedFacts | lib/crossEntityValidator.ts:38-68 | The three checks' maps are combined under their own entities, each only when non-empty. |
| CrossEntity.WithEntityFacts | lib/crossEntityValidator.ts:38-39 | Storing one entity's map touches no other entity. |
| CrossEntity.CrossErrorsClean | lib/crossEntityValidator.ts:9-75 | A successful result has no empty entity key, and each entity's entries hold only its own check's field. |
| CrossEntity.NoTasksEveryRequestFails | lib/crossEntityValidator.ts:13-16 | Without a tasks file, every client that requests at least one task gets an entry. |
| Duplicates.CheckDuplicateIDs | lib/checkDuplicateIDs.ts:3-30 | A row is marked exactly when another row has the same ID value, and each mark is `Duplicate <field> found` under the ID field. |
| Duplicates.DuplicatePartner | lib/checkDuplicateIDs.ts:16-23 | A duplicated row always has a partner with the same ID value that is marked too. |
| Duplicates.GroupAllMarked | lib/checkDuplicateIDs.ts:12-27 | Every row of a group of equal IDs is marked, however large the group. |
| Duplicates.MissingIdsAreDuplicates | lib/checkDuplicateIDs.ts:11 | Rows without the ID field all read `undefined` and are marked as duplicates of each other. |
| Duplicates.UniqueNotMarked | lib/checkDuplicateIDs.ts:12-27 | A row whose ID occurs nowhere else is never marked. |
| Store.FindFile | components/rules/coRunRule.tsx:15 | `find` gives no file exactly when no file is of that entity; otherwise it gives the first such file. |
| Store.Column | hooks/useAiRulesCreation.ts:29 | `rows.map(row => row[field])` has one entry per row, in row order. |
| Store.UploadedIff | store/uploadAtoms.ts:38 | An entity is in the uploaded-types set exactly when some file of it is uploaded. |
| Store.ReadyIff | store/uploadAtoms.ts:36-42 | Validation is ready exactly when each of the three entities has a file. |
| Store.ReadyIgnoresOrderAndRepeats | store/uploadAtoms.ts:36-42 | Readiness depends only on which files are present. |
| Store.ReadyMonotone | store/uploadAtoms.ts:36-42 | Adding a file never turns ready into not ready. |
| Store.RowErrorCountIsSum | components/custom/DataRetrievalChat.tsx:43-47 | The per-entity count is 0 for no rows, and removing a row removes exactly its number of fields: the sum of `Object.keys(rowErrors).length`. |
| Store.CountedRowIsPresent | components/custom/DataRetrievalChat.tsx:43-47 | A positive per-entity count means the entity has at least one row entry. |
| Store.PresentCellIsCounted | components/custom/DataRetrievalChat.tsx:43-47 | Any field error stored in a row entry makes the per-entity count positive. |
| Store.TotalErrorsImpliesHasErrors | components/custom/DataRetrievalChat.tsx:33-51 | A positive total implies that some entity has a row entry. |
| Store.HasErrorsImpliesTotalErrors | components/custom/DataRetrievalChat.tsx:33-51 | If no row entry is `{}`, having a row entry implies a positive total. |
| Store.EmptyRowEntryDisagrees | components/custom/DataRetrievalChat.tsx:33-51 | A `{}` row entry counts as "has errors" but adds nothing to the total. |
| Store.AppStore.constructor | store/uploadAtoms.ts:25-34 | The shared atoms start empty. |
| DataModification.MarkRow | hooks/useAiDataModification.ts:69-71 | The field loop marks every changed field of the row as `true` and keeps the older marks. |
| DataModification.MarkPending | hooks/useAiDataModification.ts:54-75 | The marking pass gives the specification `MarksAfterApply`. |
| DataModification.ApplyToRows | hooks/useAiDataModification.ts:82-95 | The row update gives the specification `DataAfterApply`. |
| DataModification.ApplyToFiles | hooks/useAiDataModification.ts:78-103 | The file update gives the specification `FilesAfterApply`. |
| DataModification.RecheckRows | hooks/useAiDataModification.ts:108-118 | Re-validating the changed rows gives each row's errors, computed from the entity's first file. |
| DataModification.RevalidateEntity | hooks/useAiDataModification.ts:106-149 | The validation step gives the specification `ErrorsAfterApply` and is skipped without a file. |
| DataModification.PutBackRows | hooks/useAiDataModification.ts:121-147 | The queued updaters delete or replace each row and remove the entity once it has no rows. |
| DataModification.MarksAfterApplyShape | hooks/useAiDataModification.ts:54-75 | The entity gets a mark record. A row is recorded when it was before or is pending, and a field when it was marked before or is pending. Pending fields read `true`; older marks keep their value. |
| DataModification.MarksAfterApplyOthers | hooks/useAiDataModification.ts:54-75 | Other entities' marks are untouched. |
| DataModification.DataAfterApplyRow | hooks/useAiDataModification.ts:82-95 | A pending row is its old row overlaid with the changes, with the changes winning, then normalised. A row that is not pending is kept. |
| DataModification.DataAfterApplyNothing | hooks/useAiDataModification.ts:83-95 | Empty pending changes leave the rows unchanged. |
| DataModification.FilesAfterApplyFacts | hooks/useAiDataModification.ts:78-103 | Files keep their order, names and kinds; files of other entities are kept whole. |
| DataModification.CellChangeOnly | hooks/useAiDataModification.ts:190-207 | Accepting one cell sets that cell and changes nothing else of the row apart from its coerced fields; other rows are kept. |
| DataModification.RecheckMatchesData | hooks/useAiDataModification.ts:108-118 | The errors stored for a changed row are the errors of that row's new contents. |
| DataModification.ErrorsAfterApplyClean | hooks/useAiDataModification.ts:121-147 | Accepting leaves no empty entity key and no empty row entry. |
| DataModification.ErrorsAfterApplyRows | hooks/useAiDataModification.ts:121-147 | A changed row has an entry exactly when its re-check found errors, and then holds exactly them. An unchanged row keeps its entry. The entity is present exactly when some row entry remains. |
| DataModification.ErrorsAfterApplyOthers | hooks/useAiDataModification.ts:106-149 | Other entities' errors are untouched; with no file or no changes, nothing changes. |
| DataModification.PendingAfterTakeCells | hooks/useAiDataModification.ts:210-225 | Taking a cell removes exactly that cell. Other cells keep their values, the row stays only while it has cells left, and an empty result becomes `null`. |
| DataModification.FalsyChangeIgnored | hooks/useAiDataModification.ts:162-168 | A missing or falsy proposed value (`0`, `""`, `false`, `null`, `NaN`) is never applied. |
| DataModification.AiDataModification.RunAIModification | hooks/useAiDataModification.ts:27-48 | Without a file of the entity, the message is "No data found for entity." and nothing is pending; otherwise the reply is stored. |
| DataModification.AiDataModification.ApplyChanges | hooks/useAiDataModification.ts:50-154 | With nothing pending nothing changes. Otherwise marks, files and errors become their specification functions of the old state, pending clears and the message gains its suffix. |
| DataModification.AiDataModification.RejectChanges | hooks/useAiDataModification.ts:156-159 | Pending changes and message clear; data, errors and marks are untouched. |
| DataModification.AiDataModification.ApplyIndividualChange | hooks/useAiDataModification.ts:161-226 | Without a truthy pending value nothing changes. Otherwise exactly that cell is applied and marked, and removed from pending; the error map is untouched. |
| ValidationFix.SafeErrorsShape | hooks/useAiValidationFix.ts:37-41 | The safe map has all three entity keys, with `{}` for an absent one and existing maps kept; whether there are errors is unchanged. |
| ValidationFix.FixCellOnly | hooks/useAiValidationFix.ts:59-73 | Exactly one cell changes, to exactly the proposed value, without normalisation. Other files, rows and fields are kept, as are the files' order, names, kinds and lengths. |
| ValidationFix.ZeroFixApplied | hooks/useAiValidationFix.ts:54-55 | A proposed `0` is written by `fixCell`, while a pending data change of `0` is refused. |
| ValidationFix.AiValidationFix.RefreshHasErrors | hooks/useAiValidationFix.ts:24-29 | The flag becomes true exactly when some entity has at least one row entry. |
| ValidationFix.AiValidationFix.RunFix | hooks/useAiValidationFix.ts:32-50 | Without errors nothing is sent or cached; otherwise the request carries the uploaded files and the safe error map, and the reply becomes the cached fixes. |
| ValidationFix.AiValidationFix.FixCell | hooks/useAiValidationFix.ts:53-75 | The files change only when a fix exists for that cell. The error map and the AI marks are untouched. |
| FileUpload.MismatchIff | components/upload/fileUploader.tsx:103-109 | Headers mismatch exactly when an expected header is missing from the first row; extra columns never cause a mismatch. |
| FileUpload.RemappedKeys | components/upload/fileUploader.tsx:121-127 | The renamed row has exactly the renamed keys. |
| FileUpload.RemappedLastWins | components/upload/fileUploader.tsx:123-126 | When two keys rename to the same name, it holds the value of the last one visited. |
| FileUpload.RemappedIdentity | components/upload/fileUploader.tsx:124 | With an empty mapping every key keeps its name and its value. |
| FileUpload.RemapRow | components/upload/fileUploader.tsx:122-127 | The `for…in` loop builds the renamed row of the specification. |
| FileUpload.RemapRows | components/upload/fileUploader.tsx:121-128 | The row map renames every row with its own key order. |
| FileUpload.UploadRowsFromSameRow | components/upload/fileUploader.tsx:111-135 | Row count and order are kept. Row `i` of the upload is row `i` of the sheet, renamed only on a mismatch with a non-empty mapping, then normalised. |
| FileUpload.MatchingHeadersIgnoreMapping | components/upload/fileUploader.tsx:113 | With matching headers the mapping is never consulted. |
| FileUpload.OtherFilesMembers | components/upload/fileUploader.tsx:139 | The filter keeps exactly the files of other entities. |
| FileUpload.OtherFilesAppend | components/upload/fileUploader.tsx:139 | The filter distributes over concatenation, so kept files stay in their relative order. |
| FileUpload.OtherFilesNone | components/upload/fileUploader.tsx:139 | Without files of the entity the filter keeps everything. |
| FileUpload.WithUploadFacts | components/upload/fileUploader.tsx:138-145 | After an upload the entity has exactly one file, placed last; every other entity has a file exactly when it had one. |
| FileUpload.RemoveFacts | components/upload/fileUploader.tsx:306-310 | Removing drops every file of the entity and keeps the other files in order. |
| FileUpload.FileUploader.HandleFileUpload | components/upload/fileUploader.tsx:98-145 | An empty sheet changes nothing. Otherwise the files become the other entities' files followed by the new file, and errors and marks are untouched. |
| FileUpload.FileUploader.RemoveFile | components/upload/fileUploader.tsx:306-310 | The files become those of the other entities. |
| Rules.IdOptionsMirrorColumn | components/rules/loadLimitRule.tsx:17-23 | There is one option per row, with label and value both the row's ID, in row order; without a file there are none. |
| Rules.RulesStore.constructor | store/rulesAtoms.ts:5-10 | The rules start with every list empty and no prioritisation. |
| RulesCreation.AvailableColumns | hooks/useAiRulesCreation.ts:25-38 | Each list is the entity's ID column in row order, and is empty without a file. |
| RulesCreation.MergedKeepsPrefix | hooks/useAiRulesCreation.ts:58-60 | Existing rules stay a prefix and exactly the proposed ones follow; an empty or absent proposal keeps the list. |
| RulesCreation.ApplyRulesKeepsExisting | hooks/useAiRulesCreation.ts:54-90 | Every list keeps its existing rules in front; the prioritisation is replaced only when one is proposed. |
| RulesCreation.HasChangesIff | hooks/useAiRulesCreation.ts:115-120 | A proposal has changes exactly when accepting it would change the rules or when it carries a prioritisation. |
| RulesCreation.AiRulesCreation.RunAIModification | hooks/useAiRulesCreation.ts:19-49 | The context sent is the three ID columns; the reply becomes the pending rules. |
| RulesCreation.AiRulesCreation.ApplyChanges | hooks/useAiRulesCreation.ts:51-95 | Without a proposal nothing changes; otherwise the rules are merged and pending clears. |
| RulesCreation.AiRulesCreation.RejectChanges | hooks/useAiRulesCreation.ts:97-100 | Pending rules and message clear; the rules are untouched. |
| MultiSelect.ToggleFlips | components/custom/multiSelect.tsx:25-31 | Membership of the toggled value flips; every other value's membership is unchanged. |
| MultiSelect.ToggleAbsentAppends | components/custom/multiSelect.tsx:28-29 | An absent value is appended at the end. |
| MultiSelect.ToggleTwiceRestores | components/custom/multiSelect.tsx:25-31 | Toggling an absent value twice restores the list. |
| MultiSelect.ToggleNoDup | components/custom/multiSelect.tsx:25-31 | A repetition-free list stays repetition-free. |
| CoRunRuleForm.AddCoRunFacts | components/rules/coRunRule.tsx:22-31 | Fewer than two tasks add nothing. Otherwise exactly the selection is appended as one rule. Existing co-run rules stay a prefix, other kinds are unchanged, and every co-run rule keeps at least two tasks. |
| CoRunRuleForm.CoRunForm.HandleAddRule | components/rules/coRunRule.tsx:22-31 | The rules become `AddCoRun` of the old rules, and the selection resets only when a rule was added. |
| LoadLimitRuleForm.AddLoadLimitFacts | components/rules/loadLimitRule.tsx:27-38 | No workers, or a limit below 1, add nothing. Otherwise exactly the group and limit are appended. Other kinds are unchanged and stored rules stay well formed. |
| LoadLimitRuleForm.NaNLimitPassesGuard | components/rules/loadLimitRule.tsx:28-60 | The guard `maxSlotsPerPhase < 1` lets `NaN` through, because `NaN < 1` is false, and refuses 0. The number input never produces `NaN`: an unparseable entry becomes `""`, and `Number("")` is 0, which the guard refuses. |
| LoadLimitRuleForm.LoadLimitForm.HandleAddRule | components/rules/loadLimitRule.tsx:27-43 | The rules become `AddLoadLimit` of the old rules; after adding, the form resets to no workers and a limit of 1. |
| SlotRestrictionRuleForm.AddSlotRestrictionFacts | components/rules/slotRestrictionRule.tsx:24-33 | Adding always appends one rule whose group is `[groupId]`, even for an empty id. Existing rules stay a prefix and other kinds are unchanged. |
| SlotRestrictionRuleForm.SlotRestrictionForm.HandleAddRule | components/rules/slotRestrictionRule.tsx:18-37 | The rules gain that rule, the id and minimum reset to "" and 1, and the group type is kept but never recorded in the rule. |
| PrecedenceRuleForm.UseRuleIdentifiers | components/rules/precedenceOverrideRule.tsx:20-38 | The four `forEach` loops build exactly the identifier list of the specification. |
| PrecedenceRuleForm.RuleIdentifiersLayout | components/rules/precedenceOverrideRule.tsx:24-35 | There is one identifier per co-run, slot-restriction, load-limit and phase-window rule, and none for precedence rules. Kinds come in that order, and the `i`-th rule of a kind reads `<kind> #<i+1>: <caption>`. |
| PrecedenceRuleForm.IdentifierNumberInjective | components/rules/precedenceOverrideRule.tsx:25-34 | Two identifiers of one kind are equal only when they carry the same number, whatever their captions. |
| PrecedenceRuleForm.KindIdentifiersNoDup | components/rules/precedenceOverrideRule.tsx:25-34 | Within one kind the identifiers are pairwise distinct. |
| PrecedenceRuleForm.KindsDisjoint | components/rules/precedenceOverrideRule.tsx:25-34 | Identifiers of kinds whose prefixes start differently never meet. |
| PrecedenceRuleForm.RuleIdentifiersNoDup | components/rules/precedenceOverrideRule.tsx:24-35 | The identifier list never repeats an entry. |
| PrecedenceRuleForm.AddPrecedenceFacts | components/rules/precedenceOverrideRule.tsx:48-54 | An unchosen side or `ruleA == ruleB` adds nothing. Otherwise exactly `{ruleA, ruleB, priority}` is appended. Other kinds are unchanged and stored rules stay well formed. |
| PrecedenceRuleForm.RemovePrecedenceFacts | components/rules/precedenceOverrideRule.tsx:62-67 | Removing drops exactly position `index` and keeps the rest in order; an index out of range changes nothing, and other kinds are unchanged. |
| PrecedenceRuleForm.PrecedenceForm.RuleOptions | components/rules/precedenceOverrideRule.tsx:41 | The options are the identifiers of the rules in the store. |
| PrecedenceRuleForm.PrecedenceForm.HandleAddRule | components/rules/precedenceOverrideRule.tsx:48-60 | The rules become `AddPrecedence` of the old rules, and after adding the form resets to "", "" and high. |
| PrecedenceRuleForm.PrecedenceForm.HandleRemoveRule | components/rules/precedenceOverrideRule.tsx:62-67 | The rules become `RemovePrecedence` of the old rules. |
| PhaseWindowRuleForm.AvailableFromIff | components/rules/phaseWindowRule.tsx:40-42 | An option survives the filter exactly when it was offered and its value is not yet allowed. |
| PhaseWindowRuleForm.AvailableFromInOrder | components/rules/phaseWindowRule.tsx:40-42 | The filter only leaves options out and keeps the rest in their offered order. |
| PhaseWindowRuleForm.AvailableFromAll | components/rules/phaseWindowRule.tsx:40-42 | When none of the offered values is allowed yet, the filter keeps every option. |
| PhaseWindowRuleForm.AvailablePhasesIff | components/rules/phaseWindowRule.tsx:31-42 | Phase `k` from 1 to 6 is offered exactly when `"k"` is not yet allowed. The offered phases keep the order 1 to 6, and with none allowed all six are offered. |
| PhaseWindowRuleForm.AddPhaseFacts | components/rules/phaseWindowRule.tsx:44-49 | A non-empty phase ends up allowed and adding it twice is adding it once. The list never repeats a phase or holds an empty one, and removing a phase just added restores the list. |
| PhaseWindowRuleForm.RemovePhaseFacts | components/rules/phaseWindowRule.tsx:51-53 | Removing a phase drops just that entry and keeps the others in order and distinct. |
| PhaseWindowRuleForm.AddPhaseWindowFacts | components/rules/phaseWindowRule.tsx:55-66 | No task or no phase adds nothing. Otherwise one rule for the task is appended, holding the picked phases parsed in picking order. Other kinds are unchanged and stored rules stay well formed. |
| PhaseWindowRuleForm.PickedPhasesParse | components/rules/phaseWindowRule.tsx:31-60 | When `parseInt` reads numerals as their numbers, phases picked from the options are stored as numbers from 1 to 6. |
| PhaseWindowRuleForm.RemovePhaseWindowFacts | components/rules/phaseWindowRule.tsx:72-77 | Removing drops exactly position `index` and keeps the rest in order; an index out of range changes nothing. |
| PhaseWindowRuleForm.PhaseWindowForm.HandleAddPhase | components/rules/phaseWindowRule.tsx:44-49 | The allowed phases become `AddPhase` of the old ones, and the phase picker clears only when the phase was added. |
| PhaseWindowRuleForm.PhaseWindowForm.HandleRemovePhase | components/rules/phaseWindowRule.tsx:51-53 | The allowed phases become `RemovePhase` of the old ones. |
| PhaseWindowRuleForm.PhaseWindowForm.HandleAddRule | components/rules/phaseWindowRule.tsx:55-70 | The rules become `AddPhaseWindow` of the old rules, and after adding the task and phases clear. |
| PhaseWindowRuleForm.PhaseWindowForm.HandleRemoveRule | components/rules/phaseWindowRule.tsx:72-77 | The rules become `RemovePhaseWindow` of the old rules. |
| DataRetrievalChat.BlankNeverSent | components/custom/DataRetrievalChat.tsx:108 | Input made only of whitespace, the empty input included, is never sent, and nothing is sent while a reply is outstanding. |
| DataRetrievalChat.ExchangeShape | components/custom/DataRetrievalChat.tsx:110-121 | A sent question becomes a user message holding the trimmed, non-empty input, followed by an empty, streaming assistant reply. The ids come from two clock readings, and they differ whenever the clock does not go back between the readings. |
| DataRetrievalChat.FinishReplyFacts | components/custom/DataRetrievalChat.tsx:79-85 | Finishing a reply keeps the list's length and order. The messages with that id get the text and stop streaming; all others are kept. |
| DataRetrievalChat.Chat.StartChat | components/custom/DataRetrievalChat.tsx:94-105 | The list restarts with the greeting. |
| DataRetrievalChat.Chat.SendMessage | components/custom/DataRetrievalChat.tsx:107-125 | Blank input, or a reply still outstanding, changes nothing. Otherwise the two messages are appended at the end, with the ids of two separate clock readings; the input clears and the chat waits. |
| DataRetrievalChat.Chat.CompleteReply | components/custom/DataRetrievalChat.tsx:79-87 | The reply gets its text and stops streaming, and loading ends. |

## Left out

- **Host primitives.** The number parser and printer, `JSON.parse`, `parseInt` and zod's default messages are taken as parameters (`Host`), not defined. No result depends on how they behave, except where a lemma names a behaviour as a precondition.
- **Numbers.** JavaScript numbers are modelled as reals plus `NaN` and the infinities. Double rounding is not modelled.
- **Key order.** The key order of `for…in` and of `Object.entries` is an input (a list of keys per row). Mappings that name keys inherited from `Object.prototype` are not modelled.
- **Out-of-range row indices.** A proposed change or fix at a row index outside the data leaves the data unchanged. JavaScript would instead grow the array with a hole.
- **Asynchronous work.** The network and language-model calls, file reading, timers and React's batching of state updates are left out. Replies arrive as inputs: the proposed changes, the fixes, the header mapping, the proposed rules and the chat answer. Loading flags and the async wait are left out too.
- **The character-by-character streaming.** The chat's per-character streaming (`streamText`) is modelled only by its end state.
- **Parsing, export and persistence.** The CSV and Excel parsing, export, and the storage-backed persistence of the atoms are left out.
- **Prioritisation weights.** The weights form is not part of this model.
- **Extra keys in proposed rules.** Keys of a proposed rules object outside the six known ones are not modelled. `hasChanges` looks at them in the source, though the typed object never has them.
- **Unused validators.** `checkDuplicateIDs` and `validateCrossEntityRelations` are modelled on their own. No hook in the core calls them.
- **Equality of IDs.** `Set.has` and `Map.has` compare objects and arrays by reference; the model compares all values by contents. Two rows whose ID cells are distinct arrays with the same elements are therefore duplicates in `Duplicates.CheckDuplicateIDs` but not in the source. Object contents are not modelled at all (every object is the one value `Obj`), so any two object-valued IDs match. Likewise an array or object reference matches a task ID or skill in `CrossEntity` by contents. String, number and boolean IDs, the ones a spreadsheet produces, compare the same way in both.
- **Row keys of proposed changes.** The assistant's reply keys rows by strings that the source reads with `parseInt`; the model takes the keys as integers already. A non-numeric key, which the source would file under `NaN`, is not modelled.
- **Rendering.** Icons, labels and layout are left out.
- Store.TotalErrors: defined as the number of (row, field) entries, not as a fold. `Store.RowErrorCountIsSum` proves it equals that fold's sum.
- RulesCreation.HasChanges: compares the typed fields only (see "Extra keys in proposed rules").
