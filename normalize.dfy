/**
 * `normalizeRowTypes`: a shallow copy of the row in which the entity's numeric
 * fields are overwritten with `Number(raw)`.  Nothing else is coerced: list
 * fields such as `Skills` or `RequestedTaskIDs` keep whatever shape the parser
 * gave them.
 */
module Normalize {
  import opened Js
  import opened Store

  /** The fields `normalizeRowTypes` overwrites for each entity. */
  function CoercedFields(e: EntityType): set<string>
  {
    match e
    case Clients => {"PriorityLevel"}
    case Tasks => {"Duration", "MaxConcurrent"}
    case Workers => {"MaxLoadPerPhase"}
  }

  /** The list-valued fields of the three schemas. */
  const ArrayFields: set<string> := {"RequestedTaskIDs", "Skills", "AvailableSlots", "RequiredSkills", "PreferredPhases"}

  /** `normalizeRowTypes(entityType, row)`. */
  function NormalizeRow(h: Host, e: EntityType, row: Row): (r: Row)
    ensures r.Keys == row.Keys + CoercedFields(e)
    ensures forall k :: k in row && k !in CoercedFields(e) ==> r[k] == row[k]
    ensures forall k :: k in CoercedFields(e) ==> r[k] == Num(ToNumber(h, Get(row, k)))
  {
    match e
    case Clients =>
      row["PriorityLevel" := Num(ToNumber(h, Get(row, "PriorityLevel")))]
    case Tasks =>
      row["Duration" := Num(ToNumber(h, Get(row, "Duration")))]
         ["MaxConcurrent" := Num(ToNumber(h, Get(row, "MaxConcurrent")))]
    case Workers =>
      row["MaxLoadPerPhase" := Num(ToNumber(h, Get(row, "MaxLoadPerPhase")))]
  }

  /** Changing one field of the raw row changes no other field of the normalised row. */
  lemma NormalizeOtherFields(h: Host, e: EntityType, row: Row, k: string, v: Value, fields: set<string>)
    requires k !in fields
    ensures forall f :: f in fields ==> Get(NormalizeRow(h, e, row[k := v]), f) == Get(NormalizeRow(h, e, row), f)
  {
    forall f | f in fields ensures Get(NormalizeRow(h, e, row[k := v]), f) == Get(NormalizeRow(h, e, row), f) {
      if f !in CoercedFields(e) {
        assert Get(row[k := v], f) == Get(row, f);
      }
    }
  }

  /** Normalising twice is normalising once, because `Number` of a number is that number. */
  lemma NormalizeIdempotent(h: Host, e: EntityType, row: Row)
    ensures NormalizeRow(h, e, NormalizeRow(h, e, row)) == NormalizeRow(h, e, row)
  {
    var once := NormalizeRow(h, e, row);
    var twice := NormalizeRow(h, e, once);
    forall k | k in twice ensures twice[k] == once[k] {
      if k in CoercedFields(e) {
        assert Get(once, k) == Num(ToNumber(h, Get(row, k)));
      }
    }
  }

  /** For clients only PriorityLevel changes, to exactly `Number(raw)`; no default, no clamping. */
  lemma ClientsCoerceOnlyPriority(h: Host, row: Row)
    ensures var r := NormalizeRow(h, Clients, row);
      && r == row["PriorityLevel" := Num(ToNumber(h, Get(row, "PriorityLevel")))]
      && forall k :: k in r && k != "PriorityLevel" ==> Get(r, k) == Get(row, k)
  {
  }

  /** For tasks only Duration and MaxConcurrent change; for workers only MaxLoadPerPhase. */
  lemma TasksAndWorkersCoerce(h: Host, row: Row)
    ensures forall k :: k in NormalizeRow(h, Tasks, row) && k != "Duration" && k != "MaxConcurrent"
                        ==> NormalizeRow(h, Tasks, row)[k] == row[k]
    ensures forall k :: k in NormalizeRow(h, Workers, row) && k != "MaxLoadPerPhase"
                        ==> NormalizeRow(h, Workers, row)[k] == row[k]
  {
  }

  /** A coerced key is present afterwards even when the input lacks it: `Number(undefined)` is NaN. */
  lemma MissingFieldBecomesNaN(h: Host, e: EntityType, row: Row, k: string)
    requires k in CoercedFields(e) && k !in row
    ensures k in NormalizeRow(h, e, row) && NormalizeRow(h, e, row)[k] == Num(NaN)
  {
  }

  /** List-valued fields are never touched: an unsplit CSV string stays a string. */
  lemma ArrayFieldsUntouched(h: Host, e: EntityType, row: Row, k: string)
    requires k in ArrayFields
    ensures Get(NormalizeRow(h, e, row), k) == Get(row, k)
  {
  }
}
