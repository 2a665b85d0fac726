/**
 * The business-rule configuration: five lists of rules and an optional
 * prioritisation, held in one shared store that the rule forms and the AI
 * rule assistant append to.
 */
module Rules {
  import opened Js
  import opened Store

  datatype CoRunRule = CoRunRule(tasks: seq<string>)
  datatype SlotRestrictionRule = SlotRestrictionRule(group: seq<string>, minCommonSlots: JsNumber)
  datatype LoadLimitRule = LoadLimitRule(group: seq<string>, maxSlotsPerPhase: JsNumber)
  datatype PhaseWindowRule = PhaseWindowRule(task: string, allowedPhases: seq<JsNumber>)
  datatype Priority = High | Low
  datatype PrecedenceRule = PrecedenceRule(ruleA: string, ruleB: string, priority: Priority)
  datatype Prioritization = Prioritization(priorityLevel: JsNumber, requestedTaskIDs: JsNumber, fairness: JsNumber)

  /** `RulesJSON`. */
  datatype RulesJson = RulesJson(
    coRun: seq<CoRunRule>,
    slotRestriction: seq<SlotRestrictionRule>,
    loadLimit: seq<LoadLimitRule>,
    phaseWindow: seq<PhaseWindowRule>,
    precedence: seq<PrecedenceRule>,
    prioritization: Option<Prioritization>)

  /** The store's initial value: every list empty, no prioritisation. */
  const EmptyRules := RulesJson([], [], [], [], [], None)

  /** A choice in a select box: its caption (the `label`) and the value stored when it is picked. */
  datatype SelectOption = SelectOption(caption: Value, value: Value)

  /** `files.find((f) => f.entityType === e)?.rawData.map((row) => ({label: row[field], value: row[field]})) || []`. */
  function IdOptions(files: seq<ParsedFile>, e: EntityType, field: string): seq<SelectOption>
  {
    var rows := DataOf(files, e);
    seq(|rows|, i requires 0 <= i < |rows| => SelectOption(Get(rows[i], field), Get(rows[i], field)))
  }

  /** One option per row of the entity's first file, label and value both its ID, in row order; none without a file. */
  lemma IdOptionsMirrorColumn(files: seq<ParsedFile>, e: EntityType, field: string)
    ensures var options := IdOptions(files, e, field); var ids := Column(DataOf(files, e), field);
      && |options| == |ids|
      && (forall i :: 0 <= i < |options| ==> options[i].caption == ids[i] && options[i].value == ids[i])
      && (!HasFileOf(files, e) ==> options == [])
  {
    if !HasFileOf(files, e) {
      assert FindFile(files, e).None?;
    }
  }

  /** The shared rules atom. */
  class RulesStore {
    var rules: RulesJson

    constructor ()
      ensures rules == EmptyRules
    {
      rules := EmptyRules;
    }
  }
}
