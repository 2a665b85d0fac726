/** The slot-restriction rule form: one group and a minimum number of common slots. */
module SlotRestrictionRuleForm {
  import opened Js
  import opened Rules

  /** The group kinds the form offers; the choice is not recorded in the rule. */
  datatype GroupType = ClientGroup | WorkerGroup

  /** The rules after `handleAddRule`: there is no guard, so an empty `groupId` is stored too. */
  function AddSlotRestriction(rules: RulesJson, groupId: string, minCommonSlots: JsNumber): RulesJson
  {
    rules.(slotRestriction := rules.slotRestriction + [SlotRestrictionRule([groupId], minCommonSlots)])
  }

  /**
   * Adding always appends one rule whose group is the one-element list
   * `[groupId]`, whatever `groupId` is; the existing rules stay a prefix and
   * the other kinds are unchanged.
   */
  lemma AddSlotRestrictionFacts(rules: RulesJson, groupId: string, minCommonSlots: JsNumber)
    ensures var r := AddSlotRestriction(rules, groupId, minCommonSlots);
      && |r.slotRestriction| == |rules.slotRestriction| + 1
      && r.slotRestriction[..|rules.slotRestriction|] == rules.slotRestriction
      && r.slotRestriction[|rules.slotRestriction|].group == [groupId]
      && r.slotRestriction[|rules.slotRestriction|].minCommonSlots == minCommonSlots
      && r.(slotRestriction := rules.slotRestriction) == rules
  {
    var r := AddSlotRestriction(rules, groupId, minCommonSlots);
    assert r.slotRestriction[..|rules.slotRestriction|] == rules.slotRestriction;
  }

  /** The form's state over the shared rules store. */
  class SlotRestrictionForm {
    const rulesStore: RulesStore
    var groupType: GroupType
    var groupId: string
    var minCommonSlots: JsNumber

    constructor (rulesStore: RulesStore)
      ensures this.rulesStore == rulesStore
      ensures groupType == WorkerGroup && groupId == "" && minCommonSlots == Finite(1.0)
    {
      this.rulesStore := rulesStore;
      groupType := WorkerGroup;
      groupId := "";
      minCommonSlots := Finite(1.0);
    }

    /** `handleAddRule`: the group id and minimum reset to "" and 1; the group type stays selected. */
    method HandleAddRule()
      modifies this, rulesStore
      ensures rulesStore.rules == AddSlotRestriction(old(rulesStore.rules), old(groupId), old(minCommonSlots))
      ensures groupId == "" && minCommonSlots == Finite(1.0) && groupType == old(groupType)
    {
      var newRule := SlotRestrictionRule([groupId], minCommonSlots);
      rulesStore.rules := rulesStore.rules.(slotRestriction := rulesStore.rules.slotRestriction + [newRule]);
      groupId := "";
      minCommonSlots := Finite(1.0);
    }
  }
}
