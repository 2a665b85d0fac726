/** The co-run rule form: pick at least two tasks that must run together. */
module CoRunRuleForm {
  import opened Js
  import opened Store
  import opened Rules

  /** The rules after `handleAddRule`: fewer than two selected tasks add nothing. */
  function AddCoRun(rules: RulesJson, selected: seq<string>): RulesJson
  {
    if |selected| < 2 then rules else rules.(coRun := rules.coRun + [CoRunRule(selected)])
  }

  /** Every co-run rule groups at least two tasks. */
  predicate CoRunFormed(rules: seq<CoRunRule>)
  {
    forall i :: 0 <= i < |rules| ==> |rules[i].tasks| >= 2
  }

  /**
   * Adding either does nothing (fewer than two tasks) or appends exactly the
   * selection as one rule: existing co-run rules stay a prefix, the other
   * kinds and the prioritisation are unchanged, and well-formed lists stay so.
   */
  lemma AddCoRunFacts(rules: RulesJson, selected: seq<string>)
    ensures var r := AddCoRun(rules, selected);
      && (|selected| < 2 ==> r == rules)
      && (|selected| >= 2 ==> r.coRun == rules.coRun + [CoRunRule(selected)])
      && r.coRun[..|rules.coRun|] == rules.coRun
      && r.(coRun := rules.coRun) == rules
      && (CoRunFormed(rules.coRun) ==> CoRunFormed(r.coRun))
  {
    var r := AddCoRun(rules, selected);
    assert r.coRun[..|rules.coRun|] == rules.coRun;
  }

  /** The form's state over the shared stores. */
  class CoRunForm {
    const store: AppStore
    const rulesStore: RulesStore
    var selectedTasks: seq<string>

    constructor (store: AppStore, rulesStore: RulesStore)
      ensures this.store == store && this.rulesStore == rulesStore && selectedTasks == []
    {
      this.store := store;
      this.rulesStore := rulesStore;
      selectedTasks := [];
    }

    /** `taskOptions`: one option per task row, label and value both its `TaskID`. */
    function TaskOptions(): seq<SelectOption>
      reads this, store
    {
      IdOptions(store.uploadedFiles, Tasks, "TaskID")
    }

    /** `handleAddRule`: the selection is reset only when a rule was added. */
    method HandleAddRule()
      modifies this, rulesStore
      ensures rulesStore.rules == AddCoRun(old(rulesStore.rules), old(selectedTasks))
      ensures selectedTasks == if |old(selectedTasks)| < 2 then old(selectedTasks) else []
    {
      if |selectedTasks| < 2 {
        return;
      }
      rulesStore.rules := rulesStore.rules.(coRun := rulesStore.rules.coRun + [CoRunRule(selectedTasks)]);
      selectedTasks := [];
    }
  }
}
