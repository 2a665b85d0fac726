/** The load-limit rule form: a group of workers and the most slots they may take per phase. */
module LoadLimitRuleForm {
  import opened Js
  import opened Store
  import opened Rules

  /** The guard of `handleAddRule`: some worker selected and `maxSlotsPerPhase < 1` false. */
  predicate CanAddLoadLimit(selected: seq<string>, maxSlots: JsNumber)
  {
    |selected| > 0 && !Below(maxSlots, 1.0)
  }

  /** The rules after `handleAddRule`. */
  function AddLoadLimit(rules: RulesJson, selected: seq<string>, maxSlots: JsNumber): RulesJson
  {
    if !CanAddLoadLimit(selected, maxSlots) then rules
    else rules.(loadLimit := rules.loadLimit + [LoadLimitRule(selected, maxSlots)])
  }

  /** Every load-limit rule has a worker and a limit the guard accepts. */
  predicate LoadLimitFormed(rules: seq<LoadLimitRule>)
  {
    forall i :: 0 <= i < |rules| ==> |rules[i].group| > 0 && !Below(rules[i].maxSlotsPerPhase, 1.0)
  }

  /**
   * Adding does nothing without workers or with a limit below 1; otherwise it
   * appends exactly the selection and limit, keeping the existing load limits
   * as a prefix and every other kind unchanged.
   */
  lemma AddLoadLimitFacts(rules: RulesJson, selected: seq<string>, maxSlots: JsNumber)
    ensures var r := AddLoadLimit(rules, selected, maxSlots);
      && (selected == [] || Below(maxSlots, 1.0) ==> r == rules)
      && (CanAddLoadLimit(selected, maxSlots) ==> r.loadLimit == rules.loadLimit + [LoadLimitRule(selected, maxSlots)])
      && r.loadLimit[..|rules.loadLimit|] == rules.loadLimit
      && r.(loadLimit := rules.loadLimit) == rules
      && (LoadLimitFormed(rules.loadLimit) ==> LoadLimitFormed(r.loadLimit))
  {
    var r := AddLoadLimit(rules, selected, maxSlots);
    assert r.loadLimit[..|rules.loadLimit|] == rules.loadLimit;
  }

  /** `NaN < 1` is false, so the guard lets a NaN limit through; a limit of 0 is refused. */
  lemma NaNLimitPassesGuard(worker: string)
    ensures CanAddLoadLimit([worker], NaN)
    ensures !CanAddLoadLimit([worker], Finite(0.0))
  {
  }

  /** The form's state over the shared stores. */
  class LoadLimitForm {
    const store: AppStore
    const rulesStore: RulesStore
    var selectedWorkers: seq<string>
    var maxSlotsPerPhase: JsNumber

    constructor (store: AppStore, rulesStore: RulesStore)
      ensures this.store == store && this.rulesStore == rulesStore
      ensures selectedWorkers == [] && maxSlotsPerPhase == Finite(1.0)
    {
      this.store := store;
      this.rulesStore := rulesStore;
      selectedWorkers := [];
      maxSlotsPerPhase := Finite(1.0);
    }

    /** `workerOptions`: one option per worker row, label and value both its `WorkerID`. */
    function WorkerOptions(): seq<SelectOption>
      reads this, store
    {
      IdOptions(store.uploadedFiles, Workers, "WorkerID")
    }

    /** `handleAddRule`: the form resets to no workers and a limit of 1 after adding. */
    method HandleAddRule()
      modifies this, rulesStore
      ensures rulesStore.rules == AddLoadLimit(old(rulesStore.rules), old(selectedWorkers), old(maxSlotsPerPhase))
      ensures !CanAddLoadLimit(old(selectedWorkers), old(maxSlotsPerPhase)) ==>
        selectedWorkers == old(selectedWorkers) && maxSlotsPerPhase == old(maxSlotsPerPhase)
      ensures CanAddLoadLimit(old(selectedWorkers), old(maxSlotsPerPhase)) ==>
        selectedWorkers == [] && maxSlotsPerPhase == Finite(1.0)
    {
      if |selectedWorkers| == 0 || Below(maxSlotsPerPhase, 1.0) {
        return;
      }
      var newRule := LoadLimitRule(selectedWorkers, maxSlotsPerPhase);
      rulesStore.rules := rulesStore.rules.(loadLimit := rulesStore.rules.loadLimit + [newRule]);
      selectedWorkers := [];
      maxSlotsPerPhase := Finite(1.0);
    }
  }
}
