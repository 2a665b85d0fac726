/**
 * The phase-window form: pick a task and a set of phases (1 to 6) it may run
 * in, one phase at a time, then store the rule with the phases parsed to numbers.
 */
module PhaseWindowRuleForm {
  import opened Js
  import opened Store
  import opened Rules
  import Lists

  /** A phase choice: its caption and the string value stored when it is picked. */
  datatype PhaseOption = PhaseOption(caption: string, value: string)

  /** The number of phases on offer. */
  const PhaseCount: nat := 6

  /** `[1, 2, 3, 4, 5, 6].map((num) => ({label: `Phase ${num}`, value: String(num)}))`. */
  function PhaseOptions(): seq<PhaseOption>
  {
    seq(PhaseCount, (i: nat) => PhaseOption("Phase " + NatToString(i + 1), NatToString(i + 1)))
  }

  /** The numbers the offered phases stand for. */
  function PhaseNumbers(): seq<JsNumber>
  {
    seq(PhaseCount, i => Finite((i + 1) as real))
  }

  /** `phaseOptions.filter((phase) => !allowedPhases.includes(phase.value))`, for any list of options. */
  function AvailableFrom(options: seq<PhaseOption>, allowed: seq<string>): seq<PhaseOption>
  {
    if options == [] then []
    else (if options[0].value in allowed then [] else [options[0]]) + AvailableFrom(options[1..], allowed)
  }

  /** `availablePhaseOptions`. */
  function AvailablePhaseOptions(allowed: seq<string>): seq<PhaseOption>
  {
    AvailableFrom(PhaseOptions(), allowed)
  }

  /** An option survives the filter exactly when it was on offer and its value is not yet allowed. */
  lemma {:induction false} AvailableFromIff(options: seq<PhaseOption>, allowed: seq<string>, o: PhaseOption)
    ensures o in AvailableFrom(options, allowed) <==> o in options && o.value !in allowed
  {
    if options != [] {
      AvailableFromIff(options[1..], allowed, o);
      assert o in options <==> o == options[0] || o in options[1..];
    }
  }

  /** When none of the offered values is allowed yet, the filter keeps every option. */
  lemma {:induction false} AvailableFromAll(options: seq<PhaseOption>, allowed: seq<string>)
    requires forall i :: 0 <= i < |options| ==> options[i].value !in allowed
    ensures AvailableFrom(options, allowed) == options
  {
    if options != [] {
      AvailableFromAll(options[1..], allowed);
    }
  }

  /** The filter only leaves options out: what remains is in the order it was offered. */
  lemma {:induction false} AvailableFromInOrder(options: seq<PhaseOption>, allowed: seq<string>)
    ensures Lists.Subsequence(AvailableFrom(options, allowed), options)
  {
    if options != [] {
      AvailableFromInOrder(options[1..], allowed);
      var rest := AvailableFrom(options[1..], allowed);
      if options[0].value !in allowed {
        assert AvailableFrom(options, allowed) == [options[0]] + rest;
        assert ([options[0]] + rest)[1..] == rest;
        assert Lists.Subsequence([options[0]] + rest, options);
      } else {
        assert AvailableFrom(options, allowed) == rest;
        assert Lists.Subsequence(rest, options);
      }
    }
  }

  /**
   * The phases still offered are those of 1 to 6 not yet allowed; they keep the
   * order 1 to 6, and with none allowed all six are offered.
   */
  lemma AvailablePhasesIff(allowed: seq<string>, k: int)
    requires 1 <= k <= PhaseCount
    ensures PhaseOption("Phase " + NatToString(k), NatToString(k)) in AvailablePhaseOptions(allowed)
        <==> NatToString(k) !in allowed
    ensures allowed == [] ==> AvailablePhaseOptions(allowed) == PhaseOptions()
    ensures Lists.Subsequence(AvailablePhaseOptions(allowed), PhaseOptions())
  {
    AvailableFromInOrder(PhaseOptions(), allowed);
    var o := PhaseOption("Phase " + NatToString(k), NatToString(k));
    assert PhaseOptions()[k - 1] == o;
    AvailableFromIff(PhaseOptions(), allowed, o);
    if allowed == [] {
      AvailableFromAll(PhaseOptions(), allowed);
    }
  }

  /** The allowed phases after `handleAddPhase(phaseId)`: an empty or repeated phase is ignored. */
  function AddPhase(allowed: seq<string>, phaseId: string): seq<string>
  {
    if phaseId != "" && phaseId !in allowed then allowed + [phaseId] else allowed
  }

  /** The allowed phases after `handleRemovePhase(phaseId)`. */
  function RemovePhase(allowed: seq<string>, phaseId: string): seq<string>
  {
    Lists.RemoveAll(allowed, phaseId)
  }

  /**
   * Adding a phase appends it once, so the allowed list never repeats a phase
   * and never holds an empty one; adding twice is adding once; and removing
   * a phase just added restores the list.
   */
  lemma AddPhaseFacts(allowed: seq<string>, phaseId: string)
    ensures phaseId != "" ==> phaseId in AddPhase(allowed, phaseId)
    ensures AddPhase(AddPhase(allowed, phaseId), phaseId) == AddPhase(allowed, phaseId)
    ensures Lists.NoDup(allowed) ==> Lists.NoDup(AddPhase(allowed, phaseId))
    ensures "" !in allowed ==> "" !in AddPhase(allowed, phaseId)
    ensures phaseId != "" && phaseId !in allowed ==> RemovePhase(AddPhase(allowed, phaseId), phaseId) == allowed
  {
    if Lists.NoDup(allowed) && phaseId != "" && phaseId !in allowed {
      Lists.AppendNoDup(allowed, phaseId);
    }
    if phaseId != "" && phaseId !in allowed {
      Lists.RemoveAllAppend(allowed, phaseId);
    }
  }

  /** Removing the phase at position `k` of a repetition-free list drops just that entry and keeps the order of the rest. */
  lemma RemovePhaseFacts(allowed: seq<string>, k: int)
    requires Lists.NoDup(allowed) && 0 <= k < |allowed|
    ensures RemovePhase(allowed, allowed[k]) == allowed[..k] + allowed[k + 1..]
    ensures Lists.NoDup(RemovePhase(allowed, allowed[k]))
  {
    Lists.RemoveAllAt(allowed, k);
    Lists.RemoveAllNoDup(allowed, allowed[k]);
  }

  /** The guard of `handleAddRule`: a task and at least one phase. */
  predicate CanAddPhaseWindow(task: string, allowed: seq<string>)
  {
    task != "" && |allowed| > 0
  }

  /** `allowedPhases.map((p) => parseInt(p))`. */
  function ParsePhases(h: Host, allowed: seq<string>): seq<JsNumber>
  {
    seq(|allowed|, i requires 0 <= i < |allowed| => h.parseInt(allowed[i]))
  }

  /** The rules after `handleAddRule`. */
  function AddPhaseWindow(h: Host, rules: RulesJson, task: string, allowed: seq<string>): RulesJson
  {
    if !CanAddPhaseWindow(task, allowed) then rules
    else rules.(phaseWindow := rules.phaseWindow + [PhaseWindowRule(task, ParsePhases(h, allowed))])
  }

  /** The rules after `handleRemoveRule(index)`. */
  function RemovePhaseWindow(rules: RulesJson, index: int): RulesJson
  {
    rules.(phaseWindow := Lists.RemoveIndex(rules.phaseWindow, index))
  }

  /** Every phase-window rule names a task and at least one phase. */
  predicate PhaseWindowFormed(rules: seq<PhaseWindowRule>)
  {
    forall i :: 0 <= i < |rules| ==> rules[i].task != "" && |rules[i].allowedPhases| > 0
  }

  /**
   * Adding does nothing without a task or a phase; otherwise it appends one
   * rule for the task whose phases are the picked ones parsed in picking
   * order.  Only the phase-window list changes, and it stays well formed.
   */
  lemma AddPhaseWindowFacts(h: Host, rules: RulesJson, task: string, allowed: seq<string>)
    ensures var r := AddPhaseWindow(h, rules, task, allowed);
      && (!CanAddPhaseWindow(task, allowed) ==> r == rules)
      && (CanAddPhaseWindow(task, allowed) ==>
            && |r.phaseWindow| == |rules.phaseWindow| + 1
            && r.phaseWindow[..|rules.phaseWindow|] == rules.phaseWindow
            && r.phaseWindow[|rules.phaseWindow|].task == task
            && |r.phaseWindow[|rules.phaseWindow|].allowedPhases| == |allowed|
            && (forall i :: 0 <= i < |allowed| ==>
                  r.phaseWindow[|rules.phaseWindow|].allowedPhases[i] == h.parseInt(allowed[i])))
      && r.(phaseWindow := rules.phaseWindow) == rules
      && (PhaseWindowFormed(rules.phaseWindow) ==> PhaseWindowFormed(r.phaseWindow))
  {
    var r := AddPhaseWindow(h, rules, task, allowed);
    if CanAddPhaseWindow(task, allowed) {
      assert r.phaseWindow[..|rules.phaseWindow|] == rules.phaseWindow;
    }
  }

  /**
   * When `parseInt` reads a numeral as its number, phases picked from the
   * offered options become the numbers 1 to 6 they show.
   */
  lemma PickedPhasesParse(h: Host, allowed: seq<string>)
    requires forall k :: 0 <= k < PhaseCount ==> h.parseInt(PhaseOptions()[k].value) == PhaseNumbers()[k]
    requires forall i :: 0 <= i < |allowed| ==> exists k :: 0 <= k < PhaseCount && allowed[i] == PhaseOptions()[k].value
    ensures forall i :: 0 <= i < |allowed| ==> ParsePhases(h, allowed)[i] in PhaseNumbers()
  {
    forall i | 0 <= i < |allowed| ensures ParsePhases(h, allowed)[i] in PhaseNumbers() {
      var k :| 0 <= k < PhaseCount && allowed[i] == PhaseOptions()[k].value;
      assert ParsePhases(h, allowed)[i] == PhaseNumbers()[k];
    }
  }

  /**
   * Removing drops exactly the rule at `index` and keeps the others in order
   * (an index out of range removes nothing); only the phase-window list
   * changes and it stays well formed.
   */
  lemma RemovePhaseWindowFacts(rules: RulesJson, index: int)
    ensures var r := RemovePhaseWindow(rules, index); var w := rules.phaseWindow;
      && (0 <= index < |w| ==>
            && |r.phaseWindow| == |w| - 1
            && (forall j :: 0 <= j < index ==> r.phaseWindow[j] == w[j])
            && (forall j :: index <= j < |r.phaseWindow| ==> r.phaseWindow[j] == w[j + 1]))
      && (!(0 <= index < |w|) ==> r == rules)
      && r.(phaseWindow := rules.phaseWindow) == rules
      && (PhaseWindowFormed(w) ==> PhaseWindowFormed(r.phaseWindow))
  {
    Lists.RemoveIndexSpec(rules.phaseWindow, index);
    var r := RemovePhaseWindow(rules, index);
    if PhaseWindowFormed(rules.phaseWindow) && 0 <= index < |rules.phaseWindow| {
      forall j | 0 <= j < |r.phaseWindow| ensures r.phaseWindow[j].task != "" && |r.phaseWindow[j].allowedPhases| > 0 {
        if j < index {
          assert r.phaseWindow[j] == rules.phaseWindow[j];
        } else {
          assert r.phaseWindow[j] == rules.phaseWindow[j + 1];
        }
      }
    }
  }

  /** The form's state over the shared stores. */
  class PhaseWindowForm {
    const h: Host
    const store: AppStore
    const rulesStore: RulesStore
    var selectedTask: string
    var allowedPhases: seq<string>
    var currentPhase: string

    constructor (h: Host, store: AppStore, rulesStore: RulesStore)
      ensures this.h == h && this.store == store && this.rulesStore == rulesStore
      ensures selectedTask == "" && allowedPhases == [] && currentPhase == ""
    {
      this.h := h;
      this.store := store;
      this.rulesStore := rulesStore;
      selectedTask := "";
      allowedPhases := [];
      currentPhase := "";
    }

    /** `taskOptions`: one option per task row, label and value both its `TaskID`. */
    function TaskOptions(): seq<SelectOption>
      reads this, store
    {
      IdOptions(store.uploadedFiles, Tasks, "TaskID")
    }

    /** `handleAddPhase(phaseId)`: the phase picker clears only when the phase was added. */
    method HandleAddPhase(phaseId: string)
      modifies this
      ensures allowedPhases == AddPhase(old(allowedPhases), phaseId)
      ensures currentPhase == if phaseId != "" && phaseId !in old(allowedPhases) then "" else old(currentPhase)
      ensures selectedTask == old(selectedTask)
    {
      if phaseId != "" && phaseId !in allowedPhases {
        allowedPhases := allowedPhases + [phaseId];
        currentPhase := "";
      }
    }

    /** `handleRemovePhase(phaseId)`. */
    method HandleRemovePhase(phaseId: string)
      modifies this
      ensures allowedPhases == RemovePhase(old(allowedPhases), phaseId)
      ensures selectedTask == old(selectedTask) && currentPhase == old(currentPhase)
    {
      allowedPhases := RemovePhase(allowedPhases, phaseId);
    }

    /** `handleAddRule`: after adding, the task and the phases clear; the phase picker is left as it was. */
    method HandleAddRule()
      modifies this, rulesStore
      ensures rulesStore.rules == AddPhaseWindow(h, old(rulesStore.rules), old(selectedTask), old(allowedPhases))
      ensures !CanAddPhaseWindow(old(selectedTask), old(allowedPhases)) ==>
        selectedTask == old(selectedTask) && allowedPhases == old(allowedPhases)
      ensures CanAddPhaseWindow(old(selectedTask), old(allowedPhases)) ==> selectedTask == "" && allowedPhases == []
      ensures currentPhase == old(currentPhase)
    {
      if selectedTask == "" || |allowedPhases| == 0 {
        return;
      }
      var newRule := PhaseWindowRule(selectedTask, ParsePhases(h, allowedPhases));
      rulesStore.rules := rulesStore.rules.(phaseWindow := rulesStore.rules.phaseWindow + [newRule]);
      selectedTask := "";
      allowedPhases := [];
    }

    /** `handleRemoveRule(index)`. */
    method HandleRemoveRule(index: int)
      modifies rulesStore
      ensures rulesStore.rules == RemovePhaseWindow(old(rulesStore.rules), index)
    {
      rulesStore.rules := RemovePhaseWindow(rulesStore.rules, index);
    }
  }
}
