/**
 * The AI rule assistant: it offers the ID columns as context, holds the rules
 * the assistant proposed, and on acceptance appends every non-empty proposed
 * list to the existing one and replaces the prioritisation when one is given.
 */
module RulesCreation {
  import opened Js
  import opened Store
  import opened Rules

  /** `Partial<RulesJSON>`: an absent key is `None`. */
  datatype PendingRules = PendingRules(
    coRun: Option<seq<CoRunRule>>,
    slotRestriction: Option<seq<SlotRestrictionRule>>,
    loadLimit: Option<seq<LoadLimitRule>>,
    phaseWindow: Option<seq<PhaseWindowRule>>,
    precedence: Option<seq<PrecedenceRule>>,
    prioritization: Option<Prioritization>)

  /** The ID columns sent along with the prompt. */
  datatype AvailableData = AvailableData(tasks: seq<Value>, workers: seq<Value>, clients: seq<Value>)

  /** `availableData`: each entity's ID column from its first file, `[]` without one. */
  function Available(files: seq<ParsedFile>): AvailableData
  {
    AvailableData(Column(DataOf(files, Tasks), "TaskID"),
                  Column(DataOf(files, Workers), "WorkerID"),
                  Column(DataOf(files, Clients), "ClientID"))
  }

  /** Each list is the entity's ID column in row order, and is empty when the entity has no file. */
  lemma AvailableColumns(files: seq<ParsedFile>)
    ensures var a := Available(files); var t := DataOf(files, Tasks);
      && |a.tasks| == |t| && (forall i :: 0 <= i < |t| ==> a.tasks[i] == Get(t[i], "TaskID"))
    ensures !HasFileOf(files, Tasks) ==> Available(files).tasks == []
    ensures !HasFileOf(files, Workers) ==> Available(files).workers == []
    ensures !HasFileOf(files, Clients) ==> Available(files).clients == []
  {
    if !HasFileOf(files, Tasks) { assert FindFile(files, Tasks).None?; }
    if !HasFileOf(files, Workers) { assert FindFile(files, Workers).None?; }
    if !HasFileOf(files, Clients) { assert FindFile(files, Clients).None?; }
  }

  /** `pending?.length`: the proposal holds at least one rule of this kind. */
  predicate NonEmpty<T>(pending: Option<seq<T>>)
  {
    pending.Some? && |pending.value| > 0
  }

  /** `[...current, ...pending]` when the pending list is non-empty; the current list otherwise. */
  function Merged<T>(current: seq<T>, pending: Option<seq<T>>): seq<T>
  {
    if NonEmpty(pending) then current + pending.value else current
  }

  /** The `setRules` updater of `applyChanges`. */
  function ApplyRules(rules: RulesJson, pending: PendingRules): RulesJson
  {
    RulesJson(
      Merged(rules.coRun, pending.coRun),
      Merged(rules.slotRestriction, pending.slotRestriction),
      Merged(rules.loadLimit, pending.loadLimit),
      Merged(rules.phaseWindow, pending.phaseWindow),
      Merged(rules.precedence, pending.precedence),
      if pending.prioritization.Some? then pending.prioritization else rules.prioritization)
  }

  /** Existing rules stay a prefix and exactly the proposed ones follow; an empty or absent proposal keeps the list. */
  lemma MergedKeepsPrefix<T>(current: seq<T>, pending: Option<seq<T>>)
    ensures var r := Merged(current, pending);
      && |r| >= |current| && r[..|current|] == current
      && (NonEmpty(pending) ==> r[|current|..] == pending.value)
      && (!NonEmpty(pending) ==> r == current)
  {
    var r := Merged(current, pending);
    assert r[..|current|] == current;
  }

  /** Every kind of rule list keeps its existing rules in front; the prioritisation is replaced only when one is proposed. */
  lemma ApplyRulesKeepsExisting(rules: RulesJson, pending: PendingRules)
    ensures var r := ApplyRules(rules, pending);
      && r.coRun[..|rules.coRun|] == rules.coRun
      && r.slotRestriction[..|rules.slotRestriction|] == rules.slotRestriction
      && r.loadLimit[..|rules.loadLimit|] == rules.loadLimit
      && r.phaseWindow[..|rules.phaseWindow|] == rules.phaseWindow
      && r.precedence[..|rules.precedence|] == rules.precedence
      && r.prioritization == (if pending.prioritization.Some? then pending.prioritization else rules.prioritization)
  {
    MergedKeepsPrefix(rules.coRun, pending.coRun);
    MergedKeepsPrefix(rules.slotRestriction, pending.slotRestriction);
    MergedKeepsPrefix(rules.loadLimit, pending.loadLimit);
    MergedKeepsPrefix(rules.phaseWindow, pending.phaseWindow);
    MergedKeepsPrefix(rules.precedence, pending.precedence);
  }

  /** `hasChanges`: a proposal exists and some key holds a non-empty list or a prioritisation. */
  predicate HasChanges(pending: Option<PendingRules>)
  {
    && pending.Some?
    && (|| NonEmpty(pending.value.coRun) || NonEmpty(pending.value.slotRestriction)
        || NonEmpty(pending.value.loadLimit) || NonEmpty(pending.value.phaseWindow)
        || NonEmpty(pending.value.precedence) || pending.value.prioritization.Some?)
  }

  /**
   * A proposal has changes exactly when accepting it would change the rules
   * or it carries a prioritisation (which may equal the current one).
   */
  lemma HasChangesIff(rules: RulesJson, pending: PendingRules)
    ensures HasChanges(Some(pending)) <==> ApplyRules(rules, pending) != rules || pending.prioritization.Some?
  {
    var r := ApplyRules(rules, pending);
    if NonEmpty(pending.coRun) { assert |r.coRun| > |rules.coRun|; }
    if NonEmpty(pending.slotRestriction) { assert |r.slotRestriction| > |rules.slotRestriction|; }
    if NonEmpty(pending.loadLimit) { assert |r.loadLimit| > |rules.loadLimit|; }
    if NonEmpty(pending.phaseWindow) { assert |r.phaseWindow| > |rules.phaseWindow|; }
    if NonEmpty(pending.precedence) { assert |r.precedence| > |rules.precedence|; }
  }

  /** `aiMessage + " ✅ Rules added successfully!"`; a null message concatenates as "null". */
  function RulesAddedMessage(message: Option<string>): string
  {
    (match message case None => "null" case Some(s) => s) + " ✅ Rules added successfully!"
  }

  /** The hook's state over the shared rules and upload stores. */
  class AiRulesCreation {
    const rulesStore: RulesStore
    const store: AppStore
    var aiMessage: Option<string>
    var pendingRules: Option<PendingRules>

    constructor (rulesStore: RulesStore, store: AppStore)
      ensures this.rulesStore == rulesStore && this.store == store
      ensures aiMessage == None && pendingRules == None
    {
      this.rulesStore := rulesStore;
      this.store := store;
      aiMessage := None;
      pendingRules := None;
    }

    /** `runAIModification` as a setter: returns the context sent with the prompt; the reply is an input. */
    method RunAIModification(message: string, newRules: Option<PendingRules>) returns (context: AvailableData)
      modifies this
      ensures context == Available(store.uploadedFiles)
      ensures aiMessage == Some(message) && pendingRules == newRules
    {
      aiMessage := None;
      pendingRules := None;
      context := Available(store.uploadedFiles);
      aiMessage := Some(message);
      pendingRules := newRules;
    }

    /** `applyChanges`: nothing without a proposal. */
    method ApplyChanges()
      modifies this, rulesStore
      ensures old(pendingRules).None? ==>
        rulesStore.rules == old(rulesStore.rules) && pendingRules == None && aiMessage == old(aiMessage)
      ensures old(pendingRules).Some? ==>
        && rulesStore.rules == ApplyRules(old(rulesStore.rules), old(pendingRules).value)
        && pendingRules == None
        && aiMessage == Some(RulesAddedMessage(old(aiMessage)))
    {
      if pendingRules.None? {
        return;
      }
      rulesStore.rules := ApplyRules(rulesStore.rules, pendingRules.value);
      pendingRules := None;
      aiMessage := Some(RulesAddedMessage(aiMessage));
    }

    /** `rejectChanges`: the rules are left alone. */
    method RejectChanges()
      modifies this
      ensures pendingRules == None && aiMessage == None
    {
      pendingRules := None;
      aiMessage := None;
    }
  }
}
