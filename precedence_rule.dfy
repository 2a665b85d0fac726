/**
 * The precedence-override form: the identifiers it offers for every existing
 * rule, and adding and removing precedence rules between two of them.
 */
module PrecedenceRuleForm {
  import opened Js
  import opened Rules
  import Lists

  /** `` `${prefix}${i + 1}: ${rest}` ``. */
  function Identifier(prefix: string, i: nat, rest: string): string
  {
    prefix + (NatToString(i + 1) + ": " + rest)
  }

  /** The identifiers of one kind of rule, numbered from 1 in list order. */
  function KindIdentifiers(prefix: string, captions: seq<string>): seq<string>
  {
    seq(|captions|, i requires 0 <= i < |captions| => Identifier(prefix, i, captions[i]))
  }

  function CoRunCaptions(rules: seq<CoRunRule>): seq<string>
  {
    seq(|rules|, i requires 0 <= i < |rules| => Lists.JoinStrings(rules[i].tasks, ", "))
  }

  function SlotRestrictionCaptions(rules: seq<SlotRestrictionRule>): seq<string>
  {
    seq(|rules|, i requires 0 <= i < |rules| => Lists.JoinStrings(rules[i].group, ", "))
  }

  function LoadLimitCaptions(rules: seq<LoadLimitRule>): seq<string>
  {
    seq(|rules|, i requires 0 <= i < |rules| => Lists.JoinStrings(rules[i].group, ", "))
  }

  function PhaseWindowCaptions(rules: seq<PhaseWindowRule>): seq<string>
  {
    seq(|rules|, i requires 0 <= i < |rules| => rules[i].task)
  }

  const CoRunPrefix := "Co-Run #"
  const SlotRestrictionPrefix := "Slot Restriction #"
  const LoadLimitPrefix := "Load Limit #"
  const PhaseWindowPrefix := "Phase Window #"

  /** The identifiers `useRuleIdentifiers` lists: co-run, slot restriction, load limit, then phase window rules. */
  function RuleIdentifiers(rules: RulesJson): seq<string>
  {
    KindIdentifiers(CoRunPrefix, CoRunCaptions(rules.coRun))
    + KindIdentifiers(SlotRestrictionPrefix, SlotRestrictionCaptions(rules.slotRestriction))
    + KindIdentifiers(LoadLimitPrefix, LoadLimitCaptions(rules.loadLimit))
    + KindIdentifiers(PhaseWindowPrefix, PhaseWindowCaptions(rules.phaseWindow))
  }

  /** `useRuleIdentifiers`: four `forEach` loops pushing onto one list. */
  method UseRuleIdentifiers(rules: RulesJson) returns (ids: seq<string>)
    ensures ids == RuleIdentifiers(rules)
  {
    ids := [];
    var coRun := KindIdentifiers(CoRunPrefix, CoRunCaptions(rules.coRun));
    for i := 0 to |rules.coRun|
      invariant ids == coRun[..i]
    {
      Lists.PrefixStep(coRun, i);
      ids := ids + [Identifier(CoRunPrefix, i, Lists.JoinStrings(rules.coRun[i].tasks, ", "))];
    }
    assert coRun[..|coRun|] == coRun;
    var done := ids;
    var slot := KindIdentifiers(SlotRestrictionPrefix, SlotRestrictionCaptions(rules.slotRestriction));
    for i := 0 to |rules.slotRestriction|
      invariant ids == done + slot[..i]
    {
      Lists.PrefixStep(slot, i);
      ids := ids + [Identifier(SlotRestrictionPrefix, i, Lists.JoinStrings(rules.slotRestriction[i].group, ", "))];
    }
    assert slot[..|slot|] == slot;
    done := ids;
    var load := KindIdentifiers(LoadLimitPrefix, LoadLimitCaptions(rules.loadLimit));
    for i := 0 to |rules.loadLimit|
      invariant ids == done + load[..i]
    {
      Lists.PrefixStep(load, i);
      ids := ids + [Identifier(LoadLimitPrefix, i, Lists.JoinStrings(rules.loadLimit[i].group, ", "))];
    }
    assert load[..|load|] == load;
    done := ids;
    var phase := KindIdentifiers(PhaseWindowPrefix, PhaseWindowCaptions(rules.phaseWindow));
    for i := 0 to |rules.phaseWindow|
      invariant ids == done + phase[..i]
    {
      Lists.PrefixStep(phase, i);
      ids := ids + [Identifier(PhaseWindowPrefix, i, rules.phaseWindow[i].task)];
    }
    assert phase[..|phase|] == phase;
  }

  /**
   * There is one identifier per co-run, slot-restriction, load-limit and
   * phase-window rule (precedence rules and the prioritisation get none), and
   * the `i`-th rule of each kind is listed, numbered `i + 1`, after all rules
   * of the kinds before it.
   */
  lemma RuleIdentifiersLayout(rules: RulesJson)
    ensures var ids := RuleIdentifiers(rules);
      var c, s, l := |rules.coRun|, |rules.slotRestriction|, |rules.loadLimit|;
      && |ids| == c + s + l + |rules.phaseWindow|
      && (forall i :: 0 <= i < c ==>
            ids[i] == Identifier(CoRunPrefix, i, Lists.JoinStrings(rules.coRun[i].tasks, ", ")))
      && (forall i :: 0 <= i < s ==>
            ids[c + i] == Identifier(SlotRestrictionPrefix, i, Lists.JoinStrings(rules.slotRestriction[i].group, ", ")))
      && (forall i :: 0 <= i < l ==>
            ids[c + s + i] == Identifier(LoadLimitPrefix, i, Lists.JoinStrings(rules.loadLimit[i].group, ", ")))
      && (forall i :: 0 <= i < |rules.phaseWindow| ==>
            ids[c + s + l + i] == Identifier(PhaseWindowPrefix, i, rules.phaseWindow[i].task))
  {
  }

  /** Two identifiers with the same prefix are equal only if they carry the same number, whatever the captions. */
  lemma IdentifierNumberInjective(prefix: string, i: nat, j: nat, a: string, b: string)
    requires Identifier(prefix, i, a) == Identifier(prefix, j, b)
    ensures i == j
  {
    var di, dj := NatToString(i + 1), NatToString(j + 1);
    SamePrefixRest(prefix, di + ": " + a, dj + ": " + b);
    DigitsBeforeColon(di, dj, a, b);
    NatToStringInjective(i + 1, j + 1);
  }

  /** In digits followed by `": "`, the first colon comes right after the digits. */
  lemma ColonAfterDigits(d: string, x: string, k: int)
    requires forall i :: 0 <= i < |d| ==> '0' <= d[i] <= '9'
    requires 0 <= k < |d| + 2 + |x| && (d + ": " + x)[k] == ':'
    ensures k >= |d|
  {
  }

  lemma SamePrefixRest(p: string, x: string, y: string)
    requires p + x == p + y
    ensures x == y
  {
    assert x == (p + x)[|p|..];
  }

  /** Two digit strings, each followed by `": "`, that make the same text are the same digits. */
  lemma DigitsBeforeColon(di: string, dj: string, a: string, b: string)
    requires forall i :: 0 <= i < |di| ==> '0' <= di[i] <= '9'
    requires forall i :: 0 <= i < |dj| ==> '0' <= dj[i] <= '9'
    requires di + ": " + a == dj + ": " + b
    ensures di == dj
  {
    var t := di + ": " + a;
    ColonAfterDigits(dj, b, |di|);
    ColonAfterDigits(di, a, |dj|);
    assert di == t[..|di|] == dj;
  }

  /** Within one kind, the identifiers are pairwise distinct. */
  lemma KindIdentifiersNoDup(prefix: string, captions: seq<string>)
    ensures Lists.NoDup(KindIdentifiers(prefix, captions))
  {
    var ids := KindIdentifiers(prefix, captions);
    forall i, j | 0 <= i < j < |ids| ensures ids[i] != ids[j] {
      if ids[i] == ids[j] {
        IdentifierNumberInjective(prefix, i, j, captions[i], captions[j]);
      }
    }
  }

  /** Every identifier of a kind starts with the first letter of its prefix. */
  lemma KindIdentifiersStart(prefix: string, captions: seq<string>)
    requires |prefix| > 0
    ensures forall i :: 0 <= i < |KindIdentifiers(prefix, captions)| ==>
      |KindIdentifiers(prefix, captions)[i]| > 0 && KindIdentifiers(prefix, captions)[i][0] == prefix[0]
  {
  }

  /** Identifiers of two kinds whose prefixes start differently never meet. */
  lemma KindsDisjoint(p: string, a: seq<string>, q: string, b: seq<string>)
    requires |p| > 0 && |q| > 0 && p[0] != q[0]
    ensures forall i, j :: 0 <= i < |KindIdentifiers(p, a)| && 0 <= j < |KindIdentifiers(q, b)| ==>
      KindIdentifiers(p, a)[i] != KindIdentifiers(q, b)[j]
  {
    KindIdentifiersStart(p, a);
    KindIdentifiersStart(q, b);
  }

  /** The select box never offers the same identifier twice, so its entries are distinct keys. */
  lemma RuleIdentifiersNoDup(rules: RulesJson)
    ensures Lists.NoDup(RuleIdentifiers(rules))
  {
    var c := KindIdentifiers(CoRunPrefix, CoRunCaptions(rules.coRun));
    var s := KindIdentifiers(SlotRestrictionPrefix, SlotRestrictionCaptions(rules.slotRestriction));
    var l := KindIdentifiers(LoadLimitPrefix, LoadLimitCaptions(rules.loadLimit));
    var p := KindIdentifiers(PhaseWindowPrefix, PhaseWindowCaptions(rules.phaseWindow));
    KindIdentifiersNoDup(CoRunPrefix, CoRunCaptions(rules.coRun));
    KindIdentifiersNoDup(SlotRestrictionPrefix, SlotRestrictionCaptions(rules.slotRestriction));
    KindIdentifiersNoDup(LoadLimitPrefix, LoadLimitCaptions(rules.loadLimit));
    KindIdentifiersNoDup(PhaseWindowPrefix, PhaseWindowCaptions(rules.phaseWindow));
    KindsDisjoint(CoRunPrefix, CoRunCaptions(rules.coRun), SlotRestrictionPrefix, SlotRestrictionCaptions(rules.slotRestriction));
    Lists.NoDupConcat(c, s);
    KindIdentifiersStart(CoRunPrefix, CoRunCaptions(rules.coRun));
    KindIdentifiersStart(SlotRestrictionPrefix, SlotRestrictionCaptions(rules.slotRestriction));
    KindIdentifiersStart(LoadLimitPrefix, LoadLimitCaptions(rules.loadLimit));
    KindIdentifiersStart(PhaseWindowPrefix, PhaseWindowCaptions(rules.phaseWindow));
    Lists.NoDupConcat(c + s, l);
    Lists.NoDupConcat(c + s + l, p);
  }

  /** The guard of `handleAddRule`: both rules chosen and different. */
  predicate CanAddPrecedence(ruleA: string, ruleB: string)
  {
    ruleA != "" && ruleB != "" && ruleA != ruleB
  }

  /** The rules after `handleAddRule`. */
  function AddPrecedence(rules: RulesJson, ruleA: string, ruleB: string, priority: Priority): RulesJson
  {
    if !CanAddPrecedence(ruleA, ruleB) then rules
    else rules.(precedence := rules.precedence + [PrecedenceRule(ruleA, ruleB, priority)])
  }

  /** The rules after `handleRemoveRule(index)`. */
  function RemovePrecedence(rules: RulesJson, index: int): RulesJson
  {
    rules.(precedence := Lists.RemoveIndex(rules.precedence, index))
  }

  /** Every precedence rule relates two chosen, different rules. */
  predicate PrecedenceFormed(rules: seq<PrecedenceRule>)
  {
    forall i :: 0 <= i < |rules| ==> CanAddPrecedence(rules[i].ruleA, rules[i].ruleB)
  }

  /**
   * Adding does nothing when a side is unchosen or both sides are the same;
   * otherwise it appends exactly the chosen rule.  Only the precedence list
   * changes, and it stays well formed.
   */
  lemma AddPrecedenceFacts(rules: RulesJson, ruleA: string, ruleB: string, priority: Priority)
    ensures var r := AddPrecedence(rules, ruleA, ruleB, priority);
      && (!CanAddPrecedence(ruleA, ruleB) ==> r == rules)
      && (CanAddPrecedence(ruleA, ruleB) ==> r.precedence == rules.precedence + [PrecedenceRule(ruleA, ruleB, priority)])
      && r.(precedence := rules.precedence) == rules
      && (PrecedenceFormed(rules.precedence) ==> PrecedenceFormed(r.precedence))
  {
  }

  /**
   * Removing drops exactly the rule at `index`, keeping the others in order
   * (an index out of range removes nothing); only the precedence list changes
   * and it stays well formed.
   */
  lemma RemovePrecedenceFacts(rules: RulesJson, index: int)
    ensures var r := RemovePrecedence(rules, index); var old_ := rules.precedence;
      && (0 <= index < |old_| ==>
            && |r.precedence| == |old_| - 1
            && (forall j :: 0 <= j < index ==> r.precedence[j] == old_[j])
            && (forall j :: index <= j < |r.precedence| ==> r.precedence[j] == old_[j + 1]))
      && (!(0 <= index < |old_|) ==> r == rules)
      && r.(precedence := rules.precedence) == rules
      && (PrecedenceFormed(old_) ==> PrecedenceFormed(r.precedence))
  {
    Lists.RemoveIndexSpec(rules.precedence, index);
    var r := RemovePrecedence(rules, index);
    if PrecedenceFormed(rules.precedence) && 0 <= index < |rules.precedence| {
      forall j | 0 <= j < |r.precedence| ensures CanAddPrecedence(r.precedence[j].ruleA, r.precedence[j].ruleB) {
        if j < index {
          assert r.precedence[j] == rules.precedence[j];
        } else {
          assert r.precedence[j] == rules.precedence[j + 1];
        }
      }
    }
  }

  /** The form's state over the shared rules store. */
  class PrecedenceForm {
    const rulesStore: RulesStore
    var ruleA: string
    var ruleB: string
    var priority: Priority

    constructor (rulesStore: RulesStore)
      ensures this.rulesStore == rulesStore && ruleA == "" && ruleB == "" && priority == High
    {
      this.rulesStore := rulesStore;
      ruleA := "";
      ruleB := "";
      priority := High;
    }

    /** `ruleOptions`: the identifiers of the rules currently in the store. */
    method RuleOptions() returns (ids: seq<string>)
      ensures ids == RuleIdentifiers(rulesStore.rules)
    {
      ids := UseRuleIdentifiers(rulesStore.rules);
    }

    /** `handleAddRule`: after adding, both sides clear and the priority returns to high. */
    method HandleAddRule()
      modifies this, rulesStore
      ensures rulesStore.rules == AddPrecedence(old(rulesStore.rules), old(ruleA), old(ruleB), old(priority))
      ensures !CanAddPrecedence(old(ruleA), old(ruleB)) ==>
        ruleA == old(ruleA) && ruleB == old(ruleB) && priority == old(priority)
      ensures CanAddPrecedence(old(ruleA), old(ruleB)) ==> ruleA == "" && ruleB == "" && priority == High
    {
      if ruleA == "" || ruleB == "" || ruleA == ruleB {
        return;
      }
      rulesStore.rules := rulesStore.rules.(precedence := rulesStore.rules.precedence + [PrecedenceRule(ruleA, ruleB, priority)]);
      ruleA := "";
      ruleB := "";
      priority := High;
    }

    /** `handleRemoveRule(index)`. */
    method HandleRemoveRule(index: int)
      modifies rulesStore
      ensures rulesStore.rules == RemovePrecedence(old(rulesStore.rules), index)
    {
      rulesStore.rules := RemovePrecedence(rulesStore.rules, index);
    }
  }
}
