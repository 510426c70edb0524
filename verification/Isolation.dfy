/** Rules that no configuration change touches keep their connections. */
module Isolation {
  import opened NftSpecs
  import opened PortAlgebra
  import opened RetirementPlan
  import opened Conntrack
  import opened RulePlan

  /** Reconfiguration isolates rules, whatever was installed before, and whatever the
      firewall and the connection-tracking tool answered: once validated rules are
      installed, moving on to any other plan revokes no connection of a tuple that
      the other plan keeps. */
  lemma ReconfigurationIsolates(rules: seq<Rule>, resolved: Resolved, mark: nat, flow: bool, m: Snapshot,
                                admission: Option<Admission>, available: bool, desired: seq<Spec>, kept: Atom, e: Entry)
    requires NoConflicts(rules) && mark != 0 && (forall r :: r in rules ==> ValidRule(r)) && ValidSnapshot(m)
    requires var plan := MakePlan(m.active, m.pending, m.suspended, PlannedSpecs(rules, resolved, mark, flow),
                                  admission, available);
             Owns(History(plan.next, plan.suspended), kept)
    requires Owns(desired, kept) && Carries(kept, e)
    ensures var plan := MakePlan(m.active, m.pending, m.suspended, PlannedSpecs(rules, resolved, mark, flow),
                                 admission, available);
            !MatchesAny(e, Retired(History(plan.next, plan.suspended), desired))
  {
    var wanted := PlannedSpecs(rules, resolved, mark, flow);
    var plan := MakePlan(m.active, m.pending, m.suspended, wanted, admission, available);
    PlanIsConflictFree(rules, resolved, mark, flow);
    PlanIsSeparate(m.active, m.pending, m.suspended, wanted, admission, available);
    PlanIsValid(m.active, m.pending, m.suspended, wanted, admission, available);
    HistoryIsValid(plan.next, plan.suspended);
    hide MakePlan, History, Retired, MatchesAny, Carries, PlannedSpecs;
    RetirementIsolates(History(plan.next, plan.suspended), desired, kept, e);
  }

  /** The same when the process died between installing the staged table and
      recording it, so that the old lists and the new ones are found together. */
  lemma CrashIsolates(rules: seq<Rule>, resolved: Resolved, mark: nat, flow: bool, m: Snapshot,
                      admission: Option<Admission>,
                      available: bool, found: seq<Spec>, desired: seq<Spec>, kept: Atom, e: Entry)
    requires NoConflicts(rules) && mark != 0 && (forall r :: r in rules ==> ValidRule(r)) && ValidSnapshot(m)
    requires Separate(Atoms(m.active) + Atoms(m.suspended)) && AllValid(found)
    requires var plan := MakePlan(m.active, m.pending, m.suspended, PlannedSpecs(rules, resolved, mark, flow),
                                  admission, available);
             Atoms(found) <= Atoms(m.active) + Atoms(m.suspended)
                 + (Atoms(Gate(plan.next, plan.pending)) + Atoms(plan.suspended))
    requires Owns(found, kept) && Owns(desired, kept) && Carries(kept, e)
    ensures !MatchesAny(e, Retired(found, desired))
  {
    var wanted := PlannedSpecs(rules, resolved, mark, flow);
    PlanIsConflictFree(rules, resolved, mark, flow);
    PlanIsSeparate(m.active, m.pending, m.suspended, wanted, admission, available);
    hide MakePlan, History, Retired, MatchesAny, Carries, PlannedSpecs, Gate, Atoms;
    RetirementIsolates(found, desired, kept, e);
  }
}
