/** Tracked connections and the exact tuple they are revoked by. */
module Conntrack {
  import opened NftSpecs
  import opened PortAlgebra
  import opened RetirementPlan

  /** A tracked connection: its original destination, and the reply source that
      destination NAT gave it. */
  datatype Entry = Entry(
    family: int,
    protocol: Transport,
    mark: nat,
    client: Addr,
    clientPort: nat,
    destination: Addr,
    destinationPort: nat,
    replySource: Addr,
    replySourcePort: nat
  )

  predicate Matches(e: Entry, s: Spec) {
    && e.family == s.family
    && e.protocol == s.protocol
    && e.mark == s.mark
    && (s.listenHost.Unspecified() || e.destination == s.listenHost)
    && s.listenPort <= e.destinationPort <= s.LastPort()
    && e.replySource == s.targetHost
    && e.replySourcePort == s.targetPort + e.destinationPort - s.listenPort
  }

  /** The connection was established through this tuple. */
  predicate Carries(a: Atom, e: Entry) {
    && e.family == a.family
    && e.protocol == a.protocol
    && e.mark == a.mark
    && (a.listenHost.Unspecified() || e.destination == a.listenHost)
    && e.destinationPort == a.listenPort
    && e.replySource == a.targetHost
    && e.replySourcePort == a.targetPort
  }

  ghost predicate MatchesAny(e: Entry, specs: seq<Spec>) {
    exists s :: s in specs && Matches(e, s)
  }

  /** A scope matches exactly the connections of its tuples. */
  lemma MatchesIsCarried(e: Entry, specs: seq<Spec>)
    requires AllValid(specs)
    ensures MatchesAny(e, specs) <==> exists a :: Owns(specs, a) && Carries(a, e)
  {
    if MatchesAny(e, specs) {
      var s :| s in specs && Matches(e, s);
      var a := Atom(s.ruleId, s.family, s.protocol, s.mark, s.listenHost, s.targetHost,
                    e.destinationPort, s.targetPort + (e.destinationPort - s.listenPort));
      assert s.Has(a) && Carries(a, e);
    }
  }

  /** A connection admitted by one scope and matching another shows that both
      receive its packets. */
  lemma SharedConnectionSharesIngress(e: Entry, active: seq<Spec>, pending: seq<Spec>)
    requires AllValid(active) && MatchesAny(e, active) && MatchesAny(e, pending)
    ensures !IngressDisjoint(active, pending)
  {
    var p :| p in pending && Matches(e, p);
    MatchesIsCarried(e, active);
    var a :| Owns(active, a) && Carries(a, e);
    assert ClaimsIngress(p, a);
  }

  // ----- Isolation -----

  /** One packet may arrive for both tuples. */
  ghost predicate Meet(a: Atom, b: Atom) {
    a.family == b.family && a.protocol == b.protocol && HostsOverlap(a.listenHost, b.listenHost)
        && a.listenPort == b.listenPort
  }

  /** No two different tuples meet. Scopes may overlap, as they do after a crash. */
  ghost predicate Separate(atoms: iset<Atom>) {
    forall a, b :: a in atoms && b in atoms && Meet(a, b) ==> a == b
  }

  lemma ConflictFreeIsSeparate(specs: seq<Spec>)
    requires AllValid(specs) && ConflictFree(specs)
    ensures Separate(Atoms(specs))
  {
    forall a, b | Owns(specs, a) && Owns(specs, b) && Meet(a, b) ensures a == b {
      var s :| s in specs && s.Has(a);
      var t :| t in specs && t.Has(b);
      assert ClaimsIngress(t, a);
    }
  }

  /** Retirement isolates rules: when no two installed tuples meet, a connection of
      a kept tuple matches nothing that is revoked. */
  lemma RetirementIsolates(installed: seq<Spec>, desired: seq<Spec>, kept: Atom, e: Entry)
    requires AllValid(installed) && Separate(Atoms(installed))
    requires Owns(installed, kept) && Owns(desired, kept) && Carries(kept, e)
    ensures !MatchesAny(e, Retired(installed, desired))
  {
    var retired := Retired(installed, desired);
    RetiredIsDifference(installed, desired);
    if MatchesAny(e, retired) {
      MatchesIsCarried(e, retired);
      var b :| Owns(retired, b) && Carries(b, e);
      assert b in Atoms(retired) && kept in Atoms(desired);
      assert b in Atoms(installed) && b !in Atoms(desired);
      assert kept in Atoms(installed) && Meet(kept, b);
      assert false;
    }
  }

  /** A tuple of the history that stays open beside what retires is a desired one. */
  lemma OpenHistoryIsDesired(history: seq<Spec>, desired: seq<Spec>)
    requires AllValid(history)
    ensures Atoms(Gate(history, Retired(history, desired))) <= Atoms(desired)
  {
    var retired := Retired(history, desired);
    RetiredIsDifference(history, desired);
    GateIsOpenPart(history, retired);
    hide Gate, Retired;
    forall a | Owns(Gate(history, retired), a) ensures a in Atoms(desired) {
      forall o | o in retired ensures !o.Has(a) {
        assert !ClaimsIngress(o, a);
      }
      assert a !in Atoms(retired) && a in Atoms(history);
    }
  }

  /** Tuples of the history that are not desired meet nothing that the gate leaves. */
  lemma GatedMeetsNothing(specs: seq<Spec>, pending: seq<Spec>, a: Atom, b: Atom)
    requires Owns(pending, a) && Owns(Gate(specs, pending), b)
    ensures !Meet(a, b)
  {
    GateNeverOpens(specs, pending);
    hide Gate;
    var o :| o in pending && o.Has(a);
    assert !ClaimsIngress(o, b);
  }

  lemma SeparateUnion(before: iset<Atom>, desired: iset<Atom>, after: iset<Atom>)
    requires Separate(before) && Separate(desired) && after <= desired
    requires forall a, b :: a in before && a !in desired && b in after ==> !Meet(a, b)
    ensures Separate(before + after)
  {
  }

  lemma HeldIsGated(active: seq<Spec>, pending: seq<Spec>, suspended: seq<Spec>, desired: seq<Spec>,
                    admission: Option<Admission>, available: bool)
    ensures var history := History(active, suspended);
            Atoms(MakePlan(active, pending, suspended, desired, admission, available).suspended)
            <= Atoms(Gate(history, Retired(history, desired)))
  {
    var history := History(active, suspended);
    var kept := Gate(history, Retired(history, desired));
    if admission.Some? {
      forall s ensures s in Where(kept, admission.value, true) ==> s in kept {
        WhereMembers(kept, admission.value, true, s);
      }
    }
  }

  /** Whatever the firewall and the connection-tracking tool answer, a plan keeps
      only desired tuples, installed or suspended. */
  lemma PlanKeepsDesired(active: seq<Spec>, pending: seq<Spec>, suspended: seq<Spec>, desired: seq<Spec>,
                         admission: Option<Admission>, available: bool)
    requires AllValid(active) && AllValid(suspended) && AllValid(desired)
    ensures var plan := MakePlan(active, pending, suspended, desired, admission, available);
            Atoms(plan.next) + Atoms(plan.suspended) <= Atoms(desired)
  {
    var history := History(active, suspended);
    var open := Open(desired, admission);
    HistoryIsValid(active, suspended);
    OpenHistoryIsDesired(history, desired);
    PreviouslyAdmittedNeverOpens(open, active);
    if admission.Some? {
      forall s ensures s in open ==> s in desired { WhereMembers(desired, admission.value, false, s); }
    }
    HeldIsGated(active, pending, suspended, desired, admission, available);
  }

  /** No two tuples meet that a plan leaves installed or suspended, and none do in
      what recovery would find of it: the old lists with the staged table, or the
      staged table with the committed one. */
  lemma PlanIsSeparate(active: seq<Spec>, pending: seq<Spec>, suspended: seq<Spec>, desired: seq<Spec>,
                       admission: Option<Admission>, available: bool)
    requires AllValid(active) && AllValid(suspended) && AllValid(pending) && AllValid(desired) && ConflictFree(desired)
    ensures var plan := MakePlan(active, pending, suspended, desired, admission, available);
            var staged := Atoms(Gate(plan.next, plan.pending)) + Atoms(plan.suspended);
            && Separate(Atoms(plan.next) + Atoms(plan.suspended))
            && Separate(staged + Atoms(plan.next))
            && (Separate(Atoms(active) + Atoms(suspended)) ==> Separate(Atoms(active) + Atoms(suspended) + staged))
  {
    var history := History(active, suspended);
    var plan := MakePlan(active, pending, suspended, desired, admission, available);
    var gated, wanted := Gate(plan.next, plan.pending), Atoms(desired);
    var staged := Atoms(gated) + Atoms(plan.suspended);
    ConflictFreeIsSeparate(desired);
    PlanKeepsDesired(active, pending, suspended, desired, admission, available);
    UndesiredIsPending(active, pending, suspended, desired, admission, available);
    GateNeverOpens(plan.next, plan.pending);
    HeldIsGated(active, pending, suspended, desired, admission, available);
    HistoryIsValid(active, suspended);
    RetiredIsDifference(history, desired);
    hide Gate, MakePlan, History, Retired, ConflictFree, Meet, Where;
    if Separate(Atoms(active) + Atoms(suspended)) {
      forall a, b | a in Atoms(history) && a !in wanted && b in staged ensures !Meet(a, b) {
        if b in Atoms(gated) {
          assert a in Atoms(plan.pending);
          GatedMeetsNothing(plan.next, plan.pending, a, b);
        } else {
          assert a in Atoms(Retired(history, desired));
          GatedMeetsNothing(history, Retired(history, desired), a, b);
        }
      }
      SeparateUnion(Atoms(history), wanted, staged);
    }
  }
}
