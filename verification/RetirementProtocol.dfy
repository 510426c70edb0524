/** The crash-prone retirement protocol: an old scope leaves the kernel only
    after its connections are revoked, whatever fails and wherever the process
    dies. */
module RetirementProtocol {
  import opened NftSpecs
  import opened PortAlgebra
  import opened RetirementPlan
  import opened Conntrack
  import opened NftWorld

  // ----- What recovery would import from a durable state -----

  /** Tuples recorded as draining, in the kernel journal or on disk. */
  ghost function Draining(d: Durable): iset<Atom> {
    Atoms(TableRoles(d.table).pending) + Atoms(Confirmed(d.record).pending)
  }

  /** Tuples the kernel journal or the disk record names in any role. */
  ghost function Known(d: Durable): iset<Atom> {
    AllAtoms(TableRoles(d.table)) + AllAtoms(Confirmed(d.record))
  }

  /** From one durable state to a later one of the same reconciliation: a
      draining tuple, and a known tuple that is not desired, may only be
      forgotten once its revocation was confirmed. */
  ghost predicate Keeps(from: Durable, desired: iset<Atom>, to: Durable) {
    && from.Discharged() <= to.Discharged()
    && Draining(from) <= Draining(to) + to.Discharged()
    && Known(from) - desired <= Known(to) + to.Discharged()
  }

  lemma KeepsTransitive(a: Durable, b: Durable, c: Durable, desired: iset<Atom>)
    requires Keeps(a, desired, b) && Keeps(b, desired, c)
    ensures Keeps(a, desired, c)
  {
    hide Atoms;
  }

  lemma KeepsInSameStores(from: Durable, a: Durable, b: Durable, desired: iset<Atom>)
    requires Keeps(from, desired, a)
    requires a.table == b.table && a.record == b.record && a.Discharged() == b.Discharged()
    ensures Keeps(from, desired, b)
  {
  }

  predicate SameRoles(x: Snapshot, y: Snapshot) {
    && multiset(x.active) == multiset(y.active)
    && multiset(x.pending) == multiset(y.pending)
    && multiset(x.suspended) == multiset(y.suspended)
  }

  lemma SameRolesReflexive(s: Snapshot)
    ensures SameRoles(s, s)
  {
  }

  lemma SameScopesSameAtoms(xs: seq<Spec>, ys: seq<Spec>)
    requires multiset(xs) == multiset(ys)
    ensures Atoms(xs) == Atoms(ys) && Offloaded(xs) == Offloaded(ys)
    ensures AllValid(xs) ==> AllValid(ys)
    ensures forall s :: s in xs <==> s in ys
  {
    forall s ensures s in xs <==> s in ys {
      assert s in multiset(xs) <==> s in multiset(ys);
    }
  }

  lemma SameRolesSameAtoms(x: Snapshot, y: Snapshot)
    requires SameRoles(x, y)
    ensures Atoms(x.active) == Atoms(y.active)
    ensures Atoms(x.pending) == Atoms(y.pending)
    ensures Atoms(x.suspended) == Atoms(y.suspended)
    ensures ValidSnapshot(x) ==> ValidSnapshot(y)
  {
    SameScopesSameAtoms(x.active, y.active);
    SameScopesSameAtoms(x.pending, y.pending);
    SameScopesSameAtoms(x.suspended, y.suspended);
  }

  function UsesFlowtable(specs: seq<Spec>): bool {
    exists i :: 0 <= i < |specs| && specs[i].flow
  }

  lemma SomeOfIsNoWider(xs: seq<Spec>, ys: seq<Spec>)
    requires forall s :: s in xs ==> s in ys
    ensures NoWider(xs, ys)
  {
  }

  lemma NothingIsNoWider(bound: seq<Spec>)
    ensures NoWider([], bound)
  {
  }

  /** One durable state a reconciliation may pass through: a crash there forgets
      nothing it must not, the active tuples are the old ones or within
      `widest`, and new connections come only from the table before or now. */
  ghost predicate GoodPoint(d: Durable, from: Durable, desired: iset<Atom>, widest: seq<Spec>) {
    && SoundPoint(d) && Keeps(from, desired, d)
    && d.Discharged() == from.Discharged()
    && (d.table == from.table || NoWider(TableRoles(d.table).active, widest))
    && forall e :: e in d.entries && e !in from.entries ==>
         MatchesAny(e, TableRoles(from.table).active) || MatchesAny(e, TableRoles(d.table).active)
  }

  ghost predicate GoodTrace(log: seq<Durable>, start: nat, from: Durable, desired: iset<Atom>, widest: seq<Spec>) {
    start <= |log| && forall i :: start <= i < |log| ==> GoodPoint(log[i], from, desired, widest)
  }

  lemma Widen(log: seq<Durable>, start: nat, from: Durable, desired: iset<Atom>, widest: seq<Spec>)
    requires GoodTrace(log, start, from, desired, [])
    ensures GoodTrace(log, start, from, desired, widest)
  {
    NothingIsNoWider(widest);
    hide Atoms, Offloaded, Keeps, MatchesAny;
  }

  ghost predicate Extends(before: seq<Durable>, after: seq<Durable>) {
    |before| <= |after| && after[..|before|] == before
  }

  /** A snapshot as the record stores it: one scope for each key. */
  function OnDisk(s: Snapshot): Snapshot {
    Snapshot(Unique(s.active), Unique(s.pending), Unique(s.suspended))
  }

  lemma OnDiskKeepsAtoms(s: Snapshot)
    ensures Atoms(OnDisk(s).active) == Atoms(s.active)
    ensures Atoms(OnDisk(s).pending) == Atoms(s.pending)
    ensures Atoms(OnDisk(s).suspended) == Atoms(s.suspended)
    ensures Core(OnDisk(s)) == Core(s) && AllAtoms(OnDisk(s)) == AllAtoms(s)
    ensures ValidSnapshot(s) ==> ValidSnapshot(OnDisk(s))
  {
    UniqueKeepsAtoms(s.active);
    UniqueKeepsAtoms(s.pending);
    UniqueKeepsAtoms(s.suspended);
    hide Atoms, AllValid, Unique;
  }

  /** Whatever the journal's reader accepts, the record may hold. */
  lemma JournaledIsStorable(s: Snapshot, mark: nat)
    requires Journaled(s, mark)
    ensures Storable(OnDisk(s), mark)
  {
    UniqueIsSmaller(s.active);
    UniqueIsSmaller(s.pending);
    UniqueIsSmaller(s.suspended);
    hide Unique, DistinctKeys;
  }

  lemma JournaledIsAcceptable(s: Snapshot, mark: nat)
    requires Journaled(s, mark)
    ensures AcceptableSnapshot(s, mark)
  {
  }

  lemma EmptyIsStorable(mark: nat)
    ensures Storable(EMPTY, mark)
  {
  }

  /** Writing the record of what memory owns forgets nothing but what memory
      may forget. */
  lemma KeepsThroughRecord(from: Durable, to: Durable, m: Snapshot, desired: iset<Atom>)
    requires from.table == to.table && from.Discharged() == to.Discharged()
    requires Atoms(Confirmed(from.record).pending) <= Atoms(m.pending)
    requires AllAtoms(Confirmed(from.record)) - desired <= AllAtoms(m)
    requires to.record == from.record || Confirmed(to.record) == m
    ensures Keeps(from, desired, to)
  {
    hide Atoms, Core;
    assert Draining(from) <= Draining(to);
    forall a | a in Known(from) && a !in desired ensures a in Known(to) {
      if a !in AllAtoms(TableRoles(from.table)) {
        assert a in AllAtoms(Confirmed(from.record)) - desired;
        assert a in AllAtoms(Confirmed(to.record));
      }
    }
  }

  /** A table that journals every unfinished retirement forgets nothing,
      whatever the record says. */
  lemma KeepsThroughTable(from: Durable, to: Durable, m: Snapshot, retired: iset<Atom>, desired: iset<Atom>)
    requires from.Discharged() == to.Discharged()
    requires Draining(from) <= Atoms(m.pending) && Known(from) - desired <= AllAtoms(m)
    requires Atoms(m.pending) <= retired + from.Discharged()
    requires AllAtoms(m) - desired <= retired + from.Discharged()
    requires retired <= Atoms(TableRoles(to.table).pending)
    ensures Keeps(from, desired, to)
  {
    hide Atoms;
    assert Draining(from) <= Draining(to) + to.Discharged();
    forall a | a in Known(from) && a !in desired ensures a in Known(to) || a in to.Discharged() {
      assert a in AllAtoms(m) - desired;
      if a in retired {
        assert a in AllAtoms(TableRoles(to.table));
      }
    }
  }

  /** When the intent cannot be recorded, the fallback keeps every draining
      tuple and drains every active tuple it does not re-install. */
  lemma FallbackCovers(active: seq<Spec>, pending: seq<Spec>, retired: seq<Spec>, kept: seq<Spec>)
    requires AllValid(active) && AllValid(pending) && AllValid(retired)
    ensures var all := Unique(pending + retired + Retired(active, kept));
            AllValid(all) && Atoms(all) == Atoms(pending) + Atoms(retired) + (Atoms(active) - Atoms(kept))
  {
    RetiredIsDifference(active, kept);
    UniqueKeepsAtoms(pending + retired + Retired(active, kept));
    AtomsOfConcat(pending + retired, Retired(active, kept));
    AtomsOfConcat(pending, retired);
    assert AllValid(pending + retired + Retired(active, kept));
  }

  lemma TargetIsOwned(specs: seq<Spec>, retired: seq<Spec>, held: seq<Spec>, installed: iset<Atom>)
    requires Atoms(retired) + Atoms(held) <= installed
    ensures AllAtoms(Snapshot(specs, retired, held)) <= installed + Atoms(specs)
    ensures Core(Snapshot(specs, retired, held)) == Atoms(specs) + Atoms(retired)
  {
    hide Atoms;
  }

  /** Once revocation of some tuples is confirmed, none of their connections
      exists while no installed active scope claims their ingress. */
  ghost predicate DrainedPoint(d: Durable) {
    forall a, e :: a in d.Discharged() && e in d.entries && Carries(a, e) ==>
                     exists s :: s in TableRoles(d.table).active && ClaimsIngress(s, a)
  }

  /** A durable state that a whole reconciliation may pass through. */
  ghost predicate CallPoint(d: Durable, from: Durable, desired: iset<Atom>, widest: seq<Spec>) {
    && SoundPoint(d) && Keeps(from, desired, d)
    && (d.table == from.table || NoWider(TableRoles(d.table).active, widest))
    && DrainedPoint(d)
  }

  ghost predicate CallTrace(log: seq<Durable>, start: nat, from: Durable, desired: iset<Atom>, widest: seq<Spec>) {
    start <= |log| && forall i :: start <= i < |log| ==> CallPoint(log[i], from, desired, widest)
  }

  /** The durable state a reconciliation starts from, with nothing discharged. */
  ghost function Start(d: Durable): Durable {
    d.(revoked := [])
  }

  /** A step after a confirmed drain keeps the drain, whichever table it writes. */
  lemma CommitPoint(d: Durable, staged: Durable, pending: seq<Spec>, from: Durable, desired: iset<Atom>,
                    step: seq<Spec>, widest: seq<Spec>)
    requires GoodPoint(d, staged, desired, step) && Keeps(from, desired, staged) && NoWider(step, widest)
    requires staged.table == from.table || NoWider(TableRoles(staged.table).active, widest)
    requires staged.Discharged() == Atoms(pending) && Drained(staged.entries, pending) && AllValid(pending)
    requires AllValid(TableRoles(staged.table).active) && IngressDisjoint(TableRoles(staged.table).active, pending)
    ensures CallPoint(d, from, desired, widest)
  {
    assert Keeps(from, desired, d) by {
      hide Atoms, Draining, Known;
      KeepsTransitive(from, staged, d, desired);
    }
    forall a, e | a in d.Discharged() && e in d.entries && Carries(a, e)
      ensures exists s :: s in TableRoles(d.table).active && ClaimsIngress(s, a)
    {
      assert Owns(pending, a);
      MatchesIsCarried(e, pending);
      assert MatchesAny(e, pending);
      if MatchesAny(e, TableRoles(staged.table).active) {
        SharedConnectionSharesIngress(e, TableRoles(staged.table).active, pending);
        assert false;
      }
      assert MatchesAny(e, TableRoles(d.table).active);
      var s :| s in TableRoles(d.table).active && Matches(e, s);
      assert ClaimsIngress(s, a);
    }
  }

  lemma CommitTrace(log: seq<Durable>, start: nat, staged: Durable, pending: seq<Spec>, from: Durable,
                    desired: iset<Atom>,
                    step: seq<Spec>, widest: seq<Spec>)
    requires GoodTrace(log, start, staged, desired, step) && Keeps(from, desired, staged) && NoWider(step, widest)
    requires staged.table == from.table || NoWider(TableRoles(staged.table).active, widest)
    requires staged.Discharged() == Atoms(pending) && Drained(staged.entries, pending) && AllValid(pending)
    requires AllValid(TableRoles(staged.table).active) && IngressDisjoint(TableRoles(staged.table).active, pending)
    ensures CallTrace(log, start, from, desired, widest)
  {
    forall i | start <= i < |log| ensures CallPoint(log[i], from, desired, widest) {
      CommitPoint(log[i], staged, pending, from, desired, step, widest);
    }
  }

  lemma JoinTraces(log: seq<Durable>, extended: seq<Durable>, start: nat, from: Durable, desired: iset<Atom>,
                   widest: seq<Spec>)
    requires CallTrace(log, start, from, desired, widest) && Extends(log, extended)
    requires CallTrace(extended, |log|, from, desired, widest)
    ensures CallTrace(extended, start, from, desired, widest)
  {
    hide CallPoint;
    forall i | start <= i < |extended| ensures CallPoint(extended[i], from, desired, widest) {
      if i < |log| { assert extended[i] == log[i]; }
    }
  }

  lemma UndrainedTrace(log: seq<Durable>, start: nat, from: Durable, desired: iset<Atom>, step: seq<Spec>,
                       widest: seq<Spec>)
    requires GoodTrace(log, start, from, desired, step) && NoWider(step, widest) && from.Discharged() == iset{}
    ensures CallTrace(log, start, from, desired, widest)
  {
    hide Atoms;
  }

  /** Revocation in progress changes no store and discharges nothing yet. */
  lemma StillUndrained(log: seq<Durable>, start: nat, staged: Durable, from: Durable, desired: iset<Atom>,
                       widest: seq<Spec>)
    requires CallPoint(staged, from, desired, widest) && staged.Discharged() == iset{}
    requires start <= |log| && forall i :: start <= i < |log| ==>
               log[i].table == staged.table && log[i].record == staged.record
                   && log[i].Discharged() == staged.Discharged()
    ensures CallTrace(log, start, from, desired, widest)
  {
    hide Atoms;
  }

  lemma StillUndrainedNow(staged: Durable, now: Durable, from: Durable, desired: iset<Atom>, widest: seq<Spec>)
    requires CallPoint(staged, from, desired, widest) && staged.Discharged() == iset{}
    requires now.table == staged.table && now.record == staged.record && now.Discharged() == staged.Discharged()
    ensures CallPoint(now, from, desired, widest)
  {
    StillUndrained([now], 0, staged, from, desired, widest);
    assert CallPoint([now][0], from, desired, widest);
  }

  lemma DischargePoint(staged: Durable, done: Durable, from: Durable, pending: seq<Spec>, desired: iset<Atom>,
                       widest: seq<Spec>)
    requires CallPoint(staged, from, desired, widest) && staged.Discharged() == iset{}
    requires done.table == staged.table && done.record == staged.record && done.Discharged() == Atoms(pending)
    requires Drained(done.entries, pending) && AllValid(pending)
    ensures CallPoint(done, from, desired, widest)
  {
    forall a, e | a in done.Discharged() && e in done.entries
      ensures !Carries(a, e)
    {
      if Carries(a, e) {
        assert Owns(pending, a);
        MatchesIsCarried(e, pending);
        assert false;
      }
    }
    assert Keeps(from, desired, done) by {
      hide Atoms;
    }
  }

  lemma NothingPending(active: seq<Spec>, entries: set<Entry>)
    ensures IngressDisjoint(active, []) && Drained(entries, [])
  {
  }

  lemma UndesiredIsDue(m: Snapshot, due: iset<Atom>, desired: iset<Atom>)
    requires due == Atoms(m.pending) + (Atoms(m.active) + Atoms(m.suspended) - desired)
    ensures Atoms(m.pending) + (AllAtoms(m) - desired) <= due
  {
    hide Atoms;
  }

  lemma MemoryIsOwned(m: Snapshot, due: iset<Atom>, desired: iset<Atom>, ever: iset<Atom>)
    requires due == Atoms(m.pending) + (Atoms(m.active) + Atoms(m.suspended) - desired)
    requires AllAtoms(m) <= ever
    ensures Atoms(m.pending) <= due <= ever
  {
    hide Atoms;
  }

  lemma DecidedPending(m: Snapshot, desired: seq<Spec>, admission: Option<Admission>, available: bool)
    ensures MakePlan(m.active, m.pending, m.suspended, desired, admission, available).pending
            == Unique(m.pending + Retired(History(m.active, m.suspended), desired))
  {
  }

  lemma PlanIsReady(m: Snapshot, now: Snapshot, plan: Plan, desired: iset<Atom>, ever: iset<Atom>)
    requires now == m.(pending := plan.pending)
    requires Atoms(plan.pending) == Atoms(m.pending) + (Atoms(m.active) + Atoms(m.suspended) - desired)
    requires Atoms(plan.suspended) <= Atoms(m.active) + Atoms(m.suspended)
    requires AllAtoms(m) <= ever
    ensures AllAtoms(now) - desired <= Atoms(plan.pending)
    ensures Atoms(plan.suspended) - desired <= Atoms(plan.pending)
    ensures Atoms(plan.pending) + Atoms(plan.suspended) <= ever
  {
    hide Atoms;
  }

  lemma Rebase(log: seq<Durable>, start: nat, later: Durable, from: Durable, desired: iset<Atom>, widest: seq<Spec>)
    requires CallTrace(log, start, later, desired, widest)
    requires Keeps(from, desired, later) && later.table == from.table
    ensures CallTrace(log, start, from, desired, widest)
  {
    hide Atoms, Keeps, DrainedPoint;
    forall i | start <= i < |log| ensures CallPoint(log[i], from, desired, widest) {
      KeepsTransitive(from, later, log[i], desired);
    }
  }

  /** Scopes that memory, the confirmed record or the journal call active. */
  function PriorActive(m: seq<Spec>, d: Durable): seq<Spec> {
    m + Confirmed(d.record).active + TableRoles(d.table).active
  }

  lemma PriorIgnoresRevoked(m: seq<Spec>, d: Durable, e: Durable)
    requires d.table == e.table && d.record == e.record
    ensures PriorActive(m, d) == PriorActive(m, e)
  {
  }

  /** What a call may open: what was active before, and what it is asked for, but
      nothing new while connection tracking is missing. */
  ghost function Allowed(prior: seq<Spec>, specs: seq<Spec>, degraded: bool): seq<Spec> {
    prior + if degraded && AllValid(specs) then [] else specs
  }

  lemma AllowedCovers(m: seq<Spec>, next: seq<Spec>, prior: seq<Spec>, specs: seq<Spec>, degraded: bool)
    requires NoWider(m, prior) && NoWider(next, if degraded && AllValid(specs) then m else specs)
    ensures NoWider(m, Allowed(prior, specs, degraded)) && NoWider(next, Allowed(prior, specs, degraded))
  {
    SomeOfIsNoWider(prior, Allowed(prior, specs, degraded));
    if !(degraded && AllValid(specs)) { SomeOfIsNoWider(specs, Allowed(prior, specs, degraded)); }
    hide Atoms, Offloaded, Allowed;
  }

  lemma EverythingDischarged(m: Snapshot, d: Durable, specs: iset<Atom>, desired: iset<Atom>, discharged: iset<Atom>)
    requires Atoms(m.pending) + (AllAtoms(m) - specs) <= discharged && specs <= desired
    requires Atoms(TableRoles(d.table).pending) + Atoms(Confirmed(d.record).pending) <= Atoms(m.pending)
    requires Known(d) - desired <= AllAtoms(m)
    ensures Draining(d) + (Known(d) - desired) <= discharged
  {
    hide Atoms, Known;
    assert Draining(d) <= Atoms(m.pending);
    forall a | a in Known(d) - desired ensures a in discharged {
      assert a in AllAtoms(m) - specs;
    }
  }

  lemma StartPoint(from: Durable, desired: iset<Atom>, widest: seq<Spec>)
    requires from.Discharged() == iset{} && SoundPoint(from)
    ensures CallPoint(from, from, desired, widest)
  {
    hide Atoms;
  }

  lemma NothingHappened(log: seq<Durable>, from: Durable, desired: iset<Atom>, widest: seq<Spec>)
    requires from.Discharged() == iset{} && SoundPoint(from)
    ensures CallTrace(log, |log|, from, desired, widest) && CallPoint(from, from, desired, widest)
  {
    StartPoint(from, desired, widest);
  }

  lemma SomeAtom(specs: seq<Spec>)
    requires AllValid(specs) && specs != []
    ensures Atoms(specs) != iset{}
  {
    var s := specs[0];
    assert s in specs;
    var a := Atom(s.ruleId, s.family, s.protocol, s.mark, s.listenHost, s.targetHost, s.listenPort, s.targetPort);
    assert a in Atoms(specs);
  }

  /** What the plan promises of its three lists. */
  lemma PlanFacts(m: Snapshot, desired: seq<Spec>, admission: Option<Admission>, available: bool)
    requires ValidSnapshot(m)
    ensures var plan := MakePlan(m.active, m.pending, m.suspended, desired, admission, available);
            && AllValid(plan.pending)
            && Atoms(plan.pending) == Atoms(m.pending) + (Atoms(m.active) + Atoms(m.suspended) - Atoms(desired))
            && Atoms(plan.next) <= Atoms(desired)
            && Atoms(plan.suspended) <= Atoms(m.active) + Atoms(m.suspended)
            && NoWider(plan.next, if !available && AllValid(desired) then m.active else desired)
            && (available && admission.None? ==> plan.next == desired)
  {
    UndesiredIsPending(m.active, m.pending, m.suspended, desired, admission, available);
    HistoryIsValid(m.active, m.suspended);
    var history := History(m.active, m.suspended);
    var retired := Retired(history, desired);
    GateNeverOpens(history, retired);
    var open := Open(desired, admission);
    OpenIsDesired(desired, admission);
    PreviouslyAdmittedNeverOpens(open, m.active);
    if admission.Some? {
      WhereIsPart(Gate(history, retired), admission.value, true);
    }
    if AllValid(desired) { PreviouslyAdmittedExact(open, m.active); }
  }

  lemma WhereIsPart(specs: seq<Spec>, adm: Admission, affected: bool)
    ensures forall s :: s in Where(specs, adm, affected) ==> s in specs
    ensures Atoms(Where(specs, adm, affected)) <= Atoms(specs) && NoWider(Where(specs, adm, affected), specs)
  {
    forall s ensures s in Where(specs, adm, affected) ==> s in specs { WhereMembers(specs, adm, affected, s); }
  }

  lemma OpenIsDesired(desired: seq<Spec>, admission: Option<Admission>)
    ensures Atoms(Open(desired, admission)) <= Atoms(desired) && NoWider(Open(desired, admission), desired)
    ensures AllValid(desired) ==> AllValid(Open(desired, admission))
  {
    if admission.Some? { WhereIsPart(desired, admission.value, false); }
  }

  lemma DisjointByAtoms(xs: seq<Spec>, ys: seq<Spec>, pending: seq<Spec>)
    requires Atoms(xs) == Atoms(ys) && IngressDisjoint(ys, pending)
    ensures IngressDisjoint(xs, pending)
  {
    forall a, p | Owns(xs, a) && p in pending ensures !ClaimsIngress(p, a) {
      assert a in Atoms(ys);
    }
  }

  /** What inspection says of a plan. */
  datatype Verdict = Refused | Unchanged | Changed(present: bool, names: seq<string>)

  lemma MemoryParts(m: Snapshot, ever: iset<Atom>)
    requires AllAtoms(m) <= ever
    ensures Core(m) <= ever && Atoms(m.active) <= ever
  {
    hide Atoms;
  }

  /** Recovery covers memory and both stores, and owns nothing beyond them. */
  lemma UnionCovers(memory: Snapshot, disk: Snapshot, journal: Snapshot, ever: iset<Atom>)
    requires ValidSnapshot(memory) && ValidSnapshot(disk) && ValidSnapshot(journal)
    requires AllAtoms(memory) <= ever && AllAtoms(disk) <= ever && AllAtoms(journal) <= ever
    ensures var u := Snapshot(Unique(memory.active + disk.active + journal.active),
                              Unique(memory.pending + disk.pending + journal.pending),
                              Unique(memory.suspended + disk.suspended + journal.suspended));
            && ValidSnapshot(u)
            && AllAtoms(u) <= ever
            && Atoms(u.active) == Atoms(memory.active) + Atoms(disk.active) + Atoms(journal.active)
            && NoWider(u.active, memory.active + disk.active + journal.active)
            && Atoms(journal.pending) <= Atoms(u.pending)
            && Atoms(disk.pending) <= Atoms(u.pending)
            && AllAtoms(journal) <= AllAtoms(u)
            && AllAtoms(disk) <= AllAtoms(u) && Core(disk) <= Core(u)
  {
    UnionOfThree(memory.active, disk.active, journal.active);
    UnionOfThree(memory.pending, disk.pending, journal.pending);
    UnionOfThree(memory.suspended, disk.suspended, journal.suspended);
    hide Atoms, ValidSpec, AllValid;
  }

  lemma UnionOfThree(xs: seq<Spec>, ys: seq<Spec>, zs: seq<Spec>)
    requires AllValid(xs) && AllValid(ys) && AllValid(zs)
    ensures AllValid(Unique(xs + ys + zs)) && Atoms(Unique(xs + ys + zs)) == Atoms(xs) + Atoms(ys) + Atoms(zs)
    ensures NoWider(Unique(xs + ys + zs), xs + ys + zs)
  {
    UniqueIsSmaller(xs + ys + zs);
    SomeOfIsNoWider(Unique(xs + ys + zs), xs + ys + zs);
    AtomsOfConcat(xs, ys);
    AtomsOfConcat(xs + ys, zs);
    UniqueKeepsAtoms(xs + ys + zs);
    assert forall s :: s in xs + ys + zs ==> s in xs || s in ys || s in zs;
  }

  lemma EmptyHasNoAtoms()
    ensures Atoms([]) == iset{} && Core(EMPTY) == iset{} && AllAtoms(EMPTY) == iset{}
  {
  }

  ghost predicate MarkedAtoms(atoms: iset<Atom>, mark: nat) {
    forall a :: a in atoms ==> a.mark == mark
  }

  lemma MarkByAtoms(specs: seq<Spec>, atoms: iset<Atom>, mark: nat)
    requires AllValid(specs) && Atoms(specs) <= atoms && MarkedAtoms(atoms, mark)
    ensures Acceptable(specs, mark)
  {
    forall s | s in specs ensures s.mark == mark {
      var a := Atom(s.ruleId, s.family, s.protocol, s.mark, s.listenHost, s.targetHost, s.listenPort, s.targetPort);
      assert s.Has(a) && a in Atoms(specs);
    }
  }

  lemma MarkOfAtoms(specs: seq<Spec>, mark: nat)
    requires Acceptable(specs, mark)
    ensures AllValid(specs) && MarkedAtoms(Atoms(specs), mark)
  {
  }

  /** Everything that must go before `specs` may replace what is owned. */
  function DueFor(m: Snapshot, specs: seq<Spec>): seq<Spec> {
    Unique(m.pending + Retired(History(m.active, m.suspended), specs))
  }

  /** The lists of every step of a plan fit a journal and a record. */
  predicate Fits(plan: Plan, m: Snapshot, roles: Snapshot) {
    && |m.active| + |plan.pending| + |m.suspended| <= MAX_ENTRIES && roles.Size() <= MAX_ENTRIES
    && |Gate(plan.next, plan.pending)| + |plan.pending| + |plan.suspended| <= MAX_ENTRIES
    && |plan.next| + |plan.suspended| <= MAX_ENTRIES
  }

  /** A rejection counts when it affects a scope that is asked for. */
  function Heeded(answer: Option<Admission>, specs: seq<Spec>): Option<Admission> {
    if answer.Some? && exists i :: 0 <= i < |specs| && answer.value.Affects(specs[i]) then answer else None
  }

  /** The plan for what is owned, the firewall's answer and connection tracking. */
  function PlanFor(m: Snapshot, specs: seq<Spec>, answer: Option<Admission>, available: bool): Plan {
    MakePlan(m.active, m.pending, m.suspended, specs, Heeded(answer, specs), available)
  }

  predicate Committed(plan: Plan, roles: Snapshot) {
    SameRoles(Snapshot(plan.next, [], plan.suspended), roles)
  }

  predicate Staged(plan: Plan, roles: Snapshot) {
    plan.pending != [] && SameRoles(Snapshot(Gate(plan.next, plan.pending), plan.pending, plan.suspended), roles)
  }

  /** The table holds no tuple that is not asked for, no scope that the firewall
      rejected, and nothing at an ingress that is still draining. */
  ghost predicate Safe(roles: Snapshot, specs: seq<Spec>, answer: Option<Admission>) {
    && Atoms(roles.active) <= Atoms(specs) && IngressDisjoint(roles.active, roles.pending)
    && (answer.Some? ==> forall s :: s in roles.active ==> !answer.value.Affects(s))
  }

  lemma NotHeeded(answer: Option<Admission>, specs: seq<Spec>)
    requires Heeded(answer, specs).None? && answer.Some?
    ensures Open(specs, answer) == specs && forall s :: s in specs ==> !answer.value.Affects(s)
  {
    forall s | s in specs ensures !answer.value.Affects(s) {
      var i :| 0 <= i < |specs| && specs[i] == s;
    }
    AllOpen(specs, answer.value);
  }

  lemma {:induction false} AllOpen(specs: seq<Spec>, adm: Admission)
    requires forall s :: s in specs ==> !adm.Affects(s)
    ensures Where(specs, adm, false) == specs
  {
    if specs != [] {
      AllOpen(specs[..|specs| - 1], adm);
    }
  }

  /** Whether the plan is staged or committed, the table is safe. */
  lemma PlanIsSafe(m: Snapshot, specs: seq<Spec>, answer: Option<Admission>, available: bool, roles: Snapshot)
    requires ValidSnapshot(m) && AllValid(specs)
    requires var plan := PlanFor(m, specs, answer, available); Committed(plan, roles) || Staged(plan, roles)
    ensures Safe(roles, specs, answer)
    ensures Atoms(roles.pending)
            == if Committed(PlanFor(m, specs, answer, available), roles) then iset{}
               else Atoms(PlanFor(m, specs, answer, available).pending)
  {
    var plan := PlanFor(m, specs, answer, available);
    PlanFacts(m, specs, Heeded(answer, specs), available);
    EmptyHasNoAtoms();
    var gated := Gate(plan.next, plan.pending);
    GateNeverOpens(plan.next, plan.pending);
    if answer.Some? { UnaffectedAfterAll(m, specs, answer.value, available); }
    var target := if Committed(plan, roles) then Snapshot(plan.next, [], plan.suspended)
        else Snapshot(gated, plan.pending, plan.suspended);
    SameRolesSameAtoms(target, roles);
    SameScopesSameAtoms(target.active, roles.active);
    SameScopesSameAtoms(target.pending, roles.pending);
    NothingPending(target.active, {});
    hide Atoms, Gate, MakePlan, Heeded, Open, IngressDisjoint, AllValid, SameRoles;
    SameIngress(target.active, roles.active, target.pending, roles.pending);
  }

  lemma SameIngress(xs: seq<Spec>, ys: seq<Spec>, pending: seq<Spec>, draining: seq<Spec>)
    requires (forall s :: s in xs <==> s in ys) && forall s :: s in pending <==> s in draining
    ensures IngressDisjoint(xs, pending) ==> IngressDisjoint(ys, draining)
  {
  }

  lemma UnaffectedAfterAll(m: Snapshot, specs: seq<Spec>, adm: Admission, available: bool)
    requires AllValid(specs)
    ensures var plan := PlanFor(m, specs, Some(adm), available);
            && (forall s :: s in plan.next ==> !adm.Affects(s))
            && forall s :: s in Gate(plan.next, plan.pending) ==> !adm.Affects(s)
  {
    PlanIsUnaffected(m, specs, adm, available);
    if Heeded(Some(adm), specs).None? {
      NotHeeded(Some(adm), specs);
    }
  }

  /** What is installed when the intent cannot be recorded. */
  function FallbackOf(active: seq<Spec>, pending: seq<Spec>, target: Snapshot): Snapshot {
    var specs := PreviouslyAdmitted(target.active, active);
    var retired := Unique(pending + target.pending + Retired(active, specs));
    Snapshot(specs, retired, Gate(target.suspended, retired))
  }

  class Backend {
    const world: World
    // Process memory, lost by a crash.
    var active: seq<Spec>
    var pending: seq<Spec>
    var suspended: seq<Spec>
    var initialized: bool
    var recovered: bool
    var unknownState: bool
    var fingerprint: Option<Table>
    var appliedRoles: Snapshot
    var appliedFlowtable: bool
    var appliedBinding: Option<string>
    var devices: seq<string>
    var binding: Option<string>
    var policyFamilies: set<int>
    // The open recovery session.
    var session: Option<Record>

    function Memory(): Snapshot
      reads this`active, this`pending, this`suspended
    {
      Snapshot(active, pending, suspended)
    }

    /** What holds between calls. `initialized` may only be believed when the
        table is the one last read back and memory covers it and what both stores
        name as active or draining. */
    ghost predicate Settled()
      reads this`active, this`pending, this`suspended, this`initialized, this`fingerprint, this`appliedRoles
      reads world`table, world`record
    {
      && world.Sound()
      && ValidSnapshot(Memory())
      && (Trusted() ==> Believed())
    }

    /** The table is the one last read back, and the process relies on it. */
    predicate Trusted()
      reads this`initialized, this`fingerprint, world`table
    {
      initialized && world.table.Some? && fingerprint == world.table
    }

    /** What holds during a call: memory owns nothing beyond the call's reach. */
    ghost predicate Valid()
      reads this`active, this`pending, this`suspended, this`initialized, this`fingerprint, this`appliedRoles
      reads world`table, world`record, world`revoked, world`reach, world`inherited, world`saved
      reads world`log, world`first, world`found, world`installed, world`begun, world`entries
    {
      && world.Valid()
      && ValidSnapshot(Memory())
      && AllAtoms(Memory()) <= world.installed
      && (Trusted() ==> Believed())
    }

    ghost predicate Believed()
      reads this`active, this`pending, this`suspended, this`appliedRoles, world`table, world`record
    {
      && SameRoles(TableRoles(world.table), appliedRoles)
      && AllAtoms(TableRoles(world.table)) <= AllAtoms(Memory())
      && Imported()
    }

    /** How many more intents the open session can record; none without one. */
    ghost function Room(): int
      reads this`session
    {
      if session.Some? then MAX_GENERATION - session.value.generation else 0
    }

    /** An intent has been recorded in this session. */
    ghost predicate Recorded()
      reads this`session
    {
      session.Some? && session.value.generation > 0
    }

    /** Every tuple within reach carries this instance's mark. */
    ghost predicate OneMark()
      reads world`reach
    {
      MarkedAtoms(world.reach, world.mark)
    }

    /** The reader accepts the journal, and memory would fit a journal too. */
    ghost predicate Fitting()
      reads this`active, this`pending, this`suspended, world`table
    {
      Journaled(Memory(), world.mark) && Journaled(TableRoles(world.table), world.mark)
    }

    /** Memory covers everything recovery must honour. */
    ghost predicate Imported()
      reads this`active, this`pending, this`suspended, world`table, world`record
    {
      && Atoms(TableRoles(world.table).pending) <= Atoms(pending)
      && Atoms(Confirmed(world.record).pending) <= Atoms(pending)
      && AllAtoms(TableRoles(world.table)) <= AllAtoms(Memory())
      && Core(Confirmed(world.record)) <= Core(Memory())
    }

    /** Memory covers both stores, but for what may be forgotten. */
    ghost predicate Covered(desired: iset<Atom>)
      reads this`active, this`pending, this`suspended, this`initialized, this`fingerprint, world`table, world`record
    {
      Imported() && (initialized ==> Trusted()) && AllAtoms(Confirmed(world.record)) - desired <= AllAtoms(Memory())
    }

    /** Memory covers the durable state a reconciliation started from, and the
        tuples to be retired cover whatever memory may not simply drop. */
    ghost predicate Entitled(from: Durable, retired: iset<Atom>, desired: iset<Atom>)
      reads this`active, this`pending, this`suspended
    {
      && Draining(from) <= Atoms(pending)
      && Known(from) - desired <= AllAtoms(Memory())
      && Atoms(pending) <= retired + from.Discharged()
      && AllAtoms(Memory()) - desired <= retired + from.Discharged()
    }

    /** The kernel table is still the one the reconciliation started from, and
        so is every durable state since. */
    ghost predicate AtRest(start: nat, from: Durable, desired: iset<Atom>)
      reads world`table, world`record, world`entries, world`revoked, world`log
    {
      && from.table == world.table
      && from.revoked == world.revoked
      && GoodTrace(world.log, start, from, desired, [])
      && GoodPoint(world.Now(), from, desired, [])
    }

    /** A fresh process over whatever an earlier one left behind. */
    constructor (w: World)
      requires w.Sound()
      ensures Settled() && world == w
      ensures active == [] && pending == [] && suspended == [] && !initialized && !recovered && Exposed() == iset{}
    {
      world := w;
      active, pending, suspended := [], [], [];
      initialized, recovered, unknownState := false, false, false;
      fingerprint, appliedRoles, appliedFlowtable, appliedBinding := None, EMPTY, false, None;
      devices, binding, policyFamilies, session := [], None, {}, None;
    }

    method ClearApplied()
      requires world.Valid()
      modifies this
      ensures Valid() && active == [] && pending == [] && suspended == [] && !initialized
      ensures binding == old(binding) && session == old(session) && recovered == old(recovered)
    {
      EmptyHasNoAtoms();
      hide World.Continuous;
      hide Atoms, Core, AllAtoms;
      initialized := false;
      fingerprint := None;
      appliedRoles := EMPTY;
      active, pending, suspended := [], [], [];
    }

    /** The devices a flowtable would cover; none when acceleration is off. */
    method Topology(enabled: bool) returns (ok: bool, names: seq<string>)
      modifies world`trouble
      ensures old(world.trouble) ==> world.trouble
      ensures if enabled then !world.trouble ==> ok && names != [] else ok && names == []
    {
      if !enabled { return true, []; }
      ok, names := world.Devices();
    }

    /** Establish the recovery identity and the binding expected in the kernel. */
    method Bind(kernelBinding: Option<string>) returns (ok: bool)
      modifies this`session, this`binding
      ensures old(session).Some? ==> session == old(session)
      ensures ok ==> session.Some? && binding == Some(session.value.instance)
      ensures old(session).None? || kernelBinding.None? || kernelBinding.value == old(session).value.instance ==> ok
      ensures Room() == if old(session).Some? then old(Room()) else MAX_GENERATION
      ensures ok && kernelBinding.Some? ==> binding == kernelBinding
    {
      if session.None? {
        var instance: string := *;
        if kernelBinding.Some? { instance := kernelBinding.value; }
        session := Some(Record(instance, 0, Unwritten, EMPTY, EMPTY));
      }
      if kernelBinding.Some? && kernelBinding.value != session.value.instance { return false; }
      binding := Some(session.value.instance);
      return true;
    }

    /** Record what is owned now and what is intended, before the kernel changes.
        Neither may exceed what a record can hold. */
    method PrepareRecord(intent: Snapshot) returns (result: SaveResult)
      requires Valid() && Imported()
      modifies this`session, world`entries, world`log, world`record, world`saved, world`trouble
      ensures (old(world.trouble) ==> world.trouble) && (old(world.saved) ==> world.saved)
      ensures Valid() && Imported()
      ensures world.record == old(world.record)
              || (world.record.Some? && world.record.value.confirmed == OnDisk(Memory()))
      ensures result.Saved? ==>
                world.record.Some? && world.record == session && session.value.confirmed == OnDisk(Memory())
      ensures result.Saved? ==> Recorded() && session.value.intent == OnDisk(intent) && world.saved
      ensures (&& old(Room()) >= 1 && Journaled(Memory(), world.mark) && Journaled(intent, world.mark)
               && !world.trouble) ==> result.Saved?
      ensures !Storable(OnDisk(Memory()), world.mark) || !Storable(OnDisk(intent), world.mark) ==>
                result.NotSaved? && world.record == old(world.record)
      ensures Room() >= old(Room()) - 1
      ensures world.Grown(old(world.entries))
      ensures forall i :: |old(world.log)| <= i < |world.log| ==> world.log[i] == world.Now()
      ensures |old(world.log)| <= |world.log| && world.log[..|old(world.log)|] == old(world.log)
    {
      hide Atoms, Core, AllAtoms, ValidSnapshot, MatchesAny, Storable, Journaled, SameRoles, World.Sound;
      hide World.Rewritten, World.Ledger, OnDisk;
      if session.None? || session.value.generation == MAX_GENERATION { return NotSaved; }
      var next := session.value.(generation := session.value.generation + 1, phase := Prepare,
                                 confirmed := OnDisk(Memory()), intent := OnDisk(intent));
      if Journaled(Memory(), world.mark) { JournaledIsStorable(Memory(), world.mark); }
      if Journaled(intent, world.mark) { JournaledIsStorable(intent, world.mark); }
      if !Storable(next.confirmed, world.mark) || !Storable(next.intent, world.mark) { return NotSaved; }
      OnDiskKeepsAtoms(Memory());
      hide OnDisk;
      result := world.Save(next);
      if result.Saved? { session := Some(next); }
    }

    /** Record the installed state as confirmed, if a record can hold it. */
    method CheckpointRecord(confirmed: Snapshot) returns (result: SaveResult)
      requires world.Valid() && ValidSnapshot(confirmed) && AllAtoms(confirmed) <= world.installed
      modifies this`session, world`entries, world`log, world`record, world`saved, world`trouble
      ensures (old(world.trouble) ==> world.trouble) && (old(world.saved) ==> world.saved)
      ensures world.Valid()
      ensures world.record == old(world.record)
              || (world.record.Some? && world.record.value.confirmed == OnDisk(confirmed))
      ensures result.Saved? ==> world.record.Some? && world.record.value.confirmed == OnDisk(confirmed)
      ensures result.Saved? ==>
                world.record.value.phase.Checkpoint? && world.record.value.intent == EMPTY && world.saved
      ensures old(Recorded()) && Journaled(confirmed, world.mark) && !world.trouble ==> result.Saved?
      ensures !Storable(OnDisk(confirmed), world.mark) ==> result.NotSaved? && world.record == old(world.record)
      ensures Room() == old(Room())
      ensures world.Grown(old(world.entries))
      ensures forall i :: |old(world.log)| <= i < |world.log| ==> world.log[i] == world.Now()
      ensures |old(world.log)| <= |world.log| && world.log[..|old(world.log)|] == old(world.log)
    {
      hide World.Ledger, World.Rewritten, World.Sound, SameRoles, Unique;
      hide World.Continuous;
      hide Atoms, Core, AllAtoms, ValidSnapshot, MatchesAny, Storable, Journaled;
      EmptyIsStorable(world.mark);
      if session.None? || session.value.generation == 0 { return NotSaved; }
      var next := session.value.(phase := Checkpoint, confirmed := OnDisk(confirmed), intent := EMPTY);
      if Journaled(confirmed, world.mark) { JournaledIsStorable(confirmed, world.mark); }
      if !Storable(next.confirmed, world.mark) { return NotSaved; }
      OnDiskKeepsAtoms(confirmed);
      hide OnDisk;
      result := world.Save(next);
      if result.Saved? { session := Some(next); }
    }

    /** One atomic transaction and its structured readback. A readback that fails
        and one that shows anything but the target end alike. */
    method WriteTable(target: Option<Table>, ghost retired: iset<Atom>, ghost start: nat, ghost from: Durable,
                      ghost desired: iset<Atom>, ghost widest: seq<Spec>)
      returns (applied: bool, seen: bool, observed: Option<Table>)
      requires world.Valid() && Entitled(from, retired, desired) && AtRest(start, from, desired)
      requires ValidSnapshot(TableRoles(target)) && retired <= Atoms(TableRoles(target).pending)
      requires NoWider(TableRoles(target).active, widest)
      requires AllAtoms(TableRoles(target)) <= world.installed + Atoms(TableRoles(target).active)
      requires Atoms(TableRoles(target).active) <= world.reach
      modifies world`entries, world`log, world`table, world`installed, world`trouble
      ensures old(world.trouble) ==> world.trouble
      ensures world.Valid()
      ensures world.table == target || (!applied && world.table == old(world.table))
      ensures old(world.installed) <= world.installed
      ensures seen ==> applied && observed == world.table
      ensures !world.trouble ==> seen
      ensures GoodTrace(world.log, start, from, desired, widest) && Extends(old(world.log), world.log)
      ensures GoodPoint(world.Now(), from, desired, widest)
    {
      hide World.Continuous;
      hide World.Ledger, World.Rewritten, NoWider;
      hide Atoms, Core, AllAtoms, Keeps, MatchesAny, Draining, Known, ValidSpec, AllValid, Loadable;
      Widen(world.log, start, from, desired, widest);
      Widen([world.Now()], 0, from, desired, widest);
      ghost var before := world.Now();
      applied := world.Apply(target);
      if world.table == before.table {
        KeepsInSameStores(from, before, world.Now(), desired);
      } else {
        KeepsThroughTable(from, world.Now(), Memory(), retired, desired);
      }
      if !applied { return false, false, None; }
      KeepsThroughTable(from, world.Now(), Memory(), retired, desired);
      seen, observed := world.Observe();
      KeepsThroughTable(from, world.Now(), Memory(), retired, desired);
    }

    /** Take a read-back table for what this process owns. */
    method Believe(target: Snapshot, keepFlowtable: bool, names: seq<string>, believed: bool)
      requires world.Valid() && world.table.Some? && TableRoles(world.table) == target
      requires ValidSnapshot(target) && AllAtoms(target) <= world.installed
      requires believed ==> Atoms(Confirmed(world.record).pending) <= Atoms(target.pending)
      requires believed ==> Core(Confirmed(world.record)) <= Core(target)
      modifies this`devices, this`fingerprint, this`appliedRoles, this`appliedFlowtable, this`appliedBinding
      modifies this`active, this`pending, this`suspended, this`initialized
      ensures Valid() && Memory() == target && fingerprint == world.table && appliedRoles == target
      ensures initialized == believed
    {
      hide Atoms, Core, AllAtoms, ValidSnapshot, SameRoles, World.Valid;
      SameRolesReflexive(target);
      devices, fingerprint := names, world.table;
      appliedRoles, appliedFlowtable, appliedBinding := target, keepFlowtable, binding;
      active, pending, suspended := target.active, target.pending, target.suspended;
      initialized := believed;
    }

    /** Believe a read-back table, and confirm a recorded intent. */
    method Adopt(target: Snapshot, keepFlowtable: bool, names: seq<string>, persisted: bool, ghost desired: iset<Atom>)
      returns (ok: bool)
      requires world.Valid() && world.table.Some? && TableRoles(world.table) == target
      requires ValidSnapshot(target) && AllAtoms(target) <= world.installed
      requires if persisted then world.saved else Atoms(Confirmed(world.record).pending) <= Atoms(target.pending)
      requires !persisted ==> Core(Confirmed(world.record)) <= Core(target)
      modifies this, world`entries, world`log, world`record, world`saved, world`trouble
      ensures (old(world.trouble) ==> world.trouble) && (old(world.saved) ==> world.saved)
      ensures Valid() && Memory() == target
      ensures persisted && old(Recorded()) && Journaled(target, world.mark) && !world.trouble ==> ok
      ensures Room() == old(Room())
      ensures ok ==> persisted && Covered(desired) && world.saved
      ensures world.record == old(world.record) || Confirmed(world.record) == OnDisk(target)
      ensures world.Grown(old(world.entries))
      ensures forall i :: |old(world.log)| <= i < |world.log| ==> world.log[i] == world.Now()
      ensures Extends(old(world.log), world.log)
    {
      hide Atoms, Core, AllAtoms, ValidSnapshot, MatchesAny, Journaled, Loadable, World.Valid, SameRoles, OnDisk;
      OnDiskKeepsAtoms(target);
      SameRolesReflexive(target);
      Believe(target, keepFlowtable, names, !persisted);
      if !persisted { return false; }
      var saved := CheckpointRecord(target);
      initialized := saved.Saved?;
      return saved.Saved?;
    }

    /** Install the target, believe it only after readback, and then confirm a
        recorded intent. */
    method InstallTable(specs: seq<Spec>, retired: seq<Spec>, held: seq<Spec>, keepFlowtable: bool, names: seq<string>,
                        persisted: bool, ghost start: nat, ghost from: Durable, ghost desired: iset<Atom>,
                        ghost widest: seq<Spec>)
      returns (ok: bool)
      requires Valid() && Entitled(from, Atoms(retired), desired) && AtRest(start, from, desired)
      requires AllValid(specs) && AllValid(retired) && AllValid(held) && NoWider(specs, widest)
      requires (initialized ==> Trusted())
      requires Atoms(specs) <= world.reach && Atoms(retired) + Atoms(held) <= world.installed
      requires if persisted then world.saved else Atoms(Confirmed(world.record).pending) <= Atoms(retired)
      requires !persisted ==> Core(Confirmed(world.record)) <= Atoms(specs) + Atoms(retired)
      modifies this, world`entries, world`log, world`table, world`installed, world`record, world`saved, world`trouble
      ensures (old(world.trouble) ==> world.trouble) && (old(world.saved) ==> world.saved)
      ensures old(world.installed) <= world.installed
      ensures Valid()
      ensures (&& persisted && old(Recorded()) && Journaled(Snapshot(specs, retired, held), world.mark)
               && !world.trouble) ==> ok
      ensures Room() == old(Room())
      ensures GoodTrace(world.log, start, from, desired, widest) && Extends(old(world.log), world.log)
      ensures GoodPoint(world.Now(), from, desired, widest)
      ensures ok ==> persisted && Covered(desired) && world.saved && Memory() == Snapshot(specs, retired, held)
      ensures ok ==> TableRoles(world.table) == Snapshot(specs, retired, held)
    {
      hide World.Continuous;
      hide Atoms, Core, AllAtoms, Keeps, MatchesAny, Draining, Known, ValidSpec, AllValid, Journaled, Loadable, OnDisk;
      hide World.Ledger, World.Rewritten, SameRoles, Believed, NoWider;
      ghost var memory := Memory();
      var target := Snapshot(specs, retired, held);
      TargetIsOwned(specs, retired, held, world.installed);
      var table := Table(target, binding, names, UsesFlowtable(specs) || keepFlowtable);
      var applied, seen, _ := WriteTable(Some(table), Atoms(retired), start, from, desired, widest);
      if !applied { return false; }
      initialized := false;
      if !seen { return false; }
      ok := Adopt(target, keepFlowtable, names, persisted, desired);
      KeepsThroughTable(from, world.Now(), memory, Atoms(retired), desired);
    }

    /** Delete the owned table, confirm its absence and record the empty state. */
    method RemoveTable(present: bool, persisted: bool, ghost start: nat, ghost from: Durable, ghost desired: iset<Atom>,
                       ghost widest: seq<Spec>)
      returns (ok: bool)
      requires Valid() && Entitled(from, iset{}, desired) && AtRest(start, from, desired)
      requires present == world.table.Some? && (initialized ==> Trusted())
      modifies this, world`entries, world`log, world`table, world`installed, world`record, world`saved, world`trouble
      ensures (old(world.trouble) ==> world.trouble) && (old(world.saved) ==> world.saved)
      ensures old(world.installed) <= world.installed
      ensures Valid()
      ensures persisted && old(Recorded()) && !world.trouble ==> ok
      ensures Room() == old(Room())
      ensures GoodTrace(world.log, start, from, desired, widest) && Extends(old(world.log), world.log)
      ensures GoodPoint(world.Now(), from, desired, widest)
      ensures ok ==> persisted && Covered(desired) && world.saved && Memory() == EMPTY && world.table == None
    {
      hide World.Continuous;
      hide Atoms, Core, AllAtoms, Keeps, MatchesAny, Draining, Known, Loadable, OnDisk;
      hide World.Valid, World.Ledger, SameRoles, Believed, NoWider;
      NothingIsNoWider(widest);
      EmptyHasNoAtoms();
      OnDiskKeepsAtoms(EMPTY);
      Widen(world.log, start, from, desired, widest);
      ghost var memory := Memory();
      if present {
        var applied, seen, _ := WriteTable(None, iset{}, start, from, desired, widest);
        if !applied { return false; }
        // A table that is still there is reported like a failed readback.
        if !seen { initialized := false; return false; }
      }
      ClearApplied();
      if !persisted { return false; }
      var saved := CheckpointRecord(EMPTY);
      KeepsThroughTable(from, world.Now(), memory, iset{}, desired);
      return saved.Saved?;
    }

    /** Read the kernel back and check the plan before anything is written. */
    method Inspect(target: Snapshot, keepFlowtable: bool, ghost from: Durable, ghost desired: iset<Atom>)
      returns (verdict: Verdict)
      requires Valid() && from == world.Now()
      modifies world`entries, world`log, world`trouble
      ensures old(world.trouble) ==> world.trouble
      ensures Valid() && AtRest(|old(world.log)|, from, desired) && Extends(old(world.log), world.log)
      ensures !verdict.Refused? ==> ValidSnapshot(target) && Acceptable(target.active, world.mark)
      ensures (&& AcceptableSnapshot(target, world.mark) && Journaled(TableRoles(world.table), world.mark)
               && !world.trouble) ==> !verdict.Refused?
      ensures !Journaled(TableRoles(world.table), world.mark) ==> verdict.Refused?
      ensures verdict.Unchanged? ==> initialized && SameRoles(target, TableRoles(world.table))
      ensures verdict.Changed? ==> verdict.present == world.table.Some?
    {
      hide World.Continuous;
      hide Atoms, Core, AllAtoms, MatchesAny, Draining, Known, ValidSpec, Loadable, Journaled;
      var seen, state := world.Observe();
      KeepsInSameStores(from, from, world.Now(), desired);
      if !seen { return Refused; }
      if !AcceptableSnapshot(target, world.mark) { return Refused; }
      var useFlowtable := UsesFlowtable(target.active) || keepFlowtable;
      var topologyOk, names := Topology(useFlowtable);
      if !topologyOk || (useFlowtable && names == []) { return Refused; }
      if !Journaled(TableRoles(state), world.mark) { return Refused; }
      var canRefresh := state.Some? && initialized && devices == names && fingerprint == state
          && state.value.binding == binding;
      if canRefresh && SameRoles(target, appliedRoles) && keepFlowtable == appliedFlowtable
          && binding == appliedBinding {
        return Unchanged;
      }
      return Changed(state.Some?, names);
    }

    /** Record the intent, or shrink the plan when that fails. */
    method Intend(target: Snapshot, keepFlowtable: bool, names: seq<string>,
                  ghost start: nat, ghost from: Durable, ghost desired: iset<Atom>)
      returns (ok: bool, persisted: bool, next: Snapshot, nextFlowtable: bool, nextNames: seq<string>)
      requires Valid() && Covered(desired) && ValidSnapshot(target)
      requires Entitled(from, Atoms(target.pending), desired) && AtRest(start, from, desired)
      modifies this`session, world`entries, world`log, world`record, world`saved, world`trouble
      ensures (old(world.trouble) ==> world.trouble) && (old(world.saved) ==> world.saved)
      ensures Valid() && Covered(desired) && ValidSnapshot(next)
      ensures Entitled(from, Atoms(next.pending), desired) && AtRest(start, from, desired)
      ensures Extends(old(world.log), world.log)
      ensures persisted ==> ok && next == target && Recorded() && world.saved
      ensures (&& old(Room()) >= 1 && Journaled(Memory(), world.mark) && Journaled(target, world.mark)
               && !world.trouble) ==> persisted
      ensures Room() >= old(Room()) - 1
      ensures !persisted ==> next == FallbackOf(active, pending, target)
      ensures Atoms(next.suspended) <= Atoms(target.suspended)
      ensures !persisted ==> NoWider(next.active, active) && Atoms(pending) <= Atoms(next.pending)
      ensures !persisted ==> Core(Memory()) <= Atoms(next.active) + Atoms(next.pending)
      ensures Atoms(next.pending) <= Atoms(target.pending) + Core(Memory())
      ensures Atoms(target.pending) <= Atoms(next.pending)
    {
      hide Atoms, Core, AllAtoms, Keeps, MatchesAny, Draining, Known, ValidSpec, AllValid, Journaled, Loadable;
      hide FallbackOf, Believed, Storable, OnDisk;
      hide World.Valid, World.Ledger, NoWider, SameRoles;
      ghost var before := world.Now();
      next, nextFlowtable, nextNames := target, keepFlowtable, names;
      var prepared := PrepareRecord(target);
      OnDiskKeepsAtoms(Memory());
      KeepsThroughRecord(before, world.Now(),
                         if world.record == before.record then Memory() else Confirmed(world.record), desired);
      KeepsTransitive(from, before, world.Now(), desired);
      if prepared.Saved? { return true, true, next, nextFlowtable, nextNames; }
      next := Fallback(target);
      nextFlowtable := UsesFlowtable(next.active);
      ok, nextNames := Topology(nextFlowtable);
      if |active| + |pending| + |suspended| == 0 { ok := false; }
      return ok, false, next, nextFlowtable, nextNames;
    }

    /** What is justified without a recorded intent: open nothing new, keep every
        draining tuple, and drain every active tuple that is not re-installed. */
    method Fallback(target: Snapshot) returns (next: Snapshot)
      requires ValidSnapshot(target) && ValidSnapshot(Memory())
      ensures next == FallbackOf(active, pending, target)
      ensures ValidSnapshot(next)
      ensures NoWider(next.active, active)
      ensures Atoms(next.suspended) <= Atoms(target.suspended)
      ensures Atoms(pending) + Atoms(target.pending) <= Atoms(next.pending) <= Atoms(target.pending) + Core(Memory())
      ensures Core(Memory()) <= Atoms(next.active) + Atoms(next.pending)
    {
      hide Atoms, ValidSpec, AllValid;
      var specs := PreviouslyAdmittedSpecs(target.active, active);
      var dropped := RetiredSpecs(active, specs);
      FallbackCovers(active, pending, target.pending, specs);
      var retired := UniqueSpecs(pending + target.pending + dropped);
      var held := GateReplacements(target.suspended, retired);
      next := Snapshot(specs, retired, held);
    }

    /** Bring the kernel table to the given roles. */
    method ReplaceObjects(specs: seq<Spec>, retired: seq<Spec>, keepFlowtable: bool, held: seq<Spec>,
                          ghost desired: iset<Atom>)
      returns (ok: bool, persisted: bool)
      requires Valid() && Covered(desired)
      requires Entitled(world.Now(), Atoms(retired), desired)
      requires Atoms(specs) <= world.reach && Atoms(retired) + Atoms(held) <= world.installed
      modifies this, world`entries, world`log, world`table, world`installed, world`record, world`saved, world`trouble
      ensures (old(world.trouble) ==> world.trouble) && (old(world.saved) ==> world.saved)
      ensures old(world.installed) <= world.installed
      ensures Valid()
      ensures Extends(old(world.log), world.log)
      ensures GoodTrace(world.log, |old(world.log)|, old(world.Now()), desired,
                        if persisted then specs else old(active))
      ensures GoodPoint(world.Now(), old(world.Now()), desired, if persisted then specs else old(active))
      ensures (&& old(Room()) >= 1 && old(Fitting()) && Journaled(Snapshot(specs, retired, held), world.mark)
               && !world.trouble) ==> ok
      ensures Room() >= old(Room()) - 1
      ensures ok ==> Covered(desired) && AllValid(specs) && persisted
      ensures ok ==> || (Memory() == old(Memory()) && world.table == old(world.table))
                     || (Memory() == TableRoles(world.table) == Snapshot(specs, retired, held) && world.saved)
      ensures ok ==> SameRoles(Snapshot(specs, retired, held), TableRoles(world.table))
      ensures ok ==> Atoms(TableRoles(world.table).active) == Atoms(specs)
      ensures ok ==> Atoms(TableRoles(world.table).pending) == Atoms(retired)
      ensures ok ==> Atoms(TableRoles(world.table).suspended) == Atoms(held)
    {
      SameRolesReflexive(Snapshot(specs, retired, held));
      hide World.Continuous;
      hide Atoms, Core, AllAtoms, Keeps, MatchesAny, Draining, Known, ValidSpec, AllValid, SameRoles, Journaled;
      hide Loadable, FallbackOf, Acceptable, World.Valid, UsesFlowtable, OnDisk;
      ghost var from, start := world.Now(), |world.log|;
      ghost var widest := specs;
      persisted := true;
      var target := Snapshot(specs, retired, held);
      if Journaled(target, world.mark) { JournaledIsAcceptable(target, world.mark); }
      var verdict := Inspect(target, keepFlowtable, from, desired);
      Widen(world.log, start, from, desired, widest);
      Widen([world.Now()], 0, from, desired, widest);
      if verdict.Refused? { return false, persisted; }
      if verdict.Unchanged? {
        SameRolesSameAtoms(target, TableRoles(world.table));
        return true, persisted;
      }
      var proceed, next, nextFlowtable, names;
      proceed, persisted, next, nextFlowtable, names := Intend(target, keepFlowtable, verdict.names, start, from,
                                                               desired);
      widest := if persisted then specs else active;
      Widen(world.log, start, from, desired, widest);
      Widen([world.Now()], 0, from, desired, widest);
      if !proceed { return false, persisted; }
      MemoryParts(Memory(), world.installed);
      WithinReach();
      if |next.active| + |next.pending| + |next.suspended| == 0 {
        EmptyHasNoAtoms();
        assert next.active == [] && next.pending == [] && next.suspended == [];
        ok := RemoveTable(verdict.present, persisted, start, from, desired, widest);
        return ok, persisted;
      }
      ok := InstallTable(next.active, next.pending, next.suspended, nextFlowtable, names, persisted, start, from,
                         desired, widest);
      return ok, persisted;
    }

    lemma WithinReach()
      requires Valid()
      ensures world.installed <= world.reach
    {
      hide Atoms;
    }

    /** Memory set to `u` would cover both stores. */
    ghost predicate Covering(u: Snapshot)
      reads world`table, world`record, world`installed
    {
      && ValidSnapshot(u)
      && AllAtoms(u) <= world.installed
      && Atoms(TableRoles(world.table).pending) <= Atoms(u.pending)
      && Atoms(Confirmed(world.record).pending) <= Atoms(u.pending)
      && AllAtoms(TableRoles(world.table)) <= AllAtoms(u)
      && AllAtoms(Confirmed(world.record)) <= AllAtoms(u)
      && Core(Confirmed(world.record)) <= Core(u)
    }

    /** Union process memory, the disk record's confirmed roles and the kernel
        journal; the record's intent is never read. */
    method Collect(state: Option<Table>) returns (u: Snapshot)
      requires Valid() && session == world.record && state == world.table
      requires AllAtoms(Confirmed(world.record)) <= world.installed
      ensures Covering(u)
      ensures !BelievedTable(state, session) ==> u == Owned(state, session)
      ensures NoWider(u.active, active + Confirmed(session).active + TableRoles(state).active)
    {
      hide Atoms, Core, AllAtoms, ValidSpec, AllValid, Loadable;
      var memory, disk, journal := Memory(), Confirmed(session), TableRoles(state);
      var a := UniqueSpecs(memory.active + disk.active + journal.active);
      var p := UniqueSpecs(memory.pending + disk.pending + journal.pending);
      var s := UniqueSpecs(memory.suspended + disk.suspended + journal.suspended);
      UnionCovers(memory, disk, journal, world.installed);
      u := Snapshot(a, p, s);
    }

    method Import(u: Snapshot, unknown: bool)
      requires Valid() && Covering(u)
      modifies this`active, this`pending, this`suspended, this`recovered, this`unknownState, this`initialized
      ensures Valid() && Memory() == u && recovered && !initialized
      ensures Imported() && AllAtoms(Confirmed(world.record)) <= AllAtoms(Memory())
    {
      hide Atoms, Core, AllAtoms, ValidSnapshot;
      active, pending, suspended := u.active, u.pending, u.suspended;
      recovered, unknownState, initialized := true, unknown, false;
    }

    /** What the table's scopes have meanwhile let in is covered by the union. */
    lemma Attributed(u: Snapshot, was: set<Entry>, listed: set<Entry>)
      requires world.Valid() && world.Grown(was) && listed == set e | e in world.entries && e.mark == world.mark
      ensures AllAttributed(u, was) ==>
                forall e :: e in listed ==>
                  exists i :: 0 <= i < |u.active + u.pending + u.suspended|
                      && Matches(e, (u.active + u.pending + u.suspended)[i])
    {
      var history := u.active + u.pending + u.suspended;
      if AllAttributed(u, was) {
        forall e | e in listed ensures exists i :: 0 <= i < |history| && Matches(e, history[i]) {
          if e !in was { CoveredByUnion(u, e); }
          var s :| s in history && Matches(e, s);
          var i :| 0 <= i < |history| && history[i] == s;
        }
      }
    }

    lemma CoveredByUnion(u: Snapshot, e: Entry)
      requires world.Valid() && AllValid(u.active) && Atoms(TableRoles(world.table).active) <= Atoms(u.active)
      requires MatchesAny(e, TableRoles(world.table).active)
      ensures MatchesAny(e, u.active + u.pending + u.suspended)
    {
      MatchesIsCarried(e, TableRoles(world.table).active);
      var a :| Owns(TableRoles(world.table).active, a) && Carries(a, e);
      assert a in Atoms(u.active);
      MatchesIsCarried(e, u.active);
      var s :| s in u.active && Matches(e, s);
      assert s in u.active + u.pending + u.suspended;
    }

    /** Every connection that there was belongs to the union. */
    ghost predicate AllAttributed(u: Snapshot, was: set<Entry>)
      reads world`table
    {
      && AllValid(u.active) && Atoms(TableRoles(world.table).active) <= Atoms(u.active)
      && forall e :: e in was && e.mark == world.mark ==> MatchesAny(e, u.active + u.pending + u.suspended)
    }

    /** Every connection carrying the instance mark must belong to a known scope. */
    method Attribute(u: Snapshot, ghost was: set<Entry>, ghost from: Durable, ghost desired: iset<Atom>,
                     ghost start: nat)
      returns (ok: bool)
      requires world.Valid() && AtRest(start, from, desired) && from.record == world.record && world.Grown(was)
      modifies world`entries, world`log, world`trouble
      ensures old(world.trouble) ==> world.trouble
      ensures world.Valid() && AtRest(start, from, desired) && Extends(old(world.log), world.log)
      ensures AllAttributed(u, was) && !world.trouble ==> ok
    {
      hide Atoms, Core, AllAtoms, Keeps, MatchesAny, Draining, Known, ValidSnapshot, AllAttributed;
      ghost var before := world.Now();
      var listed, entries := world.ListOwned();
      KeepsInSameStores(from, before, world.Now(), desired);
      if !listed { return false; }
      var history := u.active + u.pending + u.suspended;
      Attributed(u, was, entries);
      return forall e :: e in entries ==> exists i :: 0 <= i < |history| && Matches(e, history[i]);
    }

    /** Take over the union, or refuse when a connection cannot be attributed. */
    method Establish(u: Snapshot, ghost was: set<Entry>, ghost from: Durable, ghost desired: iset<Atom>,
                     ghost start: nat)
      returns (ok: bool, complete: bool)
      requires Valid() && Covering(u) && AtRest(start, from, desired) && from.record == world.record && world.Grown(was)
      modifies this`active, this`pending, this`suspended, this`recovered, this`unknownState, this`initialized
      modifies world`entries, world`log, world`trouble, world`probes
      ensures (old(world.trouble) ==> world.trouble) && old(world.probes) <= world.probes
      ensures Valid() && AtRest(start, from, desired) && Extends(old(world.log), world.log)
      ensures ok ==> Covered(desired) && Memory() == u && recovered && !initialized
      ensures AllAttributed(u, was) && !world.trouble ==> ok
    {
      hide Atoms, Core, AllAtoms, Keeps, MatchesAny, Draining, Known, ValidSnapshot, Imported, AllAttributed;
      complete := true;
      var available := world.Available();
      if available {
        ok := Attribute(u, was, from, desired, start);
        if !ok { return false, true; }
      } else if |u.active| + |u.pending| + |u.suspended| == 0 {
        var provedEmpty := world.Check();
        if !provedEmpty { return false, true; }
      } else {
        complete := false;
      }
      Import(u, !complete);
      return true, complete;
    }

    /** The table is the one last read back and the record is the bound one. */
    predicate BelievedTable(state: Option<Table>, record: Option<Record>)
      reads this`recovered, this`initialized, this`fingerprint, this`binding
    {
      recovered && initialized && state.Some? && state == fingerprint && record.Some?
          && binding == Some(record.value.instance)
    }

    /** What recovery finds this instance to own: what it already believes, or the
        union of memory, the confirmed record and the journal, list by list. */
    function Owned(state: Option<Table>, record: Option<Record>): Snapshot
      reads this`active, this`pending, this`suspended, this`recovered, this`initialized, this`fingerprint, this`binding
    {
      if BelievedTable(state, record) then Memory()
      else
        Snapshot(Unique(active + Confirmed(record).active + TableRoles(state).active),
                 Unique(pending + Confirmed(record).pending + TableRoles(state).pending),
                 Unique(suspended + Confirmed(record).suspended + TableRoles(state).suspended))
    }

    /** Nothing stands in the way of recovery: the journal is one its reader accepts
        and names the same instance as the record, the union fits a journal, and
        every connection with this instance's mark belongs to a scope of the
        union. */
    ghost predicate Recoverable()
      reads this`active, this`pending, this`suspended, this`recovered, this`initialized, this`fingerprint
      reads this`binding, world`table, world`record, world`entries
    {
      var u := Owned(world.table, world.record);
      || BelievedTable(world.table, world.record)
      || (&& Bound(world.table, world.record)
          && |u.active| + |u.pending| + |u.suspended| <= MAX_ENTRIES
          && Journaled(TableRoles(world.table), world.mark)
          && forall e :: e in world.entries && e.mark == world.mark ==>
               MatchesAny(e, u.active + u.pending + u.suspended))
    }

    /** Establish what this process owns, or refuse to go on. */
    method RecoverKernelState(ghost from: Durable, ghost desired: iset<Atom>) returns (ok: bool)
      requires Valid() && session == world.record && from == world.Now() && Exposed() <= desired
      requires !BelievedTable(world.table, world.record) ==> AllAtoms(Confirmed(world.record)) <= world.installed
      modifies this, world`entries, world`log, world`trouble, world`probes
      ensures (old(world.trouble) ==> world.trouble) && old(world.probes) <= world.probes
      ensures Valid() && AtRest(|old(world.log)|, from, desired) && Extends(old(world.log), world.log)
      ensures ok ==> Covered(desired) && recovered && session.Some? && Memory() == old(Owned(world.table, session))
      ensures ok ==> Room() == if old(session).Some? then old(Room()) else MAX_GENERATION
      ensures old(Recoverable()) && !world.trouble ==> ok
      ensures ok ==> NoWider(active, old(PriorActive(active, from)))
    {
      hide World.Continuous;
      hide Atoms, Core, AllAtoms, Keeps, MatchesAny, Draining, Known, ValidSnapshot, SameRoles, Journaled, Loadable;
      ghost var start, was := |world.log|, world.entries;
      ghost var easy := Recoverable() && !BelievedTable(world.table, session);
      ghost var owned := Owned(world.table, session);
      if easy { OwnedIsCovered(); }
      var seen, state := world.Observe();
      KeepsInSameStores(from, from, world.Now(), desired);
      if !seen { return false; }
      SomeOfIsNoWider(active, PriorActive(active, from));
      if BelievedTable(state, session) { return true; }
      hide Owned, Recoverable, AllAttributed, Imported, Exposed;
      ok := Rediscover(state, owned, was, from, desired, start);
    }

    /** Tuples that only the record lists, while the table and the process memory
        are believed without reading it. */
    ghost function Exposed(): iset<Atom>
      reads this`active, this`pending, this`suspended, this`recovered, this`initialized, this`fingerprint
      reads this`binding, world`table, world`record
    {
      if BelievedTable(world.table, world.record) then AllAtoms(Confirmed(world.record)) - AllAtoms(Memory())
          else iset{}
    }

    /** Nothing is exposed, or exactly what the record lists beyond a memory that
        covers the table and what the record calls active or draining. */
    lemma ExposedIsBeyond()
      requires Settled()
      ensures || Exposed() == iset{}
              || (&& Exposed() == AllAtoms(Confirmed(world.record)) - AllAtoms(Memory())
                  && AllAtoms(TableRoles(world.table)) + Core(Confirmed(world.record)) <= AllAtoms(Memory()))
    {
      hide Atoms, ValidSnapshot, SameRoles;
    }

    /** Everything this process finds it owns when a call starts. */
    ghost function Found(): iset<Atom>
      reads this`active, this`pending, this`suspended, this`recovered, this`initialized, this`fingerprint
      reads this`binding, world`table, world`record
    {
      if BelievedTable(world.table, world.record) then AllAtoms(Memory())
      else AllAtoms(Memory()) + AllAtoms(TableRoles(world.table)) + AllAtoms(Confirmed(world.record))
    }

    /** Read what the stores say and take it over. */
    method Rediscover(state: Option<Table>, ghost owned: Snapshot, ghost was: set<Entry>, ghost from: Durable,
                      ghost desired: iset<Atom>,
                      ghost start: nat) returns (ok: bool)
      requires Valid() && session == world.record && state == world.table && !BelievedTable(state, session)
      requires owned == Owned(state, session) && AllAtoms(Confirmed(world.record)) <= world.installed
      requires AtRest(start, from, desired) && from.record == world.record && world.Grown(was)
      modifies this, world`entries, world`log, world`trouble, world`probes
      ensures (old(world.trouble) ==> world.trouble) && old(world.probes) <= world.probes
      ensures Valid() && AtRest(start, from, desired) && Extends(old(world.log), world.log)
      ensures ok ==> Covered(desired) && recovered && session.Some? && Memory() == owned
      ensures ok ==> Room() == if old(session).Some? then old(Room()) else MAX_GENERATION
      ensures (Bound(state, old(session)) && |owned.active| + |owned.pending| + |owned.suspended| <= MAX_ENTRIES
               && Journaled(TableRoles(state), world.mark)
               && old(AllAttributed(owned, was)) && !world.trouble) ==> ok
      ensures ok ==> NoWider(active, old(PriorActive(active, from)))
    {
      hide World.Continuous;
      hide Atoms, Core, AllAtoms, Keeps, MatchesAny, Draining, Known, ValidSnapshot, SameRoles, Imported;
      hide AllAttributed, Believed, Journaled, Loadable, World.Valid;
      if !Journaled(TableRoles(state), world.mark) { return false; }
      var u := Collect(state);
      hide Owned, Covering;
      var bound := Bind(if state.Some? then state.value.binding else None);
      if !bound || |u.active| + |u.pending| + |u.suspended| > MAX_ENTRIES { return false; }
      var complete;
      ok, complete := Establish(u, was, from, desired, start);
      if ok && complete { AdoptRecovered(state, desired); }
    }

    /** The journal and the record name the same instance. */
    predicate Bound(state: Option<Table>, record: Option<Record>) {
      state.Some? && state.value.binding.Some? && record.Some? ==> state.value.binding.value == record.value.instance
    }

    lemma OwnedIsCovered()
      requires Valid() && Recoverable() && !BelievedTable(world.table, world.record)
      requires AllAtoms(Confirmed(world.record)) <= world.installed
      ensures Journaled(TableRoles(world.table), world.mark)
      ensures var u := Owned(world.table, world.record);
              && |u.active| + |u.pending| + |u.suspended| <= MAX_ENTRIES
              && AllAttributed(u, world.entries) && Bound(world.table, world.record)
    {
      var u := Owned(world.table, world.record);
      UnionCovers(Memory(), Confirmed(world.record), TableRoles(world.table), world.installed);
      hide Atoms, Core, AllAtoms, ValidSpec, MatchesAny;
      RecoverableParts(u);
    }

    /** Recoverable says that binding, size and attribution will pass. */
    lemma RecoverableParts(u: Snapshot)
      requires Recoverable() && !BelievedTable(world.table, world.record) && u == Owned(world.table, world.record)
      requires ValidSnapshot(u) && Atoms(TableRoles(world.table).active) <= Atoms(u.active)
      ensures |u.active| + |u.pending| + |u.suspended| <= MAX_ENTRIES
      ensures Bound(world.table, world.record) && AllAttributed(u, world.entries)
      ensures Journaled(TableRoles(world.table), world.mark)
    {
      hide Atoms, MatchesAny, Owned, Journaled;
    }

    method BelieveRecovered(state: Option<Table>, names: seq<string>)
      requires Valid() && Imported() && AllAtoms(TableRoles(world.table)) <= AllAtoms(Memory())
      requires state.Some? && state == world.table && SameRoles(TableRoles(state), Memory())
      modifies this`initialized, this`fingerprint, this`devices, this`appliedRoles, this`appliedFlowtable
      modifies this`appliedBinding
      ensures Valid() && initialized && Trusted()
    {
      hide Atoms, Core, AllAtoms, ValidSnapshot, SameRoles, World.Valid, Imported;
      initialized, fingerprint, devices := true, state, names;
      appliedRoles, appliedFlowtable, appliedBinding := Memory(), state.value.flowtable, binding;
    }

    lemma CoveredIsImported(desired: iset<Atom>)
      requires Covered(desired)
      ensures Imported() && AllAtoms(TableRoles(world.table)) <= AllAtoms(Memory())
    {
    }

    /** A restart adopts a table that agrees with a durable checkpoint. */
    method AdoptRecovered(state: Option<Table>, ghost desired: iset<Atom>)
      requires Valid() && Covered(desired) && !initialized && state == world.table
      modifies this`initialized, this`fingerprint, this`devices, this`appliedRoles, this`appliedFlowtable,
               this`appliedBinding, this`policyFamilies, world`trouble
      ensures old(world.trouble) ==> world.trouble
      ensures Valid() && Covered(desired)
      ensures initialized ==>
                session.Some? && session.value.phase.Checkpoint? && SameRoles(session.value.confirmed, Memory())
      ensures initialized ==> state.Some? && SameRoles(TableRoles(state), Memory()) && state.value.binding == binding
    {
      hide Atoms, Core, AllAtoms, MatchesAny, ValidSpec, AllValid, ValidSnapshot, Unique, SameRoles, World.Valid;
      hide Imported, Believed;
      CoveredIsImported(desired);
      if state.None? || session.None? { return; }
      if !(session.value.phase.Checkpoint? && SameRoles(session.value.confirmed, Memory())) { return; }
      var known, names := Topology(state.value.flowtable);
      if !(known && SameRoles(TableRoles(state), Memory()) && state.value.devices == names
           && state.value.binding == binding) { return; }
      BelieveRecovered(state, names);
      policyFamilies := policyFamilies + (set i | 0 <= i < |suspended| :: suspended[i].family);
    }

    /** What the new plan retires, computed before any safety gate. */
    method DueRetirement(specs: seq<Spec>) returns (history: seq<Spec>, retired: seq<Spec>, due: seq<Spec>)
      requires Valid()
      ensures history == History(active, suspended) && retired == Retired(history, specs)
      ensures due == Unique(pending + retired) && AllValid(due)
      ensures Atoms(due) == Atoms(pending) + (Atoms(active) + Atoms(suspended) - Atoms(specs))
    {
      PlanFacts(Memory(), specs, None, true);
      history := UniqueSpecs(active + suspended);
      retired := RetiredSpecs(history, specs);
      due := UniqueSpecs(pending + retired);
    }

    /** Everything that must go, once memory is recovered. */
    function Due(specs: seq<Spec>): seq<Spec>
      reads this`active, this`pending, this`suspended
    {
      DueFor(Memory(), specs)
    }

    method Decide(specs: seq<Spec>, history: seq<Spec>, retired: seq<Spec>, due: seq<Spec>,
                  admission: Option<Admission>, available: bool)
      returns (plan: Plan)
      requires Valid() && history == History(active, suspended) && retired == Retired(history, specs)
      requires due == Unique(pending + retired)
      ensures plan == MakePlan(active, pending, suspended, specs, admission, available)
    {
      var next, held := specs, [];
      if admission.Some? {
        next := FilterAffected(specs, admission.value, false);
        var retained := GateReplacements(history, retired);
        held := FilterAffected(retained, admission.value, true);
      }
      if !available {
        next := PreviouslyAdmittedSpecs(next, active);
      }
      plan := Plan(next, due, held);
    }

    /** The firewall's answer for a plan that uses acceleration. */
    method CheckAdmission(specs: seq<Spec>) returns (readable: bool, admission: Option<Admission>)
      modifies world`trouble, world`answer, world`consulted
      ensures old(world.trouble) ==> world.trouble
      ensures !world.trouble ==> readable
      ensures readable ==> admission == Heeded(world.answer, specs) && (UsesFlowtable(specs) ==> world.consulted)
    {
      if !UsesFlowtable(specs) {
        assert forall adm: Admission, i :: 0 <= i < |specs| ==> !adm.Affects(specs[i]);
        return true, None;
      }
      readable, admission := world.Firewall();
      if admission.Some? && !exists i :: 0 <= i < |specs| && admission.value.Affects(specs[i]) {
        admission := None;
      }
    }

    /** A rejection of more than was gated before forces a rebuild, so that
        cached acceleration is evicted. */
    method EvictAcceleration(specs: seq<Spec>, adm: Admission, ghost desired: iset<Atom>)
      requires Valid() && Covered(desired)
      modifies this`initialized
      ensures Valid() && Covered(desired) && (initialized ==> old(initialized))
      ensures initialized <==> old(initialized) && adm.families <= policyFamilies
                               && forall s :: s in Gate(active, Retired(active, specs)) ==> !adm.Affects(s)
    {
      hide World.Continuous;
      hide Atoms, AllAtoms, ValidSnapshot, Believed, Gate, Retired;
      if !(adm.families <= policyFamilies) { initialized := false; }
      var gone := RetiredSpecs(active, specs);
      var kept := GateReplacements(active, gone);
      if i :| 0 <= i < |kept| && adm.Affects(kept[i]) {
        assert kept[i] in kept;
        initialized := false;
      }
    }

    /** Memory is ready for a plan: it covers both stores, and whatever it holds
        that is not desired is due for retirement. */
    ghost predicate Ready(plan: Plan, desired: iset<Atom>)
      reads this`active, this`pending, this`suspended, this`initialized, this`fingerprint, this`appliedRoles
      reads world`table, world`record, world`revoked, world`reach, world`inherited, world`saved
      reads world`log, world`first, world`found, world`installed, world`begun, world`entries
    {
      && Valid() && Covered(desired)
      && AllValid(plan.pending)
      && Atoms(pending) <= Atoms(plan.pending)
      && AllAtoms(Memory()) - desired <= Atoms(plan.pending)
      && Atoms(plan.suspended) - desired <= Atoms(plan.pending)
      && Atoms(plan.pending) + Atoms(plan.suspended) <= world.installed
    }

    /** A plan that nothing stands in the way of: every scope is one this instance
        may install, and every list is small enough at every step. */
    ghost predicate Clean(plan: Plan)
      reads this`active, this`pending, this`suspended, world`reach, world`table
    {
      OneMark() && CleanFor(plan, Memory(), TableRoles(world.table))
    }

    ghost predicate CleanFor(plan: Plan, m: Snapshot, roles: Snapshot) {
      && Acceptable(plan.next, world.mark) && Acceptable(plan.suspended, world.mark)
      && m.Size() <= MAX_ENTRIES && roles.Size() <= MAX_ENTRIES
      && |Gate(plan.next, plan.pending)| + |plan.pending| + |plan.suspended| <= MAX_ENTRIES
      && |plan.next| + |plan.suspended| <= MAX_ENTRIES
    }

    lemma StagedIsClean(plan: Plan, m: Snapshot, roles: Snapshot)
      requires CleanFor(plan, m, roles)
      ensures var staged := Snapshot(Gate(plan.next, plan.pending), plan.pending, plan.suspended);
              CleanFor(plan, staged, staged) && CleanFor(plan, staged, roles)
    {
      hide Gate, Acceptable;
    }

    /** What is within reach is acceptable to every check, when it fits. */
    lemma ReachIsAcceptable(s: Snapshot)
      requires OneMark() && ValidSnapshot(s) && AllAtoms(s) <= world.reach
      ensures AcceptableSnapshot(s, world.mark)
    {
      assert Atoms(s.active) <= world.reach && Atoms(s.pending) <= world.reach && Atoms(s.suspended) <= world.reach by {
        hide Atoms;
      }
      MarkByAtoms(s.active, world.reach, world.mark);
      MarkByAtoms(s.pending, world.reach, world.mark);
      MarkByAtoms(s.suspended, world.reach, world.mark);
    }

    lemma CleanIsFitting(plan: Plan)
      requires Clean(plan) && Valid()
      ensures Fitting()
    {
      hide Atoms, Core, AllAtoms, ValidSnapshot, Loadable, Gate, AcceptableSnapshot, OneMark;
      ReachIsAcceptable(Memory());
      ReachIsAcceptable(TableRoles(world.table));
    }

    lemma StagedIsAcceptable(plan: Plan, desired: iset<Atom>)
      requires Clean(plan) && Ready(plan, desired)
      ensures Journaled(Snapshot(Gate(plan.next, plan.pending), plan.pending, plan.suspended), world.mark)
    {
      MarkOfAtoms(plan.next, world.mark);
      GateIsOpenPart(plan.next, plan.pending);
      MarkByAtoms(Gate(plan.next, plan.pending), Atoms(plan.next), world.mark);
      assert Atoms(plan.pending) <= world.reach by { hide Atoms; }
      MarkByAtoms(plan.pending, world.reach, world.mark);
      hide Atoms, AllValid, Gate, MarkedAtoms, Ready;
    }

    lemma CommittedIsAcceptable(plan: Plan)
      requires Clean(plan)
      ensures Journaled(Snapshot(plan.next, [], plan.suspended), world.mark)
    {
      hide Gate, MarkedAtoms;
    }

    lemma StagedMemory(gated: seq<Spec>, plan: Plan, desired: iset<Atom>)
      requires Valid() && Covered(desired) && AllValid(plan.pending)
      requires Atoms(gated) <= desired
      requires Atoms(plan.suspended) - desired <= Atoms(plan.pending)
      requires Atoms(plan.pending) + Atoms(plan.suspended) <= world.installed
      requires || Memory() == Snapshot(gated, plan.pending, plan.suspended)
               || (Atoms(pending) <= Atoms(plan.pending) && AllAtoms(Memory()) - desired <= Atoms(plan.pending))
      ensures Ready(plan, desired)
    {
      hide Atoms, AllValid, ValidSnapshot;
    }

    lemma ReadyIsEntitled(plan: Plan, desired: iset<Atom>)
      requires Ready(plan, desired)
      ensures Entitled(world.Now(), Atoms(plan.pending), desired)
    {
      hide Atoms, AllValid, ValidSnapshot;
    }

    /** Install the gated plan beside the retirement journal. */
    method InstallGated(plan: Plan, keepFlowtable: bool, ghost desired: iset<Atom>, ghost widest: seq<Spec>)
      returns (ok: bool)
      requires Ready(plan, desired) && Atoms(plan.next) <= desired && world.revoked == []
      requires NoWider(active, widest) && NoWider(plan.next, widest) && Atoms(plan.next) <= world.reach
      modifies this, world`entries, world`log, world`table, world`installed, world`record, world`saved, world`trouble
      ensures (old(world.trouble) ==> world.trouble) && (old(world.saved) ==> world.saved)
      ensures old(world.installed) <= world.installed
      ensures Valid() && Extends(old(world.log), world.log)
      ensures CallTrace(world.log, |old(world.log)|, old(world.Now()), desired, widest)
      ensures CallPoint(world.Now(), old(world.Now()), desired, widest)
      ensures old(Room()) >= 1 && old(Clean(plan)) && !world.trouble ==> ok
      ensures Room() >= old(Room()) - 1
      ensures ok ==> Ready(plan, desired) && (old(Clean(plan)) ==> Clean(plan))
      ensures ok ==> world.saved || world.table == old(world.table)
      ensures ok ==> IngressDisjoint(TableRoles(world.table).active, plan.pending)
      ensures ok ==> Atoms(TableRoles(world.table).pending) == Atoms(plan.pending)
      ensures ok && plan.pending != [] ==> Staged(plan, TableRoles(world.table))
      ensures ok ==> NoWider(active, widest)
    {
      hide Atoms, Core, AllAtoms, Keeps, MatchesAny, Draining, Known, AllValid, IngressDisjoint, DrainedPoint;
      hide SameRoles, ValidSnapshot, Gate;
      hide SoundPoint, World.Valid, CleanFor;
      ghost var before, start, m, clean := world.Now(), |world.log|, Memory(), Clean(plan);
      EmptyHasNoAtoms();
      var gated := GateReplacements(plan.next, plan.pending);
      ReadyIsEntitled(plan, desired);
      if clean {
        StagedIsAcceptable(plan, desired);
        CleanIsFitting(plan);
        StagedIsClean(plan, m, TableRoles(before.table));
      }
      GateNeverOpens(plan.next, plan.pending);
      hide Acceptable, OneMark, Journaled, Fitting;
      var persisted;
      ok, persisted := ReplaceObjects(gated, plan.pending, keepFlowtable, plan.suspended, desired);
      ghost var step := if persisted then gated else old(active);
      UndrainedTrace(world.log, start, before, desired, step, widest);
      UndrainedTrace([world.Now()], 0, before, desired, step, widest);
      assert CallPoint([world.Now()][0], before, desired, widest);
      if !ok { return; }
      DisjointByAtoms(TableRoles(world.table).active, gated, plan.pending);
      assert Ready(plan, desired) by {
        StagedMemory(gated, plan, desired);
      }
    }

    /** Revoke every connection of the draining scopes. */
    method Drain(plan: Plan, ghost start: nat, ghost from: Durable, ghost desired: iset<Atom>, ghost widest: seq<Spec>)
      returns (ok: bool)
      requires Ready(plan, desired) && world.revoked == []
      requires CallTrace(world.log, start, from, desired, widest) && CallPoint(world.Now(), from, desired, widest)
      requires IngressDisjoint(TableRoles(world.table).active, plan.pending)
      modifies world`entries, world`log, world`revoked, world`deleted, world`trouble, world`probes
      ensures (old(world.trouble) ==> world.trouble) && old(world.probes) <= world.probes
      ensures Valid() && Extends(old(world.log), world.log) && Ready(plan, desired)
      ensures CallTrace(world.log, start, from, desired, widest) && CallPoint(world.Now(), from, desired, widest)
      ensures !world.trouble && !ok ==> world.Untracked() && plan.pending != []
      ensures ok ==> world.revoked == plan.pending && Drained(world.entries, plan.pending)
    {
      hide World.Continuous, World.Ledger, World.Sound, World.Rewritten, SameRoles, ValidSnapshot, AllValid;
      hide Atoms, Core, AllAtoms, Keeps, MatchesAny, Draining, Known, IngressDisjoint, DrainedPoint, CallPoint;
      hide SoundPoint, Believed, Drained, Imported;
      ghost var staged, middle := world.Now(), world.log;
      EmptyHasNoAtoms();
      ok := RevokeConnections(world, plan.pending);
      StillUndrained(world.log, |middle|, staged, from, desired, widest);
      StillUndrainedNow(staged, world.Now(), from, desired, widest);
      JoinTraces(middle, world.log, start, from, desired, widest);
      if ok {
        world.revoked := plan.pending;
        DischargePoint(staged, world.Now(), from, plan.pending, desired, widest);
      }
    }

    /** Install the gated plan beside the retirement journal, then revoke every
        connection of the draining scopes. */
    method Stage(plan: Plan, keepFlowtable: bool, families: set<int>, ghost desired: iset<Atom>,
                 ghost widest: seq<Spec>)
      returns (ok: bool)
      requires Ready(plan, desired) && Atoms(plan.next) <= desired && world.revoked == []
      requires NoWider(active, widest) && NoWider(plan.next, widest) && Atoms(plan.next) <= world.reach
      requires plan.pending != []
      modifies this, world`entries, world`log, world`table, world`installed, world`record, world`saved, world`revoked
      modifies world`deleted, world`trouble, world`probes
      ensures (old(world.trouble) ==> world.trouble) && (old(world.saved) ==> world.saved)
      ensures old(world.installed) <= world.installed
      ensures Valid() && Extends(old(world.log), world.log)
      ensures CallTrace(world.log, |old(world.log)|, old(world.Now()), desired, widest)
      ensures CallPoint(world.Now(), old(world.Now()), desired, widest)
      ensures old(Room()) >= 1 && old(Clean(plan)) && !world.trouble && !ok ==>
                world.Untracked() && Staged(plan, TableRoles(world.table))
      ensures old(world.probes) <= world.probes
      ensures Room() >= old(Room()) - 1
      ensures ok ==> Ready(plan, desired) && (old(Clean(plan)) ==> Clean(plan))
      ensures ok ==> world.saved || world.table == old(world.table)
      ensures ok ==> world.revoked == plan.pending && Drained(world.entries, plan.pending)
      ensures ok ==> IngressDisjoint(TableRoles(world.table).active, plan.pending)
      ensures ok ==> Atoms(TableRoles(world.table).pending) == Atoms(plan.pending)
      ensures ok ==> NoWider(active, widest)
    {
      hide Atoms, Core, AllAtoms, Keeps, MatchesAny, Draining, Known, AllValid, IngressDisjoint, DrainedPoint;
      hide SameRoles, ValidSnapshot, Clean, CallPoint, CallTrace, Drained, NoWider, Staged, Room, World.Valid, Ready;
      ghost var before, start := world.Now(), |world.log|;
      var installed := InstallGated(plan, keepFlowtable, desired, widest);
      if !installed { return false; }
      policyFamilies := families;
      ok := Drain(plan, start, before, desired, widest);
    }

    /** Install the replacement once nothing is draining any more. */
    method Commit(plan: Plan, keepFlowtable: bool, available: bool, ghost from: Durable, ghost desired: iset<Atom>,
                  ghost widest: seq<Spec>)
      returns (ok: bool)
      requires Ready(plan, desired) && world.revoked == plan.pending
      requires Drained(world.entries, plan.pending) && IngressDisjoint(TableRoles(world.table).active, plan.pending)
      requires Keeps(from, desired, world.Now())
      requires world.table == from.table || NoWider(TableRoles(world.table).active, widest)
      requires NoWider(plan.next, widest) && NoWider(active, widest) && Atoms(plan.next) <= world.reach
      requires if plan.pending == [] then pending == []
               else Atoms(TableRoles(world.table).pending) == Atoms(plan.pending)
      modifies this, world`entries, world`log, world`table, world`installed, world`record, world`saved, world`trouble
      ensures (old(world.trouble) ==> world.trouble) && (old(world.saved) ==> world.saved)
      ensures old(world.installed) <= world.installed
      ensures Valid() && Extends(old(world.log), world.log)
      ensures CallTrace(world.log, |old(world.log)|, from, desired, widest)
      ensures CallPoint(world.Now(), from, desired, widest)
      ensures ok ==> world.saved || world.table == old(world.table)
      ensures old(Room()) >= 1 && old(Clean(plan)) && !world.trouble ==> ok
      ensures ok ==> Committed(plan, TableRoles(world.table))
      ensures ok ==> Atoms(TableRoles(world.table).active) == Atoms(plan.next)
      ensures ok ==> Atoms(TableRoles(world.table).pending) == iset{}
    {
      hide Atoms, Core, AllAtoms, Keeps, MatchesAny, Draining, Known, AllValid, IngressDisjoint, DrainedPoint;
      hide Drained, GoodPoint;
      hide Journaled, Fitting, OneMark, Clean, Ready, World.Valid, SameRoles, SoundPoint, ValidSnapshot, Covered;
      ghost var staged, start := world.Now(), |world.log|;
      EmptyHasNoAtoms();
      ReadyIsEntitled(plan, desired);
      NothingLeft(plan, desired);
      if Clean(plan) {
        CommittedIsAcceptable(plan);
        CleanIsFitting(plan);
      }
      var committed, persisted := ReplaceObjects(plan.next, [], keepFlowtable, plan.suspended, desired);
      ghost var step := if persisted then plan.next else old(active);
      CommitTrace(world.log, start, staged, plan.pending, from, desired, step, widest);
      CommitPoint(world.Now(), staged, plan.pending, from, desired, step, widest);
      if !committed { return false; }
      if plan.pending != [] { SomeAtom(plan.pending); }
      pending := [];
      unknownState := !available;
      return true;
    }

    lemma NothingLeft(plan: Plan, desired: iset<Atom>)
      requires Ready(plan, desired) && world.revoked == plan.pending
      ensures Valid() && Covered(desired) && AllValid(plan.pending) && AllValid(TableRoles(world.table).active)
      ensures Entitled(world.Now(), Atoms([]), desired)
      ensures Atoms([]) + Atoms(plan.suspended) <= world.installed
    {
      EmptyHasNoAtoms();
      hide Atoms, AllValid;
    }

    /** Compute the plan, refuse what cannot go on, and take over what is due. */
    method PlanRetirement(specs: seq<Spec>, ghost desired: iset<Atom>)
      returns (go: bool, plan: Plan, admission: Option<Admission>, available: bool)
      requires Valid() && Covered(desired) && Atoms(specs) <= desired
      modifies this`pending, this`initialized, world`trouble, world`degraded, world`answer, world`consulted
      modifies world`probes
      ensures (old(world.trouble) ==> world.trouble) && old(world.probes) <= world.probes
      ensures Valid() && Covered(desired)
      ensures (|old(Due(specs))| <= MAX_ENTRIES && !world.trouble) || go ==>
                && world.probes == old(world.probes) + [available] && world.degraded == !available
                && (UsesFlowtable(specs) ==> world.consulted)
      ensures |old(Due(specs))| <= MAX_ENTRIES && !world.trouble && !go ==>
                !available && Memory() == old(Memory()) && |History(active, suspended)| + |old(Due(specs))| == 0
      ensures world.degraded && !old(world.degraded) ==> false in world.probes
      ensures go ==> Ready(plan, desired)
      ensures go ==> plan == PlanFor(old(Memory()), specs, world.answer, available)
      ensures go ==> admission == Heeded(world.answer, specs)
      ensures go ==> Memory() == old(Memory()).(pending := plan.pending)
    {
      hide World.Ledger, Trusted, ValidSpec, UsesFlowtable;
      hide World.Continuous;
      hide Atoms, Core, AllAtoms, AllValid, MakePlan, Unique, Retired, History, ValidSnapshot, SameRoles, Loadable;
      hide World.Valid, Believed, Imported, NoWider, Ready, Valid, Covered, SoundPoint, Heeded, Room;
      SoundNow();
      plan, admission, available := Plan([], [], []), None, false;
      ghost var m := Memory();
      var history, retired, due := DueRetirement(specs);
      MemoryIsOwned(m, Atoms(due), Atoms(specs), world.installed);
      if |due| > MAX_ENTRIES {
        MarkDue(due, desired);
        return false, plan, admission, available;
      }
      var readable;
      readable, admission := CheckAdmission(specs);
      if !readable { return false, plan, admission, available; }
      if admission.Some? { EvictAcceleration(specs, admission.value, desired); }
      available := world.Available();
      world.degraded := !available;
      plan := Decide(specs, history, retired, due, admission, available);
      if !available && |history| + |due| == 0 { return false, plan, admission, available; }
      DecidedPending(m, specs, admission, available);
      MarkDue(due, desired);
      PlannedIsReady(m, specs, admission, available, plan, desired);
      return true, plan, admission, available;
    }

    lemma PlannedIsReady(m: Snapshot, specs: seq<Spec>, admission: Option<Admission>, available: bool, plan: Plan,
                         desired: iset<Atom>)
      requires Valid() && Covered(desired) && Atoms(specs) <= desired && ValidSnapshot(m)
      requires AllAtoms(m) <= world.installed
      requires plan == MakePlan(m.active, m.pending, m.suspended, specs, admission, available)
      requires Memory() == m.(pending := plan.pending)
      ensures Ready(plan, desired)
    {
      hide Atoms, Core, AllAtoms, AllValid, MakePlan, ValidSnapshot, SameRoles, World.Valid, Believed, Imported;
      hide NoWider;
      PlanFacts(m, specs, admission, available);
      PlanIsReady(m, Memory(), plan, Atoms(specs), world.installed);
    }

    method MarkDue(due: seq<Spec>, ghost desired: iset<Atom>)
      requires Valid() && Covered(desired) && AllValid(due)
      requires Atoms(pending) <= Atoms(due) <= world.installed
      modifies this`pending
      ensures Valid() && Covered(desired) && pending == due
    {
      hide Atoms, AllValid, Loadable;
      pending := due;
    }

    /** Scopes this instance may install. */
    ghost predicate Welcome(specs: seq<Spec>)
      reads world`reach
    {
      OneMark() && Acceptable(specs, world.mark)
    }

    /** A plan that fits is clean. */
    lemma WelcomeIsClean(specs: seq<Spec>, m: Snapshot, answer: Option<Admission>, available: bool, desired: iset<Atom>)
      requires Welcome(specs) && ValidSnapshot(m)
      requires Fits(PlanFor(m, specs, answer, available), m, TableRoles(world.table))
      requires Memory() == m.(pending := PlanFor(m, specs, answer, available).pending)
      requires Ready(PlanFor(m, specs, answer, available), desired)
      ensures Clean(PlanFor(m, specs, answer, available))
    {
      var plan := PlanFor(m, specs, answer, available);
      assert Atoms(plan.suspended) <= world.reach by { hide Atoms, AllValid; }
      PlanIsValid(m.active, m.pending, m.suspended, specs, Heeded(answer, specs), available);
      PlanFacts(m, specs, Heeded(answer, specs), available);
      MarkOfAtoms(specs, world.mark);
      MarkByAtoms(plan.next, Atoms(specs), world.mark);
      MarkByAtoms(plan.suspended, world.reach, world.mark);
    }

    /** What a reconciliation comes to when nothing outside fails: the plan is
        committed and all that is due was revoked; or, if connection tracking was not
        there for that, the plan is staged and all that is due is in the journal. */
    ghost predicate Reaches(plan: Plan, specs: seq<Spec>)
      reads world`table, world`revoked, world`probes, world`consulted
    {
      && world.probes != [] && (UsesFlowtable(specs) ==> world.consulted)
      && (|| (Committed(plan, TableRoles(world.table)) && world.revoked == plan.pending)
          || (world.Untracked() && Staged(plan, TableRoles(world.table))))
    }

    /** With nothing owned and nothing due, nothing is there and nothing is planned
        without connection tracking. */
    lemma IdleIsCommitted(m: Snapshot, specs: seq<Spec>, answer: Option<Admission>)
      requires Valid() && Imported() && Memory() == m && AllValid(specs)
      requires |History(m.active, m.suspended)| + |DueFor(m, specs)| == 0
      ensures Committed(PlanFor(m, specs, answer, false), TableRoles(world.table))
      ensures PlanFor(m, specs, answer, false).pending == []
    {
      var plan, roles := PlanFor(m, specs, answer, false), TableRoles(world.table);
      IdleHasNoAtoms(m, specs);
      assert ValidSnapshot(roles) && AllAtoms(roles) == iset{} by { hide Atoms; }
      EmptyPlan(m, specs, answer);
      NoAtomsIsEmptySnapshot(roles);
      hide PlanFor;
      SameRolesReflexive(EMPTY);
    }

    lemma FitsDue(m: Snapshot, specs: seq<Spec>, answer: Option<Admission>, available: bool, roles: Snapshot)
      requires Fits(PlanFor(m, specs, answer, available), m, roles)
      ensures |DueFor(m, specs)| <= MAX_ENTRIES
    {
      DecidedPending(m, specs, Heeded(answer, specs), available);
    }

    lemma IdleHasNoAtoms(m: Snapshot, specs: seq<Spec>)
      requires ValidSnapshot(m) && |History(m.active, m.suspended)| + |DueFor(m, specs)| == 0
      ensures AllAtoms(m) == iset{} && DueFor(m, specs) == []
    {
      EmptyHasNoAtoms();
      HistoryIsValid(m.active, m.suspended);
      UndesiredIsPending(m.active, m.pending, m.suspended, specs, None, true);
      DecidedPending(m, specs, None, true);
      hide Atoms, MakePlan, History, Unique, Retired;
    }

    lemma EmptyPlan(m: Snapshot, specs: seq<Spec>, answer: Option<Admission>)
      requires ValidSnapshot(m) && AllValid(specs) && AllAtoms(m) == iset{} && DueFor(m, specs) == []
      ensures PlanFor(m, specs, answer, false) == Plan([], [], [])
    {
      var plan := PlanFor(m, specs, answer, false);
      PlanFacts(m, specs, Heeded(answer, specs), false);
      PlanIsValid(m.active, m.pending, m.suspended, specs, Heeded(answer, specs), false);
      DecidedPending(m, specs, Heeded(answer, specs), false);
      hide Atoms, MakePlan, History, Unique, Retired, Heeded, Offloaded, AllValid;
      assert Atoms(plan.next) <= Atoms(m.active);
      NoAtomsIsEmpty(plan.next);
      NoAtomsIsEmpty(plan.suspended);
    }

    lemma NoAtomsIsEmptySnapshot(s: Snapshot)
      requires ValidSnapshot(s) && AllAtoms(s) == iset{}
      ensures s == EMPTY
    {
      assert Atoms(s.active) == iset{} && Atoms(s.pending) == iset{} && Atoms(s.suspended) == iset{} by { hide Atoms; }
      hide AllValid;
      NoAtomsIsEmpty(s.active);
      NoAtomsIsEmpty(s.pending);
      NoAtomsIsEmpty(s.suspended);
    }

    lemma IdleAfterPlanning(m: Snapshot, specs: seq<Spec>, desired: iset<Atom>)
      requires Valid() && Covered(desired) && Welcome(specs) && world.revoked == []
      requires world.degraded && Memory() == m && |History(m.active, m.suspended)| + |DueFor(m, specs)| == 0
      requires world.probes != [] && (UsesFlowtable(specs) ==> world.consulted)
      ensures Reaches(PlanFor(m, specs, world.answer, false), specs)
    {
      MarkOfAtoms(specs, world.mark);
      hide MakePlan, Heeded, History, Unique, Retired, Gate, World.Valid, Atoms;
      CoveredIsImported(desired);
      IdleIsCommitted(m, specs, world.answer);
    }

    lemma NoAtomsIsEmpty(specs: seq<Spec>)
      requires AllValid(specs) && Atoms(specs) == iset{}
      ensures specs == []
    {
      if specs != [] { SomeAtom(specs); }
    }

    lemma SoundNow()
      requires Valid()
      ensures SoundPoint(world.Now()) && ValidSnapshot(Memory()) && AllAtoms(Memory()) <= world.installed
    {
    }

    /** Stage and drain what the plan retires, if anything, and commit the rest. */
    method Execute(plan: Plan, families: set<int>, available: bool, ghost desired: iset<Atom>, ghost widest: seq<Spec>)
      returns (ok: bool)
      requires Ready(plan, desired) && plan.pending == pending && Atoms(plan.next) <= desired && world.revoked == []
      requires NoWider(active, widest) && NoWider(plan.next, widest) && Atoms(plan.next) <= world.reach
      modifies this, world`entries, world`log, world`table, world`installed, world`record, world`saved
      modifies world`revoked, world`deleted, world`trouble, world`probes
      ensures (old(world.trouble) ==> world.trouble) && (old(world.saved) ==> world.saved)
      ensures old(world.probes) <= world.probes
      ensures old(world.installed) <= world.installed
      ensures Valid() && Extends(old(world.log), world.log)
      ensures CallTrace(world.log, |old(world.log)|, old(world.Now()), desired, widest)
      ensures CallPoint(world.Now(), old(world.Now()), desired, widest)
      ensures old(Room()) >= 2 && old(Clean(plan)) && !world.trouble && !ok ==>
                world.Untracked() && Staged(plan, TableRoles(world.table))
      ensures ok ==> Committed(plan, TableRoles(world.table))
      ensures ok ==> Atoms(TableRoles(world.table).active) == Atoms(plan.next)
      ensures ok ==> Atoms(TableRoles(world.table).pending) == iset{} && world.revoked == plan.pending
      ensures ok ==> world.saved || world.table == old(world.table)
    {
      hide Atoms, Core, AllAtoms, Keeps, MatchesAny, Draining, Known, AllValid, IngressDisjoint, DrainedPoint;
      hide Drained, GoodPoint;
      hide SameRoles, ValidSnapshot, Loadable, Clean, NoWider, SoundPoint, Valid, Ready, CallTrace, UsesFlowtable, Room;
      ghost var from, start := world.Now(), |world.log|;
      EmptyHasNoAtoms();
      assert Valid() by { ReadyIsValid(plan, desired); }
      SoundNow();
      NothingHappened(world.log, from, desired, widest);
      var keepFlowtable := UsesFlowtable(plan.next);
      NothingPending(TableRoles(world.table).active, world.entries);
      if |plan.pending| > 0 {
        var drained := Stage(plan, keepFlowtable, families, desired, widest);
        if !drained { return false; }
      }
      ghost var middle := world.log;
      ok := Commit(plan, keepFlowtable, available, from, desired, widest);
      JoinTraces(middle, world.log, start, from, desired, widest);
    }

    lemma ReadyIsValid(plan: Plan, desired: iset<Atom>)
      requires Ready(plan, desired)
      ensures Valid()
    {
    }

    /** Everything after recovery: retire, gate, stage, drain and commit. */
    method Reconcile(specs: seq<Spec>, ghost desired: iset<Atom>, ghost prior: seq<Spec>) returns (ok: bool)
      requires Valid() && Covered(desired) && world.revoked == []
      requires Atoms(specs) <= desired && Atoms(specs) <= world.reach && NoWider(active, prior)
      modifies this, world`entries, world`log, world`table, world`installed, world`record, world`saved, world`revoked
      modifies world`deleted, world`degraded, world`trouble, world`probes, world`answer, world`consulted
      ensures (old(world.trouble) ==> world.trouble) && (old(world.saved) ==> world.saved)
      ensures old(world.probes) <= world.probes
      ensures world.degraded && !old(world.degraded) ==> false in world.probes
      ensures old(world.installed) <= world.installed
      ensures Valid() && Extends(old(world.log), world.log)
      ensures CallTrace(world.log, |old(world.log)|, old(world.Now()), desired, Allowed(prior, specs, world.degraded))
      ensures CallPoint(world.Now(), old(world.Now()), desired, Allowed(prior, specs, world.degraded))
      ensures var plan := PlanFor(old(Memory()), specs, world.answer, !world.degraded);
              (&& old(Room()) >= 2 && old(Welcome(specs)) && !world.trouble
               && Fits(plan, old(Memory()), old(TableRoles(world.table)))) ==>
                Reaches(plan, specs)
                && (false !in world.probes && Heeded(world.answer, specs).None? ==> ok)
      ensures ok ==> !world.degraded && Atoms(TableRoles(world.table).active) == Atoms(specs)
      ensures ok ==> Atoms(TableRoles(world.table).pending) == iset{}
      ensures ok ==> old(Atoms(pending)) + (old(AllAtoms(Memory())) - Atoms(specs)) <= Atoms(world.revoked)
      ensures ok ==> world.saved || world.table == old(world.table)
    {
      hide Atoms, Core, AllAtoms, Keeps, MatchesAny, Draining, Known, AllValid, IngressDisjoint, DrainedPoint;
      hide Drained, GoodPoint, MakePlan, Fits, Heeded, Staged, Committed, UsesFlowtable;
      hide Unique, Retired, History, SameRoles, ValidSnapshot, Loadable, Gate, Acceptable, OneMark, DueFor, Clean;
      hide Welcome, Allowed, NoWider;
      hide SoundPoint, Valid, Ready, Covered, CallTrace, Room, Imported;
      ghost var from, start, m, welcome := world.Now(), |world.log|, Memory(), Welcome(specs);
      EmptyHasNoAtoms();
      SoundNow();
      var go, plan, admission, available := PlanRetirement(specs, desired);
      ghost var widest := Allowed(prior, specs, world.degraded);
      ghost var chosen := PlanFor(m, specs, world.answer, !world.degraded);
      NothingHappened(world.log, from, desired, widest);
      ghost var fits, asked := welcome && Fits(chosen, m, TableRoles(world.table)), world.probes;
      if fits { FitsDue(m, specs, world.answer, !world.degraded, TableRoles(world.table)); }
      if !go {
        if fits && !world.trouble {
          IdleAfterPlanning(m, specs, desired);
        }
        return false;
      }
      if fits { WelcomeIsClean(specs, m, world.answer, available, desired); }
      PlanFacts(m, specs, admission, available);
      AllowedCovers(m.active, plan.next, prior, specs, world.degraded);
      UndesiredIsDue(m, Atoms(plan.pending), Atoms(specs));
      var families := if admission.Some? then admission.value.families else {};
      ok := Execute(plan, families, available, desired, widest);
      assert !available ==> !world.probes[|asked| - 1];
      if !ok { return false; }
      policyFamilies := families;
      return available && admission.None?;
    }

    /** Nothing but an outside failure or the length of a list can stop a
        reconciliation: the record is one that reads back, recovery succeeds, and
        every scope carries the instance's mark. */
    ghost predicate Feasible(specs: seq<Spec>)
      reads this`active, this`pending, this`suspended, this`recovered, this`initialized, this`fingerprint, this`binding
      reads world`table, world`record, world`entries
    {
      && Recoverable()
      && MarkedAtoms(Found(), world.mark) && Acceptable(specs, world.mark)
      && Continued()
    }

    lemma FeasibleParts(specs: seq<Spec>)
      requires Feasible(specs)
      ensures Recoverable() && Acceptable(specs, world.mark)
      ensures MarkedAtoms(Found() + Atoms(specs), world.mark)
      ensures Continued()
    {
      MarkOfAtoms(specs, world.mark);
      hide Atoms, Found, Recoverable, Loadable;
    }

    /** Reconcile once memory is recovered, seen from where the call started. */
    method AfterRecovery(specs: seq<Spec>, ghost from: Durable, ghost start: nat, ghost desired: iset<Atom>,
                         ghost prior: seq<Spec>)
      returns (ok: bool)
      requires Valid() && Covered(desired) && from.revoked == [] && AtRest(start, from, desired)
      requires Atoms(specs) <= desired && Atoms(specs) <= world.reach && from.record == world.record
      requires NoWider(active, prior)
      modifies this, world`entries, world`log, world`table, world`installed, world`record, world`saved, world`revoked
      modifies world`deleted, world`degraded, world`trouble, world`probes, world`answer, world`consulted
      ensures (old(world.trouble) ==> world.trouble) && (old(world.saved) ==> world.saved)
      ensures old(world.probes) <= world.probes
      ensures world.degraded && !old(world.degraded) ==> false in world.probes
      ensures old(world.installed) <= world.installed
      ensures Valid() && Extends(old(world.log), world.log)
      ensures CallTrace(world.log, start, from, desired, Allowed(prior, specs, world.degraded))
      ensures CallPoint(world.Now(), from, desired, Allowed(prior, specs, world.degraded))
      ensures var plan := PlanFor(old(Memory()), specs, world.answer, !world.degraded);
              (&& old(Room()) >= 2 && old(Welcome(specs)) && !world.trouble
               && Fits(plan, old(Memory()), old(TableRoles(world.table)))) ==>
                Reaches(plan, specs)
                && (false !in world.probes && Heeded(world.answer, specs).None? ==> ok)
      ensures Draining(from) + (Known(from) - desired) <= Atoms(DueFor(old(Memory()), specs))
      ensures ok ==> !world.degraded && Atoms(TableRoles(world.table).active) == Atoms(specs)
      ensures ok ==> Atoms(TableRoles(world.table).pending) == iset{}
      ensures ok ==> Draining(from) + (Known(from) - desired) <= Atoms(world.revoked)
      ensures ok ==> world.saved || world.table == from.table
    {
      hide Atoms, Core, AllAtoms, Keeps, MatchesAny, Draining, Known, AllValid, DrainedPoint, GoodPoint;
      hide Welcome, SameRoles, ValidSnapshot, Room, Loadable, Allowed, NoWider, PlanFor, Fits, Reaches, DueFor, Heeded;
      ghost var middle, later, m := world.log, world.Now(), Memory();
      EmptyHasNoAtoms();
      CoveredIsKnown(from, desired);
      AllIsDue(from, specs, desired);
      ok := Reconcile(specs, desired, prior);
      ghost var widest := Allowed(prior, specs, world.degraded);
      NothingIsNoWider(widest);
      UndrainedTrace(middle, start, from, desired, [], widest);
      UndrainedTrace([later], 0, from, desired, [], widest);
      assert CallPoint([later][0], from, desired, widest);
      if ok { EverythingDischarged(m, from, Atoms(specs), desired, Atoms(world.revoked)); }
      Rebase(world.log, |middle|, later, from, desired, widest);
      Rebase([world.Now()], 0, later, from, desired, widest);
      assert CallPoint([world.Now()][0], from, desired, widest);
      JoinTraces(middle, world.log, start, from, desired, widest);
    }

    lemma AllIsDue(from: Durable, specs: seq<Spec>, desired: iset<Atom>)
      requires Valid() && Covered(desired) && from.table == world.table && from.record == world.record
      requires Atoms(specs) <= desired
      ensures Draining(from) + (Known(from) - desired) <= Atoms(DueFor(Memory(), specs))
    {
      var m := Memory();
      CoveredIsKnown(from, desired);
      SoundNow();
      UndesiredIsPending(m.active, m.pending, m.suspended, specs, None, true);
      hide Valid, Covered, Atoms, MakePlan, Draining, Known, AllAtoms;
      UndesiredIsDue(m, Atoms(DueFor(m, specs)), Atoms(specs)) by { DecidedPending(m, specs, None, true); }
      EverythingDischarged(m, from, Atoms(specs), desired, Atoms(DueFor(m, specs)));
    }

    lemma CoveredIsKnown(from: Durable, desired: iset<Atom>)
      requires Covered(desired) && from.table == world.table && from.record == world.record
      ensures Known(from) - desired <= AllAtoms(Memory())
      ensures Atoms(TableRoles(from.table).pending) + Atoms(Confirmed(from.record).pending) <= Atoms(pending)
    {
      hide Atoms, Core;
    }

    /** Recovery that failed has changed nothing. */
    lemma NotRecovered(start: nat, from: Durable, desired: iset<Atom>, widest: seq<Spec>)
      requires AtRest(start, from, desired) && from.Discharged() == iset{}
      ensures CallTrace(world.log, start, from, desired, widest)
      ensures CallPoint(world.Now(), from, desired, widest)
    {
      hide Atoms, Keeps, MatchesAny, Draining, Known;
      NothingIsNoWider(widest);
      UndrainedTrace(world.log, start, from, desired, [], widest);
      UndrainedTrace([world.Now()], 0, from, desired, [], widest);
      assert CallPoint([world.Now()][0], from, desired, widest);
    }

    lemma OwnedIsValid()
      requires Settled()
      ensures ValidSnapshot(Owned(world.table, world.record))
    {
      var disk, journal := Confirmed(world.record), TableRoles(world.table);
      UnionOfThree(active, disk.active, journal.active);
      UnionOfThree(pending, disk.pending, journal.pending);
      UnionOfThree(suspended, disk.suspended, journal.suspended);
      hide Atoms, AllValid, Believed, Trusted;
    }

    lemma FoundIsBase()
      ensures Found() <= AllAtoms(Memory()) + Known(world.Now())
    {
      hide Atoms, Core, AllAtoms, BelievedTable;
    }

    /** What a call finds covers memory and the table, and the record but for what
        is exposed. */
    lemma StartReach()
      requires Settled()
      ensures AllAtoms(Memory()) <= Found() && AllAtoms(TableRoles(world.table)) <= Found() && Exposed() !! Found()
      ensures Exposed() <= AllAtoms(Confirmed(world.record)) <= Found() + Exposed()
      ensures !BelievedTable(world.table, world.record) ==> AllAtoms(Confirmed(world.record)) <= Found()
    {
      hide Atoms, Core, AllAtoms, ValidSnapshot, SameRoles, Imported;
    }

    /** Nothing is revoked, installed or written yet, and the call's reach is what it
        finds and what it is asked for. */
    method BeginCall(ghost specs: seq<Spec>)
      requires Settled()
      modifies world`revoked, world`saved, world`inherited, world`reach, world`first, world`found, world`installed
      modifies world`degraded, world`begun, world`probes, world`answer, world`consulted
      ensures world.probes == [] && world.answer == None && !world.consulted && !world.degraded
      ensures Valid() && SoundPoint(world.Now()) && world.revoked == [] && world.Now().Discharged() == iset{}
      ensures world.inherited == world.record && world.reach == Found() + Atoms(specs) && Exposed() !! Found()
      ensures world.first == |world.log| && world.found == Found() && world.begun == world.Now()
      ensures Exposed() <= AllAtoms(Confirmed(world.record)) <= Found() + Exposed()
      ensures !BelievedTable(world.table, world.record) ==> AllAtoms(Confirmed(world.record)) <= world.installed
    {
      hide Atoms, Core, AllAtoms, ValidSnapshot, SameRoles, Imported, Found, Exposed, BelievedTable, Believed;
      hide Opened, Accounted, World.Ledger, World.Continuous, Loadable, Known, Draining;
      StartReach();
      EmptyHasNoAtoms();
      world.Begin(Found(), Found() + Atoms(specs));
      world.AskNothing();
    }

    /** Trust nothing the next time. */
    method GiveUp()
      requires Valid()
      modifies this`initialized, this`unknownState, this`session
      ensures Valid() && !initialized && session == None
    {
      hide Atoms, AllAtoms, ValidSnapshot;
      initialized, unknownState, session := false, true, None;
    }

    /** What a finished call leaves: nothing but what it found or installed, and of
        what was exposed exactly what a record that was not replaced still lists. */
    lemma Aftermath(begun: Durable, found: iset<Atom>, first: nat, specs: iset<Atom>, exposed: iset<Atom>)
      requires world.begun == begun
      requires Valid() && world.reach == found + specs && world.found == found && world.first == first
      requires exposed !! found && exposed <= AllAtoms(Confirmed(world.inherited)) <= found + exposed
      ensures Settled()
      ensures (exposed - specs) * (Known(world.Now()) + Atoms(world.revoked)) == if world.saved then iset{}
              else exposed - specs
      ensures AccountedPoint(world.Now(), found + Opened(world.log, first), world.inherited)
      ensures AllAtoms(Memory()) <= found + Opened(world.log, first)
      ensures Accounted(world.log, first, found, world.inherited)
      ensures FlowsTo(begun, world.log, first, world.table, world.entries)
      ensures if world.saved then world.record.Some? && Loadable(world.record.value, world.mark)
              else world.record == world.inherited
    {
      hide Atoms, Core, AllAtoms, ValidSnapshot, SameRoles, Imported, Believed, Loadable, Opened, Accounted, FlowsTo;
    }

    /** Recover what this process owns, then reconcile. */
    method Proceed(specs: seq<Spec>, ghost owned: Snapshot, ghost from: Durable, ghost desired: iset<Atom>,
                   ghost prior: seq<Spec>)
      returns (ok: bool)
      requires Valid() && session == world.record && from == world.Now() && from.revoked == []
      requires from.Discharged() == iset{}
      requires owned == Owned(world.table, world.record) && Exposed() <= desired
      requires !BelievedTable(world.table, world.record) ==> AllAtoms(Confirmed(world.record)) <= world.installed
      requires Atoms(specs) <= desired && Atoms(specs) <= world.reach
      requires prior == PriorActive(active, from)
      modifies this, world`entries, world`log, world`table, world`installed, world`record, world`saved, world`revoked
      modifies world`deleted, world`degraded, world`trouble, world`probes, world`answer, world`consulted
      ensures old(world.trouble) ==> world.trouble
      ensures world.degraded && !old(world.degraded) ==> false in world.probes
      ensures old(world.installed) <= world.installed
      ensures Valid() && Extends(old(world.log), world.log)
      ensures CallTrace(world.log, |old(world.log)|, from, desired, Allowed(prior, specs, world.degraded))
      ensures CallPoint(world.Now(), from, desired, Allowed(prior, specs, world.degraded))
      ensures var plan := PlanFor(owned, specs, world.answer, !world.degraded);
              (&& old(Recoverable()) && MarkedAtoms(world.reach, world.mark) && Acceptable(specs, world.mark)
               && (old(session).Some? ==> old(Room()) >= 2) && !world.trouble
               && Fits(plan, owned, old(TableRoles(world.table)))) ==>
                && Reaches(plan, specs) && Draining(from) + (Known(from) - desired) <= Atoms(DueFor(owned, specs))
                && (false !in world.probes && Heeded(world.answer, specs).None? ==> ok)
      ensures ok ==> !world.degraded && Atoms(TableRoles(world.table).active) == Atoms(specs)
      ensures ok ==> Atoms(TableRoles(world.table).pending) == iset{}
      ensures ok ==> Draining(from) + (Known(from) - desired) <= Atoms(world.revoked)
      ensures ok ==> world.saved || world.table == from.table
    {
      hide Atoms, Core, AllAtoms, Keeps, MatchesAny, Draining, Known, AllValid, DrainedPoint, GoodPoint, GoodTrace;
      hide CallTrace, CallPoint;
      hide Owned, Recoverable, Welcome, SameRoles, ValidSnapshot, Believed, Imported, AtRest, Exposed, Loadable;
      hide SoundPoint, PlanFor, Fits, Reaches, DueFor, Heeded;
      hide Valid, World.Valid, BelievedTable, OneMark, Acceptable, MarkedAtoms, Covered, Allowed, NoWider, PriorActive;
      ghost var start := |world.log|;
      ok := RecoverKernelState(from, desired);
      if !ok {
        NotRecovered(start, from, desired, Allowed(prior, specs, world.degraded));
        GiveUp();
        return false;
      }
      StillAtRest(start, from, desired);
      if MarkedAtoms(world.reach, world.mark) && Acceptable(specs, world.mark) { StillWelcome(specs); }
      ok := AfterRecovery(specs, from, start, desired, prior);
      session := None;
    }

    lemma StillWelcome(specs: seq<Spec>)
      requires MarkedAtoms(world.reach, world.mark) && Acceptable(specs, world.mark)
      ensures Welcome(specs)
    {
    }

    lemma StillAtRest(start: nat, from: Durable, desired: iset<Atom>)
      requires AtRest(start, from, desired)
      ensures from.table == world.table
    {
      hide Atoms, Keeps;
    }

    /** Open the recovery session, recover and reconcile. */
    method Attempt(specs: seq<Spec>, ghost owned: Snapshot, ghost from: Durable, ghost desired: iset<Atom>,
                   ghost prior: seq<Spec>)
      returns (ok: bool)
      requires Valid() && from == world.Now() && from.revoked == []
      requires from.Discharged() == iset{} && SoundPoint(from)
      requires owned == Owned(world.table, world.record) && ValidSnapshot(owned) && Exposed() <= desired
      requires !BelievedTable(world.table, world.record) ==> AllAtoms(Confirmed(world.record)) <= world.installed
      requires Atoms(specs) <= desired && Atoms(specs) <= world.reach
      requires prior == PriorActive(active, from)
      modifies this, world`entries, world`log, world`table, world`installed, world`record, world`saved, world`revoked
      modifies world`deleted, world`degraded, world`trouble, world`probes, world`answer, world`consulted
      ensures old(world.trouble) ==> world.trouble
      ensures world.degraded && !old(world.degraded) ==> false in world.probes
      ensures old(world.installed) <= world.installed
      ensures Valid() && Extends(old(world.log), world.log)
      ensures CallTrace(world.log, |old(world.log)|, from, desired, Allowed(prior, specs, world.degraded))
      ensures CallPoint(world.Now(), from, desired, Allowed(prior, specs, world.degraded))
      ensures var plan, roles := PlanFor(owned, specs, world.answer, !world.degraded), TableRoles(world.table);
              var due := Draining(from) + (Known(from) - desired);
              (&& old(Recoverable()) && MarkedAtoms(world.reach, world.mark) && Acceptable(specs, world.mark)
               && old(Continued()) && !world.trouble && Fits(plan, owned, old(TableRoles(world.table)))) ==>
                && Reaches(plan, specs) && Safe(roles, specs, world.answer)
                && (|| (due <= Atoms(world.revoked) && Atoms(roles.pending) == iset{})
                    || (world.Untracked() && due <= Atoms(roles.pending)))
                && (false !in world.probes && Heeded(world.answer, specs).None? ==> ok)
      ensures ok ==> !world.degraded && Atoms(TableRoles(world.table).active) == Atoms(specs)
      ensures ok ==> Atoms(TableRoles(world.table).pending) == iset{}
      ensures ok ==> Draining(from) + (Known(from) - desired) <= Atoms(world.revoked)
      ensures ok ==> world.saved || world.table == from.table
    {
      hide Atoms, Core, AllAtoms, Keeps, MatchesAny, Draining, Known, AllValid, DrainedPoint, GoodPoint, Covering;
      hide Owned, Recoverable, SameRoles, ValidSnapshot, Exposed, PlanFor, Fits, Reaches, DueFor, Heeded, Safe;
      hide World.Untracked, Loadable, SoundPoint, BelievedTable, Acceptable, MarkedAtoms, CallTrace, CallPoint;
      hide Allowed, Valid, World.Valid, PriorActive;
      ghost var roles := TableRoles(world.table);
      NothingHappened(world.log, from, desired, Allowed(prior, specs, world.degraded));
      var sessionOpen := world.Check();
      if !sessionOpen || (world.record.Some? && !Loadable(world.record.value, world.mark)) {
        GiveUp();
        return false;
      }
      session := world.record;
      ok := Proceed(specs, owned, from, desired, prior);
      if Reaches(PlanFor(owned, specs, world.answer, !world.degraded), specs) && Acceptable(specs, world.mark)
         && Draining(from) + (Known(from) - desired) <= Atoms(DueFor(owned, specs)) {
        Reached(owned, specs, from, desired);
      }
    }

    /** The record, if any, reads back and has room for two more generations. */
    ghost predicate Continued()
      reads world`record
    {
      world.record.Some? ==>
        Loadable(world.record.value, world.mark) && world.record.value.generation + 2 <= MAX_GENERATION
    }

    /** Reconcile the kernel with `specs`. The process may die at any durable
        state of the trace; each of them forgets nothing it must not, opens
        nothing it may not, respects every drain already confirmed, and names only
        what was found or had been active in the kernel by then: to be asked for,
        or to be intended, confers no ownership. What only the record lists is
        exposed while the table is believed: it is forgotten, unless it is asked
        for, exactly when the call replaces the record, as it does whenever it
        succeeds and changes what is active. Where nothing outside fails and the lists
        fit, then whatever the firewall rejects and whether or not connection tracking
        is there, the call ends with the plan committed and all that was due revoked,
        or, if connection tracking was not there, with the plan staged and all that is
        due in the journal; either way nothing is active that is not asked for, that
        was rejected, or whose ingress is still draining. */
    method Replace(specs: seq<Spec>) returns (ok: bool)
      requires Settled()
      modifies this, world`entries, world`log, world`table, world`record, world`revoked, world`deleted, world`trouble
      modifies world`saved, world`reach, world`inherited, world`first, world`found, world`installed, world`degraded
      modifies world`begun, world`probes, world`answer, world`consulted
      ensures old(world.trouble) ==> world.trouble
      ensures Settled() && Extends(old(world.log), world.log)
      ensures var from, desired := Start(old(world.Now())), Atoms(specs) + old(Exposed());
              var allowed := Allowed(old(PriorActive(active, world.Now())), specs, world.degraded);
              CallTrace(world.log, |old(world.log)|, from, desired, allowed)
                  && CallPoint(world.Now(), from, desired, allowed)
      ensures FlowsTo(Start(old(world.Now())), world.log, |old(world.log)|, world.table, world.entries)
      ensures Accounted(world.log, |old(world.log)|, old(Found()), old(world.record))
      ensures var named := old(Found()) + Opened(world.log, |old(world.log)|);
              AccountedPoint(world.Now(), named, old(world.record)) && AllAtoms(Memory()) <= named
      ensures var m, roles := old(Owned(world.table, world.record)), TableRoles(world.table);
              var plan := PlanFor(m, specs, world.answer, !world.degraded);
              var from := Start(old(world.Now()));
              var due := Draining(from) + (Known(from) - Atoms(specs) - old(Exposed()));
              old(Feasible(specs)) && Fits(plan, m, old(TableRoles(world.table))) && !world.trouble ==>
                && Reaches(plan, specs) && Safe(roles, specs, world.answer)
                && (|| (due <= Atoms(world.revoked) && Atoms(roles.pending) == iset{})
                    || (world.Untracked() && due <= Atoms(roles.pending)))
                && (false !in world.probes && Heeded(world.answer, specs).None? ==> ok)
      ensures world.degraded ==> false in world.probes
      ensures ok ==> !world.degraded && Atoms(TableRoles(world.table).active) == Atoms(specs)
      ensures ok ==> Atoms(TableRoles(world.table).pending) == iset{}
      ensures ok ==> var from := Start(old(world.Now()));
                     Draining(from) + (Known(from) - Atoms(specs) - old(Exposed())) <= Atoms(world.revoked)
      ensures (old(Exposed()) - Atoms(specs)) * (Known(world.Now()) + Atoms(world.revoked))
              == if world.saved then iset{} else old(Exposed()) - Atoms(specs)
      ensures if world.saved then world.record.Some? && Loadable(world.record.value, world.mark)
              else world.record == old(world.record)
      ensures ok && Atoms(TableRoles(old(world.table)).active) != Atoms(specs) ==> world.saved
    {
      hide Atoms, Core, AllAtoms, Keeps, MatchesAny, Draining, Known, AllValid, DrainedPoint, GoodPoint, Covering;
      hide GoodTrace;
      hide Feasible, Owned, Recoverable, Welcome, SameRoles, ValidSnapshot, Believed, Imported, AtRest, Exposed, Found;
      hide PlanFor, Fits, Reaches, DueFor, Heeded, Safe, World.Untracked, Continued;
      hide Loadable, SoundPoint, BelievedTable, OneMark, Acceptable, MarkedAtoms, CallTrace, CallPoint;
      hide Allowed;
      hide FlowsTo;
      hide Settled, Valid, World.Valid, PriorActive, World.Sound, World.Rewritten, Opened, Accounted, AccountedPoint;
      ghost var feasible, owned := Feasible(specs), Owned(world.table, world.record);
      if feasible { FeasibleParts(specs); }
      OwnedIsValid();
      ghost var desired, exposed, found := Atoms(specs) + Exposed(), Exposed(), Found();
      ghost var prior := PriorActive(active, world.Now());
      BeginCall(specs);
      ghost var from, start := world.Now(), |world.log|;
      PriorIgnoresRevoked(active, old(world.Now()), from);
      ok := Attempt(specs, owned, from, desired, prior);
      Aftermath(from, found, start, Atoms(specs), exposed);
    }

    /** What has been reached is safe, and nothing that was due is overlooked. */
    lemma Reached(m: Snapshot, specs: seq<Spec>, from: Durable, desired: iset<Atom>)
      requires ValidSnapshot(m) && Acceptable(specs, world.mark)
      requires Reaches(PlanFor(m, specs, world.answer, !world.degraded), specs)
      requires Draining(from) + (Known(from) - desired) <= Atoms(DueFor(m, specs))
      ensures var roles, due := TableRoles(world.table), Draining(from) + (Known(from) - desired);
              && Safe(roles, specs, world.answer)
              && (|| (due <= Atoms(world.revoked) && Atoms(roles.pending) == iset{})
                  || (world.Untracked() && due <= Atoms(roles.pending)))
    {
      DecidedPending(m, specs, Heeded(world.answer, specs), !world.degraded);
      MarkOfAtoms(specs, world.mark);
      hide Atoms, Draining, Known, MakePlan, Heeded, Committed, Staged, Safe, Unique, Retired, History;
      PlanIsSafe(m, specs, world.answer, !world.degraded, TableRoles(world.table));
    }
  }
}
