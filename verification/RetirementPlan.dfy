/** What one reconciliation decides before it touches the kernel: the scopes to
    install next, the scopes that must be revoked first, and the scopes whose
    new admission is suspended by an external firewall. */
module RetirementPlan {
  import opened NftSpecs
  import opened PortAlgebra

  /** A firewall policy rejection: the address families it gates and the scopes
      individually proved safe. */
  datatype Admission = Admission(families: set<int>, permitted: seq<Spec>) {
    predicate Affects(s: Spec) {
      && s.flow
      && (if s.family == 6 then 6 else 4) in families
      && forall p :: p in permitted ==> !ScopeCovers(p, s)
    }
  }

  predicate ScopeCovers(allowed: Spec, actual: Spec) {
    && allowed.flow
    && allowed.ruleId == actual.ruleId
    && allowed.family == actual.family
    && allowed.protocol == actual.protocol
    && allowed.mark == actual.mark
    && allowed.listenHost == actual.listenHost
    && allowed.targetHost == actual.targetHost
    && allowed.listenPort <= actual.listenPort
    && allowed.LastPort() >= actual.LastPort()
    && allowed.targetPort - allowed.listenPort == actual.targetPort - actual.listenPort
  }

  datatype Plan = Plan(next: seq<Spec>, pending: seq<Spec>, suspended: seq<Spec>)

  function Where(specs: seq<Spec>, adm: Admission, affected: bool): seq<Spec> {
    if specs == [] then []
    else
      var s := specs[|specs| - 1];
      Where(specs[..|specs| - 1], adm, affected) + (if adm.Affects(s) == affected then [s] else [])
  }

  method FilterAffected(specs: seq<Spec>, adm: Admission, affected: bool) returns (out: seq<Spec>)
    ensures out == Where(specs, adm, affected)
    ensures AllValid(specs) ==> AllValid(out)
    ensures Atoms(out) <= Atoms(specs)
  {
    out := [];
    for i := 0 to |specs|
      invariant out == Where(specs[..i], adm, affected)
    {
      assert specs[..i + 1][..i] == specs[..i];
      if adm.Affects(specs[i]) == affected {
        out := out + [specs[i]];
      }
    }
    assert specs[..|specs|] == specs;
    forall s ensures s in out ==> s in specs { WhereMembers(specs, adm, affected, s); }
  }

  lemma {:induction false} WhereMembers(specs: seq<Spec>, adm: Admission, affected: bool, s: Spec)
    ensures s in Where(specs, adm, affected) <==> s in specs && adm.Affects(s) == affected
  {
    if specs != [] {
      WhereMembers(specs[..|specs| - 1], adm, affected, s);
      assert specs == specs[..|specs| - 1] + [specs[|specs| - 1]];
    }
  }

  function History(active: seq<Spec>, suspended: seq<Spec>): seq<Spec> {
    Unique(active + suspended)
  }

  function MakePlan(active: seq<Spec>, pending: seq<Spec>, suspended: seq<Spec>, desired: seq<Spec>,
                    admission: Option<Admission>, available: bool): Plan
  {
    var history := History(active, suspended);
    var retired := Retired(history, desired);
    var open := match admission
      case None => desired
      case Some(adm) => Where(desired, adm, false);
    var held := match admission
      case None => []
      case Some(adm) => Where(Gate(history, retired), adm, true);
    Plan(if available then open else PreviouslyAdmitted(open, active), Unique(pending + retired), held)
  }

  ghost predicate Tracks(plan: Plan, a: Atom) {
    Owns(plan.next, a) || Owns(plan.pending, a) || Owns(plan.suspended, a)
  }

  /** One tuple, one scope: no two different scopes share an ingress cell. */
  ghost predicate ConflictFree(specs: seq<Spec>) {
    forall s, t, a :: s in specs && t in specs && s.Has(a) && ClaimsIngress(t, a) ==> s == t
  }

  lemma HistoryIsValid(active: seq<Spec>, suspended: seq<Spec>)
    requires AllValid(active) && AllValid(suspended)
    ensures AllValid(History(active, suspended))
    ensures Atoms(History(active, suspended)) == Atoms(active) + Atoms(suspended)
  {
    assert forall s :: s in active + suspended ==> s in active || s in suspended;
    UniqueKeepsAtoms(active + suspended);
    AtomsOfConcat(active, suspended);
  }

  /** Every tuple the administrator no longer wants, and every tuple already
      draining, is scheduled for revocation whatever the firewall or the
      connection-tracking tool reports. */
  lemma UndesiredIsPending(active: seq<Spec>, pending: seq<Spec>, suspended: seq<Spec>, desired: seq<Spec>,
                           admission: Option<Admission>, available: bool)
    requires AllValid(active) && AllValid(suspended) && AllValid(pending)
    ensures Atoms(MakePlan(active, pending, suspended, desired, admission, available).pending)
            == Atoms(pending) + (Atoms(active) + Atoms(suspended) - Atoms(desired))
    ensures AllValid(MakePlan(active, pending, suspended, desired, admission, available).pending)
  {
    var history := History(active, suspended);
    HistoryIsValid(active, suspended);
    RetiredIsDifference(history, desired);
    var all := pending + Retired(history, desired);
    assert AllValid(all);
    UniqueKeepsAtoms(all);
    AtomsOfConcat(pending, Retired(history, desired));
  }

  /** An undesired tuple of the history receives what `h` receives at this port. */
  ghost predicate Taken(history: seq<Spec>, desired: seq<Spec>, h: Spec, port: int) {
    exists b :: Owns(history, b) && !Owns(desired, b) && b.listenPort == port
                && b.family == h.family && b.protocol == h.protocol && HostsOverlap(b.listenHost, h.listenHost)
  }

  /** `h` has the port, and it is not taken. */
  ghost predicate Free(history: seq<Spec>, desired: seq<Spec>, h: Spec, port: int) {
    h.listenPort <= port <= h.LastPort() && !Taken(history, desired, h, port)
  }

  ghost predicate OpenRun(history: seq<Spec>, desired: seq<Spec>, h: Spec, p: int, q: int) {
    forall r :: p <= r <= q || q <= r <= p ==> Free(history, desired, h, r)
  }

  lemma TakenIsHit(history: seq<Spec>, desired: seq<Spec>, h: Spec, port: int)
    requires AllValid(history)
    ensures Hit(h, Retired(history, desired), IngressClash, port) <==> Taken(history, desired, h, port)
  {
    var retired, hit := Retired(history, desired), IngressClash;
    RetiredIsDifference(history, desired);
    hide Retired;
    if Taken(history, desired, h, port) {
      var b :| Owns(history, b) && !Owns(desired, b) && b.listenPort == port
               && b.family == h.family && b.protocol == h.protocol && HostsOverlap(b.listenHost, h.listenHost);
      assert b in Atoms(retired);
      var o :| o in retired && o.Has(b);
      assert hit(o, h);
    }
    if Hit(h, retired, hit, port) {
      var o :| o in retired && hit(o, h) && o.listenPort <= port <= o.LastPort();
      var b := Atom(o.ruleId, o.family, o.protocol, o.mark, o.listenHost, o.targetHost, port,
                    o.targetPort + (port - o.listenPort));
      assert o.Has(b) && b in Atoms(retired);
    }
  }

  lemma OpenRunIsReach(history: seq<Spec>, desired: seq<Spec>, h: Spec, p: int, q: int)
    requires AllValid(history)
    ensures Reaches(h, Retired(history, desired), IngressClash, p, q) <==> OpenRun(history, desired, h, p, q)
  {
    var retired, hit := Retired(history, desired), IngressClash;
    forall r ensures Closed(h, retired, hit, r) <==> !Free(history, desired, h, r) {
      TakenIsHit(history, desired, h, r);
    }
    hide Retired, Free, Closed;
    assert Reaches(h, retired, hit, p, q) <==> OpenRun(history, desired, h, p, q);
  }

  /** The history has the tuple through `h`, at a free port. */
  ghost predicate Offers(history: seq<Spec>, desired: seq<Spec>, h: Spec, a: Atom) {
    h in history && h.Has(a) && Free(history, desired, h, a.listenPort)
  }

  /** `g` is the part of `h` along the open run around the tuple. */
  ghost predicate PieceOf(history: seq<Spec>, desired: seq<Spec>, h: Spec, g: Spec, a: Atom) {
    && g.Has(a) && g.flow == h.flow && g.listenPort <= g.LastPort()
    && forall q :: g.listenPort <= q <= g.LastPort() <==> OpenRun(history, desired, h, a.listenPort, q)
  }

  lemma SliceIsPiece(history: seq<Spec>, desired: seq<Spec>, h: Spec, part: Interval, a: Atom)
    requires AllValid(history) && h in history
    requires part in Remaining(h, Retired(history, desired), IngressClash)
    requires h.Has(a) && part.first <= a.listenPort <= part.last
    ensures Offers(history, desired, h, a) && PieceOf(history, desired, h, Slice(h, part), a)
  {
    var retired, hit := Retired(history, desired), IngressClash;
    RetiredIsDifference(history, desired);
    RemainingExact(h, retired, hit, a.listenPort);
    SliceDenotation(h, part, a);
    TakenIsHit(history, desired, h, a.listenPort);
    hide Retired, Taken, OpenRun, Reaches, Remaining;
    forall q ensures part.first <= q <= part.last <==> OpenRun(history, desired, h, a.listenPort, q) {
      PieceIsReach(h, retired, hit, part, a.listenPort, q);
      OpenRunIsReach(history, desired, h, a.listenPort, q);
    }
  }

  /** What is gated is made of pieces, and every open tuple has its piece. */
  lemma GatedPieces(history: seq<Spec>, desired: seq<Spec>, a: Atom)
    requires AllValid(history)
    ensures var open := Gate(history, Retired(history, desired));
            && (forall g :: g in open && g.Has(a) ==>
                  exists h :: Offers(history, desired, h, a) && PieceOf(history, desired, h, g, a))
            && (forall h :: Offers(history, desired, h, a) ==>
                  exists g :: g in open && PieceOf(history, desired, h, g, a))
  {
    var retired, hit := Retired(history, desired), IngressClash;
    var open := Gate(history, retired);
    hide PieceOf, Taken, Retired, Remaining;
    forall g | g in open && g.Has(a)
      ensures exists h :: Offers(history, desired, h, a) && PieceOf(history, desired, h, g, a)
    {
      CarveMembers(history, retired, hit, g);
      var h, part :| h in history && part in Remaining(h, retired, hit) && g == Slice(h, part);
      RemainingExact(h, retired, hit, a.listenPort);
      SliceDenotation(h, part, a);
      SliceIsPiece(history, desired, h, part, a);
    }
    forall h | Offers(history, desired, h, a) ensures exists g :: g in open && PieceOf(history, desired, h, g, a) {
      TakenIsHit(history, desired, h, a.listenPort);
      RemainingExact(h, retired, hit, a.listenPort);
      var part :| part in Remaining(h, retired, hit) && part.first <= a.listenPort <= part.last;
      SliceIsPiece(history, desired, h, part, a);
      CarveMembers(history, retired, hit, Slice(h, part));
    }
  }

  /** The firewall gates the tuple's family, and did not permit an accelerated
      `n` that spans the whole open run of `h` around the tuple. */
  ghost predicate Withheld(history: seq<Spec>, desired: seq<Spec>, adm: Admission, n: Spec, h: Spec, a: Atom) {
    && (if a.family == 6 then 6 else 4) in adm.families
    && !(n in adm.permitted && n.flow && Spans(history, desired, h, n, a.listenPort))
  }

  /** Some accelerated scope of the history has the tuple and is withheld. */
  ghost predicate StaysSuspended(history: seq<Spec>, desired: seq<Spec>, adm: Admission, n: Spec, a: Atom) {
    exists h :: Offers(history, desired, h, a) && h.flow && Withheld(history, desired, adm, n, h, a)
  }

  ghost predicate Spans(history: seq<Spec>, desired: seq<Spec>, h: Spec, n: Spec, port: int) {
    forall q :: OpenRun(history, desired, h, port, q) ==> n.listenPort <= q <= n.LastPort()
  }

  /** Only the desired scope that has the tuple can permit a piece with it. */
  lemma PieceIsAffected(history: seq<Spec>, desired: seq<Spec>, adm: Admission, n: Spec, h: Spec, g: Spec, a: Atom)
    requires ConflictFree(desired) && n in desired && n.Has(a)
    requires forall p :: p in adm.permitted ==> p in desired
    requires h.Has(a) && PieceOf(history, desired, h, g, a)
    ensures adm.Affects(g) <==> h.flow && Withheld(history, desired, adm, n, h, a)
  {
    hide OpenRun, Taken;
    forall p | p in adm.permitted && ScopeCovers(p, g) ensures p == n {
      assert p.Has(a) && ClaimsIngress(p, a);
    }
    if g.flow {
      assert n.flow && Spans(history, desired, h, n, a.listenPort) <==> ScopeCovers(n, g) by {
        if Spans(history, desired, h, n, a.listenPort) {
          assert OpenRun(history, desired, h, a.listenPort, g.listenPort);
          assert OpenRun(history, desired, h, a.listenPort, g.LastPort());
        }
      }
    }
  }

  lemma HeldOwns(history: seq<Spec>, desired: seq<Spec>, adm: Admission, n: Spec, a: Atom)
    requires AllValid(history) && ConflictFree(desired) && n in desired && n.Has(a)
    requires forall p :: p in adm.permitted ==> p in desired
    ensures Owns(Where(Gate(history, Retired(history, desired)), adm, true), a)
            <==> StaysSuspended(history, desired, adm, n, a)
  {
    hide Where, Gate, Retired, ConflictFree, Withheld, PieceOf, Taken, Admission.Affects, ValidSpec;
    var open := Gate(history, Retired(history, desired));
    var held := Where(open, adm, true);
    forall g ensures g in held <==> g in open && adm.Affects(g) { WhereMembers(open, adm, true, g); }
    GatedPieces(history, desired, a);
    if Owns(held, a) {
      var g :| g in held && g.Has(a);
      var h :| Offers(history, desired, h, a) && PieceOf(history, desired, h, g, a);
      PieceIsAffected(history, desired, adm, n, h, g, a);
    }
    if StaysSuspended(history, desired, adm, n, a) {
      var h :| Offers(history, desired, h, a) && h.flow && Withheld(history, desired, adm, n, h, a);
      var g :| g in open && PieceOf(history, desired, h, g, a);
      PieceIsAffected(history, desired, adm, n, h, g, a);
      assert g in held && g.Has(a) by { PieceHas(history, desired, h, g, a); }
    }
  }

  lemma PieceHas(history: seq<Spec>, desired: seq<Spec>, h: Spec, g: Spec, a: Atom)
    requires PieceOf(history, desired, h, g, a)
    ensures g.Has(a)
  {
  }

  ghost predicate HeldBack(admission: Option<Admission>, n: Spec) {
    admission.Some? && admission.value.Affects(n)
  }

  function Open(desired: seq<Spec>, admission: Option<Admission>): seq<Spec> {
    match admission
    case None => desired
    case Some(adm) => Where(desired, adm, false)
  }

  lemma OpenOwns(desired: seq<Spec>, admission: Option<Admission>, n: Spec, a: Atom)
    requires ConflictFree(desired) && n in desired && n.Has(a)
    ensures Owns(Open(desired, admission), a) <==> !HeldBack(admission, n)
  {
    var open := Open(desired, admission);
    forall s ensures s in open <==> s in desired && !HeldBack(admission, s) {
      if admission.Some? { WhereMembers(desired, admission.value, false, s); }
    }
    if Owns(open, a) {
      var m :| m in open && m.Has(a);
      assert ClaimsIngress(n, a);
    }
  }

  lemma NextOwns(active: seq<Spec>, desired: seq<Spec>, admission: Option<Admission>, available: bool, n: Spec, a: Atom)
    requires AllValid(desired) && ConflictFree(desired) && n in desired && n.Has(a)
    ensures var open := Open(desired, admission);
            Owns(if available then open else PreviouslyAdmitted(open, active), a)
            <==> !HeldBack(admission, n) && (available || AdmittedBefore(n, active, a))
  {
    var open := Open(desired, admission);
    OpenOwns(desired, admission, n, a);
    forall s ensures s in open <==> s in desired && !HeldBack(admission, s) {
      if admission.Some? { WhereMembers(desired, admission.value, false, s); }
    }
    if !available {
      PreviouslyAdmittedExact(open, active);
      if SomeAdmittedBefore(open, active, a) {
        var m :| m in open && AdmittedBefore(m, active, a);
        assert ClaimsIngress(n, a);
        assert m == n;
      }
    }
  }

  /** Which established tuples a reconciliation keeps track of, for any history.
      A tuple `a` that is still wanted, through scope `n`, is remembered exactly
      when it was draining already; or `n` is not held back by the firewall and
      connection tracking is available or the tuple was active at no lower
      offload; or an accelerated scope of the history stays suspended for it. In
      every other case the code drops the tuple without revoking it: the two
      families of inputs are shown by `UpgradeIsForgotten` and
      `ResumedIsForgotten`. */
  lemma KeptIsTrackedExactly(active: seq<Spec>, pending: seq<Spec>, suspended: seq<Spec>, desired: seq<Spec>,
                             admission: Option<Admission>, available: bool, n: Spec, a: Atom)
    requires AllValid(active) && AllValid(suspended) && AllValid(pending) && AllValid(desired)
    requires ConflictFree(desired)
    requires admission.Some? ==> forall p :: p in admission.value.permitted ==> p in desired
    requires n in desired && n.Has(a)
    ensures Tracks(MakePlan(active, pending, suspended, desired, admission, available), a) <==>
              || Owns(pending, a)
              || (!HeldBack(admission, n) && (available || AdmittedBefore(n, active, a)))
              || (admission.Some? && StaysSuspended(History(active, suspended), desired, admission.value, n, a))
  {
    var history := History(active, suspended);
    var plan := MakePlan(active, pending, suspended, desired, admission, available);
    HistoryIsValid(active, suspended);
    assert Owns(plan.pending, a) <==> Owns(pending, a) by {
      UndesiredIsPending(active, pending, suspended, desired, admission, available);
      assert a in Atoms(desired);
      assert Owns(pending, a) <==> a in Atoms(pending);
      assert Owns(plan.pending, a) <==> a in Atoms(plan.pending);
    }
    NextOwns(active, desired, admission, available, n, a);
    if admission.Some? { HeldOwns(history, desired, admission.value, n, a); }
  }

  /** A scope that the firewall holds back keeps a tuple tracked exactly when the
      history accelerated it at a port that nothing undesired takes. */
  lemma HeldBackIsTrackedExactly(active: seq<Spec>, pending: seq<Spec>, suspended: seq<Spec>, desired: seq<Spec>,
                                 adm: Admission, available: bool, n: Spec, a: Atom)
    requires AllValid(active) && AllValid(suspended) && AllValid(pending) && AllValid(desired)
    requires ConflictFree(desired)
    requires forall p :: p in adm.permitted ==> p in desired
    requires n in desired && n.Has(a) && adm.Affects(n)
    ensures var history := History(active, suspended);
            Tracks(MakePlan(active, pending, suspended, desired, Some(adm), available), a) <==>
              || Owns(pending, a)
              || exists h :: Offers(history, desired, h, a) && h.flow
  {
    KeptIsTrackedExactly(active, pending, suspended, desired, Some(adm), available, n, a);
    hide Taken, MakePlan, History, Tracks, ConflictFree;
    assert n !in adm.permitted by {
      assert ScopeCovers(n, n);
    }
  }

  /** Without a firewall rejection and with connection tracking available,
      reconciliation forgets nothing at all. */
  lemma HealthyPlanForgetsNothing(active: seq<Spec>, pending: seq<Spec>, suspended: seq<Spec>, desired: seq<Spec>,
                                  a: Atom)
    requires AllValid(active) && AllValid(suspended) && AllValid(pending)
    requires Owns(active, a) || Owns(suspended, a) || Owns(pending, a)
    ensures Tracks(MakePlan(active, pending, suspended, desired, None, true), a)
  {
    UndesiredIsPending(active, pending, suspended, desired, None, true);
    if !Owns(desired, a) {
      assert a in Atoms(MakePlan(active, pending, suspended, desired, None, true).pending);
    } else if Owns(pending, a) {
      assert a in Atoms(MakePlan(active, pending, suspended, desired, None, true).pending);
    }
  }

  lemma SingleHistory(active: seq<Spec>, suspended: seq<Spec>, s: Spec)
    requires active + suspended == [s]
    ensures History(active, suspended) == [s] && ConflictFree([s])
  {
    assert [s][..0] == [];
    assert Unique([s]) == Without([], s.Key()) + [s];
  }

  /** Turning acceleration on for a live plain scope while the firewall gates
      its family: every tuple of the scope leaves every list unrevoked. */
  lemma UpgradeIsForgotten(s: Spec, adm: Admission, a: Atom)
    requires ValidSpec(s) && !s.flow && s.Has(a)
    requires adm.permitted == [] && s.family in adm.families
    ensures !Tracks(MakePlan([s], [], [], [s.(flow := true)], Some(adm), true), a)
  {
    var n := s.(flow := true);
    SingleHistory([s], [], s);
    assert s in [s] && n in [n] && n.Has(a);
    assert adm.Affects(n);
    KeptIsTrackedExactly([s], [], [], [n], Some(adm), true, n, a);
  }

  /** Resuming a suspended scope after the firewall cleared, while connection
      tracking is unavailable: every tuple leaves every list unrevoked. */
  lemma ResumedIsForgotten(s: Spec, a: Atom)
    requires ValidSpec(s) && s.Has(a)
    ensures !Tracks(MakePlan([], [], [s], [s], None, false), a)
  {
    SingleHistory([], [s], s);
    assert s in [s];
    KeptIsTrackedExactly([], [], [s], [s], None, false, s, a);
  }

  const SAMPLE := Spec("rule", 4, V4(167772161), 80, 0, V4(167772162), 8080, 0, TCP, 1, false)
  const SAMPLE_ATOM := Atom("rule", 4, TCP, 1, V4(167772161), V4(167772162), 80, 8080)

  /** Both families are inhabited. */
  lemma ForgettingHappens()
    ensures Owns([SAMPLE], SAMPLE_ATOM)
    ensures !Tracks(MakePlan([SAMPLE], [], [], [SAMPLE.(flow := true)], Some(Admission({4}, [])), true), SAMPLE_ATOM)
    ensures !Tracks(MakePlan([], [], [SAMPLE], [SAMPLE], None, false), SAMPLE_ATOM)
  {
    assert SAMPLE in [SAMPLE] && SAMPLE.Has(SAMPLE_ATOM);
    UpgradeIsForgotten(SAMPLE, Admission({4}, []), SAMPLE_ATOM);
    ResumedIsForgotten(SAMPLE, SAMPLE_ATOM);
  }

  /** A plan of valid scopes is valid in every list that it installs. */
  lemma PlanIsValid(active: seq<Spec>, pending: seq<Spec>, suspended: seq<Spec>, desired: seq<Spec>,
                    admission: Option<Admission>, available: bool)
    requires AllValid(active) && AllValid(suspended) && AllValid(desired)
    ensures var plan := MakePlan(active, pending, suspended, desired, admission, available);
            AllValid(plan.next) && AllValid(plan.suspended)
  {
    var history := History(active, suspended);
    var kept, open := Gate(history, Retired(history, desired)), Open(desired, admission);
    HistoryIsValid(active, suspended);
    GateIsOpenPart(history, Retired(history, desired));
    if admission.Some? {
      forall s ensures s in open ==> s in desired { WhereMembers(desired, admission.value, false, s); }
      forall s ensures s in Where(kept, admission.value, true) ==> s in kept {
        WhereMembers(kept, admission.value, true, s);
      }
    }
    PreviouslyAdmittedExact(open, active);
  }

  // ----- What the firewall rejects is in no list that is installed -----

  predicate PartOf(g: Spec, s: Spec) {
    && SameScope(g, s) && g.flow == s.flow
    && s.listenPort <= g.listenPort && g.LastPort() <= s.LastPort()
  }

  lemma PartIsUnaffected(g: Spec, s: Spec, adm: Admission)
    requires PartOf(g, s) && !adm.Affects(s)
    ensures !adm.Affects(g)
  {
    if g.flow {
      forall p | p in adm.permitted && ScopeCovers(p, s) ensures ScopeCovers(p, g) {
      }
    }
  }

  lemma GatedIsPart(desired: seq<Spec>, pending: seq<Spec>, g: Spec)
    requires AllValid(desired) && g in Gate(desired, pending)
    ensures exists s :: s in desired && PartOf(g, s)
  {
    CarveMembers(desired, pending, IngressClash, g);
    var s, part :| s in desired && part in Remaining(s, pending, IngressClash) && g == Slice(s, part);
    RemainingExact(s, pending, IngressClash, s.listenPort);
    assert PartOf(g, s);
  }

  lemma {:induction false} KeptIsPart(desired: seq<Spec>, active: seq<Spec>, g: Spec)
    requires AllValid(desired) && g in KeptAll(desired, active)
    ensures exists s :: s in desired && PartOf(g, s)
  {
    hide Gate, Retired, Compatible, PartOf, ValidSpec;
    var n := |desired| - 1;
    var front, last := desired[..n], desired[n];
    assert desired == front + [last];
    if g in KeptAll(front, active) {
      KeptIsPart(front, active, g);
    } else {
      assert g in Kept(last, active);
      GatedIsPart([last], Retired([last], Compatible(last, active)), g);
    }
  }

  /** No scope that the plan installs, before or after the drain, is one that the
      firewall rejected. */
  lemma PlanIsUnaffected(m: Snapshot, desired: seq<Spec>, adm: Admission, available: bool)
    requires AllValid(desired)
    ensures var plan := MakePlan(m.active, m.pending, m.suspended, desired, Some(adm), available);
            && (forall s :: s in plan.next ==> !adm.Affects(s))
            && forall s :: s in Gate(plan.next, plan.pending) ==> !adm.Affects(s)
  {
    var open := Where(desired, adm, false);
    var kept := PreviouslyAdmitted(open, m.active);
    var next := if available then open else kept;
    forall s ensures s in open <==> s in desired && !adm.Affects(s) { WhereMembers(desired, adm, false, s); }
    PreviouslyAdmittedExact(open, m.active);
    hide Where, Admission.Affects, PartOf, KeptAll, Gate;
    forall g | g in kept ensures !adm.Affects(g) {
      UniqueIsSmaller(KeptAll(open, m.active));
      KeptIsPart(open, m.active, g);
      var s :| s in open && PartOf(g, s);
      PartIsUnaffected(g, s, adm);
    }
    var pending := Unique(m.pending + Retired(History(m.active, m.suspended), desired));
    forall g | g in Gate(next, pending) ensures !adm.Affects(g) {
      GatedIsPart(next, pending, g);
      var s :| s in next && PartOf(g, s);
      PartIsUnaffected(g, s, adm);
    }
  }
}
