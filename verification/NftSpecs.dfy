/** Forwarding scopes of the nftables data plane and the atoms they denote.

    A scope is a contiguous range of listen ports with a constant offset to its
    target ports. Everything the retirement protocol promises is about single
    forwarding tuples, so a scope is read as the set of atoms it contains. */
module NftSpecs {

  datatype Option<+T> = None | Some(value: T)

  /** A zone-free IP literal. */
  datatype Addr = V4(bits: nat) | V6(bits: nat) {
    predicate Unspecified() { bits == 0 }
  }

  datatype Transport = TCP | UDP

  /** One kernel forwarding scope. `listenPortEnd == 0` means a single port, and
      the same for the target. `ruleId` stands for the rule's full identity. */
  datatype Spec = Spec(
    ruleId: string,
    family: int,
    listenHost: Addr,
    listenPort: int,
    listenPortEnd: int,
    targetHost: Addr,
    targetPort: int,
    targetPortEnd: int,
    protocol: Transport,
    mark: nat,
    flow: bool
  ) {
    function LastPort(): int { if listenPortEnd == 0 then listenPort else listenPortEnd }

    function LastTargetPort(): int { if targetPortEnd == 0 then targetPort else targetPortEnd }

    /** The key under which two scopes count as the same retirement obligation:
        every field except acceleration, with the ends written out. */
    function Key(): Spec {
      this.(listenPortEnd := LastPort(), targetPortEnd := LastTargetPort(), flow := false)
    }

    predicate Has(a: Atom) {
      && a.ruleId == ruleId
      && a.family == family
      && a.protocol == protocol
      && a.mark == mark
      && a.listenHost == listenHost
      && a.targetHost == targetHost
      && 1 <= a.listenPort
      && listenPort <= a.listenPort <= LastPort()
      && a.targetPort == targetPort + (a.listenPort - listenPort)
    }
  }

  /** A single forwarding tuple. */
  datatype Atom = Atom(
    ruleId: string,
    family: int,
    protocol: Transport,
    mark: nat,
    listenHost: Addr,
    targetHost: Addr,
    listenPort: int,
    targetPort: int
  )

  predicate FamilyMatches(host: Addr, family: int) {
    host.V4? <==> family == 4
  }

  /** The tuple check made before a scope is persisted, rendered or revoked. */
  predicate ValidSpec(s: Spec) {
    && (s.family == 4 || s.family == 6)
    && s.mark != 0
    && FamilyMatches(s.listenHost, s.family)
    && FamilyMatches(s.targetHost, s.family)
    && 1 <= s.listenPort <= s.LastPort() <= 65535
    && 1 <= s.targetPort <= s.LastTargetPort() <= 65535
    && s.LastPort() - s.listenPort == s.LastTargetPort() - s.targetPort
    && s.LastPort() - s.listenPort + 1 <= 4096
  }

  predicate AllValid(specs: seq<Spec>) {
    forall s :: s in specs ==> ValidSpec(s)
  }

  /** The check every scope passes before anything is written: it is valid and
      carries this instance's mark. */
  predicate Acceptable(specs: seq<Spec>, mark: nat) {
    forall s :: s in specs ==> s.mark == mark && ValidSpec(s)
  }

  ghost predicate Owns(specs: seq<Spec>, a: Atom) {
    exists s :: s in specs && s.Has(a)
  }

  ghost function Atoms(specs: seq<Spec>): iset<Atom> {
    iset a | Owns(specs, a)
  }

  // ----- What is owned, by role -----

  datatype Snapshot = Snapshot(active: seq<Spec>, pending: seq<Spec>, suspended: seq<Spec>) {
    function Size(): nat { |active| + |pending| + |suspended| }
  }

  const EMPTY := Snapshot([], [], [])

  /** How many scopes a journal or a record may hold in all roles. */
  const MAX_ENTRIES := 4096 * 4

  /** A new record has no phase until it is first written. */
  datatype Phase = Unwritten | Prepare | Checkpoint

  const MAX_GENERATION := 0xFFFF_FFFF_FFFF_FFFF

  ghost function Core(s: Snapshot): iset<Atom> { Atoms(s.active) + Atoms(s.pending) }

  ghost function AllAtoms(s: Snapshot): iset<Atom> { Core(s) + Atoms(s.suspended) }

  predicate ValidSnapshot(s: Snapshot) {
    AllValid(s.active) && AllValid(s.pending) && AllValid(s.suspended)
  }

  predicate AcceptableSnapshot(s: Snapshot, mark: nat) {
    Acceptable(s.active, mark) && Acceptable(s.pending, mark) && Acceptable(s.suspended, mark)
  }

  predicate DistinctKeys(specs: seq<Spec>) {
    forall i, j :: 0 <= i < j < |specs| ==> specs[i].Key() != specs[j].Key()
  }

  /** What the recovery record may hold: bounded, owned, valid and without
      duplicates in any role. */
  predicate Storable(s: Snapshot, mark: nat) {
    && s.Size() <= MAX_ENTRIES && AcceptableSnapshot(s, mark)
    && DistinctKeys(s.active) && DistinctKeys(s.pending) && DistinctKeys(s.suspended)
  }

  /** What the reader of the kernel journal accepts. */
  predicate Journaled(s: Snapshot, mark: nat) {
    s.Size() <= MAX_ENTRIES && AcceptableSnapshot(s, mark)
  }

  /** Two listen hosts receive a common packet when they are equal or one of
      them is the wildcard of its family. */
  predicate HostsOverlap(x: Addr, y: Addr) {
    x.Unspecified() || y.Unspecified() || x == y
  }

  /** Whether two scopes could both receive one packet at some port. */
  predicate IngressClash(prior: Spec, next: Spec) {
    && prior.family == next.family
    && prior.protocol == next.protocol
    && HostsOverlap(prior.listenHost, next.listenHost)
  }

  /** Whether the ingress of `s` contains a packet that the atom receives. */
  predicate ClaimsIngress(s: Spec, a: Atom) {
    && s.family == a.family
    && s.protocol == a.protocol
    && HostsOverlap(s.listenHost, a.listenHost)
    && s.listenPort <= a.listenPort <= s.LastPort()
  }

  /** No atom of `xs` has its ingress claimed by a scope of `ys`. */
  ghost predicate IngressDisjoint(xs: seq<Spec>, ys: seq<Spec>) {
    forall a, y :: Owns(xs, a) && y in ys ==> !ClaimsIngress(y, a)
  }

  lemma AtomsOfConcat(xs: seq<Spec>, ys: seq<Spec>)
    ensures Atoms(xs + ys) == Atoms(xs) + Atoms(ys)
  {
    forall a
      ensures a in Atoms(xs + ys) <==> a in Atoms(xs) + Atoms(ys)
    {
      if Owns(xs, a) {
        var s :| s in xs && s.Has(a);
        assert s in xs + ys;
      }
      if Owns(ys, a) {
        var s :| s in ys && s.Has(a);
        assert s in xs + ys;
      }
    }
  }
}
