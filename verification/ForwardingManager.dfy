/** The manager: how a configuration, the kernel's reported state and the Go
    listeners are reconciled, and what the status rows then say. */
module ForwardingManager {
  import opened NftSpecs
  import opened RulePlan
  import opened Text

  /** What the kernel backend reports about itself. */
  datatype KernelState = KernelState(active: seq<Spec>, pending: seq<Spec>, suspended: seq<Spec>, verified: bool,
                                     unknown: bool)

  datatype Health = Healthy | Unhealthy | AdmissionDenied | InspectionFailed

  /** The kernel backend as the manager sees it: any call may end in any state.
      Ghost fields record what was asked since the last inspection, and the
      answers. */
  class Kernel {
    var state: KernelState
    ghost var health: Health
    ghost var asked: Option<seq<Spec>>
    ghost var accepted: bool

    constructor (state: KernelState)
      ensures this.state == state
    {
      this.state := state;
    }

    method Inspect(specs: seq<Spec>) returns (health: Health)
      modifies this
      ensures this.health == health && asked == None
    {
      var after: KernelState := *;
      state := after;
      health := *;
      this.health, asked := health, None;
    }

    method Replace(specs: seq<Spec>) returns (ok: bool)
      modifies this
      ensures asked == Some(specs) && accepted == ok && health == old(health)
    {
      var after: KernelState := *;
      state := after;
      ok := *;
      asked, accepted := Some(specs), ok;
    }
  }

  /** Binding a listener's socket may fail; the failures are recorded. */
  class Sockets {
    ghost var refused: set<PathKey>

    constructor ()
      ensures refused == {}
    {
      refused := {};
    }

    method Start(key: PathKey) returns (ok: bool)
      modifies this
      ensures refused == old(refused) + if ok then {} else {key}
    {
      ok := *;
      refused := refused + if ok then {} else {key};
    }
  }

  /** A row's reported status. `Lingering` rows count as running: forwarding that
      was to be revoked may still be active. */
  datatype Status = Down | Failed | Up | Lingering(suspended: bool) {
    predicate Running() { Up? || Lingering? }
  }

  datatype DataPlane = Disabled | KernelPlane | GoPlane | Hybrid {
    predicate UsesKernel() { KernelPlane? || Hybrid? }
  }

  datatype KernelEvidence = RetirementPending | AdmissionSuspended | ActiveVerified | ActiveUnverified | NotKnown

  const UNKNOWN_BASE := "kernel-recovery-unverified"
  const UNKNOWN_IDENTITY := "unknown"
  const PENDING_BASE := "kernel-pending-"

  /** Everything the kernel may still forward that should be gone. */
  function Potential(state: KernelState, inspectionFailed: bool): seq<Spec> {
    state.pending + state.suspended + if state.verified && !inspectionFailed then [] else state.active
  }

  /** Whether a Go listener of the rule could receive what the scope forwards. */
  predicate GoRuleOverlaps(rule: Rule, spec: Spec) {
    && rule.protocol.Carries(spec.protocol)
    && spec.listenPort <= rule.LastListenPort() && rule.listenPort <= spec.LastPort()
    && exists l :: l in ListenFamilies(rule.listenHost) && l.family == spec.family
                   && (l.host.Unspecified() || spec.listenHost.Unspecified() || l.host == spec.listenHost)
  }

  /** A packet the scope forwards. */
  predicate ScopeReceives(spec: Spec, c: Cell) {
    && spec.protocol == c.transport && spec.family == Family(c.addr)
    && spec.listenPort <= c.port <= spec.LastPort()
    && (spec.listenHost.Unspecified() || spec.listenHost == c.addr)
  }

  /** The overlap test is exact: it holds if and only if some packet would reach
      both the listener and the scope. */
  lemma OverlapIsSharedCell(rule: Rule, spec: Spec)
    requires ValidRule(rule) && ValidSpec(spec)
    ensures GoRuleOverlaps(rule, spec) <==> exists c :: Receives(rule, c) && ScopeReceives(spec, c)
  {
    if GoRuleOverlaps(rule, spec) {
      var l :| l in ListenFamilies(rule.listenHost) && l.family == spec.family
               && (l.host.Unspecified() || spec.listenHost.Unspecified() || l.host == spec.listenHost);
      var port := if rule.listenPort >= spec.listenPort then rule.listenPort else spec.listenPort;
      var c := Cell(spec.protocol, if spec.listenHost.Unspecified() then l.host else spec.listenHost, port);
      assert Receives(rule, c) && ScopeReceives(spec, c);
    }
  }

  predicate SpecInstalled(spec: Spec, active: seq<Spec>) {
    exists s :: s in active && s.Key() == spec.Key() && s.flow == spec.flow
  }

  // ----- Tombstone names -----

  /** The i-th name tried for a tombstone. */
  function Candidate(base: string, i: nat): string {
    if i == 0 then base else base + "-" + Decimal(i)
  }

  lemma CandidatesDiffer(base: string, i: nat, j: nat)
    requires Candidate(base, i) == Candidate(base, j)
    ensures i == j
  {
    if i != 0 && j != 0 {
      assert (base + "-" + Decimal(i))[|base| + 1..] == Decimal(i);
      assert (base + "-" + Decimal(j))[|base| + 1..] == Decimal(j);
      DecimalIsInjective(i, j);
    }
  }

  ghost function Candidates(base: string, n: nat): set<string> {
    set i | 0 <= i < n :: Candidate(base, i)
  }

  lemma {:induction false} CountCandidates(base: string, n: nat)
    ensures |Candidates(base, n)| == n
  {
    if n == 0 {
      assert Candidates(base, 0) == {};
    } else {
      CountCandidates(base, n - 1);
      forall i | 0 <= i < n - 1 ensures Candidate(base, i) != Candidate(base, n - 1) {
        if Candidate(base, i) == Candidate(base, n - 1) { CandidatesDiffer(base, i, n - 1); }
      }
      assert Candidates(base, n) == Candidates(base, n - 1) + {Candidate(base, n - 1)};
    }
  }

  lemma SubsetSize<T>(a: set<T>, b: set<T>)
    requires a <= b
    ensures |a| <= |b|
  {
    assert b == a + (b - a);
  }

  /** More names are tried than can be taken, so the search cannot run dry. */
  lemma SomeCandidateIsFree(base: string, rules: set<string>, desired: set<string>)
    ensures exists i :: 0 <= i <= |rules| + |desired| && Candidate(base, i) !in rules && Candidate(base, i) !in desired
  {
    var n := |rules| + |desired| + 1;
    CountCandidates(base, n);
    SubsetSize(desired - rules, desired);
    assert rules + desired == rules + (desired - rules);
    if Candidates(base, n) <= rules + desired {
      SubsetSize(Candidates(base, n), rules + desired);
      assert false;
    }
    var name :| name in Candidates(base, n) && name !in rules + desired;
  }

  /** The plan the manager works from. */
  datatype Plan = Plan(specs: seq<Spec>, paths: map<PathKey, GoPath>, errors: set<string>) {
    predicate UsesKernel(id: string) { exists s :: s in specs && s.ruleId == id }

    predicate UsesGo(id: string) { exists k :: k in paths && k.ruleId == id }

    function PlaneOf(id: string): DataPlane {
      if UsesKernel(id) && UsesGo(id) then Hybrid
      else if UsesKernel(id) then KernelPlane
      else if UsesGo(id) then GoPlane
      else Disabled
    }

    ghost predicate Valid() { PathsOk(paths) }
  }

  function KernelRow(id: string, spec: Spec): Rule {
    Rule(id, "Previous kernel path requires cleanup", false,
         if spec.protocol == TCP then OnlyTCP else OnlyUDP, Automatic,
         At(spec.listenHost), spec.listenPort, spec.LastPort(),
         Address(spec.targetHost), spec.targetPort, spec.targetPortEnd)
  }

  function UnknownRow(id: string): Rule {
    Rule(id, "Previous kernel state could not be verified", false, Both, Automatic, At(V4(0)), 0, 0, Name(""), 0, 0)
  }

  /** What the backend's lists say about one rule, and whether that is evidence. */
  function EvidenceOf(state: KernelState, id: string): KernelEvidence {
    if exists s :: s in state.pending && s.ruleId == id then RetirementPending
    else if exists s :: s in state.suspended && s.ruleId == id then AdmissionSuspended
    else if exists s :: s in state.active && s.ruleId == id then
      if state.verified && !state.unknown then ActiveVerified else ActiveUnverified
    else NotKnown
  }

  predicate PathBlocked(rule: Rule, state: KernelState, err: bool, inspectionFailed: bool) {
    err && (state.unknown || exists s :: s in Potential(state, inspectionFailed) && GoRuleOverlaps(rule, s))
  }

  class Manager {
    const kernel: Kernel
    const sockets: Sockets
    var runners: map<PathKey, Rule>
    var rules: map<string, Rule>
    var status: map<string, Status>
    var tombstones: map<string, string>
    var planes: map<string, DataPlane>
    var initialized: bool
    var appliedKey: (multiset<Spec>, Option<nat>)

    constructor (kernel: Kernel, sockets: Sockets)
      ensures this.kernel == kernel && this.sockets == sockets && Valid() && rules == map[] && runners == map[]
    {
      this.kernel, this.sockets := kernel, sockets;
      runners, rules, status, tombstones, planes := map[], map[], map[], map[], map[];
      initialized, appliedKey := false, (multiset{}, None);
    }

    /** Every row has a status, and every running listener listens and forwards
        where its key says. */
    ghost predicate Valid()
      reads this`rules, this`status, this`runners
    {
      && rules.Keys <= status.Keys
      && forall k :: k in runners ==> RunnerOk(k, runners[k])
    }

    // ----- Listeners that changed -----

    method StopChangedRunner(key: PathKey, plan: Plan)
      requires plan.Valid() && key in runners && RunnerOk(key, runners[key])
      modifies this`runners
      ensures runners == old(runners) - {key}
              || (key in plan.paths && SameRule(old(runners)[key], plan.paths[key].rule)
                  && runners == old(runners)[key := old(runners)[key].(name := plan.paths[key].rule.name)])
    {
      // A refreshed target changes the key but not the slot.
      var path := None;
      if key in plan.paths {
        path := Some(plan.paths[key]);
      } else if k :| k in plan.paths && k.Slot() == key.Slot() {
        path := Some(plan.paths[k]);
      }
      if path.None? || path.value.rule.Key() != runners[key].Key() {
        runners := runners - {key};
      } else {
        runners := runners[key := runners[key].(name := path.value.rule.name)];
      }
    }

    /** Stop every listener the plan does not have, before the kernel is touched. */
    method StopChangedRunners(plan: Plan)
      requires plan.Valid() && Valid()
      modifies this`runners
      ensures Valid() && forall k :: k in runners ==> k in plan.paths && SameRule(runners[k], plan.paths[k].rule)
    {
      var todo := runners.Keys;
      while todo != {}
        invariant todo <= runners.Keys && Valid()
        invariant forall k :: k in runners && k !in todo ==> k in plan.paths && SameRule(runners[k], plan.paths[k].rule)
        decreases todo
      {
        var key :| key in todo;
        todo := todo - {key};
        StopChangedRunner(key, plan);
      }
    }

    // ----- The kernel -----

    /** Update when the plan changed, when the kernel is unhealthy, or when its
        firewall no longer admits the plan; never when it cannot be inspected. */
    method DecideAction(specs: seq<Spec>, key: (multiset<Spec>, Option<nat>))
      returns (needsUpdate: bool, inspectionFailed: bool)
      modifies kernel
      ensures kernel.asked == None && inspectionFailed == kernel.health.InspectionFailed?
      ensures needsUpdate <==>
                !initialized || appliedKey != key || kernel.health.Unhealthy? || kernel.health.AdmissionDenied?
    {
      needsUpdate, inspectionFailed := !initialized || key != appliedKey, false;
      var health := kernel.Inspect(specs);
      match health {
        case Healthy =>
        case Unhealthy => needsUpdate := true;
        case AdmissionDenied => needsUpdate := true;
        case InspectionFailed => inspectionFailed := true;
      }
    }

    method ReconcileKernel(plan: Plan, topology: nat) returns (err: bool, inspectionFailed: bool)
      modifies kernel, this`initialized, this`appliedKey
      ensures inspectionFailed == kernel.health.InspectionFailed?
      ensures kernel.asked == (if !inspectionFailed && (kernel.health.Unhealthy? || kernel.health.AdmissionDenied?
                                 || !old(initialized) || old(appliedKey) != AppliedKey(plan, topology))
                               then Some(plan.specs) else None)
      ensures err <==> inspectionFailed || (kernel.asked.Some? && !kernel.accepted)
      ensures !err ==> initialized && appliedKey == AppliedKey(plan, topology)
      ensures err && !inspectionFailed ==> !initialized
      ensures !inspectionFailed && Changed(old(appliedKey), plan, topology) ==> kernel.asked == Some(plan.specs)
      ensures !err ==> !Changed(appliedKey, plan, topology)
    {
      var key := AppliedKey(plan, topology);
      var needsUpdate, failed := DecideAction(plan.specs, key);
      err, inspectionFailed := failed, failed;
      if !err && needsUpdate {
        var ok := kernel.Replace(plan.specs);
        if ok {
          initialized, appliedKey := true, key;
        } else {
          err, initialized, appliedKey := true, false, (multiset{}, None);
        }
      }
    }

    /** What makes an applied plan current: its scopes, in any order, and the
        devices when it accelerates. */
    function AppliedKey(plan: Plan, topology: nat): (multiset<Spec>, Option<nat>) {
      (multiset(plan.specs), if exists s :: s in plan.specs && s.flow then Some(topology) else None)
    }

    /** The plan has other scopes than the ones applied, or accelerates on other
        devices. */
    predicate Changed(applied: (multiset<Spec>, Option<nat>), plan: Plan, topology: nat) {
      || (exists s :: s in multiset(plan.specs) + applied.0 && multiset(plan.specs)[s] != applied.0[s])
      || ((exists s :: s in plan.specs && s.flow) && applied.1 != Some(topology))
    }

    // ----- Status rows for what the kernel still holds -----

    /** A name for a runtime-only row that no configured rule and no other row
        uses. The search always ends within its bound. */
    method TombstoneID(base: string, identity: string, desired: set<string>) returns (id: string)
      modifies this`tombstones
      ensures id !in desired
      ensures id in rules ==> id in old(tombstones) && old(tombstones)[id] == identity
      ensures tombstones == old(tombstones)[id := identity]
    {
      var i := 0;
      while i <= |rules| + |desired|
        invariant 0 <= i <= |rules| + |desired| + 1 && tombstones == old(tombstones)
        invariant forall j :: 0 <= j < i ==> Candidate(base, j) in rules || Candidate(base, j) in desired
      {
        id := Candidate(base, i);
        if id !in desired && (id !in rules || (id in tombstones && tombstones[id] == identity)) {
          tombstones := tombstones[id := identity];
          return;
        }
        i := i + 1;
      }
      SomeCandidateIsFree(base, rules.Keys, desired);
      assert false;
    }

    /** The row stands for the identity: its own rule's row, or a tombstone. */
    ghost predicate StandsFor(id: string, identity: string, desired: set<string>)
      reads this`rules, this`tombstones
    {
      (id == identity && (id in desired || id in rules)) || Tombstoned(id, identity, desired)
    }

    ghost predicate Tombstoned(id: string, identity: string, desired: set<string>)
      reads this`rules, this`tombstones
    {
      id !in desired && id in rules && id in tombstones && tombstones[id] == identity
    }

    method AddTombstone(base: string, identity: string, desired: set<string>, row: string -> Rule) returns (id: string)
      requires Valid()
      modifies this`rules, this`status, this`tombstones, this`planes
      ensures Valid() && Tombstoned(id, identity, desired) && old(rules).Keys <= rules.Keys
      ensures rules.Keys <= old(rules).Keys + {id}
      ensures forall x, other, d :: old(StandsFor(x, other, d)) ==> StandsFor(x, other, d)
    {
      id := TombstoneID(base, identity, desired);
      rules := rules[id := row(id)];
      if id !in status { status := status[id := Down]; }
      planes := planes[id := KernelPlane];
    }

    method Mark(spec: Spec, desired: set<string>, blocked: set<string>) returns (more: set<string>)
      requires Valid() && blocked <= desired + rules.Keys
      modifies this`rules, this`status, this`tombstones, this`planes
      ensures Valid() && blocked <= more <= desired + rules.Keys
      ensures exists id :: id in more && StandsFor(id, spec.ruleId, desired)
      ensures old(rules).Keys <= rules.Keys && rules.Keys * desired <= old(rules).Keys
      ensures forall x, other, d :: old(StandsFor(x, other, d)) ==> StandsFor(x, other, d)
      ensures more * desired == blocked * desired + {spec.ruleId} * desired
    {
      more := blocked;
      if spec.ruleId in desired || spec.ruleId in rules {
        more := more + {spec.ruleId};
        assert StandsFor(spec.ruleId, spec.ruleId, desired);
      } else {
        var id := AddTombstone(PENDING_BASE + spec.ruleId, spec.ruleId, desired, name => KernelRow(name, spec));
        more := more + {id};
      }
    }

    /** Rows stand for all of the scopes. */
    ghost predicate AllStandFor(specs: seq<Spec>, desired: set<string>, blocked: set<string>)
      reads this`rules, this`tombstones
    {
      forall s :: s in specs ==> exists id :: id in blocked && StandsFor(id, s.ruleId, desired)
    }

    method MarkAll(potential: seq<Spec>, desired: set<string>) returns (blocked: set<string>)
      requires Valid()
      modifies this`rules, this`status, this`tombstones, this`planes
      ensures Valid() && blocked <= desired + rules.Keys && AllStandFor(potential, desired, blocked)
      ensures old(rules).Keys <= rules.Keys && rules.Keys * desired <= old(rules).Keys
      ensures blocked * desired == IdsOf(potential) * desired
    {
      blocked := {};
      for i := 0 to |potential|
        invariant Valid() && blocked <= desired + rules.Keys
        invariant old(rules).Keys <= rules.Keys && rules.Keys * desired <= old(rules).Keys
        invariant AllStandFor(potential[..i], desired, blocked)
        invariant blocked * desired == IdsOf(potential[..i]) * desired
      {
        assert potential[..i + 1] == potential[..i] + [potential[i]];
        blocked := Mark(potential[i], desired, blocked);
        assert IdsOf(potential[..i + 1]) == IdsOf(potential[..i]) + {potential[i].ruleId};
      }
      assert potential[..|potential|] == potential;
    }

    /** After a failed reconciliation: which rows must not look settled, and which
        kernel rules are nevertheless proved to be installed. */
    method RetirementStatus(desired: set<string>, plan: Plan, err: bool, inspectionFailed: bool)
      returns (blocked: set<string>, verified: set<string>)
      requires Valid() && forall k :: k in plan.paths ==> plan.paths[k].ruleId in desired
      modifies this`rules, this`status, this`tombstones, this`planes
      ensures Valid() && blocked <= desired + rules.Keys
      ensures old(rules).Keys <= rules.Keys && rules.Keys * desired <= old(rules).Keys
      ensures !err ==> blocked == verified == {} && rules == old(rules)
      ensures err ==> AllStandFor(Potential(kernel.state, inspectionFailed), desired, blocked)
      ensures err && kernel.state.unknown ==>
                desired <= blocked && exists id :: id in blocked && Tombstoned(id, UNKNOWN_IDENTITY, desired)
      ensures forall k :: k in plan.paths && PathBlocked(plan.paths[k].rule, kernel.state, err, inspectionFailed) ==>
                plan.paths[k].ruleId in blocked
      ensures forall id :: id in desired ==> (id in blocked <==> Stuck(id, plan, err, inspectionFailed))
      ensures verified == ProvedIds(plan, err, inspectionFailed) - blocked
    {
      blocked, verified := {}, {};
      if !err { return; }
      var potential := Potential(kernel.state, inspectionFailed);
      blocked := MarkAll(potential, desired);
      forall id | id in desired ensures id in blocked <==> id in IdsOf(potential) {
        assert id in blocked * desired <==> id in IdsOf(potential) * desired;
      }
      if kernel.state.unknown {
        var id := AddTombstone(UNKNOWN_BASE, UNKNOWN_IDENTITY, desired, name => UnknownRow(name));
        blocked := blocked + desired + {id};
      }
      blocked := blocked + set k | && k in plan.paths
                                   && (exists s :: s in potential && GoRuleOverlaps(plan.paths[k].rule, s))
                               :: plan.paths[k].ruleId;
      if kernel.state.verified && !inspectionFailed && !kernel.state.unknown {
        var installed := set s | s in plan.specs && Proved(s.ruleId, plan) :: s.ruleId;
        verified := installed - blocked;
      }
    }

    /** The kernel may still forward for the rule, or for a packet one of its
        listeners would receive, or nobody knows what it forwards. */
    ghost predicate Stuck(id: string, plan: Plan, err: bool, inspectionFailed: bool)
      reads kernel
    {
      && err
      && (|| kernel.state.unknown
          || (exists s :: s in Potential(kernel.state, inspectionFailed) && s.ruleId == id)
          || exists k :: k in plan.paths && plan.paths[k].ruleId == id
                         && PathBlocked(plan.paths[k].rule, kernel.state, err, inspectionFailed))
    }

    /** Every scope of the rule is installed, by verified kernel state. */
    predicate Proved(id: string, plan: Plan)
      reads kernel
    {
      && kernel.state.verified && !kernel.state.unknown
      && forall s :: s in plan.specs && s.ruleId == id ==> SpecInstalled(s, kernel.state.active)
    }

    /** The rules whose kernel scopes are proved installed after a failure. */
    ghost function ProvedIds(plan: Plan, err: bool, inspectionFailed: bool): set<string>
      reads kernel
    {
      if err && !inspectionFailed && kernel.state.verified && !kernel.state.unknown
      then set s | s in plan.specs && Proved(s.ruleId, plan) :: s.ruleId else {}
    }

    // ----- Listeners -----

    /** Start every path of the plan that neither runs nor waits. */
    method StartMissing(plan: Plan, waiting: set<PathKey>) returns (failed: set<string>)
      requires Valid() && plan.Valid() && waiting !! runners.Keys && sockets.refused == {}
      requires forall k :: k in runners && k in plan.paths ==> SameRule(runners[k], plan.paths[k].rule)
      modifies this`runners, sockets
      ensures Valid() && forall k :: k in runners && k in plan.paths ==> SameRule(runners[k], plan.paths[k].rule)
      ensures forall k :: k in plan.paths ==> (k in runners <==> k !in waiting && k !in sockets.refused)
      ensures sockets.refused !! old(runners).Keys * plan.paths.Keys && sockets.refused !! waiting
      ensures failed == set k | k in plan.paths && k !in runners :: plan.paths[k].ruleId
    {
      failed := {};
      ghost var kept := runners.Keys * plan.paths.Keys;
      var todo := plan.paths.Keys;
      while todo != {}
        invariant todo <= plan.paths.Keys && Valid() && waiting !! runners.Keys
        invariant forall k :: k in runners && k in plan.paths ==> SameRule(runners[k], plan.paths[k].rule)
        invariant sockets.refused <= plan.paths.Keys - todo && sockets.refused !! kept && sockets.refused !! waiting
        invariant kept <= runners.Keys && forall k :: k in todo && k in runners ==> k in kept
        invariant forall k :: k in plan.paths && k !in todo ==>
                  (k in runners <==> k !in waiting && k !in sockets.refused)
        invariant failed == set k | k in plan.paths && k !in todo && k !in runners :: plan.paths[k].ruleId
        decreases todo
      {
        var key :| key in todo;
        ghost var before, failedBefore := todo, failed;
        todo := todo - {key};
        if key in runners { continue; }
        var path := plan.paths[key];
        if key in waiting {
          failed := failed + {path.ruleId};
          continue;
        }
        var started := sockets.Start(key);
        if started {
          runners := runners[key := path.rule];
        } else {
          failed := failed + {path.ruleId};
        }
      }
    }

    /** Start the plan's paths and stop all others; a path that the kernel may
        still serve waits. */
    method ReconcileRunners(plan: Plan, err: bool, inspectionFailed: bool) returns (failed: set<string>)
      requires Valid() && plan.Valid()
      requires forall k :: k in runners && k in plan.paths ==> SameRule(runners[k], plan.paths[k].rule)
      modifies this`runners, sockets
      ensures Valid()
      ensures runners.Keys == Served(plan, kernel.state, err, inspectionFailed, sockets.refused)
      ensures sockets.refused !! old(runners).Keys * plan.paths.Keys
      ensures forall k :: k in runners ==> SameRule(runners[k], plan.paths[k].rule)
      ensures forall k :: k in runners ==> !PathBlocked(runners[k], kernel.state, err, inspectionFailed)
      ensures failed == set k | k in plan.paths && k !in runners :: plan.paths[k].ruleId
    {
      hide PathBlocked;
      sockets.refused := {};
      var state := kernel.state;
      var waiting := set k | k in plan.paths && PathBlocked(plan.paths[k].rule, state, err, inspectionFailed);
      runners := runners - waiting;
      failed := StartMissing(plan, waiting);
      runners := map k | k in runners && k in plan.paths :: runners[k];
      forall k | k in runners ensures !PathBlocked(runners[k], state, err, inspectionFailed) {
        NameDoesNotBlock(runners[k], plan.paths[k].rule, state, err, inspectionFailed);
      }
    }

    // ----- Rows -----

    function Evidence(id: string): KernelEvidence
      reads kernel
    {
      EvidenceOf(kernel.state, id)
    }

    /** The status of a configured rule's row, and its data plane. */
    function RowOf(r: Rule, plan: Plan, blocked: set<string>, verified: set<string>, failed: set<string>, err: bool,
                   previous: DataPlane): (Status, DataPlane)
      reads kernel, this`runners
    {
      if r.id in blocked then
        if Evidence(r.id).NotKnown? && !previous.UsesKernel() && plan.UsesGo(r.id) then (Down, plan.PlaneOf(r.id))
        else
          (Lingering(Evidence(r.id).AdmissionSuspended?),
           if exists k :: k in runners && runners[k].id == r.id then Hybrid
           else if previous.UsesKernel() then previous else KernelPlane)
      else if !r.enabled then (Down, plan.PlaneOf(r.id))
      else if r.id in plan.errors || (plan.UsesKernel(r.id) && err && r.id !in verified) || r.id in failed
           || (exists k :: k in plan.paths && k.ruleId == r.id && k !in runners)
           || !(plan.UsesKernel(r.id) || plan.UsesGo(r.id)) then (Failed, plan.PlaneOf(r.id))
      else (Up, plan.PlaneOf(r.id))
    }

    ghost predicate RowDone(id: string, r: Rule, row: (Status, DataPlane))
      reads this`rules, this`status, this`planes
    {
      && id in rules && rules[id] == r
      && id in status && id in planes && (status[id], planes[id]) == row
    }

    method UpdateRow(id: string, r: Rule, plan: Plan, blocked: set<string>, verified: set<string>,
                     failed: set<string>, err: bool)
      requires Valid() && r.id == id
      modifies this`rules, this`status, this`planes
      ensures Valid() && RowDone(id, r, RowOf(r, plan, blocked, verified, failed, err, PlaneIn(old(planes), id)))
      ensures forall x :: x != id ==>
                && SameEntry(rules, old(rules), x) && SameEntry(status, old(status), x)
                && SameEntry(planes, old(planes), x)
    {
      hide RowOf;
      var (row, plane) := RowOf(r, plan, blocked, verified, failed, err, PlaneIn(planes, id));
      rules, status, planes := rules[id := r], status[id := row], planes[id := plane];
    }

    method UpdateRuleStates(desired: map<string, Rule>, plan: Plan, blocked: set<string>, verified: set<string>,
                            failed: set<string>, err: bool)
      requires Valid() && forall id :: id in desired ==> desired[id].id == id
      modifies this`rules, this`status, this`planes
      ensures Valid()
      ensures forall id :: id in desired ==>
                RowDone(id, desired[id],
                        RowOf(desired[id], plan, blocked, verified, failed, err, PlaneIn(old(planes), id)))
      ensures forall id :: id !in desired ==> SameEntry(rules, old(rules), id) && SameEntry(status, old(status), id)
    {
      hide RowOf;
      var todo := desired.Keys;
      while todo != {}
        invariant todo <= desired.Keys && Valid()
        invariant forall id :: id in todo || id !in desired ==>
                    SameEntry(rules, old(rules), id) && SameEntry(status, old(status), id)
                        && SameEntry(planes, old(planes), id)
        invariant forall id :: id in desired && id !in todo ==>
                    RowDone(id, desired[id],
                            RowOf(desired[id], plan, blocked, verified, failed, err, PlaneIn(old(planes), id)))
        decreases todo
      {
        var id :| id in todo;
        todo := todo - {id};
        ghost var rules0, status0, planes0 := rules, status, planes;
        UpdateRow(id, desired[id], plan, blocked, verified, failed, err);
        forall x | x in desired && x !in todo && x != id
          ensures RowDone(x, desired[x],
                          RowOf(desired[x], plan, blocked, verified, failed, err, PlaneIn(old(planes), x)))
        {
          assert SameEntry(rules, rules0, x) && SameEntry(status, status0, x) && SameEntry(planes, planes0, x);
        }
        forall x | x in todo || x !in desired
          ensures SameEntry(rules, old(rules), x) && SameEntry(status, old(status), x)
          ensures SameEntry(planes, old(planes), x)
        {
          assert SameEntry(rules, rules0, x) && SameEntry(status, status0, x) && SameEntry(planes, planes0, x);
        }
      }
    }

    /** Rows of rules that are gone stay, as running, only while blocked. */
    method RetireRemovedRules(desired: set<string>, blocked: set<string>)
      requires Valid()
      modifies this`rules, this`status, this`planes, this`tombstones
      ensures Valid() && rules == map id | id in old(rules) && (id in desired || id in blocked) :: old(rules)[id]
      ensures forall id :: id in rules && id !in desired ==> status[id] == Lingering(false)
      ensures forall id :: id in rules && id in desired ==> status[id] == old(status)[id]
      ensures tombstones == old(tombstones) - (old(rules).Keys - desired - blocked)
    {
      var gone := rules.Keys - desired - blocked;
      var kept := rules.Keys * blocked - desired;
      rules, planes, tombstones := rules - gone, planes - gone, tombstones - gone;
      status := map id | id in status && id !in gone :: if id in kept then Lingering(false) else status[id];
    }

    // ----- One application of a configuration -----

    /** Whatever the kernel calls did: afterwards every listener is a path of the
        current plan, none stands beside forwarding that may survive in the kernel,
        and every unfinished scope has a row that counts as running. */
    method Apply(desired: map<string, Rule>, plan: Plan, topology: nat) returns (err: bool, inspectionFailed: bool)
      requires Valid() && plan.Valid()
      requires forall id :: id in desired ==> desired[id].id == id
      requires forall k :: k in plan.paths ==> plan.paths[k].ruleId in desired
      modifies this, kernel, sockets
      ensures Valid() && runners.Keys <= plan.paths.Keys
      ensures forall k :: k in runners ==> SameRule(runners[k], plan.paths[k].rule)
      ensures forall k :: k in runners ==> !PathBlocked(runners[k], kernel.state, err, inspectionFailed)
      ensures desired.Keys <= rules.Keys && forall id :: id in desired ==> rules[id] == desired[id]
      ensures runners.Keys == Served(plan, kernel.state, err, inspectionFailed, sockets.refused)
      ensures !err ==> rules == desired && appliedKey == AppliedKey(plan, topology)
      ensures !inspectionFailed && Changed(old(appliedKey), plan, topology) ==> kernel.asked == Some(plan.specs)
      ensures err ==> forall s :: s in Potential(kernel.state, inspectionFailed) ==>
                exists id :: id in rules && status[id].Running() && StandsFor(id, s.ruleId, desired.Keys)
      ensures err && kernel.state.unknown ==>
                && runners == map[]
                && exists id :: id in rules && status[id].Running() && Tombstoned(id, UNKNOWN_IDENTITY, desired.Keys)
      ensures forall id :: id in desired ==> (status[id] == Up <==> IsUp(desired[id], plan, err, inspectionFailed))
    {
      hide PathBlocked, StandsFor, Tombstoned, Settled, Potential;
      err, inspectionFailed := Reconcile(desired, plan, topology);
      if err && kernel.state.unknown {
        AllBlocked(plan, inspectionFailed);
      }
    }

    /** The same for a configuration: after an error, no packet could reach both a
        running listener and forwarding the kernel may still perform. */
    method ApplyRules(list: seq<Rule>, resolved: Resolved, mark: nat, flow: bool, topology: nat)
      returns (err: bool, inspectionFailed: bool, ghost desired: map<string, Rule>)
      requires Valid() && forall r :: r in list ==> ValidRule(r)
      modifies this, kernel, sockets
      ensures Valid() && (forall r :: r in list ==> r.id in desired) && forall id :: id in desired ==>
                desired[id] in list && desired[id].id == id
      ensures desired.Keys <= rules.Keys && (!err ==> rules == desired)
      ensures runners.Keys <= PlannedPaths(list, resolved).Keys
      ensures forall k :: k in runners ==> SameRule(runners[k], PlannedPaths(list, resolved)[k].rule)
      ensures err ==>
                forall k, s, c :: k in runners && s in Potential(kernel.state, inspectionFailed) && ValidSpec(s) ==>
                !(Receives(runners[k], c) && ScopeReceives(s, c))
      ensures err && kernel.state.unknown ==> runners == map[]
      ensures err ==> forall s :: s in Potential(kernel.state, inspectionFailed) ==>
                exists id :: id in rules && status[id].Running() && StandsFor(id, s.ruleId, desired.Keys)
    {
      hide PathBlocked, StandsFor, Potential, PlannedPaths, Receives, ScopeReceives, ValidSpec;
      var wanted: map<string, Rule> := map[];
      for i := 0 to |list|
        invariant forall j :: 0 <= j < i ==> list[j].id in wanted
        invariant forall id :: id in wanted ==> wanted[id] in list && wanted[id].id == id
      {
        wanted := wanted[list[i].id := list[i]];
      }
      var built := BuildPlan(list, resolved, mark, flow);
      var plan := Plan(built.nftSpecs, built.goRules, built.errors);
      forall k | k in plan.paths ensures plan.paths[k].ruleId in wanted && ValidRule(plan.paths[k].rule) {
        var r := PathComesFrom(list, resolved, k);
      }
      err, inspectionFailed := Apply(wanted, plan, topology);
      desired := wanted;
      if err {
        forall k, s, c | k in runners && s in Potential(kernel.state, inspectionFailed) && ValidSpec(s)
          ensures !(Receives(runners[k], c) && ScopeReceives(s, c))
        {
          assert ValidRule(runners[k]) by { SameRuleIsValid(runners[k], plan.paths[k].rule); }
          NoSharedCell(runners[k], s, kernel.state, inspectionFailed, c);
        }
      }
    }

    lemma AllBlocked(plan: Plan, inspectionFailed: bool)
      requires kernel.state.unknown && forall k :: k in runners ==>
                !PathBlocked(runners[k], kernel.state, true, inspectionFailed)
      ensures runners == map[]
    {
      if runners != map[] {
        var k :| k in runners;
        assert false;
      }
    }

    method Reconcile(desired: map<string, Rule>, plan: Plan, topology: nat)
      returns (err: bool, inspectionFailed: bool)
      requires Valid() && plan.Valid()
      requires forall id :: id in desired ==> desired[id].id == id
      requires forall k :: k in plan.paths ==> plan.paths[k].ruleId in desired
      modifies this, kernel, sockets
      ensures Valid() && runners.Keys <= plan.paths.Keys
      ensures forall k :: k in runners ==> SameRule(runners[k], plan.paths[k].rule)
      ensures forall k :: k in runners ==> !PathBlocked(runners[k], kernel.state, err, inspectionFailed)
      ensures desired.Keys <= rules.Keys && forall id :: id in desired ==> rules[id] == desired[id]
      ensures runners.Keys == Served(plan, kernel.state, err, inspectionFailed, sockets.refused)
      ensures !err ==> rules == desired && appliedKey == AppliedKey(plan, topology)
      ensures !inspectionFailed && Changed(old(appliedKey), plan, topology) ==> kernel.asked == Some(plan.specs)
      ensures err ==> AllStand(Potential(kernel.state, inspectionFailed), desired.Keys)
      ensures err && kernel.state.unknown ==>
                exists id :: id in rules && status[id].Running() && Tombstoned(id, UNKNOWN_IDENTITY, desired.Keys)
      ensures forall id :: id in desired ==> (status[id] == Up <==> IsUp(desired[id], plan, err, inspectionFailed))
    {
      hide PathBlocked, RowOf, StandsFor, Tombstoned, Settled, Potential, Served, AppliedKey, SameRule, Proved;
      hide IsUp, Stuck, Changed, ProvedIds, Plan.Valid, RunnerOk;
      tombstones := tombstones - desired.Keys;
      status := (map id | id in desired :: Down) + status;
      StopChangedRunners(plan);
      err, inspectionFailed := ReconcileKernel(plan, topology);
      var stuck, verified := RetirementStatus(desired.Keys, plan, err, inspectionFailed);
      ghost var unknownRow := "";
      if err && kernel.state.unknown {
        unknownRow :| unknownRow in stuck && Tombstoned(unknownRow, UNKNOWN_IDENTITY, desired.Keys);
      }
      var failed := ReconcileRunners(plan, err, inspectionFailed);
      assert err && kernel.state.unknown ==> Tombstoned(unknownRow, UNKNOWN_IDENTITY, desired.Keys);
      ghost var potential := Potential(kernel.state, inspectionFailed);
      label Before:
      UpdateRows(desired, plan, stuck, verified, failed, err, inspectionFailed);
      if err {
        forall s | s in potential
          ensures exists id :: id in rules && status[id].Running() && StandsFor(id, s.ruleId, desired.Keys)
        {
          assert old@Before(AllStandFor(potential, desired.Keys, stuck));
          var id :| id in stuck && old@Before(StandsFor(id, s.ruleId, desired.Keys));
          assert id in rules && status[id].Running() && StandsFor(id, s.ruleId, desired.Keys);
        }
      }
    }

    ghost predicate AllStand(specs: seq<Spec>, desired: set<string>)
      requires Valid()
      reads this`rules, this`tombstones, this`status, this`runners
    {
      forall s :: s in specs ==> exists id :: id in rules && status[id].Running() && StandsFor(id, s.ruleId, desired)
    }

    /** Bring every row up to date. */
    method UpdateRows(desired: map<string, Rule>, plan: Plan, blocked: set<string>, verified: set<string>,
                      failed: set<string>,
                      err: bool, inspectionFailed: bool)
      requires Valid() && forall id :: id in desired ==> desired[id].id == id
      requires blocked <= desired.Keys + rules.Keys && (!err ==> blocked == {})
      requires plan.Valid() && failed == set k | k in plan.paths && k !in runners :: plan.paths[k].ruleId
      requires forall id :: id in desired ==> (id in blocked <==> Stuck(id, plan, err, inspectionFailed))
      requires verified == ProvedIds(plan, err, inspectionFailed) - blocked
      modifies this`rules, this`status, this`planes, this`tombstones
      ensures Valid()
      ensures rules.Keys == desired.Keys + old(rules).Keys * blocked && forall id :: id in desired ==>
                rules[id] == desired[id]
      ensures !err ==> rules == desired
      ensures forall s, id ::
        s in Potential(kernel.state, inspectionFailed) && id in blocked
            && old(StandsFor(id, s.ruleId, desired.Keys)) ==>
          id in rules && status[id].Running() && StandsFor(id, s.ruleId, desired.Keys)
      ensures forall id, identity :: id in blocked && old(Tombstoned(id, identity, desired.Keys)) ==>
                id in rules && status[id].Running() && Tombstoned(id, identity, desired.Keys)
      ensures forall id :: id in desired ==> (status[id] == Up <==> IsUp(desired[id], plan, err, inspectionFailed))
    {
      hide RowOf, RowDone, Settled, IsUp, Stuck, ProvedIds, Plan.Valid, RunnerOk;
      UpdateDesiredRows(desired, plan, blocked, verified, failed, err, inspectionFailed);
      RetireRemovedRules(desired.Keys, blocked);
    }

    /** The rows of configured rules: a blocked row with kernel evidence counts as
        running, and only a settled row is simply up. */
    method UpdateDesiredRows(desired: map<string, Rule>, plan: Plan, blocked: set<string>, verified: set<string>,
                             failed: set<string>,
                             err: bool, inspectionFailed: bool)
      requires Valid() && forall id :: id in desired ==> desired[id].id == id
      requires plan.Valid() && failed == set k | k in plan.paths && k !in runners :: plan.paths[k].ruleId
      requires forall id :: id in desired ==> (id in blocked <==> Stuck(id, plan, err, inspectionFailed))
      requires verified == ProvedIds(plan, err, inspectionFailed) - blocked
      modifies this`rules, this`status, this`planes
      ensures Valid() && rules.Keys == old(rules).Keys + desired.Keys
      ensures forall id :: id in rules ==> rules[id] == if id in desired then desired[id] else old(rules)[id]
      ensures forall s :: (&& s in Potential(kernel.state, inspectionFailed) && s.ruleId in desired
                           && s.ruleId in blocked) ==>
                status[s.ruleId].Running()
      ensures forall id :: id in desired ==> (status[id] == Up <==> IsUp(desired[id], plan, err, inspectionFailed))
    {
      UpdateRuleStates(desired, plan, blocked, verified, failed, err);
      forall id ensures id in rules <==> id in old(rules) || id in desired {
        assert id !in desired ==> SameEntry(rules, old(rules), id);
      }
      forall s | s in Potential(kernel.state, inspectionFailed) && s.ruleId in desired && s.ruleId in blocked
        ensures status[s.ruleId].Running()
      {
        PotentialIsEvidence(s, s.ruleId, inspectionFailed);
        assert RowDone(s.ruleId, desired[s.ruleId],
                       RowOf(desired[s.ruleId], plan, blocked, verified, failed, err, PlaneIn(old(planes), s.ruleId)));
      }
      hide Potential, EvidenceOf;
      forall id | id in desired ensures status[id] == Up <==> IsUp(desired[id], plan, err, inspectionFailed) {
        assert RowDone(id, desired[id],
                       RowOf(desired[id], plan, blocked, verified, failed, err, PlaneIn(old(planes), id)));
        UpRow(desired[id], plan, blocked, verified, failed, err, inspectionFailed, PlaneIn(old(planes), id));
      }
    }

    lemma PotentialIsEvidence(s: Spec, id: string, inspectionFailed: bool)
      requires s in Potential(kernel.state, inspectionFailed) && id == s.ruleId
      ensures Evidence(id) != NotKnown
    {
    }

    /** When a configured row is simply up: the rule is enabled, nothing of it is
        stuck, and all its paths are in place. */
    ghost predicate IsUp(r: Rule, plan: Plan, err: bool, inspectionFailed: bool)
      reads kernel, this`runners
    {
      && r.enabled && !Stuck(r.id, plan, err, inspectionFailed) && Settled(r.id, plan, err)
      && (err && plan.UsesKernel(r.id) ==> !inspectionFailed)
    }

    lemma UpRow(r: Rule, plan: Plan, blocked: set<string>, verified: set<string>, failed: set<string>, err: bool,
                inspectionFailed: bool, previous: DataPlane)
      requires plan.Valid() && failed == set k | k in plan.paths && k !in runners :: plan.paths[k].ruleId
      requires r.id in blocked <==> Stuck(r.id, plan, err, inspectionFailed)
      requires verified == ProvedIds(plan, err, inspectionFailed) - blocked
      ensures RowOf(r, plan, blocked, verified, failed, err, previous).0 == Up <==> IsUp(r, plan, err, inspectionFailed)
    {
      hide Stuck, SpecInstalled;
      assert r.id in failed <==> exists k :: k in plan.paths && k.ruleId == r.id && k !in runners;
    }

    /** A row that is simply up has all its paths: its listeners run, and its
        kernel scopes were applied or are proved to be installed. */
    ghost predicate Settled(id: string, plan: Plan, err: bool)
      reads kernel, this`runners
    {
      && id !in plan.errors && (plan.UsesKernel(id) || plan.UsesGo(id))
      && (forall k :: k in plan.paths && k.ruleId == id ==> k in runners)
      && (plan.UsesKernel(id) ==> !err || Proved(id, plan))
    }
  }

  function IdsOf(specs: seq<Spec>): set<string> {
    set s | s in specs :: s.ruleId
  }

  ghost predicate SameEntry<V>(m: map<string, V>, n: map<string, V>, id: string) {
    (id in m <==> id in n) && (id in m ==> m[id] == n[id])
  }

  function PlaneIn(planes: map<string, DataPlane>, id: string): DataPlane {
    if id in planes then planes[id] else Disabled
  }

  lemma NameDoesNotBlock(a: Rule, b: Rule, state: KernelState, err: bool, inspectionFailed: bool)
    requires SameRule(a, b)
    ensures PathBlocked(a, state, err, inspectionFailed) == PathBlocked(b, state, err, inspectionFailed)
  {
    assert a.(name := "") == b.(name := "");
    assert a.protocol == b.protocol && a.listenHost == b.listenHost && a.listenPort == b.listenPort
        && a.listenPortEnd == b.listenPortEnd;
  }

  lemma SameRuleIsValid(a: Rule, b: Rule)
    requires SameRule(a, b) && ValidRule(b)
    ensures ValidRule(a)
  {
    var x, y := a.(name := ""), b.(name := "");
    assert x == y && a.listenPort == x.listenPort && a.listenPortEnd == x.listenPortEnd
           && a.targetPort == x.targetPort && a.targetPortEnd == x.targetPortEnd;
  }

  lemma NoSharedCell(r: Rule, s: Spec, state: KernelState, inspectionFailed: bool, c: Cell)
    requires ValidRule(r) && ValidSpec(s) && s in Potential(state, inspectionFailed)
    requires !PathBlocked(r, state, true, inspectionFailed)
    ensures !(Receives(r, c) && ScopeReceives(s, c))
  {
    OverlapIsSharedCell(r, s);
  }

  /** The paths that run: all of the plan's that need not wait for the kernel and
      whose socket could be bound. */
  ghost function Served(plan: Plan, state: KernelState, err: bool, inspectionFailed: bool,
                        refused: set<PathKey>): (served: set<PathKey>)
    ensures served <= plan.paths.Keys
  {
    set k | k in plan.paths && !PathBlocked(plan.paths[k].rule, state, err, inspectionFailed) && k !in refused
  }

  ghost predicate RunnerOk(k: PathKey, r: Rule) {
    r.id == k.ruleId && r.listenHost == At(k.listen) && r.target == Address(k.target)
  }

  predicate SameRule(a: Rule, b: Rule) { a.Key() == b.Key() }
}
