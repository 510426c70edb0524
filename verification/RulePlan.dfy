/** Configured rules: which may be enabled together, and how they become kernel
    scopes and Go listeners. */
module RulePlan {
  import opened NftSpecs
  import opened RetirementPlan

  datatype Protocol = OnlyTCP | OnlyUDP | Both {
    predicate Carries(t: Transport) {
      Both? || (OnlyTCP? && t == TCP) || (OnlyUDP? && t == UDP)
    }

    /** The transports, in the order paths are created. */
    function Transports(): seq<Transport> {
      match this
      case OnlyTCP => [TCP]
      case OnlyUDP => [UDP]
      case Both => [TCP, UDP]
    }
  }

  datatype Plane = Automatic | GoOnly

  /** A listen address: `*`, or one literal. */
  datatype Listen = Anywhere | At(addr: Addr)

  datatype Target = Name(text: string) | Address(addr: Addr)

  datatype Rule = Rule(
    id: string,
    name: string,
    enabled: bool,
    protocol: Protocol,
    plane: Plane,
    listenHost: Listen,
    listenPort: int,
    listenPortEnd: int,
    target: Target,
    targetPort: int,
    targetPortEnd: int
  ) {
    function LastListenPort(): int { if listenPortEnd == 0 then listenPort else listenPortEnd }

    function LastTargetPort(): int { if targetPortEnd == 0 then targetPort else targetPortEnd }

    /** Everything but the display name. */
    function Key(): Rule { this.(name := "") }
  }

  /** What configuration validation promises of one rule. */
  predicate ValidRule(r: Rule) {
    && 1 <= r.listenPort <= r.LastListenPort() <= 65535
    && 1 <= r.targetPort <= r.LastTargetPort() <= 65535
    && r.LastListenPort() - r.listenPort == r.LastTargetPort() - r.targetPort
    && r.LastListenPort() - r.listenPort + 1 <= 4096
  }

  datatype Listener = Listener(family: int, host: Addr)

  function Family(a: Addr): int { if a.V4? then 4 else 6 }

  function ListenFamilies(host: Listen): seq<Listener> {
    match host
    case Anywhere => [Listener(4, V4(0)), Listener(6, V6(0))]
    case At(addr) => [Listener(Family(addr), addr)]
  }

  // ----- Which rules may be enabled together -----

  /** One place a packet can arrive at. */
  datatype Cell = Cell(transport: Transport, addr: Addr, port: int)

  /** The rule receives packets at the cell: one of its listeners has the address
      or is the wildcard of its family. */
  predicate Receives(r: Rule, c: Cell) {
    && r.protocol.Carries(c.transport)
    && r.listenPort <= c.port <= r.LastListenPort()
    && exists l :: l in ListenFamilies(r.listenHost) && l.family == Family(c.addr)
        && (l.host.Unspecified() || l.host == c.addr)
  }

  predicate ProtocolsOverlap(a: Protocol, b: Protocol) {
    a == b || a == Both || b == Both
  }

  predicate PortRangesOverlap(a: Rule, b: Rule) {
    a.listenPort <= b.LastListenPort() && b.listenPort <= a.LastListenPort()
  }

  predicate ListenHostsOverlap(a: Listen, b: Listen) {
    if a.Anywhere? || b.Anywhere? then true
    else if a.addr.V4? != b.addr.V4? then false
    else a.addr == b.addr || a.addr.Unspecified() || b.addr.Unspecified()
  }

  predicate Conflict(a: Rule, b: Rule) {
    && a.enabled && b.enabled
    && ProtocolsOverlap(a.protocol, b.protocol) && PortRangesOverlap(a, b)
        && ListenHostsOverlap(a.listenHost, b.listenHost)
  }

  /** The textual overlap test is exact: two enabled rules conflict if and only if
      some packet would reach both. */
  lemma ConflictIsSharedCell(a: Rule, b: Rule)
    requires ValidRule(a) && ValidRule(b) && a.enabled && b.enabled
    ensures Conflict(a, b) <==> exists c :: Receives(a, c) && Receives(b, c)
  {
    if Conflict(a, b) {
      var transport := if a.protocol.Carries(TCP) && b.protocol.Carries(TCP) then TCP else UDP;
      var port := if a.listenPort >= b.listenPort then a.listenPort else b.listenPort;
      var addr :=
        if a.listenHost.Anywhere? && b.listenHost.Anywhere? then V4(0)
        else if a.listenHost.Anywhere? then b.listenHost.addr
        else if b.listenHost.Anywhere? || b.listenHost.addr.Unspecified() then a.listenHost.addr
        else b.listenHost.addr;
      ReceivesAt(a, Cell(transport, addr, port));
      ReceivesAt(b, Cell(transport, addr, port));
    }
  }

  lemma ReceivesAt(r: Rule, c: Cell)
    requires r.protocol.Carries(c.transport) && r.listenPort <= c.port <= r.LastListenPort()
    requires r.listenHost.At? ==> Family(r.listenHost.addr) == Family(c.addr)
                                  && (r.listenHost.addr.Unspecified() || r.listenHost.addr == c.addr)
    ensures Receives(r, c)
  {
    var l := if r.listenHost.At? then Listener(Family(r.listenHost.addr), r.listenHost.addr)
             else if c.addr.V4? then Listener(4, V4(0)) else Listener(6, V6(0));
    assert l in ListenFamilies(r.listenHost);
  }

  predicate NoConflicts(rules: seq<Rule>) {
    forall i, j :: 0 <= i < j < |rules| ==> !Conflict(rules[i], rules[j])
  }

  /** Look for the first pair of enabled rules that overlap. */
  method ValidateRuleConflicts(rules: seq<Rule>) returns (clash: Option<(nat, nat)>)
    ensures clash == None <==> NoConflicts(rules)
    ensures clash.Some? ==>
              clash.value.0 < clash.value.1 < |rules| && Conflict(rules[clash.value.0], rules[clash.value.1])
  {
    for i := 0 to |rules|
      invariant forall k, j :: 0 <= k < i && k < j < |rules| ==> !Conflict(rules[k], rules[j])
    {
      var a := rules[i];
      if !a.enabled { continue; }
      for j := i + 1 to |rules|
        invariant forall k :: i < k < j ==> !Conflict(a, rules[k])
      {
        var b := rules[j];
        if !b.enabled || !ProtocolsOverlap(a.protocol, b.protocol) || !PortRangesOverlap(a, b) { continue; }
        if ListenHostsOverlap(a.listenHost, b.listenHost) {
          return Some((i, j));
        }
      }
    }
    return None;
  }

  // ----- From rules to paths -----

  datatype PathKind = Forced | Loopback | Proxied

  datatype PathKey = PathKey(ruleId: string, kind: PathKind, listen: Addr, target: Addr) {
    /** The key without its target. */
    function Slot(): PathKey { this.(target := V4(0)) }
  }

  datatype GoPath = GoPath(ruleId: string, rule: Rule)

  /** The addresses a rule's target resolves to; a rule without an entry failed. */
  type Resolved = map<string, seq<Addr>>

  class ForwardingPlan {
    var nftSpecs: seq<Spec>
    var goRules: map<PathKey, GoPath>
    var usesNFT: set<string>
    var usesGo: set<string>
    var errors: set<string>

    /** The rule sets say which rules have a kernel scope and which a Go path. */
    ghost predicate Consistent()
      reads this`nftSpecs, this`goRules, this`usesNFT, this`usesGo
    {
      usesNFT == KernelRules(nftSpecs) && usesGo == GoRules(goRules) && PathsOk(goRules)
    }

    constructor ()
      ensures Consistent()
      ensures nftSpecs == [] && goRules == map[] && usesNFT == usesGo == errors == {}
    {
      nftSpecs, goRules, usesNFT, usesGo, errors := [], map[], {}, {}, {};
    }

    method AddGoPath(rule: Rule, listen: Addr, target: Addr, kind: PathKind)
      requires Consistent()
      modifies this`goRules, this`usesGo
      ensures Consistent()
      ensures goRules ==
                old(goRules)[PathKey(rule.id, kind, listen, target) := GoPath(rule.id, Derived(rule, listen, target))]
      ensures usesGo == old(usesGo) + {rule.id}
    {
      var derived := rule.(listenHost := At(listen), target := Address(target));
      GoRulesWith(goRules, PathKey(rule.id, kind, listen, target), GoPath(rule.id, derived));
      goRules := goRules[PathKey(rule.id, kind, listen, target) := GoPath(rule.id, derived)];
      usesGo := usesGo + {rule.id};
    }

    /** What one listener adds to the plan. */
    method AddListener(rule: Rule, listener: Listener, addresses: seq<Addr>, mark: nat, flow: bool)
      requires listener in ListenFamilies(rule.listenHost) && Consistent()
      modifies this
      ensures Consistent()
      ensures nftSpecs == old(nftSpecs) + SpecsOfListener(rule, listener, addresses, mark, flow)
      ensures goRules == old(goRules) + PathsOfListener(rule, listener, addresses)
      ensures errors == old(errors) + if addresses == [] then {rule.id} else {}
    {
      hide Consistent;
      var sameFamily := exists a :: a in addresses && Family(a) == listener.family;
      if rule.plane == GoOnly || !(sameFamily && !IsLoopback(listener.host)) {
        var target := if sameFamily then First(addresses, listener.family)
            else First(addresses, OtherFamily(listener.family));
        if target == None {
          errors := errors + {rule.id};
          return;
        }
        AddGoPath(rule, listener.host, target.value, if rule.plane == GoOnly then Forced else Proxied);
        return;
      }
      var target := First(addresses, listener.family).value;
      AddKernelScopes(rule, listener, target, mark, flow);
      if listener.host.Unspecified() {
        AddGoPath(rule, if listener.family == 4 then LOOPBACK_V4 else LOOPBACK_V6, target, Loopback);
      }
    }

    method AddKernelScopes(rule: Rule, listener: Listener, target: Addr, mark: nat, flow: bool)
      requires Consistent()
      modifies this`nftSpecs, this`usesNFT
      ensures Consistent()
      ensures nftSpecs == old(nftSpecs) + SpecsFor(rule, listener, target, rule.protocol.Transports(), mark, flow)
    {
      var transports := rule.protocol.Transports();
      for i := 0 to |transports|
        invariant nftSpecs == old(nftSpecs) + SpecsFor(rule, listener, target, transports[..i], mark, flow)
        invariant KernelRules(nftSpecs) == KernelRules(old(nftSpecs)) + if i == 0 then {} else {rule.id}
        modifies this`nftSpecs
      {
        var spec := SpecFor(rule, listener, target, transports[i], mark, flow);
        KernelRulesWith(nftSpecs, spec);
        nftSpecs := nftSpecs + [spec];
        assert transports[..i + 1] == transports[..i] + [transports[i]];
      }
      assert transports[..|transports|] == transports;
      usesNFT := usesNFT + {rule.id};
    }

    method AddRule(rule: Rule, addresses: seq<Addr>, mark: nat, flow: bool)
      requires Consistent()
      modifies this
      ensures Consistent()
      ensures nftSpecs == old(nftSpecs) + SpecsOfRule(rule, addresses, mark, flow)
      ensures goRules == old(goRules) + PathsOfRule(rule, addresses)
      ensures errors == old(errors) + if addresses == [] then {rule.id} else {}
    {
      hide Consistent, SpecsOfListener, PathsOfListener;
      var listeners := ListenFamilies(rule.listenHost);
      AddListener(rule, listeners[0], addresses, mark, flow);
      if |listeners| > 1 {
        AddListener(rule, listeners[1], addresses, mark, flow);
      }
    }
  }

  ghost function KernelRules(specs: seq<Spec>): set<string> {
    set s | s in specs :: s.ruleId
  }

  ghost function GoRules(paths: map<PathKey, GoPath>): set<string> {
    set k | k in paths :: k.ruleId
  }

  /** Every path listens and forwards where its key says. */
  ghost predicate PathsOk(paths: map<PathKey, GoPath>) {
    forall k :: k in paths ==>
      && paths[k].ruleId == paths[k].rule.id == k.ruleId
      && paths[k].rule.listenHost == At(k.listen) && paths[k].rule.target == Address(k.target)
  }

  lemma KernelRulesWith(specs: seq<Spec>, s: Spec)
    ensures KernelRules(specs + [s]) == KernelRules(specs) + {s.ruleId}
  {
    forall id | id in KernelRules(specs) + {s.ruleId} ensures id in KernelRules(specs + [s]) {
      var x :| (x in specs || x == s) && x.ruleId == id;
      assert x in specs + [s];
    }
  }

  lemma GoRulesWith(paths: map<PathKey, GoPath>, k: PathKey, path: GoPath)
    ensures GoRules(paths[k := path]) == GoRules(paths) + {k.ruleId}
  {
    var after := paths[k := path];
    forall id | id in GoRules(paths) + {k.ruleId} ensures id in GoRules(after) {
      var x :| (x in paths || x == k) && x.ruleId == id;
      assert x in after;
    }
  }

  const LOOPBACK_V4 := V4(0x7F00_0001)
  const LOOPBACK_V6 := V6(1)

  predicate IsLoopback(a: Addr) {
    if a.V4? then a.bits / 0x100_0000 == 127 else a.bits == 1
  }

  function OtherFamily(family: int): int { if family == 4 then 6 else 4 }

  function First(addresses: seq<Addr>, family: int): (r: Option<Addr>)
    ensures r.Some? ==> r.value in addresses && Family(r.value) == family
    ensures r.None? ==> forall a :: a in addresses ==> Family(a) != family
  {
    if addresses == [] then None
    else if Family(addresses[0]) == family then Some(addresses[0])
    else First(addresses[1..], family)
  }

  function Derived(rule: Rule, listen: Addr, target: Addr): Rule {
    rule.(listenHost := At(listen), target := Address(target))
  }

  /** The listener's traffic is forwarded by the kernel. */
  predicate ByKernel(rule: Rule, l: Listener, addresses: seq<Addr>) {
    rule.plane == Automatic && First(addresses, l.family).Some? && !IsLoopback(l.host)
  }

  function SpecFor(rule: Rule, l: Listener, target: Addr, t: Transport, mark: nat, flow: bool): Spec {
    Spec(rule.id, l.family, l.host, rule.listenPort, rule.LastListenPort(), target, rule.targetPort,
         rule.LastTargetPort(), t, mark, flow)
  }

  function SpecsFor(rule: Rule, l: Listener, target: Addr, ts: seq<Transport>, mark: nat, flow: bool): seq<Spec> {
    seq(|ts|, i requires 0 <= i < |ts| => SpecFor(rule, l, target, ts[i], mark, flow))
  }

  function SpecsOfListener(rule: Rule, l: Listener, addresses: seq<Addr>, mark: nat, flow: bool): seq<Spec> {
    if ByKernel(rule, l, addresses) then SpecsFor(rule, l, First(addresses, l.family).value,
                                                  rule.protocol.Transports(), mark, flow)
    else []
  }

  function PathsOfListener(rule: Rule, l: Listener, addresses: seq<Addr>): map<PathKey, GoPath> {
    if ByKernel(rule, l, addresses) then
      if l.host.Unspecified() then PathOf(rule, Loopback, if l.family == 4 then LOOPBACK_V4 else LOOPBACK_V6,
                                          First(addresses, l.family).value)
      else map[]
    else
      var target := if First(addresses, l.family).Some? then First(addresses, l.family)
          else First(addresses, OtherFamily(l.family));
      if target.None? then map[]
          else PathOf(rule, if rule.plane == GoOnly then Forced else Proxied, l.host, target.value)
  }

  function PathOf(rule: Rule, kind: PathKind, listen: Addr, target: Addr): (paths: map<PathKey, GoPath>)
    ensures PathKey(rule.id, kind, listen, target) in paths && paths != map[]
  {
    assert PathKey(rule.id, kind, listen, target) in
           (map[PathKey(rule.id, kind, listen, target) := GoPath(rule.id, Derived(rule, listen, target))]);
    map[PathKey(rule.id, kind, listen, target) := GoPath(rule.id, Derived(rule, listen, target))]
  }

  function SpecsOfRule(rule: Rule, addresses: seq<Addr>, mark: nat, flow: bool): seq<Spec> {
    var ls := ListenFamilies(rule.listenHost);
    SpecsOfListener(rule, ls[0], addresses, mark, flow)
        + if |ls| > 1 then SpecsOfListener(rule, ls[1], addresses, mark, flow) else []
  }

  function PathsOfRule(rule: Rule, addresses: seq<Addr>): map<PathKey, GoPath> {
    var ls := ListenFamilies(rule.listenHost);
    PathsOfListener(rule, ls[0], addresses) + if |ls| > 1 then PathsOfListener(rule, ls[1], addresses) else map[]
  }

  function PlannedSpecs(rules: seq<Rule>, resolved: Resolved, mark: nat, flow: bool): seq<Spec> {
    if rules == [] then [] else
      var last := rules[|rules| - 1];
      PlannedSpecs(rules[..|rules| - 1], resolved, mark, flow)
      + if last.enabled && last.id in resolved then SpecsOfRule(last, resolved[last.id], mark, flow) else []
  }

  function PlannedPaths(rules: seq<Rule>, resolved: Resolved): map<PathKey, GoPath> {
    if rules == [] then map[] else
      var last := rules[|rules| - 1];
      PlannedPaths(rules[..|rules| - 1], resolved)
      + if last.enabled && last.id in resolved then PathsOfRule(last, resolved[last.id]) else map[]
  }

  /** The enabled rules whose target resolved to nothing. */
  function Unserved(rules: seq<Rule>, resolved: Resolved): set<string> {
    set r | r in rules && r.enabled && (r.id !in resolved || resolved[r.id] == []) :: r.id
  }

  lemma NoneUnserved(resolved: Resolved)
    ensures Unserved([], resolved) == {}
  {
  }

  lemma UnservedUpTo(rules: seq<Rule>, i: nat, resolved: Resolved)
    requires i < |rules|
    ensures var r := rules[i];
            Unserved(rules[..i + 1], resolved) == Unserved(rules[..i], resolved)
              + if r.enabled && (r.id !in resolved || resolved[r.id] == []) then {r.id} else {}
  {
    assert rules[..i + 1] == rules[..i] + [rules[i]];
  }

  method BuildPlan(rules: seq<Rule>, resolved: Resolved, mark: nat, flow: bool) returns (plan: ForwardingPlan)
    ensures fresh(plan) && plan.Consistent()
    ensures plan.nftSpecs == PlannedSpecs(rules, resolved, mark, flow)
    ensures plan.goRules == PlannedPaths(rules, resolved)
    ensures plan.errors == Unserved(rules, resolved)
  {
    hide Unserved;
    NoneUnserved(resolved);
    plan := new ForwardingPlan();
    for i := 0 to |rules|
      invariant fresh(plan) && plan.Consistent()
      invariant plan.nftSpecs == PlannedSpecs(rules[..i], resolved, mark, flow)
      invariant plan.goRules == PlannedPaths(rules[..i], resolved)
      invariant plan.errors == Unserved(rules[..i], resolved)
    {
      var rule := rules[i];
      UnservedUpTo(rules, i, resolved);
      assert rules[..i + 1][..i] == rules[..i];
      if !rule.enabled { continue; }
      if rule.id !in resolved {
        plan.errors := plan.errors + {rule.id};
        continue;
      }
      hide ForwardingPlan.Consistent;
      plan.AddRule(rule, resolved[rule.id], mark, flow);
    }
    assert rules[..|rules|] == rules;
  }

  // ----- What a plan promises -----

  /** Where a planned scope comes from. */
  ghost predicate Planned(s: Spec, r: Rule, addresses: seq<Addr>, mark: nat, flow: bool) {
    exists l, t ::
      && l in ListenFamilies(r.listenHost) && r.protocol.Carries(t) && ByKernel(r, l, addresses)
      && s == SpecFor(r, l, First(addresses, l.family).value, t, mark, flow)
  }

  lemma SpecsOfRuleArePlanned(r: Rule, addresses: seq<Addr>, mark: nat, flow: bool, s: Spec)
    ensures s in SpecsOfRule(r, addresses, mark, flow) <==> Planned(s, r, addresses, mark, flow)
  {
    var ls := ListenFamilies(r.listenHost);
    forall l | l in ls
      ensures s in SpecsOfListener(r, l, addresses, mark, flow) <==>
              ByKernel(r, l, addresses)
              && exists t :: r.protocol.Carries(t)
                  && s == SpecFor(r, l, First(addresses, l.family).value, t, mark, flow)
    {
      ListenerSpecs(r, l, addresses, mark, flow, s);
    }
    assert forall l :: l in ls <==> l == ls[0] || (|ls| > 1 && l == ls[1]);
  }

  lemma ListenerSpecs(r: Rule, l: Listener, addresses: seq<Addr>, mark: nat, flow: bool, s: Spec)
    ensures s in SpecsOfListener(r, l, addresses, mark, flow) <==>
            ByKernel(r, l, addresses)
            && exists t :: r.protocol.Carries(t) && s == SpecFor(r, l, First(addresses, l.family).value, t, mark, flow)
  {
    if ByKernel(r, l, addresses) {
      var ts, specs := r.protocol.Transports(), SpecsOfListener(r, l, addresses, mark, flow);
      forall t | r.protocol.Carries(t) ensures SpecFor(r, l, First(addresses, l.family).value, t, mark, flow) in specs {
        var i := if ts[0] == t then 0 else 1;
        assert specs[i] == SpecFor(r, l, First(addresses, l.family).value, t, mark, flow);
      }
      forall i | 0 <= i < |specs| ensures r.protocol.Carries(ts[i]) {
      }
    }
  }

  /** The rule behind a planned scope. */
  lemma {:induction false} OriginOf(rules: seq<Rule>, resolved: Resolved, mark: nat, flow: bool, s: Spec)
    returns (i: nat)
    requires s in PlannedSpecs(rules, resolved, mark, flow)
    ensures i < |rules| && rules[i].enabled && rules[i].id in resolved
    ensures Planned(s, rules[i], resolved[rules[i].id], mark, flow)
  {
    var last := rules[|rules| - 1];
    if s in PlannedSpecs(rules[..|rules| - 1], resolved, mark, flow) {
      i := OriginOf(rules[..|rules| - 1], resolved, mark, flow, s);
    } else {
      i := |rules| - 1;
      SpecsOfRuleArePlanned(last, resolved[last.id], mark, flow, s);
    }
  }

  /** The rule behind a planned Go path. */
  lemma {:induction false} PathComesFrom(rules: seq<Rule>, resolved: Resolved, k: PathKey) returns (r: Rule)
    requires k in PlannedPaths(rules, resolved)
    ensures r in rules && r.enabled && r.id == k.ruleId == PlannedPaths(rules, resolved)[k].ruleId
    ensures PlannedPaths(rules, resolved)[k].rule == Derived(r, k.listen, k.target)
  {
    var last := rules[|rules| - 1];
    var rest := PlannedPaths(rules[..|rules| - 1], resolved);
    if last.enabled && last.id in resolved && k in PathsOfRule(last, resolved[last.id]) {
      r := last;
    } else {
      r := PathComesFrom(rules[..|rules| - 1], resolved, k);
    }
  }

  /** Validated rules plan well-formed scopes of which no two receive a common
      packet. */
  lemma PlanIsConflictFree(rules: seq<Rule>, resolved: Resolved, mark: nat, flow: bool)
    requires NoConflicts(rules) && mark != 0 && forall r :: r in rules ==> ValidRule(r)
    ensures AllValid(PlannedSpecs(rules, resolved, mark, flow))
    ensures ConflictFree(PlannedSpecs(rules, resolved, mark, flow))
  {
    var specs := PlannedSpecs(rules, resolved, mark, flow);
    forall s | s in specs ensures ValidSpec(s) {
      var i := OriginOf(rules, resolved, mark, flow, s);
      PlannedIsValid(s, rules[i], resolved[rules[i].id], mark, flow);
    }
    hide ConflictFree, PlannedSpecs, Planned, Receives, Conflict, AllValid, ValidSpec;
    forall s, t, a | s in specs && t in specs && s.Has(a) && ClaimsIngress(t, a) ensures s == t {
      var i := OriginOf(rules, resolved, mark, flow, s);
      var j := OriginOf(rules, resolved, mark, flow, t);
      if i == j {
        PlannedOnce(s, t, rules[i], resolved[rules[i].id], mark, flow);
      } else {
        var c := Cell(a.protocol, if s.listenHost.Unspecified() then t.listenHost else s.listenHost, a.listenPort);
        PlannedReceives(s, rules[i], resolved[rules[i].id], mark, flow, c);
        PlannedReceives(t, rules[j], resolved[rules[j].id], mark, flow, c);
        ConflictIsSharedCell(rules[i], rules[j]);
        ConflictIsSharedCell(rules[j], rules[i]);
      }
    }
  }

  lemma PlannedIsValid(s: Spec, r: Rule, addresses: seq<Addr>, mark: nat, flow: bool)
    requires Planned(s, r, addresses, mark, flow) && ValidRule(r) && mark != 0
    ensures ValidSpec(s)
  {
  }

  lemma PlannedOnce(s: Spec, t: Spec, r: Rule, addresses: seq<Addr>, mark: nat, flow: bool)
    requires Planned(s, r, addresses, mark, flow) && Planned(t, r, addresses, mark, flow)
    requires s.family == t.family && s.protocol == t.protocol
    ensures s == t
  {
  }

  lemma PlannedReceives(s: Spec, r: Rule, addresses: seq<Addr>, mark: nat, flow: bool, c: Cell)
    requires Planned(s, r, addresses, mark, flow)
    requires s.protocol == c.transport && s.listenPort <= c.port <= s.LastPort() && FamilyMatches(c.addr, s.family)
    requires s.listenHost.Unspecified() || s.listenHost == c.addr
    requires ValidRule(r)
    ensures Receives(r, c)
  {
  }

  /** Every listener of an enabled, resolved rule is served: each of its packets
      reaches a kernel scope or a Go listener of that rule, never both except
      through the loopback companion of a wildcard. */
  lemma EveryListenerIsServed(r: Rule, addresses: seq<Addr>, mark: nat, flow: bool, l: Listener)
    requires addresses != [] && l in ListenFamilies(r.listenHost)
    ensures ByKernel(r, l, addresses) ==>
              forall t :: r.protocol.Carries(t) ==>
                exists s :: s in SpecsOfRule(r, addresses, mark, flow) && s.protocol == t && s.listenHost == l.host
                    && s.family == l.family
    ensures !ByKernel(r, l, addresses) ==>
              exists k :: k in PathsOfRule(r, addresses) && PathsOfRule(r, addresses)[k].rule.listenHost == At(l.host)
    ensures forall k :: k in PathsOfListener(r, l, addresses) && SpecsOfListener(r, l, addresses, mark, flow) != [] ==>
              k.kind == Loopback
  {
    if ByKernel(r, l, addresses) {
      forall t | r.protocol.Carries(t)
        ensures exists s :: s in SpecsOfRule(r, addresses, mark, flow)
                            && s.protocol == t && s.listenHost == l.host && s.family == l.family
      {
        var s := SpecFor(r, l, First(addresses, l.family).value, t, mark, flow);
        SpecsOfRuleArePlanned(r, addresses, mark, flow, s);
        assert s in SpecsOfRule(r, addresses, mark, flow);
      }
    } else {
      assert Family(addresses[0]) == l.family || Family(addresses[0]) == OtherFamily(l.family);
      var paths := PathsOfListener(r, l, addresses);
      var k :| k in paths;
      assert paths[k].rule.listenHost == At(l.host);
      assert k in PathsOfRule(r, addresses);
    }
  }

  // ----- Where each packet is planned to go, read off the rules alone -----

  predicate ListensAt(r: Rule, family: int, host: Addr) {
    match r.listenHost
    case Anywhere => (family == 4 && host == V4(0)) || (family == 6 && host == V6(0))
    case At(addr) => host == addr && family == if addr.V4? then 4 else 6
  }

  /** `target` is the first of the addresses that has the family. */
  predicate FirstOf(addresses: seq<Addr>, family: int, target: Addr) {
    exists i :: 0 <= i < |addresses| && addresses[i] == target && (target.V4? <==> family == 4)
                && forall j :: 0 <= j < i ==> addresses[j].V4? != target.V4?
  }

  predicate NoneOf(addresses: seq<Addr>, family: int) {
    forall a :: a in addresses ==> (a.V4? <==> family != 4)
  }

  predicate LocalOnly(host: Addr) {
    (host.V4? && 0x7F00_0000 <= host.bits <= 0x7FFF_FFFF) || host == V6(1)
  }

  predicate Uses(r: Rule, t: Transport) {
    match r.protocol case OnlyTCP => t == TCP case OnlyUDP => t == UDP case Both => true
  }

  predicate InRange(r: Rule, port: int) {
    r.listenPort <= port <= if r.listenPortEnd == 0 then r.listenPort else r.listenPortEnd
  }

  /** The kernel takes over a listener: the rule leaves the choice, the listener is
      not the loopback, and the target has an address of its family. */
  predicate KernelTakes(r: Rule, family: int, host: Addr, addresses: seq<Addr>) {
    r.plane == Automatic && ListensAt(r, family, host) && !LocalOnly(host) && !NoneOf(addresses, family)
  }

  /** The rule sends what arrives for the tuple to its target port, shifted as the
      listen port is, at the first resolved address of the listener's family. */
  predicate SendsOn(r: Rule, addresses: seq<Addr>, mark: nat, a: Atom) {
    && a.ruleId == r.id && a.mark == mark && Uses(r, a.protocol) && InRange(r, a.listenPort)
    && KernelTakes(r, a.family, a.listenHost, addresses) && FirstOf(addresses, a.family, a.targetHost)
    && a.targetPort == r.targetPort + (a.listenPort - r.listenPort)
  }

  lemma {:induction false} FirstIsFirst(addresses: seq<Addr>, family: int, target: Addr)
    requires family == 4 || family == 6
    ensures First(addresses, family) == Some(target) <==> FirstOf(addresses, family, target)
    ensures First(addresses, family).None? <==> NoneOf(addresses, family)
  {
    if addresses != [] {
      FirstIsFirst(addresses[1..], family, target);
      var rest := addresses[1..];
      if Family(addresses[0]) != family {
        if FirstOf(rest, family, target) {
          var i :| 0 <= i < |rest| && rest[i] == target && forall j :: 0 <= j < i ==> rest[j].V4? != target.V4?;
          assert addresses[i + 1] == target;
        }
        if FirstOf(addresses, family, target) {
          var i :| 0 <= i < |addresses| && addresses[i] == target
                   && forall j :: 0 <= j < i ==> addresses[j].V4? != target.V4?;
          assert rest[i - 1] == target;
          forall j | 0 <= j < i - 1 ensures rest[j].V4? != target.V4? { assert addresses[j + 1] == rest[j]; }
        }
        assert forall a :: a in addresses <==> a == addresses[0] || a in rest;
      } else {
        assert addresses[0] in addresses;
      }
    }
  }

  lemma ListenersAre(r: Rule, l: Listener)
    ensures l in ListenFamilies(r.listenHost) <==> ListensAt(r, l.family, l.host)
  {
  }

  lemma KernelTakesIs(r: Rule, l: Listener, addresses: seq<Addr>)
    ensures l in ListenFamilies(r.listenHost) && ByKernel(r, l, addresses) <==>
            KernelTakes(r, l.family, l.host, addresses)
  {
    ListenersAre(r, l);
    if l.family == 4 || l.family == 6 { FirstIsFirst(addresses, l.family, l.host); }
    hide First, NoneOf;
  }

  lemma RuleTuples(r: Rule, addresses: seq<Addr>, mark: nat, flow: bool, a: Atom)
    requires ValidRule(r)
    ensures (exists s :: Planned(s, r, addresses, mark, flow) && s.Has(a)) <==> SendsOn(r, addresses, mark, a)
  {
    var l := Listener(a.family, a.listenHost);
    KernelTakesIs(r, l, addresses);
    hide First, FirstOf, NoneOf, IsLoopback, KernelTakes, ListenFamilies;
    if SendsOn(r, addresses, mark, a) {
      FamilyOfListener(r, l, addresses);
      FirstIsFirst(addresses, a.family, a.targetHost);
      var s := SpecFor(r, l, a.targetHost, a.protocol, mark, flow);
      assert s.Has(a) by { SpecHas(r, l, a, mark, flow); }
      PlannedBy(s, r, l, a.protocol, addresses, mark, flow);
    }
    if s :| Planned(s, r, addresses, mark, flow) && s.Has(a) {
      var m, t :| m in ListenFamilies(r.listenHost) && r.protocol.Carries(t) && ByKernel(r, m, addresses)
                  && s == SpecFor(r, m, First(addresses, m.family).value, t, mark, flow);
      assert m == l;
      FamilyOfListener(r, l, addresses);
      FirstIsFirst(addresses, a.family, a.targetHost);
    }
  }

  lemma PlannedBy(s: Spec, r: Rule, l: Listener, t: Transport, addresses: seq<Addr>, mark: nat, flow: bool)
    requires l in ListenFamilies(r.listenHost) && r.protocol.Carries(t) && ByKernel(r, l, addresses)
    requires s == SpecFor(r, l, First(addresses, l.family).value, t, mark, flow)
    ensures Planned(s, r, addresses, mark, flow)
  {
  }

  lemma FamilyOfListener(r: Rule, l: Listener, addresses: seq<Addr>)
    requires KernelTakes(r, l.family, l.host, addresses)
    ensures l.family == 4 || l.family == 6
  {
  }

  lemma SpecHas(r: Rule, l: Listener, a: Atom, mark: nat, flow: bool)
    requires ValidRule(r) && InRange(r, a.listenPort) && a.ruleId == r.id && a.mark == mark
    requires l == Listener(a.family, a.listenHost) && a.targetPort == r.targetPort + (a.listenPort - r.listenPort)
    ensures SpecFor(r, l, a.targetHost, a.protocol, mark, flow).Has(a)
  {
  }

  /** What the kernel is planned to do, tuple by tuple and in both directions: a
      packet is sent on exactly as some enabled, resolved rule says, and
      acceleration is asked for exactly when it is switched on. */
  lemma {:induction false} PlannedTuples(rules: seq<Rule>, resolved: Resolved, mark: nat, flow: bool, a: Atom)
    requires forall r :: r in rules ==> ValidRule(r)
    ensures Owns(PlannedSpecs(rules, resolved, mark, flow), a) <==>
            exists r :: r in rules && r.enabled && r.id in resolved && SendsOn(r, resolved[r.id], mark, a)
    ensures forall s :: s in PlannedSpecs(rules, resolved, mark, flow) ==> s.flow == flow
  {
    hide SendsOn, Planned, ValidRule;
    if rules != [] {
      var n := |rules| - 1;
      var front, last := rules[..n], rules[n];
      assert rules == front + [last];
      PlannedTuples(front, resolved, mark, flow, a);
      if last.enabled && last.id in resolved {
        var specs := SpecsOfRule(last, resolved[last.id], mark, flow);
        RuleTuples(last, resolved[last.id], mark, flow, a);
        forall s ensures s in specs <==> Planned(s, last, resolved[last.id], mark, flow) {
          SpecsOfRuleArePlanned(last, resolved[last.id], mark, flow, s);
        }
        PlannedFlow(last, resolved[last.id], mark, flow);
        AtomsOfConcat(PlannedSpecs(front, resolved, mark, flow), specs);
        assert a in Atoms(PlannedSpecs(rules, resolved, mark, flow)) <==>
               a in Atoms(PlannedSpecs(front, resolved, mark, flow)) || a in Atoms(specs);
      }
    }
  }

  lemma PlannedFlow(r: Rule, addresses: seq<Addr>, mark: nat, flow: bool)
    ensures forall s :: Planned(s, r, addresses, mark, flow) ==> s.flow == flow
  {
  }

  /** What a Go listener is planned to do for a rule: it stands in for a listener the
      kernel does not take, or beside a wildcard it does take, at the loopback. Its
      target is the first address of the listener's family, or of the other one. */
  predicate Stands(r: Rule, addresses: seq<Addr>, k: PathKey, family: int) {
    && k.ruleId == r.id
    && if k.kind.Loopback? then
         && KernelTakes(r, family, if family == 4 then V4(0) else V6(0), addresses)
         && k.listen == (if family == 4 then V4(0x7F00_0001) else V6(1)) && FirstOf(addresses, family, k.target)
       else
         && (k.kind.Forced? <==> r.plane == GoOnly)
         && ListensAt(r, family, k.listen) && !KernelTakes(r, family, k.listen, addresses)
         && (|| FirstOf(addresses, family, k.target)
             || (NoneOf(addresses, family) && FirstOf(addresses, if family == 4 then 6 else 4, k.target)))
  }

  /** The path serves the rule's own ports and transports, at the key's addresses. */
  predicate ServesAs(path: GoPath, r: Rule, k: PathKey) {
    && path.ruleId == path.rule.id == r.id && path.rule.protocol == r.protocol
    && path.rule.listenHost == At(k.listen) && path.rule.target == Address(k.target)
    && path.rule.listenPort == r.listenPort && path.rule.listenPortEnd == r.listenPortEnd
    && path.rule.targetPort == r.targetPort && path.rule.targetPortEnd == r.targetPortEnd
  }

  lemma ListenerPaths(r: Rule, l: Listener, addresses: seq<Addr>, k: PathKey)
    requires l in ListenFamilies(r.listenHost)
    ensures k in PathsOfListener(r, l, addresses) <==>
            Stands(r, addresses, k, l.family) && (k.kind.Loopback? || k.listen == l.host)
    ensures k in PathsOfListener(r, l, addresses) ==> ServesAs(PathsOfListener(r, l, addresses)[k], r, k)
  {
    ListenersAre(r, l);
    FirstIsFirst(addresses, l.family, k.target);
    FirstIsFirst(addresses, OtherFamily(l.family), k.target);
    hide First, FirstOf, NoneOf;
  }

  lemma RulePaths(r: Rule, addresses: seq<Addr>, k: PathKey)
    ensures k in PathsOfRule(r, addresses) <==> exists family :: family in {4, 6} && Stands(r, addresses, k, family)
    ensures k in PathsOfRule(r, addresses) ==> ServesAs(PathsOfRule(r, addresses)[k], r, k)
  {
    var ls := ListenFamilies(r.listenHost);
    forall l | l in ls
      ensures k in PathsOfListener(r, l, addresses) <==>
              Stands(r, addresses, k, l.family) && (k.kind.Loopback? || k.listen == l.host)
      ensures k in PathsOfListener(r, l, addresses) ==> ServesAs(PathsOfListener(r, l, addresses)[k], r, k)
    {
      ListenerPaths(r, l, addresses, k);
    }
    hide PathsOfListener, FirstOf, NoneOf, ServesAs;
    if family :| family in {4, 6} && Stands(r, addresses, k, family) {
      var host := if !k.kind.Loopback? then k.listen else if family == 4 then V4(0) else V6(0);
      var l := Listener(family, host);
      ListenersAre(r, l);
      assert l in ls;
    }
  }

  /** What Go is planned to do, path by path and in both directions. */
  lemma {:induction false} PlannedGoPaths(rules: seq<Rule>, resolved: Resolved, k: PathKey)
    requires forall i, j :: 0 <= i < j < |rules| ==> rules[i].id != rules[j].id
    ensures k in PlannedPaths(rules, resolved) <==>
            exists r, family :: r in rules && r.enabled && r.id in resolved && family in {4, 6}
                                && Stands(r, resolved[r.id], k, family)
    ensures forall r :: r in rules && r.id == k.ruleId && k in PlannedPaths(rules, resolved) ==>
              ServesAs(PlannedPaths(rules, resolved)[k], r, k)
  {
    hide Stands, ServesAs, PathsOfRule;
    if rules != [] {
      var n := |rules| - 1;
      var front, last := rules[..n], rules[n];
      assert rules == front + [last];
      PlannedGoPaths(front, resolved, k);
      StandsForOwn(k);
      if last.enabled && last.id in resolved { RulePaths(last, resolved[last.id], k); }
    }
  }

  lemma StandsForOwn(k: PathKey)
    ensures forall r, addresses, family :: Stands(r, addresses, k, family) ==> k.ruleId == r.id
  {
  }
}
