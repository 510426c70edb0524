/** What a managed table does to packets, and that it is what its scopes say. */
module TrafficSemantics {
  import opened NftSpecs
  import opened Conntrack
  import opened RulePlan
  import opened KernelTable

  // ----- Packets and the meaning of one rule -----

  /** A packet as the NAT hooks see it. `local` tells whether the host owns the
      destination address. */
  datatype Packet = Packet(family: int, protocol: Transport, destination: Addr, port: nat, local: bool)

  datatype Delivery = Delivery(target: Addr, port: int, mark: nat)

  /** A wildcard takes what is addressed to the host itself, but leaves what the host
      sends to its own loopback alone. */
  predicate Addressed(host: Addr, hook: Hook, p: Packet) {
    if host.Unspecified() then p.local && !(hook.Output? && LocalOnly(p.destination)) else p.destination == host
  }

  predicate Takes(rule: Installed, hook: Hook, p: Packet) {
    && rule.Redirect? && rule.hook == hook
    && p.family == rule.scope.family && p.protocol == rule.scope.protocol && Addressed(rule.scope.listenHost, hook, p)
    && rule.scope.listenPort <= p.port <= rule.scope.LastPort()
  }

  /** The address and the mapped port of the translation, and the mark set beside it. */
  function Translation(rule: Installed, p: Packet): Delivery
    requires rule.Redirect?
  {
    Delivery(rule.scope.targetHost, rule.scope.targetPort + (p.port - rule.scope.listenPort), rule.scope.mark)
  }

  /** A tracked packet on its way to the target has the mark and the protocol of its
      connection, and its destination is where the replies come from. */
  predicate Selects(reply: Reply, e: Entry) {
    && e.mark == reply.mark && e.family == reply.family && e.protocol == reply.protocol
    && e.replySource == reply.target && reply.port <= e.replySourcePort <= reply.last
  }

  predicate Hides(rule: Installed, e: Entry) { rule.Masquerade? && Selects(rule.reply, e) }

  predicate Lets(rule: Installed, e: Entry, established: bool) {
    match rule
    case Admit(reply) => Selects(reply, e)
    case Accelerate(reply, listen, listenPort, listenLast) =>
      && Selects(reply, e) && listenPort <= e.destinationPort <= listenLast
      && (listen.Some? ==> e.destination == listen.value) && established
    case _ => false
  }

  // ----- The meaning of a chain -----

  /** The first rule that matches; every rule here ends its chain. */
  function Decisive(rules: seq<Installed>, matching: Installed -> bool): Option<Installed> {
    if rules == [] then None
    else if matching(rules[0]) then Some(rules[0]) else Decisive(rules[1..], matching)
  }

  function Redirected(rules: seq<Installed>, hook: Hook, p: Packet): Option<Delivery> {
    var rule := Decisive(rules, r => Takes(r, hook, p));
    if rule.Some? && rule.value.Redirect? then Some(Translation(rule.value, p)) else None
  }

  predicate Masqueraded(rules: seq<Installed>, e: Entry) {
    Decisive(rules, r => Hides(r, e)).Some?
  }

  datatype Passage = ByPolicy | ByRule | Offloaded

  /** How a packet of the connection passes the forward hook. */
  function Forwarded(rules: seq<Installed>, e: Entry, established: bool): Passage {
    match Decisive(rules, r => Lets(r, e, established))
    case None => ByPolicy
    case Some(rule) => if rule.Accelerate? then Offloaded else ByRule
  }

  lemma {:induction false} DecisiveIsFirst(rules: seq<Installed>, matching: Installed -> bool)
    ensures var rule := Decisive(rules, matching);
            if rule.None? then forall r :: r in rules ==> !matching(r)
            else rule.value in rules && matching(rule.value)
  {
    if rules != [] && !matching(rules[0]) {
      DecisiveIsFirst(rules[1..], matching);
    }
  }

  lemma {:induction false} TrafficMembers(specs: seq<Spec>, r: Installed)
    ensures r in Traffic(specs) <==> exists s :: s in specs && r in RulesFor(s)
  {
    if specs != [] {
      TrafficMembers(specs[..|specs| - 1], r);
      assert specs == specs[..|specs| - 1] + [specs[|specs| - 1]];
    }
  }

  lemma InstalledFor(t: Table, goal: Goal, r: Installed)
    requires Describes(t, goal) && !r.Record?
    ensures r in t.rules <==> exists s :: s in goal.active && r in RulesFor(s)
  {
    TrafficMembers(goal.active, r);
    if r in goal.Records() { RecordsAreState(goal, r); }
    hide RulesFor, Traffic, Goal.Records;
    assert r in t.rules <==> r in multiset(t.rules);
    assert r in multiset(t.rules) <==> r in multiset(Traffic(goal.active)) || r in multiset(goal.Records());
  }

  // ----- The meaning of a tuple -----

  /** The packet arrives for the tuple: from outside, or sent by the host itself. */
  predicate Arrives(a: Atom, hook: Hook, p: Packet) {
    && (hook.Prerouting? || hook.Output?)
    && p.family == a.family && p.protocol == a.protocol && p.port == a.listenPort
    && Addressed(a.listenHost, hook, p)
  }

  function DeliveryOf(a: Atom): Delivery { Delivery(a.targetHost, a.targetPort, a.mark) }

  /** The connection has the target and the mark of the tuple. */
  predicate Reaches(a: Atom, e: Entry) {
    && e.family == a.family && e.protocol == a.protocol && e.mark == a.mark
    && e.replySource == a.targetHost && e.replySourcePort == a.targetPort
  }

  function AtomAt(s: Spec, port: int): Atom {
    Atom(s.ruleId, s.family, s.protocol, s.mark, s.listenHost, s.targetHost, port, s.targetPort + (port - s.listenPort))
  }

  lemma RedirectsOf(s: Spec, r: Installed, hook: Hook, p: Packet)
    requires ValidSpec(s) && r in RulesFor(s) && Takes(r, hook, p)
    ensures s.Has(AtomAt(s, p.port)) && Arrives(AtomAt(s, p.port), hook, p)
    ensures Translation(r, p) == DeliveryOf(AtomAt(s, p.port))
  {
  }

  lemma RedirectOf(s: Spec, a: Atom, hook: Hook, p: Packet)
    requires s.Has(a) && Arrives(a, hook, p)
    ensures Redirect(hook, s.Key()) in RulesFor(s) && Takes(Redirect(hook, s.Key()), hook, p)
  {
  }

  /** Every packet is redirected as some active tuple says, and one that any active
      tuple receives is redirected. */
  lemma RedirectedIsOwned(t: Table, goal: Goal, hook: Hook, p: Packet)
    requires Describes(t, goal) && AllValid(goal.active)
    ensures var way := Redirected(t.rules, hook, p);
            && (way.Some? ==> exists a :: Owns(goal.active, a) && Arrives(a, hook, p) && way.value == DeliveryOf(a))
            && (way.None? ==> forall a :: Owns(goal.active, a) ==> !Arrives(a, hook, p))
  {
    hide Describes, RulesFor, Arrives, Takes, ValidSpec, Spec.Has, Translation;
    var matching := r => Takes(r, hook, p);
    DecisiveIsFirst(t.rules, matching);
    var rule := Decisive(t.rules, matching);
    if rule.Some? {
      TakesRedirects(rule.value, hook, p);
      InstalledFor(t, goal, rule.value);
      var s :| s in goal.active && rule.value in RulesFor(s);
      RedirectsOf(s, rule.value, hook, p);
      assert Owns(goal.active, AtomAt(s, p.port));
    }
    forall a | Owns(goal.active, a) && Arrives(a, hook, p) ensures exists r :: r in t.rules && matching(r) {
      var s :| s in goal.active && s.Has(a);
      RedirectOf(s, a, hook, p);
      InstalledFor(t, goal, Redirect(hook, s.Key()));
      assert matching(Redirect(hook, s.Key()));
    }
  }

  lemma TakesRedirects(r: Installed, hook: Hook, p: Packet)
    requires Takes(r, hook, p)
    ensures r.Redirect?
  {
  }

  /** Where no two active tuples meet, as in every plan, the table redirects exactly
      as its tuples say, whatever the order of its rules. */
  lemma RedirectsExactly(t: Table, goal: Goal, hook: Hook, p: Packet, way: Delivery)
    requires Describes(t, goal) && AllValid(goal.active) && Separate(Atoms(goal.active))
    ensures Redirected(t.rules, hook, p) == Some(way) <==>
            exists a :: Owns(goal.active, a) && Arrives(a, hook, p) && way == DeliveryOf(a)
  {
    RedirectedIsOwned(t, goal, hook, p);
    hide Redirected, Describes, AllValid;
    if a :| Owns(goal.active, a) && Arrives(a, hook, p) && way == DeliveryOf(a) {
      var b :| Owns(goal.active, b) && Arrives(b, hook, p) && Redirected(t.rules, hook, p) == Some(DeliveryOf(b));
      assert a in Atoms(goal.active) && b in Atoms(goal.active) && Meet(a, b);
    }
  }

  /** From the configuration to the packet: with what validated rules plan installed,
      a packet is redirected exactly as an enabled, resolved rule sends it on. */
  lemma RulesReachPackets(rules: seq<Rule>, resolved: Resolved, mark: nat, flow: bool, t: Table, goal: Goal, hook: Hook,
                          p: Packet, way: Delivery)
    requires NoConflicts(rules) && mark != 0 && forall r :: r in rules ==> ValidRule(r)
    requires Describes(t, goal) && AllValid(goal.active)
    requires Atoms(goal.active) == Atoms(PlannedSpecs(rules, resolved, mark, flow))
    ensures Redirected(t.rules, hook, p) == Some(way) <==>
            exists r, a :: r in rules && r.enabled && r.id in resolved && SendsOn(r, resolved[r.id], mark, a)
                           && Arrives(a, hook, p) && way == DeliveryOf(a)
  {
    var planned := PlannedSpecs(rules, resolved, mark, flow);
    PlanIsConflictFree(rules, resolved, mark, flow);
    ConflictFreeIsSeparate(planned);
    RedirectsExactly(t, goal, hook, p, way);
    hide Redirected, Describes, PlannedSpecs, SendsOn, Arrives, ValidRule, NoConflicts;
    forall a ensures Owns(goal.active, a) <==>
                     exists r :: r in rules && r.enabled && r.id in resolved && SendsOn(r, resolved[r.id], mark, a)
    {
      PlannedTuples(rules, resolved, mark, flow, a);
      assert a in Atoms(goal.active) <==> a in Atoms(planned);
    }
  }

  // ----- On the way to the target -----

  lemma HidesOf(s: Spec, r: Installed, e: Entry) returns (a: Atom)
    requires ValidSpec(s) && r in RulesFor(s) && Hides(r, e)
    ensures s.Has(a) && Reaches(a, e)
  {
    a := AtomAt(s, s.listenPort + (e.replySourcePort - s.targetPort));
  }

  lemma HiddenBy(s: Spec, a: Atom, e: Entry)
    requires ValidSpec(s) && s.Has(a) && Reaches(a, e)
    ensures Masquerade(ReplyOf(s)) in RulesFor(s) && Hides(Masquerade(ReplyOf(s)), e)
  {
  }

  /** The source address is hidden exactly on connections with the target and the
      mark of an active tuple. */
  lemma MasqueradesExactly(t: Table, goal: Goal, e: Entry)
    requires Describes(t, goal) && AllValid(goal.active)
    ensures Masqueraded(t.rules, e) <==> exists a :: Owns(goal.active, a) && Reaches(a, e)
  {
    hide Describes, RulesFor, Reaches, ValidSpec, Spec.Has;
    var matching := r => Hides(r, e);
    DecisiveIsFirst(t.rules, matching);
    var rule := Decisive(t.rules, matching);
    if rule.Some? {
      InstalledFor(t, goal, rule.value);
      var s :| s in goal.active && rule.value in RulesFor(s);
      var a := HidesOf(s, rule.value, e);
      assert Owns(goal.active, a);
    }
    if a :| Owns(goal.active, a) && Reaches(a, e) {
      var s :| s in goal.active && s.Has(a);
      HiddenBy(s, a, e);
      InstalledFor(t, goal, Masquerade(ReplyOf(s)));
      assert matching(Masquerade(ReplyOf(s)));
    }
  }

  lemma LetsOf(s: Spec, r: Installed, a: Atom, e: Entry, established: bool)
    requires ValidSpec(s) && r in RulesFor(s) && Lets(r, e, established) && Carries(a, e)
    ensures r == ForwardRule(s) && r.Accelerate? == s.flow
    ensures s.flow ==> established && s.Has(AtomAt(s, e.destinationPort)) && Meet(AtomAt(s, e.destinationPort), a)
    ensures !s.flow ==> exists b :: s.Has(b) && Reaches(b, e)
  {
    if !s.flow {
      var b := AtomAt(s, s.listenPort + (e.replySourcePort - s.targetPort));
      assert s.Has(b) && Reaches(b, e);
    }
  }

  lemma LetBy(s: Spec, a: Atom, e: Entry, established: bool)
    requires ValidSpec(s) && s.Has(a)
    requires if s.flow then Carries(a, e) && established else Reaches(a, e)
    ensures ForwardRule(s) in RulesFor(s) && Lets(ForwardRule(s), e, established)
    ensures ForwardRule(s).Accelerate? == s.flow
  {
  }

  /** A scope with acceleration has the tuple. */
  ghost predicate Fast(specs: seq<Spec>, a: Atom) {
    exists s :: s in specs && s.flow && s.Has(a)
  }

  /** A scope without acceleration has some tuple with the connection's target. */
  ghost predicate PlainTo(specs: seq<Spec>, e: Entry) {
    exists s, b :: s in specs && !s.flow && s.Has(b) && Reaches(b, e)
  }

  /** A packet of a connection of an active tuple is let through by a rule if it is
      established; it is offloaded only if a scope with acceleration has the tuple,
      and, unless a plain scope shares the target, then always. */
  lemma ForwardsAsAsked(t: Table, goal: Goal, a: Atom, e: Entry, established: bool)
    requires Describes(t, goal) && AllValid(goal.active) && Separate(Atoms(goal.active))
    requires Owns(goal.active, a) && Carries(a, e)
    ensures var how := Forwarded(t.rules, e, established);
            && (established ==> !how.ByPolicy?)
            && (how.ByRule? ==> PlainTo(goal.active, e))
            && (how.Offloaded? ==> established && Fast(goal.active, a) && t.flowtable == Some(goal.devices))
            && (PlainTo(goal.active, e) ==> !how.ByPolicy?)
            && (!PlainTo(goal.active, e) ==> (how.Offloaded? <==> established && Fast(goal.active, a)))
  {
    hide RulesFor, Spec.Has, Lets, ValidSpec, Meet, Carries, Reaches, ForwardRule, Goal.Wanted, Goal.Chains;
    var matching := r => Lets(r, e, established);
    DecisiveIsFirst(t.rules, matching);
    var rule := Decisive(t.rules, matching);
    if rule.Some? {
      LetsForwards(rule.value, e, established);
      InstalledFor(t, goal, rule.value);
      var s :| s in goal.active && rule.value in RulesFor(s);
      LetsOf(s, rule.value, a, e, established);
      if s.flow {
        assert Owns(goal.active, AtomAt(s, e.destinationPort));
        assert AtomAt(s, e.destinationPort) in Atoms(goal.active) && a in Atoms(goal.active);
        assert Fast(goal.active, a);
      } else {
        var b :| s.Has(b) && Reaches(b, e);
        assert PlainTo(goal.active, e);
      }
    } else {
      if PlainTo(goal.active, e) {
        var s, b :| s in goal.active && !s.flow && s.Has(b) && Reaches(b, e);
        Missed(t, goal, s, b, e, established);
      }
      if established {
        var s :| s in goal.active && s.Has(a);
        CarriedReaches(a, e);
        Missed(t, goal, s, a, e, established);
      }
    }
  }

  lemma LetsForwards(r: Installed, e: Entry, established: bool)
    requires Lets(r, e, established)
    ensures r.Chain() == Base(Forward) && !r.Record?
  {
  }

  lemma CarriedReaches(a: Atom, e: Entry)
    requires Carries(a, e)
    ensures Reaches(a, e)
  {
  }

  lemma Missed(t: Table, goal: Goal, s: Spec, a: Atom, e: Entry, established: bool)
    requires Describes(t, goal) && AllValid(goal.active) && s in goal.active && s.Has(a)
    requires if s.flow then Carries(a, e) && established else Reaches(a, e)
    ensures exists r :: r in t.rules && Lets(r, e, established)
  {
    LetBy(s, a, e, established);
    hide Describes, Lets, RulesFor, ValidSpec;
    InstalledFor(t, goal, ForwardRule(s));
  }

  /** The connection that a redirected packet opens. */
  function Opened(p: Packet, way: Delivery, client: Addr, clientPort: nat): Entry
    requires way.port >= 0
  {
    Entry(p.family, p.protocol, way.mark, client, clientPort, p.destination, p.port, way.target, way.port)
  }

  /** A redirected packet opens a connection of an active tuple: its source is
      hidden, its packets pass by a rule once established, and revoking the active
      scopes would find it. */
  lemma RedirectedIsServed(t: Table, goal: Goal, hook: Hook, p: Packet, client: Addr, clientPort: nat)
    requires Describes(t, goal) && AllValid(goal.active) && Separate(Atoms(goal.active))
    requires Redirected(t.rules, hook, p).Some?
    ensures Redirected(t.rules, hook, p).value.port >= 1
    ensures var e := Opened(p, Redirected(t.rules, hook, p).value, client, clientPort);
            && Masqueraded(t.rules, e) && !Forwarded(t.rules, e, true).ByPolicy? && MatchesAny(e, goal.active)
            && exists a :: Owns(goal.active, a) && Carries(a, e) && Arrives(a, hook, p)
  {
    RedirectedIsOwned(t, goal, hook, p);
    hide Redirected, Masqueraded, Describes, Forwarded;
    var a :| Owns(goal.active, a) && Arrives(a, hook, p) && Redirected(t.rules, hook, p) == Some(DeliveryOf(a));
    assert a.targetPort >= 1 by { var s :| s in goal.active && s.Has(a); }
    var e := Opened(p, Redirected(t.rules, hook, p).value, client, clientPort);
    assert Carries(a, e) && Reaches(a, e);
    MasqueradesExactly(t, goal, e);
    MatchesIsCarried(e, goal.active);
    ForwardsAsAsked(t, goal, a, e, true);
  }

  // ----- The order of the rules decides between scopes that share a target -----

  /** Whatever the order of the rules, an established connection is offloaded if and
      only if a scope with acceleration has its tuple and no scope without one shares
      its target: otherwise the table with that scope's rule in front lets it by. */
  lemma OffloadedInAnyOrder(goal: Goal, some: Table, a: Atom, e: Entry)
    requires Describes(some, goal) && AllValid(goal.active) && Separate(Atoms(goal.active))
    requires Owns(goal.active, a) && Carries(a, e)
    ensures (forall t :: Describes(t, goal) ==> Forwarded(t.rules, e, true).Offloaded?) <==>
            Fast(goal.active, a) && !PlainTo(goal.active, e)
  {
    forall t | Describes(t, goal) && !PlainTo(goal.active, e)
      ensures Forwarded(t.rules, e, true).Offloaded? <==> Fast(goal.active, a)
    {
      ForwardsAsAsked(t, goal, a, e, true);
    }
    if PlainTo(goal.active, e) {
      var s, b :| s in goal.active && !s.flow && s.Has(b) && Reaches(b, e);
      LetBy(s, b, e, true);
      InstalledFor(some, goal, ForwardRule(s));
      var t := InFront(some, goal, ForwardRule(s));
      assert !Forwarded(t.rules, e, true).Offloaded?;
    }
  }

  lemma InFront(some: Table, goal: Goal, r: Installed) returns (t: Table)
    requires Describes(some, goal) && r in some.rules
    ensures Describes(t, goal) && t.rules != [] && t.rules[0] == r
  {
    hide Goal.Wanted, Goal.Chains, Goal.UsesFlowtable;
    var i :| 0 <= i < |some.rules| && some.rules[i] == r;
    t := some.(rules := [r] + (some.rules[..i] + some.rules[i + 1..]));
    assert some.rules == some.rules[..i] + [r] + some.rules[i + 1..];
  }
}
