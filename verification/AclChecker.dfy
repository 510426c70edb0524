/** The proof checker for foreign firewall chains, and its soundness against
    the evaluation of concrete packets. */
module AclChecker {
  import opened NftSpecs
  import opened AclSyntax
  import opened RetirementPlan

  // ----- Concrete packets and their evaluation -----

  datatype Packet = Packet(family: int, protocol: Transport, src: Addr, dst: Addr, sport: nat, dport: nat)

  datatype Value = Number(n: nat) | Address(a: Addr)

  function NfprotoOf(family: int): nat { if family == 6 then 10 else 2 }

  function L4protoOf(protocol: Transport): nat { if protocol.UDP? then 17 else 6 }

  /** What the left side of a match reads from a packet; reading a header the
      packet does not have breaks the match. */
  function Read(left: Json, p: Packet): Option<Value> {
    if !left.JObj? then None
    else if left.fields.Keys == {"meta"} && left.fields["meta"].JObj? then
      match Get(left.fields["meta"].fields, "key")
      case JStr("nfproto") => Some(Number(NfprotoOf(p.family)))
      case JStr("l4proto") => Some(Number(L4protoOf(p.protocol)))
      case _ => None
    else if left.fields.Keys == {"payload"} && left.fields["payload"].JObj? then
      var payload := left.fields["payload"].fields;
      match (Get(payload, "protocol"), Get(payload, "field"))
      case (JStr("tcp"), JStr("sport")) => if p.protocol.TCP? then Some(Number(p.sport)) else None
      case (JStr("tcp"), JStr("dport")) => if p.protocol.TCP? then Some(Number(p.dport)) else None
      case (JStr("udp"), JStr("sport")) => if p.protocol.UDP? then Some(Number(p.sport)) else None
      case (JStr("udp"), JStr("dport")) => if p.protocol.UDP? then Some(Number(p.dport)) else None
      case (JStr("ip"), JStr("saddr")) => if p.family == 4 then Some(Address(p.src)) else None
      case (JStr("ip"), JStr("daddr")) => if p.family == 4 then Some(Address(p.dst)) else None
      case (JStr("ip6"), JStr("saddr")) => if p.family == 6 then Some(Address(p.src)) else None
      case (JStr("ip6"), JStr("daddr")) => if p.family == 6 then Some(Address(p.dst)) else None
      case _ => None
    else None
  }

  /** The value a literal stands for: a number, a protocol name or an address. */
  function Literal(right: Json): Option<Value> {
    match right
    case JNum(_) => (match Uint(right) case Some(n) => Some(Number(n)) case None => None)
    case JStr(s) =>
      if s == "ipv4" then Some(Number(2))
      else if s == "ipv6" then Some(Number(10))
      else if s == "icmp" then Some(Number(1))
      else if s == "tcp" then Some(Number(6))
      else if s == "udp" then Some(Number(17))
      else if s == "ipv6-icmp" then Some(Number(58))
      else None
    case JAddr(a) => Some(Address(a))
    case _ => None
  }

  predicate Compare(op: string, x: Value, y: Value) {
    if op == "==" then x == y
    else if op == "!=" then x != y
    else
      x.Number? && y.Number? &&
      (if op == "<" then x.n < y.n
       else if op == "<=" then x.n <= y.n
       else if op == ">" then x.n > y.n
       else op == ">=" && x.n >= y.n)
  }

  predicate Holds(statement: Json, p: Packet) {
    && IsMatch(statement)
    && var x, y := Read(Left(statement), p), Literal(Right(statement));
       x.Some? && y.Some? && Compare(Op(statement), x.value, y.value)
  }

  datatype Verdict = Accept | Drop | Continue | Undefined

  /** Statements run in order; a failed match leaves the rule. */
  function RunStatements(items: seq<Json>, p: Packet): Verdict {
    if items == [] then Continue
    else if IsMatch(items[0]) then (if Holds(items[0], p) then RunStatements(items[1..], p) else Continue)
    else if items[0] == ACCEPT then Accept
    else if items[0] == JObj(map["drop" := JNull]) then Drop
    else Undefined
  }

  /** The first rule with a verdict decides, else the policy. */
  function RunChain(rules: seq<Fields>, policy: Json, p: Packet): Verdict {
    if rules == [] then
      (if policy == JStr("accept") then Accept else if policy == JStr("drop") then Drop else Undefined)
    else
      var v := RunStatements(Expr(rules[0]), p);
      if v.Continue? then RunChain(rules[1..], policy, p) else v
  }

  // ----- Flows and the packets a hook sees -----

  /** A forwarded connection: the client reaches `listen`, which is translated to
      `target`; towards the target the source is masqueraded as `router`. */
  datatype Flow = Flow(
    family: int,
    protocol: Transport,
    client: Addr, clientPort: nat,
    listen: Addr, listenPort: nat,
    target: Addr, targetPort: nat,
    router: Addr, routerPort: nat
  )

  predicate FlowOf(s: Spec, f: Flow) {
    && f.family == s.family
    && f.protocol == s.protocol
    && (s.listenHost.Unspecified() || f.listen == s.listenHost)
    && s.listenPort <= f.listenPort <= s.LastPort()
    && f.target == s.targetHost
    && f.targetPort == s.targetPort + (f.listenPort - s.listenPort)
    && f.clientPort <= 65535 && f.routerPort <= 65535
  }

  function At(f: Flow, src: Addr, sport: nat, dst: Addr, dport: nat): Packet {
    Packet(f.family, f.protocol, src, dst, sport, dport)
  }

  const DSTNAT := -100
  const SRCNAT := 100

  /** Destination translation runs at prerouting and source translation at
      postrouting, each at its own priority; at the same priority a foreign
      chain may run before or after it. */
  predicate Seen(f: Flow, hook: string, priority: int, p: Packet) {
    match hook
    case "prerouting" =>
      || (priority <= DSTNAT && p == At(f, f.client, f.clientPort, f.listen, f.listenPort))
      || (priority >= DSTNAT && p == At(f, f.client, f.clientPort, f.target, f.targetPort))
      || (priority <= DSTNAT && p == At(f, f.target, f.targetPort, f.router, f.routerPort))
      || (priority >= DSTNAT && p == At(f, f.target, f.targetPort, f.client, f.clientPort))
    case "forward" =>
      || p == At(f, f.client, f.clientPort, f.target, f.targetPort)
      || p == At(f, f.target, f.targetPort, f.client, f.clientPort)
    case "postrouting" =>
      || (priority <= SRCNAT && p == At(f, f.client, f.clientPort, f.target, f.targetPort))
      || (priority >= SRCNAT && p == At(f, f.router, f.routerPort, f.target, f.targetPort))
      || (priority <= SRCNAT && p == At(f, f.target, f.targetPort, f.client, f.clientPort))
      || (priority >= SRCNAT && p == At(f, f.listen, f.listenPort, f.client, f.clientPort))
    case _ =>
      || p == At(f, f.client, f.clientPort, f.target, f.targetPort)
      || p == At(f, f.target, f.targetPort, f.client, f.clientPort)
  }

  // ----- The checker's abstract views -----

  datatype PortRange = PortRange(first: nat, last: nat)

  /** A set of packets: an address that is `None` is arbitrary. */
  datatype View = View(source: Option<Addr>, destination: Option<Addr>, sport: PortRange, dport: PortRange,
                       family: int, protocol: Transport)

  predicate InView(v: View, p: Packet) {
    && p.family == v.family
    && p.protocol == v.protocol
    && (v.source.Some? ==> p.src == v.source.value)
    && (v.destination.Some? ==> p.dst == v.destination.value)
    && v.sport.first <= p.sport <= v.sport.last
    && v.dport.first <= p.dport <= v.dport.last
  }

  function Ports(first: int, last: int): PortRange
    requires 0 <= first && 0 <= last
  {
    PortRange(first, if last == 0 then first else last)
  }

  function Views(s: Spec, hook: string, priority: int): seq<View>
    requires ValidSpec(s)
  {
    var any := PortRange(0, 65535);
    var original := View(None, Some(s.targetHost), any, Ports(s.targetPort, s.targetPortEnd), s.family, s.protocol);
    var reply := View(Some(s.targetHost), None, original.dport, any, s.family, s.protocol);
    var listen := if s.listenHost.Unspecified() then None else Some(s.listenHost);
    if hook == "prerouting" && priority <= DSTNAT then
      var before := original.(destination := listen, dport := Ports(s.listenPort, s.listenPortEnd));
      if priority == DSTNAT then [before, original, reply] else [before, reply]
    else if hook == "postrouting" && priority >= SRCNAT then
      var after := reply.(source := listen, sport := Ports(s.listenPort, s.listenPortEnd));
      if priority == SRCNAT then [original, reply, after] else [original, after]
    else [original, reply]
  }

  /** The views miss no packet of any flow of the scope. */
  lemma ViewsCover(s: Spec, f: Flow, hook: string, priority: int, p: Packet)
    requires ValidSpec(s) && FlowOf(s, f) && Seen(f, hook, priority, p)
    ensures exists i :: 0 <= i < |Views(s, hook, priority)| && InView(Views(s, hook, priority)[i], p)
  {
    var views := Views(s, hook, priority);
    assert InView(views[0], p) || InView(views[1], p) || (|views| == 3 && InView(views[2], p));
  }

  predicate PortAlways(domain: PortRange, op: string, value: nat) {
    if op == "==" then domain.first == value && domain.last == value
    else if op == "!=" then value < domain.first || value > domain.last
    else if op == "<" then domain.last < value
    else if op == "<=" then domain.last <= value
    else if op == ">" then domain.first > value
    else op == ">=" && domain.first >= value
  }

  /** The match is true of every packet of the view. */
  predicate MatchAlways(statement: Json, view: View) {
    IsMatch(statement) &&
    var left, op, right := Left(statement), Op(statement), Right(statement);
    if !left.JObj? then false
    else if "meta" in left.fields && left.fields["meta"].JObj? then
      var key := Get(left.fields["meta"].fields, "key");
      var actual := if key == JStr("nfproto") then NfprotoOf(view.family) else L4protoOf(view.protocol);
      var symbol :=
        if key == JStr("nfproto") then (if view.family == 6 then "ipv6" else "ipv4")
        else (if view.protocol.UDP? then "udp" else "tcp");
      var equal := if right.JStr? then right.s == symbol else Uint(right) == Some(actual);
      if op == "!=" then !equal else equal
    else if "payload" in left.fields && left.fields["payload"].JObj? then
      var payload := left.fields["payload"].fields;
      var protocol, field := Get(payload, "protocol"), Get(payload, "field");
      if protocol in {JStr("tcp"), JStr("udp")} then
        && protocol == (if view.protocol.UDP? then JStr("udp") else JStr("tcp"))
        && Uint(right).Some?
        && PortAlways(if field == JStr("sport") then view.sport else view.dport, op, Uint(right).value)
      else
        var address := if field == JStr("saddr") then view.source else view.destination;
        && (protocol == JStr("ip") <==> view.family == 4)
        && address.Some?
        && right.JAddr?
        && (if op == "!=" then address.value != right.addr else address.value == right.addr)
    else false
  }

  predicate Admitted(statement: Json, family: string) {
    TransparentMatch(statement, family) || ProtocolMatch(statement, family)
  }

  lemma MetaAlwaysHolds(statement: Json, family: string, view: View, p: Packet)
    requires Admitted(statement, family) && InView(view, p) && MatchAlways(statement, view)
    requires Selector(Left(statement), family).NFProto? || Selector(Left(statement), family).L4Proto?
    ensures Holds(statement, p)
  {
  }

  lemma PayloadAlwaysHolds(statement: Json, family: string, view: View, p: Packet)
    requires Admitted(statement, family) && InView(view, p) && MatchAlways(statement, view)
    requires (view.family == 4 || view.family == 6)
    requires !(Selector(Left(statement), family).NFProto? || Selector(Left(statement), family).L4Proto?)
    ensures Holds(statement, p)
  {
  }

  lemma MatchAlwaysIsSound(statement: Json, family: string, view: View, p: Packet)
    requires Admitted(statement, family) && InView(view, p) && MatchAlways(statement, view)
    requires view.family == 4 || view.family == 6
    ensures Holds(statement, p)
  {
    if Selector(Left(statement), family).NFProto? || Selector(Left(statement), family).L4Proto? {
      MetaAlwaysHolds(statement, family, view, p);
    } else {
      PayloadAlwaysHolds(statement, family, view, p);
    }
  }

  // ----- The checker -----

  /** A foreign base chain as the inventory lists it. */
  datatype Chain = Chain(fields: Fields, parent: Fields, rules: seq<Fields>)

  predicate RuleAlways(rule: Fields, view: View) {
    forall i :: 0 <= i < |Expr(rule)| - 1 ==> MatchAlways(Expr(rule)[i], view)
  }

  predicate ViewAccepted(rules: seq<Fields>, view: View) {
    exists i :: 0 <= i < |rules| && RuleAlways(rules[i], view)
  }

  function Family(fields: Fields): string {
    if Get(fields, "family").JStr? then fields["family"].s else ""
  }

  function Hook(fields: Fields): string {
    if Get(fields, "hook").JStr? then fields["hook"].s else ""
  }

  /** The verdict of the check when its work budget suffices. */
  predicate Accepts(chain: Chain, s: Spec)
    requires ValidSpec(s)
  {
    && HookMetadata(chain.fields, "chain")
    && HookMetadata(chain.parent, "table")
    && Priority(Get(chain.fields, "prio")).Some?
    && if Get(chain.fields, "type") != JStr("filter")
        || Hook(chain.fields) !in {"prerouting", "forward", "postrouting"} then
         chain.rules == [] && Get(chain.fields, "policy") == JStr("accept")
       else
         && Get(chain.fields, "policy") in {JStr("accept"), JStr("drop")}
         && FilterCertain(chain.rules, Get(chain.fields, "policy"), Family(chain.fields),
                          Views(s, Hook(chain.fields), Priority(Get(chain.fields, "prio")).value))
  }

  class Work {
    var remaining: int

    constructor (limit: int)
      ensures remaining == limit
    {
      remaining := limit;
    }

    method Take(n: int) returns (ok: bool)
      modifies this
      ensures remaining == old(remaining) - n && ok == (remaining >= 0)
    {
      remaining := remaining - n;
      ok := remaining >= 0;
    }
  }

  datatype Answer = Yes | No | Exhausted

  /** Some rule is certain to accept every packet of the view. */
  method FindAcceptingRule(rules: seq<Fields>, view: View, work: Work) returns (answer: Answer)
    modifies work
    ensures answer.Exhausted? ==> work.remaining < 0
    ensures !answer.Exhausted? ==> answer.Yes? == ViewAccepted(rules, view)
  {
    hide MatchAlways, Expr;
    for i := 0 to |rules|
      invariant forall k :: 0 <= k < i ==> !RuleAlways(rules[k], view)
    {
      var expr := Expr(rules[i]);
      var ok := work.Take(|expr| + 1);
      if !ok { return Exhausted; }
      var matches := true;
      var j := 0;
      while j < |expr| - 1
        invariant 0 <= j && (j == 0 || j <= |expr| - 1)
        invariant matches <==> forall k :: 0 <= k < j ==> MatchAlways(expr[k], view)
      {
        if !MatchAlways(expr[j], view) {
          matches := false;
          break;
        }
        j := j + 1;
      }
      if matches { return Yes; }
    }
    return No;
  }

  method ChainAccepts(chain: Chain, s: Spec, work: Work) returns (answer: Answer)
    requires ValidSpec(s)
    modifies work
    ensures answer.Exhausted? ==> work.remaining < 0
    ensures !answer.Exhausted? ==> answer.Yes? == Accepts(chain, s)
  {
    hide FilterCertain, HookMetadata, Priority, Views;
    var ok := work.Take(1);
    if !ok { return Exhausted; }
    if !HookMetadata(chain.fields, "chain") || !HookMetadata(chain.parent, "table") { return No; }
    var priority := Priority(Get(chain.fields, "prio"));
    if priority.None? { return No; }
    var policy := Get(chain.fields, "policy");
    if Get(chain.fields, "type") == JStr("nat") {
      return if chain.rules == [] && policy == JStr("accept") then Yes else No;
    }
    var hook := Hook(chain.fields);
    if Get(chain.fields, "type") != JStr("filter")
        || (hook != "prerouting" && hook != "forward" && hook != "postrouting") {
      return if chain.rules == [] && policy == JStr("accept") then Yes else No;
    }
    if policy != JStr("accept") && policy != JStr("drop") { return No; }
    answer := FilterAccepts(chain.rules, policy, Family(chain.fields), Views(s, hook, priority.value), work);
  }

  /** Every rule is grammatical and, unless the policy accepts, every view is
      certain to be accepted by some rule. */
  predicate FilterCertain(rules: seq<Fields>, policy: Json, family: string, views: seq<View>) {
    && (forall i :: 0 <= i < |rules| ==> RuleSyntax(rules[i], family))
    && (policy == JStr("drop") ==> forall v :: 0 <= v < |views| ==> ViewAccepted(rules, views[v]))
  }

  method FilterAccepts(rules: seq<Fields>, policy: Json, family: string, views: seq<View>, work: Work)
    returns (answer: Answer)
    requires policy in {JStr("accept"), JStr("drop")}
    modifies work
    ensures answer.Exhausted? ==> work.remaining < 0
    ensures !answer.Exhausted? ==> answer.Yes? == FilterCertain(rules, policy, family, views)
  {
    hide RuleSyntax, ViewAccepted, Expr;
    for i := 0 to |rules|
      invariant forall k :: 0 <= k < i ==> RuleSyntax(rules[k], family)
    {
      var ok := work.Take(|Expr(rules[i])| + 1);
      if !ok { return Exhausted; }
      if !RuleSyntax(rules[i], family) { return No; }
    }
    if policy == JStr("accept") { return Yes; }
    for v := 0 to |views|
      invariant forall k :: 0 <= k < v ==> ViewAccepted(rules, views[k])
    {
      var found := FindAcceptingRule(rules, views[v], work);
      if !found.Yes? { return found; }
    }
    return Yes;
  }

  // ----- Soundness -----

  predicate ItemsHold(items: seq<Json>, p: Packet) {
    forall i :: 0 <= i < |items| - 1 ==> Holds(items[i], p)
  }

  predicate ItemsAdmitted(items: seq<Json>, family: string) {
    && items != []
    && items[|items| - 1] == ACCEPT
    && forall i :: 0 <= i < |items| - 1 ==> Admitted(items[i], family)
  }

  /** A grammatical rule accepts a packet or passes it on, and accepts when all
      its matches hold. */
  lemma {:induction false} RuleOutcome(items: seq<Json>, family: string, p: Packet)
    requires ItemsAdmitted(items, family)
    ensures RunStatements(items, p) in {Accept, Continue}
    ensures ItemsHold(items, p) ==> RunStatements(items, p) == Accept
  {
    if |items| == 1 {
      assert !IsMatch(items[0]) by { assert "accept" in items[0].fields.Keys; }
    } else {
      assert Admitted(items[0], family);
      hide Holds, Admitted;
      assert forall i :: 0 <= i < |items[1..]| ==> items[1..][i] == items[i + 1];
      RuleOutcome(items[1..], family, p);
    }
  }

  /** A chain of grammatical rules accepts a packet when its policy does, or when
      one of its rules is certain to. */
  lemma {:induction false} ChainOutcome(rules: seq<Fields>, family: string, policy: Json, p: Packet)
    requires forall i :: 0 <= i < |rules| ==> ItemsAdmitted(Expr(rules[i]), family)
    requires policy == JStr("accept") || exists i :: 0 <= i < |rules| && ItemsHold(Expr(rules[i]), p)
    ensures RunChain(rules, policy, p) == Accept
  {
    hide ItemsHold, ItemsAdmitted, RunStatements, Expr;
    if rules != [] {
      RuleOutcome(Expr(rules[0]), family, p);
      if RunStatements(Expr(rules[0]), p).Continue? {
        if policy != JStr("accept") {
          var i :| 0 <= i < |rules| && ItemsHold(Expr(rules[i]), p);
          assert i > 0 && rules[1..][i - 1] == rules[i];
        }
        ChainOutcome(rules[1..], family, policy, p);
      }
    }
  }

  lemma RulesAreAdmitted(rules: seq<Fields>, family: string)
    requires forall i :: 0 <= i < |rules| ==> RuleSyntax(rules[i], family)
    ensures forall i :: 0 <= i < |rules| ==> ItemsAdmitted(Expr(rules[i]), family)
  {
    hide TransparentMatch, ProtocolMatch, HookMetadata, Expr;
    forall i | 0 <= i < |rules| ensures ItemsAdmitted(Expr(rules[i]), family) {
      assert RuleSyntax(rules[i], family);
    }
  }

  lemma RuleAlwaysHolds(rule: Fields, family: string, view: View, p: Packet)
    requires RuleSyntax(rule, family) && RuleAlways(rule, view) && InView(view, p)
    requires view.family == 4 || view.family == 6
    ensures ItemsHold(Expr(rule), p)
  {
    hide TransparentMatch, ProtocolMatch, HookMetadata, Expr, MatchAlways, Holds, InView;
    forall j | 0 <= j < |Expr(rule)| - 1 ensures Holds(Expr(rule)[j], p) {
      MatchAlwaysIsSound(Expr(rule)[j], family, view, p);
    }
  }

  /** Checker soundness: when the check says yes, every packet of every flow of
      the scope, in both directions and as address translation shows it at that
      hook and priority, is accepted by the chain. */
  lemma AcceptsIsSound(chain: Chain, s: Spec, f: Flow, p: Packet)
    requires ValidSpec(s) && Accepts(chain, s) && FlowOf(s, f)
    requires Seen(f, Hook(chain.fields), Priority(Get(chain.fields, "prio")).value, p)
    ensures RunChain(chain.rules, Get(chain.fields, "policy"), p) == Accept
  {
    hide HookMetadata, Priority, Views, RuleSyntax, ItemsAdmitted, ItemsHold, Seen, FlowOf, RunStatements;
    var family, hook := Family(chain.fields), Hook(chain.fields);
    var policy := Get(chain.fields, "policy");
    var priority := Priority(Get(chain.fields, "prio")).value;
    if Get(chain.fields, "type") == JStr("filter") && hook in {"prerouting", "forward", "postrouting"} {
      RulesAreAdmitted(chain.rules, family);
      if policy != JStr("accept") {
        ViewsCover(s, f, hook, priority, p);
        ViewFamilies(s, hook, priority);
        ViewDecides(chain.rules, family, Views(s, hook, priority), s.family, p);
      }
      ChainOutcome(chain.rules, family, policy, p);
    }
  }

  lemma ViewFamilies(s: Spec, hook: string, priority: int)
    requires ValidSpec(s)
    ensures forall v :: 0 <= v < |Views(s, hook, priority)| ==> Views(s, hook, priority)[v].family == s.family
  {
  }

  lemma ViewDecides(rules: seq<Fields>, family: string, views: seq<View>, specFamily: int, p: Packet)
    requires forall i :: 0 <= i < |rules| ==> RuleSyntax(rules[i], family)
    requires forall v :: 0 <= v < |views| ==> ViewAccepted(rules, views[v]) && views[v].family == specFamily
    requires specFamily == 4 || specFamily == 6
    requires exists v :: 0 <= v < |views| && InView(views[v], p)
    ensures exists i :: 0 <= i < |rules| && ItemsHold(Expr(rules[i]), p)
  {
    hide RuleSyntax, RuleAlways, ItemsHold, Expr;
    var v :| 0 <= v < |views| && InView(views[v], p);
    assert ViewAccepted(rules, views[v]);
    var i :| 0 <= i < |rules| && RuleAlways(rules[i], views[v]);
    RuleAlwaysHolds(rules[i], family, views[v], p);
  }

  /** A filter chain of transparent accept rules with an accepting policy accepts
      every packet whatsoever, so it needs no view of any flow. */
  lemma TransparentChainAcceptsAll(rules: seq<Fields>, family: string, p: Packet)
    requires forall i :: 0 <= i < |rules| ==> TransparentAcceptRule(rules[i], family)
    ensures RunChain(rules, JStr("accept"), p) == Accept
  {
    RulesAreAdmitted(rules, family);
    ChainOutcome(rules, family, JStr("accept"), p);
  }
}
