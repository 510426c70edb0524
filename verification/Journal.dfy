/** The kernel journal: unhooked counter-only rules that record every scope and
    its role, and the reader that recovers the scopes from them. */
module Journal {
  import opened NftSpecs
  import opened Text
  import opened AclSyntax

  datatype Role = Active | Retired | Suspended

  function RoleText(role: Role): string {
    match role case Active => "a" case Retired => "r" case Suspended => "s"
  }

  /** A journal rule as read back from the kernel. */
  datatype JournalRule = JournalRule(comment: string, expr: seq<Json>)

  /** Identities are 64 hexadecimal digits. */
  predicate ValidIdentity(id: string) {
    |id| == 64 && forall c :: c in id ==> '0' <= c <= '9' || 'a' <= c <= 'f' || 'A' <= c <= 'F'
  }

  // ----- Writing -----

  function TransportText(t: Transport): string { if t == TCP then "tcp" else "udp" }

  function IPText(family: int): string { if family == 4 then "ip" else "ip6" }

  function CommentParts(s: Spec, role: Role): seq<string>
    requires s.family >= 0
  {
    ["pb-state", "v1", s.ruleId, Decimal(s.family), TransportText(s.protocol), RoleText(role),
     if s.flow then "1" else "0"]
  }

  function Number(n: nat): Json { JNum(Decimal(n)) }

  function PortValue(first: nat, last: nat): Json {
    if last == 0 || last == first then Number(first) else JObj(map["range" := JArr([Number(first), Number(last)])])
  }

  function Match(left: Json, right: Json): Json {
    JObj(map["match" := JObj(map["op" := JStr("=="), "left" := left, "right" := right])])
  }

  function Payload(protocol: string, field: string): Json {
    JObj(map["payload" := JObj(map["protocol" := JStr(protocol), "field" := JStr(field)])])
  }

  function MarkKey(): Json { JObj(map["key" := JStr("mark")]) }

  function MarkFields(): Fields { map["ct" := MarkKey()] }
  const COUNTER := JObj(map["counter" := JObj(map[])])

  /** The journal rule of a scope in a role. */
  function Encode(s: Spec, role: Role): JournalRule
    requires ValidSpec(s)
  {
    JournalRule(
      Join(CommentParts(s, role)),
      [Match(Payload(IPText(s.family), "daddr"), JAddr(s.listenHost)),
       Match(Payload(IPText(s.family), "saddr"), JAddr(s.targetHost)),
       Match(Payload(TransportText(s.protocol), "sport"), PortValue(s.targetPort, s.targetPortEnd)),
       Match(Payload(TransportText(s.protocol), "dport"), PortValue(s.listenPort, s.listenPortEnd)),
       Match(JObj(MarkFields()), Number(s.mark)),
       COUNTER])
  }

  /** Counters run, and objects carry handles; neither is policy. */
  function Normal(item: Json): Json {
    if item.JObj? then
      JObj(map k | k in item.fields && k !in {"handle", "index"} ::
             if k == "counter"
                 && item.fields[k].JObj? then JObj(item.fields[k].fields - {"packets", "bytes", "handle", "index"})
             else item.fields[k])
    else item
  }

  function NormalExpr(expr: seq<Json>): seq<Json> {
    seq(|expr|, i requires 0 <= i < |expr| => Normal(expr[i]))
  }

  function NormalRule(r: JournalRule): JournalRule { r.(expr := NormalExpr(r.expr)) }

  // ----- Reading -----

  function JsonUint(value: Json, maximum: nat): Option<nat> {
    if value.JNum? then ParseDecimal(value.text, maximum)
    else if value.JStr? then ParseDecimal(value.s, maximum)
    else None
  }

  function JsonPorts(value: Json): Option<(nat, nat)> {
    if value.JObj? then
      var pair := Get(value.fields, "range");
      if !pair.JArr? || |pair.items| != 2 then None
      else
        var a, b := JsonUint(pair.items[0], 65535), JsonUint(pair.items[1], 65535);
        if a.None? || b.None? || a.value == 0 || b.value < a.value then None else Some((a.value, b.value))
    else
      var port := JsonUint(value, 65535);
      if port.None? || port.value == 0 then None else Some((port.value, port.value))
  }

  /** What the reader has gathered of a tuple; zero and `None` where nothing yet. */
  datatype Draft = Draft(listen: Option<Addr>, target: Option<Addr>, listenPort: nat, listenLast: nat, targetPort: nat,
                         targetLast: nat, mark: nat)

  const NO_DRAFT := Draft(None, None, 0, 0, 0, 0, 0)

  /** The left side, and the right, of an equality match. */
  function EqualityOf(item: Json): Option<(Fields, Json)> {
    if !item.JObj? then None
    else
      var m := Get(item.fields, "match");
      if !m.JObj? || !Get(m.fields, "left").JObj? then None
      else Some((Get(m.fields, "left").fields, Get(m.fields, "right")))
  }

  function OpOf(item: Json): Json {
    if item.JObj? && Get(item.fields, "match").JObj? then Get(Get(item.fields, "match").fields, "op") else JNull
  }

  function TextOf(value: Json): string { if value.JStr? then value.s else "" }

  function TakePayload(d: Draft, payload: Json, right: Json, family: int, protocol: string): Option<Draft>
    requires payload.JObj?
  {
    var name, field := TextOf(Get(payload.fields, "protocol")), TextOf(Get(payload.fields, "field"));
    if name == IPText(family) && field == "daddr" then
      if right.JAddr? then Some(d.(listen := Some(right.addr))) else None
    else if name == IPText(family) && field == "saddr" then
      if right.JAddr? then Some(d.(target := Some(right.addr))) else None
    else if name == protocol && field == "dport" then
      var ports := JsonPorts(right);
      if ports.None? then None else Some(d.(listenPort := ports.value.0, listenLast := ports.value.1))
    else if name == protocol && field == "sport" then
      var ports := JsonPorts(right);
      if ports.None? then None else Some(d.(targetPort := ports.value.0, targetLast := ports.value.1))
    else Some(d)
  }

  function TakeMark(d: Draft, ct: Json, right: Json): Option<Draft> {
    if ct.JObj? && Get(ct.fields, "key") == JStr("mark") then
      var mark := JsonUint(right, 0xFFFF_FFFF);
      if mark.None? then None else Some(d.(mark := mark.value))
    else Some(d)
  }

  /** One expression: fields of the tuple are taken, others are passed over. */
  function Take(d: Draft, item: Json, family: int, protocol: string): Option<Draft> {
    var equality := EqualityOf(item);
    if equality.None? then Some(d)
    else
      var (left, right) := equality.value;
      var payload := Get(left, "payload");
      var taken := if payload.JObj? && OpOf(item) == JStr("==") then TakePayload(d, payload, right, family, protocol)
          else Some(d);
      if taken.None? then None else TakeMark(taken.value, Get(left, "ct"), right)
  }

  function Gather(d: Draft, expr: seq<Json>, family: int, protocol: string): Option<Draft> {
    if expr == [] then Some(d)
    else
      var before := Gather(d, expr[..|expr| - 1], family, protocol);
      if before.None? then None else Take(before.value, expr[|expr| - 1], family, protocol)
  }

  datatype Entry = Entry(role: Role, spec: Spec)

  /** Read one rule; every part of it must be what the writer would have written
      for the scope it names. */
  function DecodeRule(r: JournalRule, mark: nat): Option<Entry> {
    var parts := Split(r.comment);
    if |parts| != 7 || parts[0] != "pb-state" || parts[1] != "v1" || !ValidIdentity(parts[2])
       || parts[5] !in {"a", "r", "s"} || parts[6] !in {"0", "1"} then None
    else
      var family := ParseDecimal(parts[3], 0xFFFF_FFFF);
      if family.None? || parts[4] !in {"tcp", "udp"} then None
      else
        var draft := Gather(NO_DRAFT, r.expr, family.value, parts[4]);
        if draft.None? || draft.value.listen.None? || draft.value.target.None? then None
        else
          var d := draft.value;
          var role := if parts[5] == "a" then Active else if parts[5] == "r" then Retired else Suspended;
          var spec := Spec(parts[2], family.value, d.listen.value, d.listenPort, d.listenLast, d.target.value,
                           d.targetPort, d.targetLast,
                           if parts[4] == "tcp" then TCP else UDP, d.mark, parts[6] == "1");
          if !ValidSpec(spec) || spec.mark != mark || NormalRule(r) != NormalRule(Encode(spec, role)) then None
          else Some(Entry(role, spec))
  }

  /** The scope with its ends written out, as a reader sees it. */
  function Explicit(s: Spec): Spec { s.(listenPortEnd := s.LastPort(), targetPortEnd := s.LastTargetPort()) }

  lemma ExplicitKeepsKey(s: Spec)
    ensures Explicit(s).Key() == s.Key() && Explicit(s).flow == s.flow
    ensures forall a :: Explicit(s).Has(a) <==> s.Has(a)
  {
  }

  // ----- One rule survives the trip -----

  predicate Recordable(s: Spec, mark: nat) {
    ValidSpec(s) && ValidIdentity(s.ruleId) && s.mark == mark <= 0xFFFF_FFFF
  }

  lemma NumberParses(n: nat, maximum: nat)
    requires n <= maximum
    ensures ParseDecimal(Decimal(n), maximum) == Some(n)
    ensures JsonUint(Number(n), maximum) == Some(n)
  {
    ValueOfDecimal(n);
  }

  lemma PortsParse(first: nat, last: nat)
    requires 1 <= first <= 65535 && (last == 0 || first <= last <= 65535)
    ensures JsonPorts(PortValue(first, last)) == Some((first, if last == 0 then first else last))
    ensures PortValue(first, if last == 0 then first else last) == PortValue(first, last)
  {
    NumberParses(first, 65535);
    NumberParses(last, 65535);
  }

  lemma CommentParses(s: Spec, role: Role)
    requires ValidSpec(s) && ValidIdentity(s.ruleId)
    ensures Split(Join(CommentParts(s, role))) == CommentParts(s, role)
    ensures ParseDecimal(Decimal(s.family), 0xFFFF_FFFF) == Some(s.family)
  {
    var parts := CommentParts(s, role);
    forall p | p in parts ensures ':' !in p {
      assert Digits(Decimal(s.family));
    }
    SplitOfJoin(parts);
    NumberParses(s.family, 0xFFFF_FFFF);
  }

  /** What the kernel adds to an expression does not reach the reader. */
  lemma TakeNormal(d: Draft, item: Json, family: int, protocol: string)
    ensures Take(d, Normal(item), family, protocol) == Take(d, item, family, protocol)
  {
  }

  lemma {:induction false} GatherNormal(d: Draft, expr: seq<Json>, family: int, protocol: string)
    ensures Gather(d, NormalExpr(expr), family, protocol) == Gather(d, expr, family, protocol)
  {
    if expr != [] {
      var rest := expr[..|expr| - 1];
      assert NormalExpr(expr)[..|expr| - 1] == NormalExpr(rest);
      GatherNormal(d, rest, family, protocol);
      var before := Gather(d, rest, family, protocol);
      if before.Some? { TakeNormal(before.value, expr[|expr| - 1], family, protocol); }
    }
  }

  lemma MatchParts(left: Fields, right: Json)
    ensures EqualityOf(Match(JObj(left), right)) == Some((left, right))
    ensures OpOf(Match(JObj(left), right)) == JStr("==")
  {
    var inner := map["op" := JStr("=="), "left" := JObj(left), "right" := right];
    assert Get(inner, "op") == JStr("==") && Get(inner, "left") == JObj(left) && Get(inner, "right") == right;
    assert Get(map["match" := JObj(inner)], "match") == JObj(inner);
  }

  lemma PayloadParts(d: Draft, protocol: string, field: string, right: Json, family: int, transport: string)
    ensures Take(d, Match(Payload(protocol, field), right), family, transport) ==
            TakePayload(d, JObj(map["protocol" := JStr(protocol), "field" := JStr(field)]), right, family, transport)
  {
    var inner := JObj(map["protocol" := JStr(protocol), "field" := JStr(field)]);
    MatchParts(map["payload" := inner], right);
    assert Get(map["payload" := inner], "payload") == inner && Get(map["payload" := inner], "ct") == JNull;
    hide Match, TakePayload;
  }

  lemma FieldText(protocol: string, field: string)
    ensures var fields := map["protocol" := JStr(protocol), "field" := JStr(field)];
            TextOf(Get(fields, "protocol")) == protocol && TextOf(Get(fields, "field")) == field
  {
  }

  lemma TakeAddress(d: Draft, addr: Addr, family: int, protocol: string, field: string)
    requires protocol in {"tcp", "udp"} && field in {"daddr", "saddr"}
    ensures Take(d, Match(Payload(IPText(family), field), JAddr(addr)), family, protocol) ==
            Some(if field == "daddr" then d.(listen := Some(addr)) else d.(target := Some(addr)))
  {
    PayloadParts(d, IPText(family), field, JAddr(addr), family, protocol);
    FieldText(IPText(family), field);
    hide Take, Match, Payload;
  }

  lemma TakePorts(d: Draft, first: nat, last: nat, family: int, protocol: string, field: string)
    requires protocol in {"tcp", "udp"} && field in {"dport", "sport"}
    requires 1 <= first <= 65535 && (last == 0 || first <= last <= 65535)
    ensures var end := if last == 0 then first else last;
            Take(d, Match(Payload(protocol, field), PortValue(first, last)), family, protocol) ==
            Some(if field == "dport" then d.(listenPort := first, listenLast := end)
                 else d.(targetPort := first, targetLast := end))
  {
    PayloadParts(d, protocol, field, PortValue(first, last), family, protocol);
    FieldText(protocol, field);
    PortsParse(first, last);
    assert protocol != IPText(family);
    hide Take, Match, Payload, JsonPorts, PortValue, Get, TextOf;
  }

  lemma TakeMarkMatch(d: Draft, mark: nat, family: int, protocol: string)
    requires mark <= 0xFFFF_FFFF
    ensures Take(d, Match(JObj(MarkFields()), Number(mark)), family, protocol) == Some(d.(mark := mark))
  {
    NumberParses(mark, 0xFFFF_FFFF);
    MarkParts();
    MatchParts(MarkFields(), Number(mark));
    hide EqualityOf, OpOf, Match, MarkFields, MarkKey, Number, JsonUint;
  }

  lemma MarkParts()
    ensures Get(MarkFields(), "payload") == JNull && Get(MarkFields(), "ct") == MarkKey()
    ensures MarkKey().JObj? && Get(MarkKey().fields, "key") == JStr("mark")
  {
  }

  lemma TakeCounter(d: Draft, family: int, protocol: string)
    ensures Take(d, COUNTER, family, protocol) == Some(d)
  {
    assert Get(map["counter" := JObj(map[])], "match") == JNull;
  }

  lemma GatherStep(d: Draft, expr: seq<Json>, item: Json, family: int, protocol: string)
    ensures Gather(d, expr + [item], family, protocol) ==
            var before := Gather(d, expr, family, protocol);
            if before.None? then None else Take(before.value, item, family, protocol)
  {
    assert (expr + [item])[..|expr|] == expr;
  }

  lemma TransportTexts(t: Transport)
    ensures TransportText(t) in {"tcp", "udp"}
  {
  }

  /** Reading the expressions of an encoded scope gathers the scope. */
  lemma GatherEncoded(s: Spec, role: Role)
    requires ValidSpec(s) && s.mark <= 0xFFFF_FFFF
    ensures Gather(NO_DRAFT, Encode(s, role).expr, s.family, TransportText(s.protocol)) ==
            Some(Draft(Some(s.listenHost), Some(s.targetHost), s.listenPort, s.LastPort(), s.targetPort,
                       s.LastTargetPort(), s.mark))
  {
    hide Take, Match, Payload, PortValue, Number, TransportText, IPText;
    var e, f, t := Encode(s, role).expr, s.family, TransportText(s.protocol);
    assert t in {"tcp", "udp"} by { TransportTexts(s.protocol); }
    var d1 := NO_DRAFT.(listen := Some(s.listenHost));
    var d2 := d1.(target := Some(s.targetHost));
    var d3 := d2.(targetPort := s.targetPort, targetLast := s.LastTargetPort());
    var d4 := d3.(listenPort := s.listenPort, listenLast := s.LastPort());
    var d5 := d4.(mark := s.mark);
    TakeAddress(NO_DRAFT, s.listenHost, f, t, "daddr");
    TakeAddress(d1, s.targetHost, f, t, "saddr");
    TakePorts(d2, s.targetPort, s.targetPortEnd, f, t, "sport");
    TakePorts(d3, s.listenPort, s.listenPortEnd, f, t, "dport");
    TakeMarkMatch(d4, s.mark, f, t);
    TakeCounter(d5, f, t);
    GatherSix(s, role, d1, d2, d3, d4, d5);
  }

  lemma GatherSix(s: Spec, role: Role, d1: Draft, d2: Draft, d3: Draft, d4: Draft, d5: Draft)
    requires ValidSpec(s)
    requires var (e, f, t) := (Encode(s, role).expr, s.family, TransportText(s.protocol));
             && Take(NO_DRAFT, e[0], f, t) == Some(d1) && Take(d1, e[1], f, t) == Some(d2)
                 && Take(d2, e[2], f, t) == Some(d3)
             && Take(d3, e[3], f, t) == Some(d4) && Take(d4, e[4], f, t) == Some(d5) && Take(d5, e[5], f, t) == Some(d5)
    ensures Gather(NO_DRAFT, Encode(s, role).expr, s.family, TransportText(s.protocol)) == Some(d5)
  {
    hide Take, Match, Payload, PortValue, ValidSpec, Number;
    var e, f, t := Encode(s, role).expr, s.family, TransportText(s.protocol);
    assert e == [e[0], e[1], e[2], e[3], e[4]] + [e[5]];
    assert [] + [e[0]] == [e[0]];
    assert [e[0]] + [e[1]] == [e[0], e[1]];
    assert [e[0], e[1]] + [e[2]] == [e[0], e[1], e[2]];
    assert [e[0], e[1], e[2]] + [e[3]] == [e[0], e[1], e[2], e[3]];
    assert [e[0], e[1], e[2], e[3]] + [e[4]] == [e[0], e[1], e[2], e[3], e[4]];
    GatherStep(NO_DRAFT, [], e[0], f, t);
    GatherStep(NO_DRAFT, [e[0]], e[1], f, t);
    GatherStep(NO_DRAFT, [e[0], e[1]], e[2], f, t);
    GatherStep(NO_DRAFT, [e[0], e[1], e[2]], e[3], f, t);
    GatherStep(NO_DRAFT, [e[0], e[1], e[2], e[3]], e[4], f, t);
    GatherStep(NO_DRAFT, [e[0], e[1], e[2], e[3], e[4]], e[5], f, t);
  }

  lemma EncodeExplicit(s: Spec, role: Role)
    requires ValidSpec(s)
    ensures ValidSpec(Explicit(s)) && Encode(Explicit(s), role) == Encode(s, role)
  {
    PortsParse(s.listenPort, s.listenPortEnd);
    PortsParse(s.targetPort, s.targetPortEnd);
  }

  /** Whatever counters and handles the kernel has added, the reader recovers the
      scope and its role from the rule that was written for it. */
  lemma RuleRoundTrip(r: JournalRule, s: Spec, role: Role, mark: nat)
    requires Recordable(s, mark) && NormalRule(r) == NormalRule(Encode(s, role))
    ensures DecodeRule(r, mark) == Some(Entry(role, Explicit(s)))
  {
    hide Take, Match, Payload, PortValue, Number, Split, Join, Gather, DecodeRule;
    assert r.comment == Join(CommentParts(s, role));
    CommentParses(s, role);
    GatherNormal(NO_DRAFT, r.expr, s.family, TransportText(s.protocol));
    GatherNormal(NO_DRAFT, Encode(s, role).expr, s.family, TransportText(s.protocol));
    GatherEncoded(s, role);
    EncodeExplicit(s, role);
    DecodeParts(r, s, role, mark);
  }

  lemma DecodeParts(r: JournalRule, s: Spec, role: Role, mark: nat)
    requires Recordable(s, mark) && ValidSpec(Explicit(s)) && NormalRule(r) == NormalRule(Encode(Explicit(s), role))
    requires Split(r.comment) == CommentParts(s, role)
    requires ParseDecimal(Decimal(s.family), 0xFFFF_FFFF) == Some(s.family)
    requires Gather(NO_DRAFT, r.expr, s.family, TransportText(s.protocol)) ==
             Some(Draft(Some(s.listenHost), Some(s.targetHost), s.listenPort, s.LastPort(), s.targetPort,
                        s.LastTargetPort(), s.mark))
    ensures DecodeRule(r, mark) == Some(Entry(role, Explicit(s)))
  {
    hide Split, Gather, Encode, NormalRule, ParseDecimal, Decimal, ValidSpec;
  }

  ghost predicate PortsTogether(d: Draft) {
    (d.listenPort != 0 ==> d.listenLast != 0) && (d.targetPort != 0 ==> d.targetLast != 0)
  }

  lemma {:induction false} GatherTogether(d: Draft, expr: seq<Json>, family: int, protocol: string)
    requires PortsTogether(d)
    ensures Gather(d, expr, family, protocol).Some? ==> PortsTogether(Gather(d, expr, family, protocol).value)
  {
    if expr != [] {
      GatherTogether(d, expr[..|expr| - 1], family, protocol);
    }
  }

  /** A rule is read as an entry if and only if it is what would be written for
      it, up to counters and handles; so nothing is read that was not written. */
  lemma ReadsExactly(r: JournalRule, s: Spec, role: Role, mark: nat)
    requires mark <= 0xFFFF_FFFF
    ensures DecodeRule(r, mark) == Some(Entry(role, s)) <==>
            Recordable(s, mark) && s == Explicit(s) && NormalRule(r) == NormalRule(Encode(s, role))
  {
    hide Take, Split, Join, CommentParts, Encode, NormalRule, ParseDecimal, Decimal;
    if DecodeRule(r, mark) == Some(Entry(role, s)) {
      GatherTogether(NO_DRAFT, r.expr, s.family, Split(r.comment)[4]);
    }
    if Recordable(s, mark) && s == Explicit(s) && NormalRule(r) == NormalRule(Encode(s, role)) {
      RuleRoundTrip(r, s, role, mark);
    }
  }

  // ----- The whole journal -----

  /** Objects of the managed table that concern the journal. */
  datatype Object =
    | StateChain(hooked: bool, foreign: bool, comment: Option<Json>)
    | StateRule(rule: JournalRule)
    | Elsewhere

  datatype Contents = Contents(active: seq<Spec>, retired: seq<Spec>, suspended: seq<Spec>, binding: string,
                               present: bool)

  const ABSENT := Contents([], [], [], "", false)

  function With(c: Contents, e: Entry): Contents {
    match e.role
    case Active => c.(active := c.active + [e.spec])
    case Retired => c.(retired := c.retired + [e.spec])
    case Suspended => c.(suspended := c.suspended + [e.spec])
  }

  function Entries(c: Contents): nat { |c.active| + |c.retired| + |c.suspended| }

  /** The one journal chain, if any: unhooked, in the managed table. */
  function ChainOf(objects: seq<Object>): Option<Contents> {
    if objects == [] then Some(ABSENT)
    else
      var before := ChainOf(objects[..|objects| - 1]);
      var o := objects[|objects| - 1];
      if before.None? || !o.StateChain? then before
      else if before.value.present || o.hooked || o.foreign || (o.comment.Some? && !o.comment.value.JStr?) then None
      else Some(before.value.(present := true, binding := if o.comment.Some? then o.comment.value.s else ""))
  }

  function RulesOf(c: Contents, objects: seq<Object>, mark: nat): Option<Contents> {
    if objects == [] then Some(c)
    else
      var before := RulesOf(c, objects[..|objects| - 1], mark);
      var o := objects[|objects| - 1];
      if before.None? || !o.StateRule? then before
      else if Entries(before.value) >= MAX_ENTRIES || DecodeRule(o.rule, mark).None? then None
      else Some(With(before.value, DecodeRule(o.rule, mark).value))
  }

  /** Read the journal, or refuse all of it. */
  function Decoded(objects: seq<Object>, mark: nat): Option<Contents> {
    var chain := ChainOf(objects);
    if chain.None? || !chain.value.present then chain else RulesOf(chain.value, objects, mark)
  }

  method DecodeJournal(objects: seq<Object>, mark: nat) returns (journal: Option<Contents>)
    ensures journal == Decoded(objects, mark)
  {
    hide DecodeRule;
    var c := ABSENT;
    for i := 0 to |objects|
      invariant ChainOf(objects[..i]) == Some(c)
    {
      assert objects[..i + 1][..i] == objects[..i];
      if objects[i].StateChain? {
        var chain := objects[i];
        if c.present || chain.hooked || chain.foreign || (chain.comment.Some? && !chain.comment.value.JStr?) {
          ChainStaysRefused(objects, i + 1);
          return None;
        }
        c := c.(present := true, binding := if chain.comment.Some? then chain.comment.value.s else "");
      }
    }
    assert objects[..|objects|] == objects;
    if !c.present { return Some(c); }
    ghost var start := c;
    for i := 0 to |objects|
      invariant RulesOf(start, objects[..i], mark) == Some(c)
    {
      assert objects[..i + 1][..i] == objects[..i];
      if objects[i].StateRule? {
        var entry := DecodeRule(objects[i].rule, mark);
        if Entries(c) >= MAX_ENTRIES || entry.None? {
          RulesStayRefused(start, objects, mark, i + 1);
          return None;
        }
        c := With(c, entry.value);
      }
    }
    return Some(c);
  }

  lemma {:induction false} ChainStaysRefused(objects: seq<Object>, i: nat)
    requires i <= |objects| && ChainOf(objects[..i]).None?
    ensures ChainOf(objects).None?
    decreases |objects| - i
  {
    if i == |objects| {
      assert objects[..i] == objects;
    } else {
      assert objects[..i + 1][..i] == objects[..i];
      ChainStaysRefused(objects, i + 1);
    }
  }

  lemma {:induction false} RulesStayRefused(c: Contents, objects: seq<Object>, mark: nat, i: nat)
    requires i <= |objects| && RulesOf(c, objects[..i], mark).None?
    ensures RulesOf(c, objects, mark).None?
    decreases |objects| - i
  {
    if i == |objects| {
      assert objects[..i] == objects;
    } else {
      assert objects[..i + 1][..i] == objects[..i];
      RulesStayRefused(c, objects, mark, i + 1);
    }
  }

  /** The entries in the order they are written. */
  function Written(active: seq<Spec>, retired: seq<Spec>, suspended: seq<Spec>): seq<Entry> {
    EntriesOf(Active, active) + EntriesOf(Retired, retired) + EntriesOf(Suspended, suspended)
  }

  function EntriesOf(role: Role, specs: seq<Spec>): seq<Entry> {
    seq(|specs|, i requires 0 <= i < |specs| => Entry(role, specs[i]))
  }

  /** The objects show the chain with its binding and then every entry, with
      whatever counters the kernel has run up. */
  ghost predicate ReadsBack(objects: seq<Object>, entries: seq<Entry>, binding: string, mark: nat) {
    && |objects| == 1 + |entries|
    && objects[0] == StateChain(false, false, if binding == "" then None else Some(JStr(binding)))
    && forall i :: 0 <= i < |entries| ==> ShowsEntry(objects[1 + i], entries[i], mark)
  }

  ghost predicate ShowsEntry(o: Object, e: Entry, mark: nat) {
    Recordable(e.spec, mark) && o.StateRule? && NormalRule(o.rule) == NormalRule(Encode(e.spec, e.role))
  }

  function Collected(c: Contents, entries: seq<Entry>): Contents {
    if entries == [] then c
    else
      var e := entries[|entries| - 1];
      With(Collected(c, entries[..|entries| - 1]), Entry(e.role, Explicit(e.spec)))
  }

  lemma CollectedNothing(c: Contents)
    ensures Collected(c, []) == c
  {
  }

  function ExplicitAll(specs: seq<Spec>): seq<Spec> {
    seq(|specs|, i requires 0 <= i < |specs| => Explicit(specs[i]))
  }

  lemma ReadsBackLess(objects: seq<Object>, entries: seq<Entry>, binding: string, mark: nat)
    requires ReadsBack(objects, entries, binding, mark) && entries != []
    ensures ReadsBack(objects[..|entries|], entries[..|entries| - 1], binding, mark)
    ensures ShowsEntry(objects[|entries|], entries[|entries| - 1], mark)
  {
    hide ShowsEntry;
    var n := |entries|;
    assert ShowsEntry(objects[1 + (n - 1)], entries[n - 1], mark);
    var fewer := entries[..n - 1];
    forall i | 0 <= i < |fewer| ensures ShowsEntry(objects[..n][1 + i], fewer[i], mark) {
      assert ShowsEntry(objects[1 + i], entries[i], mark);
    }
  }

  lemma {:induction false} CollectedSize(c: Contents, entries: seq<Entry>)
    requires Entries(c) == 0
    ensures Entries(Collected(c, entries)) == |entries|
    decreases |entries|
  {
    if entries != [] {
      CollectedSize(c, entries[..|entries| - 1]);
    }
  }

  lemma {:induction false} ReadChain(objects: seq<Object>, entries: seq<Entry>, binding: string, mark: nat)
    requires ReadsBack(objects, entries, binding, mark)
    ensures ChainOf(objects) == Some(ABSENT.(present := true, binding := binding))
    decreases |entries|
  {
    if entries == [] {
      assert objects[..0] == [];
    } else {
      ReadsBackLess(objects, entries, binding, mark);
      ReadChain(objects[..|entries|], entries[..|entries| - 1], binding, mark);
    }
  }

  lemma {:induction false} ReadEntries(objects: seq<Object>, entries: seq<Entry>, binding: string, mark: nat,
                                       c: Contents)
    requires ReadsBack(objects, entries, binding, mark) && Entries(c) == 0
    ensures RulesOf(c, objects, mark) == if |entries| <= MAX_ENTRIES then Some(Collected(c, entries)) else None
    decreases |entries|
  {
    hide DecodeRule, Encode, NormalRule, Recordable, Entries;
    if entries == [] {
      assert objects[..0] == [];
    } else {
      var n := |entries|;
      ReadsBackLess(objects, entries, binding, mark);
      ReadEntries(objects[..n], entries[..n - 1], binding, mark, c);
      CollectedSize(c, entries[..n - 1]);
      RuleRoundTrip(objects[n].rule, entries[n - 1].spec, entries[n - 1].role, mark);
      hide ReadsBack;
    }
  }

  lemma {:induction false} CollectRole(c: Contents, entries: seq<Entry>, role: Role, specs: seq<Spec>)
    ensures var all := Collected(c, entries + EntriesOf(role, specs));
            var before := Collected(c, entries);
            match role
            case Active => all == before.(active := before.active + ExplicitAll(specs))
            case Retired => all == before.(retired := before.retired + ExplicitAll(specs))
            case Suspended => all == before.(suspended := before.suspended + ExplicitAll(specs))
    decreases |specs|
  {
    if specs == [] {
      assert entries + EntriesOf(role, specs) == entries;
    } else {
      var rest := specs[..|specs| - 1];
      CollectRole(c, entries, role, rest);
      assert (entries + EntriesOf(role, specs))[..|entries| + |rest|] == entries + EntriesOf(role, rest);
      assert ExplicitAll(specs) == ExplicitAll(rest) + [Explicit(specs[|rest|])];
    }
  }

  /** What was written is what is read, list by list and in order, as long as the
      three lists together stay within the reader's bound; beyond it the whole
      journal is refused. */
  lemma JournalRoundTrip(objects: seq<Object>, active: seq<Spec>, retired: seq<Spec>, suspended: seq<Spec>,
                         binding: string, mark: nat)
    requires ReadsBack(objects, Written(active, retired, suspended), binding, mark)
    ensures Decoded(objects, mark) ==
            if |active| + |retired| + |suspended| <= MAX_ENTRIES
            then Some(Contents(ExplicitAll(active), ExplicitAll(retired), ExplicitAll(suspended), binding, true))
            else None
  {
    hide ReadsBack, RulesOf, Collected;
    var c := ABSENT.(present := true, binding := binding);
    var all := Written(active, retired, suspended);
    ReadChain(objects, all, binding, mark);
    ReadEntries(objects, all, binding, mark, c);
    CollectRole(c, [], Active, active);
    CollectRole(c, EntriesOf(Active, active), Retired, retired);
    CollectRole(c, EntriesOf(Active, active) + EntriesOf(Retired, retired), Suspended, suspended);
    assert [] + EntriesOf(Active, active) == EntriesOf(Active, active);
    CollectedNothing(c);
    assert [] + ExplicitAll(active) == ExplicitAll(active);
    assert [] + ExplicitAll(retired) == ExplicitAll(retired);
    assert [] + ExplicitAll(suspended) == ExplicitAll(suspended);
  }

  lemma ExplicitKeepsAtoms(specs: seq<Spec>)
    ensures Atoms(ExplicitAll(specs)) == Atoms(specs)
    ensures forall i :: 0 <= i < |specs| ==> ExplicitAll(specs)[i].Key() == specs[i].Key()
  {
    forall a ensures a in Atoms(ExplicitAll(specs)) <==> a in Atoms(specs) {
      if s :| s in specs && s.Has(a) {
        var i :| 0 <= i < |specs| && specs[i] == s;
        ExplicitKeepsKey(s);
        assert ExplicitAll(specs)[i].Has(a);
      }
      if x :| x in ExplicitAll(specs) && x.Has(a) {
        var i :| 0 <= i < |specs| && Explicit(specs[i]) == x;
        ExplicitKeepsKey(specs[i]);
        assert specs[i].Has(a);
      }
    }
  }

  /** A written journal is read exactly when its snapshot is within the bounds,
      and then every role owns the tuples that were written in it. */
  lemma JournalKeepsOwnership(objects: seq<Object>, s: Snapshot, binding: string, mark: nat)
    requires ReadsBack(objects, Written(s.active, s.pending, s.suspended), binding, mark)
    ensures Decoded(objects, mark).Some? <==> Journaled(s, mark)
    ensures Decoded(objects, mark).Some? ==>
              var c := Decoded(objects, mark).value;
              Atoms(c.active) == Atoms(s.active) && Atoms(c.retired) == Atoms(s.pending)
                  && Atoms(c.suspended) == Atoms(s.suspended)
  {
    JournalRoundTrip(objects, s.active, s.pending, s.suspended, binding, mark);
    ExplicitKeepsAtoms(s.active);
    ExplicitKeepsAtoms(s.pending);
    ExplicitKeepsAtoms(s.suspended);
    hide Decoded, ExplicitAll, Atoms, Encode, NormalRule;
    var all := Written(s.active, s.pending, s.suspended);
    assert forall i :: 0 <= i < |all| ==> ShowsEntry(objects[1 + i], all[i], mark);
    forall t | t in s.active || t in s.pending || t in s.suspended ensures t.mark == mark && ValidSpec(t) {
      WrittenNames(s, t);
    }
  }

  lemma WrittenNames(s: Snapshot, t: Spec)
    requires t in s.active || t in s.pending || t in s.suspended
    ensures var all := Written(s.active, s.pending, s.suspended);
            exists i :: 0 <= i < |all| && all[i].spec == t
  {
    var all := Written(s.active, s.pending, s.suspended);
    var a, p := |s.active|, |s.pending|;
    if t in s.active {
      var i :| 0 <= i < a && s.active[i] == t;
      assert all[i].spec == t;
    } else if t in s.pending {
      var i :| 0 <= i < p && s.pending[i] == t;
      assert all[a + i].spec == t;
    } else {
      var i :| 0 <= i < |s.suspended| && s.suspended[i] == t;
      assert all[a + p + i].spec == t;
    }
  }
}
