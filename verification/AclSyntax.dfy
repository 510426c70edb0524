/** The accept-only rule grammar that foreign firewall chains are checked
    against, over decoded JSON. */
module AclSyntax {
  import opened NftSpecs
  import opened Text

  /** Decoded JSON. A string that is a zone-free address literal is `JAddr`. */
  datatype Json =
    | JNull
    | JBool(b: bool)
    | JNum(text: string)
    | JStr(s: string)
    | JAddr(addr: Addr)
    | JArr(items: seq<Json>)
    | JObj(fields: Fields)

  type Fields = map<string, Json>

  const MAX_MATCHES := 16

  function Get(fields: Fields, key: string): Json {
    if key in fields then fields[key] else JNull
  }

  // ----- Numbers -----

  /** A canonical unsigned decimal that fits 16 bits. */
  function Uint(value: Json): Option<nat> {
    if !value.JNum? || !(1 <= |value.text| <= 5) || !Digits(value.text) then None
    else if |value.text| > 1 && value.text[0] == '0' then None
    else if Value(value.text) > 65535 then None
    else Some(Value(value.text))
  }

  /** Display handles are 64-bit unsigned numbers. */
  predicate HookUint(value: Json) {
    value.JNum? && value.text != [] && Digits(value.text) && Value(value.text) < 0x1_0000_0000_0000_0000
  }

  /** A signed 32-bit hook priority. */
  function Priority(value: Json): Option<int> {
    if !value.JNum? || value.text == [] then None
    else
      var negative := value.text[0] == '-';
      var body := if negative then value.text[1..] else value.text;
      if body == [] || !Digits(body) then None
      else
        var n := if negative then -(Value(body) as int) else Value(body) as int;
        if -0x8000_0000 <= n < 0x8000_0000 then Some(n) else None
  }

  // ----- The match grammar -----

  datatype Domain = Unknown | Port | NFProto | L4Proto | IPv4 | IPv6

  function PayloadDomain(payload: Json, family: string): Domain {
    if !payload.JObj? || payload.fields.Keys != {"protocol", "field"} then Unknown
    else
      var protocol, field := payload.fields["protocol"], payload.fields["field"];
      if protocol in {JStr("tcp"), JStr("udp")} && field in {JStr("sport"), JStr("dport")} then Port
      else if protocol == JStr("ip") && family != "ip6" && field in {JStr("saddr"), JStr("daddr")} then IPv4
      else if protocol == JStr("ip6") && family != "ip" && field in {JStr("saddr"), JStr("daddr")} then IPv6
      else Unknown
  }

  function MetaDomain(meta: Json): Domain {
    if !meta.JObj? || meta.fields.Keys != {"key"} then Unknown
    else if meta.fields["key"] == JStr("nfproto") then NFProto
    else if meta.fields["key"] == JStr("l4proto") then L4Proto
    else Unknown
  }

  function Selector(left: Json, family: string): Domain {
    if !left.JObj? then Unknown
    else if left.fields.Keys == {"payload"} then PayloadDomain(left.fields["payload"], family)
    else if left.fields.Keys == {"meta"} then MetaDomain(left.fields["meta"])
    else Unknown
  }

  predicate Constant(domain: Domain, op: string, value: Json) {
    && (op in {"==", "!="} || (domain.Port? && op in {"<", "<=", ">", ">="}))
    && match domain
       case Unknown => false
       case Port => Uint(value).Some?
       case NFProto => value in {JStr("ipv4"), JStr("ipv6")} || Uint(value) in {Some(2), Some(10)}
       case L4Proto => value in {JStr("tcp"), JStr("udp")} || Uint(value) in {Some(6), Some(17)}
       case IPv4 => value.JAddr? && value.addr.V4?
       case IPv6 => value.JAddr? && value.addr.V6?
  }

  /** The shape `{"match": {"left", "op", "right"}}`. */
  predicate IsMatch(statement: Json) {
    && statement.JObj?
    && statement.fields.Keys == {"match"}
    && statement.fields["match"].JObj?
    && statement.fields["match"].fields.Keys == {"left", "op", "right"}
    && statement.fields["match"].fields["op"].JStr?
  }

  function Left(statement: Json): Json requires IsMatch(statement) { statement.fields["match"].fields["left"] }
  function Op(statement: Json): string requires IsMatch(statement) { statement.fields["match"].fields["op"].s }
  function Right(statement: Json): Json requires IsMatch(statement) { statement.fields["match"].fields["right"] }

  predicate TransparentMatch(statement: Json, family: string) {
    IsMatch(statement) && Constant(Selector(Left(statement), family), Op(statement), Right(statement))
  }

  /** Selective proofs also admit protocol-only allowances such as ICMP. */
  predicate ProtocolMatch(statement: Json, family: string) {
    && IsMatch(statement)
    && Op(statement) in {"==", "!="}
    && Selector(Left(statement), family).L4Proto?
    && (if Right(statement).JStr? then Right(statement).s in {"icmp", "ipv6-icmp"}
        else Uint(Right(statement)).Some? && Uint(Right(statement)).value <= 255)
  }

  const ACCEPT := JObj(map["accept" := JNull])

  predicate SupportedFamily(family: string) { family in {"ip", "ip6", "inet"} }

  /** Decoration that a chain, table or rule may carry. */
  predicate HookMetadata(fields: Fields, kind: string) {
    forall key :: key in fields.Keys ==>
      match key
      case "family" => true
      case "table" => kind != "table"
      case "name" => kind != "rule"
      case "chain" => kind == "rule"
      case "expr" => kind == "rule"
      case "type" => kind == "chain"
      case "hook" => kind == "chain"
      case "policy" => kind == "chain"
      case "prio" => kind == "chain" && Priority(fields[key]).Some?
      case "handle" => HookUint(fields[key])
      case "index" => kind == "rule" && HookUint(fields[key])
      case "comment" => fields[key].JStr? || fields[key].JAddr?
      case _ => false
  }

  function Expr(rule: Fields): seq<Json> {
    if Get(rule, "expr").JArr? then Get(rule, "expr").items else []
  }

  predicate AcceptShape(rule: Fields, family: string) {
    && SupportedFamily(family)
    && HookMetadata(rule, "rule")
    && 1 <= |Expr(rule)| <= MAX_MATCHES + 1
    && Expr(rule)[|Expr(rule)| - 1] == ACCEPT
  }

  /** Core matches and protocol allowances, then accept. */
  predicate RuleSyntax(rule: Fields, family: string) {
    && AcceptShape(rule, family)
    && forall i :: 0 <= i < |Expr(rule)| - 1 ==>
         TransparentMatch(Expr(rule)[i], family) || ProtocolMatch(Expr(rule)[i], family)
  }

  /** Core matches only, then accept. */
  predicate TransparentAcceptRule(rule: Fields, family: string) {
    && AcceptShape(rule, family)
    && forall i :: 0 <= i < |Expr(rule)| - 1 ==> TransparentMatch(Expr(rule)[i], family)
  }
}
