/** Whether the foreign firewall lets an accelerated scope through: which of its
    chains could see forwarded packets after acceleration, which of them are
    transparent, and which scopes the others accept anyway. */
module AclAdmission {
  import opened NftSpecs
  import opened Text
  import opened AclSyntax
  import opened AclChecker
  import opened AclScopes
  import opened RetirementPlan

  const FORWARD_PRIORITY := 0x7FFF_FFFF
  const FAMILIES := {JStr("ip"), JStr("ip6"), JStr("inet"), JStr("arp"), JStr("bridge"), JStr("netdev")}

  /** A decoded text that is not empty. */
  predicate IsName(value: Json) {
    value.JAddr? || (value.JStr? && value.s != "")
  }

  // ----- Chains that acceleration would bypass -----

  function AnyPriority(value: Json): Option<int> {
    if value.JStr? then Priority(JNum(value.s)) else Priority(value)
  }

  predicate CompleteChain(chain: Fields) {
    && IsName(Get(chain, "family")) && IsName(Get(chain, "table")) && IsName(Get(chain, "name"))
    && (Get(chain, "hook") != JNull ==>
          IsName(Get(chain, "hook")) && IsName(Get(chain, "type")) && AnyPriority(Get(chain, "prio")).Some?)
  }

  /** A foreign base chain that sees forwarded packets no earlier than the managed
      forward chain. */
  predicate Conflicting(chain: Fields) {
    && Get(chain, "family") in {JStr("inet"), JStr("ip"), JStr("ip6")}
    && !(Get(chain, "family") == JStr("inet") && Get(chain, "table") == OWN_TABLE)
    && (|| (Get(chain, "hook") == JStr("forward") && AnyPriority(Get(chain, "prio")).Some?
            && AnyPriority(Get(chain, "prio")).value >= FORWARD_PRIORITY)
        || (Get(chain, "hook") == JStr("postrouting") && Get(chain, "type") != JStr("nat")))
  }

  // ----- What a forwarded packet passes, hook by hook -----

  /** The netfilter hooks in the order in which a forwarded packet meets them. */
  function StageOf(hook: string): Option<int> {
    if hook == "ingress" then Some(-1) else if hook == "prerouting" then Some(0)
    else if hook == "forward" then Some(1) else if hook == "postrouting" then Some(2) else None
  }

  /** The chain is attached to packets of the address family. */
  predicate SeesFamily(chain: Fields, family: int) {
    match Get(chain, "family")
    case JStr(name) =>
      (name == "ip" && family == 4) || (name == "ip6" && family == 6) || (name == "inet" && family in {4, 6})
    case _ => false
  }

  /** The managed chain is attached to the forward hook, at the last priority there is. */
  const MANAGED_AT := (1, 2147483647)

  /** A forwarded packet of the family passes this foreign base chain at the managed
      chain's place or later, in an order that the kernel does not fix if it is the
      same place. Address translation on the way out is not a filter, and decides
      only on the first packet of a connection. */
  predicate PassedAfterManaged(chain: Fields, family: int) {
    var hook, priority := Get(chain, "hook"), AnyPriority(Get(chain, "prio"));
    && SeesFamily(chain, family)
    && !(Get(chain, "family") == JStr("inet") && Get(chain, "table") == OWN_TABLE)
    && hook.JStr? && StageOf(hook.s).Some?
    && !(StageOf(hook.s) == Some(2) && Get(chain, "type") == JStr("nat"))
    && (|| StageOf(hook.s).value > MANAGED_AT.0
        || (StageOf(hook.s).value == MANAGED_AT.0 && priority.Some? && priority.value >= MANAGED_AT.1))
  }

  /** The conflicting chains are exactly those that some forwarded packet passes
      after the managed chain. */
  lemma ConflictIsPassedLater(chain: Fields)
    ensures Conflicting(chain) <==> exists family :: PassedAfterManaged(chain, family)
    ensures Conflicting(chain) ==> forall family :: family in FamiliesOf(chain) <==> PassedAfterManaged(chain, family)
  {
    if Conflicting(chain) {
      assert PassedAfterManaged(chain, 4) || PassedAfterManaged(chain, 6);
    }
  }

  function ConflictsOf(objects: seq<Object>): seq<Fields> {
    if objects == [] then [] else
      var o := objects[|objects| - 1];
      ConflictsOf(objects[..|objects| - 1]) + if o.ChainObject? && Conflicting(o.fields) then [o.fields] else []
  }

  method ConflictingHooks(objects: seq<Object>) returns (conflicts: Option<seq<Fields>>)
    ensures conflicts.Some? ==> conflicts.value == ConflictsOf(objects)
    ensures conflicts.None? <==> exists o :: o in objects && o.ChainObject? && !CompleteChain(o.fields)
  {
    hide Conflicting, CompleteChain;
    var found := [];
    for i := 0 to |objects|
      invariant found == ConflictsOf(objects[..i])
      invariant forall o :: o in objects[..i] && o.ChainObject? ==> CompleteChain(o.fields)
    {
      assert objects[..i + 1][..i] == objects[..i];
      var o := objects[i];
      if o.ChainObject? {
        if !CompleteChain(o.fields) { return None; }
        if Conflicting(o.fields) { found := found + [o.fields]; }
      }
    }
    assert objects[..|objects|] == objects;
    return Some(found);
  }

  lemma {:induction false} ConflictsAreChains(objects: seq<Object>, chain: Fields)
    ensures chain in ConflictsOf(objects) <==> chain in ChainsOf(objects) && Conflicting(chain)
  {
    hide Conflicting;
    if objects != [] {
      ConflictsAreChains(objects[..|objects| - 1], chain);
    }
  }

  function FamiliesOf(chain: Fields): set<int> {
    match Get(chain, "family")
    case JStr(s) => if s == "ip" then {4} else if s == "ip6" then {6} else if s == "inet" then {4, 6} else {}
    case _ => {}
  }

  function HookFamilies(chains: seq<Fields>): set<int> {
    if chains == [] then {} else HookFamilies(chains[..|chains| - 1]) + FamiliesOf(chains[|chains| - 1])
  }

  lemma {:induction false} FamilyOfMember(chains: seq<Fields>, chain: Fields)
    requires chain in chains
    ensures FamiliesOf(chain) <= HookFamilies(chains)
  {
    if chain != chains[|chains| - 1] {
      FamilyOfMember(chains[..|chains| - 1], chain);
    }
  }

  // ----- Transparent chains -----

  /** An accepting filter chain whose every rule can only accept or fall through. */
  predicate Certified(objects: seq<Object>, chain: Fields) {
    && HeaderCertified(chain, TableOf(objects, ParentKey(chain)))
    && forall i :: 0 <= i < |RulesOf(objects, ChainKey(chain))| ==>
         TransparentAcceptRule(RulesOf(objects, ChainKey(chain))[i], Family(chain))
  }

  predicate HeaderCertified(chain: Fields, parent: Option<Fields>) {
    && Get(chain, "policy") == JStr("accept") && Get(chain, "type") == JStr("filter")
    && Get(chain, "hook") in {JStr("forward"), JStr("postrouting")} && "prio" in chain
    && HookMetadata(chain, "chain") && parent.Some? && HookMetadata(parent.value, "table")
  }

  // ----- Which inventories are within the proof's grammar -----

  predicate Grammatical(o: Object) {
    match o
    case MetaObject => true
    case TableObject(fields) => Get(fields, "family") in FAMILIES && IsName(Get(fields, "name"))
    case ChainObject(fields) =>
      Get(fields, "family") in FAMILIES && IsName(Get(fields, "table")) && IsName(Get(fields, "name"))
    case RuleObject(fields) =>
      Get(fields, "family") in FAMILIES && IsName(Get(fields, "table")) && IsName(Get(fields, "chain"))
    case FlowtableObject(fields) =>
      Get(fields, "family") == JStr("inet") && Get(fields, "table") == OWN_TABLE
      && Get(fields, "name") == JStr("fastpath")
    case OtherObject => false
  }

  /** Two objects of one name, where there may be only one. */
  predicate Twins(o: Object, p: Object) {
    || (o.MetaObject? && p.MetaObject?) || (o.FlowtableObject? && p.FlowtableObject?)
    || (o.TableObject? && p.TableObject? && TableKey(o.fields) == TableKey(p.fields))
    || (o.ChainObject? && p.ChainObject? && ChainKey(o.fields) == ChainKey(p.fields))
  }

  function AllRules(objects: seq<Object>): seq<Fields> {
    if objects == [] then [] else
      var last := objects[|objects| - 1];
      AllRules(objects[..|objects| - 1]) + if last.RuleObject? then [last.fields] else []
  }

  ghost predicate Distinct(objects: seq<Object>) {
    forall i, j :: 0 <= i < j < |objects| ==> !Twins(objects[i], objects[j])
  }

  ghost predicate DistinctMarks(rules: seq<Fields>) {
    forall i, j :: 0 <= i < j < |rules| ==> Marks(rules[i], RuleKey(rules[i])) !! Marks(rules[j], RuleKey(rules[j]))
  }

  /** Every object is one the proof knows, nothing is listed twice, everything has
      its parent, and no two rules of a chain show the same number. */
  ghost predicate WellFormed(objects: seq<Object>) {
    && (forall o :: o in objects ==> Grammatical(o)) && Distinct(objects)
    && ((exists o :: o in objects && o.FlowtableObject?) ==> TableOf(objects, (JStr("inet"), OWN_TABLE)).Some?)
    && Linked(objects) && DistinctMarks(AllRules(objects))
  }

  /** What one pass over the inventory collects: parents, chains, and rules in
      order; nothing when the inventory is outside the proof's grammar. */
  datatype Inventory = Inventory(tables: map<(Json, Json), Fields>, chains: map<Key, Fields>, rules: seq<Fields>,
                                 flow: bool, meta: bool)

  ghost predicate Lists(inv: Inventory, objects: seq<Object>) {
    && (forall k :: TableOf(objects, k) == if k in inv.tables then Some(inv.tables[k]) else None)
    && (forall f :: f in ChainsOf(objects) <==> ChainKey(f) in inv.chains && inv.chains[ChainKey(f)] == f)
    && (forall k :: k in inv.chains ==> ChainKey(inv.chains[k]) == k && inv.chains[k] in ChainsOf(objects))
    && DistinctChains(objects)
    && (forall k :: RulesOf(objects, k) == RulesWith(inv.rules, k))
  }

  /** What is noted of every object so far. */
  ghost predicate Notes(inv: Inventory, objects: seq<Object>) {
    && inv.rules == AllRules(objects)
    && (inv.meta <==> exists o :: o in objects && o.MetaObject?)
    && (inv.flow <==> exists o :: o in objects && o.FlowtableObject?)
    && (forall k :: k in inv.tables <==> exists o :: o in objects && o.TableObject? && TableKey(o.fields) == k)
    && (forall k :: k in inv.chains <==> exists o :: o in objects && o.ChainObject? && ChainKey(o.fields) == k)
  }

  function RulesWith(rules: seq<Fields>, key: Key): seq<Fields> {
    if rules == [] then [] else
      RulesWith(rules[..|rules| - 1], key) + if RuleKey(rules[|rules| - 1]) == key then [rules[|rules| - 1]] else []
  }

  /** The inventory with one more object. */
  function Noted(inv: Inventory, o: Object): Inventory {
    match o
    case MetaObject => inv.(meta := true)
    case TableObject(fields) => inv.(tables := inv.tables[TableKey(fields) := fields])
    case ChainObject(fields) => inv.(chains := inv.chains[ChainKey(fields) := fields])
    case RuleObject(fields) => inv.(rules := inv.rules + [fields])
    case FlowtableObject(_) => inv.(flow := true)
    case OtherObject => inv
  }

  predicate HasTwin(inv: Inventory, o: Object) {
    match o
    case MetaObject => inv.meta
    case TableObject(fields) => TableKey(fields) in inv.tables
    case ChainObject(fields) => ChainKey(fields) in inv.chains
    case FlowtableObject(_) => inv.flow
    case _ => false
  }

  lemma TwinKnown(inv: Inventory, before: seq<Object>, o: Object)
    requires Notes(inv, before)
    ensures HasTwin(inv, o) <==> exists p :: p in before && Twins(p, o)
  {
  }

  lemma NotesGrow(inv: Inventory, before: seq<Object>, o: Object)
    requires Notes(inv, before)
    ensures Notes(Noted(inv, o), before + [o])
  {
    var more, next := before + [o], Noted(inv, o);
    assert more[..|before|] == before;
    assert forall x :: x in more <==> x in before || x == o;
    assert o in more;
  }

  /** Take in one more object of the inventory. */
  method Collect(inv: Inventory, o: Object, ghost before: seq<Object>) returns (next: Option<Inventory>)
    requires Lists(inv, before) && Notes(inv, before)
    ensures next.Some? ==> Lists(next.value, before + [o]) && Notes(next.value, before + [o])
    ensures next.Some? <==> Grammatical(o) && forall p :: p in before ==> !Twins(p, o)
  {
    hide Lists, FAMILIES, IsName, Notes, Twins;
    TwinKnown(inv, before, o);
    NotesGrow(inv, before, o);
    match o {
      case MetaObject =>
        if inv.meta { return None; }
        OthersGrow(before, o, inv, inv.(meta := true));
        return Some(inv.(meta := true));
      case TableObject(fields) =>
        if Get(fields, "family") !in FAMILIES || !IsName(Get(fields, "name")) || TableKey(fields) in inv.tables {
          return None;
        }
        TablesGrow(before, o, inv);
        return Some(inv.(tables := inv.tables[TableKey(fields) := fields]));
      case ChainObject(fields) =>
        if Get(fields, "family") !in FAMILIES || !IsName(Get(fields, "table")) || !IsName(Get(fields, "name"))
           || ChainKey(fields) in inv.chains { return None; }
        ChainsGrow(before, o, inv);
        return Some(inv.(chains := inv.chains[ChainKey(fields) := fields]));
      case RuleObject(fields) =>
        if Get(fields, "family") !in FAMILIES || !IsName(Get(fields, "table")) || !IsName(Get(fields, "chain")) {
          return None;
        }
        RulesGrow(before, o, inv);
        return Some(inv.(rules := inv.rules + [fields]));
      case FlowtableObject(fields) =>
        if Get(fields, "family") != JStr("inet") || Get(fields, "table") != OWN_TABLE
            || Get(fields, "name") != JStr("fastpath") || inv.flow {
          return None;
        }
        OthersGrow(before, o, inv, inv.(flow := true));
        return Some(inv.(flow := true));
      case OtherObject => return None;
    }
  }

  lemma Grown(before: seq<Object>, o: Object)
    ensures ChainsOf(before + [o]) == ChainsOf(before) + if o.ChainObject? then [o.fields] else []
    ensures forall k :: RulesOf(before + [o], k) == RulesOf(before, k) + if o.RuleObject?
            && RuleKey(o.fields) == k then [o.fields] else []
    ensures forall k :: TableOf(before + [o], k) ==
              if o.TableObject? && TableKey(o.fields) == k then Some(o.fields) else TableOf(before, k)
  {
    assert (before + [o])[..|before|] == before;
  }

  lemma OthersGrow(before: seq<Object>, o: Object, inv: Inventory, next: Inventory)
    requires Lists(inv, before) && (o.MetaObject? || o.FlowtableObject?)
    requires next == inv.(flow := next.flow, meta := next.meta)
    ensures Lists(next, before + [o])
  {
    Grown(before, o);
    hide ChainsOf, RulesOf, TableOf, RulesWith;
  }

  lemma TablesGrow(before: seq<Object>, o: Object, inv: Inventory)
    requires Lists(inv, before) && o.TableObject?
    ensures Lists(inv.(tables := inv.tables[TableKey(o.fields) := o.fields]), before + [o])
  {
    Grown(before, o);
    hide ChainsOf, RulesOf, TableOf, RulesWith;
  }

  lemma RulesGrow(before: seq<Object>, o: Object, inv: Inventory)
    requires Lists(inv, before) && o.RuleObject?
    ensures Lists(inv.(rules := inv.rules + [o.fields]), before + [o])
  {
    Grown(before, o);
    assert (inv.rules + [o.fields])[..|inv.rules|] == inv.rules;
    hide ChainsOf, RulesOf, TableOf;
  }

  lemma ChainsGrow(before: seq<Object>, o: Object, inv: Inventory)
    requires Lists(inv, before) && o.ChainObject? && ChainKey(o.fields) !in inv.chains
    ensures Lists(inv.(chains := inv.chains[ChainKey(o.fields) := o.fields]), before + [o])
  {
    Grown(before, o);
    hide ChainsOf, RulesOf, TableOf, RulesWith;
    forall i | 0 <= i < |ChainsOf(before)| ensures ChainKey(ChainsOf(before)[i]) != ChainKey(o.fields) {
      assert ChainsOf(before)[i] in ChainsOf(before);
    }
  }

  /** The chains proved transparent, or nothing when the inventory is malformed. */
  method CompatibleHooks(objects: seq<Object>) returns (compatible: Option<map<Key, bool>>)
    ensures compatible.Some? <==> WellFormed(objects)
    ensures compatible.Some? ==> DistinctChains(objects)
    ensures compatible.Some? ==> forall chain :: chain in ChainsOf(objects) ==>
              ChainKey(chain) in compatible.value && compatible.value[ChainKey(chain)] == Certified(objects, chain)
  {
    hide TransparentAcceptRule, HookMetadata, Lists, HeaderCertified, SoFar, Grammatical, Twins, Notes, Linked, TableOf;
    hide DistinctMarks;
    var inv := Inventory(map[], map[], [], false, false);
    assert Lists(inv, []) && Notes(inv, []) by { NothingListed(); }
    for i := 0 to |objects|
      invariant Lists(inv, objects[..i]) && Notes(inv, objects[..i])
      invariant (forall o :: o in objects[..i] ==> Grammatical(o)) && Distinct(objects[..i])
    {
      assert objects[..i + 1] == objects[..i] + [objects[i]];
      var next := Collect(inv, objects[i], objects[..i]);
      if next.None? {
        assert Grammatical(objects[i]) ==> !Distinct(objects) by { TwinFound(objects, i); }
        return None;
      }
      inv := next.value;
    }
    assert objects[..|objects|] == objects;
    InventoryIs(objects, inv);
    if inv.flow && (JStr("inet"), OWN_TABLE) !in inv.tables { return None; }
    if exists k :: k in inv.chains && ParentKey(inv.chains[k]) !in inv.tables { return None; }
    var proved := ProveChains(inv);
    if proved.Some? { ProvedIsCertified(objects, inv, proved.value); }
    return proved;
  }

  lemma TwinFound(objects: seq<Object>, i: nat)
    requires i < |objects|
    ensures (exists p :: p in objects[..i] && Twins(p, objects[i])) ==> !Distinct(objects)
  {
    if p :| p in objects[..i] && Twins(p, objects[i]) {
      var j :| 0 <= j < i && objects[j] == p;
    }
  }

  lemma {:induction false} RuleListed(objects: seq<Object>, r: Fields)
    ensures r in AllRules(objects) <==> RuleObject(r) in objects
  {
    if objects != [] {
      RuleListed(objects[..|objects| - 1], r);
      assert objects == objects[..|objects| - 1] + [objects[|objects| - 1]];
    }
  }

  /** Whether everything has its parent, read off the collected inventory. */
  lemma InventoryIs(objects: seq<Object>, inv: Inventory)
    requires Lists(inv, objects) && Notes(inv, objects)
    ensures inv.rules == AllRules(objects) && (inv.flow <==> exists o :: o in objects && o.FlowtableObject?)
    ensures TableOf(objects, (JStr("inet"), OWN_TABLE)).Some? <==> (JStr("inet"), OWN_TABLE) in inv.tables
    ensures Linked(objects) <==> && (forall k :: k in inv.chains ==> ParentKey(inv.chains[k]) in inv.tables)
                                 && forall r :: r in inv.rules ==> RuleKey(r) in inv.chains
  {
    hide TableOf, ChainsOf, RulesOf, RulesWith;
    forall r ensures r in inv.rules <==> RuleObject(r) in objects { RuleListed(objects, r); }
    if Linked(objects) {
      forall r | r in inv.rules ensures RuleKey(r) in inv.chains {
        assert RuleObject(r) in objects;
        var c :| c in ChainsOf(objects) && ChainKey(c) == RuleKey(r);
      }
    }
    if forall r :: r in inv.rules ==> RuleKey(r) in inv.chains {
      forall o | o in objects && o.RuleObject?
        ensures exists c :: c in ChainsOf(objects) && ChainKey(c) == RuleKey(o.fields)
      {
        assert o == RuleObject(o.fields);
        assert inv.chains[RuleKey(o.fields)] in ChainsOf(objects);
      }
    }
  }

  lemma NothingListed()
    ensures Lists(Inventory(map[], map[], [], false, false), [])
    ensures Notes(Inventory(map[], map[], [], false, false), [])
  {
  }

  /** A later accept never undoes an earlier rule that is not transparent. */
  method ProveChains(inv: Inventory) returns (proved: Option<map<Key, bool>>)
    requires forall k :: k in inv.chains ==> ParentKey(inv.chains[k]) in inv.tables
    ensures proved.Some? <==> (forall r :: r in inv.rules ==> RuleKey(r) in inv.chains) && DistinctMarks(inv.rules)
    ensures proved.Some? ==> proved.value.Keys == inv.chains.Keys
                             && forall k :: k in inv.chains ==> proved.value[k] == SoFar(inv, k, |inv.rules|)
  {
    hide TransparentAcceptRule, HookMetadata, HeaderCertified, Family, RuleKey, Marks, DistinctMarks, MarksOf;
    NoMarks();
    var chains := map k | k in inv.chains :: HeaderCertified(inv.chains[k], Some(inv.tables[ParentKey(inv.chains[k])]));
    var seen: set<(Key, string, string)> := {};
    for i := 0 to |inv.rules|
      invariant chains.Keys == inv.chains.Keys
      invariant forall k :: k in inv.chains ==> chains[k] == SoFar(inv, k, i)
      invariant forall j :: 0 <= j < i ==> RuleKey(inv.rules[j]) in inv.chains
      invariant seen == MarksOf(inv.rules[..i]) && DistinctMarks(inv.rules[..i])
    {
      var rule := inv.rules[i];
      var key := RuleKey(rule);
      if key !in inv.chains { return None; }
      var marks := Marks(rule, key);
      MarksUpTo(inv.rules, i);
      if !(marks !! seen) { return None; }
      seen := seen + marks;
      RulesUpTo(inv.rules, i);
      chains := chains[key := TransparentAcceptRule(rule, Family(inv.chains[key])) && chains[key]];
    }
    assert inv.rules[..|inv.rules|] == inv.rules;
    return Some(chains);
  }

  function MarksOf(rules: seq<Fields>): set<(Key, string, string)> {
    if rules == [] then {} else
      var last := rules[|rules| - 1];
      MarksOf(rules[..|rules| - 1]) + Marks(last, RuleKey(last))
  }

  lemma {:induction false} MarkShown(rules: seq<Fields>, m: (Key, string, string))
    ensures m in MarksOf(rules) <==> exists j :: 0 <= j < |rules| && m in Marks(rules[j], RuleKey(rules[j]))
  {
    hide Marks;
    if rules != [] {
      MarkShown(rules[..|rules| - 1], m);
    }
  }

  lemma NoMarks()
    ensures MarksOf([]) == {} && DistinctMarks([])
  {
  }

  /** One more rule: its marks are new, or no list that goes on from here is free
      of duplicates. */
  lemma MarksUpTo(rules: seq<Fields>, i: nat)
    requires i < |rules| && DistinctMarks(rules[..i])
    ensures MarksOf(rules[..i + 1]) == MarksOf(rules[..i]) + Marks(rules[i], RuleKey(rules[i]))
    ensures if Marks(rules[i], RuleKey(rules[i])) !! MarksOf(rules[..i]) then DistinctMarks(rules[..i + 1])
            else !DistinctMarks(rules)
  {
    hide Marks;
    assert rules[..i + 1][..i] == rules[..i];
    var marks := Marks(rules[i], RuleKey(rules[i]));
    if marks !! MarksOf(rules[..i]) {
      forall j | 0 <= j < i ensures Marks(rules[j], RuleKey(rules[j])) !! marks {
        forall m | m in Marks(rules[j], RuleKey(rules[j])) ensures m !in marks {
          assert rules[..i][j] == rules[j];
          MarkShown(rules[..i], m);
        }
      }
    } else {
      var m :| m in marks && m in MarksOf(rules[..i]);
      MarkShown(rules[..i], m);
    }
  }

  lemma ProvedIsCertified(objects: seq<Object>, inv: Inventory, proved: map<Key, bool>)
    requires Lists(inv, objects) && proved.Keys == inv.chains.Keys
    requires forall k :: k in inv.chains ==>
              ParentKey(inv.chains[k]) in inv.tables && proved[k] == SoFar(inv, k, |inv.rules|)
    ensures DistinctChains(objects)
    ensures forall chain :: chain in ChainsOf(objects) ==>
              ChainKey(chain) in proved && proved[ChainKey(chain)] == Certified(objects, chain)
  {
    hide TransparentAcceptRule, HookMetadata, HeaderCertified, ChainsOf, TableOf, RulesWith, RulesOf;
    assert inv.rules[..|inv.rules|] == inv.rules;
    forall chain | chain in ChainsOf(objects)
      ensures ChainKey(chain) in proved && proved[ChainKey(chain)] == Certified(objects, chain)
    {
      var key := ChainKey(chain);
      assert TableOf(objects, ParentKey(chain)) == Some(inv.tables[ParentKey(chain)]);
      assert RulesOf(objects, key) == RulesWith(inv.rules, key);
    }
  }

  /** Display identities that no two rules of a chain may share. */
  function Marks(rule: Fields, key: Key): set<(Key, string, string)> {
    set field | field in {"handle", "index"} && field in rule && HookUint(rule[field]) :: (key, field, rule[field].text)
  }

  /** The chain is certified as far as its first rules go. */
  ghost predicate SoFar(inv: Inventory, k: Key, i: nat)
    requires k in inv.chains && ParentKey(inv.chains[k]) in inv.tables && i <= |inv.rules|
  {
    && HeaderCertified(inv.chains[k], Some(inv.tables[ParentKey(inv.chains[k])]))
    && forall r :: r in RulesWith(inv.rules[..i], k) ==> TransparentAcceptRule(r, Family(inv.chains[k]))
  }

  lemma RulesUpTo(rules: seq<Fields>, i: nat)
    requires i < |rules|
    ensures forall k :: RulesWith(rules[..i + 1], k) == RulesWith(rules[..i], k)
              + if RuleKey(rules[i]) == k then [rules[i]] else []
  {
    assert rules[..i + 1][..i] == rules[..i];
  }

  // ----- The answer -----

  /** Conflicting chains that are not transparent. */
  function Remaining(objects: seq<Object>, conflicts: seq<Fields>): seq<Fields> {
    if conflicts == [] then [] else
      var last := conflicts[|conflicts| - 1];
      Remaining(objects, conflicts[..|conflicts| - 1]) + if Certified(objects, last) then [] else [last]
  }

  lemma {:induction false} RemainingMembers(objects: seq<Object>, conflicts: seq<Fields>, chain: Fields)
    ensures chain in Remaining(objects, conflicts) <==> chain in conflicts && !Certified(objects, chain)
  {
    hide Certified;
    if conflicts != [] {
      RemainingMembers(objects, conflicts[..|conflicts| - 1], chain);
    }
  }

  /** The admission of a proof that went through. */
  function AdmissionOf(objects: seq<Object>, specs: seq<Spec>): Option<Admission> {
    var families := HookFamilies(Remaining(objects, ConflictsOf(objects)));
    if families == {} then None else Some(Admission(families, Permitted(objects, specs, families)))
  }

  /** No proof: every family of a conflicting chain is gated. */
  ghost predicate Conservative(admission: Option<Admission>, objects: seq<Object>) {
    admission.Some? && admission.value.permitted == [] && HookFamilies(ConflictsOf(objects)) <= admission.value.families
  }

  // ----- Two readings that must agree -----

  /** The object belongs to a chain of the given names, or is the table of one. */
  predicate Bears(o: Object, keys: set<Key>) {
    match o
    case ChainObject(fields) => ChainKey(fields) in keys
    case RuleObject(fields) => RuleKey(fields) in keys
    case TableObject(fields) => exists k :: k in keys && TableKey(fields) == (k.0, k.1)
    case _ => false
  }

  /** The text that a proof about these chains rests on, whatever its order. */
  function Texts(objects: seq<Object>, keys: set<Key>): multiset<Object> {
    if objects == [] then multiset{} else
      var last := objects[|objects| - 1];
      Texts(objects[..|objects| - 1], keys) + if Bears(last, keys) then multiset{last} else multiset{}
  }

  method CollectTexts(objects: seq<Object>, keys: set<Key>) returns (texts: multiset<Object>)
    ensures texts == Texts(objects, keys)
  {
    texts := multiset{};
    for i := 0 to |objects|
      invariant texts == Texts(objects[..i], keys)
    {
      assert objects[..i + 1][..i] == objects[..i];
      if Bears(objects[i], keys) { texts := texts + multiset{objects[i]}; }
    }
    assert objects[..|objects|] == objects;
  }

  /** The conflicting chains that are proved transparent. */
  function CertifiedKeys(objects: seq<Object>): set<Key> {
    set c | c in ConflictsOf(objects) && Certified(objects, c) :: ChainKey(c)
  }

  /** The chains that the proof of some permitted scope went through. */
  function UsedKeys(objects: seq<Object>, permitted: seq<Spec>): set<Key> {
    set c, s | c in ChainsOf(objects) && s in permitted && Relevant(c, s) :: ChainKey(c)
  }

  /** What one reading of the rules proves: the conflicting chains that stay
      unproved, the scopes that every chain accepts, and the text of both proofs. */
  datatype Proof =
    | Proved(remaining: seq<Fields>, permitted: seq<Spec>, certified: multiset<Object>, used: multiset<Object>)
    | Unproved(extra: set<int>)

  function PermittedBy(objects: seq<Object>, specs: seq<Spec>): seq<Spec> {
    var families := HookFamilies(Remaining(objects, ConflictsOf(objects)));
    if families == {} then [] else Permitted(objects, specs, families)
  }

  /** The reading proves this much. */
  function ProofOf(objects: seq<Object>, specs: seq<Spec>): Proof {
    Proved(Remaining(objects, ConflictsOf(objects)), PermittedBy(objects, specs),
           Texts(objects, CertifiedKeys(objects)),
           Texts(objects, UsedKeys(objects, PermittedBy(objects, specs))))
  }

  /** Two proofs say the same on the same text, in whatever order. */
  predicate SameProof(one: Proof, two: Proof) {
    && one.Proved? && two.Proved?
    && multiset(one.remaining) == multiset(two.remaining) && multiset(one.permitted) == multiset(two.permitted)
    && one.certified == two.certified && one.used == two.used
  }

  /** Tell the transparent conflicting chains from the others. */
  method SplitConflicts(objects: seq<Object>, compatible: map<Key, bool>)
    returns (remaining: seq<Fields>, keys: set<Key>)
    requires forall chain :: chain in ChainsOf(objects) ==>
               ChainKey(chain) in compatible && compatible[ChainKey(chain)] == Certified(objects, chain)
    ensures remaining == Remaining(objects, ConflictsOf(objects)) && keys == CertifiedKeys(objects)
  {
    hide Certified, ConflictsOf, ChainsOf;
    var conflicts := ConflictsOf(objects);
    remaining, keys := [], {};
    for i := 0 to |conflicts|
      invariant remaining == Remaining(objects, conflicts[..i])
      invariant keys == set c | c in conflicts[..i] && Certified(objects, c) :: ChainKey(c)
    {
      var chain := conflicts[i];
      assert conflicts[..i + 1][..i] == conflicts[..i];
      assert conflicts[..i + 1] == conflicts[..i] + [chain];
      ConflictsAreChains(objects, chain);
      if compatible[ChainKey(chain)] { keys := keys + {ChainKey(chain)}; } else { remaining := remaining + [chain]; }
    }
    assert conflicts[..|conflicts|] == conflicts;
  }

  /** The reading is one a proof can start from: it is complete, it shows the same
      conflicting chains, and its inventory is well formed. */
  ghost predicate Provable(reading: Option<seq<Object>>, initial: seq<Fields>) {
    && reading.Some? && (forall o :: o in reading.value && o.ChainObject? ==> CompleteChain(o.fields))
    && multiset(ConflictsOf(reading.value)) == multiset(initial) && WellFormed(reading.value)
  }

  /** One pass over one reading of the whole ruleset. A reading that shows other
      conflicting chains gates their families too; one that cannot be used gates
      both families. A proof that can start fails only if the work budget is spent. */
  method ProvePass(reading: Option<seq<Object>>, initial: seq<Fields>, specs: seq<Spec>)
    returns (proof: Proof, ghost spent: bool)
    ensures proof.Proved? ==> Provable(reading, initial) && proof == ProofOf(reading.value, specs)
    ensures Provable(reading, initial) && !spent ==> proof.Proved?
    ensures proof.Unproved? && !(&& reading.Some? && multiset(ConflictsOf(reading.value)) != multiset(initial)
                                 && forall o :: o in reading.value && o.ChainObject? ==> CompleteChain(o.fields)) ==>
              proof.extra == {4, 6}
  {
    spent := false;
    if reading.None? { return Unproved({4, 6}), spent; }
    var objects := reading.value;
    var conflicts := ConflictingHooks(objects);
    if conflicts.None? { return Unproved({4, 6}), spent; }
    if multiset(conflicts.value) != multiset(initial) { return Unproved(HookFamilies(conflicts.value)), spent; }
    var compatible := CompatibleHooks(objects);
    if compatible.None? { return Unproved({4, 6}), spent; }
    assert Linked(objects);
    hide Certified, Permitted, Texts, Remaining, CertifiedKeys, UsedKeys, HookFamilies, ChainsOf, WellFormed, Linked;
    var remaining, keys := SplitConflicts(objects, compatible.value);
    var certified := CollectTexts(objects, keys);
    var permitted := [];
    if HookFamilies(remaining) != {} {
      var proved;
      proved, spent := ProveSelectiveScopes(objects, HookFamilies(remaining), specs);
      if proved.None? { return Unproved({4, 6}), spent; }
      permitted := proved.value;
    }
    var used := CollectTexts(objects, UsedKeys(objects, permitted));
    return Proved(remaining, permitted, certified, used), spent;
  }

  /** The answer is the proof of the second reading, which the first gives too, on
      the same text; or there is no conflict; or every family of a conflicting
      chain is gated, and nothing is permitted. */
  ghost predicate Answers(admission: Option<Admission>, initial: seq<Object>, first: Option<seq<Object>>,
                          second: Option<seq<Object>>,
                          specs: seq<Spec>)
  {
    || (ConflictsOf(initial) == [] && admission == None)
    || Conservative(admission, initial)
    || (&& first.Some? && second.Some? && SameProof(ProofOf(first.value, specs), ProofOf(second.value, specs))
        && multiset(ConflictsOf(second.value)) == multiset(ConflictsOf(initial)) == multiset(ConflictsOf(first.value))
        && admission == AdmissionOf(second.value, specs))
  }

  /** List the chains, then prove what can be proved from two whole readings that
      must agree. An optional proof that fails gates every family concerned, it
      never opens one. */
  method CheckFlowtableAdmission(initial: seq<Object>, first: Option<seq<Object>>, second: Option<seq<Object>>,
                                 specs: seq<Spec>)
    returns (readable: bool, admission: Option<Admission>, ghost spent: bool)
    ensures readable ==> Answers(admission, initial, first, second, specs)
    ensures readable <==> forall o :: o in initial && o.ChainObject? ==> CompleteChain(o.fields)
    ensures readable && ConflictsOf(initial) == [] ==> admission == None
    ensures var conflicts := ConflictsOf(initial);
            (&& readable && conflicts != [] && !spent && Provable(first, conflicts) && Provable(second, conflicts)) ==>
              admission == if SameProof(ProofOf(first.value, specs), ProofOf(second.value, specs))
                           then AdmissionOf(second.value, specs)
                           else Some(Admission(HookFamilies(conflicts), []))
  {
    hide CompleteChain, Permitted, Certified, Texts, WellFormed;
    spent := false;
    var conflicts := ConflictingHooks(initial);
    if conflicts.None? { return false, None, spent; }
    if conflicts.value == [] { return true, None, spent; }
    var rejected := HookFamilies(conflicts.value);
    var one, two;
    one, spent := ProvePass(first, conflicts.value, specs);
    if one.Unproved? { return true, Some(Admission(rejected + one.extra, [])), spent; }
    ghost var more;
    two, more := ProvePass(second, conflicts.value, specs);
    spent := spent || more;
    if two.Unproved? { return true, Some(Admission(rejected + two.extra, [])), spent; }
    if !SameProof(one, two) { return true, Some(Admission(rejected, [])), spent; }
    var families := HookFamilies(two.remaining);
    return true, if families == {} then None else Some(Admission(families, two.permitted)), spent;
  }

  /** Two admissions affect the same scopes. */
  predicate SameAdmission(one: Option<Admission>, two: Option<Admission>) {
    one == two || (one.Some? && two.Some? && one.value.families == two.value.families
                   && multiset(one.value.permitted) == multiset(two.value.permitted))
  }

  ghost predicate Sound(admission: Option<Admission>, objects: seq<Object>, specs: seq<Spec>) {
    || SameAdmission(admission, AdmissionOf(objects, specs)) || Conservative(admission, objects)
    || (admission == None && ConflictsOf(objects) == [])
  }

  lemma {:induction false} HookFamilyMembers(chains: seq<Fields>, f: int)
    ensures f in HookFamilies(chains) <==> exists c :: c in chains && f in FamiliesOf(c)
  {
    hide FamiliesOf;
    if chains != [] {
      HookFamilyMembers(chains[..|chains| - 1], f);
      assert chains == chains[..|chains| - 1] + [chains[|chains| - 1]];
    }
  }

  lemma SameFamilies(one: seq<Fields>, two: seq<Fields>)
    requires multiset(one) == multiset(two)
    ensures HookFamilies(one) == HookFamilies(two)
  {
    hide HookFamilies, FamiliesOf;
    forall f ensures f in HookFamilies(one) <==> f in HookFamilies(two) {
      HookFamilyMembers(one, f);
      HookFamilyMembers(two, f);
      forall c ensures c in one <==> c in two { assert c in multiset(one) <==> c in multiset(two); }
    }
  }

  /** The answer is sound for the chains as first listed, or for both readings. */
  lemma AnswersAreSound(admission: Option<Admission>, initial: seq<Object>, first: Option<seq<Object>>,
                        second: Option<seq<Object>>,
                        specs: seq<Spec>)
    requires Answers(admission, initial, first, second, specs)
    ensures || Sound(admission, initial, specs)
            || (first.Some? && second.Some? && Sound(admission, first.value, specs)
                && Sound(admission, second.value, specs))
  {
    hide Permitted, Remaining, ConflictsOf, Texts, HookFamilies;
    if first.Some? && second.Some? && SameProof(ProofOf(first.value, specs), ProofOf(second.value, specs)) {
      SameFamilies(Remaining(first.value, ConflictsOf(first.value)),
                   Remaining(second.value, ConflictsOf(second.value)));
    }
  }

  /** An accelerated scope that the admission does not affect gets past no chain
      that could object: every foreign chain that one of its packets passes after
      the managed chain accepts every packet of its flows. Forward chains that run
      before it see a flow until it is offloaded, and nothing is said about them. */
  lemma UnaffectedIsAccepted(objects: seq<Object>, specs: seq<Spec>, admission: Option<Admission>, s: Spec,
                             i: nat, priority: int, f: Flow, p: Packet)
    requires Sound(admission, objects, specs)
    requires admission.Some? ==> !admission.value.Affects(s)
    requires ValidSpec(s) && s.flow && FlowOf(s, f)
    requires i < |ChainsOf(objects)| && PassedAfterManaged(ChainsOf(objects)[i], s.family)
    requires Priority(Get(ChainsOf(objects)[i], "prio")) == Some(priority)
    requires Seen(f, Hook(ChainsOf(objects)[i]), priority, p)
    ensures var chain := Assemble(objects, ChainsOf(objects)[i]);
            RunChain(chain.rules, Get(chain.fields, "policy"), p) == Accept
  {
    hide Conflicting, FamiliesOf, HookFamilies, ConflictsOf, Remaining, ChainsOf, Permitted, Permits, Seen, FlowOf;
    hide RunChain;
    hide Certified, Relevant, Assemble, Priority, Hook, ScopeCovers, PassedAfterManaged;
    ConflictIsPassedLater(ChainsOf(objects)[i]);
    var chain, conflicts := ChainsOf(objects)[i], ConflictsOf(objects);
    ConflictsAreChains(objects, chain);
    FamilyOfMember(conflicts, chain);
    if Certified(objects, chain) {
      CertifiedAccepts(objects, chain, p);
    } else {
      RemainingMembers(objects, conflicts, chain);
      FamilyOfMember(Remaining(objects, conflicts), chain);
      ConflictIsRelevant(chain, s);
      var q :| q in admission.value.permitted && ScopeCovers(q, s);
      assert q in multiset(admission.value.permitted);
      PermittedIsAccepted(objects, admission.value.families, specs, q, s, i, priority, f, p);
    }
  }

  lemma ConflictIsRelevant(chain: Fields, s: Spec)
    requires Conflicting(chain) && s.family in FamiliesOf(chain)
    ensures Relevant(chain, s) && (s.family == 4 || s.family == 6)
  {
  }

  lemma CertifiedAccepts(objects: seq<Object>, chain: Fields, p: Packet)
    requires Certified(objects, chain)
    ensures var c := Assemble(objects, chain); RunChain(c.rules, Get(c.fields, "policy"), p) == Accept
  {
    hide TransparentAcceptRule, HookMetadata, RunChain, RulesOf;
    TransparentChainAcceptsAll(RulesOf(objects, ChainKey(chain)), Family(chain), p);
  }
}
