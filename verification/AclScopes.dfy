/** Which accelerated scopes every relevant foreign chain is proved to accept. */
module AclScopes {
  import opened NftSpecs
  import opened AclSyntax
  import opened AclChecker
  import opened RetirementPlan

  datatype Object =
    | TableObject(fields: Fields)
    | ChainObject(fields: Fields)
    | RuleObject(fields: Fields)
    | FlowtableObject(fields: Fields)
    | MetaObject
    | OtherObject

  const MAX_WORK := 1048576
  const OWN_TABLE := JStr("portbridge")

  type Key = (Json, Json, Json)

  function ChainKey(chain: Fields): Key { (Get(chain, "family"), Get(chain, "table"), Get(chain, "name")) }

  function RuleKey(rule: Fields): Key { (Get(rule, "family"), Get(rule, "table"), Get(rule, "chain")) }

  function TableKey(table: Fields): (Json, Json) { (Get(table, "family"), Get(table, "name")) }

  function ParentKey(chain: Fields): (Json, Json) { (Get(chain, "family"), Get(chain, "table")) }

  // ----- The inventory, read off the object list -----

  function ChainsOf(objects: seq<Object>): seq<Fields> {
    if objects == [] then []
    else
      var o := objects[|objects| - 1];
      ChainsOf(objects[..|objects| - 1]) + (if o.ChainObject? then [o.fields] else [])
  }

  function RulesOf(objects: seq<Object>, key: Key): seq<Fields> {
    if objects == [] then []
    else
      var o := objects[|objects| - 1];
      RulesOf(objects[..|objects| - 1], key) + (if o.RuleObject? && RuleKey(o.fields) == key then [o.fields] else [])
  }

  function TableOf(objects: seq<Object>, key: (Json, Json)): Option<Fields> {
    if objects == [] then None
    else
      var o := objects[|objects| - 1];
      if o.TableObject? && TableKey(o.fields) == key then Some(o.fields) else TableOf(objects[..|objects| - 1], key)
  }

  function Assemble(objects: seq<Object>, chain: Fields): Chain {
    var parent := TableOf(objects, ParentKey(chain));
    Chain(chain, if parent.Some? then parent.value else map[], RulesOf(objects, ChainKey(chain)))
  }

  /** Chains of one inventory have distinct identities; an earlier pass rejects
      duplicates. */
  predicate DistinctChains(objects: seq<Object>) {
    var chains := ChainsOf(objects);
    forall i, j :: 0 <= i < j < |chains| ==> ChainKey(chains[i]) != ChainKey(chains[j])
  }

  /** A foreign base chain that packets forwarded by the scope pass through. */
  predicate Relevant(chain: Fields, s: Spec) {
    var family, hook := Get(chain, "family"), Get(chain, "hook");
    && hook !in {JNull, JStr("input"), JStr("output")}
    && !(family == JStr("inet") && Get(chain, "table") == OWN_TABLE)
    && !(family == JStr("ip") && s.family != 4)
    && !(family == JStr("ip6") && s.family != 6)
  }

  predicate ChainPermits(objects: seq<Object>, chain: Fields, s: Spec)
    requires ValidSpec(s)
  {
    Relevant(chain, s) ==> SupportedFamily(Family(chain)) && Accepts(Assemble(objects, chain), s)
  }

  predicate Permits(objects: seq<Object>, s: Spec)
    requires ValidSpec(s)
  {
    forall i :: 0 <= i < |ChainsOf(objects)| ==> ChainPermits(objects, ChainsOf(objects)[i], s)
  }

  predicate Eligible(s: Spec, affected: set<int>) {
    s.flow && (if s.family == 6 then 6 else 4) in affected && ValidSpec(s)
  }

  function Permitted(objects: seq<Object>, specs: seq<Spec>, affected: set<int>): seq<Spec> {
    if specs == [] then []
    else
      var s := specs[|specs| - 1];
      Permitted(objects, specs[..|specs| - 1], affected)
      + (if Eligible(s, affected) && Permits(objects, s) then [s] else [])
  }

  /** Every rule has its chain, and every chain its table. */
  ghost predicate Linked(objects: seq<Object>) {
    && (forall o :: o in objects && o.RuleObject? ==>
          exists c :: c in ChainsOf(objects) && ChainKey(c) == RuleKey(o.fields))
    && forall c :: c in ChainsOf(objects) ==> TableOf(objects, ParentKey(c)).Some?
  }

  // ----- The source's single pass over maps -----

  ghost predicate Indexed(chains: map<Key, Chain>, order: seq<Key>, objects: seq<Object>) {
    && |order| == |ChainsOf(objects)|
    && (forall i :: 0 <= i < |order| ==>
          order[i] == ChainKey(ChainsOf(objects)[i]) && order[i] in chains
              && chains[order[i]].fields == ChainsOf(objects)[i])
    && (forall k :: k in chains ==> k in order)
  }

  lemma {:induction false} DistinctPrefix(objects: seq<Object>, n: nat)
    requires n <= |objects| && DistinctChains(objects)
    ensures DistinctChains(objects[..n])
    ensures |ChainsOf(objects[..n])| <= |ChainsOf(objects)| && ChainsOf(objects[..n]) <= ChainsOf(objects)
    decreases |objects| - n
  {
    if n == |objects| {
      assert objects[..n] == objects;
    } else {
      DistinctPrefix(objects, n + 1);
      assert objects[..n + 1][..n] == objects[..n];
      assert ChainsOf(objects[..n]) <= ChainsOf(objects[..n + 1]);
    }
  }

  method IndexChains(objects: seq<Object>, work: Work)
    returns (ok: bool, tables: map<(Json, Json), Fields>, chains: map<Key, Chain>, order: seq<Key>)
    requires DistinctChains(objects)
    modifies work
    ensures !ok ==> work.remaining < 0
    ensures ok ==> Indexed(chains, order, objects)
    ensures ok ==> forall k :: k in chains ==> chains[k].rules == []
    ensures ok ==> forall k :: TableOf(objects, k) == if k in tables then Some(tables[k]) else None
  {
    tables, chains, order := map[], map[], [];
    for i := 0 to |objects|
      invariant Indexed(chains, order, objects[..i])
      invariant forall k :: k in chains ==> chains[k].rules == []
      invariant forall k :: TableOf(objects[..i], k) == if k in tables then Some(tables[k]) else None
    {
      assert objects[..i + 1][..i] == objects[..i];
      DistinctPrefix(objects, i + 1);
      ok := work.Take(1);
      if !ok { return; }
      var o := objects[i];
      if o.TableObject? {
        tables := tables[TableKey(o.fields) := o.fields];
      }
      if o.ChainObject? {
        var key := ChainKey(o.fields);
        assert ChainsOf(objects[..i + 1]) == ChainsOf(objects[..i]) + [o.fields];
        assert ChainsOf(objects[..i + 1])[|order|] == o.fields;
        forall j | 0 <= j < |order| ensures order[j] != key {
          assert ChainsOf(objects[..i + 1])[j] == ChainsOf(objects[..i])[j];
        }
        chains := chains[key := Chain(o.fields, map[], [])];
        order := order + [key];
      }
    }
    assert objects[..|objects|] == objects;
    ok := true;
  }

  method AttachRules(objects: seq<Object>, index: map<Key, Chain>) returns (ok: bool, chains: map<Key, Chain>)
    requires forall k :: k in index ==> index[k].rules == []
    ensures !ok ==> exists o :: o in objects && o.RuleObject? && RuleKey(o.fields) !in index
    ensures ok ==> chains.Keys == index.Keys
    ensures ok ==> forall k :: k in index ==> chains[k] == index[k].(rules := RulesOf(objects, k))
  {
    chains := index;
    for i := 0 to |objects|
      invariant chains.Keys == index.Keys
      invariant forall k :: k in index ==> chains[k] == index[k].(rules := RulesOf(objects[..i], k))
    {
      assert objects[..i + 1][..i] == objects[..i];
      var o := objects[i];
      if o.RuleObject? {
        var key := RuleKey(o.fields);
        if key !in chains { return false, chains; }
        chains := chains[key := chains[key].(rules := chains[key].rules + [o.fields])];
      }
    }
    assert objects[..|objects|] == objects;
    ok := true;
  }

  method AttachParents(tables: map<(Json, Json), Fields>, index: map<Key, Chain>, order: seq<Key>)
    returns (ok: bool, chains: map<Key, Chain>)
    requires forall i :: 0 <= i < |order| ==> order[i] in index
    requires forall i, j :: 0 <= i < j < |order| ==> order[i] != order[j]
    ensures !ok ==> exists i :: 0 <= i < |order| && ParentKey(index[order[i]].fields) !in tables
    ensures ok ==> chains.Keys == index.Keys
    ensures ok ==> forall i :: 0 <= i < |order| ==>
              ParentKey(index[order[i]].fields) in tables
              && chains[order[i]] == index[order[i]].(parent := tables[ParentKey(index[order[i]].fields)])
  {
    chains := index;
    for i := 0 to |order|
      invariant chains.Keys == index.Keys
      invariant forall j :: i <= j < |order| ==> chains[order[j]] == index[order[j]]
      invariant forall j :: 0 <= j < i ==>
                  ParentKey(index[order[j]].fields) in tables
                  && chains[order[j]] == index[order[j]].(parent := tables[ParentKey(index[order[j]].fields)])
    {
      var parent := ParentKey(chains[order[i]].fields);
      if parent !in tables { return false, chains; }
      chains := chains[order[i] := chains[order[i]].(parent := tables[parent])];
    }
    ok := true;
  }

  method ScopePermitted(objects: seq<Object>, chains: map<Key, Chain>, order: seq<Key>, s: Spec, work: Work)
    returns (answer: Answer)
    requires ValidSpec(s) && |order| == |ChainsOf(objects)|
    requires forall i :: 0 <= i < |order| ==>
              order[i] in chains && chains[order[i]] == Assemble(objects, ChainsOf(objects)[i])
    modifies work
    ensures answer.Exhausted? ==> work.remaining < 0
    ensures !answer.Exhausted? ==> answer.Yes? == Permits(objects, s)
  {
    hide Accepts, Relevant, SupportedFamily;
    for i := 0 to |order|
      invariant forall j :: 0 <= j < i ==> ChainPermits(objects, ChainsOf(objects)[j], s)
    {
      var chain := chains[order[i]];
      assert chain.fields == ChainsOf(objects)[i];
      if !Relevant(chain.fields, s) { continue; }
      if !SupportedFamily(Family(chain.fields)) {
        assert !ChainPermits(objects, ChainsOf(objects)[i], s);
        return No;
      }
      answer := ChainAccepts(chain, s, work);
      if !answer.Yes? {
        assert answer.No? ==> !ChainPermits(objects, ChainsOf(objects)[i], s);
        return;
      }
    }
    return Yes;
  }

  /** The scopes every relevant foreign chain accepts, or nothing, and then the
      inventory is inconsistent or the work budget is spent. */
  method ProveSelectiveScopes(objects: seq<Object>, affected: set<int>, specs: seq<Spec>)
    returns (allowed: Option<seq<Spec>>, ghost spent: bool)
    requires DistinctChains(objects)
    ensures allowed.None? ==> spent || !Linked(objects)
    ensures allowed.Some? ==> allowed.value == Permitted(objects, specs, affected)
  {
    spent := false;
    if specs == [] { return Some([]), spent; }
    var work := new Work(MAX_WORK);
    var ok, tables, index, order := IndexChains(objects, work);
    if !ok { return None, work.remaining < 0; }
    var attached, withRules := AttachRules(objects, index);
    if !attached {
      IndexedKeys(objects, index, order);
      return None, spent;
    }
    var complete, chains := AttachParents(tables, withRules, order);
    if !complete { return None, spent; }
    hide Permits, Eligible, Assemble;
    var out := [];
    for i := 0 to |specs|
      invariant out == Permitted(objects, specs[..i], affected)
      invariant fresh(work)
    {
      assert specs[..i + 1][..i] == specs[..i];
      var s := specs[i];
      if !Eligible(s, affected) { continue; }
      AssembledChains(objects, tables, index, withRules, chains, order);
      EligibleIsValid(s, affected);
      var answer := ScopePermitted(objects, chains, order, s, work);
      if answer.Exhausted? { return None, work.remaining < 0; }
      if answer.Yes? { out := out + [s]; }
    }
    assert specs[..|specs|] == specs;
    return Some(out), spent;
  }

  lemma IndexedKeys(objects: seq<Object>, index: map<Key, Chain>, order: seq<Key>)
    requires Indexed(index, order, objects)
    ensures forall c :: c in ChainsOf(objects) ==> ChainKey(c) in index
  {
  }

  lemma EligibleIsValid(s: Spec, affected: set<int>)
    requires Eligible(s, affected)
    ensures ValidSpec(s)
  {
  }

  lemma AssembledChains(objects: seq<Object>, tables: map<(Json, Json), Fields>, index: map<Key, Chain>,
                        withRules: map<Key, Chain>, chains: map<Key, Chain>, order: seq<Key>)
    requires Indexed(index, order, objects) && withRules.Keys == index.Keys && chains.Keys == withRules.Keys
    requires forall k :: TableOf(objects, k) == if k in tables then Some(tables[k]) else None
    requires forall k :: k in index ==> withRules[k] == index[k].(rules := RulesOf(objects, k))
    requires forall i :: 0 <= i < |order| ==>
               ParentKey(withRules[order[i]].fields) in tables
               && chains[order[i]] == withRules[order[i]].(parent := tables[ParentKey(withRules[order[i]].fields)])
    ensures |order| == |ChainsOf(objects)|
    ensures forall i :: 0 <= i < |order| ==>
              order[i] in chains && chains[order[i]] == Assemble(objects, ChainsOf(objects)[i])
  {
  }

  /** A permitted scope covers only accepted traffic: every packet of every flow
      of every scope it covers passes every relevant foreign chain. */
  lemma PermittedIsAccepted(objects: seq<Object>, affected: set<int>, specs: seq<Spec>, allowed: Spec, actual: Spec,
                            i: nat, priority: int, f: Flow, p: Packet)
    requires allowed in Permitted(objects, specs, affected) && ScopeCovers(allowed, actual) && FlowOf(actual, f)
    requires i < |ChainsOf(objects)| && Relevant(ChainsOf(objects)[i], actual)
    requires Priority(Get(ChainsOf(objects)[i], "prio")) == Some(priority)
    requires Seen(f, Hook(ChainsOf(objects)[i]), priority, p)
    ensures var chain := Assemble(objects, ChainsOf(objects)[i]);
            RunChain(chain.rules, Get(chain.fields, "policy"), p) == Accept
  {
    PermittedMembers(objects, specs, affected, allowed);
    assert FlowOf(allowed, f);
    assert ChainPermits(objects, ChainsOf(objects)[i], allowed);
    AcceptsIsSound(Assemble(objects, ChainsOf(objects)[i]), allowed, f, p);
  }

  lemma {:induction false} PermittedMembers(objects: seq<Object>, specs: seq<Spec>, affected: set<int>, s: Spec)
    ensures s in Permitted(objects, specs, affected) <==> s in specs && Eligible(s, affected) && Permits(objects, s)
  {
    hide Permits, Eligible;
    if specs != [] {
      PermittedMembers(objects, specs[..|specs| - 1], affected, s);
      assert specs == specs[..|specs| - 1] + [specs[|specs| - 1]];
    }
  }
}
