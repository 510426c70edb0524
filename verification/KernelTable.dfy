/** The managed kernel table: what it should hold, the transactions that write it,
    and the readback that accepts it. */
module KernelTable {
  import opened NftSpecs
  import opened Journal

  datatype Hook = Prerouting | Output | Postrouting | Forward

  datatype ChainName = Base(hook: Hook) | State

  /** One installed rule: exactly the fields that appear in its text. */
  datatype Installed =
    | Redirect(hook: Hook, scope: Spec)
    | Masquerade(reply: Reply)
    | Admit(reply: Reply)
    | Accelerate(reply: Reply, listen: Option<Addr>, listenPort: int, listenLast: int)
    | Record(role: Role, scope: Spec)
  {
    function Chain(): ChainName {
      match this
      case Redirect(hook, _) => Base(hook)
      case Masquerade(_) => Base(Postrouting)
      case Admit(_) => Base(Forward)
      case Accelerate(_, _, _, _) => Base(Forward)
      case Record(_, _) => State
    }
  }

  /** What a rule after redirection matches on. */
  datatype Reply = Reply(ruleId: string, family: int, protocol: Transport, mark: nat, target: Addr, port: int,
                         last: int)

  function ReplyOf(s: Spec): Reply {
    Reply(s.ruleId, s.family, s.protocol, s.mark, s.targetHost, s.targetPort, s.LastTargetPort())
  }

  function ForwardRule(s: Spec): Installed {
    if s.flow then Accelerate(ReplyOf(s), if s.listenHost.Unspecified() then None else Some(s.listenHost),
                              s.listenPort, s.LastPort())
    else Admit(ReplyOf(s))
  }

  function RulesFor(s: Spec): seq<Installed> {
    [Redirect(Prerouting, s.Key()), Redirect(Output, s.Key()), Masquerade(ReplyOf(s)), ForwardRule(s)]
  }

  function Traffic(specs: seq<Spec>): seq<Installed> {
    if specs == [] then [] else Traffic(specs[..|specs| - 1]) + RulesFor(specs[|specs| - 1])
  }

  function RecordsOf(role: Role, specs: seq<Spec>): seq<Installed> {
    seq(|specs|, i requires 0 <= i < |specs| => Record(role, Explicit(specs[i])))
  }

  /** What the backend wants the table to be. */
  datatype Goal = Goal(active: seq<Spec>, retired: seq<Spec>, suspended: seq<Spec>, keepFlowtable: bool,
                       devices: set<string>, binding: string, owner: nat)
  {
    predicate Empty() { active == [] && retired == [] && suspended == [] }

    predicate UsesFlowtable() { keepFlowtable || exists s :: s in active && s.flow }

    /** Devices are discovered exactly when they are needed, and then some exist. */
    predicate Discovered() { UsesFlowtable() <==> devices != {} }

    function Records(): seq<Installed> {
      RecordsOf(Active, active) + RecordsOf(Retired, retired) + RecordsOf(Suspended, suspended)
    }

    function Chains(): set<ChainName> {
      {Base(Prerouting), Base(Output), Base(Postrouting), Base(Forward)} + if Empty() then {} else {State}
    }

    function Wanted(): multiset<Installed> {
      multiset(Traffic(active)) + multiset(Records())
    }
  }

  // ----- Tables and transactions -----

  datatype Table = Table(owner: nat, chains: map<ChainName, string>, rules: seq<Installed>,
                         flowtable: Option<set<string>>)

  type Kernel = Option<Table>

  datatype Command =
    | DeleteTable
    | AddTable(owner: nat)
    | AddChain(name: ChainName, comment: string)
    | AddFlowtable(devices: set<string>)
    | FlushChain(name: ChainName)
    | AddRule(rule: Installed)

  function Without(rules: seq<Installed>, chain: ChainName): seq<Installed> {
    if rules == [] then [] else
      var last := rules[|rules| - 1];
      Without(rules[..|rules| - 1], chain) + if last.Chain() == chain then [] else [last]
  }

  /** One command; `None` when the kernel rejects it. */
  function Step(k: Kernel, c: Command): Option<Kernel> {
    match c
    case DeleteTable => if k.None? then None else Some(None)
    case AddTable(owner) => if k.Some? then None else Some(Some(Table(owner, map[], [], None)))
    case AddChain(name, comment) =>
      if k.None? || name in k.value.chains then None
      else Some(Some(k.value.(chains := k.value.chains[name := comment])))
    case AddFlowtable(devices) =>
      if k.None? || k.value.flowtable.Some? then None else Some(Some(k.value.(flowtable := Some(devices))))
    case FlushChain(name) =>
      if k.None? || name !in k.value.chains then None
      else Some(Some(k.value.(rules := Without(k.value.rules, name))))
    case AddRule(rule) =>
      if k.None? || rule.Chain() !in k.value.chains || (rule.Accelerate? && k.value.flowtable.None?) then None
      else Some(Some(k.value.(rules := k.value.rules + [rule])))
  }

  /** A transaction: all of its commands, or none. */
  function Exec(k: Kernel, script: seq<Command>): Option<Kernel> {
    if script == [] then Some(k) else
      var before := Exec(k, script[..|script| - 1]);
      if before.None? then None else Step(before.value, script[|script| - 1])
  }

  function AddRules(rules: seq<Installed>): seq<Command> {
    seq(|rules|, i requires 0 <= i < |rules| => AddRule(rules[i]))
  }

  // ----- The three scripts -----

  function RebuildScript(goal: Goal, present: bool): seq<Command> {
    (if present then [DeleteTable] else [])
    + [AddTable(goal.owner), AddChain(Base(Prerouting), ""), AddChain(Base(Output), ""),
       AddChain(Base(Postrouting), "")]
    + (if goal.UsesFlowtable() then [AddFlowtable(goal.devices)] else [])
    + [AddChain(Base(Forward), "")]
    + AddRules(Traffic(goal.active))
    + (if goal.Empty() then [] else [AddChain(State, goal.binding)] + AddRules(goal.Records()))
  }

  function JournalScript(goal: Goal): seq<Command> {
    [FlushChain(State)] + AddRules(goal.Records())
  }

  function RefreshScript(goal: Goal): seq<Command> {
    [FlushChain(Base(Prerouting)), FlushChain(Base(Output)), FlushChain(Base(Postrouting)), FlushChain(Base(Forward))]
    + AddRules(Traffic(goal.active))
    + if goal.Empty() then [] else JournalScript(goal)
  }

  method WriteRules(specs: seq<Spec>) returns (script: seq<Command>)
    ensures script == AddRules(Traffic(specs))
  {
    script := [];
    for i := 0 to |specs|
      invariant script == AddRules(Traffic(specs[..i]))
    {
      assert specs[..i + 1][..i] == specs[..i];
      var rules := RulesFor(specs[i]);
      script := script + [AddRule(rules[0]), AddRule(rules[1]), AddRule(rules[2]), AddRule(rules[3])];
    }
    assert specs[..|specs|] == specs;
  }

  method WriteRecords(role: Role, specs: seq<Spec>) returns (script: seq<Command>)
    ensures script == AddRules(RecordsOf(role, specs))
  {
    script := [];
    for i := 0 to |specs|
      invariant script == AddRules(RecordsOf(role, specs[..i]))
    {
      script := script + [AddRule(Record(role, Explicit(specs[i])))];
      assert RecordsOf(role, specs[..i + 1]) == RecordsOf(role, specs[..i]) + [Record(role, Explicit(specs[i]))];
    }
    assert specs[..|specs|] == specs;
  }

  method WriteJournal(goal: Goal, create: bool) returns (script: seq<Command>)
    ensures script == (if create then [AddChain(State, goal.binding)] else [FlushChain(State)])
              + AddRules(goal.Records())
  {
    var a := WriteRecords(Active, goal.active);
    var r := WriteRecords(Retired, goal.retired);
    var s := WriteRecords(Suspended, goal.suspended);
    script := (if create then [AddChain(State, goal.binding)] else [FlushChain(State)]) + (a + r + s);
    assert a + r + s == AddRules(goal.Records());
  }

  // ----- What a script leaves behind -----

  /** The table holds what the goal wants, whatever the order of the rules. */
  ghost predicate Describes(t: Table, goal: Goal) {
    && t.owner == goal.owner
    && t.chains.Keys == goal.Chains()
    && (goal.binding != "" && State in t.chains ==> t.chains[State] == goal.binding)
    && multiset(t.rules) == goal.Wanted()
    && t.flowtable == if goal.UsesFlowtable() then Some(goal.devices) else None
  }

  lemma {:induction false} ExecConcat(k: Kernel, a: seq<Command>, b: seq<Command>)
    ensures Exec(k, a + b) == if Exec(k, a).None? then None else Exec(Exec(k, a).value, b)
    decreases |b|
  {
    if b == [] {
      assert a + b == a;
    } else {
      var rest := b[..|b| - 1];
      ExecConcat(k, a, rest);
      assert (a + b)[..|a + b| - 1] == a + rest;
    }
  }

  predicate Addable(t: Table, r: Installed) {
    r.Chain() in t.chains && (r.Accelerate? ==> t.flowtable.Some?)
  }

  /** Adding rules appends them, if their chains and the flowtable are there. */
  lemma {:induction false} ExecAddRules(t: Table, rules: seq<Installed>)
    requires forall r :: r in rules ==> Addable(t, r)
    ensures Exec(Some(t), AddRules(rules)) == Some(Some(t.(rules := t.rules + rules)))
  {
    if rules == [] {
      assert t.rules + rules == t.rules;
    } else {
      var rest, last := rules[..|rules| - 1], rules[|rules| - 1];
      ExecAddRules(t, rest);
      assert AddRules(rules)[..|rest|] == AddRules(rest);
      assert AddRules(rules)[|rest|] == AddRule(last);
      assert t.rules + rest + [last] == t.rules + rules;
      assert last in rules;
    }
  }

  lemma {:induction false} TrafficAddable(specs: seq<Spec>, r: Installed)
    requires r in Traffic(specs)
    ensures r.Chain() in {Base(Prerouting), Base(Output), Base(Postrouting), Base(Forward)}
    ensures r.Accelerate? ==> exists s :: s in specs && s.flow
  {
    var rest, last := specs[..|specs| - 1], specs[|specs| - 1];
    if r in Traffic(rest) {
      TrafficAddable(rest, r);
    }
  }

  lemma {:induction false} WithoutKeepsOthers(rules: seq<Installed>, chain: ChainName)
    ensures forall r :: multiset(Without(rules, chain))[r] == if r.Chain() == chain then 0 else multiset(rules)[r]
  {
    if rules != [] {
      var rest, last := rules[..|rules| - 1], rules[|rules| - 1];
      WithoutKeepsOthers(rest, chain);
      assert rules == rest + [last];
    }
  }

  lemma RecordsAreState(goal: Goal, r: Installed)
    requires r in goal.Records()
    ensures r.Record? && !goal.Empty()
  {
  }

  /** Rules of the four base chains of a table that fits a goal. */
  lemma WantedSplit(goal: Goal, r: Installed)
    ensures r.Chain() == State ==> multiset(Traffic(goal.active))[r] == 0
    ensures r.Chain() != State ==> multiset(goal.Records())[r] == 0
  {
    if r in Traffic(goal.active) { TrafficAddable(goal.active, r); }
    if r in goal.Records() { RecordsAreState(goal, r); }
  }

  lemma {:induction false} RecordsCount(role: Role, specs: seq<Spec>, other: Role, x: Spec)
    ensures multiset(RecordsOf(role, specs))[Record(other, x)] == if role == other then multiset(ExplicitAll(specs))[x]
            else 0
  {
    if specs != [] {
      var rest, last := specs[..|specs| - 1], specs[|specs| - 1];
      RecordsCount(role, rest, other, x);
      assert RecordsOf(role, specs) == RecordsOf(role, rest) + [Record(role, Explicit(last))];
      assert ExplicitAll(specs) == ExplicitAll(rest) + [Explicit(last)];
    }
  }

  lemma WantedRecord(goal: Goal, role: Role, x: Spec)
    ensures var specs := match role
                         case Active => goal.active
                         case Retired => goal.retired
                         case Suspended => goal.suspended;
            goal.Wanted()[Record(role, x)] == multiset(ExplicitAll(specs))[x]
  {
    WantedSplit(goal, Record(role, x));
    RecordsCount(Active, goal.active, role, x);
    RecordsCount(Retired, goal.retired, role, x);
    RecordsCount(Suspended, goal.suspended, role, x);
    hide RecordsOf, Traffic, ExplicitAll;
    var r := Record(role, x);
    assert multiset(goal.Records())[r] == multiset(RecordsOf(Active, goal.active))[r]
        + multiset(RecordsOf(Retired, goal.retired))[r]
                                          + multiset(RecordsOf(Suspended, goal.suspended))[r];
  }

  /** The table determines which scopes it holds in which role, up to order: two
      goals that describe it agree on every list. */
  lemma RolesAreDetermined(t: Table, one: Goal, two: Goal)
    requires Describes(t, one) && Describes(t, two)
    ensures multiset(ExplicitAll(one.active)) == multiset(ExplicitAll(two.active))
    ensures multiset(ExplicitAll(one.retired)) == multiset(ExplicitAll(two.retired))
    ensures multiset(ExplicitAll(one.suspended)) == multiset(ExplicitAll(two.suspended))
  {
    hide Goal.Wanted, Goal.UsesFlowtable, Goal.Chains, ExplicitAll;
    assert one.Wanted() == two.Wanted();
    hide Describes;
    forall x: Spec
      ensures multiset(ExplicitAll(one.active))[x] == multiset(ExplicitAll(two.active))[x]
      ensures multiset(ExplicitAll(one.retired))[x] == multiset(ExplicitAll(two.retired))[x]
      ensures multiset(ExplicitAll(one.suspended))[x] == multiset(ExplicitAll(two.suspended))[x]
    {
      WantedRecord(one, Active, x);
      WantedRecord(two, Active, x);
      WantedRecord(one, Retired, x);
      WantedRecord(two, Retired, x);
      WantedRecord(one, Suspended, x);
      WantedRecord(two, Suspended, x);
    }
  }

  // ----- Full rebuild -----

  lemma RebuildReaches(k: Kernel, goal: Goal) returns (t: Table)
    requires !goal.Empty()
    ensures Exec(k, RebuildScript(goal, k.Some?)) == Some(Some(t)) && Describes(t, goal)
  {
    hide Traffic, Exec, RecordsOf;
    var start := (if k.Some? then [DeleteTable] else [])
      + [AddTable(goal.owner), AddChain(Base(Prerouting), ""), AddChain(Base(Output), ""),
         AddChain(Base(Postrouting), "")]
      + (if goal.UsesFlowtable() then [AddFlowtable(goal.devices)] else []) + [AddChain(Base(Forward), "")];
    var base := RebuildBase(k, goal, start);
    forall r | r in Traffic(goal.active) ensures Addable(base, r) { TrafficAddable(goal.active, r); }
    var full := ThenRules(k, start, base, Traffic(goal.active));
    var open := full.(chains := full.chains[State := goal.binding]);
    var more := Then(k, start + AddRules(Traffic(goal.active)), Some(full), AddChain(State, goal.binding), Some(open));
    forall r | r in goal.Records() ensures Addable(open, r) { RecordsAreState(goal, r); }
    t := ThenRules(k, more, open, goal.Records());
    hide Goal.Records, Step;
    assert RebuildScript(goal, k.Some?) == more + AddRules(goal.Records());
    assert t.rules == Traffic(goal.active) + goal.Records();
    HoldsWanted(t.rules, goal);
    hide Goal.Wanted;
  }

  lemma HoldsWanted(rules: seq<Installed>, goal: Goal)
    requires multiset(rules) == multiset(Traffic(goal.active) + goal.Records())
    ensures multiset(rules) == goal.Wanted()
  {
  }

  /** Appending rules to a transaction that has reached a table. */
  lemma ThenRules(k: Kernel, done: seq<Command>, t: Table, rules: seq<Installed>) returns (more: Table)
    requires Exec(k, done) == Some(Some(t)) && forall r :: r in rules ==> Addable(t, r)
    ensures more == t.(rules := t.rules + rules) && Exec(k, done + AddRules(rules)) == Some(Some(more))
  {
    ExecConcat(k, done, AddRules(rules));
    ExecAddRules(t, rules);
    more := t.(rules := t.rules + rules);
  }

  lemma ExecOne(k: Kernel, c: Command)
    ensures Exec(k, [c]) == Step(k, c)
  {
    assert [c][..0] == [];
    assert Exec(k, []) == Some(k);
  }

  lemma RebuildBase(k: Kernel, goal: Goal, script: seq<Command>) returns (t: Table)
    requires script == (if k.Some? then [DeleteTable] else [])
      + [AddTable(goal.owner), AddChain(Base(Prerouting), ""), AddChain(Base(Output), ""),
         AddChain(Base(Postrouting), "")]
      + (if goal.UsesFlowtable() then [AddFlowtable(goal.devices)] else [])
      + [AddChain(Base(Forward), "")]
    ensures Exec(k, script) == Some(Some(t))
    ensures t.owner == goal.owner && t.rules == []
    ensures t.chains.Keys == {Base(Prerouting), Base(Output), Base(Postrouting), Base(Forward)}
    ensures t.flowtable == if goal.UsesFlowtable() then Some(goal.devices) else None
  {
    var clear := if k.Some? then [DeleteTable] else [];
    if k.Some? { ExecOne(k, DeleteTable); }
    assert Exec(k, clear) == Some(None);
    t := Table(goal.owner, map[], [], None);
    var done := clear;
    done := Then(k, done, None, AddTable(goal.owner), Some(t));
    t := t.(chains := t.chains[Base(Prerouting) := ""]);
    done := Then(k, done, Some(t.(chains := map[])), AddChain(Base(Prerouting), ""), Some(t));
    var t2 := t.(chains := t.chains[Base(Output) := ""]);
    done := Then(k, done, Some(t), AddChain(Base(Output), ""), Some(t2));
    var t3 := t2.(chains := t2.chains[Base(Postrouting) := ""]);
    done := Then(k, done, Some(t2), AddChain(Base(Postrouting), ""), Some(t3));
    var t4 := t3;
    if goal.UsesFlowtable() {
      t4 := t3.(flowtable := Some(goal.devices));
      done := Then(k, done, Some(t3), AddFlowtable(goal.devices), Some(t4));
    }
    t := t4.(chains := t4.chains[Base(Forward) := ""]);
    done := Then(k, done, Some(t4), AddChain(Base(Forward), ""), Some(t));
    assert done == script;
  }

  lemma Then(k: Kernel, done: seq<Command>, now: Kernel, c: Command, next: Kernel) returns (more: seq<Command>)
    requires Exec(k, done) == Some(now) && Step(now, c) == Some(next)
    ensures more == done + [c] && Exec(k, more) == Some(next)
  {
    more := done + [c];
    assert more[..|done|] == done;
  }

  // ----- The incremental scripts -----

  /** Where the last element of one list is in a permutation of it. */
  lemma FindLast(xs: seq<Spec>, ys: seq<Spec>) returns (i: nat)
    requires multiset(xs) == multiset(ys) && xs != []
    ensures i < |ys| && ys[i] == xs[|xs| - 1] && ys == ys[..i] + [ys[i]] + ys[i + 1..]
    ensures multiset(xs[..|xs| - 1]) == multiset(ys[..i] + ys[i + 1..])
  {
    var last := xs[|xs| - 1];
    assert last in multiset(xs);
    i :| 0 <= i < |ys| && ys[i] == last;
    assert xs == xs[..|xs| - 1] + [last];
    assert ys == ys[..i] + [last] + ys[i + 1..];
    assert multiset(ys) - multiset{last} == multiset(ys[..i] + ys[i + 1..]);
    assert multiset(xs) - multiset{last} == multiset(xs[..|xs| - 1]);
  }

  lemma SameEmpty(ys: seq<Spec>)
    requires multiset(ys) == multiset{}
    ensures ys == []
  {
    assert |multiset(ys)| == |ys|;
  }

  /** The rules of a list of scopes do not depend on its order. */
  lemma {:induction false} TrafficOfSame(xs: seq<Spec>, ys: seq<Spec>)
    requires multiset(xs) == multiset(ys)
    ensures multiset(Traffic(xs)) == multiset(Traffic(ys))
    decreases |xs|
  {
    if xs == [] {
      SameEmpty(ys);
    } else {
      var i := FindLast(xs, ys);
      TrafficOfSame(xs[..|xs| - 1], ys[..i] + ys[i + 1..]);
      TrafficMoves(ys[..i], ys[i], ys[i + 1..]);
    }
  }

  lemma {:induction false} TrafficMoves(xs: seq<Spec>, s: Spec, ys: seq<Spec>)
    ensures multiset(Traffic(xs + [s] + ys)) == multiset(Traffic(xs + ys)) + multiset(RulesFor(s))
    decreases |ys|
  {
    hide RulesFor;
    if ys == [] {
      assert (xs + [s] + ys)[..|xs|] == xs && xs + ys == xs && xs + [s] + ys == xs + [s];
    } else {
      var rest, last := ys[..|ys| - 1], ys[|ys| - 1];
      TrafficMoves(xs, s, rest);
      assert (xs + [s] + ys)[..|xs| + |ys|] == xs + [s] + rest;
      assert (xs + ys)[..|xs| + |rest|] == xs + rest;
    }
  }

  lemma {:induction false} RecordsOfSame(role: Role, xs: seq<Spec>, ys: seq<Spec>)
    requires multiset(xs) == multiset(ys)
    ensures multiset(RecordsOf(role, xs)) == multiset(RecordsOf(role, ys))
    decreases |xs|
  {
    if xs == [] {
      SameEmpty(ys);
    } else {
      var i := FindLast(xs, ys);
      RecordsOfSame(role, xs[..|xs| - 1], ys[..i] + ys[i + 1..]);
      RecordsMove(role, xs[..|xs| - 1], xs[|xs| - 1], []);
      RecordsMove(role, ys[..i], ys[i], ys[i + 1..]);
      assert xs == xs[..|xs| - 1] + [xs[|xs| - 1]] + [];
      assert xs[..|xs| - 1] + [] == xs[..|xs| - 1];
    }
  }

  lemma RecordsMove(role: Role, xs: seq<Spec>, s: Spec, ys: seq<Spec>)
    ensures multiset(RecordsOf(role, xs + [s] + ys)) == multiset(RecordsOf(role, xs + ys))
              + multiset{Record(role, Explicit(s))}
  {
    assert RecordsOf(role, xs + [s] + ys) == RecordsOf(role, xs) + [Record(role, Explicit(s))] + RecordsOf(role, ys);
    assert RecordsOf(role, xs + ys) == RecordsOf(role, xs) + RecordsOf(role, ys);
  }

  /** Same devices and the same discovery: both goals agree on the flowtable. */
  ghost predicate Compatible(was: Goal, goal: Goal) {
    && !was.Empty() && !goal.Empty() && was.Discovered() && goal.Discovered()
    && was.devices == goal.devices && was.owner == goal.owner
  }

  /** The journal's binding is already the wanted one. */
  ghost predicate Bound(t: Table, goal: Goal) {
    State in t.chains && t.chains[State] == goal.binding
  }

  lemma FlushState(t: Table, was: Goal) returns (flushed: Table)
    requires Describes(t, was) && !was.Empty()
    ensures flushed == t.(rules := Without(t.rules, State)) && Step(Some(t), FlushChain(State)) == Some(Some(flushed))
    ensures multiset(flushed.rules) == multiset(Traffic(was.active))
  {
    flushed := t.(rules := Without(t.rules, State));
    OnlyTraffic(t.rules, was);
  }

  /** Without the journal only traffic rules remain, and the other way round. */
  lemma OnlyTraffic(rules: seq<Installed>, goal: Goal)
    requires multiset(rules) == goal.Wanted()
    ensures multiset(Without(rules, State)) == multiset(Traffic(goal.active))
  {
    hide Traffic, Without, Goal.Records;
    WithoutKeepsOthers(rules, State);
    forall r ensures multiset(Without(rules, State))[r] == multiset(Traffic(goal.active))[r] { WantedSplit(goal, r); }
  }

  lemma OnlyRecords(rules: seq<Installed>, goal: Goal)
    requires multiset(rules) == goal.Wanted()
    ensures multiset(WithoutBase(rules)) == multiset(goal.Records())
  {
    hide Traffic, Without, Goal.Records;
    var r1 := Without(rules, Base(Prerouting));
    var r2 := Without(r1, Base(Output));
    var r3 := Without(r2, Base(Postrouting));
    WithoutKeepsOthers(rules, Base(Prerouting));
    WithoutKeepsOthers(r1, Base(Output));
    WithoutKeepsOthers(r2, Base(Postrouting));
    WithoutKeepsOthers(r3, Base(Forward));
    forall r ensures multiset(WithoutBase(rules))[r] == multiset(goal.Records())[r] {
      WantedSplit(goal, r);
      assert r.Chain().Base? ==>
        r.Chain().hook.Prerouting? || r.Chain().hook.Output? || r.Chain().hook.Postrouting? || r.Chain().hook.Forward?;
    }
  }

  function WithoutBase(rules: seq<Installed>): seq<Installed> {
    Without(Without(Without(Without(rules, Base(Prerouting)), Base(Output)), Base(Postrouting)), Base(Forward))
  }

  lemma JournalReaches(t: Table, was: Goal, goal: Goal) returns (next: Table)
    requires Describes(t, was) && Compatible(was, goal) && Bound(t, goal)
    requires multiset(was.active) == multiset(goal.active)
    ensures Exec(Some(t), JournalScript(goal)) == Some(Some(next)) && Describes(next, goal)
  {
    hide Traffic, Exec, Without, RecordsOf;
    var flushed := FlushState(t, was);
    ExecOne(Some(t), FlushChain(State));
    forall r | r in goal.Records() ensures Addable(flushed, r) { RecordsAreState(goal, r); }
    next := ThenRules(Some(t), [FlushChain(State)], flushed, goal.Records());
    TrafficOfSame(was.active, goal.active);
  }

  /** After the four base chains are flushed only the journal is left. */
  lemma FlushBase(t: Table, was: Goal) returns (flushed: Table)
    requires Describes(t, was) && !was.Empty()
    ensures Exec(Some(t), [FlushChain(Base(Prerouting)), FlushChain(Base(Output)), FlushChain(Base(Postrouting)),
                           FlushChain(Base(Forward))])
            == Some(Some(flushed))
    ensures flushed == t.(rules := flushed.rules) && multiset(flushed.rules) == multiset(was.Records())
  {
    hide Without, Exec, Traffic;
    var r1 := Without(t.rules, Base(Prerouting));
    var r2 := Without(r1, Base(Output));
    var r3 := Without(r2, Base(Postrouting));
    var r4 := Without(r3, Base(Forward));
    flushed := t.(rules := r4);
    ExecOne(Some(t), FlushChain(Base(Prerouting)));
    var done := [FlushChain(Base(Prerouting))];
    done := Then(Some(t), done, Some(t.(rules := r1)), FlushChain(Base(Output)), Some(t.(rules := r2)));
    done := Then(Some(t), done, Some(t.(rules := r2)), FlushChain(Base(Postrouting)), Some(t.(rules := r3)));
    done := Then(Some(t), done, Some(t.(rules := r3)), FlushChain(Base(Forward)), Some(flushed));
    assert done == [FlushChain(Base(Prerouting)), FlushChain(Base(Output)), FlushChain(Base(Postrouting)),
                    FlushChain(Base(Forward))];
    OnlyRecords(t.rules, was);
  }

  lemma StillTraffic(left: seq<Installed>, was: Goal, goal: Goal, rules: seq<Installed>)
    requires multiset(left) == multiset(was.Records()) && rules == left + Traffic(goal.active)
    ensures multiset(Without(rules, State)) == multiset(Traffic(goal.active))
  {
    hide Traffic, Without, Goal.Records;
    WithoutKeepsOthers(rules, State);
    forall r ensures multiset(Without(rules, State))[r] == multiset(Traffic(goal.active))[r] {
      WantedSplit(was, r);
      WantedSplit(goal, r);
    }
  }

  lemma RefreshReaches(t: Table, was: Goal, goal: Goal) returns (next: Table)
    requires Describes(t, was) && Compatible(was, goal) && Bound(t, goal)
    ensures Exec(Some(t), RefreshScript(goal)) == Some(Some(next)) && Describes(next, goal)
  {
    hide Traffic, Without;
    var start := [FlushChain(Base(Prerouting)), FlushChain(Base(Output)), FlushChain(Base(Postrouting)),
                  FlushChain(Base(Forward))];
    var flushed := FlushBase(t, was);
    hide Exec;
    forall r | r in Traffic(goal.active) ensures Addable(flushed, r) { TrafficAddable(goal.active, r); }
    var full := ThenRules(Some(t), start, flushed, Traffic(goal.active));
    var bare := full.(rules := Without(full.rules, State));
    StillTraffic(flushed.rules, was, goal, full.rules);
    var more := Then(Some(t), start + AddRules(Traffic(goal.active)), Some(full), FlushChain(State), Some(bare));
    forall r | r in goal.Records() ensures Addable(bare, r) { RecordsAreState(goal, r); }
    next := ThenRules(Some(t), more, bare, goal.Records());
    assert RefreshScript(goal) == more + AddRules(goal.Records());
  }

  // ----- Choosing a script -----

  /** The key of an applied state; two keys agree when the lists do, in any order. */
  datatype StateKey = StateKey(active: multiset<Spec>, retired: multiset<Spec>, suspended: multiset<Spec>, keep: bool,
                               binding: string)

  function KeyOf(goal: Goal): StateKey {
    StateKey(multiset(goal.active), multiset(goal.retired), multiset(goal.suspended), goal.keepFlowtable, goal.binding)
  }

  /** What the backend remembers of its last verified write. */
  datatype Memory = Memory(initialized: bool, devices: set<string>, applied: StateKey)

  datatype Strategy = NoOp | JournalOnly | Refresh | Rebuild

  function Choose(memory: Memory, k: Kernel, fingerprintSame: bool, goal: Goal): Strategy {
    var canRefresh := k.Some? && memory.initialized && memory.devices == goal.devices && fingerprintSame
                      && (if State in k.value.chains then k.value.chains[State] else "") == goal.binding;
    if !canRefresh then Rebuild
    else if KeyOf(goal) == memory.applied then NoOp
    else if memory.applied.active == multiset(goal.active) then JournalOnly
    else Refresh
  }

  function ScriptOf(strategy: Strategy, k: Kernel, goal: Goal): seq<Command> {
    match strategy
    case NoOp => []
    case JournalOnly => JournalScript(goal)
    case Refresh => RefreshScript(goal)
    case Rebuild => RebuildScript(goal, k.Some?)
  }

  /** Whichever way the backend chooses, the transaction is accepted, leaves what
      a full rebuild would leave, and every unaltered listing of the result passes
      the readback comparison. An unchanged fingerprint means that the
      table still holds what was last written and verified. */
  lemma EveryStrategyReaches(memory: Memory, k: Kernel, fingerprintSame: bool, was: Goal, goal: Goal)
    returns (t: Table, rebuilt: Table)
    requires !goal.Empty() && goal.Discovered()
    requires k.Some? && memory.initialized && fingerprintSame ==>
               Describes(k.value, was) && !was.Empty() && was.Discovered() && was.owner == goal.owner
               && memory.devices == was.devices && memory.applied == KeyOf(was)
    ensures Exec(k, ScriptOf(Choose(memory, k, fingerprintSame, goal), k, goal)) == Some(Some(t)) && Describes(t, goal)
    ensures Exec(k, RebuildScript(goal, k.Some?)) == Some(Some(rebuilt)) && SameTable(t, rebuilt, goal)
    ensures forall objects :: Lists(objects, t) && Plain(objects) ==> Matches(objects, goal)
  {
    hide RebuildScript, JournalScript, RefreshScript, Exec, Traffic;
    rebuilt := RebuildReaches(k, goal);
    match Choose(memory, k, fingerprintSame, goal) {
      case NoOp =>
        t := k.value;
        ExecNothing(k);
        SameWanted(was, goal);
      case JournalOnly => t := JournalReaches(k.value, was, goal);
      case Refresh => t := RefreshReaches(k.value, was, goal);
      case Rebuild => t := rebuilt;
    }
    hide *;
    forall objects | Lists(objects, t) && Plain(objects) ensures Matches(objects, goal) {
      AcceptedIsDescribed(objects, t, goal);
    }
  }

  lemma ExecNothing(k: Kernel)
    ensures Exec(k, []) == Some(k)
  {
  }

  lemma SameWanted(was: Goal, goal: Goal)
    requires KeyOf(was) == KeyOf(goal)
    ensures was.Wanted() == goal.Wanted() && was.UsesFlowtable() == goal.UsesFlowtable()
  {
    TrafficOfSame(was.active, goal.active);
    RecordsOfSame(Active, was.active, goal.active);
    RecordsOfSame(Retired, was.retired, goal.retired);
    RecordsOfSame(Suspended, was.suspended, goal.suspended);
    forall s ensures s in was.active <==> s in goal.active {
      assert s in multiset(was.active) <==> s in multiset(goal.active);
    }
  }

  ghost predicate SameTable(t: Table, u: Table, goal: Goal) {
    && t.owner == u.owner && t.chains.Keys == u.chains.Keys && multiset(t.rules) == multiset(u.rules)
        && t.flowtable == u.flowtable
    && (goal.binding != "" && State in t.chains ==> t.chains[State] == u.chains[State])
  }

  // ----- Readback -----

  /** An object of the observed table. */
  datatype Object =
    | Descriptor(owner: nat)
    | Chain(name: Option<ChainName>, conforming: bool, comment: string)
    | Rule(rule: Installed)
    | Flowtable(conforming: bool, devices: set<string>)
    | Foreign

  /** The object by itself is one the goal allows. */
  predicate Conforms(o: Object, goal: Goal) {
    match o
    case Descriptor(owner) => owner == goal.owner
    case Chain(name, conforming, comment) =>
      name.Some? && name.value in goal.Chains() && conforming
          && (name.value.State? && goal.binding != "" ==> comment == goal.binding)
    case Rule(_) => true
    case Flowtable(conforming, devices) => conforming && devices == goal.devices
    case Foreign => false
  }

  function Tables(objects: seq<Object>): nat {
    if objects == [] then 0 else Tables(objects[..|objects| - 1]) + if objects[|objects| - 1].Descriptor? then 1 else 0
  }

  function Flows(objects: seq<Object>): nat {
    if objects == [] then 0 else Flows(objects[..|objects| - 1]) + if objects[|objects| - 1].Flowtable? then 1 else 0
  }

  function ChainsIn(objects: seq<Object>): multiset<ChainName> {
    if objects == [] then multiset{} else
      var o := objects[|objects| - 1];
      ChainsIn(objects[..|objects| - 1]) + if o.Chain? && o.name.Some? then multiset{o.name.value} else multiset{}
  }

  function RulesIn(objects: seq<Object>): multiset<Installed> {
    if objects == [] then multiset{} else
      var o := objects[|objects| - 1];
      RulesIn(objects[..|objects| - 1]) + if o.Rule? then multiset{o.rule} else multiset{}
  }

  /** The objects are exactly the goal's: one owned descriptor, each chain once,
      the flowtable if and only if it is used, and the wanted rules, each as often
      as wanted. */
  ghost predicate Matches(objects: seq<Object>, goal: Goal) {
    && (forall o :: o in objects ==> Conforms(o, goal))
    && Tables(objects) == 1
    && ChainsIn(objects) == multiset(goal.Chains())
    && Flows(objects) == (if goal.UsesFlowtable() then 1 else 0)
    && RulesIn(objects) == goal.Wanted()
  }

  lemma CountsAfter(before: seq<Object>, o: Object)
    ensures var after := before + [o];
      && Tables(after) == Tables(before) + (if o.Descriptor? then 1 else 0)
      && Flows(after) == Flows(before) + (if o.Flowtable? then 1 else 0)
      && ChainsIn(after) == ChainsIn(before) + (if o.Chain? && o.name.Some? then multiset{o.name.value} else multiset{})
      && RulesIn(after) == RulesIn(before) + (if o.Rule? then multiset{o.rule} else multiset{})
  {
    assert (before + [o])[..|before|] == before;
  }

  lemma {:induction false} PrefixCounts(objects: seq<Object>, i: nat)
    requires i <= |objects|
    ensures RulesIn(objects[..i]) <= RulesIn(objects) && ChainsIn(objects[..i]) <= ChainsIn(objects)
  {
    hide RulesIn, ChainsIn;
    if i == |objects| {
      assert objects[..i] == objects;
    } else {
      var rest, last := objects[..|objects| - 1], objects[|objects| - 1];
      PrefixCounts(rest, i);
      assert rest[..i] == objects[..i];
      assert objects == rest + [last];
      CountsAfter(rest, last);
    }
  }

  function CountOf(counts: map<Installed, int>, r: Installed): int {
    if r in counts then counts[r] else 0
  }

  /** Count what is wanted. */
  method CountWanted(goal: Goal) returns (counts: map<Installed, int>)
    ensures forall r :: CountOf(counts, r) == goal.Wanted()[r]
  {
    counts := map[];
    var rules := Traffic(goal.active) + goal.Records();
    for i := 0 to |rules|
      invariant forall r :: CountOf(counts, r) == multiset(rules[..i])[r]
    {
      assert rules[..i + 1] == rules[..i] + [rules[i]];
      counts := counts[rules[i] := CountOf(counts, rules[i]) + 1];
    }
    assert rules[..|rules|] == rules;
  }

  /** How far a comparison has come: descriptors and flowtables seen, chains seen,
      and how often each rule is still wanted. */
  datatype Progress = Progress(tables: nat, flows: nat, seen: set<ChainName>, want: map<Installed, int>)

  ghost predicate Scanned(objects: seq<Object>, p: Progress, goal: Goal) {
    && (forall o :: o in objects ==> Conforms(o, goal))
    && p.tables == Tables(objects) && p.flows == Flows(objects)
    && ChainsIn(objects) == multiset(p.seen) && p.seen <= goal.Chains()
    && StillWanted(objects, p.want, goal)
  }

  ghost predicate StillWanted(objects: seq<Object>, want: map<Installed, int>, goal: Goal) {
    forall r :: CountOf(want, r) + RulesIn(objects)[r] == goal.Wanted()[r] && CountOf(want, r) >= 0
  }

  lemma ConformingChain(o: Object, goal: Goal)
    requires Conforms(o, goal) && o.Chain?
    ensures o.name.Some? && o.name.value in goal.Chains()
  {
  }

  /** Compare one more object; a refusal is never premature. */
  method Scan(o: Object, ghost before: seq<Object>, ghost objects: seq<Object>, p: Progress, goal: Goal)
    returns (next: Option<Progress>)
    requires before + [o] <= objects && Scanned(before, p, goal)
    ensures next.Some? ==> Scanned(before + [o], next.value, goal)
    ensures next.None? ==> !Matches(objects, goal)
  {
    hide Goal.Wanted, Goal.Chains, Conforms, Tables, Flows, ChainsIn, RulesIn, StillWanted, Matches;
    ghost var after := before + [o];
    CountsAfter(before, o);
    assert objects[..|after|] == after;
    PrefixCounts(objects, |after|);
    if !Conforms(o, goal) {
      assert o in after && o in objects;
      RefusedObject(o, objects, goal);
      return None;
    }
    ConformingKind(o, goal);
    match o {
      case Descriptor(_) =>
        WantedAfter(before, o, p.want, p.want, goal);
        return Some(p.(tables := p.tables + 1));
      case Chain(name, _, _) =>
        ConformingChain(o, goal);
        if name.value in p.seen {
          assert ChainsIn(after)[name.value] == 2;
          RefusedChain(name.value, objects, goal);
          return None;
        }
        WantedAfter(before, o, p.want, p.want, goal);
        assert multiset(p.seen + {name.value}) == multiset(p.seen) + multiset{name.value};
        return Some(p.(seen := p.seen + {name.value}));
      case Rule(rule) =>
        if CountOf(p.want, rule) <= 0 {
          RefusedRule(before, after, rule, objects, p.want, goal);
          return None;
        }
        WantedAfter(before, o, p.want, p.want[rule := p.want[rule] - 1], goal);
        return Some(p.(want := p.want[rule := p.want[rule] - 1]));
      case Flowtable(_, _) =>
        WantedAfter(before, o, p.want, p.want, goal);
        return Some(p.(flows := p.flows + 1));
    }
  }

  lemma ConformingKind(o: Object, goal: Goal)
    requires Conforms(o, goal)
    ensures !o.Foreign?
  {
  }

  lemma WantedAfter(before: seq<Object>, o: Object, want: map<Installed, int>, want': map<Installed, int>, goal: Goal)
    requires StillWanted(before, want, goal)
    requires if o.Rule? then CountOf(want, o.rule) > 0 && want' == want[o.rule := want[o.rule] - 1] else want' == want
    ensures StillWanted(before + [o], want', goal)
  {
    CountsAfter(before, o);
    hide Goal.Wanted, RulesIn;
  }

  lemma RefusedObject(o: Object, objects: seq<Object>, goal: Goal)
    requires o in objects && !Conforms(o, goal)
    ensures !Matches(objects, goal)
  {
  }

  lemma RefusedChain(c: ChainName, objects: seq<Object>, goal: Goal)
    requires ChainsIn(objects)[c] > 1
    ensures !Matches(objects, goal)
  {
    hide ChainsIn, Goal.Chains;
  }

  /** One rule more than wanted. */
  lemma RefusedRule(before: seq<Object>, after: seq<Object>, rule: Installed, objects: seq<Object>,
                    want: map<Installed, int>, goal: Goal)
    requires StillWanted(before, want, goal) && CountOf(want, rule) <= 0
    requires RulesIn(after) == RulesIn(before) + multiset{rule} && RulesIn(after) <= RulesIn(objects)
    ensures !Matches(objects, goal)
  {
    hide Goal.Wanted, RulesIn;
    assert RulesIn(after)[rule] == goal.Wanted()[rule] + 1;
  }

  /** Compare an observed table with the goal, counting the wanted rules down. */
  method ValidateState(objects: seq<Object>, goal: Goal) returns (ok: bool)
    ensures ok <==> Matches(objects, goal)
  {
    hide Goal.Wanted, Goal.Chains, Traffic, Conforms, Goal.UsesFlowtable;
    var want := CountWanted(goal);
    var p := Progress(0, 0, {}, want);
    for i := 0 to |objects|
      invariant Scanned(objects[..i], p, goal)
    {
      assert objects[..i + 1] == objects[..i] + [objects[i]];
      var next := Scan(objects[i], objects[..i], objects, p, goal);
      if next.None? { return false; }
      p := next.value;
    }
    assert objects[..|objects|] == objects;
    var counted := forall r :: r in p.want ==> p.want[r] == 0;
    ok := p.tables == 1 && |p.seen| == |goal.Chains()| && p.flows == (if goal.UsesFlowtable() then 1 else 0) && counted;
    Conclude(objects, p, goal);
  }

  lemma Conclude(objects: seq<Object>, p: Progress, goal: Goal)
    requires Scanned(objects, p, goal)
    ensures (|p.seen| == |goal.Chains()|) <==> ChainsIn(objects) == multiset(goal.Chains())
    ensures (forall r :: r in p.want ==> p.want[r] == 0) <==> RulesIn(objects) == goal.Wanted()
  {
    hide Goal.Wanted, Goal.Chains, RulesIn, ChainsIn;
    if |p.seen| == |goal.Chains()| { SameSize(p.seen, goal.Chains()); }
    if multiset(p.seen) == multiset(goal.Chains()) {
      assert |multiset(p.seen)| == |p.seen| && |multiset(goal.Chains())| == |goal.Chains()|;
    }
    assert (forall r :: r in p.want ==> p.want[r] == 0) <==> forall r :: CountOf(p.want, r) == 0 by {
      if forall r :: CountOf(p.want, r) == 0 {
        forall r | r in p.want ensures p.want[r] == 0 { assert CountOf(p.want, r) == 0; }
      }
    }
    if forall r :: CountOf(p.want, r) == 0 {
      assert forall r :: RulesIn(objects)[r] == goal.Wanted()[r];
    }
  }

  lemma SameSize(a: set<ChainName>, b: set<ChainName>)
    requires a <= b && |a| == |b|
    ensures a == b
  {
    assert b == a + (b - a);
  }

  /** The objects list a table. */
  ghost predicate Lists(objects: seq<Object>, t: Table) {
    && (forall o :: o in objects && o.Descriptor? ==> o.owner == t.owner)
    && Tables(objects) == 1
    && ChainsIn(objects) == multiset(t.chains.Keys)
    && (forall o :: o in objects && o.Chain? && o.name.Some? && o.name.value in t.chains ==>
          o.comment == t.chains[o.name.value])
    && RulesIn(objects) == multiset(t.rules)
    && Flows(objects) == (if t.flowtable.Some? then 1 else 0)
    && (forall o :: o in objects && o.Flowtable? ==> t.flowtable == Some(o.devices))
  }

  lemma {:induction false} SomeObject(objects: seq<Object>)
    ensures Tables(objects) > 0 ==> exists o :: o in objects && o.Descriptor?
    ensures Flows(objects) > 0 ==> exists o :: o in objects && o.Flowtable?
    ensures forall c :: c in ChainsIn(objects) ==> exists o :: o in objects && o.Chain? && o.name == Some(c)
  {
    if objects != [] {
      var rest, last := objects[..|objects| - 1], objects[|objects| - 1];
      SomeObject(rest);
      assert objects == rest + [last];
      assert last in objects && forall o :: o in rest ==> o in objects;
    }
  }

  /** No foreign object, and the chains and the flowtable have the attributes
      that the transactions gave them. */
  ghost predicate Plain(objects: seq<Object>) {
    forall o :: o in objects ==>
         !o.Foreign? && (o.Chain? ==> o.name.Some? && o.conforming) && (o.Flowtable? ==> o.conforming)
  }

  /** A listing is accepted exactly when the table is the one the goal wants and
      nothing in it was altered or added. */
  lemma AcceptedIsDescribed(objects: seq<Object>, t: Table, goal: Goal)
    requires Lists(objects, t)
    ensures Matches(objects, goal) <==> Describes(t, goal) && Plain(objects)
  {
    if Matches(objects, goal) { AcceptedHolds(objects, t, goal); }
    if Describes(t, goal) && Plain(objects) { HeldIsAccepted(objects, t, goal); }
  }

  lemma AcceptedHolds(objects: seq<Object>, t: Table, goal: Goal)
    requires Lists(objects, t) && Matches(objects, goal)
    ensures Describes(t, goal) && Plain(objects)
  {
    SomeObject(objects);
    hide Goal.Wanted, Traffic, Goal.UsesFlowtable, Tables, Flows, RulesIn;
    assert forall c :: c in t.chains.Keys <==> c in multiset(t.chains.Keys);
    assert forall c :: c in goal.Chains() <==> c in multiset(goal.Chains());
  }

  lemma HeldIsAccepted(objects: seq<Object>, t: Table, goal: Goal)
    requires Lists(objects, t) && Describes(t, goal) && Plain(objects)
    ensures Matches(objects, goal)
  {
    hide Goal.Wanted, Traffic, Goal.UsesFlowtable, Tables, Flows, RulesIn;
    forall o | o in objects ensures Conforms(o, goal) {
      if o.Chain? {
        ListedChain(objects, o);
        assert o.name.value in multiset(t.chains.Keys);
      }
      if o.Flowtable? { assert t.flowtable == Some(o.devices); }
    }
  }

  lemma {:induction false} ListedChain(objects: seq<Object>, o: Object)
    requires o in objects && o.Chain? && o.name.Some?
    ensures o.name.value in ChainsIn(objects)
  {
    var rest, last := objects[..|objects| - 1], objects[|objects| - 1];
    if o != last { ListedChain(rest, o); }
  }
}
