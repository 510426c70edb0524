/** Everything outside the process: the owned kernel table, the recovery file
    and the kernel's tracked connections. Every operation may fail, and between
    any two operations clients may connect and connections may end. */
module NftWorld {
  import opened NftSpecs
  import opened RetirementPlan
  import opened Conntrack

  /** The owned table: its journal by role, the recovery binding it carries, and
      the devices of its flowtable when it has one. */
  datatype Table = Table(roles: Snapshot, binding: Option<string>, devices: seq<string>, flowtable: bool)

  datatype Record = Record(instance: string, generation: nat, phase: Phase, confirmed: Snapshot, intent: Snapshot)

  datatype SaveResult = Saved | NotSaved

  function TableRoles(t: Option<Table>): Snapshot {
    if t.Some? then t.value.roles else EMPTY
  }

  function Confirmed(r: Option<Record>): Snapshot {
    if r.Some? then r.value.confirmed else EMPTY
  }

  /** What may be read back from disk: a record that was prepared and checked. */
  predicate Loadable(r: Record, mark: nat) {
    !r.phase.Unwritten? && r.generation > 0 && Storable(r.confirmed, mark) && Storable(r.intent, mark)
  }

  /** What a crash leaves behind, and the scopes whose revocation was confirmed
      by the reconciliation in progress. */
  datatype Durable = Durable(
    table: Option<Table>,
    record: Option<Record>,
    entries: set<Entry>,
    revoked: seq<Spec>
  ) {
    ghost function Discharged(): iset<Atom> { Atoms(revoked) }
  }

  /** The scopes a later process would find there are valid. */
  ghost predicate SoundPoint(d: Durable) {
    ValidSnapshot(TableRoles(d.table)) && ValidSnapshot(Confirmed(d.record))
  }

  /** What has been active in a table logged since `first`. */
  ghost function Opened(log: seq<Durable>, first: nat): iset<Atom> {
    iset a | WasActive(log, first, a)
  }

  ghost predicate WasActive(log: seq<Durable>, first: nat, a: Atom) {
    exists j :: first <= j < |log| && a in Atoms(TableRoles(log[j].table).active)
  }

  lemma OpenedGrows(log: seq<Durable>, d: Durable, first: nat)
    requires first <= |log|
    ensures Opened(log + [d], first) == Opened(log, first) + Atoms(TableRoles(d.table).active)
  {
    hide Atoms;
    var more := log + [d];
    forall a ensures a in Opened(more, first) <==> a in Opened(log, first) || a in Atoms(TableRoles(d.table).active) {
      if j :| first <= j < |log| && a in Atoms(TableRoles(log[j].table).active) { assert more[j] == log[j]; }
      if a in Atoms(TableRoles(d.table).active) { assert more[|log|] == d; }
    }
  }

  /** The state names only tuples within `bound`, but for a record that was found. */
  ghost predicate AccountedPoint(d: Durable, bound: iset<Atom>, inherited: Option<Record>) {
    && AllAtoms(TableRoles(d.table)) <= bound && d.Discharged() <= bound
    && (d.record == inherited || AllAtoms(Confirmed(d.record)) <= bound)
  }

  /** Every logged state names only what was found, or had been active in a table
      logged by then. */
  ghost predicate Accounted(log: seq<Durable>, first: nat, found: iset<Atom>, inherited: Option<Record>) {
    && first <= |log|
    && forall i :: first <= i < |log| ==> AccountedPoint(log[i], found + Opened(log[..i + 1], first), inherited)
  }

  /** From one state to the next, a connection is new only if an active scope of
      the table before or after let it in. */
  ghost predicate Flow(d: Durable, next: Durable) {
    forall e :: e in next.entries && e !in d.entries ==>
      MatchesAny(e, TableRoles(d.table).active) || MatchesAny(e, TableRoles(next.table).active)
  }

  /** The state before `log[i]`, for a log that goes on from `start` at `first`. */
  ghost function Before(start: Durable, log: seq<Durable>, first: nat, i: nat): Durable
    requires first <= i <= |log|
  {
    if i == first then start else log[i - 1]
  }

  ghost predicate Flowing(start: Durable, log: seq<Durable>, first: nat) {
    first <= |log| && forall i :: first <= i < |log| ==> Flow(Before(start, log, first, i), log[i])
  }

  /** The last state of the log has this table and these connections. */
  ghost predicate FlowsTo(start: Durable, log: seq<Durable>, first: nat, table: Option<Table>, entries: set<Entry>) {
    && Flowing(start, log, first)
    && var last := Before(start, log, first, |log|); last.table == table && last.entries == entries
  }

  /** A write of the record file leaves the old record or the new one, and the
      new one if it succeeds. */
  ghost predicate SaveStep(was: Option<Record>, next: Record, now: Option<Record>, ok: bool) {
    (now == was || now == Some(next)) && (ok ==> now == Some(next))
  }

  class World {
    var table: Option<Table>
    var record: Option<Record>
    var entries: set<Entry>
    // The mark that this instance's scopes and connections carry.
    const mark: nat
    var revoked: seq<Spec>
    // Every durable state passed through.
    var log: seq<Durable>
    ghost var deleted: set<Entry>
    // Some operation failed, or some outside check did not pass. What the firewall
    // rejects and whether connection tracking is there are answers, not failures.
    ghost var trouble: bool
    // During this reconciliation: whether the firewall was asked and what it answered,
    // and every answer about connection tracking.
    ghost var consulted: bool
    ghost var answer: Option<Admission>
    ghost var probes: seq<bool>
    // The reconciliation in progress: the state it began in, where its log begins,
    // what it found, what was found or has been active in an installed table since, what it may own
    // at all, the record it found, whether it has replaced that record, and
    // whether it went on without connection tracking.
    ghost var begun: Durable
    ghost var first: nat
    ghost var found: iset<Atom>
    ghost var installed: iset<Atom>
    ghost var reach: iset<Atom>
    ghost var inherited: Option<Record>
    ghost var saved: bool
    ghost var degraded: bool

    function Now(): Durable
      reads this`table, this`record, this`entries, this`revoked
    {
      Durable(table, record, entries, revoked)
    }

    ghost predicate Sound()
      reads this`table, this`record
    {
      ValidSnapshot(TableRoles(table)) && ValidSnapshot(Confirmed(record))
    }

    /** The record is one that this reconciliation wrote. */
    ghost predicate Rewritten()
      reads this`record, this`installed
    {
      record.Some? && Loadable(record.value, mark) && AllAtoms(record.value.confirmed) <= installed
    }

    /** Every logged state names only what was found or had been active by then. */
    ghost predicate Ledger()
      reads this`log, this`first, this`found, this`installed, this`inherited
    {
      installed <= found + Opened(log, first) && Accounted(log, first, found, inherited)
    }

    /** Every logged state flows from the one before, and nothing happened to the
        table and the connections since the last of them. */
    ghost predicate Continuous()
      reads this`log, this`first, this`begun, this`table, this`entries
    {
      FlowsTo(begun, log, first, table, entries)
    }

    /** What holds during a reconciliation: the table, the record it wrote and what
        it proved revoked name only what was found or installed. To be asked for
        confers nothing. */
    ghost predicate Valid()
      reads this`table, this`record, this`revoked, this`reach, this`inherited, this`saved
      reads this`log, this`first, this`found, this`installed, this`begun, this`entries
    {
      && Sound() && Ledger() && Continuous()
      && AllAtoms(TableRoles(table)) <= installed <= reach
      && (if saved then Rewritten() else record == inherited)
      && Atoms(revoked) <= installed
    }

    lemma LedgerBegins()
      requires first == |log| && installed == found && begun.table == table && begun.entries == entries
      ensures Ledger() && Continuous()
    {
    }

    /** A reconciliation that finds `bound` and may reach `limit` begins. */
    method Begin(ghost bound: iset<Atom>, ghost limit: iset<Atom>)
      modifies this`revoked, this`saved, this`inherited, this`reach, this`first, this`found, this`installed, this`begun
      ensures revoked == [] && !saved && inherited == record && reach == limit
      ensures first == |log| && found == bound && installed == bound && begun == Now()
      ensures Ledger() && Continuous()
    {
      hide Ledger, Continuous;
      revoked, saved, inherited, reach := [], false, record, limit;
      first, found, installed, begun := |log|, bound, bound, Now();
      LedgerBegins();
    }

    /** Nothing outside has been asked yet. */
    method AskNothing()
      modifies this`degraded, this`probes, this`answer, this`consulted
      ensures probes == [] && answer == None && !consulted && !degraded
    {
      degraded, probes, answer, consulted := false, [], None, false;
    }

    /** The flow goes on with the present state. */
    lemma FlowGoesOn(before: seq<Durable>, was: Option<Table>, had: set<Entry>)
      requires log == before + [Now()] && Flowing(begun, before, first)
      requires var last := Before(begun, before, first, |before|); last.table == was && last.entries == had
      requires forall e :: e in entries && e !in had ==> MatchesAny(e, TableRoles(was).active)
      ensures Continuous()
    {
      hide MatchesAny;
      forall i | first <= i < |log| ensures Flow(Before(begun, log, first, i), log[i]) {
        assert Before(begun, log, first, i) == Before(begun, before, first, i);
        if i < |before| { assert Flow(Before(begun, before, first, i), before[i]); }
      }
    }

    /** The ledger goes on with a state like the present one. */
    lemma LedgerGoesOn(before: seq<Durable>, was: iset<Atom>)
      requires log == before + [Now()] && Accounted(before, first, found, inherited)
      requires was <= found + Opened(before, first)
      requires was <= installed <= was + Atoms(TableRoles(table).active)
      requires AllAtoms(TableRoles(table)) <= installed && Atoms(revoked) <= installed
      requires record == inherited || AllAtoms(Confirmed(record)) <= installed
      ensures Ledger()
    {
      hide Atoms, Core, AllAtoms;
      OpenedGrows(before, Now(), first);
      forall i | first <= i < |log| ensures AccountedPoint(log[i], found + Opened(log[..i + 1], first), inherited) {
        if i < |before| {
          assert log[..i + 1] == before[..i + 1];
        } else {
          assert log[..i + 1] == log;
        }
      }
    }

    /** Connections come only from installed active scopes; any may end. */
    ghost predicate Grown(before: set<Entry>)
      reads this`entries, this`table
    {
      forall e :: e in entries && e !in before ==> MatchesAny(e, TableRoles(table).active)
    }

    method Environment()
      modifies this`entries
      ensures Grown(old(entries))
    {
      var steps: nat := *;
      while steps > 0
        invariant Grown(old(entries))
      {
        var e: Entry := *;
        var arrives: bool := *;
        if arrives {
          if exists i :: 0 <= i < |TableRoles(table).active| && Matches(e, TableRoles(table).active[i]) {
            var i :| 0 <= i < |TableRoles(table).active| && Matches(e, TableRoles(table).active[i]);
            assert MatchesAny(e, TableRoles(table).active) by {
              assert TableRoles(table).active[i] in TableRoles(table).active;
            }
            entries := entries + {e};
          }
        } else {
          entries := entries - {e};
        }
        steps := steps - 1;
      }
    }

    /** A check whose answer lies outside the model; not passing is trouble. */
    method Check() returns (passed: bool)
      modifies this`trouble
      ensures trouble == (old(trouble) || !passed)
    {
      passed := *;
      trouble := trouble || !passed;
    }

    /** The connection-tracking tool was not there when it was last asked for. */
    ghost predicate Untracked()
      reads this`probes
    {
      |probes| > 0 && !probes[|probes| - 1]
    }

    /** Whether the connection-tracking tool is there now. */
    method Available() returns (available: bool)
      modifies this`probes
      ensures probes == old(probes) + [available]
    {
      available := *;
      probes := probes + [available];
    }

    /** The devices a flowtable would cover. */
    method Devices() returns (ok: bool, names: seq<string>)
      modifies this`trouble
      ensures trouble == (old(trouble) || !ok || names == [])
    {
      names := *;
      ok := *;
      trouble := trouble || !ok || names == [];
    }

    /** The foreign firewall's answer to a plan: unreadable, or a rejection of some
        scopes, or none. */
    method Firewall() returns (ok: bool, admission: Option<Admission>)
      modifies this`trouble, this`answer, this`consulted
      ensures trouble == (old(trouble) || !ok) && answer == admission && consulted
    {
      ok := *;
      admission := *;
      trouble, answer, consulted := trouble || !ok, admission, true;
    }

    /** Structured readback of the owned table. */
    method Observe() returns (ok: bool, observed: Option<Table>)
      requires Valid()
      modifies this`entries, this`log, this`trouble
      ensures Valid()
      ensures trouble == (old(trouble) || !ok)
      ensures Grown(old(entries))
      ensures log == old(log) + [Now()]
      ensures ok ==> observed == table
    {
      hide Atoms, Core, AllAtoms, ValidSnapshot, Loadable, MatchesAny, Opened, Accounted, Flowing, Before;
      Environment();
      ok := *;
      trouble := trouble || !ok;
      observed := table;
      log := log + [Now()];
      LedgerGoesOn(old(log), installed);
      FlowGoesOn(old(log), old(table), old(entries));
    }

    /** One atomic kernel transaction that installs the given table, or removes
        the owned table. A call that fails may have committed all the same. */
    method Apply(target: Option<Table>) returns (ok: bool)
      requires Valid() && ValidSnapshot(TableRoles(target)) && Atoms(TableRoles(target).active) <= reach
      requires AllAtoms(TableRoles(target)) <= installed + Atoms(TableRoles(target).active)
      modifies this`entries, this`log, this`table, this`installed, this`trouble
      ensures trouble == (old(trouble) || !ok)
      ensures Valid()
      ensures table == target || (!ok && table == old(table))
      ensures installed == old(installed) + if table == old(table) then iset{} else Atoms(TableRoles(target).active)
      ensures forall e :: e in entries && e !in old(entries) ==> MatchesAny(e, TableRoles(old(table)).active)
      ensures log == old(log) + [Now()]
    {
      hide Atoms, Core, AllAtoms, ValidSnapshot, Loadable, MatchesAny, Opened, Accounted, Flowing, Before;
      Environment();
      var committed: bool := *;
      ok := *;
      ok := ok && committed;
      trouble := trouble || !ok;
      if committed {
        installed := installed + if table == target then iset{} else Atoms(TableRoles(target).active);
        table := target;
      }
      log := log + [Now()];
      LedgerGoesOn(old(log), old(installed));
      FlowGoesOn(old(log), old(table), old(entries));
    }

    /** Write, sync, rename and sync the directory. A failure before the rename
        leaves the old file; a failure after it leaves the new one, and the
        caller cannot tell which. */
    method Save(next: Record) returns (result: SaveResult)
      requires Valid() && Loadable(next, mark) && ValidSnapshot(next.confirmed) && AllAtoms(next.confirmed) <= installed
      modifies this`entries, this`log, this`record, this`saved, this`trouble
      ensures trouble == (old(trouble) || result.NotSaved?)
      ensures Valid()
      ensures SaveStep(old(record), next, record, result.Saved?)
      ensures saved == (old(saved) || record == Some(next))
      ensures Grown(old(entries))
      ensures log == old(log) + [Now()]
    {
      hide Atoms, Core, AllAtoms, ValidSnapshot, Loadable, MatchesAny, Opened, Accounted, Flowing, Before;
      Environment();
      var renamed: bool := *;
      var synced: bool := *;
      if renamed {
        record := Some(next);
      }
      saved := saved || record == Some(next);
      result := if renamed && synced then Saved else NotSaved;
      trouble := trouble || result.NotSaved?;
      log := log + [Now()];
      LedgerGoesOn(old(log), installed);
      FlowGoesOn(old(log), old(table), old(entries));
    }

    /** Log the present state. */
    method Mark()
      modifies this`log
      ensures log == old(log) + [Now()]
    {
      log := log + [Now()];
    }

    /** The process died in the logged state `i`: what it did later never
        happened. */
    method DieAt(i: nat)
      requires i < |log| && SoundPoint(log[i])
      modifies this`table, this`record, this`entries, this`revoked, this`log
      ensures log == old(log)[..i + 1] && Now() == log[i] && Sound()
    {
      table, record, entries, revoked := log[i].table, log[i].record, log[i].entries, log[i].revoked;
      log := log[..i + 1];
    }

    /** The command line narrows the listing by family, protocol, mark and reply
        source, by listen host unless it is the wildcard, and by port when the
        scope has only one. */
    predicate Listed(e: Entry, s: Spec) {
      && e.family == s.family
      && e.protocol == s.protocol
      && e.mark == s.mark
      && e.replySource == s.targetHost
      && (!s.listenHost.Unspecified() ==> e.destination == s.listenHost)
      && (s.LastPort() == s.listenPort ==> e.destinationPort == s.listenPort)
    }

    method List(s: Spec) returns (ok: bool, listed: set<Entry>)
      requires Valid()
      modifies this`entries, this`log, this`trouble
      ensures Valid()
      ensures trouble == (old(trouble) || !ok)
      ensures Grown(old(entries))
      ensures log == old(log) + [Now()]
      ensures ok ==> listed == set e | e in entries && Listed(e, s)
    {
      hide Atoms, Core, AllAtoms, ValidSnapshot, Loadable, MatchesAny, Opened, Accounted, Flowing, Before;
      Environment();
      ok := *;
      trouble := trouble || !ok;
      listed := set e | e in entries && Listed(e, s);
      log := log + [Now()];
      LedgerGoesOn(old(log), installed);
      FlowGoesOn(old(log), old(table), old(entries));
    }

    method ListOwned() returns (ok: bool, listed: set<Entry>)
      requires Valid()
      modifies this`entries, this`log, this`trouble
      ensures Valid()
      ensures trouble == (old(trouble) || !ok)
      ensures Grown(old(entries))
      ensures log == old(log) + [Now()]
      ensures ok ==> listed == set e | e in entries && e.mark == mark
    {
      hide Atoms, Core, AllAtoms, ValidSnapshot, Loadable, MatchesAny, Opened, Accounted, Flowing, Before;
      Environment();
      ok := *;
      trouble := trouble || !ok;
      listed := set e | e in entries && e.mark == mark;
      log := log + [Now()];
      LedgerGoesOn(old(log), installed);
      FlowGoesOn(old(log), old(table), old(entries));
    }

    /** Delete the given connections. Even a reported success may have left some
        of them; the caller lists again. */
    method Delete(selected: set<Entry>) returns (ok: bool)
      requires Valid()
      modifies this`entries, this`log, this`deleted, this`trouble
      ensures Valid()
      ensures old(trouble) || !ok ==> trouble
      ensures !trouble ==> entries !! selected
      ensures Grown(old(entries))
      ensures log == old(log) + [Now()]
      ensures deleted == old(deleted) + selected
    {
      hide Atoms, Core, AllAtoms, ValidSnapshot, Loadable, MatchesAny, Opened, Accounted, Flowing, Before;
      Environment();
      ok := *;
      var done: bool := *;
      trouble := trouble || !ok || !done;
      if done {
        entries := entries - selected;
      }
      deleted := deleted + selected;
      log := log + [Now()];
      LedgerGoesOn(old(log), installed);
      FlowGoesOn(old(log), old(table), old(entries));
    }
  }

  /** No tracked connection matches any of the scopes. */
  ghost predicate Drained(entries: set<Entry>, specs: seq<Spec>) {
    forall e, s :: e in entries && s in specs ==> !Matches(e, s)
  }

  /** While the installed scopes share no ingress with the draining ones, the
      world cannot bring a drained connection back. */
  lemma DrainedStays(before: set<Entry>, after: set<Entry>, active: seq<Spec>, specs: seq<Spec>)
    requires Drained(before, specs) && AllValid(active) && IngressDisjoint(active, specs)
    requires forall e :: e in after && e !in before ==> MatchesAny(e, active)
    ensures Drained(after, specs)
  {
    forall e, s | e in after && s in specs
      ensures !Matches(e, s)
    {
      if Matches(e, s) {
        assert MatchesAny(e, specs);
        assert e !in before;
        SharedConnectionSharesIngress(e, active, specs);
        assert false;
      }
    }
  }

  /** Revoke every connection of one scope: list, delete what matches exactly,
      and list again. `done` are the scopes revoked before. */
  method RevokeScope(w: World, s: Spec, ghost done: seq<Spec>) returns (ok: bool)
    requires w.Valid() && IngressDisjoint(TableRoles(w.table).active, done) && Drained(w.entries, done)
    requires IngressDisjoint(TableRoles(w.table).active, [s])
    modifies w`entries, w`log, w`deleted, w`trouble
    ensures w.Valid()
    ensures (old(w.trouble) ==> w.trouble) && (!w.trouble ==> ok)
    ensures Drained(w.entries, done)
    ensures ok ==> Drained(w.entries, [s])
    ensures w.Grown(old(w.entries))
    ensures forall e :: e in w.deleted && e !in old(w.deleted) ==> Matches(e, s)
    ensures StoresKept(old(w.log), w.log, w.Now())
  {
    hide Matches, MatchesAny, IngressDisjoint, AllAtoms, World.Ledger, World.Rewritten;
    hide World.Continuous;
    ghost var active := TableRoles(w.table).active;
    ghost var start := w.entries;
    var listOk, listed := w.List(s);
    DrainedStays(start, w.entries, active, done);
    if !listOk { return false; }
    MatchedIsListed(w, s);
    var selected := set e | e in listed && Matches(e, s);
    if selected == {} {
      assert forall e :: e in w.entries && Matches(e, s) ==> e in selected;
      return true;
    }
    ghost var listedAt := w.entries;
    var deleteOk := w.Delete(selected);
    DrainedStays(listedAt, w.entries, active, done);
    var exitOne: bool := *;
    if !deleteOk && !exitOne { return false; }
    ghost var deletedAt := w.entries;
    var againOk, remaining := w.List(s);
    DrainedStays(deletedAt, w.entries, active, done);
    if !againOk { return false; }
    if !w.trouble { DrainTakesEffect(s, listedAt, selected, deletedAt, w.entries, active); }
    return !exists e :: e in remaining && Matches(e, s);
  }

  /** When the deletion took effect, nothing that matches the scope is left: all
      there was has been deleted, and nothing new can arrive for it. */
  lemma DrainTakesEffect(s: Spec, listedAt: set<Entry>, selected: set<Entry>, deletedAt: set<Entry>, now: set<Entry>,
                         active: seq<Spec>)
    requires AllValid(active) && IngressDisjoint(active, [s])
    requires forall e :: e in listedAt && Matches(e, s) ==> e in selected
    requires deletedAt !! selected
    requires forall e :: e in deletedAt && e !in listedAt ==> MatchesAny(e, active)
    requires forall e :: e in now && e !in deletedAt ==> MatchesAny(e, active)
    ensures Drained(now, [s])
  {
    forall e | e in now
      ensures !Matches(e, s)
    {
      if Matches(e, s) && MatchesAny(e, active) {
        assert MatchesAny(e, [s]);
        SharedConnectionSharesIngress(e, active, [s]);
        assert false;
      }
    }
  }

  lemma MatchedIsListed(w: World, s: Spec)
    ensures forall e :: Matches(e, s) ==> w.Listed(e, s)
  {
  }

  /** Only time and connections passed: every new durable state has the stores
      and the revoked scopes of `now`. */
  ghost predicate StoresKept(before: seq<Durable>, after: seq<Durable>, now: Durable) {
    && |before| <= |after| && after[..|before|] == before
    && forall i :: |before| <= i < |after| ==>
         after[i].table == now.table && after[i].record == now.record && after[i].revoked == now.revoked
  }

  /** Revoke every connection of every scope, scope by scope. */
  method RevokeConnections(w: World, specs: seq<Spec>) returns (ok: bool)
    requires w.Valid() && IngressDisjoint(TableRoles(w.table).active, specs)
    modifies w`entries, w`log, w`deleted, w`trouble, w`probes
    ensures w.Valid()
    ensures old(w.trouble) ==> w.trouble
    ensures if specs == [] then w.probes == old(w.probes)
            else w.probes == old(w.probes) + [true] || w.probes == old(w.probes) + [false]
    ensures !w.trouble ==> (!ok <==> specs != [] && w.Untracked())
    ensures ok ==> Drained(w.entries, specs)
    ensures w.Grown(old(w.entries))
    ensures forall e :: e in w.deleted && e !in old(w.deleted) ==> MatchesAny(e, specs)
    ensures StoresKept(old(w.log), w.log, w.Now())
  {
    hide Matches, AllAtoms, ValidSnapshot, World.Valid;
    if specs == [] { return true; }
    var available := w.Available();
    if !available { return false; }
    for k := 0 to |specs|
      invariant w.Valid()
      invariant Drained(w.entries, specs[..k])
      invariant w.Grown(old(w.entries))
      invariant forall e :: e in w.deleted && e !in old(w.deleted) ==> MatchesAny(e, specs)
      invariant StoresKept(old(w.log), w.log, w.Now())
      invariant (old(w.trouble) ==> w.trouble) && w.probes == old(w.probes) + [true]
    {
      var inTime := w.Check();
      if !inTime { return false; }
      assert IngressDisjoint(TableRoles(w.table).active, specs[..k]);
      assert IngressDisjoint(TableRoles(w.table).active, [specs[k]]);
      ok := RevokeScope(w, specs[k], specs[..k]);
      assert specs[k] in specs;
      if !ok { return false; }
      assert specs[..k + 1] == specs[..k] + [specs[k]];
    }
    assert specs[..|specs|] == specs;
    return true;
  }
}
