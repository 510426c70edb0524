/** Whole runs of the retirement protocol: any number of reconciliations by any
    number of processes, each of which may die at any durable state. */
module RetirementRuns {
  import opened NftSpecs
  import opened PortAlgebra
  import opened RetirementPlan
  import opened Conntrack
  import opened NftWorld
  import opened RetirementProtocol

  /** One reconciliation as recovery sees it: where it started, what memory held,
      what it was asked for, what only the record listed while the table was
      believed, and every durable state it passed through. */
  datatype Call = Call(start: Durable, held: iset<Atom>, wanted: iset<Atom>, exposed: iset<Atom>, trace: seq<Durable>) {
    ghost predicate Excuses(a: Atom) { a in wanted || a in exposed }

    /** What it found: what memory held, and what the stores named. */
    ghost function Base(): iset<Atom> { held + Known(start) }
  }

  /** Nothing is exposed, or exactly what the record lists beyond a memory that
      covers the table and what the record calls active or draining. */
  ghost predicate Exposes(c: Call) {
    || c.exposed == iset{}
    || (&& c.exposed == AllAtoms(Confirmed(c.start.record)) - c.held
        && AllAtoms(TableRoles(c.start.table)) + Core(Confirmed(c.start.record)) <= c.held)
  }

  /** Every state of the call forgets nothing but what it may. */
  ghost predicate CallKeeps(c: Call) {
    && Exposes(c)
    && forall i :: 0 <= i < |c.trace| ==>
         Keeps(Start(c.start), c.wanted + c.exposed, c.trace[i]) && DrainedPoint(c.trace[i])
  }

  /** Every state of the call names, and calls revoked, only what the call found or
      what had been active in the kernel by then. */
  ghost predicate CallOwns(c: Call) {
    forall i :: 0 <= i < |c.trace| ==>
         Known(c.trace[i]) + c.trace[i].Discharged() <= c.Base() + Opened(c.trace[..i + 1], 0)
  }

  ghost predicate SameStores(d: Durable, e: Durable) { d.table == e.table && d.record == e.record }

  /** The stores are those of some state that the call passed through. */
  ghost predicate Left(c: Call, d: Durable) {
    SameStores(c.start, d) || exists i :: 0 <= i < |c.trace| && SameStores(c.trace[i], d)
  }

  /** The next reconciliation finds the stores of the last one, wherever that one
      stopped or crashed, and at most the memory it left. Connections may have
      come and gone. */
  ghost predicate Continues(c: Call, next: Call) {
    Left(c, next.start) && next.held <= c.Base() + Opened(c.trace, 0)
  }

  ghost predicate Run(calls: seq<Call>) {
    && (forall k :: 0 <= k < |calls| ==> CallKeeps(calls[k]) && CallOwns(calls[k]))
    && (forall k :: 0 < k < |calls| ==> Continues(calls[k - 1], calls[k]))
  }

  ghost predicate RevokedIn(calls: seq<Call>, a: Atom) {
    exists k, i :: 0 <= k < |calls| && 0 <= i < |calls[k].trace| && a in calls[k].trace[i].Discharged()
  }

  lemma RevokedGrows(calls: seq<Call>, j: nat, k: nat, a: Atom)
    requires j <= k <= |calls| && RevokedIn(calls[..j], a)
    ensures RevokedIn(calls[..k], a)
  {
    hide Atoms;
    var m, i :| 0 <= m < j && 0 <= i < |calls[..j][m].trace| && a in calls[..j][m].trace[i].Discharged();
    assert calls[..k][m] == calls[..j][m];
  }

  /** Where a call leaves the stores, a tuple is forgotten only if a state of this
      call had discharged it. */
  lemma LeftKeeps(calls: seq<Call>, k: nat, d: Durable, a: Atom)
    requires Run(calls) && k < |calls| && Left(calls[k], d)
    ensures a in Draining(calls[k].start) ==> a in Draining(d) || RevokedIn(calls[..k + 1], a)
    ensures a in Known(calls[k].start) && !calls[k].Excuses(a) ==> a in Known(d) || RevokedIn(calls[..k + 1], a)
  {
    hide Atoms, Core, AllAtoms;
    var c := calls[k];
    if !SameStores(c.start, d) {
      var i :| 0 <= i < |c.trace| && SameStores(c.trace[i], d);
      assert CallKeeps(c);
      assert Keeps(Start(c.start), c.wanted + c.exposed, c.trace[i]);
      if a in c.trace[i].Discharged() {
        assert calls[..k + 1][k] == c;
        assert RevokedIn(calls[..k + 1], a);
      } else if a in Known(c.start) && !c.Excuses(a) {
        assert a in Known(Start(c.start)) - (c.wanted + c.exposed);
      }
    }
  }

  lemma {:induction false} StartKeeps(calls: seq<Call>, k: nat, a: Atom)
    requires Run(calls) && k < |calls|
    ensures a in Draining(calls[0].start) ==> a in Draining(calls[k].start) || RevokedIn(calls[..k], a)
    ensures a in Known(calls[0].start) && (forall j :: 0 <= j < k ==> !calls[j].Excuses(a)) ==>
              a in Known(calls[k].start) || RevokedIn(calls[..k], a)
  {
    hide Atoms, Core, AllAtoms, Draining, Known, Call.Excuses, CallKeeps, CallOwns, RevokedIn, Left;
    if k > 0 {
      StartKeeps(calls, k - 1, a);
      assert Continues(calls[k - 1], calls[k]);
      LeftKeeps(calls, k - 1, calls[k].start, a);
      if RevokedIn(calls[..k - 1], a) { RevokedGrows(calls, k - 1, k, a); }
    }
  }

  /** Over any number of reconciliations, wherever the last of them leaves the
      stores: a tuple recorded as draining stays recorded as draining until its
      revocation is confirmed, whatever is asked for in between; and a tuple that
      any store names stays named, as long as no call asks for it or exposes it,
      until its revocation is confirmed. */
  lemma ObligationsSurviveEveryRun(calls: seq<Call>, k: nat, d: Durable, a: Atom)
    requires Run(calls) && k < |calls| && Left(calls[k], d)
    ensures a in Draining(calls[0].start) ==> a in Draining(d) || RevokedIn(calls[..k + 1], a)
    ensures a in Known(calls[0].start) && (forall j :: 0 <= j <= k ==> !calls[j].Excuses(a)) ==>
              a in Known(d) || RevokedIn(calls[..k + 1], a)
  {
    hide Atoms, Core, AllAtoms, Draining, Known, Call.Excuses;
    StartKeeps(calls, k, a);
    LeftKeeps(calls, k, d, a);
    if RevokedIn(calls[..k], a) { RevokedGrows(calls, k, k + 1, a); }
  }

  // ----- Ownership over whole runs -----

  ghost predicate OpenedIn(calls: seq<Call>, a: Atom) {
    exists k :: 0 <= k < |calls| && WasActive(calls[k].trace, 0, a)
  }

  lemma OpenedInGrows(calls: seq<Call>, k: nat, a: Atom)
    requires k < |calls| && (OpenedIn(calls[..k], a) || WasActive(calls[k].trace, 0, a))
    ensures OpenedIn(calls[..k + 1], a)
  {
    hide WasActive;
    if j :| 0 <= j < k && WasActive(calls[..k][j].trace, 0, a) {
      assert calls[..k + 1][j] == calls[..k][j];
    } else {
      assert calls[..k + 1][k] == calls[k];
    }
  }

  lemma OpenedEarlier(trace: seq<Durable>, i: nat)
    requires i <= |trace|
    ensures Opened(trace[..i], 0) <= Opened(trace, 0)
  {
    hide Atoms;
    forall a | a in Opened(trace[..i], 0) ensures a in Opened(trace, 0) {
      var j :| 0 <= j < i && a in Atoms(TableRoles(trace[..i][j].table).active);
      assert trace[j] == trace[..i][j];
    }
  }

  /** Where a call leaves the stores, they name only what it found or what had been
      active. */
  lemma LeftOwns(c: Call, d: Durable)
    requires CallOwns(c) && Left(c, d)
    ensures Known(d) <= c.Base() + Opened(c.trace, 0)
  {
    hide Atoms, Core, AllAtoms, Opened;
    if !SameStores(c.start, d) {
      var i :| 0 <= i < |c.trace| && SameStores(c.trace[i], d);
      OpenedEarlier(c.trace, i + 1);
      assert Known(c.trace[i]) == Known(d);
    }
  }

  lemma {:induction false} BaseOwns(calls: seq<Call>, k: nat, a: Atom)
    requires Run(calls) && k < |calls| && a in calls[k].Base()
    ensures a in calls[0].Base() || OpenedIn(calls[..k], a)
  {
    hide Known, Left, WasActive, CallKeeps, CallOwns, OpenedIn;
    if k > 0 {
      assert Continues(calls[k - 1], calls[k]) && CallOwns(calls[k - 1]);
      LeftOwns(calls[k - 1], calls[k].start);
      if a in calls[k - 1].Base() { BaseOwns(calls, k - 1, a); }
      if OpenedIn(calls[..k - 1], a) || WasActive(calls[k - 1].trace, 0, a) { OpenedInGrows(calls, k - 1, a); }
    }
  }

  /** An intent confers no ownership, over whole runs: whatever a durable state
      names, confirmed on disk or journalled in the kernel, and whatever it calls
      revoked, was there when the run began or had been active in a table the
      kernel had installed by then. */
  lemma OnlyInstalledIsOwned(calls: seq<Call>, k: nat, i: nat, a: Atom)
    requires Run(calls) && k < |calls| && i < |calls[k].trace|
    requires a in Known(calls[k].trace[i]) || a in calls[k].trace[i].Discharged()
    ensures a in calls[0].Base() || OpenedIn(calls[..k], a) || WasActive(calls[k].trace[..i + 1], 0, a)
  {
    hide Atoms, Known, Left, WasActive, CallKeeps, OpenedIn;
    assert CallOwns(calls[k]);
    assert a in calls[k].Base() + Opened(calls[k].trace[..i + 1], 0);
    if a in calls[k].Base() { BaseOwns(calls, k, a); }
  }

  lemma RunExtends(calls: seq<Call>, c: Call)
    requires Run(calls) && CallKeeps(c) && CallOwns(c) && (calls != [] ==> Continues(calls[|calls| - 1], c))
    ensures Run(calls + [c])
  {
    hide CallKeeps, CallOwns, Continues;
    var more := calls + [c];
    forall k | 0 < k < |more| ensures Continues(more[k - 1], more[k]) {
      if k < |calls| { assert Continues(calls[k - 1], calls[k]); }
    }
  }

  /** A finished or interrupted reconciliation forgets nothing it must not. */
  lemma TraceKeeps(c: Call, widest: seq<Spec>)
    requires CallTrace(c.trace, 0, Start(c.start), c.wanted + c.exposed, widest) && Exposes(c)
    ensures CallKeeps(c)
  {
    hide Atoms, Keeps, DrainedPoint, SoundPoint, Exposes;
    forall i | 0 <= i < |c.trace|
      ensures Keeps(Start(c.start), c.wanted + c.exposed, c.trace[i]) && DrainedPoint(c.trace[i])
    {
      assert CallPoint(c.trace[i], Start(c.start), c.wanted + c.exposed, widest);
    }
  }

  /** A trace that is accounted for names only what was found or active. */
  lemma TraceOwns(c: Call, found: iset<Atom>)
    requires Accounted(c.trace, 0, found, c.start.record) && found <= c.Base()
    ensures CallOwns(c)
  {
    hide Atoms, Core, AllAtoms, Opened;
    forall i | 0 <= i < |c.trace|
      ensures Known(c.trace[i]) + c.trace[i].Discharged() <= c.Base() + Opened(c.trace[..i + 1], 0)
    {
      assert AccountedPoint(c.trace[i], found + Opened(c.trace[..i + 1], 0), c.start.record);
    }
  }

  /** A part of an accounted log, on its own. */
  lemma AccountedPart(log: seq<Durable>, first: nat, n: nat, found: iset<Atom>, inherited: Option<Record>)
    requires first <= n <= |log| && Accounted(log, first, found, inherited)
    ensures Accounted(log[first..n], 0, found, inherited) && Opened(log[first..n], 0) == Opened(log[..n], first)
  {
    hide Atoms, Core, AllAtoms, AccountedPoint, Opened;
    var part := log[first..n];
    OpenedShifted(log, first, n);
    forall i | 0 <= i < |part| ensures AccountedPoint(part[i], found + Opened(part[..i + 1], 0), inherited) {
      assert part[..i + 1] == log[first..first + i + 1];
      OpenedShifted(log, first, first + i + 1);
      assert AccountedPoint(log[first + i], found + Opened(log[..first + i + 1], first), inherited);
    }
  }

  lemma AccountedMore(trace: seq<Durable>, end: Durable, found: iset<Atom>, inherited: Option<Record>)
    requires Accounted(trace, 0, found, inherited) && AccountedPoint(end, found + Opened(trace, 0), inherited)
    ensures Accounted(trace + [end], 0, found, inherited) && Opened(trace, 0) <= Opened(trace + [end], 0)
  {
    hide Atoms, Core, AllAtoms, AccountedPoint, Opened;
    var more := trace + [end];
    OpenedGrows(trace, end, 0);
    AccountedWider(end, found + Opened(trace, 0), found + Opened(more, 0), inherited);
    forall i | 0 <= i < |more| ensures AccountedPoint(more[i], found + Opened(more[..i + 1], 0), inherited) {
      if i < |trace| { assert more[..i + 1] == trace[..i + 1]; } else { assert more[..i + 1] == more; }
    }
  }

  lemma AccountedWider(d: Durable, bound: iset<Atom>, wider: iset<Atom>, inherited: Option<Record>)
    requires AccountedPoint(d, bound, inherited) && bound <= wider
    ensures AccountedPoint(d, wider, inherited)
  {
    hide Atoms, Core, AllAtoms;
  }

  lemma OpenedShifted(log: seq<Durable>, first: nat, n: nat)
    requires first <= n <= |log|
    ensures Opened(log[first..n], 0) == Opened(log[..n], first)
  {
    hide Atoms;
    var here, there := log[first..n], log[..n];
    forall a ensures a in Opened(here, 0) <==> a in Opened(there, first) {
      if j :| 0 <= j < |here| && a in Atoms(TableRoles(here[j].table).active) { assert there[first + j] == here[j]; }
      if j :| first <= j < n && a in Atoms(TableRoles(there[j].table).active) { assert here[j - first] == there[j]; }
    }
  }

  // ----- The log of a lifetime -----

  /** Everything that was logged: where each call started, and what it passed
      through. */
  ghost function Logged(calls: seq<Call>): seq<Durable> {
    if calls == [] then []
    else
      var c := calls[|calls| - 1];
      Logged(calls[..|calls| - 1]) + ([c.start] + c.trace)
  }

  /** A log that flows on from its last state. */
  lemma FlowJoins(start: Durable, log: seq<Durable>, first: nat, s: Durable, more: seq<Durable>)
    requires Flowing(start, log, first) && Extends(log, more) && Flowing(s, more, |log|)
    requires |log| < |more| && more[|log|] == s && Flow(Before(start, log, first, |log|), s)
    ensures Flowing(start, more, first)
  {
    hide Flow;
    forall i | first <= i < |more| ensures Flow(Before(start, more, first, i), more[i]) {
      if i < |log| {
        assert Flow(Before(start, log, first, i), log[i]);
      } else if i > |log| {
        assert Flow(Before(s, more, |log|, i), more[i]);
      }
    }
  }

  /** The log of one call: its start, and a part of what it passed through. */
  lemma FlowOfCall(s: Durable, before: seq<Durable>, log: seq<Durable>, n: nat)
    requires Extends(before + [s], log) && Flowing(Start(s), log, |before| + 1) && |before| < n <= |log|
    ensures Flowing(s, log[..n], |before|)
  {
    hide MatchesAny;
    forall i | |before| <= i < n ensures Flow(Before(s, log[..n], |before|, i), log[..n][i]) {
      if i > |before| { assert Flow(Before(Start(s), log, |before| + 1, i), log[i]); }
    }
  }

  lemma FlowStays(s: Durable, log: seq<Durable>, first: nat, d: Durable)
    requires Flowing(s, log, first) && first < |log|
    requires log[|log| - 1].table == d.table && log[|log| - 1].entries == d.entries
    ensures Flowing(s, log + [d], first)
  {
    hide MatchesAny;
    var more := log + [d];
    forall i | first <= i < |more| ensures Flow(Before(s, more, first, i), more[i]) {
      if i < |log| { assert Flow(Before(s, log, first, i), log[i]); }
    }
  }

  /** A connection that was gone comes back only through a scope that was active in
      the meantime. */
  lemma {:induction false} GoneStaysGone(start: Durable, log: seq<Durable>, first: nat, p: nat, q: nat, e: Entry)
    requires Flowing(start, log, first) && first <= p <= q < |log|
    requires e !in log[p].entries && e in log[q].entries
    ensures exists r :: p <= r <= q && MatchesAny(e, TableRoles(log[r].table).active)
  {
    hide MatchesAny;
    if e in log[q - 1].entries {
      GoneStaysGone(start, log, first, p, q - 1, e);
    } else {
      assert Flow(Before(start, log, first, q), log[q]);
    }
  }

  /** What a logged state calls revoked stays revoked: a later connection of it was
      let in by a scope that was active since, or shares the ingress of a scope
      that was active already. */
  lemma RevokedStaysRevoked(start: Durable, log: seq<Durable>, first: nat, p: nat, q: nat, a: Atom, e: Entry)
    requires Flowing(start, log, first) && first <= p <= q < |log|
    requires DrainedPoint(log[p]) && a in log[p].Discharged() && e in log[q].entries && Carries(a, e)
    ensures || (exists s :: s in TableRoles(log[p].table).active && ClaimsIngress(s, a))
            || exists r :: p <= r <= q && MatchesAny(e, TableRoles(log[r].table).active)
  {
    hide MatchesAny, Carries, ClaimsIngress;
    if e !in log[p].entries { GoneStaysGone(start, log, first, p, q, e); }
  }

  /** The last state that a call logged has the present table and connections. */
  lemma Flowed(s: Durable, log: seq<Durable>, first: nat, table: Option<Table>, entries: set<Entry>)
    requires FlowsTo(Start(s), log, first, table, entries) && 0 < first <= |log| && log[first - 1] == s
    ensures Flowing(Start(s), log, first) && log[|log| - 1].table == table && log[|log| - 1].entries == entries
  {
    hide Flow;
  }

  /** What is asked of a backend: the scopes, and whether a new process does it. */
  datatype Task = Task(specs: seq<Spec>, restarts: bool)

  /** One reconciliation that runs to its end, with its first and last states in the
      log. */
  method LoggedCall(w: World, b: Backend, specs: seq<Spec>) returns (ghost c: Call, ghost widest: seq<Spec>)
    requires b.world == w && b.Settled()
    modifies b, w
    ensures b.Settled()
    ensures c.start == old(w.Now()) && c.wanted == Atoms(specs) && c.exposed == old(b.Exposed())
    ensures c.held == old(AllAtoms(b.Memory())) && c.trace != [] && c.trace[|c.trace| - 1] == w.Now()
    ensures w.log == old(w.log) + ([c.start] + c.trace) && Flowing(c.start, w.log, |old(w.log)|)
    ensures CallTrace(c.trace, 0, Start(c.start), c.wanted + c.exposed, widest)
    ensures Accounted(c.trace, 0, old(b.Found()), c.start.record)
    ensures AllAtoms(b.Memory()) <= old(b.Found()) + Opened(c.trace, 0)
  {
    hide Atoms, Core, AllAtoms, ValidSnapshot, Loadable, Known, Draining, SoundPoint, Allowed, FlowsTo, PlanFor, Fits;
    hide Backend.Feasible, Backend.Believed, Opened, Accounted, AccountedPoint, Safe, Heeded, Backend.Reaches;
    hide CallPoint, PriorActive, Backend.Owned, Backend.Settled, Backend.Exposed, Backend.Found, Flowing;
    ghost var prior, start, before, found := PriorActive(b.active, w.Now()), w.Now(), w.log, b.Found();
    c := Call(start, AllAtoms(b.Memory()), Atoms(specs), b.Exposed(), []);
    w.Mark();
    var first := |w.log|;
    var ok := b.Replace(specs);
    widest := Allowed(prior, specs, w.degraded);
    ghost var called := w.log;
    assert called[first..|called|] == called[first..] && called[..|called|] == called;
    AccountedPart(called, first, |called|, found, start.record);
    AccountedMore(called[first..], w.Now(), found, start.record);
    Flowed(start, called, first, w.table, w.entries);
    FlowOfCall(start, before, called, |called|);
    FlowStays(start, called, first - 1, w.Now());
    c := c.(trace := called[first..] + [w.Now()]);
    w.Mark();
  }

  /** The process may die in any state on the way; then a new one takes over. */
  method OneCall(w: World, b: Backend, specs: seq<Spec>) returns (next: Backend, ghost c: Call)
    requires b.world == w && b.Settled()
    modifies b, w
    ensures (next == b || fresh(next)) && next.world == w && next.Settled()
    ensures c.start == old(w.Now()) && c.wanted == Atoms(specs) && c.exposed == old(b.Exposed())
    ensures c.held == old(AllAtoms(b.Memory())) && AllAtoms(next.Memory()) <= c.Base() + Opened(c.trace, 0)
    ensures CallKeeps(c) && CallOwns(c) && Left(c, w.Now())
    ensures w.log == old(w.log) + ([c.start] + c.trace) && w.Now() == w.log[|w.log| - 1]
    ensures Flowing(old(w.Now()), w.log, |old(w.log)|)
  {
    hide Atoms, Core, AllAtoms, Keeps, DrainedPoint, CallKeeps, CallOwns, ValidSnapshot, Loadable, Known, Draining;
    hide Backend.Exposed, Backend.Found, Backend.Believed, Opened, Accounted, AccountedPoint, SoundPoint, Flowing;
    ghost var before, found := w.log, b.Found();
    b.ExposedIsBeyond();
    b.FoundIsBase();
    ghost var widest;
    var first := |w.log| + 1;
    c, widest := LoggedCall(w, b, specs);
    next := b;
    var dies: bool, at: nat := *, *;
    if dies && first <= at < |w.log| {
      ghost var trace, n := c.trace, at + 1 - first;
      c := c.(trace := trace[..n]);
      AccountedPart(trace, 0, n, found, c.start.record);
      FlowPart(c.start, w.log, |before|, at + 1);
      assert trace[0..n] == trace[..n] && w.log[at] == trace[n - 1];
      assert CallPoint(trace[n - 1], Start(c.start), c.wanted + c.exposed, widest);
      w.DieAt(at);
      EmptyHasNoAtoms();
      next := new Backend(w);
    }
    TraceKeeps(c, widest);
    TraceOwns(c, found);
    assert SameStores(c.trace[|c.trace| - 1], w.Now());
  }

  lemma FlowPart(s: Durable, log: seq<Durable>, first: nat, n: nat)
    requires Flowing(s, log, first) && first <= n <= |log|
    ensures Flowing(s, log[..n], first)
  {
    hide Flow;
    forall i | first <= i < n ensures Flow(Before(s, log[..n], first, i), log[..n][i]) {
      assert Flow(Before(s, log, first, i), log[i]);
    }
  }

  /** Any mix of reconciliations, failures anywhere, connection tracking coming and
      going, deaths at any durable state and restarts, over whatever valid stores
      there were. The calls are those that were asked for, and together they are
      what was logged, up to the present state, each state flowing from the one
      before. In the end every tuple recorded as draining at first is still
      recorded as draining or was revoked in one of these states, every tuple the
      stores named at first is still named or was revoked, unless some call asked
      for it or exposed it, and the stores name nothing but what they named at
      first or what had been active in the kernel. */
  method AnyLifetime(w: World, tasks: seq<Task>) returns (ghost calls: seq<Call>)
    requires w.Sound()
    modifies w
    ensures w.Sound() && Run(calls) && |calls| == |tasks|
    ensures w.log == old(w.log) + Logged(calls) && Flowing(old(w.Now()), w.log, |old(w.log)|)
    ensures if calls == [] then w.Now() == old(w.Now()) else w.Now() == w.log[|w.log| - 1]
    ensures forall k :: 0 <= k < |calls| ==> Answered(calls[k], tasks[k])
    ensures calls != [] ==> SameStores(old(w.Now()), calls[0].start) && calls[0].Base() == Known(old(w.Now()))
    ensures forall a :: a in Draining(old(w.Now())) ==> a in Draining(w.Now()) || RevokedIn(calls, a)
    ensures forall a :: a in Known(old(w.Now())) && (forall k :: 0 <= k < |calls| ==> !calls[k].Excuses(a)) ==>
              a in Known(w.Now()) || RevokedIn(calls, a)
    ensures forall a :: a in Known(w.Now()) ==> a in Known(old(w.Now())) || OpenedIn(calls, a)
  {
    hide Atoms, Core, AllAtoms, Left, Call.Excuses, RevokedIn, OpenedIn, Draining, Known, Opened, Flowing, Run, Logged;
    ghost var start, began := w.Now(), w.log;
    var b := new Backend(w);
    calls := [];
    NothingLogged(start, began);
    EmptyHasNoAtoms();
    assert Living(w, b, calls, start, began);
    for step := 0 to |tasks|
      invariant fresh(b) && Living(w, b, calls, start, began)
      invariant |calls| == step && forall k :: 0 <= k < step ==> Answered(calls[k], tasks[k])
    {
      hide Living;
      ghost var done := calls;
      b, calls := Turn(w, b, tasks[step], calls, start, began);
    }
    Conclude(calls, start, w.Now());
  }

  /** How a lifetime stands: its calls are what was logged, up to the present state,
      and memory holds at most what the last of them left. */
  ghost predicate Living(w: World, b: Backend, calls: seq<Call>, start: Durable, began: seq<Durable>)
    reads w, b
  {
    && b.world == w && b.Settled() && Run(calls)
    && w.log == began + Logged(calls) && Flowing(start, w.log, |began|)
    && if calls == [] then w.Now() == start && AllAtoms(b.Memory()) == iset{} && |w.log| == |began|
       else
         var last := calls[|calls| - 1];
         && SameStores(start, calls[0].start) && calls[0].held == iset{} && |w.log| > |began|
         && w.Now() == w.log[|w.log| - 1] && Left(last, w.Now())
         && AllAtoms(b.Memory()) <= last.Base() + Opened(last.trace, 0)
  }

  /** One task more: perhaps in a new process, after clients came and went. */
  method Turn(w: World, b: Backend, task: Task, ghost calls: seq<Call>, ghost start: Durable, ghost began: seq<Durable>)
    returns (next: Backend, ghost more: seq<Call>)
    requires Living(w, b, calls, start, began)
    modifies w, b
    ensures (next == b || fresh(next)) && Living(w, next, more, start, began)
    ensures |more| == |calls| + 1 && more[..|calls|] == calls && Answered(more[|calls|], task)
  {
    hide Atoms, Core, AllAtoms, CallKeeps, CallOwns, Left, Call.Excuses, ValidSnapshot, Draining, Known, Opened, Run;
    hide Backend.Exposed, Backend.Believed, Flowing, Flow, Logged, World.Sound, Backend.Trusted;
    next := b;
    EmptyHasNoAtoms();
    if task.restarts { next := new Backend(w); }
    ghost var between, log := w.Now(), w.log;
    w.Environment();
    GrownFlows(between, w);
    if calls != [] { LeftAlike(calls[|calls| - 1], between, w.Now()); }
    ghost var c: Call;
    next, c := OneCall(w, next, task.specs);
    RunExtends(calls, c);
    more := calls + [c];
    LoggedGrows(calls, c);
    FlowJoins(start, log, |began|, c.start, w.log);
    assert w.log == began + Logged(more);
  }

  /** The call did what was asked, and a new process remembers and exposes nothing. */
  ghost predicate Answered(c: Call, task: Task) {
    c.wanted == Atoms(task.specs) && (task.restarts ==> c.held == iset{} && c.exposed == iset{})
  }

  lemma NothingLogged(start: Durable, log: seq<Durable>)
    ensures Logged([]) == [] && Run([]) && Flowing(start, log, |log|)
  {
  }

  lemma LoggedGrows(calls: seq<Call>, c: Call)
    ensures Logged(calls + [c]) == Logged(calls) + ([c.start] + c.trace)
  {
    assert (calls + [c])[..|calls|] == calls;
  }

  lemma GrownFlows(before: Durable, w: World)
    requires before.table == w.table && w.Grown(before.entries)
    ensures Flow(before, w.Now())
  {
    hide MatchesAny;
  }

  lemma Conclude(calls: seq<Call>, start: Durable, end: Durable)
    requires Run(calls)
    requires if calls == [] then SameStores(start, end)
             else SameStores(start, calls[0].start) && calls[0].held == iset{} && Left(calls[|calls| - 1], end)
    ensures calls != [] ==> calls[0].Base() == Known(start)
    ensures forall a :: a in Draining(start) ==> a in Draining(end) || RevokedIn(calls, a)
    ensures forall a :: a in Known(start) && (forall k :: 0 <= k < |calls| ==> !calls[k].Excuses(a)) ==>
              a in Known(end) || RevokedIn(calls, a)
    ensures forall a :: a in Known(end) ==> a in Known(start) || OpenedIn(calls, a)
  {
    hide Atoms, CallKeeps, Left, Call.Excuses, RevokedIn, OpenedIn, WasActive, Draining, Known;
    if calls == [] {
      SameStoresKnow(start, end);
    } else {
      SameStoresKnow(start, calls[0].start);
      var last := |calls| - 1;
      assert calls[..last + 1] == calls;
      forall a ensures a in Draining(start) ==> a in Draining(end) || RevokedIn(calls, a)
               ensures a in Known(start) && (forall k :: 0 <= k < |calls| ==> !calls[k].Excuses(a)) ==>
                         a in Known(end) || RevokedIn(calls, a)
      {
        ObligationsSurviveEveryRun(calls, last, end, a);
      }
      LeftOwns(calls[last], end);
      forall a | a in Known(end) ensures a in Known(start) || OpenedIn(calls, a) {
        if a in calls[last].Base() { BaseOwns(calls, last, a); }
        if OpenedIn(calls[..last], a) || WasActive(calls[last].trace, 0, a) { OpenedInGrows(calls, last, a); }
      }
    }
  }

  lemma LeftAlike(c: Call, d: Durable, e: Durable)
    requires Left(c, d) && SameStores(d, e)
    ensures Left(c, e)
  {
  }

  lemma SameStoresKnow(d: Durable, e: Durable)
    requires SameStores(d, e)
    ensures Draining(d) == Draining(e) && Known(d) == Known(e)
  {
  }

  // ----- What is exposed, and that it happens -----

  /** A suspended scope that is to be resumed leaves every list when the plan must
      shrink: it is not active, and nothing schedules it. */
  lemma FallbackDropsResumed(m: Snapshot, target: Snapshot, a: Atom)
    requires ValidSnapshot(m) && ValidSnapshot(target)
    requires !Owns(m.active, a) && !Owns(m.pending, a) && !Owns(target.pending, a) && !Owns(target.suspended, a)
    ensures a !in AllAtoms(FallbackOf(m.active, m.pending, target))
  {
    var specs := PreviouslyAdmitted(target.active, m.active);
    PreviouslyAdmittedExact(target.active, m.active);
    assert !SomeAdmittedBefore(target.active, m.active, a);
    FallbackCovers(m.active, m.pending, target.pending, specs);
    var retired := Unique(m.pending + target.pending + Retired(m.active, specs));
    GateNeverOpens(target.suspended, retired);
    assert a !in Atoms(retired) && a !in Atoms(Gate(target.suspended, retired)) && a !in Atoms(specs);
  }

  /** A call that starts from a believed table, with memory `m`, and records its
      intent forgets whatever only the record listed. */
  lemma BelievedForgets(m: Snapshot, d: Durable, r: Record, desired: iset<Atom>, a: Atom)
    requires TableRoles(d.table) == m && d.record == Some(r) && d.revoked == []
    requires a in AllAtoms(r.confirmed) && a !in AllAtoms(m) && a !in desired
    ensures !Keeps(d, desired, d.(record := Some(r.(confirmed := OnDisk(m)))))
  {
    EmptyHasNoAtoms();
    OnDiskKeepsAtoms(m);
    hide Atoms, Core, AllAtoms, OnDisk;
    assert a in Known(d);
  }

  const RESUMED := SAMPLE.(ruleId := "resumed", listenPort := 90, targetPort := 9090)
  const RESUMED_ATOM := SAMPLE_ATOM.(ruleId := "resumed", listenPort := 90, targetPort := 9090)
  const ADDED := SAMPLE.(ruleId := "added", listenPort := 100, targetPort := 9100)

  /** It happens. Memory and record hold SAMPLE active and RESUMED suspended. The
      firewall clears and both are asked for; the intent is renamed into place but
      its directory is not synced, so the fallback is installed and believed. The
      next call no longer asks for RESUMED, and its recorded intent is the first
      state in which no store names RESUMED and nothing revoked it. */
  lemma ExposureHappens()
    ensures var before := Snapshot([SAMPLE], [], [RESUMED]);
            var plan := MakePlan(before.active, before.pending, before.suspended, [SAMPLE, RESUMED], None, true);
            var installed := FallbackOf(before.active, before.pending, Snapshot(plan.next, [], plan.suspended));
            var r := Record("instance", 2, Prepare, before, Snapshot(plan.next, [], []));
            var d := Durable(Some(Table(installed, Some("instance"), [], false)), Some(r), {}, []);
            plan.pending == [] && Storable(before, SAMPLE.mark)
            && RESUMED_ATOM in Known(d)
            && !Keeps(d, Atoms([SAMPLE, ADDED]), d.(record := Some(r.(confirmed := OnDisk(installed)))))
  {
    var before := Snapshot([SAMPLE], [], [RESUMED]);
    ResumedPlan();
    hide MakePlan, FallbackOf, Atoms, OnDisk;
    var installed := FallbackOf(before.active, before.pending, Snapshot([SAMPLE, RESUMED], [], []));
    var r := Record("instance", 2, Prepare, before, Snapshot([SAMPLE, RESUMED], [], []));
    var d := Durable(Some(Table(installed, Some("instance"), [], false)), Some(r), {}, []);
    FallbackDropsResumed(before, Snapshot([SAMPLE, RESUMED], [], []), RESUMED_ATOM);
    BelievedForgets(installed, d, r, Atoms([SAMPLE, ADDED]), RESUMED_ATOM);
  }

  lemma ResumedPlan()
    ensures MakePlan([SAMPLE], [], [RESUMED], [SAMPLE, RESUMED], None, true) == Plan([SAMPLE, RESUMED], [], [])
    ensures AllValid([SAMPLE]) && AllValid([RESUMED]) && AllValid([SAMPLE, RESUMED]) && AllValid([])
    ensures RESUMED_ATOM in Atoms([RESUMED]) && RESUMED_ATOM !in Atoms([SAMPLE]) + Atoms([SAMPLE, ADDED]) + Atoms([])
  {
    ResumedTuple();
    hide SAMPLE, RESUMED, Atoms, AllValid;
    var plan := MakePlan([SAMPLE], [], [RESUMED], [SAMPLE, RESUMED], None, true);
    PlanFacts(Snapshot([SAMPLE], [], [RESUMED]), [SAMPLE, RESUMED], None, true);
    NothingIsHeld([SAMPLE], [], [RESUMED], [SAMPLE, RESUMED]);
    hide MakePlan;
    EmptyHasNoAtoms();
    AtomsOfConcat([SAMPLE], [RESUMED]);
    assert [SAMPLE] + [RESUMED] == [SAMPLE, RESUMED];
    if plan.pending != [] { SomeAtom(plan.pending); }
  }

  lemma NothingIsHeld(active: seq<Spec>, pending: seq<Spec>, suspended: seq<Spec>, desired: seq<Spec>)
    ensures MakePlan(active, pending, suspended, desired, None, true).suspended == []
  {
  }

  lemma ResumedTuple()
    ensures AllValid([SAMPLE]) && AllValid([RESUMED]) && AllValid([SAMPLE, RESUMED]) && AllValid([])
    ensures RESUMED_ATOM in Atoms([RESUMED]) && RESUMED_ATOM !in Atoms([SAMPLE]) + Atoms([SAMPLE, ADDED]) + Atoms([])
  {
    AreValid();
    ResumedHas();
    hide SAMPLE, SAMPLE_ATOM, RESUMED, RESUMED_ATOM, ADDED, ValidSpec, Spec.Has;
  }

  lemma ResumedHas()
    ensures RESUMED.Has(RESUMED_ATOM) && !SAMPLE.Has(RESUMED_ATOM) && !ADDED.Has(RESUMED_ATOM)
  {
    assert RESUMED_ATOM.listenPort == 90 && SAMPLE.LastPort() == 80 && ADDED.listenPort == 100;
  }

  lemma AreValid()
    ensures ValidSpec(SAMPLE) && ValidSpec(RESUMED)
  {
  }

  // ----- Sizes -----

  function Many(n: nat): seq<Spec> {
    seq(n, i requires 0 <= i < n => SAMPLE.(listenPort := i + 1, targetPort := i + 1))
  }

  const ELSEWHERE := SAMPLE.(protocol := UDP)

  /** Bounding the pending list is not enough: with a full pending list and one
      more scope wanted, the reconciliation goes on to a staged plan that neither
      the record nor the reader of the journal accepts. */
  lemma PendingBoundIsNotEnough()
    ensures var m := Snapshot([], Many(MAX_ENTRIES), []);
            var due := DueFor(m, [ELSEWHERE]);
            && Journaled(m, SAMPLE.mark) && Acceptable([ELSEWHERE], SAMPLE.mark) && |due| <= MAX_ENTRIES
            && !Storable(OnDisk(Snapshot(Gate([ELSEWHERE], due), due, [])), SAMPLE.mark)
            && !Journaled(Snapshot(Gate([ELSEWHERE], due), due, []), SAMPLE.mark)
  {
    var m := Snapshot([], Many(MAX_ENTRIES), []);
    ManyAreFine(MAX_ENTRIES);
    DistinctIsUnique(m.pending);
    NothingRetired(m, [ELSEWHERE]);
    hide Unique, DueFor, Gate, Acceptable, DistinctKeys, Many, Journaled, Storable, OnDisk;
    NoneHit(m.pending);
    OneIsDistinct(Slice(ELSEWHERE, Interval(80, 80)));
    OneTooMany(Slice(ELSEWHERE, Interval(80, 80)), m.pending);
  }

  lemma OneTooMany(s: Spec, pending: seq<Spec>)
    requires |pending| == MAX_ENTRIES && Unique(pending) == pending && Unique([s]) == [s]
    requires Acceptable(pending, SAMPLE.mark) && Acceptable([], SAMPLE.mark)
    ensures Journaled(Snapshot([], pending, []), SAMPLE.mark)
    ensures !Storable(OnDisk(Snapshot([s], pending, [])), SAMPLE.mark)
    ensures !Journaled(Snapshot([s], pending, []), SAMPLE.mark)
  {
    hide Unique, Acceptable, DistinctKeys;
  }

  lemma OneIsDistinct(s: Spec)
    ensures Unique([s]) == [s]
  {
    DistinctIsUnique([s]);
  }

  lemma ManyAreFine(n: nat)
    requires n <= MAX_ENTRIES
    ensures |Many(n)| == n && DistinctKeys(Many(n)) && Acceptable(Many(n), SAMPLE.mark)
    ensures forall s :: s in Many(n) ==> s.protocol == TCP
    ensures Acceptable([], SAMPLE.mark) && Acceptable([ELSEWHERE], SAMPLE.mark)
  {
  }

  lemma NothingRetired(m: Snapshot, wanted: seq<Spec>)
    requires m.active == [] && m.suspended == []
    ensures DueFor(m, wanted) == Unique(m.pending)
  {
    assert Retired(History([], []), wanted) == [];
    assert m.pending + [] == m.pending;
  }

  lemma {:induction false} NoneHit(others: seq<Spec>)
    requires forall o :: o in others ==> o.protocol == TCP
    ensures Remaining(ELSEWHERE, others, IngressClash) == [Interval(80, 80)]
    ensures Gate([ELSEWHERE], others) == [Slice(ELSEWHERE, Interval(80, 80))]
  {
    if others != [] { NoneHit(others[..|others| - 1]); }
    var hit := IngressClash;
    assert [ELSEWHERE][..0] == [];
    assert Carve([ELSEWHERE], others, hit) == Carve([], others, hit)
        + Slices(ELSEWHERE, Remaining(ELSEWHERE, others, hit));
  }
}
