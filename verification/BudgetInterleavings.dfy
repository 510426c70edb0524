/** The shared budgets under every interleaving of their atomic steps: counters
    reserved by compare-and-swap, per-source counts under a shard lock, and the
    counted table of tracked UDP sources. */
module BudgetInterleavings {
  import opened NftSpecs

  // ----- Reserving several resources in turn -----

  datatype Resource =
    | GlobalTCP | GlobalUDP | UDPMemory
    | RuleTCP(rule: nat) | RuleUDP(rule: nat) | SourceTCP(rule: nat, source: Addr) | SourceUDP(rule: nat, source: Addr)
  {
    /** Per-source counts change under their shard's lock, the rest atomically. */
    predicate Locked() { SourceTCP? || SourceUDP? }
  }

  datatype Unit = Unit(resource: Resource, amount: nat)

  /** Where one goroutine is. `held` is what it has taken so far. */
  datatype Thread =
    | Resting
    | Taking(held: seq<Unit>, rest: seq<Unit>)
    | Loaded(held: seq<Unit>, rest: seq<Unit>, current: int)
    | Holding(held: seq<Unit>)
    | Returning(held: seq<Unit>)

  type Tid = nat

  datatype State = State(counters: map<Resource, int>, threads: map<Tid, Thread>)

  function Count(counters: map<Resource, int>, r: Resource): int {
    if r in counters then counters[r] else 0
  }

  /** What a goroutine wants when a connection or session arrives. */
  function TCPPlan(rule: nat, source: Addr): seq<Unit> {
    [Unit(GlobalTCP, 1), Unit(RuleTCP(rule), 1), Unit(SourceTCP(rule, source), 1)]
  }

  function UDPPlan(rule: nat, source: Addr, bytes: nat): seq<Unit> {
    [Unit(SourceUDP(rule, source), 1), Unit(RuleUDP(rule), 1), Unit(GlobalUDP, 1), Unit(UDPMemory, bytes)]
  }

  ghost predicate IsPlan(plan: seq<Unit>) {
    (exists rule, source :: plan == TCPPlan(rule, source))
        || (exists rule, source, bytes :: plan == UDPPlan(rule, source, bytes))
  }

  function Moved(s: State, t: Tid, next: Thread): State {
    s.(threads := s.threads[t := next])
  }

  function Added(s: State, r: Resource, amount: int): State {
    s.(counters := s.counters[r := Count(s.counters, r) + amount])
  }

  /** Not enough left: `amount` more would pass the maximum. */
  predicate Refused(current: int, unit: Unit, maximum: nat) {
    unit.amount <= 0 || maximum <= 0 || current > maximum - unit.amount
  }

  /** One atomic step of goroutine `t`. */
  ghost predicate Next(s: State, t: Tid, s': State, limits: Resource -> nat)
    requires t in s.threads
  {
    match s.threads[t]
    case Resting =>
      exists plan :: IsPlan(plan) && s' == Moved(s, t, Taking([], plan))
    case Taking(held, rest) =>
      if rest == [] then s' == Moved(s, t, Holding(held))
      else
        var unit := rest[0];
        if !unit.resource.Locked() then s' == Moved(s, t, Loaded(held, rest, Count(s.counters, unit.resource)))
        else if Count(s.counters, unit.resource) >= limits(unit.resource) then s' == Moved(s, t, Returning(held))
        else
          // A source that is out of tokens is refused below its session limit too.
          || (unit.resource.SourceUDP? && s' == Moved(s, t, Returning(held)))
          || s' == Moved(Added(s, unit.resource, 1), t, Taking(held + [unit.(amount := 1)], rest[1..]))
    case Loaded(held, rest, current) =>
      rest != [] &&
      var unit := rest[0];
      if Refused(current, unit, limits(unit.resource)) then s' == Moved(s, t, Returning(held))
      else if Count(s.counters, unit.resource) != current then s' == Moved(s, t, Taking(held, rest))
      else s' == Moved(Added(s, unit.resource, unit.amount), t, Taking(held + [unit], rest[1..]))
    case Holding(held) =>
      s' == Moved(s, t, Returning(held))
    case Returning(held) =>
      // Each unit is given back by its own atomic step, in any order.
      if held == [] then s' == Moved(s, t, Resting)
      else exists i :: 0 <= i < |held| && s' == GivenBack(s, t, held, i)
  }

  function GivenBack(s: State, t: Tid, held: seq<Unit>, i: nat): State
    requires i < |held|
  {
    Moved(Added(s, held[i].resource, 0 - held[i].amount), t, Returning(held[..i] + held[i + 1..]))
  }

  // ----- Every counter is the sum of what the goroutines hold -----

  ghost function HeldOf(held: seq<Unit>, r: Resource): nat {
    if held == [] then 0 else HeldOf(held[..|held| - 1], r) + UnitOf(held[|held| - 1], r)
  }

  ghost function UnitOf(u: Unit, r: Resource): nat {
    if u.resource == r then u.amount else 0
  }

  ghost function Holds(thread: Thread, r: Resource): nat {
    if thread.Resting? then 0 else HeldOf(thread.held, r)
  }

  /** The sum over all goroutines. */
  ghost function Sum(w: map<Tid, nat>): nat {
    if w == map[] then 0 else
      var t :| t in w;
      w[t] + Sum(w - {t})
  }

  /** The sum does not depend on the order of summation. */
  lemma {:induction false} SumTakes(w: map<Tid, nat>, t: Tid)
    requires t in w
    ensures Sum(w) == w[t] + Sum(w - {t})
    decreases |w|
  {
    var first :| first in w && Sum(w) == w[first] + Sum(w - {first});
    if first != t {
      SumTakes(w - {first}, t);
      SumTakes(w - {t}, first);
      assert w - {first} - {t} == w - {t} - {first};
    }
  }

  lemma SumMoved(w: map<Tid, nat>, t: Tid, n: nat)
    requires t in w
    ensures Sum(w[t := n]) == Sum(w) - w[t] + n
  {
    SumTakes(w, t);
    SumTakes(w[t := n], t);
    assert w[t := n] - {t} == w - {t};
  }

  lemma {:induction false} SumOfNone(w: map<Tid, nat>)
    requires forall t :: t in w ==> w[t] == 0
    ensures Sum(w) == 0
    decreases |w|
  {
    if w != map[] {
      var t :| t in w && Sum(w) == w[t] + Sum(w - {t});
      SumOfNone(w - {t});
    }
  }

  ghost function Held(threads: map<Tid, Thread>, r: Resource): map<Tid, nat> {
    map t | t in threads :: Holds(threads[t], r)
  }

  lemma HeldSnoc(held: seq<Unit>, u: Unit, r: Resource)
    ensures HeldOf(held + [u], r) == HeldOf(held, r) + UnitOf(u, r)
  {
    assert (held + [u])[..|held|] == held;
  }

  lemma {:induction false} HeldWithout(held: seq<Unit>, i: nat, r: Resource)
    requires i < |held|
    ensures HeldOf(held, r) == HeldOf(held[..i] + held[i + 1..], r) + UnitOf(held[i], r)
  {
    var last := |held| - 1;
    if i == last {
      assert held[..i] + held[i + 1..] == held[..last];
    } else {
      HeldWithout(held[..last], i, r);
      HeldSnoc(held[..last][..i] + held[..last][i + 1..], held[last], r);
      assert held[..i] + held[i + 1..] == held[..last][..i] + held[..last][i + 1..] + [held[last]];
    }
  }

  /** No counter exceeds its limit, and each is exactly what is held. */
  ghost predicate Sound(s: State, limits: Resource -> nat) {
    forall r :: Count(s.counters, r) == Sum(Held(s.threads, r)) <= limits(r)
  }

  /** A step of one goroutine that changes its own holdings and the counters
      alike, within the limits, keeps the books. */
  lemma StepBalances(s: State, t: Tid, s': State, limits: Resource -> nat)
    requires Sound(s, limits) && t in s.threads && t in s'.threads
    requires s'.threads == s.threads[t := s'.threads[t]]
    requires forall r :: Count(s'.counters, r) - Count(s.counters, r) == Holds(s'.threads[t], r)
              - Holds(s.threads[t], r)
    requires forall r :: Count(s'.counters, r) <= Count(s.counters, r) || Count(s'.counters, r) <= limits(r)
    ensures Sound(s', limits)
  {
    hide Holds, Count;
    forall r ensures Count(s'.counters, r) == Sum(Held(s'.threads, r)) <= limits(r) {
      SumMoved(Held(s.threads, r), t, Holds(s'.threads[t], r));
      assert Held(s'.threads, r) == Held(s.threads, r)[t := Holds(s'.threads[t], r)];
    }
  }

  lemma StepMoves(s: State, t: Tid, next: Thread, limits: Resource -> nat)
    requires Sound(s, limits) && t in s.threads
    requires forall r :: Holds(next, r) == Holds(s.threads[t], r)
    ensures Sound(Moved(s, t, next), limits)
  {
    StepBalances(s, t, Moved(s, t, next), limits);
  }

  lemma StepTakes(s: State, t: Tid, next: Thread, u: Unit, limits: Resource -> nat)
    requires Sound(s, limits) && t in s.threads && Count(s.counters, u.resource) + u.amount <= limits(u.resource)
    requires forall r :: Holds(next, r) == Holds(s.threads[t], r) + UnitOf(u, r)
    ensures Sound(Moved(Added(s, u.resource, u.amount), t, next), limits)
  {
    StepBalances(s, t, Moved(Added(s, u.resource, u.amount), t, next), limits);
  }

  lemma StepGivesBack(s: State, t: Tid, held: seq<Unit>, i: nat, limits: Resource -> nat)
    requires Sound(s, limits) && t in s.threads && s.threads[t] == Returning(held) && i < |held|
    ensures Sound(GivenBack(s, t, held, i), limits)
  {
    forall r ensures HeldOf(held[..i] + held[i + 1..], r) == HeldOf(held, r) - UnitOf(held[i], r) {
      HeldWithout(held, i, r);
    }
    StepBalances(s, t, GivenBack(s, t, held, i), limits);
  }

  lemma NextKeepsSound(s: State, t: Tid, s': State, limits: Resource -> nat)
    requires Sound(s, limits) && t in s.threads && Next(s, t, s', limits)
    ensures t in s'.threads && s'.threads.Keys == s.threads.Keys && Sound(s', limits)
  {
    hide Sound;
    match s.threads[t]
    case Resting =>
      StepMoves(s, t, s'.threads[t], limits);
    case Taking(held, rest) =>
      if rest != [] && rest[0].resource.Locked() && s'.threads[t].Taking? {
        var unit := rest[0].(amount := 1);
        forall r ensures HeldOf(held + [unit], r) == HeldOf(held, r) + UnitOf(unit, r) { HeldSnoc(held, unit, r); }
        StepTakes(s, t, s'.threads[t], unit, limits);
      } else {
        StepMoves(s, t, s'.threads[t], limits);
      }
    case Loaded(held, rest, current) =>
      var unit := rest[0];
      if !Refused(current, unit, limits(unit.resource)) && Count(s.counters, unit.resource) == current {
        forall r ensures HeldOf(held + [unit], r) == HeldOf(held, r) + UnitOf(unit, r) { HeldSnoc(held, unit, r); }
        StepTakes(s, t, s'.threads[t], unit, limits);
      } else {
        StepMoves(s, t, s'.threads[t], limits);
      }
    case Holding(held) =>
      StepMoves(s, t, s'.threads[t], limits);
    case Returning(held) =>
      if held == [] {
        StepMoves(s, t, s'.threads[t], limits);
      } else {
        var i :| 0 <= i < |held| && s' == GivenBack(s, t, held, i);
        StepGivesBack(s, t, held, i, limits);
      }
  }

  // ----- Runs -----

  /** Every step of a run is some goroutine's. */
  ghost predicate Run(run: seq<State>, limits: Resource -> nat) {
    && run != []
    && Sound(run[0], limits)
    && forall i :: 0 <= i < |run| - 1 ==> exists t :: t in run[i].threads && Next(run[i], t, run[i + 1], limits)
  }

  /** Whatever the interleaving, the caps hold at every moment, and each counter
      is exactly what goroutines hold, including those half way through. */
  lemma {:induction false} BudgetsHold(run: seq<State>, limits: Resource -> nat, i: nat)
    requires Run(run, limits) && i < |run|
    ensures Sound(run[i], limits)
  {
    hide Next, Sound;
    if i > 0 {
      BudgetsHold(run, limits, i - 1);
      var t :| t in run[i - 1].threads && Next(run[i - 1], t, run[i], limits);
      NextKeepsSound(run[i - 1], t, run[i], limits);
    }
  }

  ghost predicate AtRest(s: State) {
    forall t :: t in s.threads ==> s.threads[t].Resting? || s.threads[t].Holding?
  }

  /** What the established connections and sessions hold. */
  ghost function HeldByHolders(threads: map<Tid, Thread>, r: Resource): map<Tid, nat> {
    map t | t in threads && threads[t].Holding? :: HeldOf(threads[t].held, r)
  }

  /** When nobody is half way, the counters are what the holders hold: refused
      attempts have given everything back. */
  lemma RestoredAtRest(s: State, limits: Resource -> nat, r: Resource)
    requires Sound(s, limits) && AtRest(s)
    ensures Count(s.counters, r) == Sum(HeldByHolders(s.threads, r))
  {
    SumWithoutNones(Held(s.threads, r), HeldByHolders(s.threads, r));
  }

  lemma {:induction false} SumWithoutNones(w: map<Tid, nat>, some: map<Tid, nat>)
    requires some.Keys <= w.Keys
    requires forall t :: t in w ==> w[t] == if t in some then some[t] else 0
    ensures Sum(w) == Sum(some)
    decreases |w|
  {
    if w == map[] {
      assert some == map[];
    } else {
      var t :| t in w;
      SumTakes(w, t);
      if t in some { SumTakes(some, t); } else { assert some - {t} == some; }
      SumWithoutNones(w - {t}, some - {t});
    }
  }

  // ----- The counted table of tracked sources -----

  /** Where one goroutine is in `reserveUDPPacket` or `maintainUDPSources`. */
  datatype Tracker =
    | Outside
    | Inside(source: Addr)
    | Counted(source: Addr, current: int)
    | Reserved(source: Addr)
    | Leaving(shard: nat)
    | Sweeping(shard: nat)
    | Swept(shard: nat, deleted: nat)
    | Owing(deleted: nat)

  /** `count` is the shared counter, `present` the sources with a state, `locks`
      who holds which shard. */
  datatype Table = Table(count: int, present: set<Addr>, locks: map<nat, Tid>, trackers: map<Tid, Tracker>)

  const ENTRIES_PER_SWEEP := 256

  ghost predicate Tracks(s: Table, t: Tid, s': Table, shardOf: Addr -> nat, maximum: nat)
    requires t in s.trackers
  {
    match s.trackers[t]
    case Outside =>
      || (exists a :: shardOf(a) !in s.locks && s' == Locked(s, t, shardOf(a), Inside(a)))
      || (exists shard :: shard !in s.locks && s' == Locked(s, t, shard, Sweeping(shard)))
    case Inside(a) =>
      if a in s.present then s' == Went(s, t, Leaving(shardOf(a))) else s' == Went(s, t, Counted(a, s.count))
    case Counted(a, current) =>
      if maximum <= 0 || current > maximum - 1 then s' == Went(s, t, Leaving(shardOf(a)))
      else if s.count != current then s' == Went(s, t, Inside(a))
      else s' == Went(s, t, Reserved(a)).(count := s.count + 1)
    case Reserved(a) =>
      s' == Went(s, t, Leaving(shardOf(a))).(present := s.present + {a})
    case Leaving(shard) =>
      s' == Went(s, t, Outside).(locks := s.locks - {shard})
    case Sweeping(shard) =>
      exists victims :: victims <= s.present && |victims| <= ENTRIES_PER_SWEEP
                        && (forall v :: v in victims ==> shardOf(v) == shard)
                        && s' == Deleted(s, t, shard, victims)
    case Swept(shard, deleted) =>
      s' == Went(s, t, Owing(deleted)).(locks := s.locks - {shard})
    case Owing(deleted) =>
      s' == Went(s, t, Outside).(count := s.count - deleted)
  }

  function Went(s: Table, t: Tid, next: Tracker): Table {
    s.(trackers := s.trackers[t := next])
  }

  function Locked(s: Table, t: Tid, shard: nat, next: Tracker): Table {
    Went(s, t, next).(locks := s.locks[shard := t])
  }

  function Deleted(s: Table, t: Tid, shard: nat, victims: set<Addr>): Table {
    Went(s, t, Swept(shard, |victims|)).(present := s.present - victims)
  }

  /** Counted but not in the table: about to be inserted, or already deleted. */
  function Ahead(tracker: Tracker): nat {
    match tracker
    case Reserved(_) => 1
    case Swept(_, n) => n
    case Owing(n) => n
    case _ => 0
  }

  /** The shard a goroutine has locked, if any. */
  function Locks(tracker: Tracker, shardOf: Addr -> nat): Option<nat> {
    match tracker
    case Outside => None
    case Owing(_) => None
    case Inside(a) => Some(shardOf(a))
    case Counted(a, _) => Some(shardOf(a))
    case Reserved(a) => Some(shardOf(a))
    case Leaving(shard) => Some(shard)
    case Sweeping(shard) => Some(shard)
    case Swept(shard, _) => Some(shard)
  }

  ghost function AheadOf(trackers: map<Tid, Tracker>): map<Tid, nat> {
    map t | t in trackers :: Ahead(trackers[t])
  }

  ghost predicate LocksOk(s: Table, shardOf: Addr -> nat) {
    forall t :: t in s.trackers ==>
      var shard := Locks(s.trackers[t], shardOf);
      shard.Some? ==> shard.value in s.locks && s.locks[shard.value] == t
  }

  ghost predicate AbsentOk(s: Table) {
    forall t :: t in s.trackers && (s.trackers[t].Counted? || s.trackers[t].Reserved?) ==>
         s.trackers[t].source !in s.present
  }

  ghost predicate Tracked(s: Table, shardOf: Addr -> nat, maximum: nat) {
    LocksOk(s, shardOf) && AbsentOk(s) && s.count == |s.present| + Sum(AheadOf(s.trackers)) && s.count <= maximum
  }

  lemma AheadMoved(trackers: map<Tid, Tracker>, t: Tid, next: Tracker)
    requires t in trackers
    ensures Sum(AheadOf(trackers[t := next])) == Sum(AheadOf(trackers)) - Ahead(trackers[t]) + Ahead(next)
  {
    SumMoved(AheadOf(trackers), t, Ahead(next));
    assert AheadOf(trackers[t := next]) == AheadOf(trackers)[t := Ahead(next)];
  }

  lemma LocksKept(s: Table, t: Tid, s': Table, shardOf: Addr -> nat, maximum: nat)
    requires t in s.trackers && LocksOk(s, shardOf) && Tracks(s, t, s', shardOf, maximum)
    ensures LocksOk(s', shardOf) && s'.trackers.Keys == s.trackers.Keys
    ensures forall u :: u in s.trackers && u != t ==> s'.trackers[u] == s.trackers[u]
  {
  }

  /** Nobody inserts a source that another goroutine has found missing: both
      would hold the lock of its shard. */
  lemma AbsentKept(s: Table, t: Tid, s': Table, shardOf: Addr -> nat, maximum: nat)
    requires t in s.trackers && LocksOk(s, shardOf) && AbsentOk(s) && Tracks(s, t, s', shardOf, maximum)
    ensures AbsentOk(s')
  {
  }

  lemma Apart(all: set<Addr>, some: set<Addr>)
    requires some <= all
    ensures |all| == |all - some| + |some|
  {
    assert all == (all - some) + some;
  }

  lemma CountKept(s: Table, t: Tid, s': Table, shardOf: Addr -> nat, maximum: nat)
    requires t in s.trackers && Tracks(s, t, s', shardOf, maximum)
    requires s.count == |s.present| + Sum(AheadOf(s.trackers)) && s.count <= maximum
    requires s.trackers[t].Reserved? ==> s.trackers[t].source !in s.present
    ensures s'.count == |s'.present| + Sum(AheadOf(s'.trackers)) && s'.count <= maximum
  {
    CountStep(s, t, s', shardOf, maximum);
    hide Tracks;
    AheadMoved(s.trackers, t, s'.trackers[t]);
  }

  lemma CountStep(s: Table, t: Tid, s': Table, shardOf: Addr -> nat, maximum: nat)
    requires t in s.trackers && Tracks(s, t, s', shardOf, maximum)
    requires s.trackers[t].Reserved? ==> s.trackers[t].source !in s.present
    requires s.count <= maximum
    ensures t in s'.trackers && s'.trackers == s.trackers[t := s'.trackers[t]]
    ensures s'.count - |s'.present| - Ahead(s'.trackers[t]) == s.count - |s.present| - Ahead(s.trackers[t])
    ensures s'.count <= maximum
  {
    match s.trackers[t]
    case Sweeping(shard) =>
      var victims :| victims <= s.present && s' == Deleted(s, t, shard, victims);
      Apart(s.present, victims);
    case Outside =>
      assert s'.present == s.present;
    case _ =>
  }

  /** The shard lock makes counting and inserting one source look atomic. */
  lemma TracksKeepsTracked(s: Table, t: Tid, s': Table, shardOf: Addr -> nat, maximum: nat)
    requires t in s.trackers && Tracked(s, shardOf, maximum) && Tracks(s, t, s', shardOf, maximum)
    ensures Tracked(s', shardOf, maximum) && s'.trackers.Keys == s.trackers.Keys
  {
    LocksKept(s, t, s', shardOf, maximum);
    AbsentKept(s, t, s', shardOf, maximum);
    CountKept(s, t, s', shardOf, maximum);
  }

  ghost predicate TrackRun(run: seq<Table>, shardOf: Addr -> nat, maximum: nat) {
    && run != []
    && Tracked(run[0], shardOf, maximum)
    && forall i :: 0 <= i < |run| - 1 ==>
         exists t :: t in run[i].trackers && Tracks(run[i], t, run[i + 1], shardOf, maximum)
  }

  /** At every moment the counter covers the table and respects the maximum; when
      no goroutine is half way, it is the table's size. */
  lemma {:induction false} CounterCoversTable(run: seq<Table>, shardOf: Addr -> nat, maximum: nat, i: nat)
    requires TrackRun(run, shardOf, maximum) && i < |run|
    ensures Tracked(run[i], shardOf, maximum)
    ensures |run[i].present| <= run[i].count <= maximum
    ensures (forall t :: t in run[i].trackers ==> Ahead(run[i].trackers[t]) == 0) ==> run[i].count == |run[i].present|
  {
    hide Tracks, Tracked;
    if i > 0 {
      CounterCoversTable(run, shardOf, maximum, i - 1);
      var t :| t in run[i - 1].trackers && Tracks(run[i - 1], t, run[i], shardOf, maximum);
      TracksKeepsTracked(run[i - 1], t, run[i], shardOf, maximum);
    }
    CountsTable(run[i], shardOf, maximum);
  }

  lemma CountsTable(s: Table, shardOf: Addr -> nat, maximum: nat)
    requires Tracked(s, shardOf, maximum)
    ensures |s.present| <= s.count <= maximum
    ensures (forall t :: t in s.trackers ==> Ahead(s.trackers[t]) == 0) ==> s.count == |s.present|
  {
    if forall t :: t in s.trackers ==> Ahead(s.trackers[t]) == 0 {
      SumOfNone(AheadOf(s.trackers));
    }
  }
}
