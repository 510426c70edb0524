/** The per-source UDP budget of a rule: one token bucket for packets, one for
    new sessions, and the incremental eviction of idle sources. */
module TokenBuckets {
  import opened NftSpecs

  datatype Limits = Limits(maxSessions: nat, newSessionsRate: nat, packetRate: nat, maxTracked: nat) {
    /** Validated configuration: both rates are at least one per second. */
    predicate Valid() { newSessionsRate >= 1 && packetRate >= 1 }
  }

  datatype Source = Source(active: nat, newTokens: real, packetTokens: real, lastRefill: real, lastSeen: real)

  type Sources = map<Addr, Source>

  function Min(a: real, b: real): real { if a <= b then a else b }

  function Fresh(now: real, limits: Limits): Source {
    Source(0, limits.newSessionsRate as real, limits.packetRate as real, now, now)
  }

  /** What a bucket gains in a time. */
  function Accrued(elapsed: real, rate: nat): real { elapsed * rate as real }

  function Refilled(s: Source, now: real, limits: Limits): Source {
    var elapsed := if now > s.lastRefill then now - s.lastRefill else 0.0;
    s.(newTokens := Min(limits.newSessionsRate as real, s.newTokens + Accrued(elapsed, limits.newSessionsRate)),
       packetTokens := Min(limits.packetRate as real, s.packetTokens + Accrued(elapsed, limits.packetRate)),
       lastRefill := s.lastRefill + elapsed)
  }

  function Charged(s: Source, newSession: bool, limits: Limits): (Source, bool) {
    if s.packetTokens < 1.0 || (newSession && (s.active >= limits.maxSessions || s.newTokens < 1.0)) then (s, false)
    else
      var paid := s.(packetTokens := s.packetTokens - 1.0);
      (if newSession then paid.(active := s.active + 1, newTokens := s.newTokens - 1.0) else paid, true)
  }

  /** One packet of a source; `room` says whether one more source may be tracked. */
  function Packet(states: Sources, source: Addr, newSession: bool, now: real, limits: Limits, room: bool): (Sources,
                                                                                                            bool) {
    if source !in states && !room then (states, false)
    else
      var state := if source in states then Refilled(states[source], now, limits).(lastSeen := now)
          else Fresh(now, limits);
      var (charged, ok) := Charged(state, newSession, limits);
      (states[source := charged], ok)
  }

  function OneLess(active: nat): nat { if active > 0 then active - 1 else 0 }

  function Rollback(states: Sources, source: Addr, limits: Limits): Sources {
    if source !in states then states
    else
      var s := states[source];
      states[source := s.(active := OneLess(s.active),
                          newTokens := Min(limits.newSessionsRate as real, s.newTokens + 1.0))]
  }

  function Release(states: Sources, source: Addr, now: real): Sources {
    if source !in states then states
    else
      var s := states[source];
      states[source := s.(active := OneLess(s.active), lastSeen := now)]
  }

  predicate Idle(s: Source, now: real, idle: real) {
    s.active == 0 && s.lastSeen <= now - idle
  }

  function Evicted(states: Sources, victims: set<Addr>, now: real, idle: real): Sources {
    map a | a in states && !(a in victims && Idle(states[a], now, idle)) :: states[a]
  }

  // ----- The source's methods -----

  const SHARDS := 64
  const SHARDS_PER_SWEEP := 4
  const ENTRIES_PER_SHARD := 256
  const CURSOR_RANGE := 0x1_0000_0000

  class RuleBudget {
    var states: Sources
    var cursor: nat
    var nextCleanup: int
    // The address fold; any function will do.
    const fold: Addr -> nat

    function Shard(a: Addr): (shard: int)
      ensures 0 <= shard < SHARDS
    {
      fold(a) % SHARDS
    }

    constructor (fold: Addr -> nat)
      ensures states == map[] && cursor == 0 && nextCleanup == 0
    {
      this.fold, states, cursor, nextCleanup := fold, map[], 0, 0;
    }

    method ReservePacket(source: Addr, newSession: bool, now: real, limits: Limits) returns (ok: bool)
      modifies this`states
      ensures (states, ok) == Packet(old(states), source, newSession, now, limits, |old(states)| < limits.maxTracked)
    {
      if source !in states {
        if |states| >= limits.maxTracked { return false; }
        states := states[source := Fresh(now, limits)];
      } else {
        states := states[source := Refilled(states[source], now, limits).(lastSeen := now)];
      }
      var state := states[source];
      if state.packetTokens < 1.0 { return false; }
      if newSession && (state.active >= limits.maxSessions || state.newTokens < 1.0) { return false; }
      state := state.(packetTokens := state.packetTokens - 1.0);
      if newSession {
        state := state.(active := state.active + 1, newTokens := state.newTokens - 1.0);
      }
      states := states[source := state];
      assert states == old(states)[source := state];
      return true;
    }

    method RollbackSession(source: Addr, limits: Limits)
      modifies this`states
      ensures states == Rollback(old(states), source, limits)
    {
      if source in states {
        var state := states[source];
        if state.active > 0 { state := state.(active := state.active - 1); }
        state := state.(newTokens := state.newTokens + 1.0);
        if state.newTokens > limits.newSessionsRate as real {
          state := state.(newTokens := limits.newSessionsRate as real);
        }
        states := states[source := state];
      }
    }

    method ReleaseSession(source: Addr, now: real)
      modifies this`states
      ensures states == Release(old(states), source, now)
    {
      if source in states {
        var state := states[source];
        if state.active > 0 { state := state.(active := state.active - 1); }
        states := states[source := state.(lastSeen := now)];
      }
    }

    function OnShard(all: Sources, shard: int): set<Addr> {
      set a | a in all && Shard(a) == shard
    }

    /** One shard: at most so many entries are inspected, in no particular order. */
    method SweepShard(shard: int, now: real, idle: real) returns (inspected: nat, ghost victims: set<Addr>)
      modifies this`states
      ensures inspected <= ENTRIES_PER_SHARD
      ensures states == Evicted(old(states), victims, now, idle)
      ensures forall a :: a in victims ==> a in old(states) && Shard(a) == shard
      ensures |OnShard(old(states), shard)| < ENTRIES_PER_SHARD ==> victims == OnShard(old(states), shard)
      ensures inspected == if |OnShard(old(states), shard)| < ENTRIES_PER_SHARD then |OnShard(old(states), shard)|
                           else ENTRIES_PER_SHARD
    {
      var before := states;
      var todo := OnShard(before, shard);
      ghost var all := todo;
      inspected, victims := 0, {};
      while todo != {} && inspected < ENTRIES_PER_SHARD
        invariant inspected <= ENTRIES_PER_SHARD
        invariant todo !! victims && todo + victims == all && inspected == |victims| && |todo| + |victims| == |all|
        invariant states == Evicted(before, victims, now, idle)
        decreases todo
      {
        var a :| a in todo;
        todo := todo - {a};
        inspected := inspected + 1;
        assert a in states;
        if Idle(states[a], now, idle) {
          states := states - {a};
        }
        victims := victims + {a};
      }
    }

    /** One sweep a second, over the next four shards. */
    method MaintainSources(now: real, idle: real) returns (inspected: nat, ghost victims: set<Addr>)
      requires cursor < CURSOR_RANGE
      modifies this
      ensures cursor < CURSOR_RANGE && inspected <= SHARDS_PER_SWEEP * ENTRIES_PER_SHARD
      ensures states == Evicted(old(states), victims, now, idle)
      ensures now.Floor < old(nextCleanup) ==>
                states == old(states) && cursor == old(cursor) && nextCleanup == old(nextCleanup)
      ensures now.Floor >= old(nextCleanup) ==>
                && cursor == (old(cursor) + SHARDS_PER_SWEEP) % CURSOR_RANGE
                && nextCleanup == now.Floor + 1
                && (forall a :: a in victims ==> InSweep(old(cursor), Shard(a)))
                && forall a :: (&& a in states && InSweep(old(cursor), Shard(a))
                                && |OnShard(old(states), Shard(a))| < ENTRIES_PER_SHARD) ==> !Idle(states[a], now, idle)
    {
      hide OnShard, Idle, Reached, Evicted, InSweep;
      EvictNone(states, now, idle);
      inspected, victims := 0, {};
      StartsReached(states, cursor);
      if now.Floor < nextCleanup {
        return;
      }
      nextCleanup := now.Floor + 1;
      var start := cursor % SHARDS;
      cursor := (cursor + SHARDS_PER_SWEEP) % CURSOR_RANGE;
      ghost var before := states;
      for offset := 0 to SHARDS_PER_SWEEP
        modifies this`states
        invariant inspected <= offset * ENTRIES_PER_SHARD
        invariant states == Evicted(before, victims, now, idle)
        invariant forall a :: a in victims ==> InSweep(old(cursor), Shard(a))
        invariant Reached(before, old(cursor), offset, victims)
      {
        ghost var current, was := (start + offset) % SHARDS, states;
        var n, more := SweepShard((start + offset) % SHARDS, now, idle);
        OffsetInSweep(old(cursor), offset);
        inspected := inspected + n;
        EvictMore(before, victims, more, now, idle);
        ReachesMore(before, was, old(cursor), offset, victims, more, now, idle);
        victims := victims + more;
      }
      AllReached(before, old(cursor), victims, now, idle);
    }

    /** Every source of the shards swept so far has been inspected, unless its shard
        holds more than one sweep inspects. */
    ghost predicate Reached(before: Sources, cursor: nat, offset: nat, victims: set<Addr>) {
      forall a :: (&& a in before && (Shard(a) - cursor) % SHARDS < offset
                   && |OnShard(before, Shard(a))| < ENTRIES_PER_SHARD) ==> a in victims
    }

    lemma ReachesMore(before: Sources, was: Sources, cursor: nat, offset: nat, victims: set<Addr>, more: set<Addr>,
                      now: real, idle: real)
      requires Reached(before, cursor, offset, victims) && was == Evicted(before, victims, now, idle)
      requires var shard := (cursor % SHARDS + offset) % SHARDS;
               |OnShard(was, shard)| < ENTRIES_PER_SHARD ==> more == OnShard(was, shard)
      ensures Reached(before, cursor, offset + 1, victims + more)
    {
      var shard := (cursor % SHARDS + offset) % SHARDS;
      Smaller(OnShard(was, shard), OnShard(before, shard));
      forall a | && a in before && (Shard(a) - cursor) % SHARDS == offset
                 && |OnShard(before, Shard(a))| < ENTRIES_PER_SHARD
        ensures a in victims + more
      {
        SameResidue(Shard(a), cursor, offset);
      }
    }

    lemma StartsReached(before: Sources, cursor: nat)
      ensures Reached(before, cursor, 0, {})
    {
    }

    lemma AllReached(before: Sources, cursor: nat, victims: set<Addr>, now: real, idle: real)
      requires Reached(before, cursor, SHARDS_PER_SWEEP, victims)
      ensures forall a :: (&& a in Evicted(before, victims, now, idle) && InSweep(cursor, Shard(a))
                           && |OnShard(before, Shard(a))| < ENTRIES_PER_SHARD) ==>
                !Idle(Evicted(before, victims, now, idle)[a], now, idle)
    {
    }

    /** Whatever is asked of the budget is one event of a trace; which sources a
        sweep inspects is up to the budget. */
    method Handle(asked: Event, now: real, limits: Limits, idle: real) returns (ok: bool, ghost e: Event)
      requires cursor < CURSOR_RANGE
      modifies this
      ensures cursor < CURSOR_RANGE
      ensures (states, ok) == Step(old(states), e, now, limits, idle, false)
      ensures if asked.Sweeps? then e.Sweeps? else e == asked
    {
      ok, e := true, asked;
      match asked {
        case Arrives(source, newSession) => ok := ReservePacket(source, newSession, now, limits);
        case RollsBack(source) => RollbackSession(source, limits);
        case Releases(source) => ReleaseSession(source, now);
        case Sweeps(_) =>
          var inspected;
          ghost var victims;
          inspected, victims := MaintainSources(now, idle);
          e := Sweeps(victims);
      }
    }
  }

  lemma EvictNone(states: Sources, now: real, idle: real)
    ensures Evicted(states, {}, now, idle) == states
  {
  }

  lemma EvictMore(states: Sources, victims: set<Addr>, more: set<Addr>, now: real, idle: real)
    ensures Evicted(Evicted(states, victims, now, idle), more, now, idle) == Evicted(states, victims + more, now, idle)
  {
  }

  lemma OffsetInSweep(cursor: nat, offset: nat)
    requires offset < SHARDS_PER_SWEEP
    ensures InSweep(cursor, (cursor % SHARDS + offset) % SHARDS)
  {
    assert ((cursor % SHARDS + offset) % SHARDS - cursor) % SHARDS == offset;
  }

  lemma SameResidue(shard: int, cursor: nat, offset: nat)
    requires 0 <= shard < SHARDS && (shard - cursor) % SHARDS == offset
    ensures shard == (cursor % SHARDS + offset) % SHARDS
  {
    var q := (shard - cursor) / SHARDS;
    assert shard - cursor == SHARDS * q + offset;
    assert cursor == SHARDS * (cursor / SHARDS) + cursor % SHARDS;
    assert cursor % SHARDS + offset == SHARDS * (-q - cursor / SHARDS) + shard;
    Remainder(-q - cursor / SHARDS, shard);
  }

  lemma Smaller<T>(a: set<T>, b: set<T>)
    requires a <= b
    ensures |a| <= |b|
  {
    assert b == a + (b - a);
  }

  /** The shards one sweep visits. */
  predicate InSweep(cursor: nat, shard: int) {
    (shard - cursor) % SHARDS < SHARDS_PER_SWEEP
  }

  /** Sixteen sweeps in a row visit every shard, also across the cursor's
      wraparound. */
  lemma SweepsCoverAllShards(cursor: nat, shard: int) returns (sweep: nat)
    requires cursor < CURSOR_RANGE && 0 <= shard < SHARDS
    ensures sweep < SHARDS / SHARDS_PER_SWEEP
    ensures InSweep((cursor + sweep * SHARDS_PER_SWEEP) % CURSOR_RANGE, shard)
  {
    sweep := (shard - cursor) % SHARDS / SHARDS_PER_SWEEP;
    var later := (cursor + sweep * SHARDS_PER_SWEEP) % CURSOR_RANGE;
    var turns, q := (cursor + sweep * SHARDS_PER_SWEEP) / CURSOR_RANGE, (shard - cursor) / SHARDS;
    assert cursor + sweep * SHARDS_PER_SWEEP == later + SHARDS * (turns * (CURSOR_RANGE / SHARDS));
    assert shard - cursor == SHARDS * q + (shard - cursor) % SHARDS;
    var rest := (shard - cursor) % SHARDS - sweep * SHARDS_PER_SWEEP;
    assert shard - later == SHARDS * (q + turns * (CURSOR_RANGE / SHARDS)) + rest;
    Remainder(q + turns * (CURSOR_RANGE / SHARDS), rest);
  }

  lemma Remainder(q: int, rest: int)
    requires 0 <= rest < SHARDS
    ensures (SHARDS * q + rest) % SHARDS == rest
  {
  }

  // ----- What a source is worth at a time -----

  /** What matters about a source: its sessions and the tokens it would have. */
  datatype View = View(active: nat, newTokens: real, packetTokens: real)

  /** A bucket some time later. */
  function Later(tokens: real, elapsed: real, rate: nat): real {
    Min(rate as real, tokens + Accrued(elapsed, rate))
  }

  function Seen(states: Sources, a: Addr, now: real, limits: Limits): View {
    if a in states then
      var s := Refilled(states[a], now, limits);
      View(s.active, s.newTokens, s.packetTokens)
    else
      View(0, limits.newSessionsRate as real, limits.packetRate as real)
  }

  /** What one packet does to a view. */
  function Charge(v: View, newSession: bool, limits: Limits): (View, bool) {
    if v.packetTokens < 1.0 || (newSession && (v.active >= limits.maxSessions || v.newTokens < 1.0)) then (v, false)
    else if newSession then (View(v.active + 1, v.newTokens - 1.0, v.packetTokens - 1.0), true)
    else (v.(packetTokens := v.packetTokens - 1.0), true)
  }

  ghost predicate Proper(s: Source, now: real, limits: Limits) {
    && s.lastRefill <= s.lastSeen <= now
    && 0.0 <= s.newTokens <= limits.newSessionsRate as real
    && 0.0 <= s.packetTokens <= limits.packetRate as real
    && s.active <= limits.maxSessions
  }

  ghost predicate ProperAll(states: Sources, now: real, limits: Limits) {
    limits.Valid() && forall a :: a in states ==> Proper(states[a], now, limits)
  }

  lemma Grows(elapsed: real, rate: nat)
    requires elapsed >= 0.0
    ensures Accrued(elapsed, rate) >= 0.0
    ensures elapsed >= 1.0 ==> Accrued(elapsed, rate) >= rate as real
  {
  }

  lemma Nothing(rate: nat)
    ensures Accrued(0.0, rate) == 0.0
  {
  }

  lemma Twice(x: real, y: real, rate: nat)
    ensures Accrued(x + y, rate) == Accrued(x, rate) + Accrued(y, rate)
  {
  }

  /** Refilling in two steps is refilling once. */
  lemma LaterTwice(tokens: real, x: real, y: real, rate: nat)
    requires x >= 0.0 && y >= 0.0
    ensures Later(Later(tokens, x, rate), y, rate) == Later(tokens, x + y, rate)
  {
    hide Accrued;
    Grows(x, rate);
    Grows(y, rate);
    Twice(x, y, rate);
  }

  lemma SeenLater(states: Sources, a: Addr, now: real, later: real, limits: Limits)
    requires ProperAll(states, now, limits) && now <= later
    ensures Seen(states, a, later, limits).active == Seen(states, a, now, limits).active
    ensures Seen(states, a, later, limits).newTokens ==
              Later(Seen(states, a, now, limits).newTokens, later - now, limits.newSessionsRate)
    ensures Seen(states, a, later, limits).packetTokens ==
              Later(Seen(states, a, now, limits).packetTokens, later - now, limits.packetRate)
  {
    hide Accrued;
    Grows(later - now, limits.newSessionsRate);
    Grows(later - now, limits.packetRate);
    if a in states {
      var s := states[a];
      LaterTwice(s.newTokens, now - s.lastRefill, later - now, limits.newSessionsRate);
      LaterTwice(s.packetTokens, now - s.lastRefill, later - now, limits.packetRate);
    }
  }

  // ----- Runs -----

  datatype Event =
    | Arrives(source: Addr, newSession: bool)
    | RollsBack(source: Addr)
    | Releases(source: Addr)
    | Sweeps(victims: set<Addr>)

  /** One event. A `keeping` budget never evicts and never runs out of room. */
  function Step(states: Sources, e: Event, now: real, limits: Limits, idle: real, keeping: bool): (Sources, bool) {
    match e
    case Arrives(source, newSession) => Packet(states, source, newSession, now, limits,
                                               keeping || |states| < limits.maxTracked)
    case RollsBack(source) => (Rollback(states, source, limits), true)
    case Releases(source) => (Release(states, source, now), true)
    case Sweeps(victims) => (if keeping then states else Evicted(states, victims, now, idle), true)
  }

  /** The effect of an event on the view of a source, wherever it has room. */
  function StepView(v: View, a: Addr, e: Event, limits: Limits): (View, bool) {
    match e
    case Arrives(source, newSession) => if source == a then Charge(v, newSession, limits) else (v, true)
    case RollsBack(source) =>
      if source == a then (v.(active := OneLess(v.active), newTokens := Min(limits.newSessionsRate as real, v.newTokens
                                                                            + 1.0)), true)
      else (v, true)
    case Releases(source) => if source == a then (v.(active := OneLess(v.active)), true) else (v, true)
    case Sweeps(_) => (v, true)
  }

  predicate HasRoom(states: Sources, e: Event, limits: Limits) {
    e.Arrives? ==> e.source in states || |states| < limits.maxTracked
  }

  /** An idle source has full buckets, so evicting it changes no view. */
  lemma IdleIsFull(states: Sources, a: Addr, now: real, limits: Limits, idle: real)
    requires ProperAll(states, now, limits) && a in states && Idle(states[a], now, idle) && idle >= 1.0
    ensures Seen(states, a, now, limits) == View(0, limits.newSessionsRate as real, limits.packetRate as real)
  {
    hide Accrued;
    var s := states[a];
    Grows(now - s.lastRefill, limits.newSessionsRate);
    Grows(now - s.lastRefill, limits.packetRate);
  }

  /** Every event acts on a source only through its view. */
  lemma StepActsOnViews(states: Sources, e: Event, now: real, limits: Limits, idle: real, keeping: bool, a: Addr)
    requires ProperAll(states, now, limits) && idle >= 1.0
    requires keeping || HasRoom(states, e, limits)
    ensures var (after, ok) := Step(states, e, now, limits, idle, keeping);
            && Seen(after, a, now, limits) == StepView(Seen(states, a, now, limits), a, e, limits).0
            && (e.Arrives? && e.source == a ==> ok == StepView(Seen(states, a, now, limits), a, e, limits).1)
  {
    hide Accrued;
    Nothing(limits.newSessionsRate);
    Nothing(limits.packetRate);
    SeenProper(states, a, now, limits);
    if e.RollsBack? && e.source == a && a in states {
      var s := states[a];
      Grows(now - s.lastRefill, limits.newSessionsRate);
    }
    if e.Sweeps? && a in e.victims && a in states && Idle(states[a], now, idle) {
      IdleIsFull(states, a, now, limits, idle);
    }
  }

  lemma StepKeepsProper(states: Sources, e: Event, now: real, limits: Limits, idle: real, keeping: bool)
    requires ProperAll(states, now, limits)
    ensures ProperAll(Step(states, e, now, limits, idle, keeping).0, now, limits)
  {
    hide Accrued;
    forall a | a in states
      ensures Proper(Refilled(states[a], now, limits).(lastSeen := now), now, limits)
    {
      var s := states[a];
      Grows(now - s.lastRefill, limits.newSessionsRate);
      Grows(now - s.lastRefill, limits.packetRate);
    }
  }

  lemma SeenProper(states: Sources, a: Addr, now: real, limits: Limits)
    requires ProperAll(states, now, limits)
    ensures 0.0 <= Seen(states, a, now, limits).newTokens <= limits.newSessionsRate as real
    ensures 0.0 <= Seen(states, a, now, limits).packetTokens <= limits.packetRate as real
    ensures Seen(states, a, now, limits).active <= limits.maxSessions
  {
    hide Accrued;
    if a in states {
      Grows(now - states[a].lastRefill, limits.newSessionsRate);
      Grows(now - states[a].lastRefill, limits.packetRate);
    }
  }

  lemma LaterProper(states: Sources, now: real, later: real, limits: Limits)
    requires ProperAll(states, now, limits) && now <= later
    ensures ProperAll(states, later, limits)
  {
  }

  type Trace = seq<(real, Event)>

  ghost predicate Ordered(trace: Trace, from: real) {
    && (forall i :: 0 <= i < |trace| ==> from <= trace[i].0)
    && (forall i, j :: 0 <= i < j < |trace| ==> trace[i].0 <= trace[j].0)
  }

  function End(trace: Trace, from: real): real {
    if trace == [] then from else trace[|trace| - 1].0
  }

  /** How many packets of a source the budget lets through. */
  ghost function Accepted(trace: Trace, states: Sources, a: Addr, limits: Limits, idle: real): nat {
    if trace == [] then 0 else
      var (after, ok) := Step(states, trace[0].1, trace[0].0, limits, idle, false);
      (if ok && trace[0].1.Arrives? && trace[0].1.source == a then 1 else 0)
          + Accepted(trace[1..], after, a, limits, idle)
  }

  /** How many sessions of a source it lets start, less those rolled back. */
  ghost function Started(trace: Trace, states: Sources, a: Addr, limits: Limits, idle: real): int {
    if trace == [] then 0 else
      var (after, ok) := Step(states, trace[0].1, trace[0].0, limits, idle, false);
      (match trace[0].1
       case Arrives(source, newSession) => if ok && newSession && source == a then 1 else 0
       case RollsBack(source) => if source == a then -1 else 0
       case _ => 0)
      + Started(trace[1..], after, a, limits, idle)
  }

  lemma OrderedRest(trace: Trace, from: real)
    requires Ordered(trace, from) && trace != []
    ensures Ordered(trace[1..], trace[0].0) && End(trace[1..], trace[0].0) == End(trace, from)
  {
  }

  /** The tokens one event spends: never more than the source has. */
  lemma Spends(states: Sources, e: Event, now: real, limits: Limits, idle: real, a: Addr)
    requires ProperAll(states, now, limits) && idle >= 1.0
    ensures var (after, ok) := Step(states, e, now, limits, idle, false);
            && Seen(after, a, now, limits).packetTokens ==
                 Seen(states, a, now, limits).packetTokens - (if ok && e.Arrives? && e.source == a then 1.0 else 0.0)
            && Seen(after, a, now, limits).newTokens <=
                 Seen(states, a, now, limits).newTokens
                 - (if ok && e.Arrives? && e.newSession && e.source == a then 1.0
                    else if e.RollsBack? && e.source == a then -1.0 else 0.0)
  {
    hide Accrued;
    if HasRoom(states, e, limits) {
      StepActsOnViews(states, e, now, limits, idle, false, a);
    }
  }

  /** From any state and through any evictions, a source gets at most its tokens
      plus what accrues. */
  lemma {:induction false} AcceptedWithin(trace: Trace, states: Sources, a: Addr, limits: Limits, idle: real,
                                          from: real)
    requires ProperAll(states, from, limits) && idle >= 1.0 && Ordered(trace, from)
    ensures Accepted(trace, states, a, limits, idle) as real
            <= Seen(states, a, from, limits).packetTokens + Accrued(End(trace, from) - from, limits.packetRate)
    ensures Started(trace, states, a, limits, idle) as real
            <= Seen(states, a, from, limits).newTokens + Accrued(End(trace, from) - from, limits.newSessionsRate)
  {
    hide Accrued, Step, Seen, ProperAll;
    SeenProper(states, a, from, limits);
    if trace == [] {
      Grows(0.0, limits.packetRate);
      Grows(0.0, limits.newSessionsRate);
    } else {
      var (now, e) := trace[0];
      var after := Step(states, e, now, limits, idle, false).0;
      LaterProper(states, from, now, limits);
      StepKeepsProper(states, e, now, limits, idle, false);
      OrderedRest(trace, from);
      AcceptedWithin(trace[1..], after, a, limits, idle, now);
      Spends(states, e, now, limits, idle, a);
      SeenLater(states, a, from, now, limits);
      assert (now - from) + (End(trace, from) - now) == End(trace, from) - from;
      Twice(now - from, End(trace, from) - now, limits.packetRate);
      Twice(now - from, End(trace, from) - now, limits.newSessionsRate);
    }
  }

  /** One second's burst, and what accrues over the span. */
  function Allowance(rate: nat, span: real): real { rate as real * (1.0 + span) }

  /** In any span of T seconds a source gets at most rate * (1 + T) packets
      through, and at most rate * (1 + T) sessions. */
  lemma RateIsBounded(trace: Trace, states: Sources, a: Addr, limits: Limits, idle: real, from: real)
    requires ProperAll(states, from, limits) && idle >= 1.0 && Ordered(trace, from)
    ensures Accepted(trace, states, a, limits, idle) as real
            <= Allowance(limits.packetRate, End(trace, from) - from)
    ensures Started(trace, states, a, limits, idle) as real
            <= Allowance(limits.newSessionsRate, End(trace, from) - from)
  {
    hide Accrued, Allowance;
    AcceptedWithin(trace, states, a, limits, idle, from);
    SeenProper(states, a, from, limits);
    OneMoreSecond(End(trace, from) - from, limits.packetRate);
    OneMoreSecond(End(trace, from) - from, limits.newSessionsRate);
  }

  lemma OneMoreSecond(span: real, rate: nat)
    ensures rate as real + Accrued(span, rate) == Allowance(rate, span)
  {
  }

  // ----- Eviction is invisible -----

  ghost function Outcomes(trace: Trace, states: Sources, limits: Limits, idle: real, keeping: bool): seq<bool> {
    if trace == [] then [] else
      var (after, ok) := Step(states, trace[0].1, trace[0].0, limits, idle, keeping);
      [ok] + Outcomes(trace[1..], after, limits, idle, keeping)
  }

  /** The evicting budget never refuses a source for want of room. */
  ghost predicate Roomy(trace: Trace, states: Sources, limits: Limits, idle: real) {
    trace != [] ==>
      && HasRoom(states, trace[0].1, limits)
      && Roomy(trace[1..], Step(states, trace[0].1, trace[0].0, limits, idle, false).0, limits, idle)
  }

  ghost predicate SameViews(s: Sources, t: Sources, now: real, limits: Limits) {
    forall a :: Seen(s, a, now, limits) == Seen(t, a, now, limits)
  }

  lemma SameViewsLater(s: Sources, t: Sources, now: real, later: real, limits: Limits)
    requires ProperAll(s, now, limits) && ProperAll(t, now, limits) && SameViews(s, t, now, limits) && now <= later
    ensures SameViews(s, t, later, limits)
  {
    hide Accrued;
    forall a ensures Seen(s, a, later, limits) == Seen(t, a, later, limits) {
      SeenLater(s, a, now, later, limits);
      SeenLater(t, a, now, later, limits);
    }
  }

  /** As long as there is room, a budget that evicts idle sources answers every
      request exactly like one that keeps them all for ever. */
  lemma {:induction false} EvictionIsInvisible(trace: Trace, s: Sources, kept: Sources, limits: Limits, idle: real,
                                               from: real)
    requires ProperAll(s, from, limits) && ProperAll(kept, from, limits) && idle >= 1.0 && Ordered(trace, from)
    requires SameViews(s, kept, from, limits) && Roomy(trace, s, limits, idle)
    ensures Outcomes(trace, s, limits, idle, false) == Outcomes(trace, kept, limits, idle, true)
  {
    hide Accrued;
    if trace != [] {
      var (now, e) := trace[0];
      var (s', ok) := Step(s, e, now, limits, idle, false);
      var (kept', same) := Step(kept, e, now, limits, idle, true);
      LaterProper(s, from, now, limits);
      LaterProper(kept, from, now, limits);
      SameViewsLater(s, kept, from, now, limits);
      StepKeepsProper(s, e, now, limits, idle, false);
      StepKeepsProper(kept, e, now, limits, idle, true);
      forall a ensures Seen(s', a, now, limits) == Seen(kept', a, now, limits) {
        StepActsOnViews(s, e, now, limits, idle, false, a);
        StepActsOnViews(kept, e, now, limits, idle, true, a);
      }
      if e.Arrives? {
        StepActsOnViews(s, e, now, limits, idle, false, e.source);
        StepActsOnViews(kept, e, now, limits, idle, true, e.source);
      }
      OrderedRest(trace, from);
      EvictionIsInvisible(trace[1..], s', kept', limits, idle, now);
    }
  }

  /** The second of idleness is needed: for any shorter timeout some source is
      refused a packet that it gets once it has been evicted. */
  lemma ShortIdleIsVisible(idle: real)
    requires 0.0 <= idle < 1.0
    ensures exists states: Sources, a: Addr, now: real, limits: Limits ::
              && ProperAll(states, now, limits)
              && !Packet(states, a, false, now, limits, true).1
              && Packet(Evicted(states, {a}, now, idle), a, false, now, limits, true).1
  {
    var a, limits := V4(0), Limits(1, 1, 1, 1);
    var states: Sources := map[a := Source(0, 1.0, 0.0, 0.0, 0.0)];
    assert ProperAll(states, idle, limits);
    assert !Packet(states, a, false, idle, limits, true).1;
    assert Evicted(states, {a}, idle, idle) == map[];
    assert Packet(Evicted(states, {a}, idle, idle), a, false, idle, limits, true).1;
  }
}
