/** The UDP worker: a lazy hashed timing wheel of intrusive lists, the session
    tables, and the intrusive packet chains of one receive batch. */
module UdpWorker {
  import opened NftSpecs

  const SLOTS := 512

  /** The first second after `now` at which the wheel visits the slot. */
  function NextVisit(slot: int, now: int): (v: int)
    requires 0 <= slot < SLOTS
    ensures now < v <= now + SLOTS && v % SLOTS == slot
  {
    now + 1 + (slot - now - 1) % SLOTS
  }

  lemma NextVisitIsFirst(slot: int, now: int, v: int)
    requires 0 <= slot < SLOTS && now < v && v % SLOTS == slot
    ensures NextVisit(slot, now) <= v
  {
  }

  lemma NextVisitAdvances(slot: int, now: int)
    requires 0 <= slot < SLOTS
    ensures (now + 1) % SLOTS == slot ==> NextVisit(slot, now) == now + 1
    ensures (now + 1) % SLOTS != slot ==> NextVisit(slot, now + 1) == NextVisit(slot, now) > now + 1
  {
    var q, d := (slot - now - 1) / SLOTS, (slot - now - 1) % SLOTS;
    assert slot - now - 1 == q * SLOTS + d;
    if d == 0 {
      assert now + 1 == -q * SLOTS + slot;
    } else {
      assert slot - now - 2 == q * SLOTS + (d - 1);
    }
  }

  /** A session keeps its bound when one second's slot has been visited: it is
      re-filed under its own expiry, or its slot's turn is still to come. */
  lemma StillTimely(slot: int, refiled: int, expiresAt: int, second: int, now: int)
    requires 0 <= slot < SLOTS
    requires NextVisit(slot, second - 1) <= expiresAt || NextVisit(slot, second - 1) <= now
    requires slot == second % SLOTS ==> second < expiresAt && refiled == expiresAt % SLOTS
    requires slot != second % SLOTS ==> refiled == slot
    ensures 0 <= refiled < SLOTS
    ensures NextVisit(refiled, second) <= expiresAt || NextVisit(refiled, second) <= now
  {
    if slot == second % SLOTS {
      NextVisitIsFirst(refiled, second, expiresAt);
    } else {
      NextVisitAdvances(slot, second - 1);
    }
  }

  datatype Endpoint = Endpoint(addr: Addr, port: nat)

  /** The key of a session: the client, and the local address on a wildcard
      listener. */
  datatype FlowKey = FlowKey(client: Endpoint, local: Option<Addr>)

  /** One received datagram: whether it is well formed, and its flow. */
  datatype Message = Message(usable: bool, key: FlowKey)

  class Session {
    const key: FlowKey
    const fd: int
    var expiresAt: int
    var closed: bool
    var wheelSlot: int
    var wheelPrev: Session?
    var wheelNext: Session?
    var batchEpoch: nat
    var batchHead: int
    var batchTail: int
    // When the session was last pushed on a wheel list; newer is nearer the head.
    ghost var rank: nat

    constructor (key: FlowKey, fd: int)
      ensures this.key == key && this.fd == fd
      ensures !closed && wheelSlot == -1 && batchEpoch == 0
    {
      this.key, this.fd := key, fd;
      expiresAt, closed, wheelSlot, wheelPrev, wheelNext := 0, false, -1, null, null;
      batchEpoch, batchHead, batchTail := 0, 0, 0;
    }
  }

  /** What wakes a worker: a batch on its own socket, answers on a session's
      socket, its maintenance timer, or another worker's turn. */
  datatype Event =
    | Inbound(messages: seq<Message>)
    | Answers(fd: int, usable: seq<bool>, broken: bool)
    | Tick
    | Elsewhere(rule: int, global: int, memory: int, source: Addr, change: int)
  {
    predicate Fits(capacity: nat) {
      Inbound? ==> |messages| <= capacity
    }

    /** What the event makes of the others' share: no worker's own event touches
        it, and nobody holds less than nothing of a source. */
    function Moves(s: Share): Share {
      if !Elsewhere? then s
      else
        var held := s.Of(source) + change;
        Share(s.rule + rule, s.global + global, s.memory + memory, s.sources[source := if held < 0 then 0 else held])
    }

    /** How many datagrams the event may bring: a whole batch, all answers of a
        session or none when it is gone, and nothing otherwise. */
    predicate Brings(taken: nat) {
      match this
      case Inbound(messages) => taken == |messages|
      case Answers(_, usable, _) => taken == 0 || taken == |usable|
      case _ => taken == 0
    }

    /** How many of them go up, when nothing fails or is refused, and how many down. */
    ghost function Up(): nat {
      if Inbound? then |messages| - Unusable(messages) else 0
    }

    ghost function Down(taken: nat): nat {
      if Answers? && taken > 0 then Good(usable) else 0
    }
  }

  /** When a flow expires, and the descriptor its answers come in on. */
  datatype Timer = Timer(expiresAt: int, fd: int)

  /** The flows of the well-formed datagrams. */
  function KeysOf(messages: seq<Message>): set<FlowKey> {
    set m | m in messages && m.usable :: m.key
  }

  /** What an event makes of the flows when nothing fails or is refused: every flow
      with a datagram or an answer expires one idle timeout from now, a flow with a
      broken socket is gone, and a tick takes exactly those whose time has come. */
  ghost predicate Leads(e: Event, was: map<FlowKey, Timer>, next: map<FlowKey, Timer>, now: int, idle: int) {
    match e
    case Inbound(messages) =>
      && next.Keys == was.Keys + KeysOf(messages)
      && forall k :: k in next ==>
           && (k in was ==> next[k].fd == was[k].fd)
           && next[k].expiresAt == if k in KeysOf(messages) then now + idle else was[k].expiresAt
    case Answers(fd, usable, broken) =>
      && (forall k :: k in next <==> k in was && !(broken && was[k].fd == fd))
      && forall k :: k in next ==>
           next[k] == if was[k].fd == fd && Good(usable) > 0 then Timer(now + idle, fd) else was[k]
    case Tick => next == map k | k in was && was[k].expiresAt > now :: was[k]
    case Elsewhere(_, _, _, _, _) => next == was
  }

  /** Whatever fails, a flow keeps its expiry or expires one idle timeout from now,
      and only a datagram starts one. */
  ghost predicate Drifts(e: Event, was: map<FlowKey, Timer>, next: map<FlowKey, Timer>, now: int, idle: int) {
    forall k :: k in next ==>
      && (k in was || (e.Inbound? && k in KeysOf(e.messages) && next[k].expiresAt == now + idle))
      && (k in was ==> next[k].fd == was[k].fd && (next[k].expiresAt == was[k].expiresAt
                                                   || next[k].expiresAt == now + idle))
  }

  /** A flow's answers come in on this descriptor. */
  ghost predicate Heard(timers: map<FlowKey, Timer>, fd: int) {
    exists k :: k in timers && timers[k].fd == fd
  }

  /** What everybody else holds of the shared counters. */
  datatype Share = Share(rule: int, global: int, memory: int, sources: map<Addr, nat>) {
    function Of(a: Addr): nat { if a in sources then sources[a] else 0 }
  }

  /** The others' share after a sequence of events. */
  function After(events: seq<(int, Event)>, s: Share): Share {
    if events == [] then s else events[|events| - 1].1.Moves(After(events[..|events| - 1], s))
  }

  ghost function Good(usable: seq<bool>): nat {
    if usable == [] then 0 else Good(usable[..|usable| - 1]) + if usable[|usable| - 1] then 1 else 0
  }

  ghost function Total(counts: seq<nat>): nat {
    if counts == [] then 0 else Total(counts[..|counts| - 1]) + counts[|counts| - 1]
  }

  ghost function UpTotal(events: seq<(int, Event)>): nat {
    if events == [] then 0 else UpTotal(events[..|events| - 1]) + events[|events| - 1].1.Up()
  }

  ghost function DownTotal(events: seq<(int, Event)>, heard: seq<nat>): nat
    requires |heard| == |events|
  {
    if events == [] then 0
    else
      var n := |events| - 1;
      DownTotal(events[..n], heard[..n]) + events[n].1.Down(heard[n])
  }

  const MAX_EPOCH := 0xFFFF_FFFF_FFFF_FFFF

  /** `next` links the indices `g` in order, from `head` to `tail`. */
  ghost predicate Chain(next: seq<int>, head: int, tail: int, g: seq<int>) {
    && g != [] && head == g[0] && tail == g[|g| - 1]
    && (forall k :: 0 <= k < |g| ==> 0 <= g[k] < |next|)
    && (forall j, k :: 0 <= j < k < |g| ==> g[j] < g[k])
    && (forall k :: 0 <= k < |g| ==> next[g[k]] == if k + 1 < |g| then g[k + 1] else -1)
  }

  lemma ChainKept(next: seq<int>, later: seq<int>, head: int, tail: int, g: seq<int>)
    requires Chain(next, head, tail, g) && |later| == |next|
    requires forall k :: 0 <= k < |g| ==> later[g[k]] == next[g[k]]
    ensures Chain(later, head, tail, g)
  {
  }

  /** Links of other sessions' packets are left alone. */
  lemma OtherChainKept(next: seq<int>, later: seq<int>, head: int, tail: int, g: seq<int>,
                       owner: map<int, Session>, s: Session, t: Session, index: int)
    requires Chain(next, head, tail, g) && |later| == |next| && t != s && index !in owner
    requires forall k :: 0 <= k < |g| ==> g[k] in owner && owner[g[k]] == t
    requires forall k :: 0 <= k < |next| && k != index && (k !in owner || owner[k] != s) ==> later[k] == next[k]
    ensures Chain(later, head, tail, g)
  {
    ChainBounds(next, head, tail, g);
    ChainKept(next, later, head, tail, g);
  }

  lemma ChainStarts(next: seq<int>, index: int)
    requires 0 <= index < |next| && next[index] == -1
    ensures Chain(next, index, index, [index])
  {
  }

  lemma ChainTail(next: seq<int>, head: int, tail: int, g: seq<int>)
    requires Chain(next, head, tail, g)
    ensures g != [] && tail == g[|g| - 1] && 0 <= tail < |next|
  {
  }

  lemma ChainBounds(next: seq<int>, head: int, tail: int, g: seq<int>)
    requires Chain(next, head, tail, g)
    ensures forall k :: 0 <= k < |g| ==> 0 <= g[k] < |next|
  {
  }

  /** One group per active session; `owner` says which session each queued index
      belongs to, so the groups are disjoint and hold exactly the queued indices. */
  ghost predicate Grouped(active: seq<Session>, groups: map<Session, seq<int>>, owner: map<int, Session>) {
    && (set s | s in active) == groups.Keys
    && (forall i, j :: 0 <= i < j < |active| ==> active[i] != active[j])
    && (forall s, i :: s in groups && 0 <= i < |groups[s]| ==> groups[s][i] in owner && owner[groups[s][i]] == s)
    && (forall k :: k in owner ==> owner[k] in groups && k in groups[owner[k]])
  }

  lemma GroupedNext(active: seq<Session>, groups: map<Session, seq<int>>, owner: map<int, Session>,
                    s: Session, g: seq<int>, index: int)
    requires Grouped(active, groups, owner) && index !in owner
    requires g == if s in groups then groups[s] else []
    ensures Grouped(active + if s in groups then [] else [s], groups[s := g + [index]], owner[index := s])
  {
    var active', groups', owner' := active + if s in groups then []
        else [s], groups[s := g + [index]], owner[index := s];
    assert (set x | x in active') == groups'.Keys by {
      assert forall x :: x in active' <==> x in active || x == s;
      assert forall x :: x in active <==> x in groups.Keys;
    }
    forall k | k in owner' ensures owner'[k] in groups' && k in groups'[owner'[k]] {
      if k != index && owner[k] == s {
        var i :| 0 <= i < |g| && g[i] == k;
        assert (g + [index])[i] == k;
      }
      if k == index { assert (g + [index])[|g|] == k; }
    }
  }

  lemma GroupedOwners(active: seq<Session>, groups: map<Session, seq<int>>, owner: map<int, Session>)
    requires Grouped(active, groups, owner)
    ensures forall s, i :: s in groups && 0 <= i < |groups[s]| ==> groups[s][i] in owner && owner[groups[s][i]] == s
  {
  }

  lemma ChainExtended(next: seq<int>, head: int, tail: int, g: seq<int>, index: int)
    requires Chain(next, head, tail, g) && tail < index < |next|
    ensures Chain(next[index := -1][tail := index], head, index, g + [index])
  {
  }

  /** The configured idle timeout, in seconds. */
  type Idle = n: int | 5 <= n <= 86400 witness 60

  // ----- Counters shared by every worker of a rule, or by all rules -----

  class Counters {
    var ruleSessions: int
    var globalSessions: int
    var globalMemory: int
    var sourceSessions: map<Addr, nat>
    // How many reservations were refused.
    ghost var refusals: nat

    function OfSource(a: Addr): nat
      reads this`sourceSessions
    {
      if a in sourceSessions then sourceSessions[a] else 0
    }

    /** One more session of the rule, unless it is at its maximum. */
    method ReserveRule(maximum: int) returns (ok: bool)
      modifies this`ruleSessions, this`refusals
      ensures refusals == old(refusals) + if ok then 0 else 1
      ensures ok == (old(ruleSessions) < maximum)
      ensures ruleSessions == old(ruleSessions) + if ok then 1 else 0
    {
      ok := ruleSessions < maximum;
      if ok { ruleSessions := ruleSessions + 1; } else { refusals := refusals + 1; }
    }

    /** One more session and its memory under the global limits, or neither. */
    method ReserveGlobal(bytes: int, maxSessions: int, maxMemory: int) returns (ok: bool)
      modifies this`globalSessions, this`globalMemory, this`refusals
      ensures refusals == old(refusals) + if ok then 0 else 1
      ensures ok == (0 < bytes && 0 < maxSessions && 0 < maxMemory
                     && old(globalSessions) <= maxSessions - 1 && old(globalMemory) <= maxMemory - bytes)
      ensures globalSessions == old(globalSessions) + if ok then 1 else 0
      ensures globalMemory == old(globalMemory) + if ok then bytes else 0
    {
      if maxSessions <= 0 || globalSessions > maxSessions - 1 {
        refusals := refusals + 1;
        return false;
      }
      globalSessions := globalSessions + 1;
      if bytes <= 0 || maxMemory <= 0 || globalMemory > maxMemory - bytes {
        globalSessions := globalSessions - 1;
        refusals := refusals + 1;
        return false;
      }
      globalMemory := globalMemory + bytes;
      return true;
    }

    /** Rule, session and memory for one more session, or none of them. */
    method ReserveSession(maximum: int, bytes: int, maxSessions: int, maxMemory: int) returns (ok: bool)
      modifies this`ruleSessions, this`globalSessions, this`globalMemory, this`refusals
      ensures refusals == old(refusals) + if ok then 0 else 1
      ensures ruleSessions == old(ruleSessions) + if ok then 1 else 0
      ensures globalSessions == old(globalSessions) + if ok then 1 else 0
      ensures globalMemory == old(globalMemory) + if ok then bytes else 0
    {
      ok := ReserveRule(maximum);
      if !ok { return; }
      ok := ReserveGlobal(bytes, maxSessions, maxMemory);
      if !ok { ruleSessions := ruleSessions - 1; }
    }

    /** Give back what a session that failed later had reserved. */
    method ReturnSession(bytes: int)
      modifies this`ruleSessions, this`globalSessions, this`globalMemory
      ensures ruleSessions == old(ruleSessions) - 1
      ensures globalSessions == old(globalSessions) - 1 && globalMemory == old(globalMemory) - bytes
    {
      ruleSessions := ruleSessions - 1;
      globalMemory := globalMemory - bytes;
      globalSessions := globalSessions - 1;
    }

    /** Admit a packet of a source, and one more session when it needs one. The
        token buckets may refuse either. */
    method ReserveSource(a: Addr, newSession: bool, maxSessions: nat) returns (ok: bool)
      modifies this`sourceSessions, this`refusals
      ensures refusals == old(refusals) + if ok then 0 else 1
      ensures ok && newSession ==> old(OfSource(a)) < maxSessions
      ensures forall b :: OfSource(b) == old(OfSource(b)) + if b == a && ok && newSession then 1 else 0
    {
      var tokens: bool := *;
      if !tokens {
        refusals := refusals + 1;
        return false;
      }
      if newSession {
        var active := if a in sourceSessions then sourceSessions[a] else 0;
        if active >= maxSessions {
          refusals := refusals + 1;
          return false;
        }
        sourceSessions := sourceSessions[a := active + 1];
      }
      return true;
    }

    /** Return the reservation of a session that was never created. */
    method RollbackSource(a: Addr)
      modifies this`sourceSessions
      ensures forall b :: OfSource(b) == old(OfSource(b)) - if b == a && old(OfSource(a)) > 0 then 1 else 0
    {
      if a in sourceSessions && sourceSessions[a] > 0 {
        sourceSessions := sourceSessions[a := sourceSessions[a] - 1];
      }
    }

    method Release(a: Addr, bytes: nat)
      modifies this`ruleSessions, this`globalSessions, this`globalMemory, this`sourceSessions
      ensures ruleSessions == old(ruleSessions) - 1
      ensures globalSessions == old(globalSessions) - 1
      ensures globalMemory == old(globalMemory) - bytes
      ensures forall b :: OfSource(b) == old(OfSource(b)) - if b == a && old(OfSource(a)) > 0 then 1 else 0
    {
      if a in sourceSessions && sourceSessions[a] > 0 {
        sourceSessions := sourceSessions[a := sourceSessions[a] - 1];
      }
      ruleSessions := ruleSessions - 1;
      globalMemory := globalMemory - bytes;
      globalSessions := globalSessions - 1;
    }
  }

  ghost function Expired(s: Session, second: int): set<Session>
    reads s`expiresAt
  {
    if s.expiresAt <= second then {s} else {}
  }

  /** Each live session is found under its key and its descriptor, and nothing
      else is. */
  ghost predicate Tables(live: set<Session>, sessions: map<FlowKey, Session>, byFD: map<int, Session>) {
    && (forall s :: s in live ==> s.key in sessions && sessions[s.key] == s && s.fd in byFD && byFD[s.fd] == s)
    && (forall k :: k in sessions ==> sessions[k] in live && sessions[k].key == k)
    && (forall fd :: fd in byFD ==> byFD[fd] in live && byFD[fd].fd == fd)
  }

  ghost function TimersOf(sessions: map<FlowKey, Session>): map<FlowKey, Timer>
    reads sessions.Values`expiresAt
  {
    map k | k in sessions :: Timer(sessions[k].expiresAt, sessions[k].fd)
  }

  /** A worker's flows over a run: `lives[i]` are those before the event `i`. */
  ghost predicate Lived(events: seq<(int, Event)>, heard: seq<nat>, lives: seq<map<FlowKey, Timer>>, idle: int,
                        clean: bool)
  {
    && |lives| == |events| + 1 && |heard| == |events|
    && forall j :: 0 <= j < |events| ==> Moment(events[j], heard[j], lives[j], lives[j + 1], idle, clean)
  }

  ghost predicate Moment(event: (int, Event), taken: nat, was: map<FlowKey, Timer>, next: map<FlowKey, Timer>,
                         idle: int, clean: bool)
  {
    && Drifts(event.1, was, next, event.0, idle)
    && (clean || event.1.Tick? || event.1.Elsewhere? ==> Leads(event.1, was, next, event.0, idle))
    && (event.1.Answers? ==> taken == if Heard(was, event.1.fd) then |event.1.usable| else 0)
  }

  lemma LivedStarts(timers: map<FlowKey, Timer>, idle: int)
    ensures Lived([], [], [timers], idle, true)
  {
  }

  lemma LivedOn(events: seq<(int, Event)>, heard: seq<nat>, lives: seq<map<FlowKey, Timer>>, idle: int, was: bool,
                event: (int, Event), taken: nat, next: map<FlowKey, Timer>, now: bool, clean: bool)
    requires Lived(events, heard, lives, idle, was) && (clean ==> was && now)
    requires Moment(event, taken, lives[|events|], next, idle, now)
    ensures Lived(events + [event], heard + [taken], lives + [next], idle, clean)
  {
    hide Drifts, Leads, Heard;
    var more, taken', flows := events + [event], heard + [taken], lives + [next];
    forall j | 0 <= j < |more| ensures Moment(more[j], taken'[j], flows[j], flows[j + 1], idle, clean) {
      if j < |events| { assert Moment(events[j], heard[j], lives[j], lives[j + 1], idle, was); }
    }
  }

  lemma LeadsDrifts(e: Event, was: map<FlowKey, Timer>, next: map<FlowKey, Timer>, now: int, idle: int)
    requires Leads(e, was, next, now, idle) && !e.Inbound?
    ensures Drifts(e, was, next, now, idle)
  {
  }

  lemma MomentOf(e: Event, taken: nat, was: map<FlowKey, Timer>, next: map<FlowKey, Timer>, now: int, idle: int,
                 clean: bool)
    requires Drifts(e, was, next, now, idle) && (clean || e.Tick? || e.Elsewhere? ==> Leads(e, was, next, now, idle))
    requires e.Answers? ==> taken == if Heard(was, e.fd) then |e.usable| else 0
    ensures Moment((now, e), taken, was, next, idle, clean)
  {
  }

  lemma NotHeard(e: Event, was: map<FlowKey, Timer>, now: int, idle: int)
    requires e.Answers? && !Heard(was, e.fd)
    ensures Leads(e, was, was, now, idle) && Drifts(e, was, was, now, idle)
  {
  }

  lemma Unmoved(e: Event, was: map<FlowKey, Timer>, now: int, idle: int)
    requires e.Elsewhere?
    ensures Leads(e, was, was, now, idle) && Drifts(e, was, was, now, idle)
  {
  }

  /** The event forwards something of the flow. */
  ghost predicate Uses(e: Event, timers: map<FlowKey, Timer>, k: FlowKey) {
    || (e.Inbound? && k in KeysOf(e.messages))
    || (e.Answers? && k in timers && timers[k].fd == e.fd && Good(e.usable) > 0)
  }

  ghost predicate Breaks(e: Event, timers: map<FlowKey, Timer>, k: FlowKey) {
    e.Answers? && e.broken && k in timers && timers[k].fd == e.fd
  }

  /** The event `i` is one that forwards something of the flow, and nothing breaks
      it from there up to the event `j`. */
  ghost predicate LastsFrom(events: seq<(int, Event)>, lives: seq<map<FlowKey, Timer>>, k: FlowKey, i: int, j: int) {
    && 0 <= i < j <= |events| <= |lives| && Uses(events[i].1, lives[i], k)
    && forall m :: i <= m < j ==> !Breaks(events[m].1, lives[m], k)
  }

  /** A flow that is served has been used, and its expiry counts from there. */
  lemma {:induction false} ServedSince(events: seq<(int, Event)>, heard: seq<nat>, lives: seq<map<FlowKey, Timer>>,
                                       idle: int, k: FlowKey, j: nat) returns (i: int)
    requires Lived(events, heard, lives, idle, true) && lives[0] == map[] && j <= |events| && k in lives[j]
    ensures LastsFrom(events, lives, k, i, j) && lives[j][k].expiresAt == events[i].0 + idle
  {
    hide KeysOf, Good;
    var m := j - 1;
    assert Moment(events[m], heard[m], lives[m], lives[m + 1], idle, true);
    if Uses(events[m].1, lives[m], k) {
      i := m;
    } else {
      i := ServedSince(events, heard, lives, idle, k, m);
    }
  }

  /** A flow in use outlives every tick within its idle timeout. */
  lemma {:induction false} UsedIsServed(events: seq<(int, Event)>, heard: seq<nat>, lives: seq<map<FlowKey, Timer>>,
                                        idle: int, k: FlowKey, i: int, j: nat)
    requires Lived(events, heard, lives, idle, true) && LastsFrom(events, lives, k, i, j)
    requires forall m :: i <= m < j ==> events[i].0 <= events[m].0
    requires forall m :: i < m < j && events[m].1.Tick? ==> events[m].0 < events[i].0 + idle
    ensures k in lives[j] && lives[j][k].expiresAt >= events[i].0 + idle
  {
    hide KeysOf, Good;
    var m := j - 1;
    assert Moment(events[m], heard[m], lives[m], lives[m + 1], idle, true);
    if m > i {
      UsedIsServed(events, heard, lives, idle, k, i, m);
    }
  }

  /** Which flows a tick leaves, in a run where nothing fails or is refused: exactly
      those that something was forwarded for less than one idle timeout ago, and
      whose socket has not broken since. */
  lemma FlowLivesExactly(events: seq<(int, Event)>, heard: seq<nat>, lives: seq<map<FlowKey, Timer>>, idle: int,
                         k: FlowKey, j: nat)
    requires Lived(events, heard, lives, idle, true) && lives[0] == map[] && j < |events| && events[j].1.Tick?
    requires forall m, n :: 0 <= m < n < |events| ==> events[m].0 <= events[n].0
    ensures k in lives[j + 1] <==>
            exists i :: LastsFrom(events, lives, k, i, j) && events[j].0 < events[i].0 + idle
  {
    hide Uses, Breaks;
    assert Moment(events[j], heard[j], lives[j], lives[j + 1], idle, true);
    if k in lives[j + 1] {
      var i := ServedSince(events, heard, lives, idle, k, j);
    }
    if i :| LastsFrom(events, lives, k, i, j) && events[j].0 < events[i].0 + idle {
      UsedIsServed(events, heard, lives, idle, k, i, j);
    }
  }

  /** From a batch's grouping and sending to the whole. */
  lemma BatchTimers(messages: seq<Message>, was: map<FlowKey, Timer>, queued: map<FlowKey, Timer>,
                    next: map<FlowKey, Timer>, served: set<FlowKey>, now: int, idle: int, all: bool, clean: bool)
    requires GrewBy(messages, was, queued, now + idle) && Served(queued, next, served, now + idle, all)
    requires served <= KeysOf(messages) && (clean ==> all && served == KeysOf(messages) <= queued.Keys)
    ensures Drifts(Inbound(messages), was, next, now, idle)
    ensures clean ==> Leads(Inbound(messages), was, next, now, idle)
  {
    hide KeysOf;
  }

  /** Grouping a batch only adds flows that have a datagram in it. */
  ghost predicate GrewBy(messages: seq<Message>, was: map<FlowKey, Timer>, next: map<FlowKey, Timer>, expiry: int) {
    && was.Keys <= next.Keys
    && forall k :: k in next ==>
         if k in was then next[k] == was[k] else k in KeysOf(messages) && next[k].expiresAt == expiry
  }

  /** Sending a batch touches the flows that are served, and loses none unless
      something fails. */
  ghost predicate Served(was: map<FlowKey, Timer>, next: map<FlowKey, Timer>, served: set<FlowKey>, expiry: int,
                         clean: bool) {
    && next.Keys <= was.Keys && (clean ==> next.Keys == was.Keys)
    && forall k :: k in next ==>
         && next[k].fd == was[k].fd
         && (next[k].expiresAt == was[k].expiresAt || (k in served && next[k].expiresAt == expiry))
         && (clean && k in served ==> next[k].expiresAt == expiry)
  }

  /** While sessions only leave, a key that stays keeps its session. */
  lemma SameSession(live: set<Session>, sessions: map<FlowKey, Session>, byFD: map<int, Session>, later: set<Session>,
                    laterSessions: map<FlowKey, Session>, laterByFD: map<int, Session>)
    requires Tables(live, sessions, byFD) && Tables(later, laterSessions, laterByFD) && later <= live
    ensures forall k :: k in laterSessions ==> k in sessions && sessions[k] == laterSessions[k]
    ensures forall k :: k in sessions && sessions[k] in later ==> k in laterSessions
  {
  }

  lemma TablesWith(live: set<Session>, sessions: map<FlowKey, Session>, byFD: map<int, Session>, s: Session)
    requires Tables(live, sessions, byFD) && s.key !in sessions && s.fd !in byFD
    ensures Tables(live + {s}, sessions[s.key := s], byFD[s.fd := s])
  {
  }

  lemma TablesWithout(live: set<Session>, sessions: map<FlowKey, Session>, byFD: map<int, Session>, s: Session)
    requires Tables(live, sessions, byFD) && s in live
    ensures Tables(live - {s}, sessions - {s.key}, byFD - {s.fd})
  {
  }

  /** How many sessions of `live` belong to a source address. */
  ghost function CountOf(live: set<Session>, a: Addr): nat {
    |OfSource(live, a)|
  }

  ghost function OfSource(live: set<Session>, a: Addr): set<Session> {
    set s | s in live && s.key.client.addr == a
  }

  lemma CountWith(live: set<Session>, s: Session, a: Addr)
    requires s !in live
    ensures CountOf(live + {s}, a) == CountOf(live, a) + if s.key.client.addr == a then 1 else 0
  {
    assert OfSource(live + {s}, a) == if s.key.client.addr == a then OfSource(live, a) + {s} else OfSource(live, a);
  }

  lemma CountWithout(live: set<Session>, s: Session, a: Addr)
    requires s in live
    ensures CountOf(live, a) == CountOf(live - {s}, a) + if s.key.client.addr == a then 1 else 0
  {
    assert live - {s} + {s} == live;
    CountWith(live - {s}, s, a);
  }

  class Worker {
    const idleSeconds: Idle
    const sessionBytes: nat
    const maxSessions: nat
    const maxPerSource: nat
    const maxGlobalSessions: nat
    const maxGlobalMemory: nat
    const counters: Counters
    const wheel: array<Session?>
    var wheelSecond: int
    var sessions: map<FlowKey, Session>
    var sessionsByFD: map<int, Session>
    ghost var live: set<Session>
    var packetsUp: nat
    var packetsDown: nat
    var drops: nat
    // The current receive batch.
    const packetNext: array<int>
    var activeSessions: seq<Session>
    var batchEpoch: nat
    ghost var groups: map<Session, seq<int>>
    ghost var owner: map<int, Session>
    // What everybody else holds of the shared counters.
    ghost var othersRule: int
    ghost var othersGlobal: int
    ghost var othersMemory: int
    var othersSource: map<Addr, nat>
    // The sessions on some wheel list, and the next insertion rank.
    ghost var wheeled: set<Session>
    ghost var nextRank: nat
    // How often the network failed this worker.
    ghost var faults: nat

    constructor (idleSeconds: Idle, sessionBytes: nat, maxSessions: nat, maxPerSource: nat, maxGlobalSessions: nat,
                 maxGlobalMemory: nat,
                 batchSize: nat, counters: Counters, now: nat)
      ensures Serving(now) && live == {} && fresh(wheel) && fresh(packetNext) && packetNext.Length == batchSize
      ensures packetsUp == packetsDown == drops == 0
      ensures HoldsNothing()
      ensures this.idleSeconds == idleSeconds && this.sessionBytes == sessionBytes && this.counters == counters
    {
      this.idleSeconds, this.sessionBytes, this.counters := idleSeconds, sessionBytes, counters;
      this.maxSessions, this.maxPerSource := maxSessions, maxPerSource;
      this.maxGlobalSessions, this.maxGlobalMemory := maxGlobalSessions, maxGlobalMemory;
      wheel := new Session?[SLOTS](i => null);
      packetNext := new int[batchSize];
      activeSessions, batchEpoch, groups, owner := [], 0, map[], map[];
      packetsUp, packetsDown, drops := 0, 0, 0;
      wheelSecond := now;
      sessions, sessionsByFD, live, wheeled, nextRank := map[], map[], {}, {}, 0;
      othersRule, othersGlobal := counters.ruleSessions, counters.globalSessions;
      othersMemory, othersSource := counters.globalMemory, counters.sourceSessions;
    }

    /** The flows this worker serves. */
    ghost function Timers(): map<FlowKey, Timer>
      reads this`sessions, sessions.Values`expiresAt
    {
      TimersOf(sessions)
    }

    ghost function Others(): Share
      reads this`othersRule, this`othersGlobal, this`othersMemory, this`othersSource
    {
      Share(othersRule, othersGlobal, othersMemory, othersSource)
    }

    /** The shared counters hold exactly what others hold. */
    ghost predicate HoldsNothing()
      reads this`othersRule, this`othersGlobal, this`othersMemory, this`othersSource, counters`ruleSessions
      reads counters`globalSessions, counters`globalMemory, counters`sourceSessions
    {
      && counters.ruleSessions == othersRule && counters.globalSessions == othersGlobal
      && counters.globalMemory == othersMemory && forall a :: counters.OfSource(a) == OthersOf(a)
    }

    // ----- The wheel's intrusive lists -----

    /** The links of one session agree with its neighbours and its list head. */
    ghost predicate LinksOk(s: Session)
      requires wheel.Length == SLOTS && s in wheeled
      reads this`wheeled, this`nextRank, wheel, wheeled`wheelSlot, wheeled`wheelPrev, wheeled`wheelNext, wheeled`rank
    {
      && 0 <= s.wheelSlot < SLOTS
      && s.rank < nextRank
      && (if s.wheelPrev == null then wheel[s.wheelSlot] == s
          else
            && s.wheelPrev in wheeled
            && s.wheelPrev.wheelNext == s
            && s.wheelPrev.wheelSlot == s.wheelSlot
            && s.wheelPrev.rank > s.rank)
      && (s.wheelNext != null ==> s.wheelNext in wheeled && s.wheelNext.wheelPrev == s)
    }

    ghost predicate HeadsOk()
      requires wheel.Length == SLOTS
      reads this`wheeled, wheel, wheeled`wheelSlot, wheeled`wheelPrev
    {
      forall i :: 0 <= i < SLOTS && wheel[i] != null ==>
        wheel[i] in wheeled && wheel[i].wheelSlot == i && wheel[i].wheelPrev == null
    }

    /** Every link agrees with its neighbour and its list head; ranks fall along
        each list, so the lists end and never cross. */
    ghost predicate WheelOk()
      reads this`wheeled, this`nextRank, wheel, wheeled`wheelSlot, wheeled`wheelPrev, wheeled`wheelNext, wheeled`rank
    {
      && wheel.Length == SLOTS
      && HeadsOk()
      && (forall s :: s in wheeled ==> LinksOk(s))
    }

    method InsertWheel(s: Session)
      requires WheelOk() && s !in wheeled && 0 <= s.expiresAt
      modifies this`wheeled, this`nextRank, wheel, s`wheelSlot, s`wheelPrev, s`wheelNext, s`rank, wheeled`wheelPrev
      ensures WheelOk()
      ensures wheeled == old(wheeled) + {s} && s.wheelSlot == s.expiresAt % SLOTS
      ensures s.rank == old(nextRank) && nextRank == old(nextRank) + 1
      ensures forall i :: 0 <= i < SLOTS ==> wheel[i] == if i == s.wheelSlot then s else old(wheel[i])
      ensures forall x :: x in wheeled && x != s && old(x.wheelPrev) != null ==> x.wheelPrev == old(x.wheelPrev)
    {
      var slot := s.expiresAt % SLOTS;
      ghost var head, before := wheel[slot], wheeled;
      s.wheelSlot := slot;
      s.wheelPrev := null;
      s.wheelNext := wheel[slot];
      if s.wheelNext != null {
        s.wheelNext.wheelPrev := s;
      }
      wheel[slot] := s;
      wheeled := wheeled + {s};
      s.rank := nextRank;
      nextRank := nextRank + 1;
      forall x | x in before
        ensures LinksOk(x)
      {
        assert old(LinksOk(x));
      }
    }

    method RemoveWheel(s: Session)
      requires WheelOk() && s in wheeled
      modifies this`wheeled, wheel, s`wheelSlot, wheeled`wheelPrev, wheeled`wheelNext
      ensures WheelOk()
      ensures wheeled == old(wheeled) - {s} && s.wheelSlot == -1
      ensures forall x :: x in wheeled && old(x.wheelPrev) != s ==> x.wheelPrev == old(x.wheelPrev)
    {
      ghost var before, prev, next := wheeled, s.wheelPrev, s.wheelNext;
      assert LinksOk(s);
      if s.wheelPrev != null {
        s.wheelPrev.wheelNext := s.wheelNext;
      } else if wheel[s.wheelSlot] == s {
        wheel[s.wheelSlot] := s.wheelNext;
      }
      if s.wheelNext != null {
        s.wheelNext.wheelPrev := s.wheelPrev;
      }
      s.wheelSlot := -1;
      s.wheelPrev := null;
      s.wheelNext := null;
      wheeled := wheeled - {s};
      forall x | x in wheeled
        ensures LinksOk(x)
      {
        assert old(LinksOk(x));
        assert x != next ==> x.wheelPrev == old(x.wheelPrev) && x.wheelPrev != s;
        assert x != prev ==> x.wheelNext == old(x.wheelNext) && x.wheelNext != s;
      }
    }

    // ----- Session tables and shared counters -----

    ghost predicate TablesOk()
      reads this`live, this`sessions, this`sessionsByFD
    {
      Tables(live, sessions, sessionsByFD)
    }

    ghost predicate OpenOk()
      reads this`live, live`closed
    {
      forall s :: s in live ==> !s.closed
    }

    function OthersOf(a: Addr): nat
      reads this`othersSource
    {
      if a in othersSource then othersSource[a] else 0
    }

    /** Every shared counter is the others' share plus the live sessions. */
    ghost predicate Accounted()
      reads this`live, this`othersRule, this`othersGlobal, this`othersMemory, this`othersSource, counters`ruleSessions
      reads counters`globalSessions, counters`globalMemory, counters`sourceSessions
    {
      AccountedWith({})
    }

    /** The same, with one session reserved but not yet created for each of the
        given sources. */
    ghost predicate AccountedWith(reserved: set<Addr>)
      reads this`live, this`othersRule, this`othersGlobal, this`othersMemory, this`othersSource, counters`ruleSessions
      reads counters`globalSessions, counters`globalMemory, counters`sourceSessions
    {
      && counters.ruleSessions == othersRule + |live|
      && counters.globalSessions == othersGlobal + |live|
      && counters.globalMemory == othersMemory + |live| * sessionBytes
      && forall a :: counters.OfSource(a) == OthersOf(a) + CountOf(live, a) + if a in reserved then 1 else 0
    }

    method CloseSession(s: Session)
      requires WheelOk() && TablesOk() && OpenOk() && Accounted() && s in live
      requires wheeled == if s.wheelSlot < 0 then live - {s} else live
      modifies this`wheeled, this`live, this`sessions, this`sessionsByFD, wheel
      modifies counters`ruleSessions, counters`globalSessions, counters`globalMemory, counters`sourceSessions
      modifies s`closed, s`wheelSlot, wheeled`wheelPrev, wheeled`wheelNext
      ensures WheelOk() && TablesOk() && OpenOk() && Accounted()
      ensures live == old(live) - {s} && wheeled == live && s.closed
      ensures old(s.wheelSlot) < 0 ==> forall x :: x in wheeled ==> x.wheelPrev == old(x.wheelPrev)
    {
      hide WheelOk, Accounted, TablesOk;
      s.closed := true;
      if s.wheelSlot >= 0 {
        RemoveWheel(s);
      }
      Forget(s);
    }

    /** Drop a closing session from both tables and give back what it held. */
    method Forget(s: Session)
      requires TablesOk() && Accounted() && s in live
      modifies this`live, this`sessions, this`sessionsByFD
      modifies counters`ruleSessions, counters`globalSessions, counters`globalMemory, counters`sourceSessions
      ensures TablesOk() && Accounted() && live == old(live) - {s}
    {
      TablesWithout(live, sessions, sessionsByFD, s);
      sessions := sessions - {s.key};
      sessionsByFD := sessionsByFD - {s.fd};
      forall a ensures CountOf(live, a) == CountOf(live - {s}, a) + if s.key.client.addr == a then 1 else 0 {
        CountWithout(live, s, a);
      }
      live := live - {s};
      counters.Release(s.key.client.addr, sessionBytes);
    }

    /** Tables and wheel hold exactly the live sessions, and the wheel is on time. */
    ghost predicate Structured()
      reads this`wheeled, this`nextRank, wheel, wheeled`wheelSlot, wheeled`wheelPrev, wheeled`wheelNext, wheeled`rank
      reads this`live, this`sessions, this`sessionsByFD, live`closed, this`wheelSecond, wheeled`expiresAt
    {
      WheelOk() && TablesOk() && OpenOk() && wheeled == live && Timely() && 0 <= wheelSecond
    }

    /** Between calls. */
    ghost predicate Valid()
      reads this`wheeled, this`nextRank, wheel, wheeled`wheelSlot, wheeled`wheelPrev, wheeled`wheelNext, wheeled`rank
      reads this`live, this`sessions, this`sessionsByFD, live`closed, this`wheelSecond, wheeled`expiresAt
      reads this`othersRule, this`othersGlobal, this`othersMemory, this`othersSource, counters`ruleSessions
      reads counters`globalSessions, counters`globalMemory, counters`sourceSessions
    {
      Structured() && Accounted()
    }

    /** Enter a reserved session into the tables and the wheel. */
    method Enter(session: Session, now: int)
      requires Structured()
      requires session !in live && session.wheelSlot < 0 && !session.closed
      requires session.key !in sessions && session.fd !in sessionsByFD
      requires wheelSecond <= now && 0 <= now
      modifies this`wheeled, this`nextRank, this`live, this`sessions, this`sessionsByFD, wheel
      modifies session`expiresAt, session`wheelSlot, session`wheelPrev, session`wheelNext, session`rank
      modifies wheeled`wheelPrev
      ensures Structured()
      ensures live == old(live) + {session} && sessions == old(sessions)[session.key := session]
      ensures session.expiresAt == now + idleSeconds
    {
      hide WheelOk, Tables;
      TablesWith(live, sessions, sessionsByFD, session);
      sessions := sessions[session.key := session];
      sessionsByFD := sessionsByFD[session.fd := session];
      TouchSession(session, now);
      live := live + {session};
    }

    lemma AccountNew(before: set<Session>, session: Session)
      requires session !in before && live == before + {session}
      requires counters.ruleSessions == othersRule + |before| + 1
      requires counters.globalSessions == othersGlobal + |before| + 1
      requires counters.globalMemory == othersMemory + |before| * sessionBytes + sessionBytes
      requires forall a :: counters.OfSource(a) ==
                           OthersOf(a) + CountOf(before, a) + if a == session.key.client.addr then 1 else 0
      ensures Accounted()
    {
      hide CountOf;
      forall a ensures CountOf(live, a) == CountOf(before, a) + if session.key.client.addr == a then 1 else 0 {
        CountWith(before, session, a);
      }
    }

    /** Dial the target, size the buffers and register the socket; an open
        descriptor is never handed out twice. */
    method Dial() returns (ok: bool, fd: int)
      modifies this`faults
      ensures ok ==> fd !in sessionsByFD
      ensures faults == old(faults) + if ok then 0 else 1
    {
      fd := *;
      var dialed: bool := *;
      ok := dialed && fd !in sessionsByFD;
      if !ok { faults := faults + 1; }
    }

    /** Create the session of a flow that has none. On failure every counter is
        as before, except the source's reservation, which the caller returns. */
    method NewSession(key: FlowKey, now: int) returns (session: Session?)
      requires Structured() && AccountedWith({key.client.addr})
      requires key !in sessions && wheelSecond <= now && 0 <= now
      modifies this`wheeled, this`nextRank, this`live, this`sessions, this`sessionsByFD, wheel
      modifies counters`ruleSessions, counters`globalSessions, counters`globalMemory, counters`refusals
      modifies wheeled`wheelPrev, this`faults
      ensures Structured() && faults >= old(faults) && counters.refusals >= old(counters.refusals)
      ensures session == null ==> faults > old(faults) || counters.refusals > old(counters.refusals)
      ensures session == null ==> AccountedWith({key.client.addr}) && live == old(live) && sessions == old(sessions)
      ensures session != null ==> fresh(session) && Accounted() && live == old(live) + {session}
      ensures session != null ==> session.key == key && sessions == old(sessions)[key := session]
      ensures session != null ==> session.expiresAt == now + idleSeconds && session.batchEpoch == 0
    {
      hide Structured, WheelOk, LinksOk, HeadsOk, Tables, CountOf, Timely;
      var ok := counters.ReserveSession(maxSessions, sessionBytes, maxGlobalSessions, maxGlobalMemory);
      if !ok { return null; }
      var dialed, fd := Dial();
      if !dialed {
        counters.ReturnSession(sessionBytes);
        return null;
      }
      session := Enlist(key, fd, now);
    }

    /** Everything for one more session of the source has been reserved. */
    ghost predicate OneReserved(a: Addr)
      reads this`live, this`othersRule, this`othersGlobal, this`othersMemory, this`othersSource, counters`ruleSessions
      reads counters`globalSessions, counters`globalMemory, counters`sourceSessions
    {
      && counters.ruleSessions == othersRule + |live| + 1
      && counters.globalSessions == othersGlobal + |live| + 1
      && counters.globalMemory == othersMemory + |live| * sessionBytes + sessionBytes
      && forall b :: counters.OfSource(b) == OthersOf(b) + CountOf(live, b) + if b == a then 1 else 0
    }

    /** Create a fully reserved session. */
    method Enlist(key: FlowKey, fd: int, now: int) returns (session: Session)
      requires Structured() && OneReserved(key.client.addr)
      requires key !in sessions && fd !in sessionsByFD && wheelSecond <= now && 0 <= now
      modifies this`wheeled, this`nextRank, this`live, this`sessions, this`sessionsByFD, wheel, wheeled`wheelPrev
      ensures Structured() && fresh(session) && Accounted() && live == old(live) + {session}
      ensures session.key == key && sessions == old(sessions)[key := session]
      ensures session.expiresAt == now + idleSeconds && session.batchEpoch == 0
    {
      ghost var before := live;
      session := new Session(key, fd);
      FreshIsNotLive(session);
      hide Structured, Accounted, CountOf;
      Enter(session, now);
      AccountNew(before, session);
    }

    lemma FreshIsNotLive(session: Session)
      requires Structured() && session.fd !in sessionsByFD
      ensures session !in live
    {
    }

    lemma FDsAreLive()
      requires TablesOk()
      ensures sessionsByFD.Keys == set s | s in live :: s.fd
    {
      forall fd | fd in sessionsByFD.Keys ensures fd in set s | s in live :: s.fd {
        assert sessionsByFD[fd] in live;
      }
    }

    /** Stop: close every session. What remains on the shared counters is
        exactly the others' share. */
    method Cleanup()
      requires Filed()
      modifies this`wheeled, this`live, this`sessions, this`sessionsByFD, wheel
      modifies counters`ruleSessions, counters`globalSessions, counters`globalMemory, counters`sourceSessions
      modifies live`closed, live`wheelSlot, live`wheelPrev, live`wheelNext
      ensures Filed() && live == {} && sessions == map[] && sessionsByFD == map[]
      ensures forall s :: s in old(live) ==> s.closed
      ensures HoldsNothing()
    {
      hide WheelOk;
      while sessions.Keys != {}
        invariant Filed() && live <= old(live)
        invariant forall s :: s in old(live) ==> (s.closed <==> s !in live)
        decreases live
      {
        var key :| key in sessions.Keys;
        FiledSlots();
        CloseSession(sessions[key]);
      }
      assert live == {};
      FDsAreLive();
      assert forall a :: OfSource(live, a) == {};
    }

    /** The wheel reaches every session no later than the second it expires. */
    ghost predicate Timely()
      requires forall s :: s in wheeled ==> 0 <= s.wheelSlot < SLOTS
      reads this`wheeled, this`wheelSecond, wheeled`wheelSlot, wheeled`expiresAt
    {
      forall s :: s in wheeled ==> NextVisit(s.wheelSlot, wheelSecond) <= s.expiresAt
    }

    /** Lazy: a session already on the wheel only gets a later expiry. */
    method TouchSession(s: Session, now: int)
      requires WheelOk() && Timely() && wheelSecond <= now && 0 <= now
      requires if s.wheelSlot < 0 then s !in wheeled else s in wheeled && s.expiresAt <= now + idleSeconds
      modifies this`wheeled, this`nextRank, wheel, s`expiresAt, s`wheelSlot, s`wheelPrev, s`wheelNext, s`rank
      modifies wheeled`wheelPrev
      ensures WheelOk() && Timely()
      ensures wheeled == old(wheeled) + {s} && s.expiresAt == now + idleSeconds
    {
      s.expiresAt := now + idleSeconds;
      if s.wheelSlot < 0 {
        InsertWheel(s);
        NextVisitIsFirst(s.wheelSlot, wheelSecond, s.expiresAt);
      }
    }

    /** The part of a slot's list still to be visited: it starts at `session`,
        and whatever was re-filed in the same slot lies ahead of it. */
    ghost predicate Queue(todo: set<Session>, session: Session?, slot: int, newRank: nat)
      reads this`wheeled, this`nextRank, todo`wheelSlot, todo`wheelPrev, todo`rank, wheeled`wheelSlot, wheeled`rank
    {
      && todo <= wheeled && newRank <= nextRank
      && (if session == null then todo == {} else session in todo)
      && (forall x :: x in todo ==> x.wheelSlot == slot && x.rank < newRank)
      && (forall x :: x in todo && x != session ==> x.wheelPrev != null && x.wheelPrev in todo)
      && (forall x :: x in wheeled && x !in todo && x.wheelSlot == slot ==> x.rank >= newRank)
    }

    /** A set of wheeled sessions without a first one is empty. */
    lemma NoFirst(todo: set<Session>)
      requires WheelOk() && todo <= wheeled
      requires forall x :: x in todo ==> x.wheelPrev != null && x.wheelPrev in todo
      ensures todo == {}
    {
      if todo != {} {
        var top := Highest(todo);
        assert false;
      }
    }

    method Dequeue(session: Session, ghost todo: set<Session>, ghost slot: int, ghost newRank: nat)
      returns (next: Session?)
      requires WheelOk() && Queue(todo, session, slot, newRank)
      modifies this`wheeled, wheel, session`wheelSlot, wheeled`wheelPrev, wheeled`wheelNext
      ensures WheelOk() && Queue(todo - {session}, next, slot, newRank)
      ensures wheeled == old(wheeled) - {session} && session.wheelSlot == -1
    {
      next := session.wheelNext;
      assert LinksOk(session);
      assert next != null ==> LinksOk(next) && next in todo;
      forall x | x in todo && x != session && x != next
        ensures x.wheelPrev != session
      {
        assert LinksOk(x);
      }
      RemoveWheel(session);
      if next == null {
        NoFirst(todo - {session});
      }
    }

    ghost predicate Filed()
      reads this`wheeled, this`nextRank, wheel, wheeled`wheelSlot, wheeled`wheelPrev, wheeled`wheelNext, wheeled`rank
      reads this`live, this`sessions, this`sessionsByFD, live`closed
      reads this`othersRule, this`othersGlobal, this`othersMemory, this`othersSource, counters`ruleSessions
      reads counters`globalSessions, counters`globalMemory, counters`sourceSessions
    {
      WheelOk() && TablesOk() && OpenOk() && Accounted() && wheeled == live
    }

    /** What a visit of `done` sessions has made of the sessions in `all`, whose
        slots were `slots`. */
    ghost predicate Visited(all: set<Session>, slots: map<Session, int>, done: set<Session>, second: int)
      requires slots.Keys == all && done <= all
      reads this`live, all`closed, all`wheelSlot, all`expiresAt
    {
      && live <= all
      && forall x :: x in all ==>
           var expired := x in done && x.expiresAt <= second;
           && (x in live <==> !expired)
           && x.closed == expired
           && (x in live ==> x.wheelSlot == if x in done then x.expiresAt % SLOTS else slots[x])
    }

    /** Take one session off its slot and close or re-file it. */
    method Visit(session: Session, second: int, ghost todo: set<Session>, ghost slot: int, ghost newRank: nat)
      returns (next: Session?)
      requires Filed() && Queue(todo, session, slot, newRank) && 0 <= second
      modifies this`wheeled, this`nextRank, this`live, this`sessions, this`sessionsByFD, wheel
      modifies counters`ruleSessions, counters`globalSessions, counters`globalMemory, counters`sourceSessions
      modifies session`closed, session`wheelSlot, session`rank, live`wheelPrev, live`wheelNext
      ensures Filed() && Queue(todo - {session}, next, slot, newRank)
      ensures live == old(live) - Expired(session, second)
      ensures session.closed == (session.expiresAt <= second)
      ensures session in live ==> session.wheelSlot == session.expiresAt % SLOTS
    {
      hide WheelOk, TablesOk, Accounted, LinksOk, HeadsOk, Tables;
      next := Dequeue(session, todo, slot, newRank);
      if !session.closed {
        if session.expiresAt <= second {
          CloseSession(session);
        } else {
          InsertWheel(session);
        }
      }
    }

    /** The same step, with its effect on the record of visited sessions. */
    method VisitNext(session: Session, second: int, ghost todo: set<Session>, ghost slot: int, ghost newRank: nat,
                     ghost all: set<Session>, ghost slots: map<Session, int>, ghost done: set<Session>)
      returns (next: Session?)
      requires Filed() && Queue(todo, session, slot, newRank) && 0 <= second
      requires slots.Keys == all && done <= all && session in all && session !in done
      requires Visited(all, slots, done, second)
      modifies this`wheeled, this`nextRank, this`live, this`sessions, this`sessionsByFD, wheel
      modifies counters`ruleSessions, counters`globalSessions, counters`globalMemory, counters`sourceSessions
      modifies session`closed, session`wheelSlot, session`rank, live`wheelPrev, live`wheelNext
      ensures Filed() && Queue(todo - {session}, next, slot, newRank) && wheeled == live <= all
      ensures Visited(all, slots, done + {session}, second)
    {
      hide WheelOk, TablesOk, Accounted, Queue, LinksOk, HeadsOk, Tables;
      next := Visit(session, second, todo, slot, newRank);
    }

    /** The slot of every live session, and the sessions in one slot. */
    ghost function Slots(): map<Session, int>
      reads this`live, live`wheelSlot
    {
      map s | s in live :: s.wheelSlot
    }

    ghost function InSlot(slot: int): set<Session>
      reads this`live, live`wheelSlot
    {
      set s | s in live && s.wheelSlot == slot
    }

    /** Visit one slot: close what has expired, re-file what was touched. */
    method ExpireSlot(second: int)
      requires Filed() && 0 <= second
      modifies this`wheeled, this`nextRank, this`live, this`sessions, this`sessionsByFD, wheel
      modifies counters`ruleSessions, counters`globalSessions, counters`globalMemory, counters`sourceSessions
      modifies live`closed, live`wheelSlot, live`wheelPrev, live`wheelNext, live`rank
      ensures Filed() && live <= old(live)
      ensures Visited(old(live), old(Slots()), old(InSlot(second % SLOTS)), second)
    {
      var slot := second % SLOTS;
      var session := wheel[slot];
      ghost var newRank, all, slots, due := nextRank, live, Slots(), InSlot(slot);
      ghost var todo, done := due, {};
      StartSlot(slot);
      StartVisited(second);
      hide WheelOk, TablesOk, Accounted, Queue, Filed, Visited;
      while session != null
        invariant Filed() && Queue(todo, session, slot, newRank)
        invariant done <= due <= all && due <= todo + done && todo !! done && todo <= due
        invariant live <= all
        invariant Visited(all, slots, done, second)
        decreases todo
      {
        QueueHead(todo, session, slot, newRank);
        ghost var current := session;
        session := VisitNext(session, second, todo, slot, newRank, all, slots, done);
        todo, done := todo - {current}, done + {current};
      }
      QueueEnd(todo, slot, newRank);
      assert done == due;
    }

    lemma StartVisited(second: int)
      requires Filed()
      ensures Visited(live, Slots(), {}, second)
    {
    }

    lemma QueueHead(todo: set<Session>, session: Session, slot: int, newRank: nat)
      requires Queue(todo, session, slot, newRank) && Filed()
      ensures session in todo && todo <= live && wheeled == live
    {
    }

    lemma QueueEnd(todo: set<Session>, slot: int, newRank: nat)
      requires Queue(todo, null, slot, newRank)
      ensures todo == {}
    {
    }

    /** Before the visit the queue is the slot's whole list. */
    lemma StartSlot(slot: int)
      requires Filed() && 0 <= slot < SLOTS
      ensures Queue(InSlot(slot), wheel[slot], slot, nextRank)
    {
      var due, head := InSlot(slot), wheel[slot];
      forall x | x in due && x != head ensures x.wheelPrev != null && x.wheelPrev in due { assert LinksOk(x); }
      forall x | x in wheeled ensures x.rank < nextRank { assert LinksOk(x); }
      if head == null { NoFirst(due); }
    }

    /** While the wheel catches up to `now`, it reaches every session by its
        expiry or by `now`. */
    ghost predicate TimelyBy(now: int)
      requires forall s :: s in live ==> 0 <= s.wheelSlot < SLOTS
      reads this`live, this`wheelSecond, live`wheelSlot, live`expiresAt
    {
      forall s :: s in live ==>
           NextVisit(s.wheelSlot, wheelSecond) <= s.expiresAt || NextVisit(s.wheelSlot, wheelSecond) <= now
    }

    /** Exactly the closed sessions of `all` have left, none before its time. */
    ghost predicate Swept(all: set<Session>)
      reads this`live, this`wheelSecond, all`closed, all`expiresAt
    {
      && live <= all
      && forall s :: s in all ==> (s.closed <==> s !in live) && (s !in live ==> s.expiresAt <= wheelSecond)
    }

    lemma FiledSlots()
      requires Filed()
      ensures forall s :: s in live ==> 0 <= s.wheelSlot < SLOTS
    {
      forall s | s in live ensures 0 <= s.wheelSlot < SLOTS { assert LinksOk(s); }
    }

    ghost predicate Sweeping(all: set<Session>, now: int)
      reads this, wheel, wheeled, live, counters, all
    {
      Filed() && 0 <= wheelSecond && Swept(all) && (forall s :: s in live ==> 0 <= s.wheelSlot < SLOTS) && TimelyBy(now)
    }

    method Advance(now: int, ghost all: set<Session>)
      requires Sweeping(all, now) && wheelSecond < now
      modifies this`wheelSecond, this`wheeled, this`nextRank, this`live, this`sessions, this`sessionsByFD, wheel
      modifies counters`ruleSessions, counters`globalSessions, counters`globalMemory, counters`sourceSessions
      modifies live`closed, live`wheelSlot, live`wheelPrev, live`wheelNext, live`rank
      ensures Sweeping(all, now) && wheelSecond == old(wheelSecond) + 1 && live <= old(live)
    {
      hide Filed, NextVisit;
      ghost var slots := Slots();
      wheelSecond := wheelSecond + 1;
      ExpireSlot(wheelSecond);
      forall s | s in live
        ensures 0 <= s.wheelSlot < SLOTS
        ensures NextVisit(s.wheelSlot, wheelSecond) <= s.expiresAt || NextVisit(s.wheelSlot, wheelSecond) <= now
      {
        StillTimely(slots[s], s.wheelSlot, s.expiresAt, wheelSecond, now);
      }
    }

    /** One turn of the wheel is enough, however long ago the last one was. */
    method CatchUp(now: int)
      requires Valid()
      modifies this`wheelSecond
      ensures Sweeping(live, now)
      ensures wheelSecond == if now - old(wheelSecond) > SLOTS then now - SLOTS else old(wheelSecond)
    {
      FiledSlots();
      hide NextVisit, Accounted, TablesOk, WheelOk;
      var steps := now - wheelSecond;
      if steps > SLOTS {
        steps := SLOTS;
        wheelSecond := now - steps;
      }
    }

    /** Periodic maintenance closes exactly the sessions that have expired,
        however late it runs and however far ahead sessions were touched. */
    method Maintain(now: int)
      requires Valid()
      modifies this`wheelSecond, this`wheeled, this`nextRank, this`live, this`sessions, this`sessionsByFD, wheel
      modifies counters`ruleSessions, counters`globalSessions, counters`globalMemory, counters`sourceSessions
      modifies live`closed, live`wheelSlot, live`wheelPrev, live`wheelNext, live`rank
      ensures Valid() && wheelSecond == if now > old(wheelSecond) then now else old(wheelSecond)
      ensures live == set s | s in old(live) && s.expiresAt > now
      ensures forall s :: s in old(live) ==> (s.closed <==> s.expiresAt <= now)
    {
      hide Valid, Sweeping;
      ghost var all := live;
      CatchUp(now);
      ghost var first := wheelSecond;
      while wheelSecond < now
        invariant Sweeping(all, now) && live <= all
        invariant wheelSecond <= now || (wheelSecond == first && live == all)
      {
        Advance(now, all);
      }
      SweepDone(all, now);
    }

    /** Once caught up, what is left expires later, and the wheel is on time. */
    lemma SweepDone(all: set<Session>, now: int)
      requires Sweeping(all, now) && now <= wheelSecond
      ensures Valid() && live <= all
      ensures forall s :: s in all ==> (s.closed <==> s !in live)
      ensures forall s :: s in all && s in live ==> s.expiresAt > wheelSecond
      ensures forall s :: s in all && s !in live ==> s.expiresAt <= wheelSecond
    {
    }

    // ----- One receive batch: intrusive chains of packet indices -----

    ghost predicate ChainOk(s: Session, g: seq<int>)
      reads packetNext, s`batchHead, s`batchTail
    {
      Chain(packetNext[..], s.batchHead, s.batchTail, g)
    }

    /** The chains of the current batch: every active session's links spell out
        its group, and a live session carries the current epoch exactly when it
        has one. */
    ghost predicate BatchOk()
      reads this`activeSessions, this`groups, this`owner, this`batchEpoch, this`live
      reads packetNext, groups.Keys`batchHead, groups.Keys`batchTail, live`batchEpoch
    {
      && Grouped(activeSessions, groups, owner)
      && (forall s :: s in groups ==> ChainOk(s, groups[s]))
      && (forall s :: s in live ==> (s.batchEpoch == batchEpoch <==> s in groups))
    }

    /** No live session has an epoch from the future. */
    ghost predicate EpochOk()
      reads this`batchEpoch, this`live, live`batchEpoch
    {
      batchEpoch <= MAX_EPOCH && forall s :: s in live ==> s.batchEpoch <= batchEpoch
    }

    /** Start a new generation; on wraparound every live session is reset so that
        no stale generation can be mistaken for the new one. */
    method BeginPacketBatch()
      requires EpochOk() && TablesOk()
      modifies this`activeSessions, this`groups, this`owner, this`batchEpoch, live`batchEpoch
      ensures BatchOk() && EpochOk() && activeSessions == [] && groups == map[] && owner == map[] && batchEpoch >= 1
    {
      activeSessions, groups, owner := [], map[], map[];
      batchEpoch := if batchEpoch == MAX_EPOCH then 0 else batchEpoch + 1;
      if batchEpoch == 0 {
        batchEpoch := 1;
        var todo := sessions.Keys;
        while todo != {}
          invariant todo <= sessions.Keys
          invariant forall k :: k in sessions && k !in todo ==> sessions[k].batchEpoch == 0
          modifies live`batchEpoch
          decreases todo
        {
          var k :| k in todo;
          sessions[k].batchEpoch := 0;
          todo := todo - {k};
        }
        assert forall s :: s in live ==> s.batchEpoch == 0 by {
          assert forall s :: s in live ==> s.key in sessions && sessions[s.key] == s;
        }
      }
    }

    /** The queued indices of a session so far. */
    ghost function GroupOf(s: Session): seq<int>
      reads this`groups
    {
      if s in groups then groups[s] else []
    }

    method QueuePacket(index: int, s: Session)
      requires BatchOk() && EpochOk() && s in live
      requires 0 <= index < packetNext.Length && forall k :: k in owner ==> k < index
      modifies this`activeSessions, this`groups, this`owner, packetNext, s`batchEpoch, s`batchHead, s`batchTail
      ensures BatchOk() && EpochOk()
      ensures owner == old(owner)[index := s]
      ensures groups == old(groups)[s := old(GroupOf(s)) + [index]]
      ensures activeSessions == old(activeSessions) + if s in old(groups) then [] else [s]
    {
      hide Chain, Grouped;
      ghost var g, next := GroupOf(s), packetNext[..];
      assert s in groups ==> ChainOk(s, g);
      GroupedNext(activeSessions, groups, owner, s, g, index);
      GroupedOwners(activeSessions, groups, owner);
      packetNext[index] := -1;
      if s.batchEpoch != batchEpoch {
        s.batchEpoch := batchEpoch;
        s.batchHead := index;
        s.batchTail := index;
        activeSessions := activeSessions + [s];
        ChainStarts(packetNext[..], index);
        assert g + [index] == [index];
      } else {
        ChainTail(next, s.batchHead, s.batchTail, g);
        assert owner[g[|g| - 1]] == s;
        ChainExtended(next, s.batchHead, s.batchTail, g, index);
        packetNext[s.batchTail] := index;
        assert packetNext[..] == next[index := -1][s.batchTail := index];
        s.batchTail := index;
        assert activeSessions == activeSessions + [];
      }
      ghost var later := packetNext[..];
      forall t | t in groups && t != s ensures ChainOk(t, groups[t]) {
        OtherChainKept(next, later, t.batchHead, t.batchTail, groups[t], owner, s, t, index);
      }
      owner := owner[index := s];
      groups := groups[s := g + [index]];
    }

    // ----- Receiving a batch -----

    /** Sessions never expire later than one idle timeout from `now`. */
    ghost predicate NotAhead(now: int)
      reads this`live, this`wheelSecond, live`expiresAt
    {
      0 <= now && wheelSecond <= now && forall s :: s in live ==> s.expiresAt <= now + idleSeconds
    }

    ghost predicate Receiving(messages: seq<Message>, n: nat, now: int)
      requires n <= |messages|
      reads this, wheel, wheeled, live, counters, packetNext, groups.Keys
    {
      && Valid() && EpochOk() && NotAhead(now) && BatchOk() && batchEpoch >= 1
      && groups.Keys <= live && wheeled == live
      && forall k :: k in owner ==> 0 <= k < n && messages[k].usable && owner[k].key == messages[k].key
    }

    lemma LookUp(key: FlowKey)
      requires Structured()
      ensures wheeled == live
      ensures key in sessions ==> sessions[key] in live && sessions[key].key == key
    {
    }

    /** The session of a flow, created if the budgets allow it. A refused flow
        leaves every counter as it was. */
    method Admit(key: FlowKey, now: int) returns (session: Session?)
      requires Valid() && NotAhead(now)
      modifies this`wheeled, this`nextRank, this`live, this`sessions, this`sessionsByFD, wheel, counters
      modifies wheeled`wheelPrev, this`faults
      ensures Valid() && NotAhead(now) && faults >= old(faults) && counters.refusals >= old(counters.refusals)
      ensures session == null ==> faults > old(faults) || counters.refusals > old(counters.refusals)
      ensures session == null ==> live == old(live)
      ensures session != null ==> session in live && session.key == key
      ensures session != null && session !in old(live) ==> fresh(session) && session.batchEpoch == 0
      ensures session != null && session !in old(live) ==> session.expiresAt == now + idleSeconds
      ensures session != null ==> live == old(live) + {session}
    {
      hide Structured, WheelOk, LinksOk, HeadsOk, Tables, CountOf, Timely;
      LookUp(key);
      session := if key in sessions then sessions[key] else null;
      var created := session == null;
      assert Accounted();
      var ok := counters.ReserveSource(key.client.addr, created, maxPerSource);
      if !ok { return null; }
      if created {
        assert AccountedWith({key.client.addr});
        session := NewSession(key, now);
        if session == null {
          counters.RollbackSource(key.client.addr);
        }
      }
    }

    /** Admission in the middle of a batch: a new session has no packets yet. */
    method AdmitInBatch(messages: seq<Message>, i: nat, key: FlowKey, now: int) returns (session: Session?)
      requires i <= |messages| && Receiving(messages, i, now)
      modifies this`wheeled, this`nextRank, this`live, this`sessions, this`sessionsByFD, wheel, counters
      modifies wheeled`wheelPrev, this`faults
      ensures Receiving(messages, i, now) && faults >= old(faults) && counters.refusals >= old(counters.refusals)
      ensures session == null ==> faults > old(faults) || counters.refusals > old(counters.refusals)
      ensures session != null ==> session in live && session.key == key
      ensures wheeled == live && old(live) <= live && fresh(live - old(live))
      ensures forall x :: x in live - old(live) ==> x.key == key && x.expiresAt == now + idleSeconds
    {
      hide Structured, Accounted, Grouped, Chain, NotAhead, Tables, LinksOk, HeadsOk, CountOf;
      LookUp(key);
      session := Admit(key, now);
      LookUp(key);
    }

    /** Queue an admitted message on its flow's session. */
    method Enqueue(messages: seq<Message>, i: nat, session: Session, now: int)
      requires i < |messages| <= packetNext.Length && Receiving(messages, i, now)
      requires messages[i].usable && session in live && session.key == messages[i].key
      modifies this`activeSessions, this`groups, this`owner, packetNext
      modifies session`batchEpoch, session`batchHead, session`batchTail
      ensures Receiving(messages, i + 1, now) && owner == old(owner)[i := session] && |owner| == |old(owner)| + 1
    {
      hide Structured, Accounted, NotAhead, EpochOk, BatchOk;
      QueuePacket(i, session);
    }

    /** Admit one message and queue it on its flow's session, or drop it. */
    method Receive(messages: seq<Message>, i: nat, now: int)
      requires i < |messages| <= packetNext.Length && Receiving(messages, i, now) && wheeled == live
      modifies this`wheeled, this`nextRank, this`live, this`sessions, this`sessionsByFD, wheel, counters
      modifies wheeled`wheelPrev, this`faults
      modifies this`activeSessions, this`groups, this`owner, packetNext, this`drops
      ensures faults >= old(faults) && counters.refusals >= old(counters.refusals)
      ensures faults == old(faults) && counters.refusals == old(counters.refusals) ==>
                drops == old(drops) + if messages[i].usable then 0 else 1
      modifies live`batchEpoch, live`batchHead, live`batchTail
      ensures Receiving(messages, i + 1, now) && wheeled == live
      ensures |owner| + drops == |old(owner)| + old(drops) + 1
      ensures old(live) <= live && fresh(live - old(live))
      ensures old(owner).Keys <= owner.Keys
      ensures faults == old(faults) && counters.refusals == old(counters.refusals) && messages[i].usable ==> i in owner
      ensures forall x :: x in live - old(live) ==>
                messages[i].usable && x.key == messages[i].key && x.expiresAt == now + idleSeconds
    {
      hide Valid, NotAhead, EpochOk, BatchOk;
      var message := messages[i];
      if !message.usable {
        drops := drops + 1;
        return;
      }
      var session := AdmitInBatch(messages, i, message.key, now);
      if session == null {
        drops := drops + 1;
        return;
      }
      hide Receiving;
      Enqueue(messages, i, session, now);
    }

    /** Group a whole batch: every message is queued or dropped. */
    method QueueAll(messages: seq<Message>, now: int)
      requires |messages| <= packetNext.Length && Receiving(messages, 0, now) && owner == map[]
      modifies this`wheeled, this`nextRank, this`live, this`sessions, this`sessionsByFD, wheel, counters
      modifies wheeled`wheelPrev, this`faults
      modifies this`activeSessions, this`groups, this`owner, packetNext, this`drops
      modifies live`batchEpoch, live`batchHead, live`batchTail
      ensures Receiving(messages, |messages|, now)
      ensures |owner| + drops == old(drops) + |messages|
      ensures faults >= old(faults) && counters.refusals >= old(counters.refusals)
      ensures faults == old(faults) && counters.refusals == old(counters.refusals) ==>
                drops == old(drops) + Unusable(messages)
      ensures old(live) <= live && fresh(live - old(live))
      ensures faults == old(faults) && counters.refusals == old(counters.refusals) ==>
                forall k :: 0 <= k < |messages| && messages[k].usable ==> k in owner
      ensures forall x :: x in live && x !in old(live) ==> x.key in KeysOf(messages) && x.expiresAt == now + idleSeconds
    {
      hide Valid, EpochOk, NotAhead, BatchOk, Receiving, Unusable, KeysOf;
      StartsLive(messages, now);
      UnusableNone();
      for i := 0 to |messages|
        invariant Receiving(messages, i, now)
        invariant |owner| + drops == old(drops) + i
        invariant faults >= old(faults) && counters.refusals >= old(counters.refusals)
        invariant faults == old(faults) && counters.refusals == old(counters.refusals) ==>
                  drops == old(drops) + Unusable(messages[..i])
        invariant old(live) <= live && fresh(live - old(live)) && wheeled == live
        invariant faults == old(faults) && counters.refusals == old(counters.refusals) ==>
                    forall k :: 0 <= k < i && messages[k].usable ==> k in owner
        invariant forall x :: x in live && x !in old(live) ==>
                    x.key in KeysOf(messages) && x.expiresAt == now + idleSeconds
      {
        UnusableNext(messages, i);
        KeyOfMessage(messages, i);
        Receive(messages, i, now);
      }
      assert messages[..|messages|] == messages;
    }

    lemma StartsLive(messages: seq<Message>, now: int)
      requires Receiving(messages, 0, now)
      ensures wheeled == live
    {
    }

    lemma ReceivingStarts(messages: seq<Message>, now: int)
      requires Valid() && EpochOk() && NotAhead(now) && BatchOk() && batchEpoch >= 1 && groups == map[]
      requires owner == map[] && wheeled == live
      ensures Receiving(messages, 0, now)
    {
    }

    method BeginBatch()
      requires Valid() && EpochOk()
      modifies this`activeSessions, this`groups, this`owner, this`batchEpoch, live`batchEpoch
      ensures Valid() && wheeled == live
      ensures BatchOk() && EpochOk() && activeSessions == [] && groups == map[] && owner == map[] && batchEpoch >= 1
    {
      hide Accounted, WheelOk, Timely, OpenOk;
      BeginPacketBatch();
    }

    // ----- Sending a batch -----

    /** One attempt to hand over the rest of a group. Anything but progress without
        an error is a fault. */
    method Transmit(remaining: nat) returns (n: int, error: bool, transient: bool)
      requires remaining > 0
      modifies this`faults
      ensures faults == old(faults) + if error || !(0 < n <= remaining) then 1 else 0
    {
      n, error, transient := *, *, *;
      if error || !(0 < n <= remaining) { faults := faults + 1; }
    }

    /** Hand a group to the socket, in as many partial writes as it takes; only a
        fault stops it. */
    method WriteBatch(count: nat) returns (written: nat, failed: bool, fatal: bool)
      modifies this`faults
      ensures written <= count && (written < count ==> failed) && (fatal ==> failed)
      ensures faults >= old(faults) && (failed ==> faults > old(faults))
    {
      written := 0;
      while written < count
        invariant written <= count && faults == old(faults)
      {
        var n, error, transient := Transmit(count - written);
        if n == -1 && error { n := 0; }
        if n < 0 || n > count - written { return written, true, true; }
        written := written + n;
        if error { return written, true, !transient; }
        if n == 0 { return written, true, true; }
      }
      return written, false, false;
    }

    /** Walk a session's chain: the indices come out in arrival order. */
    method Walk(s: Session) returns (batch: seq<int>)
      requires s in groups && ChainOk(s, groups[s])
      ensures batch == groups[s]
    {
      ghost var g := groups[s];
      batch := [];
      var i := s.batchHead;
      while i >= 0
        invariant |batch| <= |g| && batch == g[..|batch|]
        invariant i == if |batch| < |g| then g[|batch|] else -1
        decreases |g| - |batch|
      {
        assert packetNext[..][g[|batch|]] == if |batch| + 1 < |g| then g[|batch| + 1] else -1;
        batch := batch + [i];
        i := packetNext[i];
      }
    }

    ghost predicate Serving(now: int)
      reads this`wheeled, this`nextRank, wheel, wheeled`wheelSlot, wheeled`wheelPrev, wheeled`wheelNext, wheeled`rank
      reads this`live, this`sessions, this`sessionsByFD, live`closed, this`wheelSecond, wheeled`expiresAt
      reads live`expiresAt
      reads this`othersRule, this`othersGlobal, this`othersMemory, this`othersSource, counters`ruleSessions
      reads counters`globalSessions, counters`globalMemory, counters`sourceSessions
      reads this`batchEpoch, live`batchEpoch
    {
      Valid() && EpochOk() && NotAhead(now) && wheeled == live
    }

    /** After a send: what was sent counts and keeps the session alive, a broken
        socket closes it. */
    method Settle(s: Session, now: int, sent: nat, fatal: bool)
      requires Serving(now) && s in live
      modifies this`wheeled, this`nextRank, this`live, this`sessions, this`sessionsByFD, wheel
      modifies counters`ruleSessions, counters`globalSessions, counters`globalMemory, counters`sourceSessions
      modifies s`expiresAt, s`closed, s`wheelSlot, s`rank, live`wheelPrev, live`wheelNext
      ensures Serving(now) && live == old(live) - if fatal then {s} else {}
      ensures s.expiresAt == if sent > 0 then now + idleSeconds else old(s.expiresAt)
    {
      hide Accounted, TablesOk, LinksOk;
      FiledSlots();
      hide WheelOk;
      if sent > 0 {
        TouchSession(s, now);
      }
      if fatal {
        CloseSession(s);
      }
    }

    /** Send one session's group: a prefix of it reaches the socket in order, the
        rest is dropped. */
    method SendGroup(s: Session, now: int) returns (ghost sent: seq<int>)
      requires Serving(now) && s in live && s in groups && Chained()
      modifies this`wheeled, this`nextRank, this`live, this`sessions, this`sessionsByFD, wheel, counters
      modifies this`packetsUp, this`drops, this`faults
      modifies s`expiresAt, s`closed, s`wheelSlot, s`rank, live`wheelPrev, live`wheelNext
      ensures faults >= old(faults) && (faults == old(faults) ==> sent == groups[s])
      ensures counters.refusals == old(counters.refusals)
      ensures Serving(now) && live <= old(live) && forall x :: x in old(live) && x != s ==> x in live
      ensures sent <= groups[s] && (faults == old(faults) ==> live == old(live))
      ensures s.expiresAt == if sent != [] then now + idleSeconds else old(s.expiresAt)
      ensures packetsUp == old(packetsUp) + |sent| && drops == old(drops) + |groups[s]| - |sent|
    {
      hide Structured, Accounted, EpochOk, NotAhead;
      var batch := Walk(s);
      var count, failed, fatal := WriteBatch(|batch|);
      packetsUp := packetsUp + count;
      if count < |batch| {
        drops := drops + (|batch| - count);
      }
      sent := batch[..count];
      Settle(s, now, count, failed && fatal);
    }

    ghost predicate Chained()
      reads this`groups, packetNext, groups.Keys`batchHead, groups.Keys`batchTail
    {
      forall s :: s in groups ==> ChainOk(s, groups[s])
    }

    /** Serve the active sessions one after the other. */
    method SendAll(now: int) returns (ghost sent: seq<seq<int>>)
      requires Serving(now) && Chained()
      requires forall s :: s in activeSessions ==> s in groups && s in live
      requires forall i, j :: 0 <= i < j < |activeSessions| ==> activeSessions[i] != activeSessions[j]
      modifies this`wheeled, this`nextRank, this`live, this`sessions, this`sessionsByFD, wheel, counters
      modifies this`packetsUp, this`drops, this`faults
      ensures faults >= old(faults) && (faults == old(faults) ==> sent == Queued(activeSessions, groups))
      ensures counters.refusals == old(counters.refusals)
      modifies live`expiresAt, live`closed, live`wheelSlot, live`rank, live`wheelPrev, live`wheelNext
      ensures Serving(now) && live <= old(live) && (faults == old(faults) ==> live == old(live))
      ensures forall x :: x in old(live) ==>
                x.expiresAt == old(x.expiresAt) || (x in activeSessions && x.expiresAt == now + idleSeconds)
      ensures faults == old(faults) ==> forall x :: x in activeSessions && groups[x] != [] ==>
                                                     x.expiresAt == now + idleSeconds
      ensures Prefixes(sent, Queued(activeSessions, groups))
      ensures packetsUp == old(packetsUp) + Size(sent)
      ensures packetsUp + drops == old(packetsUp) + old(drops) + Size(Queued(activeSessions, groups))
    {
      hide Serving, Chained, ChainOk, Queued, Size;
      sent := [];
      ghost var queued := Queued(activeSessions, groups);
      SizeEmpty();
      for i := 0 to |activeSessions|
        invariant Serving(now) && live <= old(live) && Chained() && (faults == old(faults) ==> live == old(live))
        invariant forall x :: x in old(live) ==>
                    x.expiresAt == old(x.expiresAt) || (x in activeSessions && x.expiresAt == now + idleSeconds)
        invariant faults == old(faults) ==> forall j :: 0 <= j < i && groups[activeSessions[j]] != [] ==>
                                                     activeSessions[j].expiresAt == now + idleSeconds
        invariant forall j :: i <= j < |activeSessions| ==> activeSessions[j] in live
        invariant |sent| == i && Prefixes(sent, queued[..i])
        invariant faults >= old(faults) && (faults == old(faults) ==> sent == queued[..i])
        invariant counters.refusals == old(counters.refusals)
        invariant packetsUp == old(packetsUp) + Size(sent)
        invariant packetsUp + drops == old(packetsUp) + old(drops) + Size(queued[..i])
      {
        ghost var part := SendGroup(activeSessions[i], now);
        SizeSnoc(sent, part);
        SizeSnoc(queued[..i], queued[i]);
        assert queued[..i + 1] == queued[..i] + [queued[i]];
        sent := sent + [part];
      }
      assert queued[..|activeSessions|] == queued;
    }

    ghost function ActiveKeys(): set<FlowKey>
      reads this`activeSessions
    {
      set s | s in activeSessions :: s.key
    }

    /** The flows served are those of the queued datagrams. */
    lemma ActiveFlows(messages: seq<Message>, now: int)
      requires Receiving(messages, |messages|, now)
      ensures ActiveKeys() <= KeysOf(messages)
      ensures (forall k :: 0 <= k < |messages| && messages[k].usable ==> k in owner) ==>
                KeysOf(messages) == ActiveKeys() <= Timers().Keys
    {
      hide WheelOk, Timely, Accounted, OpenOk, EpochOk, NotAhead, Chain;
      forall s | s in activeSessions ensures s.key in KeysOf(messages) {
        assert s in set x | x in activeSessions;
        var g := groups[s];
        ActiveHasPacket(s);
        assert g[0] in owner && messages[g[0]] in messages;
      }
      if forall k :: 0 <= k < |messages| && messages[k].usable ==> k in owner {
        forall key | key in KeysOf(messages) ensures key in ActiveKeys() && key in sessions {
          var k :| 0 <= k < |messages| && messages[k].usable && messages[k].key == key;
          assert owner[k] in groups.Keys;
          assert owner[k] in set x | x in activeSessions;
        }
      }
    }

    lemma ActiveHasPacket(s: Session)
      requires BatchOk() && s in groups
      ensures groups[s] != []
    {
      assert ChainOk(s, groups[s]);
    }

    /** Group a batch, seen from the flows. */
    method QueueFlows(messages: seq<Message>, now: int)
      requires |messages| <= packetNext.Length && Serving(now)
      modifies this`wheeled, this`nextRank, this`live, this`sessions, this`sessionsByFD, wheel, counters
      modifies wheeled`wheelPrev, this`faults
      modifies this`activeSessions, this`groups, this`owner, this`batchEpoch, packetNext, this`drops
      modifies live`batchEpoch, live`batchHead, live`batchTail
      ensures Receiving(messages, |messages|, now)
      ensures |owner| + drops == old(drops) + |messages|
      ensures faults >= old(faults) && counters.refusals >= old(counters.refusals)
      ensures old(live) <= live && fresh(live - old(live))
      ensures faults == old(faults) && counters.refusals == old(counters.refusals) ==>
                drops == old(drops) + Unusable(messages) && KeysOf(messages) == ActiveKeys() <= Timers().Keys
      ensures ActiveKeys() <= KeysOf(messages)
      ensures GrewBy(messages, old(Timers()), Timers(), now + idleSeconds)
    {
      hide Structured, Accounted, Unusable, KeysOf, Receiving, Tables, ActiveKeys, BatchOk, EpochOk, NotAhead;
      ghost var was, first, all, fds := Timers(), sessions, live, sessionsByFD;
      TablesNow();
      BeginBatch();
      ReceivingStarts(messages, now);
      QueueAll(messages, now);
      ReceivingTables(messages, now);
      ActiveFlows(messages, now);
      SameSession(live, sessions, sessionsByFD, all, first, fds);
      forall k | k in sessions && k !in first
        ensures k in KeysOf(messages) && sessions[k].expiresAt == now + idleSeconds
      {
        NewKey(k, all, first, fds);
      }
    }

    lemma NewKey(k: FlowKey, all: set<Session>, first: map<FlowKey, Session>, fds: map<int, Session>)
      requires TablesOk() && Tables(all, first, fds) && k in sessions && k !in first
      ensures sessions[k] in live && sessions[k] !in all && sessions[k].key == k
    {
    }

    lemma TablesNow()
      requires Structured()
      ensures TablesOk()
    {
    }

    lemma ReceivingTables(messages: seq<Message>, now: int)
      requires Receiving(messages, |messages|, now)
      ensures TablesOk()
    {
    }

    /** Send a batch, seen from the flows. */
    method SendFlows(now: int) returns (ghost sent: seq<seq<int>>)
      requires Serving(now) && Chained()
      requires forall s :: s in activeSessions ==> s in groups && s in live && groups[s] != []
      requires forall i, j :: 0 <= i < j < |activeSessions| ==> activeSessions[i] != activeSessions[j]
      modifies this`wheeled, this`nextRank, this`live, this`sessions, this`sessionsByFD, wheel, counters
      modifies this`packetsUp, this`drops, this`faults
      modifies live`expiresAt, live`closed, live`wheelSlot, live`rank, live`wheelPrev, live`wheelNext
      ensures faults >= old(faults) && (faults == old(faults) ==> sent == Queued(activeSessions, groups))
      ensures counters.refusals == old(counters.refusals)
      ensures Serving(now) && live <= old(live)
      ensures Prefixes(sent, Queued(activeSessions, groups))
      ensures packetsUp == old(packetsUp) + Size(sent)
      ensures packetsUp + drops == old(packetsUp) + old(drops) + Size(Queued(activeSessions, groups))
      ensures Served(old(Timers()), Timers(), ActiveKeys(), now + idleSeconds, faults == old(faults))
    {
      hide Structured, Accounted, EpochOk, NotAhead, Chained, Size, Tables, Served, Queued, Prefixes, ChainOk;
      ghost var was, first, all, fds := Timers(), sessions, live, sessionsByFD;
      ghost var expiries := map x | x in live :: x.expiresAt;
      TablesNow();
      FirstsAreLive(all, first, fds);
      assert was == map k | k in first :: Timer(expiries[first[k]], first[k].fd);
      sent := SendAll(now);
      TablesNow();
      SentFlows(expiries, first, all, fds, now, faults == old(faults));
    }

    /** What a batch of sends means for the flows. */
    lemma SentFlows(expiries: map<Session, int>, first: map<FlowKey, Session>, all: set<Session>,
                    fds: map<int, Session>, now: int, clean: bool)
      requires TablesOk() && Tables(all, first, fds) && live <= all && (clean ==> live == all) && expiries.Keys == all
      requires forall k :: k in first ==> first[k] in all
      requires forall s :: s in activeSessions ==> s in all
      requires forall x :: x in all ==>
                 x.expiresAt == expiries[x] || (x in activeSessions && x.expiresAt == now + idleSeconds)
      requires clean ==> forall x :: x in activeSessions ==> x.expiresAt == now + idleSeconds
      ensures Served(map k | k in first :: Timer(expiries[first[k]], first[k].fd), Timers(), ActiveKeys(),
                     now + idleSeconds, clean)
    {
      hide Tables;
      SameSession(all, first, fds, live, sessions, sessionsByFD);
      if clean {
        forall k | k in first ensures k in sessions { FirstIsLive(k, all, first, fds); }
      }
      forall k | k in sessions
        ensures sessions[k].expiresAt == expiries[first[k]]
                || (k in ActiveKeys() && sessions[k].expiresAt == now + idleSeconds)
        ensures clean && k in ActiveKeys() ==> sessions[k].expiresAt == now + idleSeconds
      {
        KeyOfSession(k);
        if k in ActiveKeys() {
          var i :| 0 <= i < |activeSessions| && activeSessions[i].key == k;
          SessionOfKey(activeSessions[i], all, first, fds);
        }
      }
    }

    lemma FirstsAreLive(all: set<Session>, first: map<FlowKey, Session>, fds: map<int, Session>)
      requires Tables(all, first, fds)
      ensures forall k :: k in first ==> first[k] in all
    {
    }

    lemma KeyOfSession(k: FlowKey)
      requires TablesOk() && k in sessions
      ensures sessions[k].key == k && sessions[k] in live
    {
    }

    lemma FirstIsLive(k: FlowKey, all: set<Session>, first: map<FlowKey, Session>, fds: map<int, Session>)
      requires Tables(all, first, fds) && k in first
      ensures first[k] in all && first[k].key == k
    {
    }

    lemma SessionOfKey(s: Session, all: set<Session>, first: map<FlowKey, Session>, fds: map<int, Session>)
      requires Tables(all, first, fds) && s in all
      ensures s.key in first && first[s.key] == s
    {
    }

    /** Receive one batch: the admitted packets of each flow are grouped and a
        prefix of each group is forwarded in arrival order; every packet read is
        counted exactly once, as forwarded or as dropped. */
    method ReadInbound(messages: seq<Message>, now: int)
      returns (ghost queued: seq<seq<int>>, ghost sent: seq<seq<int>>)
      requires |messages| <= packetNext.Length && Serving(now)
      modifies this, wheel, counters, packetNext
      modifies live`expiresAt, live`closed, live`wheelSlot, live`rank, live`wheelPrev, live`wheelNext
      modifies live`batchEpoch, live`batchHead, live`batchTail
      ensures Serving(now) && activeSessions == []
      ensures FlowsOf(messages, queued)
      ensures Prefixes(sent, queued)
      ensures packetsUp == old(packetsUp) + Size(sent)
      ensures packetsUp + drops == old(packetsUp) + old(drops) + |messages|
      ensures packetsDown == old(packetsDown) && fresh(live - old(live))
      ensures Others() == old(Others()) && faults >= old(faults) && counters.refusals >= old(counters.refusals)
      ensures faults == old(faults) && counters.refusals == old(counters.refusals) ==>
                sent == queued && drops == old(drops) + Unusable(messages)
                && Leads(Inbound(messages), old(Timers()), Timers(), now, idleSeconds)
      ensures Drifts(Inbound(messages), old(Timers()), Timers(), now, idleSeconds)
    {
      hide Structured, Accounted, Grouped, Chain, ChainOk, FlowsOf, Queued, Receiving, Chained, Tables, LinksOk;
      hide HeadsOk, Size, Serving, Prefixes, Unusable, Leads, Drifts, KeysOf, GrewBy, Served, Filed;
      hide Timers, TimersOf, Others, ActiveKeys;
      ghost var was := Timers();
      ServingFiled(now);
      QueueFlows(messages, now);
      QueuedFlows(messages, now);
      queued := Queued(activeSessions, groups);
      ghost var middle, served, failed := Timers(), ActiveKeys(), faults;
      sent := SendFlows(now);
      BatchTimers(messages, was, middle, Timers(), served, now, idleSeconds, faults == failed,
                  faults == old(faults) && counters.refusals == old(counters.refusals));
      activeSessions := [];
    }

    /** Forward what a target answered on a session. */
    method ReadResponses(s: Session, now: int, usable: seq<bool>, broken: bool) returns (ghost forwarded: nat)
      requires Serving(now) && s in live
      modifies this`wheeled, this`nextRank, this`live, this`sessions, this`sessionsByFD, wheel
      modifies counters`ruleSessions, counters`globalSessions, counters`globalMemory, counters`sourceSessions
      modifies this`packetsDown, this`drops, this`faults
      modifies s`expiresAt, s`closed, s`wheelSlot, s`rank, live`wheelPrev, live`wheelNext
      ensures Serving(now) && live <= old(live) && forall x :: x in old(live) && x != s ==> x in live
      ensures packetsDown + drops == old(packetsDown) + old(drops) + |usable|
      ensures packetsDown == old(packetsDown) + forwarded && forwarded <= Good(usable)
      ensures faults >= old(faults) && (faults == old(faults) ==> forwarded == Good(usable) && (s in live <==> !broken))
      ensures s.expiresAt == if forwarded > 0 then now + idleSeconds else old(s.expiresAt)
      ensures broken ==> s !in live
    {
      hide Serving;
      var count := 0;
      for i := 0 to |usable|
        invariant 0 <= count <= i && count + drops == old(drops) + i && count == Good(usable[..i])
        modifies this`drops
      {
        assert usable[..i + 1][..i] == usable[..i];
        if usable[i] { count := count + 1; } else { drops := drops + 1; }
      }
      assert usable[..|usable|] == usable;
      var sent, failed, fatal := WriteBatch(count);
      packetsDown, forwarded := packetsDown + sent, sent;
      if sent < count {
        drops := drops + (count - sent);
      }
      Settle(s, now, sent, (failed && fatal) || broken);
    }

    /** Forward what was answered on a descriptor, seen from the flows. */
    method Respond(fd: int, now: int, usable: seq<bool>, broken: bool)
      requires Serving(now) && fd in sessionsByFD
      modifies this`wheeled, this`nextRank, this`live, this`sessions, this`sessionsByFD, wheel
      modifies counters`ruleSessions, counters`globalSessions, counters`globalMemory, counters`sourceSessions
      modifies this`packetsDown, this`drops, this`faults
      modifies live`expiresAt, live`closed, live`wheelSlot, live`rank, live`wheelPrev, live`wheelNext
      ensures Serving(now) && live <= old(live)
      ensures packetsDown + drops == old(packetsDown) + old(drops) + |usable|
      ensures faults >= old(faults) && (faults == old(faults) ==> packetsDown == old(packetsDown) + Good(usable))
      ensures Drifts(Answers(fd, usable, broken), old(Timers()), Timers(), now, idleSeconds)
      ensures faults == old(faults) ==> Leads(Answers(fd, usable, broken), old(Timers()), Timers(), now, idleSeconds)
    {
      hide Structured, Accounted, EpochOk, NotAhead, Tables, Good;
      ghost var was, first, all, fds := Timers(), sessions, live, sessionsByFD;
      TablesNow();
      FoundByFD(fd, now);
      var s := sessionsByFD[fd];
      SessionOfKey(s, all, first, fds);
      var _ := ReadResponses(s, now, usable, broken);
      TablesNow();
      SameSession(all, first, fds, live, sessions, sessionsByFD);
      forall k | k in first
        ensures (was[k].fd == fd <==> first[k] == s) && first[k] in all && (k in sessions <==> first[k] in live)
      {
        FirstHasFD(k, all, first, fds);
        if k in sessions { KeyOfSession(k); }
      }
    }

    lemma FirstHasFD(k: FlowKey, all: set<Session>, first: map<FlowKey, Session>, fds: map<int, Session>)
      requires Tables(all, first, fds) && k in first
      ensures first[k] in all && first[k].fd in fds && fds[first[k].fd] == first[k]
    {
    }

    lemma HeardByFD(fd: int)
      requires TablesOk()
      ensures Heard(Timers(), fd) <==> fd in sessionsByFD
    {
      if fd in sessionsByFD {
        assert Timers()[sessionsByFD[fd].key].fd == fd;
      }
    }

    // ----- The whole life of a worker -----

    /** Other workers and TCP connections move the shared counters too. */
    method Elsewhere(event: Event, ghost now: int)
      requires Serving(now) && event.Elsewhere?
      modifies this`othersRule, this`othersGlobal, this`othersMemory, this`othersSource
      modifies counters`ruleSessions, counters`globalSessions, counters`globalMemory, counters`sourceSessions
      ensures Serving(now) && Others() == event.Moves(old(Others()))
    {
      hide Structured, EpochOk, NotAhead, CountOf;
      counters.ruleSessions := counters.ruleSessions + event.rule;
      counters.globalSessions := counters.globalSessions + event.global;
      counters.globalMemory := counters.globalMemory + event.memory;
      othersRule, othersGlobal := othersRule + event.rule, othersGlobal + event.global;
      othersMemory := othersMemory + event.memory;
      var holds: int := OthersOf(event.source);
      var change := if holds + event.change < 0 then 0 - holds else event.change;
      OthersChange(event.source, change, now);
    }

    method OthersChange(source: Addr, change: int, ghost now: int)
      requires Serving(now) && OthersOf(source) + change >= 0
      modifies counters`sourceSessions, this`othersSource
      ensures Serving(now) && othersSource == old(othersSource)[source := old(OthersOf(source)) + change]
    {
      hide Structured, EpochOk, NotAhead, CountOf;
      counters.sourceSessions := counters.sourceSessions[source := counters.OfSource(source) + change];
      othersSource := othersSource[source := OthersOf(source) + change];
    }

    /** One turn of the event loop; `taken` datagrams came in. */
    method Step(event: Event, ghost before: int, now: int) returns (taken: nat)
      requires Serving(before) && before <= now && event.Fits(packetNext.Length)
      modifies this, wheel, counters, packetNext
      modifies live`expiresAt, live`closed, live`wheelSlot, live`wheelPrev, live`wheelNext, live`rank
      modifies live`batchEpoch, live`batchHead, live`batchTail
      ensures Serving(now) && fresh(live - old(live)) && Others() == event.Moves(old(Others()))
      ensures packetsUp + packetsDown + drops == old(packetsUp) + old(packetsDown) + old(drops) + taken
      ensures event.Brings(taken)
      ensures Moment((now, event), taken, old(Timers()), Timers(), idleSeconds,
                     faults == old(faults) && counters.refusals == old(counters.refusals))
      ensures faults >= old(faults) && counters.refusals >= old(counters.refusals)
      ensures faults == old(faults) && counters.refusals == old(counters.refusals) ==>
                packetsUp == old(packetsUp) + event.Up() && packetsDown == old(packetsDown) + event.Down(taken)
    {
      hide Serving, FlowsOf, Prefixes, Size, Unusable, Leads, Drifts, Heard, Moment, TablesOk;
      Later(before, now);
      ghost var was := Timers();
      taken := 0;
      match event {
        case Inbound(messages) =>
          ghost var queued, sent := ReadInbound(messages, now);
          taken := |messages|;
        case Answers(fd, usable, broken) =>
          taken := Hear(fd, now, usable, broken);
        case Tick =>
          Tick(now);
          LeadsDrifts(event, was, Timers(), now, idleSeconds);
        case Elsewhere(_, _, _, _, _) =>
          Elsewhere(event, now);
          Unmoved(event, was, now, idleSeconds);
      }
      MomentOf(event, taken, was, Timers(), now, idleSeconds,
               faults == old(faults) && counters.refusals == old(counters.refusals));
    }

    /** Read the answers on a descriptor, if a flow still has it. */
    method Hear(fd: int, now: int, usable: seq<bool>, broken: bool) returns (taken: nat)
      requires Serving(now)
      modifies this`wheeled, this`nextRank, this`live, this`sessions, this`sessionsByFD, wheel
      modifies counters`ruleSessions, counters`globalSessions, counters`globalMemory, counters`sourceSessions
      modifies this`packetsDown, this`drops, this`faults
      modifies live`expiresAt, live`closed, live`wheelSlot, live`rank, live`wheelPrev, live`wheelNext
      ensures Serving(now) && live <= old(live)
      ensures taken == if Heard(old(Timers()), fd) then |usable| else 0
      ensures packetsDown + drops == old(packetsDown) + old(drops) + taken
      ensures faults >= old(faults)
      ensures faults == old(faults) ==>
                && packetsDown == old(packetsDown) + Answers(fd, usable, broken).Down(taken)
                && Leads(Answers(fd, usable, broken), old(Timers()), Timers(), now, idleSeconds)
      ensures Drifts(Answers(fd, usable, broken), old(Timers()), Timers(), now, idleSeconds)
    {
      hide Serving, Leads, Drifts, Tables, Heard;
      taken := 0;
      TablesServing(now);
      HeardByFD(fd);
      if fd in sessionsByFD {
        Respond(fd, now, usable, broken);
        taken := |usable|;
      } else {
        NotHeard(Answers(fd, usable, broken), Timers(), now, idleSeconds);
      }
    }

    method Tick(now: int)
      requires Serving(now)
      modifies this`wheelSecond, this`wheeled, this`nextRank, this`live, this`sessions, this`sessionsByFD, wheel
      modifies counters`ruleSessions, counters`globalSessions, counters`globalMemory, counters`sourceSessions
      modifies live`closed, live`wheelSlot, live`wheelPrev, live`wheelNext, live`rank
      ensures Serving(now) && live == set s | s in old(live) && s.expiresAt > now
      ensures Leads(Event.Tick, old(Timers()), Timers(), now, idleSeconds)
    {
      hide Structured, Accounted, Tables;
      ghost var was, first, all, fds := Timers(), sessions, live, sessionsByFD;
      TablesNow();
      Maintain(now);
      WheeledIsLive();
      TablesNow();
      SameSession(all, first, fds, live, sessions, sessionsByFD);
      forall k ensures k in sessions <==> k in first && was[k].expiresAt > now {
        if k in first { FirstIsLive(k, all, first, fds); }
        if k in sessions { KeyOfSession(k); }
      }
    }

    lemma TablesServing(now: int)
      requires Serving(now)
      ensures TablesOk()
    {
    }

    lemma WheeledIsLive()
      requires Structured()
      ensures wheeled == live
    {
    }

    lemma Later(before: int, now: int)
      requires Serving(before) && before <= now
      ensures Serving(now)
    {
    }

    lemma FoundByFD(fd: int, now: int)
      requires Serving(now) && fd in sessionsByFD
      ensures sessionsByFD[fd] in live && sessionsByFD[fd].fd == fd
    {
    }

    /** The event loop. */
    method Serve(events: seq<(int, Event)>, ghost start: int)
      returns (taken: nat, ghost heard: seq<nat>, ghost lives: seq<map<FlowKey, Timer>>, ghost time: int)
      requires Serving(start)
      requires forall i :: 0 <= i < |events| ==> start <= events[i].0 && events[i].1.Fits(packetNext.Length)
      requires forall i, j :: 0 <= i < j < |events| ==> events[i].0 <= events[j].0
      modifies this, wheel, counters, packetNext
      modifies live`expiresAt, live`closed, live`wheelSlot, live`wheelPrev, live`wheelNext, live`rank
      modifies live`batchEpoch, live`batchHead, live`batchTail
      ensures Serving(time) && fresh(live - old(live)) && Others() == After(events, old(Others()))
      ensures |heard| == |events| && forall i :: 0 <= i < |events| ==> events[i].1.Brings(heard[i])
      ensures taken == Total(heard)
      ensures Lived(events, heard, lives, idleSeconds,
                    faults == old(faults) && counters.refusals == old(counters.refusals))
      ensures lives[0] == old(Timers())
      ensures packetsUp + packetsDown + drops == old(packetsUp) + old(packetsDown) + old(drops) + taken
      ensures faults >= old(faults) && counters.refusals >= old(counters.refusals)
      ensures faults == old(faults) && counters.refusals == old(counters.refusals) ==>
                && packetsUp == old(packetsUp) + UpTotal(events)
                && packetsDown == old(packetsDown) + DownTotal(events, heard)
    {
      hide Serving, Event.Moves, Event.Up, Event.Down, Lived, Moment;
      taken, heard, lives, time := 0, [], [Timers()], start;
      LivedStarts(Timers(), idleSeconds);
      for i := 0 to |events|
        invariant Serving(time) && fresh(live - old(live)) && Others() == After(events[..i], old(Others()))
        invariant i < |events| ==> time <= events[i].0
        invariant |lives| == i + 1 && lives[0] == old(Timers()) && lives[i] == Timers()
        invariant Lived(events[..i], heard, lives, idleSeconds,
                        faults == old(faults) && counters.refusals == old(counters.refusals))
        invariant |heard| == i && taken == Total(heard) && forall j :: 0 <= j < i ==> events[j].1.Brings(heard[j])
        invariant packetsUp + packetsDown + drops == old(packetsUp) + old(packetsDown) + old(drops) + taken
        invariant faults >= old(faults) && counters.refusals >= old(counters.refusals)
        invariant faults == old(faults) && counters.refusals == old(counters.refusals) ==>
                    && packetsUp == old(packetsUp) + UpTotal(events[..i])
                    && packetsDown == old(packetsDown) + DownTotal(events[..i], heard)
      {
        assert events[..i + 1][..i] == events[..i] && events[..i + 1] == events[..i] + [events[i]];
        ghost var smooth := faults == old(faults) && counters.refusals == old(counters.refusals);
        ghost var faulty, refused := faults, counters.refusals;
        assert (events[i].0, events[i].1) == events[i];
        var n := Step(events[i].1, time, events[i].0);
        assert (heard + [n])[..i] == heard;
        LivedOn(events[..i], heard, lives, idleSeconds, smooth, events[i], n, Timers(),
                faults == faulty && counters.refusals == refused,
                faults == old(faults) && counters.refusals == old(counters.refusals));
        lives := lives + [Timers()];
        taken, heard := taken + n, heard + [n];
        time := events[i].0;
      }
      assert events[..|events|] == events;
    }

    /** A worker's whole life, up to its cleanup: `heard` says how many datagrams
        each event brought, every one is counted exactly once, all usable ones are
        forwarded unless something fails or is refused, and the worker leaves the
        shared counters at what the others make of their share, as if it had never
        been there. */
    method Run(events: seq<(int, Event)>, ghost start: int)
      returns (taken: nat, ghost heard: seq<nat>, ghost lives: seq<map<FlowKey, Timer>>)
      requires Serving(start)
      requires forall i :: 0 <= i < |events| ==> start <= events[i].0 && events[i].1.Fits(packetNext.Length)
      requires forall i, j :: 0 <= i < j < |events| ==> events[i].0 <= events[j].0
      modifies this, wheel, counters, packetNext
      modifies live`expiresAt, live`closed, live`wheelSlot, live`wheelPrev, live`wheelNext, live`rank
      modifies live`batchEpoch, live`batchHead, live`batchTail
      ensures live == {} && sessions == map[] && sessionsByFD == map[]
      ensures HoldsNothing() && Others() == After(events, old(Others()))
      ensures |heard| == |events| && forall i :: 0 <= i < |events| ==> events[i].1.Brings(heard[i])
      ensures taken == Total(heard)
      ensures Lived(events, heard, lives, idleSeconds,
                    faults == old(faults) && counters.refusals == old(counters.refusals))
      ensures lives[0] == old(Timers())
      ensures packetsUp + packetsDown + drops == old(packetsUp) + old(packetsDown) + old(drops) + taken
      ensures faults >= old(faults) && counters.refusals >= old(counters.refusals)
      ensures faults == old(faults) && counters.refusals == old(counters.refusals) ==>
                && packetsUp == old(packetsUp) + UpTotal(events)
                && packetsDown == old(packetsDown) + DownTotal(events, heard)
    {
      hide Serving, HoldsNothing, Moment, UpTotal, DownTotal, After, Total, Event.Brings;
      ghost var time;
      taken, heard, lives, time := Serve(events, start);
      ServingFiled(time);
      Cleanup();
    }

    lemma ServingFiled(now: int)
      requires Serving(now)
      ensures Filed() && wheeled == live
    {
    }

    /** What is queued after the admission loop. */
    lemma QueuedFlows(messages: seq<Message>, now: int)
      requires Receiving(messages, |messages|, now)
      ensures Serving(now) && Chained()
      ensures forall s :: s in activeSessions ==> s in groups && s in live && groups[s] != []
      ensures forall i, j :: 0 <= i < j < |activeSessions| ==> activeSessions[i] != activeSessions[j]
      ensures FlowsOf(messages, Queued(activeSessions, groups)) && Size(Queued(activeSessions, groups)) == |owner|
    {
      hide WheelOk, Timely, Tables, Accounted, FlowsOf;
      assert Rising(groups);
      GroupedSize(activeSessions, groups, owner);
      QueuedKeys(messages);
    }

    lemma QueuedKeys(messages: seq<Message>)
      requires TablesOk() && groups.Keys <= live && Grouped(activeSessions, groups, owner) && Rising(groups)
      requires forall k :: k in owner ==> 0 <= k < |messages| && messages[k].usable && owner[k].key == messages[k].key
      ensures FlowsOf(messages, Queued(activeSessions, groups))
    {
      var queued := Queued(activeSessions, groups);
      forall j, i | 0 <= j < |queued| && 0 <= i < |queued[j]|
        ensures 0 <= queued[j][i] < |messages| && messages[queued[j][i]].usable
        ensures messages[queued[j][i]].key == activeSessions[j].key
      {
        assert queued[j][i] in owner;
      }
    }
  }

  /** The queued indices of the active sessions, in serving order. */
  ghost function Queued(active: seq<Session>, groups: map<Session, seq<int>>): (queued: seq<seq<int>>)
    requires forall s :: s in active ==> s in groups
    ensures |queued| == |active| && forall i :: 0 <= i < |active| ==> queued[i] == groups[active[i]]
  {
    if active == [] then [] else
      var last := active[|active| - 1];
      Queued(active[..|active| - 1], groups) + [groups[last]]
  }

  ghost predicate Rising(groups: map<Session, seq<int>>) {
    forall s :: s in groups ==> groups[s] != [] && forall j, k :: 0 <= j < k < |groups[s]| ==>
         groups[s][j] < groups[s][k]
  }

  /** The groups hold as many packets as were queued. */
  lemma GroupedSize(active: seq<Session>, groups: map<Session, seq<int>>, owner: map<int, Session>)
    requires Grouped(active, groups, owner) && Rising(groups)
    ensures Size(Queued(active, groups)) == |owner|
  {
    QueuedSize(active, groups, owner);
    forall k | k in owner ensures owner[k] in active {
      assert owner[k] in set s | s in active;
    }
    assert OwnedBy(owner, active) == owner.Keys;
  }

  ghost function OwnedBy(owner: map<int, Session>, active: seq<Session>): set<int> {
    set k | k in owner && owner[k] in active
  }

  ghost predicate Owned(groups: map<Session, seq<int>>, owner: map<int, Session>) {
    && (forall s, i :: s in groups && 0 <= i < |groups[s]| ==> groups[s][i] in owner && owner[groups[s][i]] == s)
    && (forall k :: k in owner ==> owner[k] in groups && k in groups[owner[k]])
  }

  lemma OneMoreOwner(rest: seq<Session>, s: Session, groups: map<Session, seq<int>>, owner: map<int, Session>)
    requires Owned(groups, owner) && Rising(groups) && s in groups && s !in rest
    ensures |OwnedBy(owner, rest + [s])| == |OwnedBy(owner, rest)| + |groups[s]|
  {
    var mine := set k | k in groups[s];
    SetOfRising(groups[s]);
    assert forall x :: x in rest + [s] <==> x in rest || x == s;
    forall k ensures k in mine <==> k in owner && owner[k] == s {
      if k in mine {
        var i :| 0 <= i < |groups[s]| && groups[s][i] == k;
      }
    }
    assert OwnedBy(owner, rest + [s]) == OwnedBy(owner, rest) + mine;
  }

  lemma {:induction false} QueuedSize(active: seq<Session>, groups: map<Session, seq<int>>, owner: map<int, Session>)
    requires Rising(groups) && Owned(groups, owner)
    requires forall s :: s in active ==> s in groups
    requires forall i, j :: 0 <= i < j < |active| ==> active[i] != active[j]
    ensures Size(Queued(active, groups)) == |OwnedBy(owner, active)|
  {
    hide Rising, Owned;
    if active != [] {
      var rest, last := active[..|active| - 1], active[|active| - 1];
      QueuedSize(rest, groups, owner);
      SizeSnoc(Queued(rest, groups), groups[last]);
      assert active == rest + [last];
      OneMoreOwner(rest, last, groups, owner);
    }
  }

  lemma {:induction false} SetOfRising(g: seq<int>)
    requires forall j, k :: 0 <= j < k < |g| ==> g[j] < g[k]
    ensures |set k | k in g| == |g|
  {
    if g != [] {
      var rest, last := g[..|g| - 1], g[|g| - 1];
      SetOfRising(rest);
      assert (set k | k in g) == (set k | k in rest) + {last};
    }
  }

  /** How many datagrams are malformed. */
  ghost function Unusable(messages: seq<Message>): (n: nat)
    ensures n <= |messages|
  {
    if messages == [] then 0
    else Unusable(messages[..|messages| - 1]) + if messages[|messages| - 1].usable then 0 else 1
  }

  lemma KeyOfMessage(messages: seq<Message>, i: nat)
    requires i < |messages|
    ensures messages[i].usable ==> messages[i].key in KeysOf(messages)
  {
  }

  lemma UnusableNone()
    ensures Unusable([]) == 0
  {
  }

  lemma UnusableNext(messages: seq<Message>, i: nat)
    requires i < |messages|
    ensures Unusable(messages[..i + 1]) == Unusable(messages[..i]) + if messages[i].usable then 0 else 1
  {
    assert messages[..i + 1][..i] == messages[..i];
  }

  /** The number of packets in a list of groups. */
  ghost function Size(groups: seq<seq<int>>): nat {
    if groups == [] then 0 else Size(groups[..|groups| - 1]) + |groups[|groups| - 1]|
  }

  lemma SizeSnoc(groups: seq<seq<int>>, g: seq<int>)
    ensures Size(groups + [g]) == Size(groups) + |g|
  {
    assert (groups + [g])[..|groups|] == groups;
  }

  lemma SizeEmpty()
    ensures Size([]) == 0
  {
  }

  /** Of each group, what was sent is a prefix. */
  ghost predicate Prefixes(sent: seq<seq<int>>, queued: seq<seq<int>>) {
    |sent| == |queued| && forall j :: 0 <= j < |sent| ==> sent[j] <= queued[j]
  }

  /** Each group lists packets of one flow in arrival order, and no flow has two
      groups. */
  ghost predicate FlowsOf(messages: seq<Message>, groups: seq<seq<int>>) {
    && (forall j :: 0 <= j < |groups| ==> groups[j] != [])
    && (forall j, i :: 0 <= j < |groups| && 0 <= i < |groups[j]| ==>
          0 <= groups[j][i] < |messages| && messages[groups[j][i]].usable)
    && (forall j, a, b :: 0 <= j < |groups| && 0 <= a < b < |groups[j]| ==>
          groups[j][a] < groups[j][b] && messages[groups[j][a]].key == messages[groups[j][b]].key)
    && (forall i, j :: 0 <= i < j < |groups| ==> messages[groups[i][0]].key != messages[groups[j][0]].key)
  }

  lemma Highest(todo: set<Session>) returns (top: Session)
    requires todo != {}
    ensures top in todo && forall x :: x in todo ==> x.rank <= top.rank
  {
    top :| top in todo;
    if todo != {top} {
      var rest := Highest(todo - {top});
      top := if rest.rank > top.rank then rest else top;
    }
  }
}
