/** Exact arithmetic on forwarding scopes: which tuples a change of plan
    retires, and which desired tuples may stay open while others drain. */
module PortAlgebra {
  import opened NftSpecs

  datatype Interval = Interval(first: int, last: int)

  ghost predicate Covers(parts: seq<Interval>, p: int) {
    exists part :: part in parts && part.first <= p <= part.last
  }

  // ----- Specification functions -----

  function Cut(part: Interval, first: int, last: int): seq<Interval> {
    if last < part.first || first > part.last then [part]
    else
      (if first > part.first then [Interval(part.first, first - 1)] else []) +
      (if last < part.last then [Interval(last + 1, part.last)] else [])
  }

  function Subtract(parts: seq<Interval>, first: int, last: int): seq<Interval> {
    if parts == [] then []
    else Subtract(parts[..|parts| - 1], first, last) + Cut(parts[|parts| - 1], first, last)
  }

  function Slice(s: Spec, part: Interval): Spec {
    var target := s.targetPort + part.first - s.listenPort;
    s.(listenPort := part.first, listenPortEnd := part.last,
       targetPort := target, targetPortEnd := target + part.last - part.first)
  }

  /** Same identity, tuple and offset: the ranges may differ, the mapping not. */
  predicate SameScope(next: Spec, previous: Spec) {
    && previous.ruleId == next.ruleId
    && previous.family == next.family
    && previous.protocol == next.protocol
    && previous.mark == next.mark
    && previous.listenHost == next.listenHost
    && previous.targetHost == next.targetHost
    && previous.targetPort - previous.listenPort == next.targetPort - next.listenPort
  }

  /** The ports of `s` left after every scope of `others` that hits it. */
  function Remaining(s: Spec, others: seq<Spec>, hit: (Spec, Spec) -> bool): seq<Interval> {
    if others == [] then [Interval(s.listenPort, s.LastPort())]
    else
      var rest := Remaining(s, others[..|others| - 1], hit);
      var other := others[|others| - 1];
      if hit(other, s) then Subtract(rest, other.listenPort, other.LastPort()) else rest
  }

  function Slices(s: Spec, parts: seq<Interval>): (r: seq<Spec>)
    ensures |r| == |parts|
    ensures forall i :: 0 <= i < |r| ==> r[i] == Slice(s, parts[i])
  {
    seq(|parts|, i requires 0 <= i < |parts| => Slice(s, parts[i]))
  }

  function Carve(specs: seq<Spec>, others: seq<Spec>, hit: (Spec, Spec) -> bool): seq<Spec> {
    if specs == [] then []
    else
      var s := specs[|specs| - 1];
      Carve(specs[..|specs| - 1], others, hit) + Slices(s, Remaining(s, others, hit))
  }

  function Without(specs: seq<Spec>, key: Spec): seq<Spec> {
    if specs == [] then []
    else
      var s := specs[|specs| - 1];
      Without(specs[..|specs| - 1], key) + (if s.Key() == key then [] else [s])
  }

  /** Keep one scope for each key, the last one given. */
  function Unique(specs: seq<Spec>): seq<Spec> {
    if specs == [] then []
    else
      var s := specs[|specs| - 1];
      Without(Unique(specs[..|specs| - 1]), s.Key()) + [s]
  }

  function Retired(prior: seq<Spec>, desired: seq<Spec>): seq<Spec> {
    Unique(Carve(prior, desired, SameScope))
  }

  function Gate(desired: seq<Spec>, pending: seq<Spec>): seq<Spec> {
    Carve(desired, pending, IngressClash)
  }

  // ----- The loops of the source -----

  method SubtractPortRange(parts: seq<Interval>, first: int, last: int) returns (out: seq<Interval>)
    ensures out == Subtract(parts, first, last)
    ensures forall p :: Covers(out, p) <==> Covers(parts, p) && !(first <= p <= last)
  {
    out := [];
    for i := 0 to |parts|
      invariant out == Subtract(parts[..i], first, last)
    {
      assert parts[..i + 1][..i] == parts[..i];
      var part := parts[i];
      if last < part.first || first > part.last {
        out := out + [part];
        continue;
      }
      var before := out;
      if first > part.first {
        out := out + [Interval(part.first, first - 1)];
      }
      if last < part.last {
        out := out + [Interval(last + 1, part.last)];
      }
      assert out == before + Cut(part, first, last);
    }
    assert parts[..|parts|] == parts;
    forall p ensures Covers(out, p) <==> Covers(parts, p) && !(first <= p <= last) {
      SubtractExact(parts, first, last, p);
    }
  }

  method RemainingPorts(s: Spec, others: seq<Spec>, hit: (Spec, Spec) -> bool) returns (parts: seq<Interval>)
    ensures parts == Remaining(s, others, hit)
  {
    parts := [Interval(s.listenPort, s.LastPort())];
    for i := 0 to |others|
      invariant parts == Remaining(s, others[..i], hit)
    {
      assert others[..i + 1][..i] == others[..i];
      if !hit(others[i], s) { continue; }
      parts := SubtractPortRange(parts, others[i].listenPort, others[i].LastPort());
    }
    assert others[..|others|] == others;
  }

  method CarveSpecs(specs: seq<Spec>, others: seq<Spec>, hit: (Spec, Spec) -> bool) returns (out: seq<Spec>)
    ensures out == Carve(specs, others, hit)
  {
    out := [];
    for i := 0 to |specs|
      invariant out == Carve(specs[..i], others, hit)
    {
      assert specs[..i + 1][..i] == specs[..i];
      var parts := RemainingPorts(specs[i], others, hit);
      ghost var before := out;
      for j := 0 to |parts|
        invariant out == before + Slices(specs[i], parts)[..j]
      {
        out := out + [Slice(specs[i], parts[j])];
      }
      assert Slices(specs[i], parts)[..|parts|] == Slices(specs[i], parts);
    }
    assert specs[..|specs|] == specs;
  }

  /** One scope for each key, the last one given: the source fills a map keyed
      by the retirement key and lists its values. */
  method UniqueSpecs(specs: seq<Spec>) returns (out: seq<Spec>)
    ensures out == Unique(specs)
  {
    out := [];
    for i := 0 to |specs|
      invariant out == Unique(specs[..i])
    {
      assert specs[..i + 1][..i] == specs[..i];
      out := Without(out, specs[i].Key()) + [specs[i]];
    }
    assert specs[..|specs|] == specs;
  }

  method RetiredSpecs(prior: seq<Spec>, desired: seq<Spec>) returns (retired: seq<Spec>)
    ensures retired == Retired(prior, desired)
    ensures AllValid(prior) ==> AllValid(retired) && Atoms(retired) == Atoms(prior) - Atoms(desired)
  {
    var raw := CarveSpecs(prior, desired, SameScope);
    retired := UniqueSpecs(raw);
    if AllValid(prior) {
      RetiredIsDifference(prior, desired);
    }
  }

  method GateReplacements(desired: seq<Spec>, pending: seq<Spec>) returns (gated: seq<Spec>)
    ensures gated == Gate(desired, pending)
    ensures AllValid(desired) ==> AllValid(gated)
    ensures IngressDisjoint(gated, pending) && NoWider(gated, desired)
  {
    gated := CarveSpecs(desired, pending, IngressClash);
    GateNeverOpens(desired, pending);
    if AllValid(desired) {
      GateIsOpenPart(desired, pending);
    }
  }

  // ----- Exactness of the interval layer -----

  lemma {:induction false} SubtractExact(parts: seq<Interval>, first: int, last: int, p: int)
    ensures Covers(Subtract(parts, first, last), p) <==> Covers(parts, p) && !(first <= p <= last)
  {
    if parts != [] {
      var front, part := parts[..|parts| - 1], parts[|parts| - 1];
      SubtractExact(front, first, last, p);
      assert parts == front + [part];
      var rest, cut := Subtract(front, first, last), Cut(part, first, last);
      assert Subtract(parts, first, last) == rest + cut;
      hide Subtract, Covers, Cut;
      CoversConcat(rest, cut, p);
      CoversConcat(front, [part], p);
      CutExact(part, first, last, p);
    }
  }

  lemma CoversConcat(xs: seq<Interval>, ys: seq<Interval>, p: int)
    ensures Covers(xs + ys, p) <==> Covers(xs, p) || Covers(ys, p)
  {
    if Covers(xs, p) {
      var part :| part in xs && part.first <= p <= part.last;
      assert part in xs + ys;
    }
    if Covers(ys, p) {
      var part :| part in ys && part.first <= p <= part.last;
      assert part in xs + ys;
    }
  }

  lemma CutExact(part: Interval, first: int, last: int, p: int)
    ensures Covers(Cut(part, first, last), p) <==> Covers([part], p) && !(first <= p <= last)
  {
    if Covers([part], p) && !(first <= p <= last) {
      assert part in [part];
      var kept := if last < part.first || first > part.last then part
                  else if p < first then Interval(part.first, first - 1) else Interval(last + 1, part.last);
      assert kept in Cut(part, first, last) && kept.first <= p <= kept.last;
    }
    if Covers(Cut(part, first, last), p) {
      assert part in [part];
    }
  }

  /** Every interval lies inside the range it was cut from and is not empty. */
  predicate Within(parts: seq<Interval>, first: int, last: int) {
    forall part :: part in parts ==> first <= part.first <= part.last <= last
  }

  lemma {:induction false} SubtractStaysWithin(parts: seq<Interval>, first: int, last: int, lo: int, hi: int)
    requires Within(parts, lo, hi)
    ensures Within(Subtract(parts, first, last), lo, hi)
  {
    if parts != [] {
      SubtractStaysWithin(parts[..|parts| - 1], first, last, lo, hi);
      assert parts[|parts| - 1] in parts;
    }
  }

  ghost predicate Hit(s: Spec, others: seq<Spec>, hit: (Spec, Spec) -> bool, p: int) {
    exists o :: o in others && hit(o, s) && o.listenPort <= p <= o.LastPort()
  }

  lemma {:induction false} RemainingExact(s: Spec, others: seq<Spec>, hit: (Spec, Spec) -> bool, p: int)
    ensures Covers(Remaining(s, others, hit), p)
            <==> s.listenPort <= p <= s.LastPort() && !Hit(s, others, hit, p)
    ensures s.listenPort <= s.LastPort() ==> Within(Remaining(s, others, hit), s.listenPort, s.LastPort())
  {
    var whole := Interval(s.listenPort, s.LastPort());
    if others == [] {
      assert whole in [whole];
    } else {
      var n := |others| - 1;
      RemainingExact(s, others[..n], hit, p);
      SubtractExact(Remaining(s, others[..n], hit), others[n].listenPort, others[n].LastPort(), p);
      if s.listenPort <= s.LastPort() {
        SubtractStaysWithin(Remaining(s, others[..n], hit), others[n].listenPort, others[n].LastPort(), s.listenPort,
                            s.LastPort());
      }
      assert others == others[..n] + [others[n]];
      assert Hit(s, others, hit, p) <==>
             Hit(s, others[..n], hit, p) || (hit(others[n], s) && others[n].listenPort <= p <= others[n].LastPort());
    }
  }

  // ----- Exactness of the scope layer -----

  lemma SliceDenotation(s: Spec, part: Interval, a: Atom)
    requires ValidSpec(s) && s.listenPort <= part.first <= part.last <= s.LastPort()
    ensures ValidSpec(Slice(s, part))
    ensures Slice(s, part).Has(a) <==> s.Has(a) && part.first <= a.listenPort <= part.last
    ensures Slice(s, part).flow == s.flow
  {
  }

  lemma SlicesDenotation(s: Spec, parts: seq<Interval>, a: Atom)
    requires ValidSpec(s) && Within(parts, s.listenPort, s.LastPort())
    ensures AllValid(Slices(s, parts))
    ensures Owns(Slices(s, parts), a) <==> s.Has(a) && Covers(parts, a.listenPort)
  {
    var out := Slices(s, parts);
    forall x | x in out
      ensures ValidSpec(x)
    {
      var i :| 0 <= i < |out| && out[i] == x;
      assert parts[i] in parts;
      SliceDenotation(s, parts[i], a);
    }
    if Owns(out, a) {
      var x :| x in out && x.Has(a);
      var i :| 0 <= i < |out| && out[i] == x;
      assert parts[i] in parts;
      SliceDenotation(s, parts[i], a);
    }
    if s.Has(a) && Covers(parts, a.listenPort) {
      var part :| part in parts && part.first <= a.listenPort <= part.last;
      var i :| 0 <= i < |parts| && parts[i] == part;
      SliceDenotation(s, part, a);
      assert out[i] in out;
    }
  }

  /** What is left of a plan after the scopes that hit it: exactly the atoms no
      hitting scope covers, each still carrying its own target. */
  lemma {:induction false} CarveExact(specs: seq<Spec>, others: seq<Spec>, hit: (Spec, Spec) -> bool, a: Atom)
    requires AllValid(specs)
    ensures AllValid(Carve(specs, others, hit))
    ensures Owns(Carve(specs, others, hit), a)
            <==> exists s :: s in specs && s.Has(a) && !Hit(s, others, hit, a.listenPort)
  {
    if specs != [] {
      var n := |specs| - 1;
      var s := specs[n];
      var front, back := Carve(specs[..n], others, hit), Slices(s, Remaining(s, others, hit));
      assert forall x :: x in specs[..n] ==> x in specs;
      CarveExact(specs[..n], others, hit, a);
      assert s in specs;
      RemainingExact(s, others, hit, a.listenPort);
      SlicesDenotation(s, Remaining(s, others, hit), a);
      AtomsOfConcat(front, back);
      assert a in Atoms(front + back) <==> a in Atoms(front) || a in Atoms(back);
      assert specs == specs[..n] + [s];
    }
  }

  lemma {:induction false} WithoutMembers(specs: seq<Spec>, key: Spec, s: Spec)
    ensures s in Without(specs, key) <==> s in specs && s.Key() != key
  {
    if specs != [] {
      var n := |specs| - 1;
      WithoutMembers(specs[..n], key, s);
      assert specs == specs[..n] + [specs[n]];
    }
  }

  /** The last scope given under a key. */
  function Latest(specs: seq<Spec>, key: Spec): Option<Spec> {
    if specs == [] then None
    else if specs[|specs| - 1].Key() == key then Some(specs[|specs| - 1])
    else Latest(specs[..|specs| - 1], key)
  }

  /** `Unique` holds exactly the last value given under each key. */
  lemma {:induction false} UniqueIsLatest(specs: seq<Spec>, s: Spec)
    ensures s in Unique(specs) <==> Latest(specs, s.Key()) == Some(s)
  {
    if specs != [] {
      var n := |specs| - 1;
      UniqueIsLatest(specs[..n], s);
      WithoutMembers(Unique(specs[..n]), specs[n].Key(), s);
    }
  }

  lemma {:induction false} LatestFinds(specs: seq<Spec>, key: Spec)
    ensures var l := Latest(specs, key);
            if l.Some? then l.value in specs && l.value.Key() == key else forall s :: s in specs ==> s.Key() != key
  {
    if specs != [] {
      LatestFinds(specs[..|specs| - 1], key);
      assert specs == specs[..|specs| - 1] + [specs[|specs| - 1]];
    }
  }

  lemma KeyDeterminesAtoms(s: Spec, t: Spec, a: Atom)
    requires s.Key() == t.Key()
    ensures s.Has(a) <==> t.Has(a)
  {
    assert s.Key().LastPort() == s.LastPort() || s.LastPort() == 0;
    assert s.LastPort() == s.Key().listenPortEnd;
  }

  lemma UniqueKeepsAtoms(specs: seq<Spec>)
    ensures Atoms(Unique(specs)) == Atoms(specs)
    ensures AllValid(specs) ==> AllValid(Unique(specs))
  {
    forall s ensures s in Unique(specs) ==> s in specs {
      UniqueIsLatest(specs, s);
      LatestFinds(specs, s.Key());
    }
    forall a ensures Owns(Unique(specs), a) <==> Owns(specs, a) {
      if Owns(specs, a) {
        var s :| s in specs && s.Has(a);
        LatestFinds(specs, s.Key());
        var u := Latest(specs, s.Key()).value;
        UniqueIsLatest(specs, u);
        KeyDeterminesAtoms(s, u, a);
      }
    }
  }

  lemma {:induction false} WithoutIsSmaller(specs: seq<Spec>, key: Spec)
    requires DistinctKeys(specs)
    ensures |Without(specs, key)| <= |specs| && DistinctKeys(Without(specs, key))
    ensures forall s :: s in Without(specs, key) ==> s in specs && s.Key() != key
  {
    if specs != [] {
      var n := |specs| - 1;
      var front, rest := specs[..n], Without(specs[..n], key);
      WithoutIsSmaller(front, key);
      hide Without;
      forall s | s in rest ensures s.Key() != specs[n].Key() {
        var i :| 0 <= i < n && front[i] == s;
        assert specs[i].Key() != specs[n].Key();
      }
    }
  }

  /** Deduplication adds nothing and leaves one scope for each key. */
  lemma {:induction false} UniqueIsSmaller(specs: seq<Spec>)
    ensures |Unique(specs)| <= |specs| && DistinctKeys(Unique(specs))
    ensures forall s :: s in Unique(specs) ==> s in specs
  {
    if specs != [] {
      var n := |specs| - 1;
      UniqueIsSmaller(specs[..n]);
      WithoutIsSmaller(Unique(specs[..n]), specs[n].Key());
    }
  }

  lemma {:induction false} DistinctIsUnique(specs: seq<Spec>)
    requires DistinctKeys(specs)
    ensures Unique(specs) == specs
  {
    if specs != [] {
      var n := |specs| - 1;
      DistinctIsUnique(specs[..n]);
      AbsentIsKept(specs[..n], specs[n].Key());
      assert specs[..n] + [specs[n]] == specs;
    }
  }

  lemma {:induction false} AbsentIsKept(specs: seq<Spec>, key: Spec)
    requires forall s :: s in specs ==> s.Key() != key
    ensures Without(specs, key) == specs
  {
    if specs != [] {
      AbsentIsKept(specs[..|specs| - 1], key);
      assert specs[..|specs| - 1] + [specs[|specs| - 1]] == specs;
    }
  }

  /** The administrator's retirement difference is exact, tuple by tuple. */
  lemma RetiredIsDifference(prior: seq<Spec>, desired: seq<Spec>)
    requires AllValid(prior)
    ensures AllValid(Retired(prior, desired))
    ensures Atoms(Retired(prior, desired)) == Atoms(prior) - Atoms(desired)
  {
    var hit := SameScope;
    var raw := Carve(prior, desired, hit);
    UniqueKeepsAtoms(raw);
    assert AllValid(raw) by {
      var any: Atom :| true;
      CarveExact(prior, desired, hit, any);
    }
    forall a ensures Owns(raw, a) <==> Owns(prior, a) && !Owns(desired, a) {
      CarveExact(prior, desired, hit, a);
      forall s | s in prior && s.Has(a)
        ensures Hit(s, desired, hit, a.listenPort) <==> Owns(desired, a)
      {
        if Owns(desired, a) {
          var o :| o in desired && o.Has(a);
          assert SameScope(o, s);
          assert o in desired && hit(o, s) && o.listenPort <= a.listenPort <= o.LastPort();
        }
        if Hit(s, desired, hit, a.listenPort) {
          var o :| o in desired && hit(o, s) && o.listenPort <= a.listenPort <= o.LastPort();
          assert o.Has(a);
        }
      }
    }
  }

  /** A desired tuple stays open exactly when no draining scope claims its
      ingress; nothing else is opened and no target moves. */
  lemma GateIsOpenPart(desired: seq<Spec>, pending: seq<Spec>)
    requires AllValid(desired)
    ensures AllValid(Gate(desired, pending))
    ensures forall a :: Owns(Gate(desired, pending), a)
                        <==> Owns(desired, a) && forall o :: o in pending ==> !ClaimsIngress(o, a)
    ensures IngressDisjoint(Gate(desired, pending), pending)
    ensures Atoms(Gate(desired, pending)) <= Atoms(desired)
  {
    var hit := IngressClash;
    assert AllValid(Gate(desired, pending)) by {
      var any: Atom :| true;
      CarveExact(desired, pending, hit, any);
    }
    forall a
      ensures Owns(Gate(desired, pending), a)
              <==> Owns(desired, a) && forall o :: o in pending ==> !ClaimsIngress(o, a)
    {
      CarveExact(desired, pending, hit, a);
      forall s | s in desired && s.Has(a)
        ensures Hit(s, pending, hit, a.listenPort) <==> exists o :: o in pending && ClaimsIngress(o, a)
      {
        if o :| o in pending && ClaimsIngress(o, a) {
          assert o in pending && hit(o, s) && o.listenPort <= a.listenPort <= o.LastPort();
        }
        if Hit(s, pending, hit, a.listenPort) {
          var o :| o in pending && hit(o, s) && o.listenPort <= a.listenPort <= o.LastPort();
          assert ClaimsIngress(o, a);
        }
      }
    }
  }

  ghost predicate OffloadedBefore(active: seq<Spec>, a: Atom) {
    exists o :: o in active && o.Has(a) && o.flow
  }

  /** The tuples that some accelerated scope has. */
  ghost function Offloaded(specs: seq<Spec>): iset<Atom> {
    iset a | OffloadedBefore(specs, a)
  }

  /** The scopes hold no tuple that `bound` does not, and accelerate none that it
      does not accelerate. */
  ghost predicate NoWider(specs: seq<Spec>, bound: seq<Spec>) {
    Atoms(specs) <= Atoms(bound) && Offloaded(specs) <= Offloaded(bound)
  }

  /** Even for a malformed plan, gating opens nothing that was not desired and
      nothing whose ingress is still draining. */
  lemma GateNeverOpens(desired: seq<Spec>, pending: seq<Spec>)
    ensures IngressDisjoint(Gate(desired, pending), pending)
    ensures Atoms(Gate(desired, pending)) <= Atoms(desired) && NoWider(Gate(desired, pending), desired)
  {
    forall a | OffloadedBefore(Gate(desired, pending), a)
      ensures OffloadedBefore(desired, a)
    {
      var g :| g in Gate(desired, pending) && g.Has(a) && g.flow;
      PieceIsOpen(desired, pending, g, a);
    }
    forall a | Owns(Gate(desired, pending), a)
      ensures Owns(desired, a) && forall o :: o in pending ==> !ClaimsIngress(o, a)
    {
      var g :| g in Gate(desired, pending) && g.Has(a);
      PieceIsOpen(desired, pending, g, a);
    }
  }

  lemma {:induction false} PieceIsOpen(desired: seq<Spec>, pending: seq<Spec>, g: Spec, a: Atom)
    requires g in Carve(desired, pending, IngressClash) && g.Has(a)
    ensures Owns(desired, a) && forall o :: o in pending ==> !ClaimsIngress(o, a)
    ensures g.flow ==> OffloadedBefore(desired, a)
  {
    var n := |desired| - 1;
    if g in Carve(desired[..n], pending, IngressClash) {
      PieceIsOpen(desired[..n], pending, g, a);
    } else {
      var s := desired[n];
      var parts := Remaining(s, pending, IngressClash);
      var i :| 0 <= i < |parts| && Slices(s, parts)[i] == g;
      assert parts[i] in parts;
      EmptyPartsEnd(s, pending, parts[i]);
      assert Covers(parts, a.listenPort);
      RemainingExact(s, pending, IngressClash, a.listenPort);
      assert s.Has(a);
      assert !Hit(s, pending, IngressClash, a.listenPort);
      assert forall o :: o in pending && ClaimsIngress(o, a) ==>
          IngressClash(o, s) && o.listenPort <= a.listenPort <= o.LastPort();
    }
  }

  /** An empty part only comes from a scope that was empty to begin with. */
  lemma {:induction false} EmptyPartsEnd(s: Spec, others: seq<Spec>, part: Interval)
    requires part in Remaining(s, others, IngressClash)
    ensures part.last < part.first ==>
              part.last == s.LastPort() && s.LastPort() < s.listenPort && s.listenPort == part.first
  {
    if others != [] {
      var n := |others| - 1;
      var rest := Remaining(s, others[..n], IngressClash);
      if IngressClash(others[n], s) {
        var q := SubtractComesFrom(rest, others[n].listenPort, others[n].LastPort(), part);
        EmptyPartsEnd(s, others[..n], q);
      } else {
        EmptyPartsEnd(s, others[..n], part);
      }
    }
  }

  lemma {:induction false} SubtractComesFrom(parts: seq<Interval>, first: int, last: int, part: Interval)
    returns (q: Interval)
    requires part in Subtract(parts, first, last)
    ensures q in parts && part in Cut(q, first, last)
  {
    var n := |parts| - 1;
    if part in Subtract(parts[..n], first, last) {
      q := SubtractComesFrom(parts[..n], first, last, part);
    } else {
      q := parts[n];
    }
  }

  // ----- What a carved piece looks like -----

  /** A port the scope does not have, or that a scope hitting it has. */
  ghost predicate Closed(s: Spec, others: seq<Spec>, hit: (Spec, Spec) -> bool, p: int) {
    !(s.listenPort <= p <= s.LastPort()) || Hit(s, others, hit, p)
  }

  /** No closed port from one of the two ports to the other. */
  ghost predicate Reaches(s: Spec, others: seq<Spec>, hit: (Spec, Spec) -> bool, p: int, q: int) {
    forall r :: p <= r <= q || q <= r <= p ==> !Closed(s, others, hit, r)
  }

  /** Each interval ends where a closed port begins. */
  ghost predicate Edged(parts: seq<Interval>, closed: iset<int>) {
    forall part :: part in parts ==> part.first - 1 in closed && part.last + 1 in closed
  }

  lemma {:induction false} SubtractKeepsEdges(parts: seq<Interval>, first: int, last: int, closed: iset<int>)
    requires first <= last && Edged(parts, closed)
    requires forall p :: first <= p <= last ==> p in closed
    ensures Edged(Subtract(parts, first, last), closed)
  {
    if parts != [] {
      var front, part := parts[..|parts| - 1], parts[|parts| - 1];
      assert part in parts;
      SubtractKeepsEdges(front, first, last, closed);
      assert Subtract(parts, first, last) == Subtract(front, first, last) + Cut(part, first, last);
      hide Subtract;
      assert Edged(Cut(part, first, last), closed);
    }
  }

  lemma {:induction false} RemainingIsEdged(s: Spec, others: seq<Spec>, hit: (Spec, Spec) -> bool)
    requires forall o :: o in others ==> o.listenPort <= o.LastPort()
    ensures Edged(Remaining(s, others, hit), iset p | Closed(s, others, hit, p))
  {
    if others != [] {
      var n := |others| - 1;
      var o, front := others[n], others[..n];
      assert others == front + [o];
      RemainingIsEdged(s, front, hit);
      var closed := iset p | Closed(s, others, hit, p);
      assert Edged(Remaining(s, front, hit), closed) by {
        assert forall p :: Closed(s, front, hit, p) ==> Closed(s, others, hit, p);
      }
      if hit(o, s) {
        assert forall p :: o.listenPort <= p <= o.LastPort() ==> Closed(s, others, hit, p);
        SubtractKeepsEdges(Remaining(s, front, hit), o.listenPort, o.LastPort(), closed);
      }
    }
  }

  /** A piece is everything that its ports can reach without crossing a closed
      one. */
  lemma PieceIsReach(s: Spec, others: seq<Spec>, hit: (Spec, Spec) -> bool, part: Interval, p: int, q: int)
    requires forall o :: o in others ==> o.listenPort <= o.LastPort()
    requires part in Remaining(s, others, hit) && part.first <= p <= part.last
    ensures part.first <= q <= part.last <==> Reaches(s, others, hit, p, q)
  {
    RemainingIsEdged(s, others, hit);
    forall r | part.first <= r <= part.last ensures !Closed(s, others, hit, r) {
      RemainingExact(s, others, hit, r);
    }
    assert Closed(s, others, hit, part.first - 1) && Closed(s, others, hit, part.last + 1);
  }

  /** The carved scopes are the pieces of the given ones. */
  lemma {:induction false} CarveMembers(specs: seq<Spec>, others: seq<Spec>, hit: (Spec, Spec) -> bool, g: Spec)
    ensures g in Carve(specs, others, hit)
            <==> exists s, part :: s in specs && part in Remaining(s, others, hit) && g == Slice(s, part)
  {
    if specs != [] {
      var n := |specs| - 1;
      var s := specs[n];
      assert specs == specs[..n] + [s];
      CarveMembers(specs[..n], others, hit, g);
      var parts := Remaining(s, others, hit);
      assert g in Slices(s, parts) <==> exists part :: part in parts && g == Slice(s, part) by {
        if part :| part in parts && g == Slice(s, part) {
          var i :| 0 <= i < |parts| && parts[i] == part;
          assert Slices(s, parts)[i] == g;
        }
      }
    }
  }

  // ----- Gating twice is gating once -----

  /** A scope as `Slice` writes it: both ends spelled out. */
  predicate Normal(s: Spec) {
    s.listenPortEnd == s.LastPort() && s.targetPortEnd == s.LastTargetPort()
  }

  predicate Untouched(s: Spec, pending: seq<Spec>) {
    forall o :: o in pending && IngressClash(o, s) ==> o.LastPort() < s.listenPort || s.LastPort() < o.listenPort
  }

  lemma {:induction false} UntouchedRemains(s: Spec, pending: seq<Spec>)
    requires ValidSpec(s) && Untouched(s, pending)
    ensures Remaining(s, pending, IngressClash) == [Interval(s.listenPort, s.LastPort())]
  {
    if pending != [] {
      var n := |pending| - 1;
      UntouchedRemains(s, pending[..n]);
      assert pending[n] in pending;
      var whole := Interval(s.listenPort, s.LastPort());
      if IngressClash(pending[n], s) {
        assert [whole][..0] == [];
        assert Cut(whole, pending[n].listenPort, pending[n].LastPort()) == [whole];
        assert Subtract([whole], pending[n].listenPort, pending[n].LastPort()) == [] + [whole];
      }
    }
  }

  lemma {:induction false} CarveKeepsUntouched(specs: seq<Spec>, pending: seq<Spec>)
    requires forall s :: s in specs ==> ValidSpec(s) && Normal(s) && Untouched(s, pending)
    ensures Carve(specs, pending, IngressClash) == specs
  {
    if specs != [] {
      var n := |specs| - 1;
      var s := specs[n];
      CarveKeepsUntouched(specs[..n], pending);
      assert s in specs;
      UntouchedRemains(s, pending);
      assert Slices(s, [Interval(s.listenPort, s.LastPort())]) == [s];
      assert specs == specs[..n] + [s];
    }
  }

  lemma {:induction false} CarveIsNormal(specs: seq<Spec>, others: seq<Spec>, hit: (Spec, Spec) -> bool)
    requires AllValid(specs)
    ensures forall s :: s in Carve(specs, others, hit) ==> Normal(s)
  {
    if specs != [] {
      var n := |specs| - 1;
      var s := specs[n];
      CarveIsNormal(specs[..n], others, hit);
      assert s in specs;
      RemainingExact(s, others, hit, 0);
      var parts := Remaining(s, others, hit);
      forall x | x in Slices(s, parts) ensures Normal(x) {
        var i :| 0 <= i < |parts| && Slices(s, parts)[i] == x;
        assert parts[i] in parts;
      }
    }
  }

  lemma GateIsIdempotent(desired: seq<Spec>, pending: seq<Spec>)
    requires AllValid(desired) && AllValid(pending)
    ensures Gate(Gate(desired, pending), pending) == Gate(desired, pending)
  {
    var gated := Gate(desired, pending);
    GateIsOpenPart(desired, pending);
    CarveIsNormal(desired, pending, IngressClash);
    forall s | s in gated ensures Untouched(s, pending) {
      forall o | o in pending && IngressClash(o, s)
        ensures o.LastPort() < s.listenPort || s.LastPort() < o.listenPort
      {
        if s.listenPort <= o.LastPort() && o.listenPort <= s.LastPort() {
          var p := if o.listenPort <= s.listenPort then s.listenPort else o.listenPort;
          var a := Atom(s.ruleId, s.family, s.protocol, s.mark, s.listenHost, s.targetHost,
                        p, s.targetPort + (p - s.listenPort));
          assert s.Has(a) && Owns(gated, a);
          assert ClaimsIngress(o, a);
          assert false;
        }
      }
    }
    CarveKeepsUntouched(gated, pending);
  }

  // ----- Degraded mode -----

  function Compatible(next: Spec, active: seq<Spec>): seq<Spec> {
    if active == [] then []
    else
      var prior := active[|active| - 1];
      Compatible(next, active[..|active| - 1]) + (if !next.flow || prior.flow then [prior] else [])
  }

  function Kept(next: Spec, active: seq<Spec>): seq<Spec> {
    Gate([next], Retired([next], Compatible(next, active)))
  }

  function KeptAll(desired: seq<Spec>, active: seq<Spec>): seq<Spec> {
    if desired == [] then []
    else KeptAll(desired[..|desired| - 1], active) + Kept(desired[|desired| - 1], active)
  }

  function PreviouslyAdmitted(desired: seq<Spec>, active: seq<Spec>): seq<Spec> {
    Unique(KeptAll(desired, active))
  }

  /** Desired by `next` and already active at no lower offload. */
  ghost predicate AdmittedBefore(next: Spec, active: seq<Spec>, a: Atom) {
    next.Has(a) && exists o :: o in active && o.Has(a) && (next.flow ==> o.flow)
  }

  lemma {:induction false} CompatibleMembers(next: Spec, active: seq<Spec>, o: Spec)
    ensures o in Compatible(next, active) <==> o in active && (next.flow ==> o.flow)
  {
    if active != [] {
      CompatibleMembers(next, active[..|active| - 1], o);
      assert active == active[..|active| - 1] + [active[|active| - 1]];
    }
  }

  lemma KeptExact(next: Spec, active: seq<Spec>, a: Atom)
    requires ValidSpec(next)
    ensures AllValid(Kept(next, active))
    ensures Owns(Kept(next, active), a) <==> AdmittedBefore(next, active, a)
    ensures forall s :: s in Kept(next, active) ==> s.flow == next.flow
  {
    var candidates := Compatible(next, active);
    var missing := Retired([next], candidates);
    RetiredIsDifference([next], candidates);
    GateIsOpenPart([next], missing);
    assert next in [next];
    assert Owns([next], a) <==> next.Has(a);
    forall o ensures o in candidates <==> o in active && (next.flow ==> o.flow) {
      CompatibleMembers(next, active, o);
    }
    if next.Has(a) {
      MissingClaims(next, candidates, a);
    }
    CarveFlow([next], missing, IngressClash, next.flow);
  }

  /** Inside one scope, an ingress is claimed by the missing part exactly when
      the tuple itself is missing. */
  lemma MissingClaims(next: Spec, candidates: seq<Spec>, a: Atom)
    requires ValidSpec(next) && next.Has(a)
    ensures (exists m :: m in Retired([next], candidates) && ClaimsIngress(m, a)) <==> !Owns(candidates, a)
  {
    var missing := Retired([next], candidates);
    RetiredIsDifference([next], candidates);
    assert next in [next];
    hide Retired, ValidSpec;
    if !Owns(candidates, a) {
      assert a in Atoms(missing);
      var m :| m in missing && m.Has(a);
      assert ClaimsIngress(m, a);
    }
    if m :| m in missing && ClaimsIngress(m, a) {
      var b := Atom(m.ruleId, m.family, m.protocol, m.mark, m.listenHost, m.targetHost,
                    a.listenPort, m.targetPort + (a.listenPort - m.listenPort));
      assert m.Has(b) && b in Atoms(missing);
      assert Owns([next], b);
      assert b == a;
    }
  }

  lemma {:induction false} CarveFlow(specs: seq<Spec>, others: seq<Spec>, hit: (Spec, Spec) -> bool, flow: bool)
    requires forall s :: s in specs ==> s.flow == flow
    ensures forall s :: s in Carve(specs, others, hit) ==> s.flow == flow
  {
    if specs != [] {
      var n := |specs| - 1;
      CarveFlow(specs[..n], others, hit, flow);
      assert specs[n] in specs;
    }
  }

  ghost predicate SomeAdmittedBefore(desired: seq<Spec>, active: seq<Spec>, a: Atom) {
    exists n :: n in desired && AdmittedBefore(n, active, a)
  }

  lemma SomeAdmittedSplits(desired: seq<Spec>, n: nat, active: seq<Spec>, a: Atom)
    requires n + 1 == |desired|
    ensures SomeAdmittedBefore(desired, active, a) <==>
            SomeAdmittedBefore(desired[..n], active, a) || AdmittedBefore(desired[n], active, a)
  {
    hide AdmittedBefore;
    assert desired == desired[..n] + [desired[n]];
  }

  lemma {:induction false} KeptAllExact(desired: seq<Spec>, active: seq<Spec>, a: Atom)
    requires AllValid(desired)
    ensures AllValid(KeptAll(desired, active))
    ensures Owns(KeptAll(desired, active), a) <==> SomeAdmittedBefore(desired, active, a)
  {
    if desired != [] {
      var n := |desired| - 1;
      var front, back := KeptAll(desired[..n], active), Kept(desired[n], active);
      assert desired[n] in desired;
      KeptAllExact(desired[..n], active, a);
      KeptExact(desired[n], active, a);
      AtomsOfConcat(front, back);
      assert Owns(front + back, a) <==> a in Atoms(front + back);
      SomeAdmittedSplits(desired, n, active, a);
      hide AdmittedBefore, SomeAdmittedBefore, Kept, Owns;
    }
  }

  lemma {:induction false} KeptAllOffload(desired: seq<Spec>, active: seq<Spec>, s: Spec, a: Atom)
    requires AllValid(desired) && s in KeptAll(desired, active) && s.flow && s.Has(a)
    ensures OffloadedBefore(active, a)
  {
    if desired != [] {
      var n := |desired| - 1;
      assert desired[n] in desired;
      if s in KeptAll(desired[..n], active) {
        KeptAllOffload(desired[..n], active, s, a);
      } else {
        assert s in Kept(desired[n], active);
        assert Owns(Kept(desired[n], active), a);
        KeptExact(desired[n], active, a);
      }
    }
  }

  /** Degraded mode opens exactly the desired tuples that were already active
      at compatible offload: no new tuple and no newly enabled acceleration. */
  lemma PreviouslyAdmittedExact(desired: seq<Spec>, active: seq<Spec>)
    requires AllValid(desired)
    ensures AllValid(PreviouslyAdmitted(desired, active))
    ensures forall a :: Owns(PreviouslyAdmitted(desired, active), a) <==> SomeAdmittedBefore(desired, active, a)
    ensures forall s, a :: s in PreviouslyAdmitted(desired, active) && s.flow && s.Has(a) ==> OffloadedBefore(active, a)
    ensures NoWider(PreviouslyAdmitted(desired, active), active)
  {
    var all := KeptAll(desired, active);
    UniqueKeepsAtoms(all);
    var any: Atom :| true;
    KeptAllExact(desired, active, any);
    forall a ensures Owns(Unique(all), a) <==> SomeAdmittedBefore(desired, active, a) {
      KeptAllExact(desired, active, a);
      assert a in Atoms(Unique(all)) <==> a in Atoms(all);
    }
    forall s, a | s in Unique(all) && s.flow && s.Has(a)
      ensures OffloadedBefore(active, a)
    {
      UniqueIsLatest(all, s);
      LatestFinds(all, s.Key());
      KeptAllOffload(desired, active, s, a);
    }
  }

  method PreviouslyAdmittedSpecs(desired: seq<Spec>, active: seq<Spec>) returns (kept: seq<Spec>)
    ensures kept == PreviouslyAdmitted(desired, active)
    ensures Atoms(kept) <= Atoms(desired)
    ensures AllValid(desired) ==> AllValid(kept) && NoWider(kept, active)
  {
    var all := [];
    for i := 0 to |desired|
      invariant all == KeptAll(desired[..i], active)
    {
      assert desired[..i + 1][..i] == desired[..i];
      var next := desired[i];
      var candidates := [];
      for j := 0 to |active|
        invariant candidates == Compatible(next, active[..j])
      {
        assert active[..j + 1][..j] == active[..j];
        if !next.flow || active[j].flow {
          candidates := candidates + [active[j]];
        }
      }
      assert active[..|active|] == active;
      var missing := RetiredSpecs([next], candidates);
      var open := GateReplacements([next], missing);
      all := all + open;
    }
    assert desired[..|desired|] == desired;
    kept := UniqueSpecs(all);
    PreviouslyAdmittedNeverOpens(desired, active);
    if AllValid(desired) {
      PreviouslyAdmittedExact(desired, active);
    }
  }

  lemma PreviouslyAdmittedNeverOpens(desired: seq<Spec>, active: seq<Spec>)
    ensures Atoms(PreviouslyAdmitted(desired, active)) <= Atoms(desired)
    ensures NoWider(PreviouslyAdmitted(desired, active), desired)
  {
    UniqueKeepsAtoms(KeptAll(desired, active));
    UniqueIsSmaller(KeptAll(desired, active));
    forall a | OffloadedBefore(PreviouslyAdmitted(desired, active), a) ensures OffloadedBefore(desired, a) {
      var s :| s in PreviouslyAdmitted(desired, active) && s.Has(a) && s.flow;
      KeptComesFrom(desired, active, s, a);
    }
    forall a | Owns(KeptAll(desired, active), a) ensures Owns(desired, a) {
      var s :| s in KeptAll(desired, active) && s.Has(a);
      KeptComesFrom(desired, active, s, a);
    }
  }

  lemma {:induction false} KeptComesFrom(desired: seq<Spec>, active: seq<Spec>, s: Spec, a: Atom)
    requires s in KeptAll(desired, active) && s.Has(a)
    ensures Owns(desired, a) && (s.flow ==> OffloadedBefore(desired, a))
  {
    var n := |desired| - 1;
    if s in KeptAll(desired[..n], active) {
      KeptComesFrom(desired[..n], active, s, a);
    } else {
      var next := desired[n];
      GateNeverOpens([next], Retired([next], Compatible(next, active)));
      assert s in Kept(next, active) && a in Atoms(Kept(next, active));
      assert a in Atoms([next]) && (s.flow ==> a in Offloaded(Kept(next, active)));
    }
  }
}
