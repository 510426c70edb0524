/** The recovery record on disk: its lifecycle, its atomic replacement, and the
    rollover after a reboot. */
module DiskStore {
  import opened NftSpecs
  import opened Journal

  datatype Context = Context(config: string, bootId: string, netDevice: nat, netInode: nat, netCookie: nat, uid: nat,
                             owner: nat, zonePolicy: string)

  datatype Record = Record(context: Context, instance: string, generation: nat, phase: Phase, confirmed: Snapshot,
                           intent: Snapshot)

  /** A state file: a record, or something that cannot be trusted. */
  datatype File = Intact(record: Record) | Unreadable

  /** The directory entries: the current record, and at most one archived record
      of an earlier boot. */
  datatype Dir = Dir(primary: Option<File>, archive: Option<File>)

  predicate Hex(c: char) { '0' <= c <= '9' || 'a' <= c <= 'f' || 'A' <= c <= 'F' }

  predicate ValidBootId(id: string) {
    |id| == 36 && forall i :: 0 <= i < 36 ==> if i in {8, 13, 18, 23} then id[i] == '-' else Hex(id[i])
  }

  /** The same service, after a reboot and nothing else. */
  predicate NewBootOnly(was: Context, now: Context) {
    && was.netDevice != 0 && was.netInode != 0 && was.netCookie != 0
    && was.bootId != now.bootId && ValidBootId(was.bootId)
    && was.config == now.config && was.uid == now.uid && was.owner == now.owner && was.zonePolicy == now.zonePolicy
  }

  /** A reboot changes the boot id and the network namespace, and nothing else: of
      the contexts that a bound, well-formed one may become, exactly these are
      accepted. */
  lemma RebootIs(was: Context, now: Context)
    requires was.netDevice != 0 && was.netInode != 0 && was.netCookie != 0 && ValidBootId(was.bootId)
    ensures NewBootOnly(was, now) <==>
            exists id, device, inode, cookie ::
              && now == was.(bootId := id, netDevice := device, netInode := inode, netCookie := cookie)
              && id != was.bootId
  {
    if NewBootOnly(was, now) {
      assert now == was.(bootId := now.bootId, netDevice := now.netDevice, netInode := now.netInode,
                         netCookie := now.netCookie);
    }
  }

  // ----- Snapshots -----

  /** The check made before a record is written and after it is read. */
  predicate Writable(s: Snapshot, mark: nat) {
    Storable(s, mark) && Identified(s.active) && Identified(s.pending) && Identified(s.suspended)
  }

  predicate Identified(specs: seq<Spec>) {
    forall s :: s in specs ==> ValidIdentity(s.ruleId)
  }

  predicate ValidGroup(specs: seq<Spec>, mark: nat) {
    Identified(specs) && Acceptable(specs, mark) && DistinctKeys(specs)
  }

  method ValidateGroup(specs: seq<Spec>, mark: nat) returns (ok: bool)
    ensures ok <==> ValidGroup(specs, mark)
  {
    var seen: set<Spec> := {};
    for i := 0 to |specs|
      invariant ValidGroup(specs[..i], mark)
      invariant forall k :: k in seen <==> exists j :: 0 <= j < i && specs[j].Key() == k
    {
      var s := specs[i];
      if !ValidIdentity(s.ruleId) || s.mark != mark || !ValidSpec(s) || s.Key() in seen { return false; }
      seen := seen + {s.Key()};
    }
    assert specs[..|specs|] == specs;
    return true;
  }

  method ValidateSnapshot(s: Snapshot, mark: nat) returns (ok: bool)
    ensures ok <==> Writable(s, mark)
  {
    if s.Size() > MAX_ENTRIES { return false; }
    var a := ValidateGroup(s.active, mark);
    var p := ValidateGroup(s.pending, mark);
    var u := ValidateGroup(s.suspended, mark);
    return a && p && u;
  }

  // ----- The directory -----

  /** A directory whose entries change atomically but become durable only when it
      is synced: a crash may leave any state since the last sync. */
  class Directory {
    var now: Dir
    var possible: set<Dir>
    // Some operation failed, or an independent proof was not available.
    ghost var trouble: bool

    ghost predicate Valid()
      reads this`now, this`possible
    {
      now in possible
    }

    constructor (dir: Dir)
      ensures Valid() && now == dir && possible == {dir} && !trouble
    {
      now, possible, trouble := dir, {dir}, false;
    }

    /** An independent check; not passing is trouble. */
    method Check() returns (passed: bool)
      modifies this`trouble
      ensures trouble == (old(trouble) || !passed)
    {
      passed := *;
      trouble := trouble || !passed;
    }

    /** Move the current record to the archive. */
    method Archive() returns (ok: bool)
      requires Valid() && now.primary.Some?
      modifies this
      ensures trouble == (old(trouble) || !ok)
      ensures Valid()
      ensures ok ==> now == Dir(None, old(now).primary) && possible == old(possible) + {now}
      ensures !ok ==> now == old(now) && possible == old(possible)
    {
      ok := *;
      trouble := trouble || !ok;
      if ok {
        now := Dir(None, now.primary);
        possible := possible + {now};
      }
    }

    /** Put a complete new file in place of the current record. */
    method Replace(file: File) returns (ok: bool)
      requires Valid()
      modifies this
      ensures trouble == (old(trouble) || !ok)
      ensures Valid()
      ensures ok ==> now == old(now).(primary := Some(file)) && possible == old(possible) + {now}
      ensures !ok ==> now == old(now) && possible == old(possible)
    {
      ok := *;
      trouble := trouble || !ok;
      if ok {
        now := now.(primary := Some(file));
        possible := possible + {now};
      }
    }

    method Sync() returns (ok: bool)
      requires Valid()
      modifies this
      ensures trouble == (old(trouble) || !ok)
      ensures Valid() && now == old(now) && possible == if ok then {now} else old(possible)
    {
      ok := *;
      trouble := trouble || !ok;
      if ok { possible := {now}; }
    }

    method Crash()
      requires Valid()
      modifies this`now, this`possible
      ensures Valid() && now in old(possible) && possible == {now}
    {
      var survivor :| survivor in possible;
      now, possible := survivor, {survivor};
    }
  }

  datatype Read = Missing | Found(record: Record) | Failed

  predicate ValidInstance(id: string) {
    |id| == 32 && forall i :: 0 <= i < 32 ==> Hex(id[i])
  }

  /** The record names its instance and was prepared at least once. */
  predicate Complete(r: Record) {
    !r.phase.Unwritten? && r.generation > 0 && ValidInstance(r.instance)
  }

  /** The file's contents may be relied on. */
  predicate Readable(file: Option<File>, mark: nat) {
    file.Some? ==>
      && file.value.Intact? && Complete(file.value.record)
      && Writable(file.value.record.confirmed, mark) && Writable(file.value.record.intent, mark)
  }

  /** Read a state file; any read may also fail. */
  method ReadFile(dir: Directory, file: Option<File>, mark: nat) returns (r: Read)
    modifies dir`trouble
    ensures old(dir.trouble) ==> dir.trouble
    ensures r.Found? ==> file == Some(Intact(r.record))
    ensures !r.Failed? ==> Readable(file, mark)
    ensures r.Missing? ==> file == None
    ensures !dir.trouble ==> (r.Failed? <==> !Readable(file, mark))
  {
    hide Writable;
    var opens := dir.Check();
    if !opens { return Failed; }
    if file.None? { return Missing; }
    if file.value.Unreadable? || !Complete(file.value.record) { return Failed; }
    var confirmed := ValidateSnapshot(file.value.record.confirmed, mark);
    var intent := ValidateSnapshot(file.value.record.intent, mark);
    return if confirmed && intent then Found(file.value.record) else Failed;
  }

  // ----- Sessions -----

  /** The binding text of an instance: the configuration, then the instance. */
  function BindingOf(context: Context, instance: string): string {
    "pb-disk:v1:" + context.config + ":" + instance
  }

  /** The binding is one that this configuration may have written. */
  ghost predicate Names(kernelBinding: string, context: Context) {
    exists instance :: ValidInstance(instance) && kernelBinding == BindingOf(context, instance)
  }

  class Session {
    const dir: Directory
    const context: Context
    var record: Option<Record>
    var rolledBoot: bool

    constructor (dir: Directory, context: Context, record: Option<Record>, rolledBoot: bool)
      ensures this.dir == dir && this.context == context && this.record == record && this.rolledBoot == rolledBoot
    {
      this.dir, this.context, this.record, this.rolledBoot := dir, context, record, rolledBoot;
    }

    /** History is only ever inherited within one lifecycle. */
    ghost predicate Valid()
      reads this, dir
    {
      dir.Valid() && (record.Some? ==> record.value.context == context)
    }

    /** Agree with the kernel's journal on one recovery instance, which the journal
        names under this configuration's prefix. `random` is new random bytes in
        hexadecimal digits. */
    method Binding(kernelBinding: string, random: string) returns (binding: Option<string>)
      requires Valid() && ValidInstance(random)
      modifies this`record
      ensures Valid()
      ensures binding.Some? ==> record.Some? && binding.value == BindingOf(context, record.value.instance)
      ensures binding.Some? && kernelBinding != "" ==> kernelBinding == binding.value
      ensures binding.Some? <==> || kernelBinding == ""
                                 || (Names(kernelBinding, context)
                                     && (old(record).Some? ==>
                                           kernelBinding == BindingOf(context, old(record).value.instance)))
      ensures old(record).Some? ==> record == old(record)
      ensures record.Some? && old(record).None? ==>
                record == Some(Record(context, record.value.instance, 0, Unwritten, EMPTY, EMPTY))
                    && ValidInstance(record.value.instance)
    {
      var prefix := BindingOf(context, "");
      if kernelBinding != "" {
        if !(prefix <= kernelBinding) || |kernelBinding| != |prefix| + 32 { return None; }
        if exists i :: |prefix| <= i < |kernelBinding| && !Hex(kernelBinding[i]) { return None; }
      }
      if record.None? {
        var instance := if kernelBinding != "" then kernelBinding[|prefix|..] else random;
        record := Some(Record(context, instance, 0, Unwritten, EMPTY, EMPTY));
      }
      var want := prefix + record.value.instance;
      if kernelBinding != "" && kernelBinding != want { return None; }
      return Some(want);
    }

    method Save(next: Record) returns (ok: bool)
      requires Valid() && next.context == context
      modifies this`record, dir
      ensures Valid() && (old(dir.trouble) ==> dir.trouble)
      ensures Writable(next.confirmed, context.owner) && Writable(next.intent, context.owner) && !dir.trouble ==> ok
      ensures ok ==> record == Some(next) && dir.possible == {dir.now}
      ensures ok ==> dir.now == old(dir.now).(primary := Some(Intact(next)))
      ensures ok ==> Writable(next.confirmed, context.owner) && Writable(next.intent, context.owner)
      ensures !ok ==> record == old(record)
      ensures dir.now == old(dir.now) || dir.now == old(dir.now).(primary := Some(Intact(next)))
      ensures dir.possible <= old(dir.possible) + {old(dir.now).(primary := Some(Intact(next)))}
    {
      var confirmed := ValidateSnapshot(next.confirmed, context.owner);
      var intent := ValidateSnapshot(next.intent, context.owner);
      if !confirmed || !intent { return false; }
      var placed := dir.Replace(Intact(next));
      if !placed { return false; }
      var synced := dir.Sync();
      if !synced { return false; }
      record := Some(next);
      return true;
    }

    method PrepareRecord(confirmed: Snapshot, intent: Snapshot) returns (ok: bool)
      requires Valid()
      modifies this`record, dir
      ensures Valid() && (old(dir.trouble) ==> dir.trouble)
      ensures (&& old(record).Some? && old(record).value.generation < MAX_GENERATION && !dir.trouble
               && Writable(confirmed, context.owner) && Writable(intent, context.owner)) ==> ok
      ensures ok ==> old(record).Some? && record == Some(old(record).value.(
                       generation := old(record).value.generation + 1, phase := Prepare,
                       confirmed := confirmed, intent := intent))
      ensures ok ==> dir.now.primary == Some(Intact(record.value)) && dir.possible == {dir.now}
      ensures !ok ==> record == old(record)
      ensures OnlyPrimary(dir.possible, old(dir.possible), context)
    {
      if record.None? || record.value.generation >= MAX_GENERATION { return false; }
      ok := Save(record.value.(generation := record.value.generation + 1, phase := Prepare, confirmed := confirmed,
                               intent := intent));
    }

    method CheckpointRecord(confirmed: Snapshot) returns (ok: bool)
      requires Valid()
      modifies this`record, dir
      ensures Valid() && (old(dir.trouble) ==> dir.trouble)
      ensures (&& old(record).Some? && old(record).value.generation > 0 && !dir.trouble
               && Writable(confirmed, context.owner)) ==> ok
      ensures ok ==> old(record).Some? && old(record).value.generation > 0
                     && record == Some(old(record).value.(phase := Checkpoint, confirmed := confirmed, intent := EMPTY))
      ensures ok ==> dir.now.primary == Some(Intact(record.value)) && dir.possible == {dir.now}
      ensures !ok ==> record == old(record)
      ensures OnlyPrimary(dir.possible, old(dir.possible), context)
    {
      if record.None? || record.value.generation == 0 { return false; }
      ok := Save(record.value.(phase := Checkpoint, confirmed := confirmed, intent := EMPTY));
    }
  }

  /** Every directory that may survive is an earlier one, or an earlier one with a
      new current record of this lifecycle. */
  ghost predicate OnlyPrimary(after: set<Dir>, before: set<Dir>, context: Context) {
    forall d :: d in after ==>
      d in before || exists b, r: Record :: b in before && r.context == context && d == b.(primary := Some(Intact(r)))
  }

  /** The stored files allow this lifecycle: its own record, or none, or records of
      earlier boots only. */
  predicate Opens(d: Dir, context: Context) {
    Readable(d.primary, context.owner) &&
    (Is(d.primary, context) ||
     (Readable(d.archive, context.owner) && Earlier(d.primary, context) && Earlier(d.archive, context)))
  }

  predicate Is(file: Option<File>, context: Context) {
    file.Some? && file.value.Intact? && file.value.record.context == context
  }

  predicate Earlier(file: Option<File>, context: Context) {
    file.Some? && file.value.Intact? ==> NewBootOnly(file.value.record.context, context)
  }

  /** Open the store for one lifecycle. A record of another lifecycle is set aside
      only after a pure reboot that was independently proved to have left nothing
      behind, and never by overwriting an archive of this lifecycle. */
  method Begin(dir: Directory, context: Context) returns (session: Session?)
    requires dir.Valid()
    modifies dir
    ensures dir.Valid() && (old(dir.trouble) ==> dir.trouble)
    ensures session != null ==> Opens(old(dir.now), context)
    ensures Opens(old(dir.now), context) && !dir.trouble ==> session != null
    ensures session != null ==> fresh(session) && session.dir == dir && session.context == context && session.Valid()
    ensures session != null && session.rolledBoot ==>
              session.record == None && dir.now.primary == None && dir.possible == {dir.now}
    ensures session != null && session.rolledBoot ==>
              exists stale: Record ::
                && Some(Intact(stale)) in {old(dir.now).primary, old(dir.now).archive}
                && stale.context.config == context.config && stale.context.uid == context.uid
                && stale.context.owner == context.owner && stale.context.zonePolicy == context.zonePolicy
                && stale.context.bootId != context.bootId
    ensures session != null && !session.rolledBoot ==> dir.now == old(dir.now) && dir.possible == old(dir.possible)
    ensures session != null && !session.rolledBoot ==>
              if session.record.Some? then dir.now.primary == Some(Intact(session.record.value))
                  else dir.now == Dir(None, None)
    ensures forall d :: d in dir.possible ==> d in old(dir.possible) || RolledOver(old(dir.now), d, context)
    ensures dir.now == old(dir.now) || RolledOver(old(dir.now), dir.now, context)
  {
    hide Readable;
    session := null;
    var first := ReadFile(dir, dir.now.primary, context.owner);
    if first.Failed? { return; }
    if first.Found? && first.record.context == context {
      session := new Session(dir, context, Some(first.record), false);
      return;
    }
    var stale := first;
    if first.Missing? {
      stale := ReadFile(dir, dir.now.archive, context.owner);
      if stale.Failed? { return; }
      if stale.Missing? {
        session := new Session(dir, context, None, false);
        return;
      }
    }
    var proved := dir.Check();
    if !NewBootOnly(stale.record.context, context) || !proved { return; }
    if first.Found? {
      var previous := ReadFile(dir, dir.now.archive, context.owner);
      if previous.Failed? || (previous.Found? && !NewBootOnly(previous.record.context, context)) { return; }
      var moved := dir.Archive();
      if !moved { return; }
    }
    var synced := dir.Sync();
    if !synced { return; }
    session := new Session(dir, context, None, true);
  }

  /** One accepted rollover: the stale record is now the archive. */
  ghost predicate RolledOver(was: Dir, now: Dir, context: Context) {
    && was.primary.Some? && was.primary.value.Intact? && NewBootOnly(was.primary.value.record.context, context)
    && now == Dir(None, was.primary)
  }

  // ----- Over a whole boot -----

  /** The old record is archived, and any current record is of this lifecycle. */
  ghost predicate Archived(d: Dir, kept: Record, context: Context) {
    d.archive == Some(Intact(kept))
        && (d.primary.Some? ==> d.primary.value.Intact? && d.primary.value.record.context == context)
  }

  /** The old record is still the current one, or has just been moved. */
  ghost predicate Moving(d: Dir, kept: Record) {
    d.primary == Some(Intact(kept)) || d == Dir(None, Some(Intact(kept)))
  }

  /** Whatever directory a crash leaves, the old record is in it; and no new record
      is written before the archive is certain to survive. */
  ghost predicate Kept(possible: set<Dir>, kept: Record, context: Context) {
    (forall d :: d in possible ==> Moving(d, kept)) || (forall d :: d in possible ==> Archived(d, kept, context))
  }

  /** Any mix of starts, failed or successful writes, and crashes in one boot: at
      every moment, and after a crash at any moment, the record of the previous
      boot is still the current record or the archive, and no session ever holds
      it as its own history. */
  method OldRecordSurvives(dir: Directory, kept: Record, context: Context, steps: nat)
    requires dir.Valid() && kept.context != context
    requires dir.possible == {dir.now} && dir.now.primary == Some(Intact(kept))
    modifies dir
    ensures dir.Valid() && Kept(dir.possible, kept, context)
    ensures forall d :: d in dir.possible ==> Some(Intact(kept)) in {d.primary, d.archive}
  {
    var session: Session? := null;
    var left := steps;
    while left > 0
      invariant dir.Valid() && Kept(dir.possible, kept, context)
      invariant session != null ==>
                  && fresh(session) && session.dir == dir && session.context == context && session.Valid()
                      && session.record != Some(kept)
                  && forall d :: d in dir.possible ==> Archived(d, kept, context)
    {
      left := left - 1;
      var choice: int := *;
      var confirmed: Snapshot, intent: Snapshot := *, *;
      if choice == 0 {
        session := Begin(dir, context);
      } else if choice == 1 && session != null {
        var kernelBinding: string, random: string := *, *;
        if ValidInstance(random) {
          var bound := session.Binding(kernelBinding, random);
        }
      } else if choice == 2 && session != null {
        var ok := session.PrepareRecord(confirmed, intent);
      } else if choice == 3 && session != null {
        var ok := session.CheckpointRecord(confirmed);
      } else if choice == 4 {
        session := null;
        dir.Crash();
      }
    }
  }
}
