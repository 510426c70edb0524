/** The recovery file, seen as the retirement protocol sees it. */
module StoreRefinement {
  import opened NftSpecs
  import Disk = DiskStore
  import Names = Journal
  import World = NftWorld

  /** The protocol knows a record without its lifecycle. */
  function Seen(r: Disk.Record): World.Record {
    World.Record(r.instance, r.generation, r.phase, r.confirmed, r.intent)
  }

  /** The record that a process finds in the file, if the file can be relied on. */
  function Visible(file: Option<Disk.File>): Option<World.Record> {
    if file.Some? && file.value.Intact? then Some(Seen(file.value.record)) else None
  }

  /** The rule identities and the instance are well formed. The protocol does not
      look at them. */
  predicate WellNamed(r: Disk.Record) {
    && Disk.ValidInstance(r.instance)
    && (forall s :: s in r.confirmed.active + r.confirmed.pending + r.confirmed.suspended ==>
          Names.ValidIdentity(s.ruleId))
    && (forall s :: s in r.intent.active + r.intent.pending + r.intent.suspended ==> Names.ValidIdentity(s.ruleId))
  }

  /** A record reads back exactly when the protocol calls it loadable and its names
      are well formed. */
  lemma ReadableIsLoadable(r: Disk.Record, mark: nat)
    ensures Disk.Readable(Some(Disk.Intact(r)), mark) <==> World.Loadable(Seen(r), mark) && WellNamed(r)
  {
    hide Storable, Names.ValidIdentity;
    IdentifiedAll(r.confirmed);
    IdentifiedAll(r.intent);
  }

  lemma IdentifiedAll(s: Snapshot)
    ensures Disk.Identified(s.active) && Disk.Identified(s.pending) && Disk.Identified(s.suspended) <==>
            forall t :: t in s.active + s.pending + s.suspended ==> Names.ValidIdentity(t.ruleId)
  {
    hide Names.ValidIdentity;
  }

  /** Writing the file step by step is one step of the protocol's record: the old
      record or the new one is there afterwards, and the new one on success; and a
      loadable, well named record is refused only when something outside fails. */
  method Save(session: Disk.Session, next: Disk.Record) returns (ok: bool)
    requires session.Valid() && next.context == session.context
    modifies session`record, session.dir
    ensures session.Valid()
    ensures World.SaveStep(Visible(old(session.dir.now.primary)), Seen(next), Visible(session.dir.now.primary), ok)
    ensures World.Loadable(Seen(next), session.context.owner) && WellNamed(next) && !session.dir.trouble ==> ok
  {
    ReadableIsLoadable(next, session.context.owner);
    hide Disk.Writable, World.Loadable;
    ok := session.Save(next);
  }
}
