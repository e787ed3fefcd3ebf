/** What the runs of the clipboard cache (CacheSystem) remove, and what becomes of objects on which a native write
    may have begun. */
module Exposure {

  import opened CacheDisk
  import opened CacheLedger
  import opened CacheSystem
  import opened CacheTree
  import opened Common
  import opened Swapping

  // ------------------------------------------------------------ what is removed

  predicate AimsAt(c: Cell, id: string, a: Act, slot: Slot) {
    AimOf(c, id, a).Some? && AimOf(c, id, a).value.slot == slot
  }

  // A registered name of the durable, deletable row, in the directory that was opened for it.
  ghost predicate NamedByRow(c: Cell, aim: Aim) {
    c.row.Some? && Deletable(c.row.value)
    && exists p :: p in c.row.value.cleanup && aim.sought == Plain(c.row.value.cleanup[p])
                   && PlaceOf(c.row.value.directory, c.row.value.cleanup, p) == aim.slot
  }

  // The object's own name, for the directory of the deletable row or of a worker without one.
  predicate OwnName(c: Cell, id: string, aim: Aim) {
    || (c.row.Some? && Deletable(c.row.value) && aim.slot == Slot(c.row.value.cache, id)
        && aim.sought == DirEntry(c.row.value.directory))
    || (c.worker.Some? && c.worker.value.NoReceipt? && aim.slot == Slot(c.worker.value.cache, id)
        && aim.sought == DirEntry(c.worker.value.handle))
  }

  // Every unlink is armed by a check, under one of these authorities.
  lemma AimsAreAuthorized(c: Cell, id: string, disk: Disk, a: Act)
    requires CellInv(c, id, disk) && AimOf(c, id, a).Some?
    ensures var aim := AimOf(c, id, a).value; Kept(disk, aim) && (NamedByRow(c, aim) || OwnName(c, id, aim))
  {
    if a.EraseUnlink? {
      assert WorkerInv(c, id, disk, c.worker.value);
      if c.worker.value.Erasing? {
        EraserIsAuthorized(c, id, disk, c.worker.value.eraser);
      }
    } else {
      assert CollectorInv(c, id, disk, c.collector.value);
      EraserIsAuthorized(c, id, disk, c.collector.value.eraser);
    }
  }

  lemma EraserIsAuthorized(c: Cell, id: string, disk: Disk, e: Eraser)
    requires EraserInv(c, id, disk, e) && e.armed.Checked?
    ensures var aim := EraserAim(e, id).value; Kept(disk, aim) && (NamedByRow(c, aim) || OwnName(c, id, aim))
  {
    if e.at < |e.names| {
      var p := e.names[e.at];
      assert p in c.row.value.cleanup && PlaceOf(c.row.value.directory, c.row.value.cleanup, p) == TargetOf(e, id);
    }
  }

  lemma StepRemoves(c: Cell, id: string, disk: Disk, a: Act, slot: Slot)
    requires In(disk, slot).Some?
    ensures var lost := In(DiskAfter(c, id, disk, a), slot) != In(disk, slot);
            lost <==> AimsAt(c, id, a, slot) && Vacant(disk, In(disk, slot).value)
  {
  }

  /** What any step of any run removes from the disk is one entry, which is a file or an empty directory: a
      registered name of the durable, deletable row in the very directory that was opened for it, wherever that
      has been moved, or the object's own name. It is what the check had found there, unless something was put
      there between the check and the unlink, and then that goes. */
  lemma {:induction false} EveryRemovalIsAuthorized(events: seq<Event>, id: string, a: Act, slot: Slot)
    requires In(Run(events).disk, slot).Some?
    ensures var s := Run(events);
            var c := CellOf(s, id);
            var e := In(s.disk, slot).value;
            && (In(Next(s, On(id, a)).disk, slot) != Some(e) <==> AimsAt(c, id, a, slot) && Vacant(s.disk, e))
            && (AimsAt(c, id, a, slot) ==>
                  var aim := AimOf(c, id, a).value;
                  && (NamedByRow(c, aim) || OwnName(c, id, aim)) && (e != aim.sought ==> aim.swapped))
  {
    EveryRunKeepsInv(events);
    var s := Run(events);
    StepRemoves(CellOf(s, id), id, s.disk, a, slot);
    if AimOf(CellOf(s, id), id, a).Some? {
      AimsAreAuthorized(CellOf(s, id), id, s.disk, a);
    }
  }

  // ------------------------------------------------------------ exposed objects

  // Nothing that lies at or below the directory is taken away.
  ghost predicate Intact(before: Disk, after: Disk, d: DirId) {
    forall q | EntryAt(before, d, q).Some? :: EntryAt(after, d, q) == EntryAt(before, d, q)
  }

  // The step's unlink succeeds, and it goes to a directory that lies at or below d.
  ghost predicate Reaches(c: Cell, id: string, disk: Disk, a: Act, d: DirId) {
    AimOf(c, id, a).Some?
    && var slot := AimOf(c, id, a).value.slot;
       In(disk, slot).Some? && Vacant(disk, In(disk, slot).value) && AtOrBelow(disk, d, slot.dir)
  }

  // A directory that the removal of an object may open: its own, or a registered one.
  ghost predicate MayBeOpened(r: Record, d: DirId) {
    d == r.directory || exists p :: p in r.cleanup && r.cleanup[p].identity == d
  }

  // Somebody has moved into d what another object's deletable row may open, or a cache directory.
  ghost predicate MovedInto(s: System, id: string, owner: string, aim: Aim, d: DirId) {
    var c := CellOf(s, id);
    && AtOrBelow(s.disk, d, aim.slot.dir)
    && (OwnName(c, id, aim)
        || (id != owner && c.row.Some? && Deletable(c.row.value) && MayBeOpened(c.row.value, aim.slot.dir)))
  }

  lemma IntactUnlessReached(c: Cell, id: string, disk: Disk, a: Act, d: DirId)
    ensures Intact(disk, DiskAfter(c, id, disk, a), d) <==> !Reaches(c, id, disk, a, d)
  {
    if Makes(c, id, disk, a) {
      MakingKeeps(disk, Slot(a.cache, id), DirEntry(a.handle), d);
    } else if AimOf(c, id, a).Some? {
      RemovalReaches(disk, AimOf(c, id, a).value.slot, d);
    } else {
      assert DiskAfter(c, id, disk, a) == disk;
    }
  }

  lemma {:induction false} FollowKept(disk: Disk, slot: Slot, e: Entry, d: DirId, q: Path)
    requires In(disk, slot).None?
    ensures Follow(disk, d, q).Some? ==> Follow(Set(disk, slot, e), d, q) == Follow(disk, d, q)
    decreases |q|
  {
    if q != [] {
      FollowKept(disk, slot, e, d, q[..|q| - 1]);
    }
  }

  lemma MakingKeeps(disk: Disk, slot: Slot, e: Entry, d: DirId)
    requires In(disk, slot).None?
    ensures Intact(disk, Set(disk, slot, e), d)
  {
    forall q | EntryAt(disk, d, q).Some?
      ensures EntryAt(Set(disk, slot, e), d, q) == EntryAt(disk, d, q)
    {
      FollowKept(disk, slot, e, d, q[..|q| - 1]);
    }
  }

  lemma RemovalReaches(disk: Disk, slot: Slot, d: DirId)
    ensures Intact(disk, Remove(disk, slot).0, d) <==>
            !(In(disk, slot).Some? && Vacant(disk, In(disk, slot).value) && AtOrBelow(disk, d, slot.dir))
  {
    var after := Remove(disk, slot).0;
    if Remove(disk, slot).1 == Removed && AtOrBelow(disk, d, slot.dir) {
      var h :| Follow(disk, d, h) == Some(slot.dir);
      var q := h + [slot.name];
      assert q[..|q| - 1] == h;
      assert SlotAt(disk, d, q) == Some(slot);
      LostAt(disk, slot, d, q);
    } else {
      forall q | EntryAt(disk, d, q).Some?
        ensures EntryAt(after, d, q) == EntryAt(disk, d, q)
      {
        LostAt(disk, slot, d, q);
        assert SlotAt(disk, d, q) == Some(slot) ==> Follow(disk, d, q[..|q| - 1]) == Some(slot.dir);
      }
    }
  }

  // An exposed object's own row is not deletable, so what reaches into it is another object's removal.
  lemma ReachedByOthers(s: System, id: string, a: Act, owner: string, d: DirId)
    requires SystemInv(s) && d in CellOf(s, owner).exposed && Reaches(CellOf(s, id), id, s.disk, a, d)
    ensures MovedInto(s, id, owner, AimOf(CellOf(s, id), id, a).value, d)
  {
    var c := CellOf(s, id);
    var aim := AimOf(c, id, a).value;
    AimsAreAuthorized(c, id, s.disk, a);
    assert Shielded(CellOf(s, owner).row, d);
    if NamedByRow(c, aim) {
      var r := c.row.value;
      var p :| p in r.cleanup && PlaceOf(r.directory, r.cleanup, p) == aim.slot;
      PlaceIsOpened(r, p);
    }
  }

  lemma PlaceIsOpened(r: Record, p: Path)
    ensures MayBeOpened(r, PlaceOf(r.directory, r.cleanup, p).dir)
  {
    if p != [] && p[..|p| - 1] in r.cleanup {
      assert r.cleanup[p[..|p| - 1]].identity == r.cleanup[p[..|p| - 1]].identity;
    }
  }

  lemma ExposureStays(s: System, id: string, a: Act, owner: string)
    requires SystemInv(s)
    ensures CellOf(s, owner).exposed <= CellOf(Next(s, On(id, a)), owner).exposed
  {
    WorkerKeepsExposure(CellOf(s, id), id, s.disk, s.epoch, a);
  }

  lemma WorkerKeepsExposure(c: Cell, id: string, disk: Disk, epoch: nat, a: Act)
    ensures c.exposed <= Apply(c, id, disk, epoch, a).exposed
  {
  }

  /** Over every run, with crashes, lost acknowledgements and restarts anywhere, the ledger keeps the row of an
      object on which a native write may have begun in a protected state for ever, and no step of the application
      takes away anything that lies in the object, at any depth, with one exception: exactly the steps whose
      unlink goes to a directory that lies there. Such a one belongs to another object's removal, or is the cache
      directory, so somebody has moved it into the exposed object. */
  lemma {:induction false} NothingExposedIsEverRemoved(events: seq<Event>, id: string, a: Act, owner: string, d: DirId)
    requires d in CellOf(Run(events), owner).exposed
    ensures var s := Run(events);
            var c := CellOf(s, id);
            var s' := Next(s, On(id, a));
            && d in CellOf(s', owner).exposed && Shielded(CellOf(s', owner).row, d)
            && (Intact(s.disk, s'.disk, d) <==> !Reaches(c, id, s.disk, a, d))
            && (Reaches(c, id, s.disk, a, d) ==> MovedInto(s, id, owner, AimOf(c, id, a).value, d))
  {
    EveryRunKeepsInv(events);
    var s := Run(events);
    NextKeepsInv(s, On(id, a));
    ExposureStays(s, id, a, owner);
    IntactUnlessReached(CellOf(s, id), id, s.disk, a, d);
    if Reaches(CellOf(s, id), id, s.disk, a, d) {
      ReachedByOthers(s, id, a, owner, d);
    }
  }

  // Of a removal under way: what was checked leads to d, though it was opened or registered under another object.
  ghost predicate TakenForOwn(s: System, id: string, owner: string, d: DirId) {
    var c := CellOf(s, id);
    || (c.worker.Some? && c.worker.value.NoReceipt? && c.worker.value.handle == d)
    || (id != owner && c.row.Some? && Deletable(c.row.value) && MayBeOpened(c.row.value, d))
  }

  /** An exposed directory itself loses the name it has, whichever that is, exactly if an unlink goes to that name
      and the directory is empty. Then it came to that name after the check, or somebody had given it to another
      object before. */
  lemma {:induction false} ExposedNameGoesOnlySo(events: seq<Event>, id: string, a: Act, owner: string, d: DirId,
                                                 slot: Slot)
    requires d in CellOf(Run(events), owner).exposed && In(Run(events).disk, slot) == Some(DirEntry(d))
    ensures var s := Run(events);
            var c := CellOf(s, id);
            && (In(Next(s, On(id, a)).disk, slot) != Some(DirEntry(d)) <==>
                  AimsAt(c, id, a, slot) && Listing(s.disk, d) == map[])
            && (AimsAt(c, id, a, slot) ==> AimOf(c, id, a).value.swapped || TakenForOwn(s, id, owner, d))
  {
    EveryRemovalIsAuthorized(events, id, a, slot);
    EveryRunKeepsInv(events);
    assert Shielded(CellOf(Run(events), owner).row, d);
  }

  // A worker has made its directory, opened it and found it under its name.
  ghost function NewcomerChecked(s: System, id: string, cache: DirId, newcomer: DirId): System {
    Next(NewcomerOpened(s, id, cache, newcomer), On(id, EraseCheck))
  }

  ghost function NewcomerOpened(s: System, id: string, cache: DirId, newcomer: DirId): System {
    Next(Next(s, On(id, Make(cache, newcomer))), On(id, Open(cache, newcomer)))
  }

  lemma NewcomerIsOpened(s: System, id: string, cache: DirId, newcomer: DirId)
    requires id in s.cells && s.cells[id].worker.None? && In(s.disk, Slot(cache, id)).None?
    requires Listing(s.disk, newcomer) == map[] && newcomer != cache
    ensures var n := NewcomerOpened(s, id, cache, newcomer);
            && n.disk == Set(s.disk, Slot(cache, id), DirEntry(newcomer))
            && CellOf(n, id).worker == Some(NoReceipt(cache, newcomer, Opening(0)))
  {
    var made := Next(s, On(id, Make(cache, newcomer)));
    assert made.disk == Set(s.disk, Slot(cache, id), DirEntry(newcomer)) && made.cells[id].worker.None?;
  }

  lemma NewcomerIsChecked(s: System, id: string, cache: DirId, newcomer: DirId)
    requires CellOf(s, id).worker == Some(NoReceipt(cache, newcomer, Opening(0)))
    requires In(s.disk, Slot(cache, id)) == Some(DirEntry(newcomer))
    ensures var n := Next(s, On(id, EraseCheck));
            n.disk == s.disk && CellOf(n, id).worker == Some(NoReceipt(cache, newcomer, Checked(false)))
  {
  }

  /** The first losing run: the exposed directory d comes back under its name while a worker that has just found
      its own new directory there is about to remove that. */
  lemma ExposedNameCanBeTaken(s: System, id: string, cache: DirId, d: DirId, newcomer: DirId)
    requires id in s.cells && s.cells[id].worker.None? && d in s.cells[id].exposed
    requires In(s.disk, Slot(cache, id)).None? && newcomer != d && newcomer != cache && cache != d
    requires Listing(s.disk, d) == map[] && Listing(s.disk, newcomer) == map[]
    ensures var s1 := NewcomerChecked(s, id, cache, newcomer);
            var s2 := Next(s1, Others(Set(s1.disk, Slot(cache, id), DirEntry(d))));
            && In(s2.disk, Slot(cache, id)) == Some(DirEntry(d))
            && In(Next(s2, On(id, EraseUnlink)).disk, Slot(cache, id)).None?
  {
    NewcomerIsOpened(s, id, cache, newcomer);
    NewcomerIsChecked(NewcomerOpened(s, id, cache, newcomer), id, cache, newcomer);
    var s1 := NewcomerChecked(s, id, cache, newcomer);
    EraseTakesName(Next(s1, Others(Set(s1.disk, Slot(cache, id), DirEntry(d)))), id, cache, newcomer);
  }

  lemma EraseTakesName(s: System, id: string, cache: DirId, handle: DirId)
    requires CellOf(s, id).worker == Some(NoReceipt(cache, handle, Checked(true)))
    ensures Next(s, On(id, EraseUnlink)).disk == Remove(s.disk, Slot(cache, id)).0
  {
  }

  /** The second one: the collector of one object has checked a/x; somebody moves its directory a into the exposed
      directory d of another; and the exposed object loses a/x. */
  lemma ExposedEntryCanBeReached(s: System, id: string, e: Eraser, a: string, x: string, d: DirId)
    requires CellOf(s, id).collector == Some(Sweeping(e)) && e.armed == Checked(false)
    requires e.at < |e.names| && e.names[e.at] == [a, x] && [a] in e.record.cleanup
    requires var h := e.record.cleanup[[a]].identity;
             && In(s.disk, Slot(e.record.directory, a)) == Some(DirEntry(h))
             && In(s.disk, Slot(h, x)).Some? && !In(s.disk, Slot(h, x)).value.Foreign?
             && !In(s.disk, Slot(h, x)).value.node.directory
             && d != e.record.directory && d != h && h != e.record.directory
    ensures var moved := Moved(s.disk, Slot(e.record.directory, a), Slot(d, a));
            var s1 := Next(s, Others(moved));
            && EntryAt(s1.disk, d, [a, x]).Some? && EntryAt(Next(s1, On(id, SweepUnlink)).disk, d, [a, x]).None?
  {
    var h := e.record.cleanup[[a]].identity;
    var moved := Moved(s.disk, Slot(e.record.directory, a), Slot(d, a));
    assert [a, x][..1] == [a];
    assert PlaceOf(e.record.directory, e.record.cleanup, [a, x]) == Slot(h, x);
    assert In(moved, Slot(h, x)) == In(s.disk, Slot(h, x)) && SubDir(moved, Slot(d, a)) == Some(h);
    TwoComponents(moved, d, a, x);
    LostAt(moved, Slot(h, x), d, [a, x]);
    SweepUnlinks(Next(s, Others(moved)), id, Slot(h, x));
  }

  lemma SweepUnlinks(s: System, id: string, slot: Slot)
    requires AimsAt(CellOf(s, id), id, SweepUnlink, slot)
    ensures Next(s, On(id, SweepUnlink)).disk == Remove(s.disk, slot).0
  {
  }

  // ------------------------------------------------------------ native delegation

  lemma NativeRowOutlivesBusy(c: Cell, epoch: nat, a: Act, h: Held)
    requires NativeRow(c.row)
    ensures NativeRow(BusyStep(c, h, epoch, a).row)
  {
    match a
    case Bind(m, io) => SavesAreEffects(h, c.row, Bumped(h.record).(manifest := m.digest), epoch, io);
    case Stage(stage, parts, plan, io) =>
      SavesAreEffects(h, c.row, Bumped(h.record).(stage := stage, parts := parts, plan := plan), epoch, io);
    case Move(to, io) => MarkIsEffect(h, c.row, to, epoch, io);
    case Seal(io) => SealEffect(h, c.row, epoch, io);
    case _ =>
  }

  lemma NativeRowOutlivesCleanup(c: Cell, id: string, disk: Disk, epoch: nat, a: Act)
    requires CellInv(c, id, disk) && NativeRow(c.row) && c.worker.Some? && !c.worker.value.Busy?
    ensures NativeRow(WorkerStep(c, id, disk, epoch, a).row)
  {
    match c.worker.value
    case Concluding(h, published) =>
      if a.Conclude? {
        MarkIsEffect(h, c.row, if published then Published else Protected, epoch, a.io);
      }
    case Abandoning(h) =>
      if a.Abandon? {
        MarkIsEffect(h, c.row, Abandoned, epoch, a.io);
      }
    case Discarding(h) =>
      if a.FirstIntent? {
        SavesAreEffects(h, c.row, Reclaimed(h), epoch, a.io);
      }
    case _ =>
  }

  lemma NativeRowOutlivesStep(c: Cell, id: string, disk: Disk, epoch: nat, a: Act)
    requires CellInv(c, id, disk) && NativeRow(c.row)
    ensures NativeRow(Apply(c, id, disk, epoch, a).row)
  {
    assert c.collector.None?;
    if !a.Make? && !a.Open? && !a.Collect? && !a.Consume? && !CollectorAct(a) && c.worker.Some? {
      if c.worker.value.Busy? {
        NativeRowOutlivesBusy(c, epoch, a, c.worker.value.held);
      } else {
        NativeRowOutlivesCleanup(c, id, disk, epoch, a);
      }
    }
  }

  lemma NativeRowOutlivesEvent(s: System, e: Event, id: string)
    requires SystemInv(s) && NativeRow(CellOf(s, id).row)
    ensures NativeRow(CellOf(Next(s, e), id).row)
  {
    if e.On? && e.id == id {
      NativeRowOutlivesStep(CellOf(s, id), id, s.disk, s.epoch, e.act);
    }
  }

  /** Once a row carries a native authorization, every later row of the object does, whatever follows, and no
      later row grants a deletion. */
  lemma {:induction false} NativeRowStays(events: seq<Event>, more: seq<Event>, id: string)
    requires NativeRow(CellOf(Run(events), id).row)
    ensures var row := CellOf(Run(events + more), id).row; NativeRow(row) && !Deletable(row.value)
    decreases |more|
  {
    if more == [] {
      assert events + more == events;
    } else {
      var last := |more| - 1;
      NativeRowStays(events, more[..last], id);
      EveryRunKeepsInv(events + more[..last]);
      NativeRowOutlivesEvent(Run(events + more[..last]), more[last], id);
      RunStep(events + more[..last], more[last]);
      assert events + more == events + more[..last] + [more[last]];
    }
  }

  lemma RunStep(events: seq<Event>, e: Event)
    ensures Run(events + [e]) == Next(Run(events), e)
  {
    assert (events + [e])[..|events + [e]| - 1] == events;
  }

  /** The receipt alone would not be enough: after an unacknowledged first intent the row already grants
      deletion while the receipt would still accept the start of a native write. Only the order of
      receiveClipboardFiles, where cleanup comes last, keeps the two apart. */
  lemma ReceiptGuardIsNotEnough(r: Record, epoch: nat)
    requires r.state == Publishing && r.native.None? && r.run == epoch && r.revision < MAX_REVISION
    requires Decodable(r) && r.cleanup == map[]
    ensures var h := Held(r, false, None);
            var s := AfterSave(h, Some(r), Reclaimed(h), epoch, Unacknowledged);
            !s.ok && s.row.Some? && Deletable(s.row.value) && MayBeginNative(s.held, epoch)
  {
  }
}
