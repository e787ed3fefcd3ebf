/** Deletion does finish: what the clipboard cache's collector (internal/app/clipboard_cache_lifecycle.go) does to
    one object while nobody else is at work, crashes included. */
module Reclamation {

  import opened CacheDisk
  import opened CacheLedger
  import opened CacheSystem
  import opened CacheTree
  import opened Common
  import opened Swapping

  // One object and the disk, while nobody else is at work.
  datatype Site = Site(cell: Cell, disk: Disk)

  ghost function Step(x: Site, id: string, epoch: nat, a: Act): Site {
    var after := DiskAfter(x.cell, id, x.disk, a);
    Site(Noted(Apply(x.cell, id, x.disk, epoch, a), id, x.disk, after), after)
  }

  // Such a step is what a step of the system does to the object and the disk.
  lemma StepIsNext(s: System, id: string, a: Act)
    ensures var n := Next(s, On(id, a));
            Site(CellOf(n, id), n.disk) == Step(Site(CellOf(s, id), s.disk), id, s.epoch, a)
  {
  }

  // The object has its own name in the cache directory, and that lies outside the object.
  ghost predicate Housed(disk: Disk, id: string, r: Record, t: Tree) {
    && In(disk, Slot(r.cache, id)) == Some(DirEntry(r.directory)) && Apart(r, t)
    && Shows(disk, r.directory, t) && Distinct(t, r.directory)
  }

  ghost predicate Apart(r: Record, t: Tree) {
    r.cache != r.directory && forall p | IsDirectory(t, p) :: t[p].node.identity != r.cache
  }

  // An idle, deletable object whose directory, with contents t, still passes the check.
  ghost predicate Collectable(x: Site, id: string, t: Tree) {
    && x.cell.worker.None? && x.cell.collector.None?
    && x.cell.row.Some? && Deletable(x.cell.row.value) && Decodable(x.cell.row.value)
    && (x.cell.row.value.state == Deleting || x.cell.row.value.revision < MAX_REVISION)
    && Housed(x.disk, id, x.cell.row.value, t) && CheckPasses(t, x.cell.row.value.cleanup)
  }

  // An undisturbed collector checks the name it is at, ancestors first, at most n steps ...
  ghost function CheckOut(x: Site, id: string, epoch: nat, at: nat, n: nat): Site
    decreases n
  {
    if n > 0 && x.cell.collector.Some? && x.cell.collector.value.Sweeping?
       && x.cell.collector.value.eraser.at == at && x.cell.collector.value.eraser.armed.Opening?
    then CheckOut(Step(x, id, epoch, SweepCheck), id, epoch, at, n - 1) else x
  }

  // ... and unlinks it.
  ghost function Turn(x: Site, id: string, epoch: nat): Site {
    if x.cell.collector.Some? && x.cell.collector.value.Sweeping? then
      var e := x.cell.collector.value.eraser;
      var n := if e.at < |e.names| then |e.names[e.at]| else 1;
      Step(CheckOut(x, id, epoch, e.at, n), id, epoch, SweepUnlink)
    else x
  }

  // An undisturbed collector after k names.
  ghost function Collecting(x: Site, id: string, epoch: nat, names: seq<Path>, k: nat): Site {
    var start := Step(Step(x, id, epoch, Collect), id, epoch, Mark(names, true, Acknowledged));
    Iterate((y: Site) => Turn(y, id, epoch), start, k)
  }

  lemma InventoryIsClosed(r: Record)
    requires ValidInventory(r)
    ensures ParentClosed(r.cleanup)
  {
    forall p | p in r.cleanup
      ensures HasClosedAncestors(r.cleanup, p)
    {
      assert ValidNode(r, p, r.cleanup[p]);
    }
  }

  // The collector at work with the row marked.
  function At(c: Cell, r: Record, names: seq<Path>, k: nat, armed: Armed): Cell {
    c.(row := Some(r), collector := Some(Sweeping(Eraser(r, names, k, armed))))
  }

  // The disk after the rounds of the first k names.
  function DiskSwept(disk: Disk, r: Record, names: seq<Path>, k: nat): Disk
    requires k <= |names|
    decreases k
  {
    if k == 0 then disk else Round(DiskSwept(disk, r, names, k - 1), r.directory, r.cleanup, names[k - 1])
  }

  ghost function Swept(x: Site, names: seq<Path>, k: nat): Site
    requires x.cell.row.Some? && k <= |names|
  {
    var r := Marked(x.cell.row.value);
    Site(At(x.cell, r, names, k, Opening(0)), DiskSwept(x.disk, r, names, k))
  }

  lemma MarkedIsDecodable(r: Record)
    requires Deletable(r) && Decodable(r)
    ensures Decodable(Marked(r)) && Deletable(Marked(r))
  {
    var m := Marked(r);
    forall name | name in m.cleanup
      ensures ValidNode(m, name, m.cleanup[name])
    {
      assert ValidNode(r, name, r.cleanup[name]);
    }
  }

  lemma MarkingStarts(x: Site, id: string, epoch: nat, names: seq<Path>, t: Tree)
    requires Collectable(x, id, t) && RemovalOrder(names, x.cell.row.value.cleanup)
    ensures Step(Step(x, id, epoch, Collect), id, epoch, Mark(names, true, Acknowledged)) == Swept(x, names, 0)
  {
    var r := x.cell.row.value;
    MarkedIsDecodable(r);
    assert Step(x, id, epoch, Collect) == Site(x.cell.(collector := Some(Marking(r, true))), x.disk);
  }

  // What the check of the rest of a name comes to.
  function Found(c: Cell, r: Record, names: seq<Path>, k: nat, f: Finding): Cell {
    match f
    case Ready => At(c, r, names, k, Checked(false))
    case Gone => At(c, r, names, k + 1, Opening(0))
    case Unregistered => c.(row := Some(r), collector := None)
  }

  // One check of an undisturbed collector.
  lemma CheckStep(c: Cell, disk: Disk, id: string, epoch: nat, r: Record, names: seq<Path>, k: nat, j: nat)
    requires c.worker.None? && k < |names| && j < |names[k]|
    ensures var f := CheckAt(disk, r.directory, r.cleanup, names[k], j);
            Step(Site(At(c, r, names, k, Opening(j)), disk), id, epoch, SweepCheck) ==
            Site(if f == Ready && j + 1 < |names[k]| then At(c, r, names, k, Opening(j + 1))
                 else Found(c, r, names, k, f), disk)
  {
  }

  lemma CheckOutStep(c: Cell, disk: Disk, id: string, epoch: nat, r: Record, names: seq<Path>, k: nat, j: nat, n: nat)
    ensures var x := Site(At(c, r, names, k, Opening(j)), disk);
            CheckOut(x, id, epoch, k, n + 1) == CheckOut(Step(x, id, epoch, SweepCheck), id, epoch, k, n)
  {
  }

  lemma CheckOutEnds(c: Cell, disk: Disk, id: string, epoch: nat, r: Record, names: seq<Path>, k: nat, f: Finding,
                     n: nat)
    ensures var x := Site(Found(c, r, names, k, f), disk); CheckOut(x, id, epoch, k, n) == x
  {
  }

  // What the check of a name comes to from its j-th component on.
  ghost predicate ChecksTo(c: Cell, disk: Disk, id: string, epoch: nat, r: Record, names: seq<Path>, k: nat, j: nat)
    requires k < |names| && j < |names[k]|
  {
    CheckOut(Site(At(c, r, names, k, Opening(j)), disk), id, epoch, k, |names[k]| - j) ==
    Site(Found(c, r, names, k, Walk(disk, r.directory, r.cleanup, names[k], j)), disk)
  }

  lemma ChecksOnward(c: Cell, disk: Disk, id: string, epoch: nat, r: Record, names: seq<Path>, k: nat, j: nat)
    requires c.worker.None? && k < |names| && j + 1 < |names[k]|
    requires CheckAt(disk, r.directory, r.cleanup, names[k], j) == Ready
    requires ChecksTo(c, disk, id, epoch, r, names, k, j + 1)
    ensures ChecksTo(c, disk, id, epoch, r, names, k, j)
  {
    CheckOutStep(c, disk, id, epoch, r, names, k, j, |names[k]| - j - 1);
    CheckStep(c, disk, id, epoch, r, names, k, j);
  }

  lemma ChecksEnd(c: Cell, disk: Disk, id: string, epoch: nat, r: Record, names: seq<Path>, k: nat, j: nat)
    requires c.worker.None? && k < |names| && j < |names[k]|
    requires CheckAt(disk, r.directory, r.cleanup, names[k], j) != Ready || j + 1 == |names[k]|
    ensures ChecksTo(c, disk, id, epoch, r, names, k, j)
  {
    var f := CheckAt(disk, r.directory, r.cleanup, names[k], j);
    CheckOutStep(c, disk, id, epoch, r, names, k, j, |names[k]| - j - 1);
    CheckStep(c, disk, id, epoch, r, names, k, j);
    CheckOutEnds(c, disk, id, epoch, r, names, k, f, |names[k]| - j - 1);
  }

  lemma {:induction false} ChecksOut(c: Cell, disk: Disk, id: string, epoch: nat, r: Record, names: seq<Path>, k: nat,
                                     j: nat)
    requires c.worker.None? && k < |names| && j < |names[k]|
    ensures ChecksTo(c, disk, id, epoch, r, names, k, j)
    decreases |names[k]| - j
  {
    if j + 1 < |names[k]| && CheckAt(disk, r.directory, r.cleanup, names[k], j) == Ready {
      ChecksOut(c, disk, id, epoch, r, names, k, j + 1);
      ChecksOnward(c, disk, id, epoch, r, names, k, j);
    } else {
      ChecksEnd(c, disk, id, epoch, r, names, k, j);
    }
  }

  lemma UnlinkStep(c: Cell, disk: Disk, id: string, epoch: nat, r: Record, names: seq<Path>, k: nat)
    requires c.worker.None? && k < |names|
    requires Remove(disk, PlaceOf(r.directory, r.cleanup, names[k])).1 == Removed
    ensures Step(Site(At(c, r, names, k, Checked(false)), disk), id, epoch, SweepUnlink) ==
            Site(At(c, r, names, k + 1, Opening(0)), Remove(disk, PlaceOf(r.directory, r.cleanup, names[k])).0)
  {
  }

  lemma UnlinkSkips(c: Cell, disk: Disk, id: string, epoch: nat, r: Record, names: seq<Path>, k: nat)
    requires c.worker.None?
    ensures var x := Site(At(c, r, names, k, Opening(0)), disk); Step(x, id, epoch, SweepUnlink) == x
  {
  }

  // One undisturbed turn of the collector is one round of the deletion loop.
  lemma TurnIsRound(c: Cell, disk: Disk, id: string, epoch: nat, r: Record, names: seq<Path>, k: nat, t: Tree)
    requires c.worker.None? && k < |names| && names[k] != []
    requires Shows(disk, r.directory, t) && Distinct(t, r.directory)
    requires RemoveOne(t, r.cleanup, names[k]).1 in {Removed, Missing}
    ensures Turn(Site(At(c, r, names, k, Opening(0)), disk), id, epoch) ==
            Site(At(c, r, names, k + 1, Opening(0)), Round(disk, r.directory, r.cleanup, names[k]))
  {
    RoundIsRemoveOne(disk, r.directory, r.cleanup, t, names[k]);
    ChecksOut(c, disk, id, epoch, r, names, k, 0);
    if CheckOne(t, r.cleanup, names[k]) == Ready {
      UnlinkStep(c, disk, id, epoch, r, names, k);
    } else {
      UnlinkSkips(c, disk, id, epoch, r, names, k + 1);
    }
  }

  // A round leaves the name of the object alone, which lies outside.
  lemma RoundKeepsHouse(disk: Disk, id: string, r: Record, t: Tree, p: Path)
    requires Housed(disk, id, r, t) && p != []
    ensures Housed(Round(disk, r.directory, r.cleanup, p), id, r, RemoveOne(t, r.cleanup, p).0)
  {
    RoundIsRemoveOne(disk, r.directory, r.cleanup, t, p);
    assert p[..0] == [];
    WalkShown(disk, r.directory, r.cleanup, t, p, 0);
    FollowShown(disk, r.directory, t, p[..|p| - 1]);
  }

  lemma NamesAreNotEmpty(r: Record, names: seq<Path>, k: nat)
    requires ValidInventory(r) && RemovalOrder(names, r.cleanup) && k < |names|
    ensures names[k] != []
  {
    InventoryIsClosed(r);
    assert names[k] in Elements(names);
    assert HasClosedAncestors(r.cleanup, names[k]);
  }

  lemma {:induction false} SweepKeepsHouse(disk: Disk, id: string, r: Record, names: seq<Path>, k: nat, t: Tree)
    requires Housed(disk, id, r, t) && ValidInventory(r) && RemovalOrder(names, r.cleanup) && k <= |names|
    ensures Housed(DiskSwept(disk, r, names, k), id, r, RemovePrefix(t, r.cleanup, names, k))
    decreases k
  {
    if k > 0 {
      SweepKeepsHouse(disk, id, r, names, k - 1, t);
      NamesAreNotEmpty(r, names, k - 1);
      RoundKeepsHouse(DiskSwept(disk, r, names, k - 1), id, r, RemovePrefix(t, r.cleanup, names, k - 1), names[k - 1]);
    }
  }

  lemma SweepOne(x: Site, id: string, epoch: nat, names: seq<Path>, k: nat, t: Tree)
    requires Collectable(x, id, t) && RemovalOrder(names, x.cell.row.value.cleanup) && k < |names|
    ensures Turn(Swept(x, names, k), id, epoch) == Swept(x, names, k + 1)
  {
    var r := Marked(x.cell.row.value);
    var now := RemovePrefix(t, r.cleanup, names, k);
    MarkedIsDecodable(x.cell.row.value);
    InventoryIsClosed(r);
    ShownIsWellFormed(x.disk, r.directory, t);
    CrashKeepsApproval(t, r.cleanup, names, k);
    RemoveNext(now, t, r.cleanup, names, k);
    NamesAreNotEmpty(r, names, k);
    SweepKeepsHouse(x.disk, id, r, names, k, t);
    TurnIsRound(x.cell, DiskSwept(x.disk, r, names, k), id, epoch, r, names, k, now);
  }

  lemma TurnsSucceed(x: Site, id: string, epoch: nat, names: seq<Path>, t: Tree)
    requires Collectable(x, id, t) && RemovalOrder(names, x.cell.row.value.cleanup)
    ensures forall k | 0 <= k < |names| :: Turn(Swept(x, names, k), id, epoch) == Swept(x, names, k + 1)
  {
    forall k | 0 <= k < |names|
      ensures Turn(Swept(x, names, k), id, epoch) == Swept(x, names, k + 1)
    {
      SweepOne(x, id, epoch, names, k, t);
    }
  }

  // After k turns exactly the first k names have been dealt with.
  lemma SweepingAdvances(x: Site, id: string, epoch: nat, names: seq<Path>, k: nat, t: Tree)
    requires Collectable(x, id, t) && RemovalOrder(names, x.cell.row.value.cleanup) && k <= |names|
    ensures Collecting(x, id, epoch, names, k) == Swept(x, names, k)
  {
    var start := Step(Step(x, id, epoch, Collect), id, epoch, Mark(names, true, Acknowledged));
    var swept := (j: nat) => if j <= |names| then Swept(x, names, j) else start;
    MarkingStarts(x, id, epoch, names, t);
    TurnsSucceed(x, id, epoch, names, t);
    IterateIs((y: Site) => Turn(y, id, epoch), start, swept, |names|, k);
  }

  // The whole undisturbed pass over one object: its entries, its name, its row.
  ghost function Collection(x: Site, id: string, epoch: nat, names: seq<Path>): Site {
    Step(Turn(Collecting(x, id, epoch, names, |names|), id, epoch), id, epoch, DropRow(Acknowledged))
  }

  lemma LastCheck(c: Cell, disk: Disk, id: string, epoch: nat, r: Record, names: seq<Path>)
    requires c.worker.None? && In(disk, Slot(r.cache, id)) == Some(DirEntry(r.directory))
    ensures Step(Site(At(c, r, names, |names|, Opening(0)), disk), id, epoch, SweepCheck) ==
            Site(At(c, r, names, |names|, Checked(false)), disk)
  {
  }

  lemma LastUnlink(c: Cell, disk: Disk, id: string, epoch: nat, r: Record, names: seq<Path>)
    requires c.worker.None? && Remove(disk, Slot(r.cache, id)).1 == Removed
    ensures Step(Site(At(c, r, names, |names|, Checked(false)), disk), id, epoch, SweepUnlink) ==
            Site(c.(row := Some(r), collector := Some(Dropping(r))), Remove(disk, Slot(r.cache, id)).0)
  {
  }

  lemma LastTurn(c: Cell, disk: Disk, id: string, epoch: nat, r: Record, names: seq<Path>)
    requires c.worker.None? && In(disk, Slot(r.cache, id)) == Some(DirEntry(r.directory))
    requires Listing(disk, r.directory) == map[]
    ensures Turn(Site(At(c, r, names, |names|, Opening(0)), disk), id, epoch) ==
            Site(c.(row := Some(r), collector := Some(Dropping(r))), Remove(disk, Slot(r.cache, id)).0)
  {
    LastCheck(c, disk, id, epoch, r, names);
    CheckOutStep(c, disk, id, epoch, r, names, |names|, 0, 0);
    LastUnlink(c, disk, id, epoch, r, names);
  }

  lemma DropStep(c: Cell, disk: Disk, id: string, epoch: nat, r: Record)
    requires c.worker.None? && c.collector == Some(Dropping(r)) && c.row == Some(r)
    ensures Step(Site(c, disk), id, epoch, DropRow(Acknowledged)) == Site(c.(row := None, collector := None), disk)
  {
  }

  lemma NothingShown(disk: Disk, root: DirId)
    requires Shows(disk, root, map[])
    ensures Listing(disk, root) == map[]
  {
    forall n
      ensures EntryAt(disk, root, [n]) == In(disk, Slot(root, n))
    {
      assert [n][..0] == [];
    }
    forall n
      ensures n !in Listing(disk, root)
    {
      assert EntryAt(disk, root, [n]).None?;
    }
  }

  /** One undisturbed collector run over a collectable object ends with its directory empty and without a name,
      and with no row. */
  lemma CollectorFinishes(x: Site, id: string, epoch: nat, names: seq<Path>, t: Tree)
    requires Collectable(x, id, t) && RemovalOrder(names, x.cell.row.value.cleanup)
    ensures var y := Collection(x, id, epoch, names);
            && y.cell == x.cell.(row := None)
            && In(y.disk, Slot(x.cell.row.value.cache, id)).None?
            && Listing(y.disk, x.cell.row.value.directory) == map[]
  {
    var r := Marked(x.cell.row.value);
    var disk := DiskSwept(x.disk, r, names, |names|);
    MarkedIsDecodable(x.cell.row.value);
    InventoryIsClosed(r);
    ShownIsWellFormed(x.disk, r.directory, t);
    RestartFinishes(t, r.cleanup, [], names);
    SweepKeepsHouse(x.disk, id, r, names, |names|, t);
    NothingShown(disk, r.directory);
    SweepingAdvances(x, id, epoch, names, |names|, t);
    LastTurn(x.cell, disk, id, epoch, r, names);
    DropStep(x.cell.(row := Some(r), collector := Some(Dropping(r))), Remove(disk, Slot(r.cache, id)).0, id, epoch, r);
  }

  // j checks of an undisturbed collector.
  ghost function Checking(x: Site, id: string, epoch: nat, j: nat): Site {
    Iterate((y: Site) => Step(y, id, epoch, SweepCheck), x, j)
  }

  ghost function Lost(x: Site): Site {
    Site(Restarted(x.cell), x.disk)
  }

  // A crash after k names, and after j further checks.
  ghost function CrashedAfter(x: Site, id: string, epoch: nat, names: seq<Path>, k: nat, j: nat): Site {
    Lost(Checking(Collecting(x, id, epoch, names, k), id, epoch, j))
  }

  lemma {:induction false} ChecksAreLost(x: Site, id: string, epoch: nat, j: nat)
    ensures Lost(Checking(x, id, epoch, j)) == Lost(x)
    decreases j
  {
    if j > 0 {
      ChecksAreLost(x, id, epoch, j - 1);
      CheckIsLost(Checking(x, id, epoch, j - 1), id, epoch);
    }
  }

  lemma CheckIsLost(x: Site, id: string, epoch: nat)
    ensures Lost(Step(x, id, epoch, SweepCheck)) == Lost(x)
  {
  }

  /** A crash anywhere in the removal, between a check and its unlink too, leaves the object collectable in
      the next run. */
  lemma CrashedCollectorCanResume(x: Site, id: string, epoch: nat, names: seq<Path>, k: nat, j: nat, t: Tree)
    requires Collectable(x, id, t) && RemovalOrder(names, x.cell.row.value.cleanup) && k <= |names|
    ensures Collectable(CrashedAfter(x, id, epoch, names, k, j), id,
                        RemovePrefix(t, x.cell.row.value.cleanup, names, k))
  {
    SweepingAdvances(x, id, epoch, names, k, t);
    ChecksAreLost(Swept(x, names, k), id, epoch, j);
    var r := Marked(x.cell.row.value);
    MarkedIsDecodable(x.cell.row.value);
    InventoryIsClosed(r);
    ShownIsWellFormed(x.disk, r.directory, t);
    CrashKeepsApproval(t, r.cleanup, names, k);
    SweepKeepsHouse(x.disk, id, r, names, k, t);
    SubsetSize(RemovePrefix(t, r.cleanup, names, k).Keys, t.Keys);
  }
}
