/** The deletion engine of the clipboard-file cache among other programs
    (internal/app/clipboard_cache_inventory.go). A directory is known by its identity: an opened directory
    stays the same one when somebody renames it, and what is unlinked through it goes wherever it lies. */
module CacheDisk {

  import opened CacheTree
  import opened Common

  type DirId = string

  type Folder = map<string, Entry>

  // Every directory with what it lists; an entry leads to a directory by that directory's identity.
  type Disk = map<DirId, Folder>

  datatype Slot = Slot(dir: DirId, name: string)

  function Listing(disk: Disk, d: DirId): Folder {
    if d in disk then disk[d] else map[]
  }

  function In(disk: Disk, s: Slot): Option<Entry> {
    if s.name in Listing(disk, s.dir) then Some(Listing(disk, s.dir)[s.name]) else None
  }

  function DirEntry(d: DirId): Entry {
    Plain(Node(d, true, 0, 0))
  }

  function Set(disk: Disk, s: Slot, e: Entry): Disk {
    disk[s.dir := Listing(disk, s.dir)[s.name := e]]
  }

  function Clear(disk: Disk, s: Slot): Disk {
    disk[s.dir := Listing(disk, s.dir) - {s.name}]
  }

  // A file, or an empty directory: what an unlink by name does take.
  predicate Vacant(disk: Disk, e: Entry) {
    e.Plain? && e.node.directory ==> Listing(disk, e.node.identity) == map[]
  }

  // Unlink by name, whatever the name stands for by now.
  function Remove(disk: Disk, s: Slot): (r: (Disk, Unlink))
    ensures r.1 == Removed <==> In(disk, s).Some? && Vacant(disk, In(disk, s).value)
    ensures r.1 != Removed ==> r.0 == disk
    ensures r.1 == Removed ==> In(r.0, s).None?
    ensures forall other | other != s :: In(r.0, other) == In(disk, other)
  {
    if In(disk, s).None? then (disk, Missing)
    else if !Vacant(disk, In(disk, s).value) then (disk, NotEmpty)
    else (Clear(disk, s), Removed)
  }

  // ------------------------------------------------------------------- paths

  function SubDir(disk: Disk, s: Slot): Option<DirId> {
    var e := In(disk, s);
    if e.Some? && e.value.Plain? && e.value.node.directory then Some(e.value.node.identity) else None
  }

  // The directory that a path leads to from another one.
  function Follow(disk: Disk, top: DirId, q: Path): Option<DirId>
    decreases |q|
  {
    if q == [] then Some(top)
    else
      var parent := Follow(disk, top, q[..|q| - 1]);
      if parent.None? then None else SubDir(disk, Slot(parent.value, q[|q| - 1]))
  }

  // Where the last component of a path is looked up.
  function SlotAt(disk: Disk, top: DirId, q: Path): Option<Slot> {
    if q == [] then None
    else
      var parent := Follow(disk, top, q[..|q| - 1]);
      if parent.None? then None else Some(Slot(parent.value, q[|q| - 1]))
  }

  function EntryAt(disk: Disk, top: DirId, q: Path): Option<Entry> {
    var s := SlotAt(disk, top, q);
    if s.None? then None else In(disk, s.value)
  }

  ghost predicate AtOrBelow(disk: Disk, top: DirId, d: DirId) {
    exists q :: Follow(disk, top, q) == Some(d)
  }

  // A removed entry leads nowhere, so every path that still has an entry is followed as before.
  lemma {:induction false} FollowAfter(disk: Disk, s: Slot, top: DirId, q: Path)
    ensures Follow(Remove(disk, s).0, top, q).Some? ==> Follow(Remove(disk, s).0, top, q) == Follow(disk, top, q)
    ensures var d := Follow(disk, top, q);
            d.Some? && Follow(Remove(disk, s).0, top, q).None? ==> Listing(disk, d.value) == map[]
    decreases |q|
  {
    if q != [] {
      FollowAfter(disk, s, top, q[..|q| - 1]);
    }
  }

  /** What an unlink does to any path from any directory: the entry is lost exactly if the path's last component
      is looked up in the very slot that is unlinked; no other path changes. */
  lemma LostAt(disk: Disk, s: Slot, top: DirId, q: Path)
    ensures var lost := Remove(disk, s).1 == Removed && SlotAt(disk, top, q) == Some(s);
            EntryAt(Remove(disk, s).0, top, q) == if lost then None else EntryAt(disk, top, q)
  {
    if q != [] {
      FollowAfter(disk, s, top, q[..|q| - 1]);
    }
  }

  // --------------------------------------------------------------- the engine

  // The directory opened after the first k components: at each of them the registered one, or none.
  function OpenedAt(root: DirId, nodes: Inventory, p: Path, k: nat): DirId
    requires k <= |p|
  {
    if k == 0 || p[..k] !in nodes then root else nodes[p[..k]].identity
  }

  // Where the engine unlinks a registered name: in the directory it has opened, wherever that lies by now.
  function PlaceOf(root: DirId, nodes: Inventory, p: Path): Slot {
    if p == [] then Slot(root, "") else Slot(OpenedAt(root, nodes, p, |p| - 1), p[|p| - 1])
  }

  // One component, looked up in the directory opened last: an ancestor to open next, or the name itself.
  function CheckAt(disk: Disk, root: DirId, nodes: Inventory, p: Path, k: nat): (f: Finding)
    requires k < |p|
    ensures f == Ready ==> p[..k + 1] in nodes && (k + 1 < |p| ==> nodes[p[..k + 1]].directory)
                           && In(disk, Slot(OpenedAt(root, nodes, p, k), p[k])) == Some(Plain(nodes[p[..k + 1]]))
  {
    var e := In(disk, Slot(OpenedAt(root, nodes, p, k), p[k]));
    var prefix := p[..k + 1];
    if e.None? then Gone
    else if prefix !in nodes || e.value != Plain(nodes[prefix]) then Unregistered
    else if k + 1 < |p| && !nodes[prefix].directory then Unregistered
    else Ready
  }

  // How far a name is: k ancestors opened, or checked. swapped (history) says that something was put into its
  // place since the check.
  datatype Armed = Opening(k: nat) | Checked(swapped: bool)

  datatype Outcome = Onward(armed: Armed) | Skipped | Stuck

  // One step towards the unlink: open the next ancestor, or check the name itself.
  function AdvanceOne(disk: Disk, root: DirId, nodes: Inventory, p: Path, a: Armed): Outcome {
    if a.Checked? then Onward(a)
    else if a.k >= |p| then Stuck
    else
      match CheckAt(disk, root, nodes, p, a.k)
      case Gone => Skipped
      case Unregistered => Stuck
      case Ready => Onward(if a.k + 1 == |p| then Checked(false) else Opening(a.k + 1))
  }

  // Something else has come into a place.
  predicate PutInto(before: Disk, after: Disk, s: Slot) {
    In(after, s).Some? && In(after, s) != In(before, s)
  }

  function NoteArmed(a: Armed, put: bool): Armed {
    if a.Checked? && put then Checked(true) else a
  }

  // A checked name is registered, and if nothing was put into its place what lies there is the registered file.
  predicate ArmedInv(disk: Disk, root: DirId, nodes: Inventory, p: Path, a: Armed) {
    a.Checked? ==>
      && p in nodes
      && var e := In(disk, PlaceOf(root, nodes, p)); !a.swapped && e.Some? ==> e.value == Plain(nodes[p])
  }

  lemma AdvanceKeepsInv(disk: Disk, root: DirId, nodes: Inventory, p: Path, a: Armed)
    requires ArmedInv(disk, root, nodes, p, a)
    ensures var n := AdvanceOne(disk, root, nodes, p, a); n.Onward? ==> ArmedInv(disk, root, nodes, p, n.armed)
  {
    if a.Opening? && a.k + 1 == |p| {
      assert p[..a.k + 1] == p;
    }
  }

  lemma NotingKeepsInv(before: Disk, after: Disk, root: DirId, nodes: Inventory, p: Path, a: Armed)
    requires ArmedInv(before, root, nodes, p, a)
    ensures ArmedInv(after, root, nodes, p, NoteArmed(a, PutInto(before, after, PlaceOf(root, nodes, p))))
  {
  }

  // -------------------------------------------------- the engine among others

  // Others may create, replace, delete and rename entries at any time, between any two steps of the engine.
  datatype Cue =
    | Start(name: Path) | Advance | Unlink
    | Put(slot: Slot, entry: Entry) | Taken(slot: Slot) | Rename(from: Slot, to: Slot)

  // The disk, and the name the engine is at.
  datatype Scene = Scene(disk: Disk, work: Option<(Path, Armed)>)

  datatype Object = Object(root: DirId, nodes: Inventory)

  function Moved(disk: Disk, from: Slot, to: Slot): Disk {
    if In(disk, from).None? then disk else Set(Clear(disk, from), to, In(disk, from).value)
  }

  // What others do; whatever comes into the place of a checked name is noted.
  function ByOthers(s: Scene, o: Object, after: Disk): Scene {
    Scene(after, if s.work.None? then None
                 else Some((s.work.value.0,
                            NoteArmed(s.work.value.1,
                                      PutInto(s.disk, after, PlaceOf(o.root, o.nodes, s.work.value.0))))))
  }

  // The engine is sequential: it turns to a name only when it is done with the one before.
  function Play(s: Scene, o: Object, e: Cue): Scene {
    match e
    case Start(name) => if s.work.Some? then s else s.(work := Some((name, Opening(0))))
    case Advance =>
      if s.work.None? then s
      else
        var n := AdvanceOne(s.disk, o.root, o.nodes, s.work.value.0, s.work.value.1);
        s.(work := if n.Onward? then Some((s.work.value.0, n.armed)) else None)
    case Unlink =>
      if s.work.None? || !s.work.value.1.Checked? then s
      else Scene(Remove(s.disk, PlaceOf(o.root, o.nodes, s.work.value.0)).0, None)
    case Put(slot, entry) => ByOthers(s, o, Set(s.disk, slot, entry))
    case Taken(slot) => ByOthers(s, o, Clear(s.disk, slot))
    case Rename(from, to) => ByOthers(s, o, Moved(s.disk, from, to))
  }

  function PlayAll(s: Scene, o: Object, events: seq<Cue>): Scene
    decreases |events|
  {
    if events == [] then s else PlayAll(Play(s, o, events[0]), o, events[1..])
  }

  ghost predicate SceneInv(s: Scene, o: Object) {
    s.work.Some? ==> ArmedInv(s.disk, o.root, o.nodes, s.work.value.0, s.work.value.1)
  }

  lemma PlayOneKeepsInv(s: Scene, o: Object, e: Cue)
    requires SceneInv(s, o)
    ensures SceneInv(Play(s, o, e), o)
  {
    if s.work.Some? && e.Advance? {
      AdvanceKeepsInv(s.disk, o.root, o.nodes, s.work.value.0, s.work.value.1);
    }
  }

  lemma {:induction false} PlayKeepsInv(s: Scene, o: Object, events: seq<Cue>)
    requires SceneInv(s, o)
    ensures SceneInv(PlayAll(s, o, events), o)
    decreases |events|
  {
    if events != [] {
      PlayOneKeepsInv(s, o, events[0]);
      PlayKeepsInv(Play(s, o, events[0]), o, events[1..]);
    }
  }

  // The name is checked and its unlink is the engine's next step.
  predicate Due(s: Scene, o: Object, slot: Slot) {
    s.work.Some? && s.work.value.1.Checked? && PlaceOf(o.root, o.nodes, s.work.value.0) == slot
  }

  predicate Swapped(s: Scene) {
    s.work.Some? && s.work.value.1 == Checked(true)
  }

  // The registered file of some name, in the place of that name.
  ghost predicate Registered(o: Object, slot: Slot, e: Entry) {
    exists p :: p in o.nodes && PlaceOf(o.root, o.nodes, p) == slot && e == Plain(o.nodes[p])
  }

  ghost predicate PlaceOfSome(o: Object, slot: Slot) {
    exists p :: p in o.nodes && PlaceOf(o.root, o.nodes, p) == slot
  }

  predicate LeavesAlone(e: Cue, slot: Slot) {
    match e
    case Put(s, _) => s != slot
    case Taken(s) => s != slot
    case Rename(from, to) => from != slot && to != slot
    case _ => true
  }

  predicate LeftAlone(events: seq<Cue>, slot: Slot) {
    forall e | e in events :: LeavesAlone(e, slot)
  }

  lemma OthersLeaveAlone(s: Scene, o: Object, e: Cue, slot: Slot)
    requires SceneInv(s, o) && In(s.disk, slot).Some? && LeavesAlone(e, slot)
    requires !Registered(o, slot, In(s.disk, slot).value) && !Due(s, o, slot)
    ensures In(Play(s, o, e).disk, slot) == In(s.disk, slot) && !Due(Play(s, o, e), o, slot)
  {
    if e.Advance? {
      PlayOneKeepsInv(s, o, e);
    }
  }

  /** Whatever others create, replace, delete or rename meanwhile, an entry that is not the registered file of its
      place survives every run, if it was not put into a place between that place's check and its unlink. Where
      no registered name is unlinked from, nothing is ever removed. */
  lemma {:induction false} UnregisteredSurvives(s: Scene, o: Object, events: seq<Cue>, slot: Slot)
    requires SceneInv(s, o) && In(s.disk, slot).Some? && LeftAlone(events, slot)
    requires !Registered(o, slot, In(s.disk, slot).value)
    requires !Due(s, o, slot) || !PlaceOfSome(o, slot)
    ensures In(PlayAll(s, o, events).disk, slot) == In(s.disk, slot)
    decreases |events|
  {
    if events != [] {
      assert events[0] in events;
      OthersLeaveAlone(s, o, events[0], slot);
      PlayOneKeepsInv(s, o, events[0]);
      UnregisteredSurvives(Play(s, o, events[0]), o, events[1..], slot);
    }
  }

  /** After any run the engine's next step removes what lies at a path q from any directory, inside the object or
      anywhere else, exactly when q is looked up in the place of the checked name: under its base name in the very
      directory that was opened for it, wherever that has been moved. If it is not the registered file, it was put
      there since the check. */
  lemma {:induction false} RemovedOnlyIfSwappedIn(s: Scene, o: Object, events: seq<Cue>, top: DirId, q: Path)
    requires SceneInv(s, o)
    ensures var now := PlayAll(s, o, events);
            var e := EntryAt(now.disk, top, q);
            e.Some? ==>
              && var slot := SlotAt(now.disk, top, q).value;
              && (EntryAt(Play(now, o, Unlink).disk, top, q) != e <==> Due(now, o, slot) && Vacant(now.disk, e.value))
              && (!Registered(o, slot, e.value) && Due(now, o, slot) ==> Swapped(now))
  {
    PlayKeepsInv(s, o, events);
    var now := PlayAll(s, o, events);
    if now.work.Some? {
      LostAt(now.disk, PlaceOf(o.root, o.nodes, now.work.value.0), top, q);
    }
  }

  // Every ancestor and then the name itself, as far as nobody interferes.
  function Walk(disk: Disk, root: DirId, nodes: Inventory, p: Path, k: nat): (f: Finding)
    requires k < |p|
    ensures f == Ready ==> CheckAt(disk, root, nodes, p, k) == Ready
    decreases |p| - k
  {
    var f := CheckAt(disk, root, nodes, p, k);
    if f == Ready && k + 1 < |p| then Walk(disk, root, nodes, p, k + 1) else f
  }

  function Steps(e: Cue, n: nat): seq<Cue> {
    seq(n, _ => e)
  }

  lemma {:induction false} PlayedInTurn(s: Scene, o: Object, first: seq<Cue>, later: seq<Cue>)
    ensures PlayAll(s, o, first + later) == PlayAll(PlayAll(s, o, first), o, later)
    decreases |first|
  {
    if first == [] {
      assert first + later == later;
    } else {
      assert (first + later)[1..] == first[1..] + later;
      PlayedInTurn(Play(s, o, first[0]), o, first[1..], later);
    }
  }

  lemma {:induction false} WalkArms(s: Scene, o: Object, p: Path, k: nat)
    requires k < |p| && s.work == Some((p, Opening(k))) && Walk(s.disk, o.root, o.nodes, p, k) == Ready
    ensures PlayAll(s, o, Steps(Advance, |p| - k)) == s.(work := Some((p, Checked(false))))
    decreases |p| - k
  {
    var steps := Steps(Advance, |p| - k);
    assert steps[1..] == Steps(Advance, |p| - k - 1);
    if k + 1 < |p| {
      WalkArms(Play(s, o, Advance), o, p, k + 1);
    }
  }

  // The engine has just checked p.
  lemma CheckedNow(disk: Disk, o: Object, p: Path)
    requires p != [] && Walk(disk, o.root, o.nodes, p, 0) == Ready
    ensures PlayAll(Scene(disk, None), o, [Start(p)] + Steps(Advance, |p|)) == Scene(disk, Some((p, Checked(false))))
  {
    var s := Scene(disk, Some((p, Opening(0))));
    WalkArms(s, o, p, 0);
    PlayedInTurn(Scene(disk, None), o, [Start(p)], Steps(Advance, |p|));
    assert PlayAll(Scene(disk, None), o, [Start(p)]) == PlayAll(s, o, []) by { assert [Start(p)][1..] == []; }
  }

  lemma TwoMore(s: Scene, o: Object, a: Cue, b: Cue)
    ensures PlayAll(s, o, [a, b]) == Play(Play(s, o, a), o, b)
  {
    assert [a, b][1..] == [b] && [b][1..] == [];
    assert PlayAll(Play(s, o, a), o, [b]) == PlayAll(Play(Play(s, o, a), o, b), o, []);
  }

  /** The first losing run: a file put at a registered name between its check and its unlink is removed. */
  lemma SwappedEntryIsLost(disk: Disk, o: Object, p: Path, other: Node)
    requires p != [] && Walk(disk, o.root, o.nodes, p, 0) == Ready && !other.directory
    ensures var place := PlaceOf(o.root, o.nodes, p);
            var events := [Start(p)] + Steps(Advance, |p|) + [Put(place, Plain(other)), Unlink];
            In(PlayAll(Scene(disk, None), o, events).disk, place).None?
  {
    var place := PlaceOf(o.root, o.nodes, p);
    var s := Scene(disk, Some((p, Checked(false))));
    CheckedNow(disk, o, p);
    PlayedInTurn(Scene(disk, None), o, [Start(p)] + Steps(Advance, |p|), [Put(place, Plain(other)), Unlink]);
    TwoMore(s, o, Put(place, Plain(other)), Unlink);
    PutAndUnlinked(s, o, p, other);
  }

  lemma PutAndUnlinked(s: Scene, o: Object, p: Path, other: Node)
    requires s.work == Some((p, Checked(false))) && !other.directory
    ensures var place := PlaceOf(o.root, o.nodes, p);
            In(Play(Play(s, o, Put(place, Plain(other))), o, Unlink).disk, place).None?
  {
  }

  /** The second one: after a/x was checked, the registered directory a is renamed to b, and somebody puts their
      own file at b/x. That file is removed, although a/x is gone by then, whatever name b is. */
  lemma MovedDirectoryLosesEntry(disk: Disk, o: Object, a: string, b: string, x: string, other: Node)
    requires Walk(disk, o.root, o.nodes, [a, x], 0) == Ready && !other.directory
    requires a != b && [a] in o.nodes && o.nodes[[a]].identity != o.root
    ensures var events := [Start([a, x])] + Steps(Advance, 2);
            var put := Put(Slot(o.nodes[[a]].identity, x), Plain(other));
            var before := PlayAll(Scene(disk, None), o, events + [Rename(Slot(o.root, a), Slot(o.root, b)), put]);
            && EntryAt(before.disk, o.root, [a, x]).None?
            && EntryAt(before.disk, o.root, [b, x]) == Some(Plain(other))
            && EntryAt(Play(before, o, Unlink).disk, o.root, [b, x]).None?
  {
    var d := o.nodes[[a]].identity;
    var events := [Start([a, x])] + Steps(Advance, 2);
    var move := Rename(Slot(o.root, a), Slot(o.root, b));
    var put := Put(Slot(d, x), Plain(other));
    var s := Scene(disk, Some(([a, x], Checked(false))));
    CheckedNow(disk, o, [a, x]);
    PlayedInTurn(Scene(disk, None), o, events, [move, put]);
    TwoMore(s, o, move, put);
    var before := Play(Play(s, o, move), o, put);
    assert [a, x][..1] == [a] && [b, x][..1] == [b];
    assert CheckAt(disk, o.root, o.nodes, [a, x], 0) == Ready;
    TwoComponents(before.disk, o.root, a, x);
    TwoComponents(before.disk, o.root, b, x);
    LostAt(before.disk, Slot(d, x), o.root, [b, x]);
  }

  lemma TwoComponents(disk: Disk, top: DirId, a: string, x: string)
    ensures var d := SubDir(disk, Slot(top, a));
            SlotAt(disk, top, [a, x]) == if d.None? then None else Some(Slot(d.value, x))
  {
    assert [a, x][..1] == [a] && [a][..0] == [];
    assert Follow(disk, top, []) == Some(top);
    assert Follow(disk, top, [a]) == SubDir(disk, Slot(top, a));
  }

  // ------------------------------------------------------- an object's tree

  // What lies below a directory, as a tree.
  ghost predicate Shows(disk: Disk, root: DirId, t: Tree) {
    forall q :: EntryAt(disk, root, q) == if q in t then Some(t[q]) else None
  }

  // Every directory of a tree has one place, and none is the root.
  ghost predicate Distinct(t: Tree, root: DirId) {
    && (forall p | IsDirectory(t, p) :: t[p].node.identity != root)
    && (forall p, q | IsDirectory(t, p) && IsDirectory(t, q) && t[p].node.identity == t[q].node.identity :: p == q)
  }

  lemma ShownIsWellFormed(disk: Disk, root: DirId, t: Tree)
    requires Shows(disk, root, t)
    ensures WellFormed(t)
  {
    forall p | p in t
      ensures Lives(t, p)
    {
      assert EntryAt(disk, root, p).Some?;
      if |p| > 1 {
        var parent := p[..|p| - 1];
        assert Follow(disk, root, parent).Some?;
        assert EntryAt(disk, root, parent).Some?;
      }
    }
  }

  // Whoever follows a path in a shown tree passes its directories.
  lemma FollowShown(disk: Disk, root: DirId, t: Tree, q: Path)
    requires Shows(disk, root, t)
    ensures var d := Follow(disk, root, q);
            if q == [] then d == Some(root)
            else if IsDirectory(t, q) then d == Some(t[q].node.identity) else d.None?
  {
    if q != [] {
      assert EntryAt(disk, root, q) == if q in t then Some(t[q]) else None;
    }
  }

  lemma SamePlace(disk: Disk, root: DirId, t: Tree, p: Path, q: Path)
    requires Shows(disk, root, t) && Distinct(t, root)
    requires SlotAt(disk, root, p).Some? && SlotAt(disk, root, p) == SlotAt(disk, root, q)
    ensures p == q
  {
    var p', q' := p[..|p| - 1], q[..|q| - 1];
    FollowShown(disk, root, t, p');
    FollowShown(disk, root, t, q');
    assert p' == q';
    assert p == p' + [p[|p| - 1]] && q == q' + [q[|q| - 1]];
  }

  // Followed as registered, component by component.
  lemma {:induction false} WalkShown(disk: Disk, root: DirId, nodes: Inventory, t: Tree, p: Path, k: nat)
    requires Shows(disk, root, t) && k < |p| && Follow(disk, root, p[..k]) == Some(OpenedAt(root, nodes, p, k))
    ensures var access := OpenAncestors(t, nodes, p, k);
            Walk(disk, root, nodes, p, k) ==
            if access.Absent? then Gone else if access.Refused? then Unregistered
            else if p !in t then Gone else if p !in nodes || t[p] != Plain(nodes[p]) then Unregistered else Ready
    ensures Walk(disk, root, nodes, p, k) == Ready ==> SlotAt(disk, root, p) == Some(PlaceOf(root, nodes, p))
    decreases |p| - k
  {
    var prefix := p[..k + 1];
    assert prefix[..|prefix| - 1] == p[..k] && prefix[k] == p[k];
    assert EntryAt(disk, root, prefix) == if prefix in t then Some(t[prefix]) else None;
    if k + 1 < |p| {
      if CheckAt(disk, root, nodes, p, k) == Ready {
        WalkShown(disk, root, nodes, t, p, k + 1);
      }
    } else {
      assert prefix == p;
    }
  }

  // A directory is vacant exactly if the tree shows nothing in it.
  lemma VacantShown(disk: Disk, root: DirId, t: Tree, p: Path)
    requires Shows(disk, root, t) && p in t
    ensures Vacant(disk, t[p]) <==> Children(t, p) == {}
  {
    FollowShown(disk, root, t, p);
    assert EntryAt(disk, root, p).Some?;
    forall q | q in Children(t, p)
      ensures !Vacant(disk, t[p])
    {
      assert q[..|q| - 1] == p;
      assert EntryAt(disk, root, q).Some?;
    }
    if !Vacant(disk, t[p]) {
      var n :| n in Listing(disk, t[p].node.identity);
      var q := p + [n];
      assert q[..|q| - 1] == p;
      assert EntryAt(disk, root, q).Some?;
      assert q in Children(t, p);
    }
  }

  lemma RemoveShown(disk: Disk, root: DirId, t: Tree, p: Path, s: Slot)
    requires Shows(disk, root, t) && Distinct(t, root) && p in t && SlotAt(disk, root, p) == Some(s)
    ensures Remove(disk, s).1 == UnlinkOne(t, p).1 && Shows(Remove(disk, s).0, root, UnlinkOne(t, p).0)
  {
    VacantShown(disk, root, t, p);
    var after := Remove(disk, s).0;
    var t' := UnlinkOne(t, p).0;
    forall q
      ensures EntryAt(after, root, q) == if q in t' then Some(t'[q]) else None
    {
      LostAt(disk, s, root, q);
      if SlotAt(disk, root, q) == Some(s) {
        SamePlace(disk, root, t, p, q);
      }
    }
  }

  // One name of the removal loop, if nobody interferes.
  function Round(disk: Disk, root: DirId, nodes: Inventory, p: Path): Disk {
    if p != [] && Walk(disk, root, nodes, p, 0) == Ready then Remove(disk, PlaceOf(root, nodes, p)).0 else disk
  }

  /** Left alone, one round on the disk is one round of the removal loop on the object's tree. */
  lemma RoundIsRemoveOne(disk: Disk, root: DirId, nodes: Inventory, t: Tree, p: Path)
    requires Shows(disk, root, t) && Distinct(t, root) && p != []
    ensures Walk(disk, root, nodes, p, 0) == CheckOne(t, nodes, p)
    ensures Walk(disk, root, nodes, p, 0) == Ready ==>
              Remove(disk, PlaceOf(root, nodes, p)).1 == RemoveOne(t, nodes, p).1
    ensures Shows(Round(disk, root, nodes, p), root, RemoveOne(t, nodes, p).0)
    ensures Distinct(RemoveOne(t, nodes, p).0, root)
  {
    assert p[..0] == [];
    WalkShown(disk, root, nodes, t, p, 0);
    if CheckOne(t, nodes, p) == Ready {
      RemoveShown(disk, root, t, p, PlaceOf(root, nodes, p));
    }
  }
}
