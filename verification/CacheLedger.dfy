/** The signed ledger row of one clipboard-cache object and the receipt a worker holds on it
    (internal/app/clipboard_cache_ledger.go, clipboard_cache_native.go). Encoding and signing are
    injective, so comparing two encoded rows is comparing two records. */
module CacheLedger {

  import opened CacheTree
  import opened Common
  import opened PortablePaths
  import opened Swapping

  const MAX_REVISION := 0xFFFF_FFFF_FFFF_FFFF

  datatype RecordState =
    | Receiving | Verified | Publishing | Published | Protected | Abandoned | Reclaimable | Deleting

  datatype Phase = Delegated | Quiescent(receipt: string)

  // What a delegation was signed for; the inventory stands for its injective digest.
  datatype Binding = Binding(run: nat, directory: string, stage: string, manifest: string, plan: string,
                             inventory: Inventory)

  datatype Native = Native(phase: Phase, binding: Binding)

  // An empty string is an absent field, as in the stored row.
  datatype Record = Record(
    id: string, run: nat, cache: string, directory: string, revision: nat, state: RecordState,
    manifest: string, stage: string, plan: string, parts: map<string, string>,
    isSealed: bool, cleanup: Inventory, native: Option<Native>)

  // ------------------------------------------------------------- validation

  function StageName(id: string): string {
    ".linksend-" + id
  }

  predicate RegisteredName(r: Record, name: Path, node: Node) {
    if name == [StageName(r.id)] then node.directory && node.identity == r.stage
    else if |name| > 1 && name[0] == StageName(r.id) then
      !node.directory && |name| == 2
      && (name[1] == "state.json" || (name[1] in r.parts && r.parts[name[1]] == node.identity))
    else ValidPath(name)
  }

  predicate ValidNode(r: Record, name: Path, node: Node) {
    && RegisteredName(r, name, node)
    && node.identity != "" && node.size >= 0 && (node.directory || node.modified != 0)
    && HasClosedAncestors(r.cleanup, name)
  }

  predicate ValidInventory(r: Record) {
    && |r.cleanup| <= MAX_NODES && (!r.isSealed ==> r.cleanup == map[])
    && (r.state in {Reclaimable, Deleting} ==> r.isSealed)
    && forall name {:trigger ValidNode(r, name, r.cleanup[name])} | name in r.cleanup ::
         ValidNode(r, name, r.cleanup[name])
  }

  /** validateClipboardCacheInventory: one pass over the nodes, each with a climb to the root. */
  method ValidateInventory(r: Record) returns (ok: bool)
    ensures ok <==> ValidInventory(r)
  {
    if |r.cleanup| > MAX_NODES || (!r.isSealed && |r.cleanup| != 0) {
      return false;
    }
    if r.state in {Reclaimable, Deleting} && !r.isSealed {
      return false;
    }
    var left := r.cleanup.Keys;
    while left != {}
      invariant left <= r.cleanup.Keys
      invariant forall name | name in r.cleanup.Keys - left :: ValidNode(r, name, r.cleanup[name])
      decreases left
    {
      var name :| name in left;
      var node := r.cleanup[name];
      if !RegisteredName(r, name, node) || name == [] || node.identity == "" || node.size < 0
         || (!node.directory && node.modified == 0) {
        assert !ValidNode(r, name, r.cleanup[name]);
        return false;
      }
      var k := |name| - 1;
      while k > 0
        invariant 0 <= k < |name|
        invariant forall j | k < j < |name| :: name[..j] in r.cleanup && r.cleanup[name[..j]].directory
      {
        if name[..k] !in r.cleanup || !r.cleanup[name[..k]].directory {
          assert !ValidNode(r, name, r.cleanup[name]);
          return false;
        }
        k := k - 1;
      }
      left := left - {name};
    }
    return true;
  }

  predicate ValidNative(r: Record) {
    r.native.None? ||
    (var n := r.native.value;
     && r.state in {Publishing, Published, Protected}
     && r.isSealed && r.cleanup != map[] && ValidInventory(r)
     && n.binding == Binding(r.run, r.directory, r.stage, r.manifest, r.plan, r.cleanup)
     && r.manifest != "" && r.plan != "")
  }

  // What a writer checks before it signs a row.
  predicate Encodable(r: Record) {
    ValidInventory(r) && ValidNative(r)
  }

  // What every reader checks besides the signature.
  predicate Decodable(r: Record) {
    && Encodable(r) && r.revision > 0 && r.cache != "" && r.directory != ""
    && (r.manifest == "" ==> r.stage == "" && r.plan == "" && r.parts == map[])
    && (r.state in {Verified, Publishing, Published, Protected} ==>
          r.manifest != "" && r.stage != "" && r.plan != "")
  }

  // The only authority a collector accepts.
  predicate Deletable(r: Record) {
    r.native.None? && r.isSealed && r.state in {Reclaimable, Deleting}
  }

  // ------------------------------------------------- compare-and-swap on the row

  type Row = Option<Record>

  function Swap(row: Row, expected: Record, next: Row, io: Io): (r: (Row, bool))
    ensures r.1 <==> row == Some(expected) && io != Rejected
  {
    if io == Rejected || row != Some(expected) then (row, false) else (next, true)
  }

  // -------------------------------------------------------- the worker's receipt

  datatype Held = Held(record: Record, nativeStarted: bool, inventory: Option<Inventory>)

  datatype Saved = Saved(held: Held, row: Row, ok: bool)

  predicate MaySave(record: Record, next: Record, epoch: nat) {
    && record.run == epoch && next.run == record.run
    && record.revision != MAX_REVISION && next.revision == record.revision + 1
    && next.native == record.native
    && Encodable(next)
  }

  function AfterSave(h: Held, row: Row, next: Record, epoch: nat, io: Io): Saved {
    if !MaySave(h.record, next, epoch) then Saved(h, row, false)
    else
      var (row', applied) := Swap(row, h.record, Some(next), io);
      if applied && io == Acknowledged && Decodable(next) then Saved(h.(record := next), row', true)
      else Saved(h, row', false)
  }

  function Bumped(r: Record): Record {
    r.(revision := r.revision + 1)
  }

  // A transfer's manifest: whose it is, its digest, and whether it validates.
  datatype Manifest = Manifest(transfer: string, digest: string, valid: bool)

  predicate Binds(r: Record, m: Manifest) {
    && r.state == Receiving && m.transfer == r.id && m.valid && m.digest != ""
    && (r.manifest == "" || r.manifest == m.digest)
  }

  function AfterManifest(h: Held, row: Row, m: Manifest, epoch: nat, io: Io): Saved {
    if !Binds(h.record, m) then Saved(h, row, false)
    else AfterSave(h, row, Bumped(h.record).(manifest := m.digest), epoch, io)
  }

  function AfterStage(h: Held, row: Row, stage: string, parts: map<string, string>, plan: string,
                      epoch: nat, io: Io): Saved
  {
    if h.record.manifest == "" || h.record.state != Receiving then Saved(h, row, false)
    else AfterSave(h, row, Bumped(h.record).(stage := stage, parts := parts, plan := plan), epoch, io)
  }

  predicate MayAdvance(h: Held, to: RecordState) {
    match h.record.state
    case Receiving =>
      (to == Verified && h.record.manifest != "" && h.record.stage != "" && h.record.plan != "") || to == Abandoned
    case Verified => to == Publishing || to == Abandoned
    case Publishing => if h.nativeStarted then to == Published || to == Protected else to == Abandoned
    case _ => false
  }

  function AfterAdvance(h: Held, row: Row, to: RecordState, epoch: nat, io: Io): Saved {
    if !MayAdvance(h, to) then Saved(h, row, false)
    else AfterSave(h, row, Bumped(h.record).(state := to), epoch, io)
  }

  predicate MayBeginNative(h: Held, epoch: nat) {
    h.record.run == epoch && h.record.state == Publishing && !h.nativeStarted && h.record.native.None?
  }

  predicate MayDiscard(h: Held, epoch: nat) {
    && !h.nativeStarted && h.record.native.None? && h.record.run == epoch
    && h.record.state in {Receiving, Verified, Publishing, Abandoned}
  }

  function Reclaimed(h: Held): Record {
    Bumped(h.record).(state := Reclaimable, isSealed := true,
                      cleanup := if h.inventory.Some? then h.inventory.value else map[])
  }

  predicate MayForget(h: Held, epoch: nat) {
    && h.record.run == epoch && !h.nativeStarted && h.record.native.None?
    && h.record.state !in {Published, Protected}
  }

  // What the receiving engine hands over while it still holds its storage. Files and directories are under
  // their names in the object; a committed file is a link of one of the engine's parts.
  datatype Link = Link(part: string, node: Node)

  datatype Storage = Storage(digest: string, peer: string, root: string, stage: string, limited: bool,
                             checkpoint: Option<Node>, parts: Inventory, directories: Inventory,
                             committed: map<Path, Link>)

  // The storage is the one this record was bound to.
  predicate Agrees(r: Record, peer: string, st: Storage) {
    && r.state == Receiving && st.digest == r.manifest && st.peer == peer
    && st.root == r.directory && st.stage == r.stage
  }

  // Reception without a later reclamation: by the engine's choice, or beyond the node bound.
  predicate LeftUnsealed(st: Storage) {
    st.limited || (st.checkpoint.Some? && 2 + |st.directories| + 2 * |st.parts| > MAX_NODES)
  }

  predicate PartOf(r: Record, part: string, node: Node) {
    part in r.parts && r.parts[part] == node.identity
  }

  // Every part is a registered one, every directory is one, and every committed file is a registered part.
  predicate EngineOwned(r: Record, st: Storage) {
    && st.checkpoint.Some?
    && (forall p | p in st.parts :: |p| == 2 && PartOf(r, p[1], st.parts[p]))
    && (forall p | p in st.directories :: st.directories[p].directory)
    && (forall p | p in st.committed :: PartOf(r, st.committed[p].part, st.committed[p].node))
  }

  function CommittedNodes(st: Storage): Inventory {
    map p | p in st.committed :: st.committed[p].node
  }

  function FixedNodes(r: Record, st: Storage): Inventory
    requires st.checkpoint.Some?
  {
    var stage := [StageName(r.id)];
    map[stage := Node(st.stage, true, 0, 0), stage + ["state.json"] := st.checkpoint.value]
  }

  function StorageNodes(r: Record, st: Storage): Inventory
    requires st.checkpoint.Some?
  {
    FixedNodes(r, st) + st.parts + st.directories + CommittedNodes(st)
  }

  // The two signed intents of discardUnpublished; the second is written only on top of the first.
  function AfterIntents(h: Held, row: Row, epoch: nat, first: Io, second: Io): Saved {
    var reclaim := AfterSave(h, row, Reclaimed(h), epoch, first);
    if !reclaim.ok then reclaim
    else AfterSave(reclaim.held, reclaim.row, Bumped(reclaim.held.record).(state := Deleting), epoch, second)
  }

  // sealNativeDelegation after its own checks of roots, tree and launch proof.
  predicate MaySeal(h: Held, epoch: nat) {
    && !h.nativeStarted && h.record.run == epoch && h.record.state == Verified && h.record.native.None?
    && h.inventory.Some? && h.inventory.value != map[] && h.record.revision != MAX_REVISION
  }

  function Delegation(h: Held): Record
    requires h.inventory.Some?
  {
    var r := h.record;
    var binding := Binding(r.run, r.directory, r.stage, r.manifest, r.plan, h.inventory.value);
    Bumped(r).(state := Publishing, isSealed := true, cleanup := h.inventory.value,
               native := Some(Native(Delegated, binding)))
  }

  function AfterSeal(h: Held, row: Row, epoch: nat, io: Io): Saved {
    if !MaySeal(h, epoch) || !Encodable(Delegation(h)) then Saved(h, row, false)
    else
      var next := Delegation(h);
      var (row', applied) := Swap(row, h.record, Some(next), io);
      // The transaction reads its own row back, so an undecodable row is rolled back.
      if applied && !Decodable(next) then Saved(h, row, false)
      else if applied && io == Acknowledged then Saved(h.(record := next), row', true)
      else Saved(h, row', false)
  }

  // consumeCacheNativeReceipt: a later process records the helper's close claim, nothing else.
  function AfterReceipt(row: Row, receipt: string, io: Io): Row {
    if row.None? || row.value.native.None? || !row.value.native.value.phase.Delegated?
       || row.value.revision == MAX_REVISION || !Decodable(row.value) || receipt == "" then row
    else
      var r := row.value;
      Swap(row, r, Some(Bumped(r).(native := Some(r.native.value.(phase := Quiescent(receipt))))), io).0
  }

  // ------------------------------------------------------------------ classes

  class Store {
    var rows: map<string, Record>

    constructor ()
      ensures rows == map[]
    {
      rows := map[];
    }

    function Row(id: string): Row
      reads this
    {
      if id in rows then Some(rows[id]) else None
    }

    method Update(id: string, expected: Record, next: Record, io: Io) returns (applied: bool)
      modifies this
      ensures (Row(id), applied) == Swap(old(Row(id)), expected, Some(next), io)
      ensures forall other | other != id :: Row(other) == old(Row(other))
    {
      applied := io != Rejected && Row(id) == Some(expected);
      if applied {
        rows := rows[id := next];
      }
    }

    method Delete(id: string, expected: Record, io: Io) returns (applied: bool)
      modifies this
      ensures (Row(id), applied) == Swap(old(Row(id)), expected, None, io)
      ensures forall other | other != id :: Row(other) == old(Row(other))
    {
      applied := io != Rejected && Row(id) == Some(expected);
      if applied {
        rows := rows - {id};
      }
    }
  }

  class Receipt {
    const store: Store
    const epoch: nat
    var record: Record
    var nativeStarted: bool
    var inventory: Option<Inventory>

    // registerClipboardCache after the row was inserted and read back.
    constructor (store: Store, epoch: nat, record: Record)
      ensures this.store == store && this.epoch == epoch
      ensures Value() == Held(record, false, None)
    {
      this.store, this.epoch, this.record := store, epoch, record;
      nativeStarted, inventory := false, None;
    }

    function Value(): Held
      reads this
    {
      Held(record, nativeStarted, inventory)
    }

    /** A receipt of another run, a skipped revision or a changed authorization writes nothing; an
        unacknowledged write leaves the receipt behind the row. */
    method Save(next: Record, io: Io) returns (ok: bool)
      requires next.id == record.id
      modifies this`record, store
      ensures Saved(Value(), store.Row(next.id), ok)
              == AfterSave(old(Value()), old(store.Row(next.id)), next, epoch, io)
      ensures old(record).run != epoch || next.revision != old(record).revision + 1
              || next.native != old(record).native
              ==> !ok && store.Row(next.id) == old(store.Row(next.id)) && record == old(record)
      ensures ok ==> old(store.Row(next.id)) == Some(old(record)) && record == next
                     && store.Row(next.id) == Some(next) && Decodable(next)
      ensures forall other | other != next.id :: store.Row(other) == old(store.Row(other))
    {
      ok := false;
      if record.run != epoch || next.run != record.run || record.revision == MAX_REVISION
         || next.revision != record.revision + 1 || next.native != record.native {
        return;
      }
      var valid := ValidateInventory(next);
      if !valid || !ValidNative(next) {
        return;
      }
      var applied := store.Update(next.id, record, next, io);
      if applied && io == Acknowledged && Decodable(next) {
        record := next;
        ok := true;
      }
    }

    method Advance(to: RecordState, io: Io) returns (ok: bool)
      modifies this`record, store
      ensures Saved(Value(), store.Row(old(record).id), ok)
              == AfterAdvance(old(Value()), old(store.Row(record.id)), to, epoch, io)
      ensures forall other | other != old(record).id :: store.Row(other) == old(store.Row(other))
    {
      ok := false;
      if MayAdvance(Value(), to) {
        ok := Save(Bumped(record).(state := to), io);
      }
    }

    method BindManifest(m: Manifest, io: Io) returns (ok: bool)
      modifies this`record, store
      ensures Saved(Value(), store.Row(old(record).id), ok)
              == AfterManifest(old(Value()), old(store.Row(record.id)), m, epoch, io)
      ensures ok ==> m.transfer == record.id && m.valid
                     && record.manifest == m.digest && store.Row(record.id) == Some(record) && Decodable(record)
      ensures old(record).manifest != "" ==> record.manifest == old(record).manifest
      ensures old(record).state != Receiving || m.transfer != old(record).id || !m.valid
              || (old(record).manifest != "" && m.digest != old(record).manifest) ==>
                !ok && store.Row(record.id) == old(store.Row(record.id)) && record == old(record)
      ensures forall other | other != old(record).id :: store.Row(other) == old(store.Row(other))
    {
      ok := false;
      if record.state != Receiving || m.transfer != record.id || !m.valid || m.digest == "" {
        return;
      }
      if record.manifest == "" || record.manifest == m.digest {
        ok := Save(Bumped(record).(manifest := m.digest), io);
      }
    }

    /** captureClosingStorage: an inventory is taken only from the very storage this receipt was bound to, only
        of what the engine owns, and only if it is exactly what lies in the object. A storage that is too large
        or limited is received without one. */
    method CaptureClosingStorage(peer: string, st: Storage, tree: Tree) returns (ok: bool)
      requires WellFormed(tree) && |st.committed| <= |st.parts|
      modifies this`inventory
      ensures !Agrees(record, peer, st) ==> !ok
      ensures Agrees(record, peer, st) && LeftUnsealed(st) ==> ok && inventory == old(inventory)
      ensures Agrees(record, peer, st) && !LeftUnsealed(st) ==>
                (ok <==> EngineOwned(record, st) && Approved(tree, StorageNodes(record, st))
                         && tree.Keys == StorageNodes(record, st).Keys)
      ensures inventory != old(inventory) ==>
                ok && inventory == Some(StorageNodes(record, st))
                && ParentClosed(inventory.value) && |inventory.value| <= MAX_NODES
      ensures ok && !LeftUnsealed(st) ==> inventory == Some(StorageNodes(record, st))
    {
      if !Agrees(record, peer, st) {
        return false;
      }
      if st.limited {
        return true;
      }
      if st.checkpoint.None? {
        return false;
      }
      FixedSize(record, st);
      var captured, nodes := CaptureInventory(FixedNodes(record, st), st.parts, st.directories, CommittedNodes(st));
      if !captured {
        return true;
      }
      if !EngineOwned(record, st) {
        return false;
      }
      ok := TakeInventory(nodes, tree);
    }

    // The final check of captureClosingStorage.
    method TakeInventory(nodes: Inventory, tree: Tree) returns (ok: bool)
      requires WellFormed(tree) && |nodes| <= MAX_NODES
      modifies this`inventory
      ensures ok <==> Approved(tree, nodes) && tree.Keys == nodes.Keys
      ensures inventory == if ok then Some(nodes) else old(inventory)
      ensures ok ==> ParentClosed(nodes)
    {
      var check := new TreeCheck(tree, nodes);
      ok := check.Check(false);
      if ok {
        CheckedInventoryIsClosed(tree, nodes);
        inventory := Some(nodes);
      } else {
        assert tree.Keys == nodes.Keys ==> |tree| == |tree.Keys| == |nodes.Keys| == |nodes|;
      }
    }

    // Only marks this worker; the proof of a native write is never inferred after a restart.
    method BeginNative() returns (ok: bool)
      modifies this`nativeStarted
      ensures ok <==> MayBeginNative(old(Value()), epoch)
      ensures Value() == old(Value()).(nativeStarted := ok || old(nativeStarted))
      ensures ok ==> !MayBeginNative(Value(), epoch) && !MayDiscard(Value(), epoch) && !MayForget(Value(), epoch)
      ensures ok ==> MayAdvance(Value(), Published) && MayAdvance(Value(), Protected)
                     && !MayAdvance(Value(), Abandoned)
    {
      ok := record.run == epoch && record.state == Publishing && !nativeStarted && record.native.None?;
      if ok {
        nativeStarted := true;
      }
    }

    method ForgetRemoved(objectExists: bool, io: Io) returns (ok: bool)
      modifies store
      ensures store.Row(record.id) ==
              if MayForget(Value(), epoch) && !objectExists then Swap(old(store.Row(record.id)), record, None, io).0
              else old(store.Row(record.id))
      ensures ok ==> store.Row(record.id).None?
      ensures forall other | other != record.id :: store.Row(other) == old(store.Row(other))
    {
      ok := false;
      if MayForget(Value(), epoch) && !objectExists {
        ok := store.Delete(record.id, record, io);
      }
    }

    // The two intents of discardUnpublished.
    method WriteIntents(first: Io, second: Io) returns (ok: bool)
      modifies this`record, store
      ensures Saved(Value(), store.Row(old(record).id), ok)
              == AfterIntents(old(Value()), old(store.Row(record.id)), epoch, first, second)
      ensures record.id == old(record).id
      ensures forall other | other != record.id :: store.Row(other) == old(store.Row(other))
    {
      ok := Save(Reclaimed(Value()), first);
      if ok {
        ok := Save(Bumped(record).(state := Deleting), second);
      }
    }

    /** discardUnpublished: an object that ever began a native write, or that is not empty and has no
        inventory, is refused before any row is written. The object itself is touched only after both
        intents were read back, and its name is removed only when nothing is left in it. */
    method DiscardUnpublished(root: CacheRoot, first: Io, second: Io, stopAt: nat) returns (ok: bool)
      requires WellFormed(root.tree)
      modifies this`record, store, root
      ensures WellFormed(root.tree) && record.id == old(record).id
      ensures forall other | other != record.id :: store.Row(other) == old(store.Row(other))
      ensures !MayDiscard(old(Value()), epoch) || (old(inventory).None? && old(root.tree) != map[]) ==>
        !ok && record == old(record) && root.tree == old(root.tree) && root.named == old(root.named)
        && store.Row(record.id) == old(store.Row(record.id))
      ensures MayDiscard(old(Value()), epoch) && (old(inventory).Some? || old(root.tree) == map[]) ==>
        var intents := AfterIntents(old(Value()), old(store.Row(record.id)), epoch, first, second);
        && Value() == intents.held && store.Row(record.id) == intents.row
        && (root.tree != old(root.tree) || root.named != old(root.named) ==>
              intents.ok && Approved(old(root.tree), record.cleanup))
        && (ok <==> intents.ok && old(root.named) && CheckPasses(old(root.tree), record.cleanup)
                    && |record.cleanup| <= stopAt)
      ensures ok || root.named != old(root.named) ==> root.tree == map[] && !root.named
    {
      ok := MayTouch(root);
      if !ok {
        return;
      }
      ok := WriteIntents(first, second);
      if !ok {
        return;
      }
      IntentsAreAuthority(old(Value()), old(store.Row(record.id)), epoch, first, second);
      ok := Erase(root, stopAt);
    }

    // Before the first intent: without an inventory only a genuinely empty object is safe.
    method MayTouch(root: CacheRoot) returns (ok: bool)
      requires WellFormed(root.tree)
      ensures ok <==> MayDiscard(Value(), epoch) && (inventory.Some? || root.tree == map[])
    {
      ok := MayDiscard(Value(), epoch);
      if ok && inventory.None? {
        var empty := new TreeCheck(root.tree, map[]);
        ok := empty.Check(false);
        EmptyInventory(root.tree);
      }
    }

    // After both intents: the entries, then the name.
    method Erase(root: CacheRoot, stopAt: nat) returns (ok: bool)
      requires WellFormed(root.tree) && ParentClosed(record.cleanup)
      modifies root
      ensures WellFormed(root.tree)
      ensures root.tree != old(root.tree) || root.named != old(root.named) ==>
                Approved(old(root.tree), record.cleanup)
      ensures ok <==> old(root.named) && CheckPasses(old(root.tree), record.cleanup) && |record.cleanup| <= stopAt
      ensures ok || root.named != old(root.named) ==> root.tree == map[] && !root.named
    {
      var result := root.RemoveTree(record.cleanup, stopAt);
      if result != Finished {
        return false;
      }
      ok := root.RemoveName();
    }
  }

  // ------------------------------------------------------------------- lemmas

  lemma EmptyInventory(t: Tree)
    ensures (Approved(t, map[]) && |t| <= MAX_NODES && t.Keys == {}) <==> t == map[]
  {
    if t != map[] {
      var p :| p in t;
    }
  }

  lemma FixedSize(r: Record, st: Storage)
    requires st.checkpoint.Some?
    ensures |FixedNodes(r, st)| == 2 && |CommittedNodes(st)| == |st.committed|
  {
    var stage := [StageName(r.id)];
    assert FixedNodes(r, st).Keys == {stage, stage + ["state.json"]};
    assert |stage + ["state.json"]| == 2;
    assert CommittedNodes(st).Keys == st.committed.Keys;
    assert |CommittedNodes(st).Keys| == |CommittedNodes(st)| && |st.committed.Keys| == |st.committed|;
  }

  // Both intents written and read back: the row itself now grants the deletion.
  lemma IntentsAreAuthority(h: Held, row: Row, epoch: nat, first: Io, second: Io)
    requires MayDiscard(h, epoch) && AfterIntents(h, row, epoch, first, second).ok
    ensures var s := AfterIntents(h, row, epoch, first, second);
            && s.row == Some(s.held.record) && Decodable(s.held.record) && Deletable(s.held.record)
            && s.held.record.state == Deleting && ParentClosed(s.held.record.cleanup)
            && s.held.record.directory == h.record.directory && row == Some(h.record)
  {
    var r := AfterIntents(h, row, epoch, first, second).held.record;
    forall p | p in r.cleanup
      ensures HasClosedAncestors(r.cleanup, p)
    {
      assert ValidNode(r, p, r.cleanup[p]);
    }
  }
}
