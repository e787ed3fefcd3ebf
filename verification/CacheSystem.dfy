/** The clipboard cache as a transition system: receiving workers, the background collector, crashes,
    failed and unacknowledged row writes, and anyone else touching the directories. A step acts for one
    object on the one disk; a restart clears every worker and collector and begins a new run. Every removal is
    several steps, the opening of each ancestor, a check and an unlink by name, and anything may happen
    between them. */
module CacheSystem {

  import opened CacheDisk
  import opened CacheLedger
  import opened CacheTree
  import opened Common
  import opened Swapping

  // An authority being carried out: the names in removal order and how far it got. Behind the last of them
  // comes the name of the object directory itself.
  datatype Eraser = Eraser(record: Record, names: seq<Path>, at: nat, armed: Armed)

  datatype Worker =
    | NoReceipt(cache: DirId, handle: DirId, armed: Armed)
    | Busy(held: Held)           // registered, receiving, verified or about to publish
    | Writing(held: Held)        // the native adapter has seen the paths
    | Concluding(held: Held, published: bool)
    | Discarding(held: Held)     // first intent not yet tried
    | Condemned(held: Held)      // first intent read back, second not yet tried
    | Erasing(held: Held, eraser: Eraser)
    | Forgetting(held: Held)     // the object directory is gone
    | Abandoning(held: Held)

  datatype Collector =
    | Marking(record: Record, present: bool)
    | Sweeping(eraser: Eraser)
    | Dropping(record: Record)

  datatype Cell = Cell(
    row: Row,
    worker: Option<Worker>,
    collector: Option<Collector>,
    exposed: set<DirId>)        // history: native publication may have begun

  datatype Act =
    | Make(cache: DirId, handle: DirId)
    | Open(cache: DirId, handle: DirId)
    | Register(record: Record, io: Io)
    | Bind(manifest: Manifest, io: Io)
    | Stage(stage: string, parts: map<string, string>, plan: string, io: Io)
    | Capture(nodes: Inventory)
    | Move(to: RecordState, io: Io)
    | Seal(io: Io)
    | Begin
    | Wrote(published: bool)
    | Conclude(io: Io)
    | GiveUp
    | FirstIntent(io: Io)
    | SecondIntent(names: seq<Path>, passed: bool, io: Io)
    | EraseCheck
    | EraseUnlink
    | ForgetRow(io: Io)
    | Abandon(io: Io)
    | Leave
    | Collect
    | Mark(names: seq<Path>, passed: bool, io: Io)
    | SweepCheck
    | SweepUnlink
    | DropRow(io: Io)
    | StopCollecting
    | Consume(receipt: string, io: Io)

  ghost predicate RemovalOrder(names: seq<Path>, nodes: Inventory) {
    DeepestFirst(names) && Elements(names) == nodes.Keys
  }

  predicate NativeRow(row: Row) {
    row.Some? && row.value.native.Some?
  }

  // ------------------------------------------------------- checking and unlinking

  datatype Progress = Going(eraser: Eraser) | NameRemoved | Stopped

  // The slot the engine is at: a registered name's, or at last the object's own.
  function TargetOf(e: Eraser, id: string): Slot {
    if e.at < |e.names| then PlaceOf(e.record.directory, e.record.cleanup, e.names[e.at]) else Slot(e.record.cache, id)
  }

  // What the check of that slot looks for.
  function Sought(e: Eraser): Entry {
    if e.at >= |e.names| then DirEntry(e.record.directory)
    else if e.names[e.at] in e.record.cleanup then Plain(e.record.cleanup[e.names[e.at]])
    else Foreign
  }

  // One step towards the next unlink: a missing entry is skipped, a missing object name is an error.
  function CheckNext(disk: Disk, id: string, e: Eraser): Progress {
    if e.armed.Checked? then Going(e)
    else if e.at >= |e.names| then
      if In(disk, TargetOf(e, id)) == Some(DirEntry(e.record.directory)) then Going(e.(armed := Checked(false)))
      else Stopped
    else
      match AdvanceOne(disk, e.record.directory, e.record.cleanup, e.names[e.at], e.armed)
      case Onward(armed) => Going(e.(armed := armed))
      case Skipped => Going(e.(at := e.at + 1, armed := Opening(0)))
      case Stuck => Stopped
  }

  // The unlink, by name, of what was checked.
  function UnlinkNext(disk: Disk, id: string, e: Eraser): Progress {
    if e.armed.Opening? then Going(e)
    else
      var how := Remove(disk, TargetOf(e, id)).1;
      if e.at >= |e.names| then if how == Removed then NameRemoved else Stopped
      else if how == NotEmpty then Stopped
      else Going(e.(at := e.at + 1, armed := Opening(0)))
  }

  function NoteEraser(before: Disk, after: Disk, id: string, e: Eraser): Eraser {
    e.(armed := NoteArmed(e.armed, PutInto(before, after, TargetOf(e, id))))
  }

  function NoteWorker(before: Disk, after: Disk, id: string, w: Worker): Worker {
    match w
    case NoReceipt(cache, d, armed) =>
      NoReceipt(cache, d, NoteArmed(armed, PutInto(before, after, Slot(cache, id))))
    case Erasing(h, e) => Erasing(h, NoteEraser(before, after, id, e))
    case _ => w
  }

  function NoteCollector(before: Disk, after: Disk, id: string, k: Collector): Collector {
    if k.Sweeping? then Sweeping(NoteEraser(before, after, id, k.eraser)) else k
  }

  // Records, at every check that is under way, what came into the checked place.
  function Noted(c: Cell, id: string, before: Disk, after: Disk): Cell {
    c.(worker := if c.worker.Some? then Some(NoteWorker(before, after, id, c.worker.value)) else None,
       collector := if c.collector.Some? then Some(NoteCollector(before, after, id, c.collector.value)) else None)
  }

  // What a step is about to unlink, what its check had found there, and whether something came there since.
  datatype Aim = Aim(slot: Slot, sought: Entry, swapped: bool)

  function EraserAim(e: Eraser, id: string): Option<Aim> {
    if e.armed.Checked? then Some(Aim(TargetOf(e, id), Sought(e), e.armed.swapped)) else None
  }

  function AimOf(c: Cell, id: string, a: Act): Option<Aim> {
    if a.EraseUnlink? && c.worker.Some? && c.worker.value.Erasing? then EraserAim(c.worker.value.eraser, id)
    else if a.EraseUnlink? && c.worker.Some? && c.worker.value.NoReceipt? && c.worker.value.armed.Checked? then
      Some(Aim(Slot(c.worker.value.cache, id), DirEntry(c.worker.value.handle), c.worker.value.armed.swapped))
    else if a.SweepUnlink? && c.collector.Some? && c.collector.value.Sweeping? then
      EraserAim(c.collector.value.eraser, id)
    else None
  }

  // A worker makes a new directory only where there is none.
  predicate Makes(c: Cell, id: string, disk: Disk, a: Act) {
    a.Make? && c.worker.None? && In(disk, Slot(a.cache, id)).None? && Listing(disk, a.handle) == map[]
  }

  // All that a step does to the disk.
  function DiskAfter(c: Cell, id: string, disk: Disk, a: Act): Disk {
    if Makes(c, id, disk, a) then Set(disk, Slot(a.cache, id), DirEntry(a.handle))
    else if AimOf(c, id, a).Some? then Remove(disk, AimOf(c, id, a).value.slot).0
    else disk
  }

  // ----------------------------------------------------------------- the worker

  // A failed step of receiveClipboardFiles runs the deferred cleanup.
  function Settle(c: Cell, s: Saved): Cell {
    c.(row := s.row, worker := Some(if s.ok then Busy(s.held) else Discarding(s.held)))
  }

  // The directory just made is opened, or whatever empty one has taken its place.
  function Opened(c: Cell, id: string, disk: Disk, cache: DirId, d: DirId): Cell {
    if c.worker.None? && In(disk, Slot(cache, id)) == Some(DirEntry(d)) && Listing(disk, d) == map[]
    then c.(worker := Some(NoReceipt(cache, d, Opening(0)))) else c
  }

  // No row yet: register the directory once no collector is at work, or take it away.
  function NoReceiptStep(c: Cell, id: string, disk: Disk, epoch: nat, a: Act): (c': Cell)
    requires c.worker.Some? && c.worker.value.NoReceipt?
    ensures c'.exposed == c.exposed && c'.collector == c.collector
    ensures c'.row != c.row ==> c.row.None? && c.collector.None?
  {
    var w := c.worker.value;
    match a
    case Register(r, io) =>
      if r.run != epoch || r.id != id || r.cache != w.cache || r.directory != w.handle || r.state != Receiving
         || r.native.Some? || r.revision != 1 || !Decodable(r) || c.row.Some? || c.collector.Some? || io == Rejected
      then c
      else if io == Acknowledged then c.(row := Some(r), worker := Some(Busy(Held(r, false, None))))
      else c.(row := Some(r))
    case EraseCheck =>
      c.(worker := if In(disk, Slot(w.cache, id)) == Some(DirEntry(w.handle)) then Some(w.(armed := Checked(false)))
                   else None)
    case EraseUnlink => if w.armed.Opening? then c else c.(worker := None)
    case Leave => c.(worker := None)
    case _ => c
  }

  function BusyStep(c: Cell, h: Held, epoch: nat, a: Act): (c': Cell)
    ensures c'.collector == c.collector && c.exposed <= c'.exposed
  {
    match a
    case Bind(m, io) => Settle(c, AfterManifest(h, c.row, m, epoch, io))
    case Stage(stage, parts, plan, io) => Settle(c, AfterStage(h, c.row, stage, parts, plan, epoch, io))
    case Move(to, io) => if to in {Verified, Publishing} then Settle(c, AfterAdvance(h, c.row, to, epoch, io)) else c
    case Capture(nodes) =>
      if h.record.state == Receiving then c.(worker := Some(Busy(h.(inventory := Some(nodes))))) else c
    case Seal(io) =>
      var s := AfterSeal(h, c.row, epoch, io);
      Settle(c, s).(exposed := if s.row != c.row then c.exposed + {h.record.directory} else c.exposed)
    case Begin =>
      if MayBeginNative(h, epoch)
      then c.(worker := Some(Writing(h.(nativeStarted := true))), exposed := c.exposed + {h.record.directory})
      else c.(worker := Some(Discarding(h)))
    case GiveUp => c.(worker := Some(Discarding(h)))
    case _ => c
  }

  // A worker past its native write always concludes before it leaves.
  function ConcludingStep(c: Cell, h: Held, published: bool, epoch: nat, a: Act): (c': Cell)
    ensures c'.exposed == c.exposed && c'.collector == c.collector
  {
    match a
    case Conclude(io) =>
      c.(row := AfterAdvance(h, c.row, if published then Published else Protected, epoch, io).row, worker := None)
    case _ => c
  }

  function DiscardingStep(c: Cell, disk: Disk, h: Held, epoch: nat, a: Act): (c': Cell)
    ensures c'.exposed == c.exposed && c'.collector == c.collector
  {
    match a
    case FirstIntent(io) =>
      if !MayDiscard(h, epoch) || (h.inventory.None? && Listing(disk, h.record.directory) != map[])
      then c.(worker := Some(Abandoning(h)))
      else
        var s := AfterSave(h, c.row, Reclaimed(h), epoch, io);
        c.(row := s.row, worker := Some(if s.ok then Condemned(s.held) else Abandoning(s.held)))
    case Leave => c.(worker := None)
    case _ => c
  }

  // The check of the whole tree takes time, so others may spoil it or help it: passed is its verdict.
  ghost function CondemnedStep(c: Cell, h: Held, epoch: nat, a: Act): (c': Cell)
    ensures c'.exposed == c.exposed && c'.collector == c.collector
  {
    match a
    case SecondIntent(names, passed, io) =>
      var s := AfterSave(h, c.row, Bumped(h.record).(state := Deleting), epoch, io);
      if s.ok && RemovalOrder(names, s.held.record.cleanup) && passed
      then c.(row := s.row, worker := Some(Erasing(s.held, Eraser(s.held.record, names, 0, Opening(0)))))
      else c.(row := s.row, worker := None)
    case Leave => c.(worker := None)
    case _ => c
  }

  function WorkerProgress(h: Held, p: Progress): Option<Worker> {
    match p
    case Going(e) => Some(Erasing(h, e))
    case NameRemoved => Some(Forgetting(h))
    case Stopped => None
  }

  function ErasingStep(c: Cell, id: string, disk: Disk, h: Held, e: Eraser, a: Act): (c': Cell)
    ensures c'.row == c.row && c'.exposed == c.exposed && c'.collector == c.collector
  {
    match a
    case EraseCheck => c.(worker := WorkerProgress(h, CheckNext(disk, id, e)))
    case EraseUnlink => c.(worker := WorkerProgress(h, UnlinkNext(disk, id, e)))
    case Leave => c.(worker := None)
    case _ => c
  }

  function ForgettingStep(c: Cell, id: string, disk: Disk, h: Held, epoch: nat, a: Act): (c': Cell)
    ensures c'.exposed == c.exposed && c'.collector == c.collector
  {
    match a
    case ForgetRow(io) =>
      if MayForget(h, epoch) && In(disk, Slot(h.record.cache, id)).None?
      then c.(row := Swap(c.row, h.record, None, io).0, worker := None)
      else c.(worker := None)
    case Leave => c.(worker := None)
    case _ => c
  }

  function AbandoningStep(c: Cell, h: Held, epoch: nat, a: Act): (c': Cell)
    ensures c'.exposed == c.exposed && c'.collector == c.collector
  {
    match a
    case Abandon(io) => c.(row := AfterAdvance(h, c.row, Abandoned, epoch, io).row, worker := None)
    case Leave => c.(worker := None)
    case _ => c
  }

  ghost function WorkerStep(c: Cell, id: string, disk: Disk, epoch: nat, a: Act): Cell
    requires c.worker.Some?
  {
    match c.worker.value
    case NoReceipt(_, _, _) => NoReceiptStep(c, id, disk, epoch, a)
    case Busy(h) => BusyStep(c, h, epoch, a)
    case Writing(h) => if a.Wrote? then c.(worker := Some(Concluding(h, a.published))) else c
    case Concluding(h, published) => ConcludingStep(c, h, published, epoch, a)
    case Discarding(h) => DiscardingStep(c, disk, h, epoch, a)
    case Condemned(h) => CondemnedStep(c, h, epoch, a)
    case Erasing(h, e) => ErasingStep(c, id, disk, h, e, a)
    case Forgetting(h) => ForgettingStep(c, id, disk, h, epoch, a)
    case Abandoning(h) => AbandoningStep(c, h, epoch, a)
  }

  // -------------------------------------------------------------- the collector

  // openRecordedClipboardCache: in the recorded cache directory the name is gone or leads to the recorded one.
  predicate MayOpenRecorded(disk: Disk, id: string, r: Record) {
    In(disk, Slot(r.cache, id)) in {None, Some(DirEntry(r.directory))}
  }

  // The row as the collector leaves it before any removal: "deleting", one revision up if it was not.
  function Marked(r: Record): Record {
    if r.state == Deleting then r else Bumped(r).(state := Deleting)
  }

  ghost function MarkingStep(c: Cell, r: Record, present: bool, a: Act): (c': Cell)
    requires a.Mark?
    ensures c'.exposed == c.exposed && c'.worker == c.worker
    ensures NativeRow(c.row) && r.native.None? ==> c'.row == c.row
  {
    var next := Marked(r);
    if r.state == Deleting then c.(collector := Condemn(next, present, a.names, a.passed))
    else if r.revision == MAX_REVISION || !Encodable(next) then c.(collector := None)
    else
      var (row, applied) := Swap(c.row, r, Some(next), a.io);
      c.(row := row,
         collector := if applied && a.io == Acknowledged then Condemn(next, present, a.names, a.passed) else None)
  }

  // With the row marked: sweep the directory if it passes the check, or only drop the row if it is gone.
  ghost function Condemn(r: Record, present: bool, names: seq<Path>, passed: bool): Option<Collector> {
    if !present then Some(Dropping(r))
    else if RemovalOrder(names, r.cleanup) && passed then Some(Sweeping(Eraser(r, names, 0, Opening(0))))
    else None
  }

  function CollectorProgress(r: Record, p: Progress): Option<Collector> {
    match p
    case Going(e) => Some(Sweeping(e))
    case NameRemoved => Some(Dropping(r))
    case Stopped => None
  }

  function SweepingStep(c: Cell, id: string, disk: Disk, e: Eraser, a: Act): (c': Cell)
    ensures c'.row == c.row && c'.exposed == c.exposed && c'.worker == c.worker
  {
    match a
    case SweepCheck => c.(collector := CollectorProgress(e.record, CheckNext(disk, id, e)))
    case SweepUnlink => c.(collector := CollectorProgress(e.record, UnlinkNext(disk, id, e)))
    case StopCollecting => c.(collector := None)
    case _ => c
  }

  ghost function CollectorStep(c: Cell, id: string, disk: Disk, a: Act): Cell
    requires c.collector.Some?
  {
    match c.collector.value
    case Marking(r, present) =>
      if a.Mark? then MarkingStep(c, r, present, a)
      else if a.StopCollecting? then c.(collector := None) else c
    case Sweeping(e) => SweepingStep(c, id, disk, e, a)
    case Dropping(r) =>
      if a.DropRow? then c.(row := Swap(c.row, r, None, a.io).0, collector := None)
      else if a.StopCollecting? then c.(collector := None) else c
  }

  // ------------------------------------------------------------------ one object

  predicate CollectorAct(a: Act) {
    a.Mark? || a.SweepCheck? || a.SweepUnlink? || a.DropRow? || a.StopCollecting?
  }

  // No receipt is held on the object: a directory may exist, but nobody has acquired its identifier.
  predicate Unclaimed(c: Cell) {
    c.worker.None? || c.worker.value.NoReceipt?
  }

  // The directory is made and opened before anything is acquired, so a collector may be at work.
  ghost function Apply(c: Cell, id: string, disk: Disk, epoch: nat, a: Act): Cell {
    if a.Make? then c
    else if a.Open? then Opened(c, id, disk, a.cache, a.handle)
    else if a.Collect? || a.Consume? then IdleStep(c, id, disk, a)
    else if CollectorAct(a) then (if c.collector.Some? then CollectorStep(c, id, disk, a) else c)
    else if c.worker.Some? then WorkerStep(c, id, disk, epoch, a)
    else c
  }

  function IdleStep(c: Cell, id: string, disk: Disk, a: Act): (c': Cell)
    ensures c'.exposed == c.exposed && c'.worker == c.worker
  {
    if c.collector.Some? || !Unclaimed(c) then c
    else
      match a
      case Collect =>
        if c.row.None? || !Decodable(c.row.value) || !Deletable(c.row.value)
           || !MayOpenRecorded(disk, id, c.row.value)
        then c
        else c.(collector := Some(Marking(c.row.value, In(disk, Slot(c.row.value.cache, id)).Some?)))
      case Consume(receipt, io) => c.(row := AfterReceipt(c.row, receipt, io))
      case _ => c
  }

  const EMPTY: Cell := Cell(None, None, None, {})

  function Restarted(c: Cell): Cell {
    c.(worker := None, collector := None)
  }

  // --------------------------------------------------------------- the invariant

  // An exposed directory keeps its row, and the row stays in a protected state.
  predicate Shielded(row: Row, d: DirId) {
    && row.Some? && row.value.directory == d && !Deletable(row.value)
    && row.value.state in {Publishing, Published, Protected}
  }

  predicate Unexposed(c: Cell, h: Held) {
    h.record.directory in c.exposed ==> h.record.native.Some? || NativeRow(c.row)
  }

  // If nothing came into a checked place since, what lies there is what the check had found.
  predicate Kept(disk: Disk, aim: Aim) {
    !aim.swapped ==> In(disk, aim.slot) in {None, Some(aim.sought)}
  }

  predicate EraserInv(c: Cell, id: string, disk: Disk, e: Eraser) {
    && Deletable(e.record) && c.row == Some(e.record)
    && (e.armed.Checked? ==>
          Kept(disk, EraserAim(e, id).value) && (e.at < |e.names| ==> e.names[e.at] in e.record.cleanup))
  }

  predicate WorkerInv(c: Cell, id: string, disk: Disk, w: Worker) {
    && (w.NoReceipt? && w.armed.Checked? ==>
          Kept(disk, Aim(Slot(w.cache, id), DirEntry(w.handle), w.armed.swapped)))
    && (w.Busy? ==> c.row == Some(w.held.record) && !w.held.nativeStarted
                    && Decodable(w.held.record) && !Deletable(w.held.record))
    && (w.Writing? || w.Concluding? ==> w.held.nativeStarted)
    && (w.Busy? || w.Discarding? || w.Abandoning? ==>
          !w.held.nativeStarted && Unexposed(c, w.held)
          && (w.held.record.native.Some? ==> Encodable(w.held.record)))
    && (w.Condemned? || w.Erasing? || w.Forgetting? ==> c.row == Some(w.held.record) && Deletable(w.held.record))
    && (w.Erasing? ==> w.eraser.record == w.held.record && EraserInv(c, id, disk, w.eraser))
  }

  predicate CollectorInv(c: Cell, id: string, disk: Disk, k: Collector) {
    match k
    case Marking(r, present) => Deletable(r) && c.row == Some(r)
    case Sweeping(e) => EraserInv(c, id, disk, e)
    case Dropping(r) => Deletable(r) && c.row == Some(r)
  }

  // A collector and a receipt never meet on one object; a directory without a receipt may appear meanwhile.
  ghost predicate CellInv(c: Cell, id: string, disk: Disk) {
    && (forall d | d in c.exposed :: Shielded(c.row, d))
    && (c.worker.Some? ==> WorkerInv(c, id, disk, c.worker.value))
    && (c.collector.Some? ==> CollectorInv(c, id, disk, c.collector.value) && Unclaimed(c))
  }

  // What any saving receipt operation may do to the row and to itself.
  predicate SaveEffect(h: Held, row: Row, s: Saved) {
    && (s.row == row
        || (row == Some(h.record) && s.row.Some? && Encodable(s.row.value)
            && s.row.value.native == h.record.native && s.row.value.directory == h.record.directory))
    && (s.ok ==> row == Some(h.record) && s.row == Some(s.held.record) && Decodable(s.held.record)
                 && s.held == h.(record := s.held.record) && s.held.record.native == h.record.native
                 && s.held.record.directory == h.record.directory)
    && (!s.ok ==> s.held == h)
  }

  lemma SavesAreEffects(h: Held, row: Row, next: Record, epoch: nat, io: Io)
    requires next.directory == h.record.directory
    ensures SaveEffect(h, row, AfterSave(h, row, next, epoch, io))
    ensures var s := AfterSave(h, row, next, epoch, io);
            (s.ok ==> s.held.record == next) && (s.row != row ==> s.row == Some(next))
  {
  }

  lemma MarkIsEffect(h: Held, row: Row, to: RecordState, epoch: nat, io: Io)
    ensures SaveEffect(h, row, AfterAdvance(h, row, to, epoch, io))
    ensures var s := AfterAdvance(h, row, to, epoch, io); s.row != row ==> s.row.value.state == to && MayAdvance(h, to)
  {
    SavesAreEffects(h, row, Bumped(h.record).(state := to), epoch, io);
  }

  lemma SettleKeepsInv(c: Cell, id: string, disk: Disk, h: Held, s: Saved)
    requires CellInv(c, id, disk) && c.worker == Some(Busy(h)) && SaveEffect(h, c.row, s)
    requires s.row.Some? && s.row != c.row ==> s.row.value.state in {Verified, Publishing, Receiving}
    requires s.row.Some? && s.row != c.row && h.record.directory in c.exposed ==> s.row.value.state == Publishing
    ensures CellInv(Settle(c, s), id, disk)
  {
    assert WorkerInv(c, id, disk, c.worker.value);
  }

  lemma BindKeepsInv(c: Cell, id: string, disk: Disk, epoch: nat, m: Manifest, io: Io, h: Held)
    requires CellInv(c, id, disk) && c.worker == Some(Busy(h))
    ensures CellInv(BusyStep(c, h, epoch, Bind(m, io)), id, disk)
  {
    SavesAreEffects(h, c.row, Bumped(h.record).(manifest := m.digest), epoch, io);
    SettleKeepsInv(c, id, disk, h, AfterManifest(h, c.row, m, epoch, io));
  }

  lemma StageKeepsInv(c: Cell, id: string, disk: Disk, epoch: nat, a: Act, h: Held)
    requires CellInv(c, id, disk) && c.worker == Some(Busy(h)) && a.Stage?
    ensures CellInv(BusyStep(c, h, epoch, a), id, disk)
  {
    var next := Bumped(h.record).(stage := a.stage, parts := a.parts, plan := a.plan);
    SavesAreEffects(h, c.row, next, epoch, a.io);
    SettleKeepsInv(c, id, disk, h, AfterStage(h, c.row, a.stage, a.parts, a.plan, epoch, a.io));
  }

  lemma MoveKeepsInv(c: Cell, id: string, disk: Disk, epoch: nat, to: RecordState, io: Io, h: Held)
    requires CellInv(c, id, disk) && c.worker == Some(Busy(h))
    ensures CellInv(BusyStep(c, h, epoch, Move(to, io)), id, disk)
  {
    SavesAreEffects(h, c.row, Bumped(h.record).(state := to), epoch, io);
    if to in {Verified, Publishing} {
      SettleKeepsInv(c, id, disk, h, AfterAdvance(h, c.row, to, epoch, io));
    }
  }

  lemma SealEffect(h: Held, row: Row, epoch: nat, io: Io)
    ensures var s := AfterSeal(h, row, epoch, io);
            && (s.row != row ==> row == Some(h.record) && MaySeal(h, epoch) && s.row == Some(Delegation(h))
                                 && Decodable(Delegation(h)))
            && (s.ok ==> s.row != row && s.held == h.(record := Delegation(h)))
            && (!s.ok ==> s.held == h)
  {
  }

  lemma SealKeepsInv(c: Cell, id: string, disk: Disk, epoch: nat, io: Io, h: Held)
    requires CellInv(c, id, disk) && c.worker == Some(Busy(h))
    ensures CellInv(BusyStep(c, h, epoch, Seal(io)), id, disk)
  {
    SealEffect(h, c.row, epoch, io);
    assert c.exposed <= {h.record.directory};
  }

  lemma OtherBusyStepsKeepInv(c: Cell, id: string, disk: Disk, epoch: nat, a: Act, h: Held)
    requires CellInv(c, id, disk) && c.worker == Some(Busy(h))
    requires !a.Bind? && !a.Stage? && !a.Move? && !a.Seal?
    ensures CellInv(BusyStep(c, h, epoch, a), id, disk)
  {
    assert c.exposed <= {h.record.directory};
  }

  lemma BusyKeepsInv(c: Cell, id: string, disk: Disk, epoch: nat, a: Act, h: Held)
    requires CellInv(c, id, disk) && c.worker == Some(Busy(h))
    ensures CellInv(BusyStep(c, h, epoch, a), id, disk)
  {
    match a
    case Bind(m, io) => BindKeepsInv(c, id, disk, epoch, m, io, h);
    case Stage(stage, parts, plan, io) => StageKeepsInv(c, id, disk, epoch, a, h);
    case Move(to, io) => MoveKeepsInv(c, id, disk, epoch, to, io, h);
    case Seal(io) => SealKeepsInv(c, id, disk, epoch, io, h);
    case _ => OtherBusyStepsKeepInv(c, id, disk, epoch, a, h);
  }

  // Before the first intent is written the row still equals the receipt, so the object was never exposed.
  lemma DiscardingKeepsInv(c: Cell, id: string, disk: Disk, epoch: nat, a: Act, h: Held)
    requires CellInv(c, id, disk) && c.worker == Some(Discarding(h))
    ensures CellInv(DiscardingStep(c, disk, h, epoch, a), id, disk)
  {
    if a.FirstIntent? && MayDiscard(h, epoch) {
      SavesAreEffects(h, c.row, Reclaimed(h), epoch, a.io);
      var s := AfterSave(h, c.row, Reclaimed(h), epoch, a.io);
      if s.row != c.row {
        assert h.record.directory !in c.exposed && forall e | e in c.exposed :: e == h.record.directory;
      }
    }
  }

  lemma CondemnedKeepsInv(c: Cell, id: string, disk: Disk, epoch: nat, a: Act, h: Held)
    requires CellInv(c, id, disk) && c.worker == Some(Condemned(h))
    ensures CellInv(CondemnedStep(c, h, epoch, a), id, disk)
  {
    assert WorkerInv(c, id, disk, c.worker.value);
    assert c.exposed == {};
    if a.SecondIntent? {
      SavesAreEffects(h, c.row, Bumped(h.record).(state := Deleting), epoch, a.io);
    }
  }

  // The marks: published or protected after a native write, abandoned only without one.
  lemma MarksKeepInv(c: Cell, id: string, disk: Disk, epoch: nat, a: Act)
    requires CellInv(c, id, disk) && c.worker.Some? && (c.worker.value.Concluding? || c.worker.value.Abandoning?)
    ensures CellInv(WorkerStep(c, id, disk, epoch, a), id, disk)
  {
    match c.worker.value
    case Concluding(h, published) =>
      if a.Conclude? {
        MarkIsEffect(h, c.row, if published then Published else Protected, epoch, a.io);
      }
    case Abandoning(h) =>
      if a.Abandon? {
        MarkIsEffect(h, c.row, Abandoned, epoch, a.io);
      }
  }

  lemma CheckKeepsInv(c: Cell, id: string, disk: Disk, e: Eraser)
    requires EraserInv(c, id, disk, e)
    ensures var p := CheckNext(disk, id, e);
            p.Going? ==> EraserInv(c, id, disk, p.eraser) && p.eraser.record == e.record
  {
    if e.armed.Opening? && e.at < |e.names| {
      var p := e.names[e.at];
      AdvanceKeepsInv(disk, e.record.directory, e.record.cleanup, p, e.armed);
    }
  }

  lemma ErasingKeepsInv(c: Cell, id: string, disk: Disk, a: Act, h: Held, e: Eraser)
    requires CellInv(c, id, disk) && c.worker == Some(Erasing(h, e))
    ensures CellInv(ErasingStep(c, id, disk, h, e, a), id, disk)
  {
    assert WorkerInv(c, id, disk, c.worker.value);
    assert c.exposed == {};
    CheckKeepsInv(c, id, disk, e);
  }

  lemma NoReceiptKeepsInv(c: Cell, id: string, disk: Disk, epoch: nat, a: Act)
    requires CellInv(c, id, disk) && c.worker.Some? && c.worker.value.NoReceipt?
    ensures CellInv(NoReceiptStep(c, id, disk, epoch, a), id, disk)
  {
    assert WorkerInv(c, id, disk, c.worker.value);
    assert c.row.None? ==> c.exposed == {};
  }

  lemma WorkerKeepsInv(c: Cell, id: string, disk: Disk, epoch: nat, a: Act)
    requires CellInv(c, id, disk) && c.worker.Some?
    ensures CellInv(WorkerStep(c, id, disk, epoch, a), id, disk)
  {
    match c.worker.value
    case NoReceipt(_, _, _) => NoReceiptKeepsInv(c, id, disk, epoch, a);
    case Busy(h) => BusyKeepsInv(c, id, disk, epoch, a, h);
    case Discarding(h) => DiscardingKeepsInv(c, id, disk, epoch, a, h);
    case Condemned(h) => CondemnedKeepsInv(c, id, disk, epoch, a, h);
    case Erasing(h, e) => ErasingKeepsInv(c, id, disk, a, h, e);
    case Concluding(_, _) => MarksKeepInv(c, id, disk, epoch, a);
    case Abandoning(_) => MarksKeepInv(c, id, disk, epoch, a);
    case _ =>
  }

  lemma SweepingKeepsInv(c: Cell, id: string, disk: Disk, a: Act, e: Eraser)
    requires CellInv(c, id, disk) && c.collector == Some(Sweeping(e))
    ensures CellInv(SweepingStep(c, id, disk, e, a), id, disk)
  {
    assert CollectorInv(c, id, disk, c.collector.value);
    assert c.exposed == {};
    CheckKeepsInv(c, id, disk, e);
  }

  lemma CollectorKeepsInv(c: Cell, id: string, disk: Disk, a: Act)
    requires CellInv(c, id, disk) && c.collector.Some?
    ensures CellInv(CollectorStep(c, id, disk, a), id, disk)
  {
    assert CollectorInv(c, id, disk, c.collector.value);
    assert c.exposed == {};
    if c.collector.value.Sweeping? {
      SweepingKeepsInv(c, id, disk, a, c.collector.value.eraser);
    }
  }

  lemma ApplyKeepsInv(c: Cell, id: string, disk: Disk, epoch: nat, a: Act)
    requires CellInv(c, id, disk)
    ensures CellInv(Apply(c, id, disk, epoch, a), id, disk)
  {
    if a.Collect? || a.Consume? {
      IdleKeepsInv(c, id, disk, a);
    } else if CollectorAct(a) {
      if c.collector.Some? {
        CollectorKeepsInv(c, id, disk, a);
      }
    } else if c.worker.Some? && !a.Make? && !a.Open? {
      WorkerKeepsInv(c, id, disk, epoch, a);
    }
  }

  lemma IdleKeepsInv(c: Cell, id: string, disk: Disk, a: Act)
    requires CellInv(c, id, disk)
    ensures CellInv(IdleStep(c, id, disk, a), id, disk)
  {
  }

  // Whatever becomes of the disk, every check under way is told.
  lemma NotingKeepsInv(c: Cell, id: string, before: Disk, after: Disk)
    requires CellInv(c, id, before)
    ensures CellInv(Noted(c, id, before, after), id, after)
  {
  }

  // ---------------------------------------------------------------- whole runs

  datatype System = System(epoch: nat, disk: Disk, cells: map<string, Cell>)

  // A step for one object, anything that others do to the disk (the engine's own writes too), or a restart.
  datatype Event = On(id: string, act: Act) | Others(disk: Disk) | Restart

  function CellOf(s: System, id: string): Cell {
    if id in s.cells then s.cells[id] else EMPTY
  }

  function Told(cells: map<string, Cell>, before: Disk, after: Disk): map<string, Cell> {
    map id | id in cells :: Noted(cells[id], id, before, after)
  }

  ghost function Next(s: System, e: Event): System {
    match e
    case On(id, act) =>
      var after := DiskAfter(CellOf(s, id), id, s.disk, act);
      var c := Apply(CellOf(s, id), id, s.disk, s.epoch, act);
      s.(disk := after, cells := Told(s.cells[id := c], s.disk, after))
    case Others(disk) => s.(disk := disk, cells := Told(s.cells, s.disk, disk))
    case Restart => s.(epoch := s.epoch + 1, cells := map id | id in s.cells :: Restarted(s.cells[id]))
  }

  ghost function Run(events: seq<Event>): System {
    if events == [] then System(0, map[], map[]) else Next(Run(events[..|events| - 1]), events[|events| - 1])
  }

  ghost predicate SystemInv(s: System) {
    forall id | id in s.cells :: CellInv(s.cells[id], id, s.disk)
  }

  lemma TellingKeepsInv(cells: map<string, Cell>, before: Disk, after: Disk)
    requires forall id | id in cells :: CellInv(cells[id], id, before)
    ensures forall id | id in cells :: CellInv(Told(cells, before, after)[id], id, after)
  {
    forall id | id in cells
      ensures CellInv(Told(cells, before, after)[id], id, after)
    {
      NotingKeepsInv(cells[id], id, before, after);
    }
  }

  lemma NextKeepsInv(s: System, e: Event)
    requires SystemInv(s)
    ensures SystemInv(Next(s, e))
  {
    match e
    case On(id, act) =>
      ApplyKeepsInv(CellOf(s, id), id, s.disk, s.epoch, act);
      TellingKeepsInv(s.cells[id := Apply(CellOf(s, id), id, s.disk, s.epoch, act)], s.disk,
                      DiskAfter(CellOf(s, id), id, s.disk, act));
    case Others(disk) => TellingKeepsInv(s.cells, s.disk, disk);
    case Restart =>
  }

  lemma {:induction false} EveryRunKeepsInv(events: seq<Event>)
    ensures SystemInv(Run(events))
  {
    if events != [] {
      EveryRunKeepsInv(events[..|events| - 1]);
      NextKeepsInv(Run(events[..|events| - 1]), events[|events| - 1]);
    }
  }
}
