/** The send queue (internal/app/queue.go), its batches (internal/app/batch.go) and the durable task
    receipts they wait for (internal/app/tasks.go, internal/app/history.go). Queue rows change only under
    one lock, which the dispatcher drops while it asks who is online; tasks run beside it, publish their
    state in memory first and save it later, in any order. */
module SendQueue {

  import opened Common

  type RowId = nat
  type BatchId = nat
  type TaskId = nat
  type PeerId = nat

  const MAX_UNFINISHED := 1000
  const MAX_TARGETS := 16
  const MAX_POSITION := 0x4000_0000_0000_0000

  // A batch child's request ID is a hash of the batch request and the target.
  datatype Request = Direct(name: nat) | Child(batch: nat, peer: PeerId)

  datatype RowState = Queued | WaitingPeer | Running | NeedsAttention | Completed | Cancelled | Expired

  datatype Reason =
    | Fine | BatchIsCancelled | QueueExpired | PeerBlocked | TaskNotFound | PersistenceFailed
    | RequiresResume | TaskError | RestartConfirmation

  predicate Ended(s: RowState) {
    s == Completed || s == Cancelled || s == Expired
  }

  predicate Waits(s: RowState) {
    s == Queued || s == WaitingPeer
  }

  // content stands for what a request binds besides its peer: paths, selection, draft, waiting choice.
  datatype Row = Row(request: Request, peer: PeerId, state: RowState, reason: Reason, task: Option<TaskId>,
                     revision: nat, position: int, batch: Option<BatchId>, place: nat, content: nat)

  datatype Batch = Batch(request: nat, cancelled: bool, revision: nat)

  datatype Table = Table(rows: map<RowId, Row>, batches: map<BatchId, Batch>)

  datatype TaskState =
    | Preparing | Transferring | PauseRequested | CancelRequested | Paused | Recovering
    | Done | NoContent | Failed | Rejected | Stopped

  predicate Terminal(s: TaskState) {
    s == Done || s == NoContent || s == Failed || s == Rejected || s == Stopped
  }

  predicate Delivered(s: TaskState) {
    s == Done || s == NoContent
  }

  datatype Saved = Saved(state: TaskState, revision: nat, canResume: bool)

  // A task in memory; persisted turns false for good once a save of it has failed.
  datatype Task = Task(now: Saved, live: bool, persisted: bool)

  // ------------------------------------------------------------- table changes

  predicate OfStoppedBatch(t: Table, r: RowId)
    requires r in t.rows
  {
    t.rows[r].batch.Some? && t.rows[r].batch.value in t.batches && t.batches[t.rows[r].batch.value].cancelled
  }

  // setQueueState: writes, and counts a revision, only when something changes.
  function SetState(t: Table, r: RowId, state: RowState, reason: Reason): Table {
    if r in t.rows && (t.rows[r].state != state || t.rows[r].reason != reason)
    then t.(rows := t.rows[r := t.rows[r].(state := state, reason := reason, revision := t.rows[r].revision + 1)])
    else t
  }

  predicate Owed(t: Table, saved: map<TaskId, Saved>, r: RowId)
    requires r in t.rows
  {
    var row := t.rows[r];
    row.state != Completed && OfStoppedBatch(t, r) && row.task.Some? && row.task.value in saved
    && Delivered(saved[row.task.value].state)
  }

  function Receipted(row: Row): Row {
    row.(state := Completed, reason := Fine, revision := row.revision + 1)
  }

  // reconcileCancelledBatchReceipts.
  function Reconciled(t: Table, saved: map<TaskId, Saved>): Table {
    t.(rows := map r | r in t.rows ::
         if Owed(t, saved, r) then Receipted(t.rows[r]) else t.rows[r])
  }

  function StopRow(row: Row): Row {
    if Ended(row.state) then row else row.(state := Cancelled, reason := Fine, revision := row.revision + 1)
  }

  // CancelBatch, its transaction.
  function BatchStopped(t: Table, b: BatchId): Table
    requires b in t.batches
  {
    Table(map r | r in t.rows :: if t.rows[r].batch == Some(b) then StopRow(t.rows[r]) else t.rows[r],
          t.batches[b := t.batches[b].(cancelled := true, revision := t.batches[b].revision + 1)])
  }

  // restoreCancelledBatches and the restart rule of initializeWorkspace, after the reconciliation.
  function RestoredRow(t: Table, r: RowId): Row
    requires r in t.rows
  {
    var row := t.rows[r];
    if OfStoppedBatch(t, r) then StopRow(row)
    else if Waits(row.state) || row.state == Running
    then row.(state := NeedsAttention, reason := RestartConfirmation, revision := row.revision + 1)
    else row
  }

  function Restored(t: Table): Table {
    t.(rows := map r | r in t.rows :: RestoredRow(t, r))
  }

  // ForgetInboxRecords clears finished rows' link to the forgotten task.
  function Unlinked(t: Table, task: TaskId): Table {
    t.(rows := map r | r in t.rows ::
         if t.rows[r].task == Some(task) && Ended(t.rows[r].state)
         then t.rows[r].(task := None, revision := t.rows[r].revision + 1) else t.rows[r])
  }

  // ReorderQueue: all or nothing.
  predicate MayReorder(t: Table, ids: seq<RowId>) {
    && |ids| <= MAX_UNFINISHED && (forall i, j | 0 <= i < j < |ids| :: ids[i] != ids[j])
    && forall i | 0 <= i < |ids| :: ids[i] in t.rows && Movable(t.rows[ids[i]])
  }

  predicate Movable(row: Row) {
    Waits(row.state) || row.state == NeedsAttention
  }

  function MovedTo(row: Row, place: nat): Row {
    row.(position := place, revision := row.revision + 1)
  }

  function Place(ids: seq<RowId>, r: RowId): nat
    requires r in ids
    ensures Place(ids, r) < |ids| && ids[Place(ids, r)] == r
  {
    if ids[0] == r then 0 else 1 + Place(ids[1..], r)
  }

  function Reordered(t: Table, ids: seq<RowId>): Table {
    t.(rows := map r | r in t.rows ::
         if r in ids then MovedTo(t.rows[r], Place(ids, r)) else t.rows[r])
  }

  function Unfinished(rows: map<RowId, Row>): set<RowId> {
    set r | r in rows && !Ended(rows[r].state)
  }

  function Requests(rows: map<RowId, Row>): set<Request> {
    set r | r in rows :: rows[r].request
  }

  predicate IsTop(rows: map<RowId, Row>, top: int) {
    && (forall r | r in rows :: rows[r].position <= top)
    && (top == 0 || exists r :: r in rows && rows[r].position == top)
  }

  predicate MayEnqueue(t: Table, id: RowId, request: Request) {
    id !in t.rows && request !in Requests(t.rows) && |Unfinished(t.rows)| < MAX_UNFINISHED
  }

  function Enqueued(t: Table, id: RowId, request: Request, peer: PeerId, content: nat, reachable: bool,
                    top: int): Table
  {
    var row := Row(request, peer, if reachable then Queued else WaitingPeer, Fine, None, 1, top + 1, None, 0, content);
    t.(rows := t.rows[id := row])
  }

  function ChildRow(b: BatchId, request: nat, peer: PeerId, reachable: bool, top: int, i: nat): Row {
    Row(Child(request, peer), peer, if reachable then Queued else WaitingPeer, Fine, None, 1, top + i + 1, Some(b),
        i + 1, 0)
  }

  predicate Distinct<T(==)>(s: seq<T>) {
    forall i, j | 0 <= i < j < |s| :: s[i] != s[j]
  }

  predicate MayEnqueueBatch(t: Table, b: BatchId, request: nat, peers: seq<PeerId>, ids: seq<RowId>) {
    && b !in t.batches && (forall x | x in t.batches :: t.batches[x].request != request)
    && 2 <= |peers| <= MAX_TARGETS && Distinct(peers)
    && |ids| == |peers| && Distinct(ids) && (forall i | 0 <= i < |ids| :: ids[i] !in t.rows)
    && (forall i | 0 <= i < |peers| :: Child(request, peers[i]) !in Requests(t.rows))
    && |Unfinished(t.rows)| + |peers| <= MAX_UNFINISHED
  }

  // EnqueueBatch inserts the children one by one inside one transaction.
  function WithChildren(rows: map<RowId, Row>, b: BatchId, request: nat, peers: seq<PeerId>, ids: seq<RowId>,
                        reachable: set<PeerId>, top: int, n: nat): map<RowId, Row>
    requires n <= |peers| == |ids|
  {
    if n == 0 then rows
    else WithChildren(rows, b, request, peers, ids, reachable, top, n - 1)
         [ids[n - 1] := ChildRow(b, request, peers[n - 1], peers[n - 1] in reachable, top, n - 1)]
  }

  function BatchEnqueued(t: Table, b: BatchId, request: nat, peers: seq<PeerId>, ids: seq<RowId>,
                         reachable: set<PeerId>, top: int): Table
    requires |peers| == |ids|
  {
    Table(WithChildren(t.rows, b, request, peers, ids, reachable, top, |peers|),
          t.batches[b := Batch(request, false, 1)])
  }

  // ----------------------------------------------------------- table invariant

  ghost predicate RowsInv(t: Table) {
    forall r | r in t.rows ::
      var row := t.rows[r];
      && (Waits(row.state) ==> row.task.None?) && (row.state == Running ==> row.task.Some?)
      && (row.batch.Some? ==> row.batch.value in t.batches)
      && (OfStoppedBatch(t, r) ==> Ended(row.state))
  }

  ghost predicate UniqueRequests(rows: map<RowId, Row>) {
    forall r, q | r in rows && q in rows && r != q :: rows[r].request != rows[q].request
  }

  // One batch's rows, in order of their place.
  ghost predicate Children(rows: map<RowId, Row>, b: BatchId, ids: seq<RowId>) {
    && 2 <= |ids| <= MAX_TARGETS
    && (forall i | 0 <= i < |ids| :: ids[i] in rows && rows[ids[i]].batch == Some(b) && rows[ids[i]].place == i + 1)
    && (forall i, j | 0 <= i < j < |ids| :: rows[ids[i]].peer != rows[ids[j]].peer)
    && (forall r | r in rows && rows[r].batch == Some(b) :: 1 <= rows[r].place <= |ids| && ids[rows[r].place - 1] == r)
  }

  ghost predicate ShapeInv(t: Table, layout: map<BatchId, seq<RowId>>) {
    layout.Keys == t.batches.Keys && forall b | b in layout :: Children(t.rows, b, layout[b])
  }

  ghost predicate TableInv(t: Table, layout: map<BatchId, seq<RowId>>) {
    RowsInv(t) && UniqueRequests(t.rows) && ShapeInv(t, layout) && |Unfinished(t.rows)| <= MAX_UNFINISHED
  }

  // What every change of existing rows keeps.
  ghost predicate Refines(rows: map<RowId, Row>, rows': map<RowId, Row>) {
    && rows'.Keys == rows.Keys
    && forall r | r in rows ::
         && rows'[r].request == rows[r].request && rows'[r].peer == rows[r].peer
         && rows'[r].batch == rows[r].batch && rows'[r].place == rows[r].place
         && (Ended(rows[r].state) ==> Ended(rows'[r].state))
  }

  lemma ChildrenStable(rows: map<RowId, Row>, rows': map<RowId, Row>, b: BatchId, ids: seq<RowId>)
    requires Children(rows, b, ids) && Refines(rows, rows')
    ensures Children(rows', b, ids)
  {
  }

  lemma RefiningKeepsTable(t: Table, t': Table, layout: map<BatchId, seq<RowId>>)
    requires TableInv(t, layout) && Refines(t.rows, t'.rows) && t'.batches.Keys == t.batches.Keys && RowsInv(t')
    ensures TableInv(t', layout)
  {
    forall b | b in layout
      ensures Children(t'.rows, b, layout[b])
    {
      ChildrenStable(t.rows, t'.rows, b, layout[b]);
    }
    assert Unfinished(t'.rows) <= Unfinished(t.rows);
    SubsetSize(Unfinished(t'.rows), Unfinished(t.rows));
  }

  // ------------------------------------------------------------ inserting rows

  lemma InsertCounts(rows: map<RowId, Row>, id: RowId, row: Row)
    requires id !in rows && !Ended(row.state)
    ensures |Unfinished(rows[id := row])| == |Unfinished(rows)| + 1
  {
    assert Unfinished(rows[id := row]) == Unfinished(rows) + {id};
  }

  lemma InsertUnique(rows: map<RowId, Row>, id: RowId, row: Row)
    requires UniqueRequests(rows) && id !in rows && row.request !in Requests(rows)
    ensures UniqueRequests(rows[id := row])
    ensures Requests(rows[id := row]) == Requests(rows) + {row.request}
  {
    assert forall r | r in rows :: rows[r].request in Requests(rows);
    assert forall r | r in rows :: rows[id := row][r] == rows[r];
    assert row.request in Requests(rows[id := row]) by {
      assert rows[id := row][id].request == row.request;
    }
    forall q | q in Requests(rows)
      ensures q in Requests(rows[id := row])
    {
      var r :| r in rows && rows[r].request == q;
      assert rows[id := row][r].request == q;
    }
  }

  lemma InsertAside(rows: map<RowId, Row>, id: RowId, row: Row, b: BatchId, ids: seq<RowId>)
    requires Children(rows, b, ids) && id !in rows && row.batch != Some(b)
    ensures Children(rows[id := row], b, ids)
  {
  }

  lemma EnqueuedKeepsTable(t: Table, layout: map<BatchId, seq<RowId>>, id: RowId, request: Request, peer: PeerId,
                           content: nat, reachable: bool, top: int)
    requires TableInv(t, layout) && MayEnqueue(t, id, request)
    ensures TableInv(Enqueued(t, id, request, peer, content, reachable, top), layout)
  {
    var t' := Enqueued(t, id, request, peer, content, reachable, top);
    var row := t'.rows[id];
    InsertCounts(t.rows, id, row);
    InsertUnique(t.rows, id, row);
    forall b | b in layout
      ensures Children(t'.rows, b, layout[b])
    {
      InsertAside(t.rows, id, row, b, layout[b]);
    }
  }

  // The rows a batch's insertion starts from, and how far it has come.
  ghost predicate Inserted(rows: map<RowId, Row>, rows': map<RowId, Row>, b: BatchId, request: nat, peers: seq<PeerId>,
                           ids: seq<RowId>, reachable: set<PeerId>, top: int, n: nat)
    requires n <= |peers| == |ids|
  {
    && (forall r | r in rows' :: r in rows || r in ids[..n])
    && (forall r | r in rows :: r in rows' && rows'[r] == rows[r])
    && (forall i | 0 <= i < n ::
          ids[i] in rows' && rows'[ids[i]] == ChildRow(b, request, peers[i], peers[i] in reachable, top, i))
  }

  lemma InsertedStep(rows: map<RowId, Row>, before: map<RowId, Row>, b: BatchId, request: nat, peers: seq<PeerId>,
                     ids: seq<RowId>, reachable: set<PeerId>, top: int, n: nat)
    requires n < |peers| == |ids| && Distinct(ids) && forall i | 0 <= i < |ids| :: ids[i] !in rows
    requires Inserted(rows, before, b, request, peers, ids, reachable, top, n)
    ensures ids[n] !in before
    ensures var row := ChildRow(b, request, peers[n], peers[n] in reachable, top, n);
            Inserted(rows, before[ids[n] := row], b, request, peers, ids, reachable, top, n + 1)
  {
    assert ids[..n + 1] == ids[..n] + [ids[n]];
    assert ids[n] !in ids[..n];
  }

  ghost predicate FreshIds(rows: map<RowId, Row>, ids: seq<RowId>) {
    Distinct(ids) && forall i | 0 <= i < |ids| :: ids[i] !in rows
  }

  lemma {:induction false} WithChildrenInserts(rows: map<RowId, Row>, b: BatchId, request: nat, peers: seq<PeerId>,
      ids: seq<RowId>, reachable: set<PeerId>, top: int, n: nat)
    requires n <= |peers| == |ids| && FreshIds(rows, ids)
    ensures var rows' := WithChildren(rows, b, request, peers, ids, reachable, top, n);
            && Inserted(rows, rows', b, request, peers, ids, reachable, top, n)
            && |Unfinished(rows')| == |Unfinished(rows)| + n
    decreases n
  {
    if n > 0 {
      WithChildrenInserts(rows, b, request, peers, ids, reachable, top, n - 1);
      OneMoreChild(rows, WithChildren(rows, b, request, peers, ids, reachable, top, n - 1), b, request, peers, ids,
                   reachable, top, n - 1);
      WithChildrenUnfolds(rows, b, request, peers, ids, reachable, top, n);
    } else {
      NoChildYet(rows, b, request, peers, ids, reachable, top);
    }
  }

  lemma NoChildYet(rows: map<RowId, Row>, b: BatchId, request: nat, peers: seq<PeerId>, ids: seq<RowId>,
                   reachable: set<PeerId>, top: int)
    requires |peers| == |ids|
    ensures WithChildren(rows, b, request, peers, ids, reachable, top, 0) == rows
    ensures Inserted(rows, rows, b, request, peers, ids, reachable, top, 0)
  {
  }

  lemma WithChildrenUnfolds(rows: map<RowId, Row>, b: BatchId, request: nat, peers: seq<PeerId>, ids: seq<RowId>,
                            reachable: set<PeerId>, top: int, n: nat)
    requires 0 < n <= |peers| == |ids|
    ensures WithChildren(rows, b, request, peers, ids, reachable, top, n)
            == WithChildren(rows, b, request, peers, ids, reachable, top, n - 1)
               [ids[n - 1] := ChildRow(b, request, peers[n - 1], peers[n - 1] in reachable, top, n - 1)]
  {
  }

  lemma OneMoreChild(rows: map<RowId, Row>, before: map<RowId, Row>, b: BatchId, request: nat, peers: seq<PeerId>,
                     ids: seq<RowId>, reachable: set<PeerId>, top: int, n: nat)
    requires n < |peers| == |ids| && FreshIds(rows, ids)
    requires Inserted(rows, before, b, request, peers, ids, reachable, top, n)
    requires |Unfinished(before)| == |Unfinished(rows)| + n
    ensures var after := before[ids[n] := ChildRow(b, request, peers[n], peers[n] in reachable, top, n)];
            && Inserted(rows, after, b, request, peers, ids, reachable, top, n + 1)
            && |Unfinished(after)| == |Unfinished(rows)| + n + 1
  {
    InsertedStep(rows, before, b, request, peers, ids, reachable, top, n);
    InsertedCounts(before, b, request, peers, ids, reachable, top, n);
  }

  lemma InsertedCounts(before: map<RowId, Row>, b: BatchId, request: nat, peers: seq<PeerId>, ids: seq<RowId>,
                       reachable: set<PeerId>, top: int, n: nat)
    requires n < |peers| == |ids| && ids[n] !in before
    ensures |Unfinished(before[ids[n] := ChildRow(b, request, peers[n], peers[n] in reachable, top, n)])|
            == |Unfinished(before)| + 1
  {
    InsertCounts(before, ids[n], ChildRow(b, request, peers[n], peers[n] in reachable, top, n));
  }

  // The requests of the children still to be inserted are new.
  ghost predicate FreshRequests(rows: map<RowId, Row>, request: nat, peers: seq<PeerId>, n: nat) {
    forall i | n <= i < |peers| :: Child(request, peers[i]) !in Requests(rows)
  }

  lemma NextIdFresh(rows: map<RowId, Row>, b: BatchId, request: nat, peers: seq<PeerId>,
                    ids: seq<RowId>, reachable: set<PeerId>, top: int, n: nat)
    requires n < |peers| == |ids| && FreshIds(rows, ids)
    ensures ids[n] !in WithChildren(rows, b, request, peers, ids, reachable, top, n)
  {
    WithChildrenInserts(rows, b, request, peers, ids, reachable, top, n);
    InsertedStep(rows, WithChildren(rows, b, request, peers, ids, reachable, top, n), b, request, peers, ids,
                 reachable, top, n);
  }

  lemma FreshRequestsStep(rows: map<RowId, Row>, rows': map<RowId, Row>, request: nat, peers: seq<PeerId>, n: nat)
    requires n < |peers| && Distinct(peers) && FreshRequests(rows, request, peers, n)
    requires Requests(rows') == Requests(rows) + {Child(request, peers[n])}
    ensures FreshRequests(rows', request, peers, n + 1)
  {
  }

  lemma {:induction false} WithChildrenUnique(rows: map<RowId, Row>, b: BatchId, request: nat, peers: seq<PeerId>,
      ids: seq<RowId>, reachable: set<PeerId>, top: int, n: nat)
    requires n <= |peers| == |ids| && FreshIds(rows, ids) && Distinct(peers)
    requires UniqueRequests(rows) && FreshRequests(rows, request, peers, 0)
    ensures var rows' := WithChildren(rows, b, request, peers, ids, reachable, top, n);
            UniqueRequests(rows') && FreshRequests(rows', request, peers, n)
    decreases n
  {
    if n > 0 {
      WithChildrenUnique(rows, b, request, peers, ids, reachable, top, n - 1);
      NextIdFresh(rows, b, request, peers, ids, reachable, top, n - 1);
      var before := WithChildren(rows, b, request, peers, ids, reachable, top, n - 1);
      var row := ChildRow(b, request, peers[n - 1], peers[n - 1] in reachable, top, n - 1);
      InsertUnique(before, ids[n - 1], row);
      FreshRequestsStep(before, before[ids[n - 1] := row], request, peers, n - 1);
    }
  }

  lemma NewBatchChildren(rows: map<RowId, Row>, rows': map<RowId, Row>, b: BatchId, request: nat, peers: seq<PeerId>,
                         ids: seq<RowId>, reachable: set<PeerId>, top: int)
    requires 2 <= |peers| == |ids| <= MAX_TARGETS && Distinct(peers)
    requires Inserted(rows, rows', b, request, peers, ids, reachable, top, |ids|)
    requires forall r | r in rows :: rows[r].batch != Some(b)
    ensures Children(rows', b, ids)
  {
    assert ids[..|ids|] == ids;
    forall r | r in rows' && rows'[r].batch == Some(b)
      ensures 1 <= rows'[r].place <= |ids| && ids[rows'[r].place - 1] == r
    {
      var i :| 0 <= i < |ids| && ids[i] == r;
      assert rows'[ids[i]].place == i + 1;
    }
  }

  lemma OldBatchChildren(rows: map<RowId, Row>, rows': map<RowId, Row>, b: BatchId, request: nat, peers: seq<PeerId>,
                         ids: seq<RowId>, reachable: set<PeerId>, top: int, other: BatchId, others: seq<RowId>)
    requires |peers| == |ids| && other != b && Children(rows, other, others)
    requires Inserted(rows, rows', b, request, peers, ids, reachable, top, |ids|)
    ensures Children(rows', other, others)
  {
  }

  lemma InsertedRows(t: Table, b: BatchId, request: nat, peers: seq<PeerId>, ids: seq<RowId>,
                     reachable: set<PeerId>, top: int)
    requires RowsInv(t) && MayEnqueueBatch(t, b, request, peers, ids)
    requires Inserted(t.rows, BatchEnqueued(t, b, request, peers, ids, reachable, top).rows, b, request, peers, ids,
                      reachable, top, |ids|)
    ensures RowsInv(BatchEnqueued(t, b, request, peers, ids, reachable, top))
  {
    var t' := BatchEnqueued(t, b, request, peers, ids, reachable, top);
    forall r | r in t'.rows && r !in t.rows
      ensures Waits(t'.rows[r].state) && t'.rows[r].task.None? && t'.rows[r].batch == Some(b)
    {
      var i :| 0 <= i < |ids| && ids[i] == r;
    }
  }

  lemma BatchEnqueuedShape(t: Table, layout: map<BatchId, seq<RowId>>, b: BatchId, request: nat, peers: seq<PeerId>,
                           ids: seq<RowId>, reachable: set<PeerId>, top: int)
    requires RowsInv(t) && ShapeInv(t, layout) && b !in t.batches
    requires 2 <= |peers| == |ids| <= MAX_TARGETS && Distinct(peers)
    requires Inserted(t.rows, BatchEnqueued(t, b, request, peers, ids, reachable, top).rows, b, request, peers, ids,
                      reachable, top, |ids|)
    ensures ShapeInv(BatchEnqueued(t, b, request, peers, ids, reachable, top), layout[b := ids])
  {
    var t' := BatchEnqueued(t, b, request, peers, ids, reachable, top);
    NewBatchChildren(t.rows, t'.rows, b, request, peers, ids, reachable, top);
    forall other | other in layout
      ensures Children(t'.rows, other, layout[other])
    {
      OldBatchChildren(t.rows, t'.rows, b, request, peers, ids, reachable, top, other, layout[other]);
    }
  }

  lemma BatchEnqueuedKeepsTable(t: Table, layout: map<BatchId, seq<RowId>>, b: BatchId, request: nat,
      peers: seq<PeerId>,
                                ids: seq<RowId>, reachable: set<PeerId>, top: int)
    requires TableInv(t, layout) && MayEnqueueBatch(t, b, request, peers, ids)
    ensures TableInv(BatchEnqueued(t, b, request, peers, ids, reachable, top), layout[b := ids])
  {
    WithChildrenInserts(t.rows, b, request, peers, ids, reachable, top, |peers|);
    WithChildrenUnique(t.rows, b, request, peers, ids, reachable, top, |peers|);
    InsertedRows(t, b, request, peers, ids, reachable, top);
    BatchEnqueuedShape(t, layout, b, request, peers, ids, reachable, top);
  }

  // ------------------------------------------------------------------ the world

  // What the dispatcher is doing. The lock is free when it is not at work or asks who is online. After a crash
  // inside a start-up nothing runs until the next one.
  datatype Turn =
    | Free
    | Down
    | Scan(rows: set<RowId>, waiting: set<RowId>)
    | Judge(row: RowId, seen: Task, rows: set<RowId>, waiting: set<RowId>)
    | Lookup
    | Launch(rows: set<RowId>)

  // History, which nothing in the program reads.
  datatype Past = Past(
    layout: map<BatchId, seq<RowId>>,  // a batch's rows as inserted
    launched: map<RowId, TaskId>,      // a row's last started task, until the row is queued again
    delivered: set<TaskId>,            // tasks that were ever durably delivered
    orphaned: set<(RowId, TaskId)>,    // what rows lost: a delivered task before they had completed
    quarantined: set<TaskId>)          // tasks whose row was unreadable at a start-up and set aside

  // family is the batch that a task's recovery record names.
  datatype World = World(
    table: Table, saved: map<TaskId, Saved>, tombs: set<TaskId>, family: map<TaskId, BatchId>,   // on disk
    tasks: map<TaskId, Task>, flights: set<(TaskId, Saved)>, turn: Turn,      // in memory
    past: Past)

  const START := World(Table(map[], map[]), map[], {}, map[], map[], {}, Free, Past(map[], map[], {}, {}, {}))

  predicate LockFree(turn: Turn) {
    turn.Free? || turn.Lookup?
  }

  predicate Busy(w: World) {
    exists x :: x in w.tasks && w.tasks[x].live
  }

  // requireTaskBatchAllowed refuses such a task.
  predicate OfStoppedFamily(w: World, x: TaskId) {
    x in w.family && w.family[x] in w.table.batches && w.table.batches[w.family[x]].cancelled
  }

  // ------------------------------------------------------------ commands on the queue

  function StepEnqueue(w: World, id: RowId, request: Request, peer: PeerId, content: nat, reachable: bool,
                       top: int): World
  {
    if LockFree(w.turn) && MayEnqueue(w.table, id, request) && IsTop(w.table.rows, top)
    then w.(table := Enqueued(w.table, id, request, peer, content, reachable, top)) else w
  }

  function StepEnqueueBatch(w: World, b: BatchId, request: nat, peers: seq<PeerId>, ids: seq<RowId>,
                            reachable: set<PeerId>, top: int): World {
    if LockFree(w.turn) && MayEnqueueBatch(w.table, b, request, peers, ids) && IsTop(w.table.rows, top)
       && top <= MAX_POSITION
    then w.(table := BatchEnqueued(w.table, b, request, peers, ids, reachable, top),
            past := w.past.(layout := w.past.layout[b := ids])) else w
  }

  function CancelledTask(task: Task): Task {
    if task.live then task.(now := task.now.(state := CancelRequested, revision := task.now.revision + 1))
    else task.(now := Saved(Stopped, task.now.revision + 1, false))
  }

  predicate CanCancel(w: World, x: TaskId) {
    x in w.tasks && !Terminal(w.tasks[x].now.state) && w.tasks[x].now.state != CancelRequested
  }

  function StepCancelRow(w: World, r: RowId, revision: nat): World {
    if !LockFree(w.turn) || r !in w.table.rows || w.table.rows[r].revision != revision || Ended(w.table.rows[r].state)
    then w
    else
      var row := w.table.rows[r];
      var w' := w.(table := SetState(w.table, r, Cancelled, Fine));
      if row.state != Running then w'
      else if row.task.None? || !CanCancel(w, row.task.value) then w
      else
        var x := row.task.value;
        var task := CancelledTask(w.tasks[x]);
        w'.(tasks := w.tasks[x := task], flights := w.flights + {(x, task.now)})
  }

  function StepCancelBatch(w: World, b: BatchId, revision: nat): World {
    if !LockFree(w.turn) || b !in w.table.batches || w.table.batches[b].cancelled
       || w.table.batches[b].revision != revision
    then w else w.(table := BatchStopped(w.table, b))
  }

  function StepReconcile(w: World): World {
    if LockFree(w.turn) then w.(table := Reconciled(w.table, w.saved)) else w
  }

  predicate MayConfirm(w: World, r: RowId, revision: nat) {
    && LockFree(w.turn) && r in w.table.rows && !OfStoppedBatch(w.table, r)
    && w.table.rows[r].revision == revision && w.table.rows[r].state == NeedsAttention
  }

  predicate Resumable(w: World, r: RowId)
    requires r in w.table.rows
  {
    var task := w.table.rows[r].task;
    task.Some? && task.value in w.tasks && w.tasks[task.value].now.canResume
  }

  // ConfirmQueue resumes a row's task if it can, and queues the row again otherwise.
  function StepConfirm(w: World, r: RowId, revision: nat): World {
    if !MayConfirm(w, r, revision) then w
    else
      var row := w.table.rows[r];
      if !Resumable(w, r) then
        var again := row.(state := Queued, task := None, reason := Fine, revision := revision + 1);
        w.(table := w.table.(rows := w.table.rows[r := again]), past := w.past.(launched := w.past.launched - {r}))
      else
        var x := row.task.value;
        var now := Saved(Recovering, w.tasks[x].now.revision + 1, false);
        if Busy(w) || OfStoppedFamily(w, x) || Terminal(w.tasks[x].now.state) then w
        else w.(table := SetState(w.table, r, Running, Fine),
                tasks := w.tasks[x := Task(now, true, w.tasks[x].persisted)], flights := w.flights + {(x, now)})
  }

  function StepReorder(w: World, ids: seq<RowId>): World {
    if LockFree(w.turn) && MayReorder(w.table, ids) then w.(table := Reordered(w.table, ids)) else w
  }

  predicate Protected(s: Saved) {
    !Terminal(s.state) || s.canResume
  }

  predicate MayForget(w: World, x: TaskId, revision: nat) {
    && LockFree(w.turn) && x in w.saved && w.saved[x].revision == revision && !Protected(w.saved[x])
    && (x in w.tasks ==> !w.tasks[x].live && !Protected(w.tasks[x].now))
    && forall r | r in w.table.rows && w.table.rows[r].task == Some(x) :: Ended(w.table.rows[r].state)
  }

  // The row would lose a delivered task before it has completed.
  predicate Orphaned(t: Table, saved: map<TaskId, Saved>, x: TaskId, r: RowId)
    requires r in t.rows
  {
    t.rows[r].task == Some(x) && t.rows[r].state != Completed && x in saved && Delivered(saved[x].state)
  }

  function Orphans(t: Table, saved: map<TaskId, Saved>, x: TaskId): set<(RowId, TaskId)> {
    set r | r in t.rows && Orphaned(t, saved, x, r) :: (r, x)
  }

  function StepForget(w: World, x: TaskId, revision: nat): World {
    if !MayForget(w, x, revision) then w
    else w.(table := Unlinked(w.table, x), saved := w.saved - {x}, tombs := w.tombs + {x}, tasks := w.tasks - {x},
            past := w.past.(orphaned := w.past.orphaned + Orphans(w.table, w.saved, x)))
  }

  // --------------------------------------------------------------- transfer tasks

  predicate MayBecome(task: Task, next: Task) {
    && !Terminal(task.now.state) && next.now.revision == task.now.revision + 1 && next.persisted == task.persisted
    && (Terminal(next.now.state) ==> !next.live && !next.now.canResume)
    && (task.now.state == CancelRequested ==> !Delivered(next.now.state))
  }

  // ResumeTask by the user: only a resumable task, beside no other, and never one of a batch.
  predicate MayResume(w: World, x: TaskId)
    requires x in w.tasks
  {
    w.tasks[x].now.canResume && !Busy(w) && x !in w.family
  }

  // Memory changes first; the save it starts lands, or fails, later.
  function StepWork(w: World, x: TaskId, next: Task): World {
    if !w.turn.Down? && x in w.tasks && MayBecome(w.tasks[x], next)
       && (next.live && !w.tasks[x].live ==> MayResume(w, x))
    then w.(tasks := w.tasks[x := next], flights := w.flights + {(x, next.now)}) else w
  }

  // upsertTask.
  function Upserted(saved: map<TaskId, Saved>, tombs: set<TaskId>, x: TaskId, s: Saved): map<TaskId, Saved> {
    if x in tombs || (x in saved && s.revision <= saved[x].revision) then saved else saved[x := s]
  }

  function StepLand(w: World, x: TaskId, s: Saved): World {
    if (x, s) !in w.flights then w
    else
      var saved := Upserted(w.saved, w.tombs, x, s);
      var news := if x in saved && Delivered(saved[x].state) then {x} else {};
      w.(saved := saved, flights := w.flights - {(x, s)}, past := w.past.(delivered := w.past.delivered + news))
  }

  function StepLose(w: World, x: TaskId, s: Saved): World {
    if (x, s) !in w.flights then w
    else w.(flights := w.flights - {(x, s)},
            tasks := if x in w.tasks then w.tasks[x := w.tasks[x].(persisted := false)] else w.tasks)
  }

  // -------------------------------------------------------------- the dispatcher

  function RunningRows(t: Table): set<RowId> {
    set r | r in t.rows && t.rows[r].state == Running
  }

  function WaitingRows(t: Table): set<RowId> {
    set r | r in t.rows && Waits(t.rows[r].state)
  }

  function StepBegin(w: World): World {
    if !w.turn.Free? then w
    else
      var t := Reconciled(w.table, w.saved);
      w.(table := t, turn := Scan(RunningRows(t), WaitingRows(t)))
  }

  // The row takes over the state of its task.
  function Adopted(t: Table, r: RowId, seen: Saved): Table {
    match seen.state
    case NoContent => SetState(t, r, Completed, Fine)
    case Done => SetState(t, r, Completed, Fine)
    case Stopped => SetState(t, r, Cancelled, Fine)
    case Failed => SetState(t, r, NeedsAttention, TaskError)
    case Rejected => SetState(t, r, NeedsAttention, TaskError)
    case Paused => if seen.canResume then SetState(t, r, NeedsAttention, RequiresResume) else t
    case Recovering => if seen.canResume then SetState(t, r, NeedsAttention, RequiresResume) else t
    case _ => t
  }

  // A final state is adopted only once that very revision, or a later one in the same state, is on disk.
  function Concluded(t: Table, saved: map<TaskId, Saved>, r: RowId, seen: Task): Table
    requires r in t.rows && t.rows[r].task.Some?
  {
    var x := t.rows[r].task.value;
    if !Terminal(seen.now.state) && !seen.now.canResume then Adopted(t, r, seen.now)
    else if !seen.persisted then SetState(t, r, NeedsAttention, PersistenceFailed)
    else if x !in saved || saved[x].revision < seen.now.revision || saved[x].state != seen.now.state then t
    else Adopted(t, r, seen.now)
  }

  function StepObserve(w: World, r: RowId): World {
    if !w.turn.Scan? || r !in w.turn.rows || r !in w.table.rows || w.table.rows[r].task.None? then w
    else
      var Scan(rows, waiting) := w.turn;
      var x := w.table.rows[r].task.value;
      if x in w.tasks then w.(turn := Judge(r, w.tasks[x], rows - {r}, waiting))
      else w.(turn := Scan(rows - {r}, waiting), table := SetState(w.table, r, NeedsAttention, TaskNotFound))
  }

  function StepConclude(w: World): World {
    if !w.turn.Judge? || w.turn.row !in w.table.rows || w.table.rows[w.turn.row].task.None? then w
    else
      var Judge(r, seen, rows, waiting) := w.turn;
      w.(table := Concluded(w.table, w.saved, r, seen), turn := Scan(rows, waiting))
  }

  datatype Fate = Runnable | Overdue | Blocked | Offline

  // The checks of the first pass, before the lock is dropped; its batch check is not repeated in the second.
  function StepScreen(w: World, r: RowId, fate: Fate): World {
    if !w.turn.Scan? || w.turn.rows != {} || r !in w.turn.waiting || r !in w.table.rows then w
    else
      var t := if OfStoppedBatch(w.table, r) then SetState(w.table, r, Cancelled, BatchIsCancelled)
               else if fate == Overdue then SetState(w.table, r, Expired, QueueExpired)
               else if fate == Blocked then SetState(w.table, r, NeedsAttention, PeerBlocked) else w.table;
      w.(table := t, turn := Scan({}, w.turn.waiting - {r}))
  }

  function StepUnlock(w: World): World {
    if w.turn.Scan? && w.turn.rows == {} && w.turn.waiting == {} then w.(turn := Lookup) else w
  }

  function StepRelock(w: World): World {
    if w.turn.Lookup? then w.(turn := Launch(WaitingRows(w.table))) else w
  }

  function StepRescreen(w: World, r: RowId, fate: Fate): World {
    if !w.turn.Launch? || r !in w.turn.rows || fate == Runnable then w
    else
      var t := match fate
               case Overdue => SetState(w.table, r, Expired, QueueExpired)
               case Blocked => SetState(w.table, r, NeedsAttention, PeerBlocked)
               case _ => SetState(w.table, r, WaitingPeer, Fine);
      w.(table := t, turn := Launch(w.turn.rows - {r}))
  }

  // Task identifiers are random and never used twice.
  // What is no longer on disk and never comes back: forgotten, or set aside as unreadable.
  function Gone(w: World): set<TaskId> {
    w.tombs + w.past.quarantined
  }

  // A random identifier that was never used.
  predicate NewTask(w: World, x: TaskId) {
    x !in w.tasks && x !in w.saved && x !in Gone(w) && x !in w.family
  }

  function Enlisted(w: World, r: RowId, x: TaskId): map<TaskId, BatchId>
    requires r in w.table.rows
  {
    if w.table.rows[r].batch.Some? then w.family[x := w.table.rows[r].batch.value] else w.family
  }

  function Started(row: Row, x: TaskId): Row {
    row.(state := Running, task := Some(x), reason := Fine, revision := row.revision + 1)
  }

  // StartSend with the queue's beforeDispatch.
  function StepLaunch(w: World, r: RowId, x: TaskId, allowed: bool, persisted: bool): World {
    if !w.turn.Launch? || r !in w.turn.rows || r !in w.table.rows || !NewTask(w, x) then w
    else if Busy(w) then w.(turn := Free)
    else if OfStoppedBatch(w.table, r) || !allowed
    then w.(turn := Free, table := SetState(w.table, r, NeedsAttention, TaskError))
    else if !persisted then
      var failed := Saved(Failed, 2, false);
      w.(turn := Free, table := SetState(w.table, r, NeedsAttention, TaskError), family := Enlisted(w, r, x),
         tasks := w.tasks[x := Task(failed, false, false)], flights := w.flights + {(x, failed)})
    else
      var first := Saved(Preparing, 1, false);
      w.(turn := Free, saved := w.saved[x := first], tasks := w.tasks[x := Task(first, true, true)],
         table := w.table.(rows := w.table.rows[r := Started(w.table.rows[r], x)]), family := Enlisted(w, r, x),
         past := w.past.(launched := w.past.launched[r := x]))
  }

  // Any error, pause or shutdown ends a turn early.
  function StepAbandon(w: World): World {
    if w.turn.Down? then w else w.(turn := Free)
  }

  // --------------------------------------------------------------------- restart

  // What a start-up finds: finished tasks it does not load, tasks it can resume, rows it cannot read.
  datatype StartUp = StartUp(archived: set<TaskId>, usable: set<TaskId>, unreadable: set<TaskId>)

  // Rows that lose a delivered task this way before they have completed.
  function OrphansOf(t: Table, saved: map<TaskId, Saved>, xs: set<TaskId>): set<(RowId, TaskId)> {
    set r | r in t.rows && t.rows[r].task.Some? && t.rows[r].task.value in xs
            && Orphaned(t, saved, t.rows[r].task.value, r) :: (r, t.rows[r].task.value)
  }

  // quarantineTask, for each of these tasks.
  function SetAside(w: World, xs: set<TaskId>): World {
    w.(saved := w.saved - xs,
       past := w.past.(orphaned := w.past.orphaned + OrphansOf(w.table, w.saved, xs),
                       quarantined := w.past.quarantined + (xs * w.saved.Keys)))
  }

  // configureHistory: these interrupted tasks become resumable or failed.
  function Interrupted(saved: map<TaskId, Saved>, usable: set<TaskId>, done: set<TaskId>): map<TaskId, Saved> {
    map x | x in saved ::
      if Terminal(saved[x].state) || x !in done then saved[x]
      else Saved(if x in usable then Recovering else Failed, saved[x].revision + 1, x in usable)
  }

  predicate ChildTask(t: Table, x: TaskId) {
    exists r :: r in t.rows && t.rows[r].task == Some(x) && t.rows[r].state != Completed && OfStoppedBatch(t, r)
  }

  function ChildrenFinished(t: Table, saved: map<TaskId, Saved>, done: set<TaskId>): map<TaskId, Saved> {
    map x | x in saved ::
      if !Terminal(saved[x].state) && x in done && ChildTask(t, x) then Saved(Stopped, saved[x].revision + 1, false)
      else saved[x]
  }

  // The rows of cancelled batches, before the rule for all others.
  function ChildrenStopped(t: Table): Table {
    t.(rows := map r | r in t.rows :: if OfStoppedBatch(t, r) then StopRow(t.rows[r]) else t.rows[r])
  }

  // The transfer tasks that have been loaded are set aside or marked as interrupted.
  function Loaded(w: World, s: StartUp, done: set<TaskId>): World {
    var u := SetAside(w, s.unreadable * done);
    u.(saved := Interrupted(u.saved, s.usable, done))
  }

  function AllTasks(w: World): set<TaskId> {
    w.saved.Keys
  }

  // Memory is lost; transfer tasks are loaded again and the queue is put in order.
  function StepRestart(w: World, s: StartUp): World {
    var u := Loaded(w, s, AllTasks(w));
    var t := Reconciled(w.table, u.saved);
    var finished := ChildrenFinished(t, u.saved, AllTasks(w));
    var tasks := map x | x in finished && !(x in s.archived && Terminal(w.saved[x].state)) ::
                   Task(finished[x], false, true);
    World(Restored(t), finished, w.tombs, w.family, tasks, {}, Free, u.past)
  }

  // How far a start-up came before it crashed: through some tasks, to the reconciliation, through some tasks of
  // cancelled batches, or to the rows of those.
  datatype Reach = Loading(done: set<TaskId>) | Reconciling | Finishing(done: set<TaskId>) | Stopping

  // A start-up that crashes: what it wrote is written, and nothing but another one can follow.
  function StepCrash(w: World, s: StartUp, reach: Reach): World {
    var u := Loaded(w, s, if reach.Loading? then reach.done else AllTasks(w));
    var t := if reach.Loading? then w.table else Reconciled(w.table, u.saved);
    var saved := match reach
                 case Finishing(done) => ChildrenFinished(t, u.saved, done)
                 case Stopping => ChildrenFinished(t, u.saved, AllTasks(w))
                 case _ => u.saved;
    World(if reach.Stopping? then ChildrenStopped(t) else t, saved, w.tombs, w.family,
          map x | x in saved :: Task(saved[x], false, true), {}, Down, u.past)
  }

  // ----------------------------------------------------------------------- steps

  datatype Act =
    | Enqueue(id: RowId, direct: nat, peer: PeerId, content: nat, online: bool, top: int)
    | EnqueueBatch(b: BatchId, name: nat, peers: seq<PeerId>, ids: seq<RowId>, reachable: set<PeerId>, top: int)
    | CancelRow(r: RowId, revision: nat)
    | CancelBatch(b: BatchId, revision: nat)
    | Reconcile
    | Confirm(r: RowId, revision: nat)
    | Reorder(ids: seq<RowId>)
    | Forget(x: TaskId, revision: nat)
    | Work(x: TaskId, next: Task)
    | Land(x: TaskId, s: Saved)
    | Lose(x: TaskId, s: Saved)
    | Begin
    | Observe(r: RowId)
    | Conclude
    | Screen(r: RowId, fate: Fate)
    | Unlock
    | Relock
    | Rescreen(r: RowId, fate: Fate)
    | Dispatch(r: RowId, x: TaskId, allowed: bool, persisted: bool)
    | Abandon
    | Restart(start: StartUp)
    | Crash(start: StartUp, reach: Reach)

  predicate IsCommand(a: Act) {
    ListCommand(a) || a.CancelRow? || a.CancelBatch? || a.Confirm? || a.Forget?
  }

  predicate ListCommand(a: Act) {
    a.Enqueue? || a.EnqueueBatch? || a.Reconcile? || a.Reorder?
  }

  predicate IsTaskStep(a: Act) {
    a.Work? || a.Land? || a.Lose? || a.Restart? || a.Crash?
  }

  function NextList(w: World, a: Act): World {
    match a
    case Enqueue(id, direct, peer, content, online, top) =>
      StepEnqueue(w, id, Direct(direct), peer, content, online, top)
    case EnqueueBatch(b, name, peers, ids, reachable, top) => StepEnqueueBatch(w, b, name, peers, ids, reachable, top)
    case Reconcile => StepReconcile(w)
    case Reorder(ids) => StepReorder(w, ids)
    case _ => w
  }

  function NextEdit(w: World, a: Act): World {
    match a
    case CancelRow(r, revision) => StepCancelRow(w, r, revision)
    case CancelBatch(b, revision) => StepCancelBatch(w, b, revision)
    case Confirm(r, revision) => StepConfirm(w, r, revision)
    case Forget(x, revision) => StepForget(w, x, revision)
    case _ => w
  }

  function NextCommand(w: World, a: Act): World {
    if ListCommand(a) then NextList(w, a) else NextEdit(w, a)
  }

  function NextTask(w: World, a: Act): World {
    match a
    case Work(x, next) => StepWork(w, x, next)
    case Land(x, s) => StepLand(w, x, s)
    case Lose(x, s) => StepLose(w, x, s)
    case Restart(s) => StepRestart(w, s)
    case Crash(s, reach) => StepCrash(w, s, reach)
    case _ => w
  }

  predicate FirstPass(a: Act) {
    a.Begin? || a.Observe? || a.Conclude? || a.Screen?
  }

  function NextFirst(w: World, a: Act): World {
    match a
    case Begin => StepBegin(w)
    case Observe(r) => StepObserve(w, r)
    case Conclude => StepConclude(w)
    case Screen(r, fate) => StepScreen(w, r, fate)
    case _ => w
  }

  function NextSecond(w: World, a: Act): World {
    match a
    case Unlock => StepUnlock(w)
    case Relock => StepRelock(w)
    case Rescreen(r, fate) => StepRescreen(w, r, fate)
    case Dispatch(r, x, allowed, persisted) => StepLaunch(w, r, x, allowed, persisted)
    case Abandon => StepAbandon(w)
    case _ => w
  }

  function NextTurn(w: World, a: Act): World {
    if FirstPass(a) then NextFirst(w, a) else NextSecond(w, a)
  }

  function Next(w: World, a: Act): World {
    if IsCommand(a) then NextCommand(w, a) else if IsTaskStep(a) then NextTask(w, a) else NextTurn(w, a)
  }

  function RunFrom(w: World, acts: seq<Act>): World
    decreases |acts|
  {
    if acts == [] then w else RunFrom(Next(w, acts[0]), acts[1..])
  }

  // ------------------------------------------------------------------- invariants

  // A row's task is on disk, and a completed row's task is on disk as delivered, unless it was set aside.
  ghost predicate LinkInv(rows: map<RowId, Row>, saved: map<TaskId, Saved>, aside: set<TaskId>) {
    && saved.Keys !! aside
    && forall r | r in rows && rows[r].task.Some? && rows[r].task.value !in aside ::
         && rows[r].task.value in saved
         && (rows[r].state == Completed ==> Delivered(saved[rows[r].task.value].state))
  }

  // s is what a task was at some time up to now.
  predicate Behind(s: Saved, now: Saved) {
    s.revision <= now.revision && (s.revision == now.revision ==> s == now) && (Terminal(s.state) ==> s == now)
  }

  ghost predicate SavedInv(saved: map<TaskId, Saved>, tombs: set<TaskId>, tasks: map<TaskId, Task>) {
    forall x | x in saved ::
      x !in tombs && (x in tasks ==> Behind(saved[x], tasks[x].now)) && (x !in tasks ==> Terminal(saved[x].state))
  }

  ghost predicate FlightsInv(tombs: set<TaskId>, aside: set<TaskId>, tasks: map<TaskId, Task>,
                             flights: set<(TaskId, Saved)>)
  {
    && (forall x | x in tasks :: x !in tombs && x !in aside)
    && forall f | f in flights :: f.0 in tombs || (f.0 in tasks && Behind(f.1, tasks[f.0].now))
  }

  ghost predicate DeliveredInv(saved: map<TaskId, Saved>, tombs: set<TaskId>, delivered: set<TaskId>) {
    && (forall x | x in saved && Delivered(saved[x].state) :: x in delivered)
    && forall x | x in delivered :: x in tombs || (x in saved && Delivered(saved[x].state))
  }

  ghost predicate LaunchedInv(rows: map<RowId, Row>, tombs: set<TaskId>, launched: map<RowId, TaskId>) {
    && (forall r | r in rows && rows[r].task.Some? :: r in launched && launched[r] == rows[r].task.value)
    && forall r | r in launched ::
         && r in rows
         && (rows[r].task.None? ==> launched[r] in tombs && Ended(rows[r].state))
  }

  // The row has no task any more, or one that was set aside.
  predicate Bereft(row: Row, past: Past) {
    row.task.None? || row.task.value in past.quarantined
  }

  ghost predicate OrphanInv(rows: map<RowId, Row>, past: Past) {
    && (forall o | o in past.orphaned :: o.1 in past.delivered)
    && (forall o | o in past.orphaned && o.0 in past.launched && past.launched[o.0] == o.1 ::
          o.0 in rows && rows[o.0].state != Completed && Bereft(rows[o.0], past)
          && (rows[o.0].task.None? ==> Ended(rows[o.0].state)))
    && forall r | r in past.launched && r in rows && Bereft(rows[r], past) && past.launched[r] in past.delivered ::
         rows[r].state == Completed || (r, past.launched[r]) in past.orphaned
  }

  ghost predicate TurnInv(rows: map<RowId, Row>, turn: Turn) {
    match turn
    case Free => true
    case Down => true
    case Lookup => true
    case Scan(running, waiting) => AreRunning(rows, running) && AreWaiting(rows, waiting)
    case Judge(row, _, running, waiting) =>
      && row in rows && rows[row].state == Running && row !in running
      && AreRunning(rows, running) && AreWaiting(rows, waiting)
    case Launch(waiting) => AreWaiting(rows, waiting)
  }

  ghost predicate AreRunning(rows: map<RowId, Row>, some: set<RowId>) {
    forall r | r in some :: r in rows && rows[r].state == Running
  }

  ghost predicate AreWaiting(rows: map<RowId, Row>, some: set<RowId>) {
    forall r | r in some :: r in rows && Waits(rows[r].state)
  }

  ghost predicate RowSide(t: Table, saved: map<TaskId, Saved>, tombs: set<TaskId>, past: Past) {
    && TableInv(t, past.layout) && LinkInv(t.rows, saved, past.quarantined)
    && LaunchedInv(t.rows, tombs, past.launched) && OrphanInv(t.rows, past)
  }

  ghost predicate TaskSide(w: World) {
    && SavedInv(w.saved, Gone(w), w.tasks) && FlightsInv(w.tombs, w.past.quarantined, w.tasks, w.flights)
    && DeliveredInv(w.saved, Gone(w), w.past.delivered)
  }

  ghost predicate Inv(w: World) {
    RowSide(w.table, w.saved, Gone(w), w.past) && TaskSide(w) && TurnInv(w.table.rows, w.turn)
  }

  // How a row may change while it keeps its task.
  ghost predicate Follows(was: Row, row: Row, saved: map<TaskId, Saved>) {
    && row.request == was.request && row.peer == was.peer && row.batch == was.batch && row.place == was.place
    && row.content == was.content
    && row.task == was.task
    && (Ended(was.state) ==> Ended(row.state) && (row.state == was.state || row.task.Some?))
    && (was.state == Completed ==> row.state == Completed)
    && (row.state == Completed && was.state != Completed ==>
          row.task.Some? && row.task.value in saved && Delivered(saved[row.task.value].state))
    && (Waits(row.state) ==> row.task.None?) && (row.state == Running ==> row.task.Some?)
  }

  ghost predicate AllFollow(t: Table, t': Table, saved: map<TaskId, Saved>) {
    && t'.rows.Keys == t.rows.Keys && t'.batches.Keys == t.batches.Keys
    && (forall r | r in t.rows :: Follows(t.rows[r], t'.rows[r], saved))
    && forall r | r in t'.rows :: OfStoppedBatch(t', r) ==> Ended(t'.rows[r].state)
  }

  lemma FollowingKeeps(t: Table, t': Table, saved: map<TaskId, Saved>, tombs: set<TaskId>, past: Past)
    requires RowSide(t, saved, tombs, past) && AllFollow(t, t', saved)
    ensures RowSide(t', saved, tombs, past)
  {
    FollowingKeepsTable(t, t', saved, past);
    FollowingKeepsLinks(t, t', saved, tombs, past);
  }

  lemma FollowingKeepsTable(t: Table, t': Table, saved: map<TaskId, Saved>, past: Past)
    requires TableInv(t, past.layout) && AllFollow(t, t', saved)
    ensures TableInv(t', past.layout)
  {
    RefiningKeepsTable(t, t', past.layout);
  }

  lemma FollowingKeepsLinks(t: Table, t': Table, saved: map<TaskId, Saved>, tombs: set<TaskId>, past: Past)
    requires LinkInv(t.rows, saved, past.quarantined) && LaunchedInv(t.rows, tombs, past.launched)
             && OrphanInv(t.rows, past)
    requires AllFollow(t, t', saved)
    ensures LinkInv(t'.rows, saved, past.quarantined) && LaunchedInv(t'.rows, tombs, past.launched)
             && OrphanInv(t'.rows, past)
  {
  }

  lemma SetStateKeeps(t: Table, saved: map<TaskId, Saved>, tombs: set<TaskId>, past: Past, r: RowId, state: RowState,
                      reason: Reason)
    requires RowSide(t, saved, tombs, past) && r in t.rows && !Ended(t.rows[r].state)
    requires (Waits(state) ==> t.rows[r].task.None?) && (state == Running ==> t.rows[r].task.Some?)
    requires state == Completed ==>
               t.rows[r].task.Some? && t.rows[r].task.value in saved && Delivered(saved[t.rows[r].task.value].state)
    ensures RowSide(SetState(t, r, state, reason), saved, tombs, past)
  {
    SetStateFollows(t, saved, r, state, reason);
    FollowingKeeps(t, SetState(t, r, state, reason), saved, tombs, past);
  }

  lemma SetStateFollows(t: Table, saved: map<TaskId, Saved>, r: RowId, state: RowState, reason: Reason)
    requires RowsInv(t) && r in t.rows && !Ended(t.rows[r].state)
    requires (Waits(state) ==> t.rows[r].task.None?) && (state == Running ==> t.rows[r].task.Some?)
    requires state == Completed ==>
               t.rows[r].task.Some? && t.rows[r].task.value in saved && Delivered(saved[t.rows[r].task.value].state)
    ensures AllFollow(t, SetState(t, r, state, reason), saved)
  {
    assert !OfStoppedBatch(t, r);
  }

  // ------------------------------------------------------- every step keeps them

  lemma ReconciledFollows(t: Table, saved: map<TaskId, Saved>)
    requires RowsInv(t)
    ensures AllFollow(t, Reconciled(t, saved), saved)
  {
    var t' := Reconciled(t, saved);
    forall r | r in t.rows
      ensures Follows(t.rows[r], t'.rows[r], saved) && (OfStoppedBatch(t', r) ==> Ended(t'.rows[r].state))
    {
      assert t'.rows[r].batch == t.rows[r].batch;
    }
  }

  lemma BatchStoppedFollows(t: Table, saved: map<TaskId, Saved>, b: BatchId)
    requires RowsInv(t) && b in t.batches
    ensures AllFollow(t, BatchStopped(t, b), saved)
  {
    var t' := BatchStopped(t, b);
    forall r | r in t.rows
      ensures Follows(t.rows[r], t'.rows[r], saved) && (OfStoppedBatch(t', r) ==> Ended(t'.rows[r].state))
    {
      assert t'.rows[r].batch == t.rows[r].batch;
    }
  }

  lemma RestoredFollows(t: Table, saved: map<TaskId, Saved>)
    requires RowsInv(t)
    ensures AllFollow(t, Restored(t), saved)
  {
    var t' := Restored(t);
    forall r | r in t.rows
      ensures Follows(t.rows[r], t'.rows[r], saved) && (OfStoppedBatch(t', r) ==> Ended(t'.rows[r].state))
    {
      assert t'.rows[r] == RestoredRow(t, r);
    }
  }

  lemma ReconciledKeeps(t: Table, saved: map<TaskId, Saved>, tombs: set<TaskId>, past: Past)
    requires RowSide(t, saved, tombs, past)
    ensures RowSide(Reconciled(t, saved), saved, tombs, past)
  {
    ReconciledFollows(t, saved);
    FollowingKeeps(t, Reconciled(t, saved), saved, tombs, past);
  }

  lemma BatchStoppedKeeps(t: Table, saved: map<TaskId, Saved>, tombs: set<TaskId>, past: Past, b: BatchId)
    requires RowSide(t, saved, tombs, past) && b in t.batches
    ensures RowSide(BatchStopped(t, b), saved, tombs, past)
  {
    BatchStoppedFollows(t, saved, b);
    FollowingKeeps(t, BatchStopped(t, b), saved, tombs, past);
  }

  lemma RestoredKeeps(t: Table, saved: map<TaskId, Saved>, tombs: set<TaskId>, past: Past)
    requires RowSide(t, saved, tombs, past)
    ensures RowSide(Restored(t), saved, tombs, past)
  {
    RestoredFollows(t, saved);
    FollowingKeeps(t, Restored(t), saved, tombs, past);
  }

  lemma ReorderedKeeps(t: Table, saved: map<TaskId, Saved>, tombs: set<TaskId>, past: Past, ids: seq<RowId>)
    requires RowSide(t, saved, tombs, past) && MayReorder(t, ids)
    ensures RowSide(Reordered(t, ids), saved, tombs, past)
  {
    FollowingKeeps(t, Reordered(t, ids), saved, tombs, past);
  }

  lemma EnqueueKeeps(w: World, id: RowId, request: Request, peer: PeerId, content: nat, reachable: bool, top: int)
    requires Inv(w)
    ensures Inv(StepEnqueue(w, id, request, peer, content, reachable, top))
  {
    var w' := StepEnqueue(w, id, request, peer, content, reachable, top);
    if LockFree(w.turn) && MayEnqueue(w.table, id, request) && IsTop(w.table.rows, top) {
      EnqueuedKeepsTable(w.table, w.past.layout, id, request, peer, content, reachable, top);
      InsertedKeepsLinks(w.table.rows, w'.table.rows, w.saved, Gone(w), w.past, w.past);
    }
  }

  lemma InsertedKeepsLinks(rows: map<RowId, Row>, rows': map<RowId, Row>, saved: map<TaskId, Saved>, tombs: set<TaskId>,
                           past: Past, past': Past)
    requires LinkInv(rows, saved, past.quarantined) && LaunchedInv(rows, tombs, past.launched)
             && OrphanInv(rows, past)
    requires past' == past.(layout := past'.layout)
    requires forall r | r in rows :: r in rows' && rows'[r] == rows[r]
    requires forall r | r in rows' && r !in rows :: rows'[r].task.None?
    ensures LinkInv(rows', saved, past'.quarantined) && LaunchedInv(rows', tombs, past'.launched)
            && OrphanInv(rows', past')
  {
  }

  lemma EnqueueBatchKeepsRows(t: Table, saved: map<TaskId, Saved>, tombs: set<TaskId>, past: Past, b: BatchId,
      request: nat,
                              peers: seq<PeerId>, ids: seq<RowId>, reachable: set<PeerId>, top: int)
    requires RowSide(t, saved, tombs, past) && MayEnqueueBatch(t, b, request, peers, ids)
    ensures RowSide(BatchEnqueued(t, b, request, peers, ids, reachable, top), saved, tombs,
                    past.(layout := past.layout[b := ids]))
  {
    var t' := BatchEnqueued(t, b, request, peers, ids, reachable, top);
    BatchEnqueuedKeepsTable(t, past.layout, b, request, peers, ids, reachable, top);
    WithChildrenInserts(t.rows, b, request, peers, ids, reachable, top, |peers|);
    NewRowsHaveNoTask(t.rows, t'.rows, b, request, peers, ids, reachable, top);
    InsertedKeepsLinks(t.rows, t'.rows, saved, tombs, past, past.(layout := past.layout[b := ids]));
  }

  lemma EnqueueBatchKeeps(w: World, b: BatchId, request: nat, peers: seq<PeerId>, ids: seq<RowId>,
                          reachable: set<PeerId>, top: int)
    requires Inv(w)
    ensures Inv(StepEnqueueBatch(w, b, request, peers, ids, reachable, top))
  {
    if LockFree(w.turn) && MayEnqueueBatch(w.table, b, request, peers, ids) {
      EnqueueBatchKeepsRows(w.table, w.saved, Gone(w), w.past, b, request, peers, ids, reachable, top);
    }
  }

  lemma NewRowsHaveNoTask(rows: map<RowId, Row>, rows': map<RowId, Row>, b: BatchId, request: nat, peers: seq<PeerId>,
                          ids: seq<RowId>, reachable: set<PeerId>, top: int)
    requires |peers| == |ids| && Inserted(rows, rows', b, request, peers, ids, reachable, top, |ids|)
    ensures forall r | r in rows' && r !in rows :: rows'[r].task.None?
  {
    forall r | r in rows' && r !in rows
      ensures rows'[r].task.None?
    {
      var i :| 0 <= i < |ids| && ids[i] == r;
    }
  }

  lemma TaskMoves(w: World, x: TaskId, task: Task)
    requires TaskSide(w) && x in w.tasks && !Terminal(w.tasks[x].now.state)
    requires task.now.revision == w.tasks[x].now.revision + 1
    ensures TaskSide(w.(tasks := w.tasks[x := task], flights := w.flights + {(x, task.now)}))
  {
  }

  lemma CancelRowKeeps(w: World, r: RowId, revision: nat)
    requires Inv(w)
    ensures Inv(StepCancelRow(w, r, revision))
  {
    if StepCancelRow(w, r, revision) != w {
      var row := w.table.rows[r];
      SetStateKeeps(w.table, w.saved, Gone(w), w.past, r, Cancelled, Fine);
      if row.state == Running {
        TaskMoves(w, row.task.value, CancelledTask(w.tasks[row.task.value]));
      }
    }
  }

  lemma RequeueKeeps(w: World, r: RowId, revision: nat)
    requires Inv(w) && MayConfirm(w, r, revision) && !Resumable(w, r)
    ensures Inv(StepConfirm(w, r, revision))
  {
    var t' := StepConfirm(w, r, revision).table;
    RequeueRefines(w.table, t', r);
    RefiningKeepsTable(w.table, t', w.past.layout);
  }

  lemma RequeueRefines(t: Table, t': Table, r: RowId)
    requires RowsInv(t) && r in t.rows && t.rows[r].state == NeedsAttention && t'.batches == t.batches
    requires r in t'.rows && t'.rows == t.rows[r := t'.rows[r]]
    requires t'.rows[r] == t.rows[r].(state := Queued, task := None, reason := Fine, revision := t.rows[r].revision + 1)
    ensures Refines(t.rows, t'.rows) && RowsInv(t')
  {
    assert !OfStoppedBatch(t, r);
    assert forall q | q in t.rows && q != r :: t'.rows[q] == t.rows[q];
  }

  lemma SameTaskSide(w: World, w': World)
    requires TaskSide(w) && w' == w.(table := w'.table)
    ensures TaskSide(w')
  {
  }

  lemma ResumeKeeps(w: World, r: RowId, revision: nat)
    requires Inv(w) && MayConfirm(w, r, revision) && Resumable(w, r)
    ensures Inv(StepConfirm(w, r, revision))
  {
    var x := w.table.rows[r].task.value;
    var w' := StepConfirm(w, r, revision);
    if w' != w {
      var task := Task(Saved(Recovering, w.tasks[x].now.revision + 1, false), true, w.tasks[x].persisted);
      var moved := w.(tasks := w.tasks[x := task], flights := w.flights + {(x, task.now)});
      assert w' == moved.(table := SetState(w.table, r, Running, Fine));
      SetStateKeeps(w.table, w.saved, Gone(w), w.past, r, Running, Fine);
      TaskMoves(w, x, task);
      assert TaskSide(w') by { SameTaskSide(moved, w'); }
    }
  }

  lemma UnlinkedRefines(t: Table, x: TaskId)
    requires RowsInv(t)
    ensures Refines(t.rows, Unlinked(t, x).rows) && RowsInv(Unlinked(t, x))
  {
    var t' := Unlinked(t, x);
    forall r | r in t.rows
      ensures OfStoppedBatch(t', r) == OfStoppedBatch(t, r)
    {
      assert t'.rows[r].batch == t.rows[r].batch;
    }
  }

  lemma UnlinkedKeepsLinks(rows: map<RowId, Row>, t: Table, saved: map<TaskId, Saved>, aside: set<TaskId>, x: TaskId)
    requires LinkInv(t.rows, saved, aside) && rows == Unlinked(t, x).rows
    requires forall r | r in t.rows && t.rows[r].task == Some(x) :: Ended(t.rows[r].state)
    ensures LinkInv(rows, saved - {x}, aside)
  {
  }

  lemma ForgetKeepsRows(t: Table, saved: map<TaskId, Saved>, tombs: set<TaskId>, past: Past, x: TaskId)
    requires RowSide(t, saved, tombs, past) && x in saved && x !in tombs && DeliveredInv(saved, tombs, past.delivered)
    requires forall r | r in t.rows && t.rows[r].task == Some(x) :: Ended(t.rows[r].state)
    ensures RowSide(Unlinked(t, x), saved - {x}, tombs + {x}, past.(orphaned := past.orphaned + Orphans(t, saved, x)))
  {
    UnlinkedRefines(t, x);
    RefiningKeepsTable(t, Unlinked(t, x), past.layout);
    UnlinkedKeepsLinks(Unlinked(t, x).rows, t, saved, past.quarantined, x);
    ForgetKeepsLaunched(t, tombs, past, x);
    ForgetKeepsOrphans(t, saved, tombs, past, x);
  }

  lemma ForgetKeepsLaunched(t: Table, tombs: set<TaskId>, past: Past, x: TaskId)
    requires LaunchedInv(t.rows, tombs, past.launched)
    requires forall r | r in t.rows && t.rows[r].task == Some(x) :: Ended(t.rows[r].state)
    ensures LaunchedInv(Unlinked(t, x).rows, tombs + {x}, past.launched)
  {
  }

  lemma ForgetKeepsOrphans(t: Table, saved: map<TaskId, Saved>, tombs: set<TaskId>, past: Past, x: TaskId)
    requires LaunchedInv(t.rows, tombs, past.launched) && OrphanInv(t.rows, past)
    requires x in saved && x !in tombs && DeliveredInv(saved, tombs, past.delivered)
    requires forall r | r in t.rows && t.rows[r].task == Some(x) :: Ended(t.rows[r].state)
    ensures OrphanInv(Unlinked(t, x).rows, past.(orphaned := past.orphaned + Orphans(t, saved, x)))
  {
  }

  lemma ForgetKeeps(w: World, x: TaskId, revision: nat)
    requires Inv(w)
    ensures Inv(StepForget(w, x, revision))
  {
    if MayForget(w, x, revision) {
      ForgetKeepsRows(w.table, w.saved, Gone(w), w.past, x);
    }
  }

  lemma WorkKeeps(w: World, x: TaskId, next: Task)
    requires Inv(w)
    ensures Inv(StepWork(w, x, next))
  {
    if StepWork(w, x, next) != w {
      TaskMoves(w, x, next);
    }
  }

  // A delivered task stays delivered on disk: nothing newer can be in flight.
  lemma LandKeepsTasks(w: World, x: TaskId, s: Saved)
    requires TaskSide(w)
    ensures TaskSide(StepLand(w, x, s))
    ensures forall y | y in w.saved :: y in StepLand(w, x, s).saved
              && (Terminal(w.saved[y].state) ==> StepLand(w, x, s).saved[y] == w.saved[y])
  {
  }

  lemma LandKeeps(w: World, x: TaskId, s: Saved)
    requires Inv(w)
    ensures Inv(StepLand(w, x, s))
  {
    LandKeepsTasks(w, x, s);
    var w' := StepLand(w, x, s);
    LandKeepsLinks(w.table.rows, w.saved, w'.saved, Gone(w), w.past, w'.past);
  }

  lemma LandKeepsLinks(rows: map<RowId, Row>, saved: map<TaskId, Saved>, saved': map<TaskId, Saved>, tombs: set<TaskId>,
                       past: Past, past': Past)
    requires LinkInv(rows, saved, past.quarantined) && LaunchedInv(rows, tombs, past.launched)
             && OrphanInv(rows, past)
    requires forall y | y in saved :: y in saved' && (Terminal(saved[y].state) ==> saved'[y] == saved[y])
    requires DeliveredInv(saved, tombs, past.delivered) && DeliveredInv(saved', tombs, past'.delivered)
    requires past' == past.(delivered := past'.delivered) && past.delivered <= past'.delivered
    requires past.quarantined <= tombs && saved'.Keys !! past.quarantined
    requires forall y | y in past'.delivered && y in tombs :: y in past.delivered
    ensures LinkInv(rows, saved', past'.quarantined) && OrphanInv(rows, past')
  {
  }

  lemma LoseKeeps(w: World, x: TaskId, s: Saved)
    requires Inv(w)
    ensures Inv(StepLose(w, x, s))
  {
  }

  lemma BeginKeeps(w: World)
    requires Inv(w)
    ensures Inv(StepBegin(w))
  {
    ReconciledKeeps(w.table, w.saved, Gone(w), w.past);
  }

  // Changing the state of one row leaves the dispatcher's other rows as they were.
  lemma OthersStay(t: Table, r: RowId, state: RowState, reason: Reason, some: set<RowId>)
    requires r !in some
    ensures AreRunning(t.rows, some) ==> AreRunning(SetState(t, r, state, reason).rows, some)
    ensures AreWaiting(t.rows, some) ==> AreWaiting(SetState(t, r, state, reason).rows, some)
  {
  }

  lemma ObserveKeeps(w: World, r: RowId)
    requires Inv(w)
    ensures Inv(StepObserve(w, r))
  {
    if w.turn.Scan? && r in w.turn.rows && r in w.table.rows && w.table.rows[r].task.Some?
       && w.table.rows[r].task.value !in w.tasks {
      SetStateKeeps(w.table, w.saved, Gone(w), w.past, r, NeedsAttention, TaskNotFound);
      OthersStay(w.table, r, NeedsAttention, TaskNotFound, w.turn.rows - {r});
      OthersStay(w.table, r, NeedsAttention, TaskNotFound, w.turn.waiting);
    }
  }

  // The only outcomes of a judgement, with what each needs.
  lemma ConcludedIs(t: Table, saved: map<TaskId, Saved>, r: RowId, seen: Task) returns (state: RowState, reason: Reason)
    requires r in t.rows && t.rows[r].task.Some? && t.rows[r].state == Running
    ensures Concluded(t, saved, r, seen) == t || Concluded(t, saved, r, seen) == SetState(t, r, state, reason)
    ensures state == Completed || state == Cancelled || state == NeedsAttention
    ensures state == Completed && Concluded(t, saved, r, seen) != t ==>
              var x := t.rows[r].task.value;
              x in saved && Delivered(saved[x].state) && saved[x].state == seen.now.state
              && seen.now.revision <= saved[x].revision
  {
    var t' := Concluded(t, saved, r, seen);
    state, reason := Cancelled, Fine;
    if t' != t {
      state, reason := t'.rows[r].state, t'.rows[r].reason;
    }
  }

  lemma ConcludeKeeps(w: World)
    requires Inv(w)
    ensures Inv(StepConclude(w))
  {
    if w.turn.Judge? && w.turn.row in w.table.rows && w.table.rows[w.turn.row].task.Some? {
      var r := w.turn.row;
      var state, reason := ConcludedIs(w.table, w.saved, r, w.turn.seen);
      if Concluded(w.table, w.saved, r, w.turn.seen) != w.table {
        SetStateKeeps(w.table, w.saved, Gone(w), w.past, r, state, reason);
        OthersStay(w.table, r, state, reason, w.turn.rows);
        OthersStay(w.table, r, state, reason, w.turn.waiting);
      }
    }
  }

  lemma ScreenedKeeps(w: World, r: RowId, state: RowState, reason: Reason, rest: set<RowId>, turn: Turn)
    requires Inv(w) && r in w.table.rows && Waits(w.table.rows[r].state)
    requires Ended(state) || state == NeedsAttention || state == WaitingPeer
    requires state != Completed && r !in rest && AreWaiting(w.table.rows, rest)
    requires turn == Scan({}, rest) || turn == Launch(rest) || turn == Free
    ensures Inv(w.(table := SetState(w.table, r, state, reason), turn := turn))
  {
    SetStateKeeps(w.table, w.saved, Gone(w), w.past, r, state, reason);
    OthersStay(w.table, r, state, reason, rest);
  }

  lemma ScreenKeeps(w: World, r: RowId, fate: Fate)
    requires Inv(w)
    ensures Inv(StepScreen(w, r, fate))
  {
    if w.turn.Scan? && w.turn.rows == {} && r in w.turn.waiting && r in w.table.rows {
      var rest := w.turn.waiting - {r};
      if OfStoppedBatch(w.table, r) {
        ScreenedKeeps(w, r, Cancelled, BatchIsCancelled, rest, Scan({}, rest));
      } else if fate == Overdue {
        ScreenedKeeps(w, r, Expired, QueueExpired, rest, Scan({}, rest));
      } else if fate == Blocked {
        ScreenedKeeps(w, r, NeedsAttention, PeerBlocked, rest, Scan({}, rest));
      }
    }
  }

  lemma RescreenKeeps(w: World, r: RowId, fate: Fate)
    requires Inv(w)
    ensures Inv(StepRescreen(w, r, fate))
  {
    if w.turn.Launch? && r in w.turn.rows && fate != Runnable {
      var rest := w.turn.rows - {r};
      match fate
      case Overdue => ScreenedKeeps(w, r, Expired, QueueExpired, rest, Launch(rest));
      case Blocked => ScreenedKeeps(w, r, NeedsAttention, PeerBlocked, rest, Launch(rest));
      case _ => ScreenedKeeps(w, r, WaitingPeer, Fine, rest, Launch(rest));
    }
  }

  lemma LaunchedRefines(t: Table, t': Table, r: RowId, x: TaskId)
    requires RowsInv(t) && r in t.rows && Waits(t.rows[r].state) && !OfStoppedBatch(t, r) && t'.batches == t.batches
    requires r in t'.rows && t'.rows == t.rows[r := t'.rows[r]]
    requires t'.rows[r] == Started(t.rows[r], x)
    ensures Refines(t.rows, t'.rows) && RowsInv(t')
  {
    assert forall q | q in t.rows && q != r :: t'.rows[q] == t.rows[q];
  }

  lemma LaunchKeepsLinks(t: Table, t': Table, saved: map<TaskId, Saved>, aside: set<TaskId>, r: RowId, x: TaskId,
                         s: Saved)
    requires LinkInv(t.rows, saved, aside) && x !in saved && x !in aside
    requires r in t'.rows && t'.rows == t.rows[r := t'.rows[r]]
    requires t'.rows[r].task == Some(x) && t'.rows[r].state == Running
    ensures LinkInv(t'.rows, saved[x := s], aside)
  {
  }

  lemma LaunchKeepsHistory(t: Table, t': Table, tombs: set<TaskId>, past: Past, r: RowId, x: TaskId)
    requires LaunchedInv(t.rows, tombs, past.launched) && OrphanInv(t.rows, past)
    requires r in t.rows && Waits(t.rows[r].state) && x !in past.delivered && x !in past.quarantined
    requires r in t'.rows && t'.rows == t.rows[r := t'.rows[r]]
    requires t'.rows[r].task == Some(x) && t'.rows[r].state == Running
    ensures LaunchedInv(t'.rows, tombs, past.launched[r := x])
    ensures OrphanInv(t'.rows, past.(launched := past.launched[r := x]))
  {
  }

  lemma CreatedKeepsTasks(w: World, x: TaskId, task: Task)
    requires TaskSide(w) && x !in w.tasks && x !in w.saved && x !in Gone(w) && !Delivered(task.now.state)
    ensures TaskSide(w.(tasks := w.tasks[x := task], flights := w.flights + {(x, task.now)}))
    ensures TaskSide(w.(tasks := w.tasks[x := task], saved := w.saved[x := task.now]))
    ensures x !in w.past.delivered
  {
    assert x !in w.past.delivered;
  }

  lemma LaunchKeeps(w: World, r: RowId, x: TaskId, allowed: bool, persisted: bool)
    requires Inv(w)
    ensures Inv(StepLaunch(w, r, x, allowed, persisted))
  {
    var w' := StepLaunch(w, r, x, allowed, persisted);
    if w' != w && !Busy(w) {
      if !OfStoppedBatch(w.table, r) && allowed && persisted {
        LaunchedRefines(w.table, w'.table, r, x);
        RefiningKeepsTable(w.table, w'.table, w.past.layout);
        LaunchKeepsLinks(w.table, w'.table, w.saved, w.past.quarantined, r, x, Saved(Preparing, 1, false));
        CreatedKeepsTasks(w, x, Task(Saved(Preparing, 1, false), true, true));
        LaunchKeepsHistory(w.table, w'.table, Gone(w), w.past, r, x);
      } else {
        ScreenedKeeps(w, r, NeedsAttention, TaskError, w.turn.rows - {r}, Free);
        CreatedKeepsTasks(w, x, Task(Saved(Failed, 2, false), false, false));
      }
    }
  }

  // What a start-up may do to the saved tasks it can read.
  ghost predicate Reloads(saved: map<TaskId, Saved>, saved': map<TaskId, Saved>) {
    && saved'.Keys == saved.Keys
    && forall x | x in saved ::
         && saved[x].revision <= saved'[x].revision
         && if Terminal(saved[x].state) then saved'[x] == saved[x] else !Delivered(saved'[x].state)
  }

  lemma ReloadKeepsRows(t: Table, saved: map<TaskId, Saved>, saved': map<TaskId, Saved>, tombs: set<TaskId>, past: Past)
    requires RowSide(t, saved, tombs, past) && DeliveredInv(saved, tombs, past.delivered) && Reloads(saved, saved')
    ensures RowSide(t, saved', tombs, past) && DeliveredInv(saved', tombs, past.delivered)
  {
  }

  // The disk, as far as rows and deliveries are concerned.
  ghost predicate DiskInv(t: Table, saved: map<TaskId, Saved>, tombs: set<TaskId>, past: Past) {
    RowSide(t, saved, tombs, past) && DeliveredInv(saved, tombs, past.delivered)
  }

  lemma SettingAsideKeepsOrphans(t: Table, saved: map<TaskId, Saved>, tombs: set<TaskId>, past: Past, xs: set<TaskId>)
    requires DiskInv(t, saved, tombs, past) && saved.Keys !! tombs
    ensures OrphanInv(t.rows, past.(orphaned := past.orphaned + OrphansOf(t, saved, xs),
                                    quarantined := past.quarantined + (xs * saved.Keys)))
  {
    var past' := past.(orphaned := past.orphaned + OrphansOf(t, saved, xs),
                       quarantined := past.quarantined + (xs * saved.Keys));
    forall r | r in past.launched && r in t.rows && Bereft(t.rows[r], past') && past.launched[r] in past.delivered
      ensures t.rows[r].state == Completed || (r, past.launched[r]) in past'.orphaned
    {
      if !Bereft(t.rows[r], past) && t.rows[r].state != Completed {
        assert Orphaned(t, saved, t.rows[r].task.value, r);
      }
    }
  }

  lemma SettingAsideKeeps(w: World, xs: set<TaskId>)
    requires DiskInv(w.table, w.saved, Gone(w), w.past) && w.saved.Keys !! Gone(w)
    ensures var u := SetAside(w, xs); DiskInv(u.table, u.saved, Gone(u), u.past)
  {
    var u := SetAside(w, xs);
    SettingAsideKeepsOrphans(w.table, w.saved, Gone(w), w.past, xs);
    assert Gone(w) <= Gone(u);
    assert LaunchedInv(u.table.rows, Gone(u), u.past.launched);
  }

  lemma LoadingKeeps(w: World, s: StartUp, done: set<TaskId>)
    requires DiskInv(w.table, w.saved, Gone(w), w.past) && w.saved.Keys !! Gone(w)
    ensures var u := Loaded(w, s, done); DiskInv(w.table, u.saved, Gone(u), u.past)
  {
    var aside := SetAside(w, s.unreadable * done);
    SettingAsideKeeps(w, s.unreadable * done);
    ReloadKeepsRows(w.table, aside.saved, Interrupted(aside.saved, s.usable, done), Gone(aside), aside.past);
  }

  lemma FinishingKeeps(t: Table, saved: map<TaskId, Saved>, tombs: set<TaskId>, past: Past, done: set<TaskId>)
    requires DiskInv(t, saved, tombs, past)
    ensures DiskInv(Reconciled(t, saved), saved, tombs, past)
    ensures DiskInv(Reconciled(t, saved), ChildrenFinished(Reconciled(t, saved), saved, done), tombs, past)
  {
    var r := Reconciled(t, saved);
    ReconciledKeeps(t, saved, tombs, past);
    ReloadKeepsRows(r, saved, ChildrenFinished(r, saved, done), tombs, past);
  }

  lemma StoppingFollows(t: Table, saved: map<TaskId, Saved>)
    requires RowsInv(t)
    ensures AllFollow(t, ChildrenStopped(t), saved)
  {
  }

  // Every saved task is one that was saved before, at least as new, and delivered only if it was.
  ghost predicate FromDisk(w: World, saved: map<TaskId, Saved>, past: Past) {
    && (forall x | x in saved ::
          && x in w.saved && w.saved[x].revision <= saved[x].revision
          && (Terminal(w.saved[x].state) ==> saved[x] == w.saved[x])
          && (Delivered(saved[x].state) ==> Delivered(w.saved[x].state)))
    && (forall x | x in w.saved && x !in saved :: x in past.quarantined)
    && saved.Keys !! past.quarantined
  }

  lemma LoadedFromDisk(w: World, s: StartUp, done: set<TaskId>)
    requires w.saved.Keys !! w.past.quarantined
    ensures FromDisk(w, Loaded(w, s, done).saved, Loaded(w, s, done).past)
  {
  }

  lemma FinishedFromDisk(w: World, t: Table, saved: map<TaskId, Saved>, past: Past, done: set<TaskId>)
    requires FromDisk(w, saved, past)
    ensures FromDisk(w, ChildrenFinished(t, saved, done), past)
  {
  }

  // Memory is filled from the disk alone.
  lemma FreshMemoryKeeps(w: World, w': World)
    requires TaskSide(w) && FromDisk(w, w'.saved, w'.past) && w'.tombs == w.tombs && w'.flights == {}
    requires forall x | x in w'.tasks :: x in w'.saved && w'.tasks[x].now == w'.saved[x]
    requires forall x | x in w'.saved && x !in w'.tasks :: Terminal(w'.saved[x].state)
    requires DeliveredInv(w'.saved, Gone(w'), w'.past.delivered)
    ensures TaskSide(w')
  {
  }

  lemma SavedAndGone(w: World)
    requires Inv(w)
    ensures w.saved.Keys !! Gone(w)
  {
  }

  lemma RestartKeeps(w: World, s: StartUp)
    requires Inv(w)
    ensures Inv(StepRestart(w, s))
  {
    var u := Loaded(w, s, AllTasks(w));
    var t := Reconciled(w.table, u.saved);
    SavedAndGone(w);
    LoadingKeeps(w, s, AllTasks(w));
    FinishingKeeps(w.table, u.saved, Gone(u), u.past, AllTasks(w));
    RestoredKeeps(t, ChildrenFinished(t, u.saved, AllTasks(w)), Gone(u), u.past);
    LoadedFromDisk(w, s, AllTasks(w));
    FinishedFromDisk(w, t, u.saved, u.past, AllTasks(w));
    FreshMemoryKeeps(w, StepRestart(w, s));
  }

  lemma LoadingCrashKeeps(w: World, s: StartUp, done: set<TaskId>)
    requires Inv(w)
    ensures var u := Loaded(w, s, done);
            DiskInv(w.table, u.saved, Gone(u), u.past) && FromDisk(w, u.saved, u.past)
  {
    SavedAndGone(w);
    LoadingKeeps(w, s, done);
    LoadedFromDisk(w, s, done);
  }

  lemma FinishingCrashKeeps(w: World, s: StartUp, some: set<TaskId>)
    requires Inv(w)
    ensures var u := Loaded(w, s, AllTasks(w));
            var t := Reconciled(w.table, u.saved);
            var finished := ChildrenFinished(t, u.saved, some);
            && DiskInv(t, u.saved, Gone(u), u.past) && FromDisk(w, u.saved, u.past)
            && DiskInv(t, finished, Gone(u), u.past) && FromDisk(w, finished, u.past)
  {
    var u := Loaded(w, s, AllTasks(w));
    LoadingCrashKeeps(w, s, AllTasks(w));
    FinishingKeeps(w.table, u.saved, Gone(u), u.past, some);
    FinishedFromDisk(w, Reconciled(w.table, u.saved), u.saved, u.past, some);
  }

  lemma StoppingCrashKeeps(w: World, s: StartUp)
    requires Inv(w)
    ensures var u := Loaded(w, s, AllTasks(w));
            var t := Reconciled(w.table, u.saved);
            var finished := ChildrenFinished(t, u.saved, AllTasks(w));
            DiskInv(ChildrenStopped(t), finished, Gone(u), u.past) && FromDisk(w, finished, u.past)
  {
    var u := Loaded(w, s, AllTasks(w));
    var t := Reconciled(w.table, u.saved);
    var finished := ChildrenFinished(t, u.saved, AllTasks(w));
    FinishingCrashKeeps(w, s, AllTasks(w));
    StoppingFollows(t, finished);
    FollowingKeeps(t, ChildrenStopped(t), finished, Gone(u), u.past);
  }

  lemma CrashKeepsDisk(w: World, s: StartUp, reach: Reach)
    requires Inv(w)
    ensures var w' := StepCrash(w, s, reach);
            DiskInv(w'.table, w'.saved, Gone(w'), w'.past) && FromDisk(w, w'.saved, w'.past)
  {
    match reach
    case Loading(done) => LoadingCrashKeeps(w, s, done);
    case Reconciling => FinishingCrashKeeps(w, s, {});
    case Finishing(done) => FinishingCrashKeeps(w, s, done);
    case Stopping => StoppingCrashKeeps(w, s);
  }

  lemma CrashKeeps(w: World, s: StartUp, reach: Reach)
    requires Inv(w)
    ensures Inv(StepCrash(w, s, reach))
  {
    CrashKeepsDisk(w, s, reach);
    FreshMemoryKeeps(w, StepCrash(w, s, reach));
  }

  lemma ConfirmKeeps(w: World, r: RowId, revision: nat)
    requires Inv(w)
    ensures Inv(StepConfirm(w, r, revision))
  {
    if MayConfirm(w, r, revision) {
      if Resumable(w, r) {
        ResumeKeeps(w, r, revision);
      } else {
        RequeueKeeps(w, r, revision);
      }
    }
  }

  lemma CancelBatchKeeps(w: World, b: BatchId, revision: nat)
    requires Inv(w)
    ensures Inv(StepCancelBatch(w, b, revision))
  {
    if b in w.table.batches {
      BatchStoppedKeeps(w.table, w.saved, Gone(w), w.past, b);
    }
  }

  lemma ReconcileKeeps(w: World)
    requires Inv(w)
    ensures Inv(StepReconcile(w))
  {
    ReconciledKeeps(w.table, w.saved, Gone(w), w.past);
  }

  lemma ReorderKeeps(w: World, ids: seq<RowId>)
    requires Inv(w)
    ensures Inv(StepReorder(w, ids))
  {
    if MayReorder(w.table, ids) {
      ReorderedKeeps(w.table, w.saved, Gone(w), w.past, ids);
    }
  }

  lemma ListKeeps(w: World, a: Act)
    requires Inv(w)
    ensures Inv(NextList(w, a))
  {
    match a
    case Enqueue(id, direct, peer, content, online, top) =>
      EnqueueKeeps(w, id, Direct(direct), peer, content, online, top);
    case EnqueueBatch(b, name, peers, ids, reachable, top) => EnqueueBatchKeeps(w, b, name, peers, ids, reachable, top);
    case Reconcile => ReconcileKeeps(w);
    case Reorder(ids) => ReorderKeeps(w, ids);
    case _ =>
  }

  lemma CancelKeeps(w: World, a: Act)
    requires Inv(w) && (a.CancelRow? || a.CancelBatch?)
    ensures Inv(NextEdit(w, a))
  {
    if a.CancelRow? {
      CancelRowKeeps(w, a.r, a.revision);
    } else {
      CancelBatchKeeps(w, a.b, a.revision);
    }
  }

  lemma EditKeeps(w: World, a: Act)
    requires Inv(w)
    ensures Inv(NextEdit(w, a))
  {
    if a.CancelRow? || a.CancelBatch? {
      CancelKeeps(w, a);
    } else if a.Confirm? {
      ConfirmKeeps(w, a.r, a.revision);
    } else if a.Forget? {
      ForgetKeeps(w, a.x, a.revision);
    }
  }

  lemma SavingKeeps(w: World, a: Act)
    requires Inv(w) && (a.Work? || a.Land? || a.Lose?)
    ensures Inv(NextTask(w, a))
  {
    if a.Work? {
      WorkKeeps(w, a.x, a.next);
    } else if a.Land? {
      LandKeeps(w, a.x, a.s);
    } else {
      LoseKeeps(w, a.x, a.s);
    }
  }

  lemma TaskStepKeeps(w: World, a: Act)
    requires Inv(w)
    ensures Inv(NextTask(w, a))
  {
    if a.Work? || a.Land? || a.Lose? {
      SavingKeeps(w, a);
    } else if a.Restart? {
      RestartKeeps(w, a.start);
    } else if a.Crash? {
      CrashKeeps(w, a.start, a.reach);
    }
  }

  lemma FirstPassKeeps(w: World, a: Act)
    requires Inv(w)
    ensures Inv(NextFirst(w, a))
  {
    match a
    case Begin => BeginKeeps(w);
    case Observe(r) => ObserveKeeps(w, r);
    case Conclude => ConcludeKeeps(w);
    case Screen(r, fate) => ScreenKeeps(w, r, fate);
    case _ =>
  }

  lemma SecondPassKeeps(w: World, a: Act)
    requires Inv(w)
    ensures Inv(NextSecond(w, a))
  {
    match a
    case Unlock =>
    case Relock =>
    case Rescreen(r, fate) => RescreenKeeps(w, r, fate);
    case Dispatch(r, x, allowed, persisted) => LaunchKeeps(w, r, x, allowed, persisted);
    case _ =>
  }

  lemma NextKeeps(w: World, a: Act)
    requires Inv(w)
    ensures Inv(Next(w, a))
  {
    if ListCommand(a) {
      ListKeeps(w, a);
    } else if IsCommand(a) {
      EditKeeps(w, a);
    } else if IsTaskStep(a) {
      TaskStepKeeps(w, a);
    } else if FirstPass(a) {
      FirstPassKeeps(w, a);
    } else {
      SecondPassKeeps(w, a);
    }
  }

  lemma {:induction false} RunKeepsInv(w: World, acts: seq<Act>)
    requires Inv(w)
    ensures Inv(RunFrom(w, acts))
    decreases |acts|
  {
    if acts != [] {
      NextKeeps(w, acts[0]);
      RunKeepsInv(Next(w, acts[0]), acts[1..]);
    }
  }

  // ------------------------------------------------------------- how rows evolve

  ghost predicate RowEvolves(was: Row, row: Row, stopped: bool, saved: map<TaskId, Saved>) {
    && row.request == was.request && row.peer == was.peer && row.batch == was.batch && row.place == was.place
    && row.content == was.content
    && (was.state == Completed ==> row.state == Completed)
    && (Ended(was.state) && row.state != was.state ==> row.state == Completed && stopped)
    && (row.state == Completed && was.state != Completed ==>
          row.task.Some? && row.task == was.task && row.task.value in saved && Delivered(saved[row.task.value].state))
    && (row.state == Running && was.state != Running ==> !stopped)
  }

  ghost predicate Evolves(t: Table, t': Table, saved: map<TaskId, Saved>) {
    && (forall b | b in t.batches :: b in t'.batches && (t.batches[b].cancelled ==> t'.batches[b].cancelled))
    && forall r | r in t.rows :: r in t'.rows && RowEvolves(t.rows[r], t'.rows[r], OfStoppedBatch(t', r), saved)
  }

  // A state set on a row that had not ended.
  lemma SetStateEvolves(t: Table, saved: map<TaskId, Saved>, r: RowId, state: RowState, reason: Reason)
    requires r in t.rows && !Ended(t.rows[r].state)
    requires state == Completed ==>
               t.rows[r].task.Some? && t.rows[r].task.value in saved && Delivered(saved[t.rows[r].task.value].state)
    requires state == Running ==> !OfStoppedBatch(t, r)
    ensures Evolves(t, SetState(t, r, state, reason), saved)
  {
  }

  lemma ReconciledEvolves(t: Table, saved: map<TaskId, Saved>)
    ensures Evolves(t, Reconciled(t, saved), saved)
  {
    var t' := Reconciled(t, saved);
    forall r | r in t.rows
      ensures RowEvolves(t.rows[r], t'.rows[r], OfStoppedBatch(t', r), saved)
    {
      assert t'.rows[r].batch == t.rows[r].batch;
    }
  }

  lemma BatchStoppedEvolves(t: Table, saved: map<TaskId, Saved>, b: BatchId)
    requires b in t.batches
    ensures Evolves(t, BatchStopped(t, b), saved)
  {
  }

  lemma RestoredEvolves(t: Table, saved: map<TaskId, Saved>)
    ensures Evolves(t, Restored(t), saved)
  {
    var t' := Restored(t);
    forall r | r in t.rows
      ensures RowEvolves(t.rows[r], t'.rows[r], OfStoppedBatch(t', r), saved)
    {
      assert t'.rows[r] == RestoredRow(t, r);
    }
  }

  lemma RestartEvolves(w: World, s: StartUp)
    ensures Evolves(w.table, StepRestart(w, s).table, StepRestart(w, s).saved)
  {
    var saved := Loaded(w, s, AllTasks(w)).saved;
    var t := Reconciled(w.table, saved);
    var finished := ChildrenFinished(t, saved, AllTasks(w));
    ReconciledEvolves(w.table, saved);
    RestoredEvolves(t, finished);
    forall r | r in w.table.rows
      ensures RowEvolves(w.table.rows[r], Restored(t).rows[r], OfStoppedBatch(Restored(t), r), finished)
    {
      assert RowEvolves(w.table.rows[r], t.rows[r], OfStoppedBatch(t, r), saved);
      assert Restored(t).rows[r] == RestoredRow(t, r);
    }
  }

  lemma StoppedEvolves(t: Table, saved: map<TaskId, Saved>)
    ensures Evolves(t, ChildrenStopped(t), saved)
  {
    var t' := ChildrenStopped(t);
    forall r | r in t.rows
      ensures RowEvolves(t.rows[r], t'.rows[r], OfStoppedBatch(t', r), saved)
    {
      assert t'.rows[r].batch == t.rows[r].batch;
    }
  }

  lemma ReconciledThenStopped(t: Table, saved: map<TaskId, Saved>)
    ensures Evolves(t, ChildrenStopped(Reconciled(t, saved)), saved)
  {
    var u := Reconciled(t, saved);
    var t' := ChildrenStopped(u);
    ReconciledEvolves(t, saved);
    StoppedEvolves(u, saved);
    forall r | r in t.rows
      ensures RowEvolves(t.rows[r], t'.rows[r], OfStoppedBatch(t', r), saved)
    {
      assert RowEvolves(t.rows[r], u.rows[r], OfStoppedBatch(u, r), saved);
      assert RowEvolves(u.rows[r], t'.rows[r], OfStoppedBatch(t', r), saved);
    }
  }

  lemma EvolvesToo(t: Table, t': Table, saved: map<TaskId, Saved>, saved': map<TaskId, Saved>)
    requires Evolves(t, t', saved)
    requires forall x | x in saved && Delivered(saved[x].state) :: x in saved' && Delivered(saved'[x].state)
    ensures Evolves(t, t', saved')
  {
  }

  lemma CrashEvolves(w: World, s: StartUp, reach: Reach)
    ensures Evolves(w.table, StepCrash(w, s, reach).table, StepCrash(w, s, reach).saved)
  {
    var w' := StepCrash(w, s, reach);
    if reach.Loading? {
      SameEvolves(w.table, w'.saved);
    } else {
      var saved := Loaded(w, s, AllTasks(w)).saved;
      ReconciledEvolves(w.table, saved);
      ReconciledThenStopped(w.table, saved);
      EvolvesToo(w.table, w'.table, saved, w'.saved);
    }
  }

  lemma ConfirmEvolves(w: World, r: RowId, revision: nat)
    ensures Evolves(w.table, StepConfirm(w, r, revision).table, StepConfirm(w, r, revision).saved)
  {
    if MayConfirm(w, r, revision) && Resumable(w, r) {
      SetStateEvolves(w.table, w.saved, r, Running, Fine);
    }
  }

  lemma EnqueueBatchEvolves(w: World, b: BatchId, request: nat, peers: seq<PeerId>, ids: seq<RowId>,
                            reachable: set<PeerId>, top: int)
    ensures Evolves(w.table, StepEnqueueBatch(w, b, request, peers, ids, reachable, top).table, w.saved)
  {
    if MayEnqueueBatch(w.table, b, request, peers, ids) {
      WithChildrenInserts(w.table.rows, b, request, peers, ids, reachable, top, |peers|);
    }
  }

  lemma CancelRowEvolves(w: World, r: RowId, revision: nat)
    ensures Evolves(w.table, StepCancelRow(w, r, revision).table, w.saved)
  {
    if r in w.table.rows && !Ended(w.table.rows[r].state) {
      SetStateEvolves(w.table, w.saved, r, Cancelled, Fine);
    }
  }

  lemma ForgetEvolves(w: World, x: TaskId, revision: nat)
    ensures Evolves(w.table, StepForget(w, x, revision).table, StepForget(w, x, revision).saved)
  {
    var t' := Unlinked(w.table, x);
    forall r | r in w.table.rows
      ensures t'.rows[r].state == w.table.rows[r].state && t'.rows[r].batch == w.table.rows[r].batch
    {
    }
  }

  lemma SameEvolves(t: Table, saved: map<TaskId, Saved>)
    ensures Evolves(t, t, saved)
  {
  }

  lemma EnqueueEvolves(w: World, id: RowId, request: Request, peer: PeerId, content: nat, reachable: bool, top: int)
    ensures Evolves(w.table, StepEnqueue(w, id, request, peer, content, reachable, top).table, w.saved)
  {
    SameEvolves(w.table, w.saved);
    var t' := StepEnqueue(w, id, request, peer, content, reachable, top).table;
    if t' != w.table {
      forall r | r in w.table.rows
        ensures t'.rows[r] == w.table.rows[r]
      {
      }
    }
  }

  lemma ReorderEvolves(w: World, ids: seq<RowId>)
    ensures Evolves(w.table, StepReorder(w, ids).table, w.saved)
  {
  }

  lemma ListEvolves(w: World, a: Act)
    ensures Evolves(w.table, NextList(w, a).table, NextList(w, a).saved)
  {
    SameEvolves(w.table, w.saved);
    match a
    case Enqueue(id, direct, peer, content, online, top) =>
      EnqueueEvolves(w, id, Direct(direct), peer, content, online, top);
    case EnqueueBatch(b, name, peers, ids, reachable, top) =>
      EnqueueBatchEvolves(w, b, name, peers, ids, reachable, top);
    case Reconcile => ReconciledEvolves(w.table, w.saved);
    case Reorder(ids) => ReorderEvolves(w, ids);
    case _ =>
  }

  lemma CancelBatchEvolves(w: World, b: BatchId, revision: nat)
    ensures Evolves(w.table, StepCancelBatch(w, b, revision).table, w.saved)
  {
    SameEvolves(w.table, w.saved);
    if b in w.table.batches {
      BatchStoppedEvolves(w.table, w.saved, b);
    }
  }

  lemma EditEvolves(w: World, a: Act)
    ensures Evolves(w.table, NextEdit(w, a).table, NextEdit(w, a).saved)
  {
    match a
    case CancelRow(r, revision) => CancelRowEvolves(w, r, revision);
    case CancelBatch(b, revision) => CancelBatchEvolves(w, b, revision);
    case Confirm(r, revision) => ConfirmEvolves(w, r, revision);
    case Forget(x, revision) => ForgetEvolves(w, x, revision);
    case _ => SameEvolves(w.table, w.saved);
  }

  lemma ObserveEvolves(w: World, r: RowId)
    requires TurnInv(w.table.rows, w.turn)
    ensures Evolves(w.table, StepObserve(w, r).table, w.saved)
  {
    if r in w.table.rows && !Ended(w.table.rows[r].state) {
      SetStateEvolves(w.table, w.saved, r, NeedsAttention, TaskNotFound);
    }
  }

  lemma ScreenEvolves(w: World, r: RowId, fate: Fate)
    requires TurnInv(w.table.rows, w.turn)
    ensures Evolves(w.table, StepScreen(w, r, fate).table, w.saved)
  {
    SameEvolves(w.table, w.saved);
    if w.turn.Scan? && w.turn.rows == {} && r in w.turn.waiting {
      if OfStoppedBatch(w.table, r) {
        SetStateEvolves(w.table, w.saved, r, Cancelled, BatchIsCancelled);
      } else if fate == Overdue {
        SetStateEvolves(w.table, w.saved, r, Expired, QueueExpired);
      } else if fate == Blocked {
        SetStateEvolves(w.table, w.saved, r, NeedsAttention, PeerBlocked);
      }
    }
  }

  lemma RescreenEvolves(w: World, r: RowId, fate: Fate)
    requires TurnInv(w.table.rows, w.turn)
    ensures Evolves(w.table, StepRescreen(w, r, fate).table, w.saved)
  {
    SameEvolves(w.table, w.saved);
    if w.turn.Launch? && r in w.turn.rows {
      match fate
      case Overdue => SetStateEvolves(w.table, w.saved, r, Expired, QueueExpired);
      case Blocked => SetStateEvolves(w.table, w.saved, r, NeedsAttention, PeerBlocked);
      case _ => SetStateEvolves(w.table, w.saved, r, WaitingPeer, Fine);
    }
  }

  lemma ConcludeEvolves(w: World)
    requires TurnInv(w.table.rows, w.turn)
    ensures Evolves(w.table, StepConclude(w).table, w.saved)
  {
    if w.turn.Judge? && w.turn.row in w.table.rows && w.table.rows[w.turn.row].task.Some? {
      var state, reason := ConcludedIs(w.table, w.saved, w.turn.row, w.turn.seen);
      if Concluded(w.table, w.saved, w.turn.row, w.turn.seen) != w.table {
        SetStateEvolves(w.table, w.saved, w.turn.row, state, reason);
      }
    }
  }

  lemma StartedEvolves(t: Table, saved: map<TaskId, Saved>, r: RowId, row: Row)
    requires r in t.rows && Waits(t.rows[r].state) && !OfStoppedBatch(t, r)
    requires row == t.rows[r].(state := Running, task := row.task, reason := Fine, revision := row.revision)
    ensures Evolves(t, t.(rows := t.rows[r := row]), saved)
  {
  }

  lemma LaunchEvolves(w: World, r: RowId, x: TaskId, allowed: bool, persisted: bool)
    requires TurnInv(w.table.rows, w.turn)
    ensures var w' := StepLaunch(w, r, x, allowed, persisted); Evolves(w.table, w'.table, w'.saved)
  {
    var saved := StepLaunch(w, r, x, allowed, persisted).saved;
    SameEvolves(w.table, saved);
    if w.turn.Launch? && r in w.turn.rows {
      if OfStoppedBatch(w.table, r) || !allowed || !persisted {
        SetStateEvolves(w.table, saved, r, NeedsAttention, TaskError);
      } else {
        StartedEvolves(w.table, saved, r, Started(w.table.rows[r], x));
      }
    }
  }

  lemma BeginEvolves(w: World)
    ensures Evolves(w.table, StepBegin(w).table, w.saved)
  {
    SameEvolves(w.table, w.saved);
    ReconciledEvolves(w.table, w.saved);
  }

  lemma FirstPassEvolves(w: World, a: Act)
    requires TurnInv(w.table.rows, w.turn)
    ensures Evolves(w.table, NextFirst(w, a).table, NextFirst(w, a).saved)
  {
    match a
    case Begin => BeginEvolves(w);
    case Observe(r) => ObserveEvolves(w, r);
    case Conclude => ConcludeEvolves(w);
    case Screen(r, fate) => ScreenEvolves(w, r, fate);
    case _ => SameEvolves(w.table, w.saved);
  }

  lemma SecondPassEvolves(w: World, a: Act)
    requires TurnInv(w.table.rows, w.turn)
    ensures Evolves(w.table, NextSecond(w, a).table, NextSecond(w, a).saved)
  {
    match a
    case Rescreen(r, fate) => RescreenEvolves(w, r, fate);
    case Dispatch(r, x, allowed, persisted) => LaunchEvolves(w, r, x, allowed, persisted);
    case _ => SameEvolves(w.table, w.saved);
  }

  lemma TaskStepEvolves(w: World, a: Act)
    requires Inv(w)
    ensures Evolves(w.table, NextTask(w, a).table, NextTask(w, a).saved)
  {
    SameEvolves(w.table, NextTask(w, a).saved);
    if a.Restart? {
      RestartEvolves(w, a.start);
    } else if a.Crash? {
      CrashEvolves(w, a.start, a.reach);
    }
  }

  /** What any step may do to any row. Completed is final; a cancelled or expired row can only become
      completed, and only when its batch is cancelled; a row becomes completed only when its task is delivered
      on disk at that moment; no row of a cancelled batch starts running; and no batch is ever un-cancelled. */
  lemma StepEvolves(w: World, a: Act)
    requires Inv(w)
    ensures Evolves(w.table, Next(w, a).table, Next(w, a).saved)
  {
    if ListCommand(a) {
      ListEvolves(w, a);
    } else if IsCommand(a) {
      EditEvolves(w, a);
    } else if IsTaskStep(a) {
      TaskStepEvolves(w, a);
    } else if FirstPass(a) {
      FirstPassEvolves(w, a);
    } else {
      SecondPassEvolves(w, a);
    }
  }

  /** The queue at any moment of any run, restarts included: waiting rows have no task and running rows have
      one; every row's task is on disk, as delivered if the row is completed; no two rows share a request; at
      most 1000 rows are unfinished; every batch is whole, with 2 to 16 rows at places 1..n for distinct
      targets; and the rows of a cancelled batch have ended. */
  lemma {:induction false} QueueInvariant(acts: seq<Act>)
    ensures var w := RunFrom(START, acts);
            && TableInv(w.table, w.past.layout) && LinkInv(w.table.rows, w.saved, w.past.quarantined)
  {
    RunKeepsInv(START, acts);
  }

  // The task of this row is saved as delivered, in the state seen and at no older revision.
  ghost predicate Receipt(row: Row, saved: map<TaskId, Saved>, seen: Task) {
    && row.task.Some? && row.task.value in saved && Delivered(saved[row.task.value].state)
    && saved[row.task.value].state == seen.now.state && seen.now.revision <= saved[row.task.value].revision
  }

  lemma ConcludedNeedsReceipt(t: Table, saved: map<TaskId, Saved>, row: RowId, seen: Task, r: RowId)
    requires row in t.rows && t.rows[row].task.Some? && t.rows[row].state == Running
    requires r in t.rows && t.rows[r].state != Completed && Concluded(t, saved, row, seen).rows[r].state == Completed
    ensures r == row && Receipt(t.rows[r], saved, seen)
  {
    var state, reason := ConcludedIs(t, saved, row, seen);
  }

  /** A receipt is never ahead of the disk: the dispatcher completes a row only when its task is saved as
      delivered, in the state it observed and at a revision no older than the one it observed. */
  lemma {:induction false} ReceiptIsCurrent(acts: seq<Act>, r: RowId)
    requires var w := RunFrom(START, acts);
             w.turn.Judge? && r in w.table.rows && w.table.rows[r].state != Completed
             && r in StepConclude(w).table.rows && StepConclude(w).table.rows[r].state == Completed
    ensures var w := RunFrom(START, acts); r == w.turn.row && Receipt(w.table.rows[r], w.saved, w.turn.seen)
  {
    RunKeepsInv(START, acts);
    var w := RunFrom(START, acts);
    if w.turn.row in w.table.rows && w.table.rows[w.turn.row].task.Some? {
      ConcludedNeedsReceipt(w.table, w.saved, w.turn.row, w.turn.seen, r);
    }
  }

  // --------------------------------------------------- a cancelled batch stays still

  // What a start-up sets aside of this.
  function Unreadable(w: World, s: StartUp, done: set<TaskId>): set<TaskId> {
    s.unreadable * done
  }

  // What rows lose at a step.
  function NewOrphans(w: World, a: Act): set<(RowId, TaskId)> {
    match a
    case Forget(x, revision) => if MayForget(w, x, revision) then Orphans(w.table, w.saved, x) else {}
    case Restart(s) => OrphansOf(w.table, w.saved, Unreadable(w, s, AllTasks(w)))
    case Crash(s, reach) =>
      OrphansOf(w.table, w.saved, Unreadable(w, s, if reach.Loading? then reach.done else AllTasks(w)))
    case _ => {}
  }

  // The steps that write to the history or add rows.
  ghost predicate Frame(w: World, a: Act, w': World) {
    && w'.past.orphaned == w.past.orphaned + NewOrphans(w, a)
    && (w'.past.launched == w.past.launched
        || (a.Confirm? && MayConfirm(w, a.r, a.revision) && w'.past.launched == w.past.launched - {a.r})
        || (a.Dispatch? && w.turn.Launch? && a.r in w.turn.rows && w'.past.launched == w.past.launched[a.r := a.x]))
    && (w'.table.rows.Keys == w.table.rows.Keys
        || (a.Enqueue? && w'.table.rows.Keys == w.table.rows.Keys + {a.id} && w'.table.rows[a.id].batch.None?)
        || (a.EnqueueBatch? && MayEnqueueBatch(w.table, a.b, a.name, a.peers, a.ids)
            && w'.table == BatchEnqueued(w.table, a.b, a.name, a.peers, a.ids, a.reachable, a.top)))
  }

  lemma ListFrame(w: World, a: Act)
    requires ListCommand(a)
    ensures Frame(w, a, NextList(w, a))
  {
  }

  lemma EditFrame(w: World, a: Act)
    requires IsCommand(a) && !ListCommand(a)
    ensures Frame(w, a, NextEdit(w, a))
  {
  }

  lemma TaskFrame(w: World, a: Act)
    requires IsTaskStep(a)
    ensures Frame(w, a, NextTask(w, a))
  {
  }

  lemma FirstPassFrame(w: World, a: Act)
    requires FirstPass(a)
    ensures Frame(w, a, NextFirst(w, a))
  {
  }

  lemma SecondPassFrame(w: World, a: Act)
    requires !IsCommand(a) && !IsTaskStep(a)
    ensures Frame(w, a, NextSecond(w, a))
  {
  }

  lemma NextFrame(w: World, a: Act)
    ensures Frame(w, a, Next(w, a))
  {
    if ListCommand(a) {
      ListFrame(w, a);
    } else if IsCommand(a) {
      EditFrame(w, a);
    } else if IsTaskStep(a) {
      TaskFrame(w, a);
    } else if FirstPass(a) {
      FirstPassFrame(w, a);
    } else {
      SecondPassFrame(w, a);
    }
  }

  // One step gives a cancelled batch no new row, and starts no task for a row it has.
  lemma FamilyStays(w: World, a: Act, w': World, b: BatchId)
    requires RowsInv(w.table) && TurnInv(w.table.rows, w.turn) && Frame(w, a, w')
    requires b in w.table.batches && w.table.batches[b].cancelled
    ensures forall r | r in w'.table.rows && w'.table.rows[r].batch == Some(b) :: r in w.table.rows
    ensures forall r | r in w.table.rows && w.table.rows[r].batch == Some(b) ::
              (r in w'.past.launched <==> r in w.past.launched)
              && (r in w.past.launched ==> w'.past.launched[r] == w.past.launched[r])
  {
    assert forall r | r in w.table.rows && w.table.rows[r].batch == Some(b) :: OfStoppedBatch(w.table, r);
    if a.EnqueueBatch? && MayEnqueueBatch(w.table, a.b, a.name, a.peers, a.ids) {
      NewRowsBelong(w.table, a.b, a.name, a.peers, a.ids, a.reachable, a.top);
    }
  }

  lemma NewRowsBelong(t: Table, b: BatchId, request: nat, peers: seq<PeerId>, ids: seq<RowId>,
                      reachable: set<PeerId>, top: int)
    requires MayEnqueueBatch(t, b, request, peers, ids)
    ensures var rows' := BatchEnqueued(t, b, request, peers, ids, reachable, top).rows;
            forall r | r in rows' && r !in t.rows :: rows'[r].batch == Some(b)
  {
    WithChildrenInserts(t.rows, b, request, peers, ids, reachable, top, |peers|);
    var rows' := BatchEnqueued(t, b, request, peers, ids, reachable, top).rows;
    forall r | r in rows' && r !in t.rows
      ensures rows'[r].batch == Some(b)
    {
      var i :| 0 <= i < |ids| && ids[i] == r;
    }
  }

  // A task of this batch that is under way.
  predicate LiveIn(w: World, x: TaskId, b: BatchId) {
    x in w.tasks && w.tasks[x].live && x in w.family && w.family[x] == b
  }

  predicate StoppedBatch(w: World, b: BatchId) {
    b in w.table.batches && w.table.batches[b].cancelled
  }

  lemma EditWakesNone(w: World, a: Act, b: BatchId, x: TaskId)
    requires StoppedBatch(w, b) && LiveIn(NextEdit(w, a), x, b)
    ensures LiveIn(w, x, b)
  {
  }

  lemma TaskStepWakesNone(w: World, a: Act, b: BatchId, x: TaskId)
    requires StoppedBatch(w, b) && LiveIn(NextTask(w, a), x, b)
    ensures LiveIn(w, x, b)
  {
  }

  lemma LaunchWakesNone(w: World, a: Act, b: BatchId, x: TaskId)
    requires StoppedBatch(w, b) && LiveIn(NextSecond(w, a), x, b)
    ensures LiveIn(w, x, b)
  {
    if a.Dispatch? && a.r in w.table.rows && w.table.rows[a.r].batch == Some(b) {
      assert OfStoppedBatch(w.table, a.r);
    }
  }

  // No step makes a task of a cancelled batch live.
  lemma StepWakesNone(w: World, a: Act, b: BatchId, x: TaskId)
    requires StoppedBatch(w, b) && LiveIn(Next(w, a), x, b)
    ensures LiveIn(w, x, b)
  {
    if ListCommand(a) {
    } else if IsCommand(a) {
      EditWakesNone(w, a, b, x);
    } else if IsTaskStep(a) {
      TaskStepWakesNone(w, a, b, x);
    } else if FirstPass(a) {
    } else {
      LaunchWakesNone(w, a, b, x);
    }
  }

  // A row's task belongs to the row's batch.
  ghost predicate FamilyInv(rows: map<RowId, Row>, family: map<TaskId, BatchId>) {
    forall r | r in rows && rows[r].task.Some? && rows[r].batch.Some? ::
      rows[r].task.value in family && family[rows[r].task.value] == rows[r].batch.value
  }

  // Rows keep their batch, and get a task only at their launch.
  ghost predicate TasksKept(rows: map<RowId, Row>, rows': map<RowId, Row>) {
    forall r | r in rows' && rows'[r].task.Some? ::
      r in rows && rows[r].task == rows'[r].task && rows[r].batch == rows'[r].batch
  }

  lemma ListKeepsTasks(w: World, a: Act)
    ensures TasksKept(w.table.rows, NextList(w, a).table.rows) && NextList(w, a).family == w.family
  {
    if a.EnqueueBatch? && NextList(w, a) != w {
      WithChildrenInserts(w.table.rows, a.b, a.name, a.peers, a.ids, a.reachable, a.top, |a.peers|);
      NewRowsHaveNoTask(w.table.rows, NextList(w, a).table.rows, a.b, a.name, a.peers, a.ids, a.reachable, a.top);
    }
  }

  lemma ForgetKeepsTasks(w: World, x: TaskId, revision: nat)
    ensures TasksKept(w.table.rows, StepForget(w, x, revision).table.rows)
  {
  }

  lemma CancelRowKeepsTasks(w: World, r: RowId, revision: nat)
    ensures TasksKept(w.table.rows, StepCancelRow(w, r, revision).table.rows)
  {
    var t' := StepCancelRow(w, r, revision).table;
    assert t' == w.table || t'.rows == w.table.rows[r := t'.rows[r]];
  }

  lemma EditKeepsFamily(w: World, a: Act)
    ensures NextEdit(w, a).family == w.family
  {
  }

  lemma CancelBatchKeepsTasks(w: World, b: BatchId, revision: nat)
    ensures TasksKept(w.table.rows, StepCancelBatch(w, b, revision).table.rows)
  {
  }

  lemma ConfirmKeepsTasks(w: World, r: RowId, revision: nat)
    ensures TasksKept(w.table.rows, StepConfirm(w, r, revision).table.rows)
  {
  }

  lemma EditKeepsTasks(w: World, a: Act)
    ensures TasksKept(w.table.rows, NextEdit(w, a).table.rows) && NextEdit(w, a).family == w.family
  {
    EditKeepsFamily(w, a);
    match a
    case CancelRow(r, revision) => CancelRowKeepsTasks(w, r, revision);
    case CancelBatch(b, revision) => CancelBatchKeepsTasks(w, b, revision);
    case Confirm(r, revision) => ConfirmKeepsTasks(w, r, revision);
    case Forget(x, revision) => ForgetKeepsTasks(w, x, revision);
    case _ =>
  }

  lemma RestartKeepsTasks(w: World, s: StartUp)
    ensures TasksKept(w.table.rows, StepRestart(w, s).table.rows)
  {
  }

  lemma CrashKeepsTasks(w: World, s: StartUp, reach: Reach)
    ensures TasksKept(w.table.rows, StepCrash(w, s, reach).table.rows)
  {
  }

  lemma TaskStepKeepsFamily(w: World, a: Act)
    ensures NextTask(w, a).family == w.family
    ensures !a.Restart? && !a.Crash? ==> NextTask(w, a).table == w.table
  {
  }

  lemma TaskStepKeepsTasks(w: World, a: Act)
    ensures TasksKept(w.table.rows, NextTask(w, a).table.rows) && NextTask(w, a).family == w.family
  {
    TaskStepKeepsFamily(w, a);
    if a.Restart? {
      RestartKeepsTasks(w, a.start);
    } else if a.Crash? {
      CrashKeepsTasks(w, a.start, a.reach);
    }
  }

  lemma AdoptedKeepsTasks(t: Table, saved: map<TaskId, Saved>, r: RowId, seen: Task)
    requires r in t.rows && t.rows[r].task.Some?
    ensures TasksKept(t.rows, Concluded(t, saved, r, seen).rows)
  {
    var t' := Concluded(t, saved, r, seen);
    assert t' == t || t'.rows == t.rows[r := t'.rows[r]];
    assert t'.rows[r].task == t.rows[r].task && t'.rows[r].batch == t.rows[r].batch;
  }

  lemma ScreenKeepsTasks(w: World, r: RowId, fate: Fate)
    ensures TasksKept(w.table.rows, StepScreen(w, r, fate).table.rows)
  {
    var t' := StepScreen(w, r, fate).table;
    assert t' == w.table || t'.rows == w.table.rows[r := t'.rows[r]];
  }

  lemma ReconciledKeepsTasks(t: Table, saved: map<TaskId, Saved>)
    ensures TasksKept(t.rows, Reconciled(t, saved).rows)
  {
  }

  lemma FirstPassKeepsFamily(w: World, a: Act)
    ensures NextFirst(w, a).family == w.family
  {
  }

  lemma ConcludeKeepsTasks(w: World)
    ensures TasksKept(w.table.rows, StepConclude(w).table.rows)
  {
    if StepConclude(w) != w {
      AdoptedKeepsTasks(w.table, w.saved, w.turn.row, w.turn.seen);
    }
  }

  lemma FirstPassKeepsTasks(w: World, a: Act)
    ensures TasksKept(w.table.rows, NextFirst(w, a).table.rows) && NextFirst(w, a).family == w.family
  {
    FirstPassKeepsFamily(w, a);
    if a.Begin? {
      ReconciledKeepsTasks(w.table, w.saved);
    } else if a.Conclude? {
      ConcludeKeepsTasks(w);
    } else if a.Screen? {
      ScreenKeepsTasks(w, a.r, a.fate);
    }
  }

  lemma SecondPassKeepsFamily(w: World, a: Act)
    requires FamilyInv(w.table.rows, w.family)
    ensures FamilyInv(NextSecond(w, a).table.rows, NextSecond(w, a).family)
  {
  }

  lemma StepKeepsFamily(w: World, a: Act)
    requires FamilyInv(w.table.rows, w.family)
    ensures FamilyInv(Next(w, a).table.rows, Next(w, a).family)
  {
    if ListCommand(a) {
      ListKeepsTasks(w, a);
    } else if IsCommand(a) {
      EditKeepsTasks(w, a);
    } else if IsTaskStep(a) {
      TaskStepKeepsTasks(w, a);
    } else if FirstPass(a) {
      FirstPassKeepsTasks(w, a);
    } else {
      SecondPassKeepsFamily(w, a);
    }
  }

  lemma {:induction false} RunKeepsFamily(w: World, acts: seq<Act>)
    requires FamilyInv(w.table.rows, w.family)
    ensures FamilyInv(RunFrom(w, acts).table.rows, RunFrom(w, acts).family)
    decreases |acts|
  {
    if acts != [] {
      StepKeepsFamily(w, acts[0]);
      RunKeepsFamily(Next(w, acts[0]), acts[1..]);
    }
  }

  lemma {:induction false} SleepsFrom(w: World, acts: seq<Act>, b: BatchId, x: TaskId)
    requires Inv(w) && StoppedBatch(w, b) && LiveIn(RunFrom(w, acts), x, b)
    ensures LiveIn(w, x, b)
    decreases |acts|
  {
    if acts != [] {
      StepEvolves(w, acts[0]);
      NextKeeps(w, acts[0]);
      SleepsFrom(Next(w, acts[0]), acts[1..], b, x);
      StepWakesNone(w, acts[0], b, x);
    }
  }

  lemma {:induction false} StillFrom(w: World, acts: seq<Act>, b: BatchId, r: RowId)
    requires Inv(w) && StoppedBatch(w, b)
    requires r in RunFrom(w, acts).table.rows && RunFrom(w, acts).table.rows[r].batch == Some(b)
    ensures var w' := RunFrom(w, acts);
            && StoppedBatch(w', b) && Ended(w'.table.rows[r].state)
            && r in w.table.rows && w.table.rows[r].batch == Some(b)
            && (r in w'.past.launched <==> r in w.past.launched)
            && (r in w.past.launched ==> w'.past.launched[r] == w.past.launched[r])
    decreases |acts|
  {
    if acts == [] {
      assert OfStoppedBatch(w.table, r);
    } else {
      StepEvolves(w, acts[0]);
      NextKeeps(w, acts[0]);
      NextFrame(w, acts[0]);
      FamilyStays(w, acts[0], Next(w, acts[0]), b);
      StillFrom(Next(w, acts[0]), acts[1..], b, r);
    }
  }

  /** Once a batch is cancelled, then through everything that follows, the dispatcher's window without the lock
      and restarts included, every row of it has ended and no task is ever started for one again. */
  lemma {:induction false} CancelledBatchStaysStill(before: seq<Act>, after: seq<Act>, b: BatchId, r: RowId)
    requires StoppedBatch(RunFrom(START, before), b)
    requires var w' := RunFrom(RunFrom(START, before), after); r in w'.table.rows && w'.table.rows[r].batch == Some(b)
    ensures var (w, w') := (RunFrom(START, before), RunFrom(RunFrom(START, before), after));
            && StoppedBatch(w', b) && Ended(w'.table.rows[r].state) && w'.table.rows[r].state != Running
            && (r in w'.past.launched <==> r in w.past.launched)
            && (r in w.past.launched ==> w'.past.launched[r] == w.past.launched[r])
  {
    RunKeepsInv(START, before);
    StillFrom(RunFrom(START, before), after, b, r);
  }

  /** Nor is one ever resumed: a task of a cancelled batch that is live later was live when the batch was
      cancelled, and never stopped. The task of a row is one of the row's batch. */
  lemma {:induction false} CancelledTasksStayAsleep(before: seq<Act>, after: seq<Act>, b: BatchId, x: TaskId)
    requires StoppedBatch(RunFrom(START, before), b)
    ensures var (w, w') := (RunFrom(START, before), RunFrom(RunFrom(START, before), after));
            && (LiveIn(w', x, b) ==> LiveIn(w, x, b))
            && (forall r | r in w'.table.rows && w'.table.rows[r].batch == Some(b)
                           && w'.table.rows[r].task == Some(x) :: x in w'.family && w'.family[x] == b)
  {
    var w := RunFrom(START, before);
    RunKeepsInv(START, before);
    RunKeepsFamily(START, before);
    RunKeepsFamily(w, after);
    if LiveIn(RunFrom(w, after), x, b) {
      SleepsFrom(w, after, b, x);
    }
  }

  // --------------------------------------------------------- late deliveries count

  // A row of a cancelled batch whose last task was durably delivered at some time.
  predicate DeliveredChild(w: World, r: RowId) {
    && r in w.table.rows && OfStoppedBatch(w.table, r)
    && r in w.past.launched && w.past.launched[r] in w.past.delivered
  }

  // At this step row r loses the delivered task x, before it has completed: the task is forgotten, or a start-up
  // cannot read it and sets it aside.
  predicate LosesTask(w: World, a: Act, r: RowId, x: TaskId) {
    && r in w.table.rows && Orphaned(w.table, w.saved, x, r)
    && match a
       case Forget(y, revision) => y == x && MayForget(w, x, revision)
       case Restart(s) => x in s.unreadable
       case Crash(s, reach) => x in s.unreadable && (reach.Loading? ==> x in reach.done)
       case _ => false
  }

  ghost predicate LostIn(w: World, acts: seq<Act>, r: RowId, x: TaskId)
    decreases |acts|
  {
    acts != [] && (LosesTask(w, acts[0], r, x) || LostIn(Next(w, acts[0]), acts[1..], r, x))
  }

  lemma OrphanedHere(w: World, a: Act, r: RowId, x: TaskId)
    ensures (r, x) in Next(w, a).past.orphaned <==> (r, x) in w.past.orphaned || LosesTask(w, a, r, x)
  {
    NextFrame(w, a);
    match a
    case Forget(y, revision) => assert (r, x) in Orphans(w.table, w.saved, y) <==>
                                       x == y && r in w.table.rows && Orphaned(w.table, w.saved, y, r);
    case Restart(s) => OrphansOfIs(w, Unreadable(w, s, AllTasks(w)), r, x);
    case Crash(s, reach) =>
      OrphansOfIs(w, Unreadable(w, s, if reach.Loading? then reach.done else AllTasks(w)), r, x);
    case _ =>
  }

  lemma OrphansOfIs(w: World, xs: set<TaskId>, r: RowId, x: TaskId)
    ensures (r, x) in OrphansOf(w.table, w.saved, xs) <==>
              r in w.table.rows && x in xs && Orphaned(w.table, w.saved, x, r)
  {
  }

  lemma {:induction false} OrphanedIffLost(w: World, acts: seq<Act>, r: RowId, x: TaskId)
    ensures (r, x) in RunFrom(w, acts).past.orphaned <==> (r, x) in w.past.orphaned || LostIn(w, acts, r, x)
    decreases |acts|
  {
    if acts != [] {
      OrphanedHere(w, acts[0], r, x);
      OrphanedIffLost(Next(w, acts[0]), acts[1..], r, x);
    }
  }

  /** After a reconciliation, a cancelled batch's row whose last task was ever delivered is completed, exactly if no
      step of the run took that task away before the row had completed, by forgetting it or by setting it aside as
      unreadable. */
  lemma {:induction false} ReconciliationCompletes(acts: seq<Act>, r: RowId)
    requires DeliveredChild(RunFrom(START, acts), r)
    ensures var w := RunFrom(START, acts);
            Reconciled(w.table, w.saved).rows[r].state == Completed <==> !LostIn(START, acts, r, w.past.launched[r])
  {
    var w := RunFrom(START, acts);
    RunKeepsInv(START, acts);
    CountedUnlessOrphaned(w, r);
    OrphanedIffLost(START, acts, r, w.past.launched[r]);
  }

  lemma CountedUnlessOrphaned(w: World, r: RowId)
    requires Inv(w) && DeliveredChild(w, r)
    ensures Reconciled(w.table, w.saved).rows[r].state == Completed <==> (r, w.past.launched[r]) !in w.past.orphaned
  {
  }

  lemma {:induction false} RunSnoc(w: World, acts: seq<Act>, a: Act)
    ensures RunFrom(w, acts + [a]) == Next(RunFrom(w, acts), a)
    decreases |acts|
  {
    if acts == [] {
      assert acts + [a] == [a];
      assert RunFrom(w, [a]) == RunFrom(Next(w, a), []);
    } else {
      assert (acts + [a])[1..] == acts[1..] + [a];
      RunSnoc(Next(w, acts[0]), acts[1..], a);
    }
  }

  // The run that loses a delivery: batch 0 has rows 10 and 11, and task 5 is started for row 10.
  const SENT := Saved(Done, 2, false)

  function FirstRow(state: RowState, task: Option<TaskId>, revision: nat): Row {
    Row(Child(0, 1), 1, state, Fine, task, revision, 1, Some(0), 1, 0)
  }

  function SecondRow(state: RowState, revision: nat): Row {
    Row(Child(0, 2), 2, state, Fine, None, revision, 2, Some(0), 2, 0)
  }

  function Stage(first: Row, second: Row, cancelled: bool, saved: map<TaskId, Saved>, tombs: set<TaskId>,
                 tasks: map<TaskId, Task>, flights: set<(TaskId, Saved)>, turn: Turn, past: Past): World {
    var family := if past.launched == map[] then map[] else map[5 := 0];
    World(Pair(first, second, cancelled), saved, tombs, family, tasks, flights, turn, past)
  }

  function Pair(first: Row, second: Row, cancelled: bool): Table {
    Table(map[10 := first, 11 := second], map[0 := Batch(0, cancelled, if cancelled then 2 else 1)])
  }

  lemma PairStopped(first: Row, second: Row)
    requires first.batch == second.batch == Some(0)
    ensures BatchStopped(Pair(first, second, false), 0) == Pair(StopRow(first), StopRow(second), true)
  {
    var (was, stopped) := (Pair(first, second, false), Pair(StopRow(first), StopRow(second), true));
    assert BatchStopped(was, 0).rows == stopped.rows;
    assert BatchStopped(was, 0).batches == stopped.batches;
  }

  function Record(launched: map<RowId, TaskId>, delivered: set<TaskId>, orphaned: set<(RowId, TaskId)>): Past {
    Past(map[0 := [10, 11]], launched, delivered, orphaned, {})
  }

  const FIRST := Saved(Preparing, 1, false)

  function Waiting(turn: Turn): World {
    Stage(FirstRow(Queued, None, 1), SecondRow(Queued, 1), false, map[], {}, map[], {}, turn, Record(map[], {}, {}))
  }

  function Sending(now: Saved, live: bool, flights: set<(TaskId, Saved)>): World {
    Stage(FirstRow(Running, Some(5), 2), SecondRow(Queued, 1), false, map[5 := FIRST], {},
          map[5 := Task(now, live, true)], flights, Free, Record(map[10 := 5], {}, {}))
  }

  function CancelledLate(saved: Saved, flights: set<(TaskId, Saved)>, delivered: set<TaskId>): World {
    Stage(FirstRow(Cancelled, Some(5), 3), SecondRow(Cancelled, 2), true, map[5 := saved], {},
          map[5 := Task(SENT, false, true)], flights, Free, Record(map[10 := 5], delivered, {}))
  }

  const LOST := Stage(FirstRow(Cancelled, None, 4), SecondRow(Cancelled, 2), true, map[], {5}, map[], {}, Free,
                      Record(map[10 := 5], {5}, {(10, 5)}))

  lemma StageEnqueued()
    ensures Next(START, EnqueueBatch(0, 0, [1, 2], [10, 11], {1, 2}, 0)) == Waiting(Free)
  {
    var rows: map<RowId, Row> := map[];
    assert WithChildren(rows, 0, 0, [1, 2], [10, 11], {1, 2}, 0, 1) == map[10 := FirstRow(Queued, None, 1)];
    assert Unfinished(rows) == {} && Requests(rows) == {};
  }

  lemma StageRows(turn: Turn)
    ensures var w := Waiting(turn);
            && Reconciled(w.table, w.saved) == w.table && RunningRows(w.table) == {} && WaitingRows(w.table) == {10, 11}
            && !OfStoppedBatch(w.table, 10) && !OfStoppedBatch(w.table, 11)
  {
    var w := Waiting(turn);
    assert Reconciled(w.table, w.saved).rows == w.table.rows;
    assert forall r :: r in WaitingRows(w.table) <==> r in {10, 11};
  }

  lemma StageBegun()
    ensures Next(Waiting(Free), Begin) == Waiting(Scan({}, {10, 11}))
  {
    StageRows(Free);
  }

  lemma StageFirstScreened()
    ensures Next(Waiting(Scan({}, {10, 11})), Screen(10, Runnable)) == Waiting(Scan({}, {11}))
  {
    StageRows(Scan({}, {10, 11}));
    assert {10, 11} - {10} == {11};
  }

  lemma StageScreened()
    ensures Next(Waiting(Scan({}, {11})), Screen(11, Runnable)) == Waiting(Scan({}, {}))
  {
    StageRows(Scan({}, {11}));
    assert {11} - {11} == {};
  }

  lemma StageRelocked()
    ensures Next(Next(Waiting(Scan({}, {})), Unlock), Relock) == Waiting(Launch({10, 11}))
  {
    StageRows(Lookup);
    assert Next(Waiting(Scan({}, {})), Unlock) == Waiting(Lookup);
  }

  lemma PairStarted(first: Row, second: Row)
    ensures var t := Pair(first, second, false);
            t.(rows := t.rows[10 := Started(first, 5)]) == Pair(Started(first, 5), second, false)
  {
    assert Pair(first, second, false).rows[10 := Started(first, 5)] == Pair(Started(first, 5), second, false).rows;
  }

  lemma LaunchIs(w: World, r: RowId, x: TaskId)
    requires w.turn.Launch? && r in w.turn.rows && r in w.table.rows && NewTask(w, x) && !Busy(w)
    requires !OfStoppedBatch(w.table, r)
    ensures Next(w, Dispatch(r, x, true, true))
            == w.(turn := Free, saved := w.saved[x := FIRST], tasks := w.tasks[x := Task(FIRST, true, true)],
                  table := w.table.(rows := w.table.rows[r := Started(w.table.rows[r], x)]),
                  family := Enlisted(w, r, x), past := w.past.(launched := w.past.launched[r := x]))
  {
  }

  lemma StageLaunched()
    ensures Next(Waiting(Launch({10, 11})), Dispatch(10, 5, true, true)) == Sending(FIRST, true, {})
  {
    var w := Waiting(Launch({10, 11}));
    StageRows(Launch({10, 11}));
    PairStarted(FirstRow(Queued, None, 1), SecondRow(Queued, 1));
    LaunchIs(w, 10, 5);
    assert Enlisted(w, 10, 5) == map[5 := 0] && w.saved[5 := FIRST] == map[5 := FIRST];
    assert w.tasks[5 := Task(FIRST, true, true)] == map[5 := Task(FIRST, true, true)];
    assert w.past.launched[10 := 5] == map[10 := 5];
    assert 10 in map[10 := 5];
    assert Sending(FIRST, true, {}).family == map[5 := 0];
  }

  lemma StageSent()
    ensures Next(Sending(FIRST, true, {}), Work(5, Task(SENT, false, true))) == Sending(SENT, false, {(5, SENT)})
  {
    assert Sending(FIRST, true, {}).tasks[5 := Task(SENT, false, true)] == map[5 := Task(SENT, false, true)];
  }

  lemma StageCancelled()
    ensures Next(Sending(SENT, false, {(5, SENT)}), CancelBatch(0, 1)) == CancelledLate(FIRST, {(5, SENT)}, {})
  {
    var (first, second) := (FirstRow(Running, Some(5), 2), SecondRow(Queued, 1));
    PairStopped(first, second);
    assert Sending(SENT, false, {(5, SENT)}).table == Pair(first, second, false);
    assert Pair(StopRow(first), StopRow(second), true) == CancelledLate(FIRST, {}, {}).table;
  }

  lemma StageLanded()
    ensures Next(CancelledLate(FIRST, {(5, SENT)}, {}), Land(5, SENT)) == CancelledLate(SENT, {}, {5})
  {
    var w := CancelledLate(FIRST, {(5, SENT)}, {});
    assert w.saved[5 := SENT] == map[5 := SENT];
    assert w.flights - {(5, SENT)} == {};
  }

  lemma PairUnlinked(saved: map<TaskId, Saved>)
    requires saved == map[5 := SENT]
    ensures var t := Pair(FirstRow(Cancelled, Some(5), 3), SecondRow(Cancelled, 2), true);
            && Unlinked(t, 5) == Pair(FirstRow(Cancelled, None, 4), SecondRow(Cancelled, 2), true)
            && Orphans(t, saved, 5) == {(10, 5)}
  {
    var t := Pair(FirstRow(Cancelled, Some(5), 3), SecondRow(Cancelled, 2), true);
    assert Unlinked(t, 5).rows == Pair(FirstRow(Cancelled, None, 4), SecondRow(Cancelled, 2), true).rows;
    assert forall o :: o in Orphans(t, saved, 5) <==> o == (10, 5);
  }

  lemma StageForgotten()
    ensures Next(CancelledLate(SENT, {}, {5}), Forget(5, 2)) == LOST
  {
    var w := CancelledLate(SENT, {}, {5});
    PairUnlinked(w.saved);
    assert w.saved - {5} == map[] && w.tasks - {5} == map[];
  }

  lemma Snoc(acts: seq<Act>, w: World, a: Act, w': World) returns (more: seq<Act>)
    requires RunFrom(START, acts) == w && Next(w, a) == w'
    ensures RunFrom(START, more) == w'
  {
    more := acts + [a];
    RunSnoc(START, acts, a);
  }

  lemma RunScanned() returns (acts: seq<Act>)
    ensures RunFrom(START, acts) == Waiting(Scan({}, {10, 11}))
  {
    StageEnqueued();
    acts := Snoc([], START, EnqueueBatch(0, 0, [1, 2], [10, 11], {1, 2}, 0), Waiting(Free));
    StageBegun();
    acts := Snoc(acts, Waiting(Free), Begin, Waiting(Scan({}, {10, 11})));
  }

  lemma RunScreened() returns (acts: seq<Act>)
    ensures RunFrom(START, acts) == Waiting(Scan({}, {}))
  {
    acts := RunScanned();
    StageFirstScreened();
    acts := Snoc(acts, Waiting(Scan({}, {10, 11})), Screen(10, Runnable), Waiting(Scan({}, {11})));
    StageScreened();
    acts := Snoc(acts, Waiting(Scan({}, {11})), Screen(11, Runnable), Waiting(Scan({}, {})));
  }

  lemma RunRelocked() returns (acts: seq<Act>)
    ensures RunFrom(START, acts) == Waiting(Launch({10, 11}))
  {
    acts := RunScreened();
    StageRelocked();
    var unlocked := Next(Waiting(Scan({}, {})), Unlock);
    acts := Snoc(acts, Waiting(Scan({}, {})), Unlock, unlocked);
    acts := Snoc(acts, unlocked, Relock, Waiting(Launch({10, 11})));
  }

  lemma RunSent() returns (acts: seq<Act>)
    ensures RunFrom(START, acts) == Sending(SENT, false, {(5, SENT)})
  {
    acts := RunRelocked();
    StageLaunched();
    acts := Snoc(acts, Waiting(Launch({10, 11})), Dispatch(10, 5, true, true), Sending(FIRST, true, {}));
    StageSent();
    acts := Snoc(acts, Sending(FIRST, true, {}), Work(5, Task(SENT, false, true)), Sending(SENT, false, {(5, SENT)}));
  }

  lemma RunCancelled() returns (acts: seq<Act>)
    ensures RunFrom(START, acts) == CancelledLate(FIRST, {(5, SENT)}, {})
  {
    acts := RunSent();
    StageCancelled();
    acts := Snoc(acts, Sending(SENT, false, {(5, SENT)}), CancelBatch(0, 1), CancelledLate(FIRST, {(5, SENT)}, {}));
  }

  lemma RunForgotten() returns (acts: seq<Act>)
    ensures RunFrom(START, acts) == LOST
  {
    acts := RunCancelled();
    StageLanded();
    acts := Snoc(acts, CancelledLate(FIRST, {(5, SENT)}, {}), Land(5, SENT), CancelledLate(SENT, {}, {5}));
    StageForgotten();
    acts := Snoc(acts, CancelledLate(SENT, {}, {5}), Forget(5, 2), LOST);
  }

  /** The losing run: a task that is delivered after its batch was cancelled, and forgotten before the
      reconciliation, leaves its row cancelled for good. */
  lemma DeliveryCanBeLost() returns (acts: seq<Act>, r: RowId)
    ensures var w := RunFrom(START, acts);
            DeliveredChild(w, r) && Reconciled(w.table, w.saved).rows[r].state != Completed
  {
    r := 10;
    acts := RunForgotten();
    assert DeliveredChild(LOST, 10);
    assert Reconciled(LOST.table, LOST.saved).rows[10].state == Cancelled;
  }

  // ------------------------------------------------------------ the stored queue

  // The first i listed rows have their places.
  ghost predicate MovedSoFar(rows: map<RowId, Row>, moved: map<RowId, Row>, ids: seq<RowId>, i: nat) {
    && i <= |ids| && Distinct(ids[..i]) && moved.Keys == rows.Keys
    && (forall k | 0 <= k < i :: ids[k] in rows && Movable(rows[ids[k]]) && moved[ids[k]] == MovedTo(rows[ids[k]], k))
    && forall r | r in rows && r !in ids[..i] :: moved[r] == rows[r]
  }

  lemma MovedOneMore(rows: map<RowId, Row>, moved: map<RowId, Row>, ids: seq<RowId>, i: nat)
    requires MovedSoFar(rows, moved, ids, i) && i < |ids| && ids[i] !in ids[..i]
    requires ids[i] in rows && Movable(rows[ids[i]])
    ensures MovedSoFar(rows, moved[ids[i] := MovedTo(moved[ids[i]], i)], ids, i + 1)
  {
    assert ids[..i + 1] == ids[..i] + [ids[i]];
    forall k | 0 <= k < i
      ensures ids[k] in ids[..i] && ids[k] != ids[i]
    {
      assert ids[..i][k] == ids[k];
    }
  }

  lemma MovedAll(t: Table, moved: map<RowId, Row>, ids: seq<RowId>)
    requires MovedSoFar(t.rows, moved, ids, |ids|) && |ids| <= MAX_UNFINISHED
    ensures MayReorder(t, ids) && t.(rows := moved) == Reordered(t, ids)
  {
    assert ids[..|ids|] == ids;
    assert moved == Reordered(t, ids).rows;
  }

  // ------------------------------------------------------------- repeated requests

  datatype Order = Order(request: Request, peer: PeerId, content: nat)

  // The same request about the same peer and contents.
  predicate Repeats(row: Row, o: Order) {
    row.request == o.request && row.peer == o.peer && row.content == o.content
  }

  // What a request for a row is answered.
  datatype Answer = Inserted | Existing(row: RowId) | Conflicting | QueueFull | IdTaken

  // The request is in the table, and is answered by what it was.
  ghost predicate Recognised(rows: map<RowId, Row>, o: Order, a: Answer) {
    || (a.Existing? && a.row in rows && Repeats(rows[a.row], o))
    || (a.Conflicting? && exists r :: r in rows && rows[r].request == o.request && !Repeats(rows[r], o))
  }

  // The lookup that comes first, whatever the size of the queue.
  ghost predicate LookupSays(t: Table, o: Order, a: Option<Answer>) {
    if o.request in Requests(t.rows) then a.Some? && Recognised(t.rows, o, a.value) else a.None?
  }

  // The transaction that follows if the lookup found nothing; the queue may have changed since.
  ghost predicate InsertSays(t: Table, id: RowId, o: Order, a: Answer) {
    if |Unfinished(t.rows)| >= MAX_UNFINISHED then a.QueueFull?
    else if o.request in Requests(t.rows) then Recognised(t.rows, o, a)
    else if id in t.rows then a.IdTaken? else a.Inserted?
  }

  // The rows of one table are in the other, about the same requests.
  ghost predicate Remaining(was: map<RowId, Row>, now: map<RowId, Row>) {
    forall r | r in was ::
      && r in now && now[r].request == was[r].request && now[r].peer == was[r].peer && now[r].content == was[r].content
  }

  lemma {:induction false} RowsRemain(w: World, acts: seq<Act>)
    requires Inv(w)
    ensures Remaining(w.table.rows, RunFrom(w, acts).table.rows)
    decreases |acts|
  {
    if acts != [] {
      StepEvolves(w, acts[0]);
      NextKeeps(w, acts[0]);
      RowsRemain(Next(w, acts[0]), acts[1..]);
    }
  }

  lemma RecognitionLasts(was: map<RowId, Row>, now: map<RowId, Row>, o: Order, a: Answer)
    requires Remaining(was, now) && Recognised(was, o, a)
    ensures Recognised(now, o, a)
  {
    if a.Conflicting? {
      var r :| r in was && was[r].request == o.request && !Repeats(was[r], o);
      assert now[r].request == o.request && !Repeats(now[r], o);
    }
  }

  lemma RepetitionIsRecognised(t: Table, o: Order, a: Option<Answer>, r: RowId)
    requires UniqueRequests(t.rows) && LookupSays(t, o, a) && r in t.rows && Repeats(t.rows[r], o)
    ensures a == Some(Existing(r))
  {
    assert t.rows[r].request in Requests(t.rows);
  }

  // The answer given for a request whose lookup saw the table was and whose transaction saw now.
  ghost predicate WellAnswered(was: map<RowId, Row>, now: map<RowId, Row>, o: Order, answer: Answer) {
    && (o.request in Requests(was) ==> Recognised(was, o, answer) && Recognised(now, o, answer))
    && (forall r | r in was && Repeats(was[r], o) :: answer == Existing(r))
    && (answer == QueueFull <==> o.request !in Requests(was) && |Unfinished(now)| >= MAX_UNFINISHED)
    && (answer.Inserted? ==> o.request !in Requests(now))
  }

  lemma KnownIsWellAnswered(t: Table, now: map<RowId, Row>, o: Order, answer: Answer)
    requires UniqueRequests(t.rows) && Remaining(t.rows, now)
    requires o.request in Requests(t.rows) && LookupSays(t, o, Some(answer))
    ensures WellAnswered(t.rows, now, o, answer)
  {
    RecognitionLasts(t.rows, now, o, answer);
    forall r | r in t.rows && Repeats(t.rows[r], o)
      ensures answer == Existing(r)
    {
      RepetitionIsRecognised(t, o, Some(answer), r);
    }
  }

  lemma NewIsWellAnswered(was: map<RowId, Row>, t: Table, id: RowId, o: Order, answer: Answer)
    requires o.request !in Requests(was) && InsertSays(t, id, o, answer)
    ensures WellAnswered(was, t.rows, o, answer)
  {
    forall r | r in was
      ensures !Repeats(was[r], o)
    {
      assert was[r].request in Requests(was);
    }
  }

  /** Whatever happens between the lookup and the transaction: a request whose row was there at the lookup is
      answered with it, or as a conflict if it is about something else, however full the queue is, and the answer
      still holds afterwards. A request is refused as full exactly if its row was not there at the lookup and the
      queue is full in the transaction. */
  lemma {:induction false} RepeatsAreAnswered(before: seq<Act>, between: seq<Act>, id: RowId, o: Order,
                                              first: Option<Answer>, second: Answer)
    requires LookupSays(RunFrom(START, before).table, o, first)
    requires InsertSays(RunFrom(RunFrom(START, before), between).table, id, o, second)
    ensures WellAnswered(RunFrom(START, before).table.rows, RunFrom(RunFrom(START, before), between).table.rows, o,
                         if first.Some? then first.value else second)
  {
    var w := RunFrom(START, before);
    RunKeepsInv(START, before);
    RowsRemain(w, between);
    if first.Some? {
      KnownIsWellAnswered(w.table, RunFrom(w, between).table.rows, o, first.value);
    } else {
      NewIsWellAnswered(w.table.rows, RunFrom(w, between).table, id, o, second);
    }
  }

  // A queue of n direct requests, one after the other.
  function Filling(n: nat): seq<Act> {
    seq(n, (i: nat) => Enqueue(i, i, 0, 0, true, i))
  }

  function FilledRows(n: nat): map<RowId, Row> {
    map i | 0 <= i < n :: Row(Direct(i), 0, Queued, Fine, None, 1, i + 1, None, 0, 0)
  }

  lemma FilledOnce(n: nat)
    requires |Unfinished(FilledRows(n))| == n < MAX_UNFINISHED
    ensures var w := START.(table := Table(FilledRows(n), map[]));
            Next(w, Enqueue(n, n, 0, 0, true, n)) == w.(table := Table(FilledRows(n + 1), map[]))
    ensures |Unfinished(FilledRows(n + 1))| == n + 1
  {
    var rows := FilledRows(n);
    var row := Row(Direct(n), 0, Queued, Fine, None, 1, n + 1, None, 0, 0);
    assert FilledRows(n + 1) == rows[n := row];
    InsertCounts(rows, n, row);
    assert Direct(n) !in Requests(rows);
    assert n > 0 ==> rows[n - 1].position == n;
  }

  lemma {:induction false} Filled(n: nat)
    requires n <= MAX_UNFINISHED
    ensures RunFrom(START, Filling(n)) == START.(table := Table(FilledRows(n), map[]))
    ensures |Unfinished(FilledRows(n))| == n
  {
    if n == 0 {
      assert FilledRows(0) == map[] && Unfinished(FilledRows(0)) == {};
    } else {
      Filled(n - 1);
      FilledOnce(n - 1);
      RunSnoc(START, Filling(n - 1), Enqueue(n - 1, n - 1, 0, 0, true, n - 1));
      assert Filling(n) == Filling(n - 1) + [Enqueue(n - 1, n - 1, 0, 0, true, n - 1)];
    }
  }

  /** The race in which a repetition is refused: of two calls with the same request neither finds a row; the other
      one inserts it, more requests fill the queue, and this one is told that the queue is full although its row
      is in it. */
  lemma RepeatCanBeRefused(id: RowId)
    ensures var o := Order(Direct(0), 0, 0);
            var w := RunFrom(START, Filling(MAX_UNFINISHED));
            && LookupSays(START.table, o, None)
            && 0 in w.table.rows && Repeats(w.table.rows[0], o) && InsertSays(w.table, id, o, QueueFull)
  {
    Filled(MAX_UNFINISHED);
  }

  // What a request for a batch is answered.
  datatype BatchAnswer = BatchInserted | BatchExisting(batch: BatchId) | BatchConflict | BatchRefused

  /** The queue's two tables as their transactions change them in place. */
  class QueueStore {
    var rows: map<RowId, Row>
    var batches: map<BatchId, Batch>
    var signatures: map<BatchId, nat>   // the hash of everything that a batch request asks for

    constructor ()
      ensures Value() == START.table
    {
      rows, batches, signatures := map[], map[], map[];
    }

    function Value(): Table
      reads this
    {
      Table(rows, batches)
    }

    method SetQueueState(r: RowId, state: RowState, reason: Reason)
      modifies this`rows
      ensures Value() == SetState(old(Value()), r, state, reason)
    {
      if r in rows && (rows[r].state != state || rows[r].reason != reason) {
        rows := rows[r := rows[r].(state := state, reason := reason, revision := rows[r].revision + 1)];
      }
    }

    method HighestPosition() returns (top: int)
      ensures IsTop(rows, top)
    {
      top := 0;
      var left := rows.Keys;
      while left != {}
        invariant left <= rows.Keys && top >= 0
        invariant forall r | r in rows && r !in left :: rows[r].position <= top
        invariant top == 0 || exists r :: r in rows && rows[r].position == top
        decreases left
      {
        var r :| r in left;
        if rows[r].position > top {
          top := rows[r].position;
        }
        left := left - {r};
      }
    }

    method FindRequest(request: Request) returns (found: Option<RowId>)
      ensures found.Some? <==> request in Requests(rows)
      ensures found.Some? ==> found.value in rows && rows[found.value].request == request
    {
      found := None;
      var left := rows.Keys;
      while left != {}
        invariant left <= rows.Keys
        invariant found.Some? ==> found.value in rows && rows[found.value].request == request
        invariant found.None? ==> forall r | r in rows && r !in left :: rows[r].request != request
        decreases left
      {
        var r :| r in left;
        if rows[r].request == request {
          found := Some(r);
        }
        left := left - {r};
      }
    }

    /** The lookup of a request, before anything is asked about the queue: a row that is there is the answer. */
    method Lookup(o: Order) returns (answer: Option<Answer>)
      ensures LookupSays(Value(), o, answer)
    {
      var found := FindRequest(o.request);
      if found.None? {
        return None;
      }
      answer := Some(if Repeats(rows[found.value], o) then Existing(found.value) else Conflicting);
    }

    /** The transaction: it counts first, so a full queue refuses even what has come into it since the lookup;
        otherwise a new request is inserted at the end, and one that is there by now changes nothing. */
    method Insert(id: RowId, o: Order, reachable: bool) returns (answer: Answer, top: int)
      modifies this
      ensures IsTop(old(rows), top)
      ensures InsertSays(old(Value()), id, o, answer)
      ensures answer.Inserted? ==>
                MayEnqueue(old(Value()), id, o.request)
                && Value() == Enqueued(old(Value()), id, o.request, o.peer, o.content, reachable, top)
                && Repeats(rows[id], o)
      ensures !answer.Inserted? ==> Value() == old(Value())
      ensures signatures == old(signatures)
    {
      top := HighestPosition();
      if |Unfinished(rows)| >= MAX_UNFINISHED {
        return QueueFull, top;
      }
      var found := Lookup(o);
      if found.Some? {
        return found.value, top;
      }
      if id in rows {
        return IdTaken, top;
      }
      var state := if reachable then Queued else WaitingPeer;
      rows := rows[id := Row(o.request, o.peer, state, Fine, None, 1, top + 1, None, 0, o.content)];
      return Answer.Inserted, top;
    }

    /** ConfirmQueue for a row whose task cannot be resumed: back into the queue, without its task, where the
        dispatcher may start it again; whatever held of the table still does. */
    method Requeue(r: RowId, revision: nat) returns (ok: bool)
      modifies this`rows
      ensures ok == (r in old(rows) && !OfStoppedBatch(old(Value()), r) && old(rows)[r].revision == revision
                     && old(rows)[r].state == NeedsAttention)
      ensures ok ==> r in WaitingRows(Value()) && rows[r].task.None? && !OfStoppedBatch(Value(), r)
                     && rows[r].revision > revision
      ensures forall q | q != r :: (q in rows <==> q in old(rows)) && (q in rows ==> rows[q] == old(rows)[q])
      ensures !ok ==> rows == old(rows)
      ensures ok ==> rows[r].request == old(rows)[r].request && rows[r].peer == old(rows)[r].peer
                     && rows[r].batch == old(rows)[r].batch && rows[r].position == old(rows)[r].position
      ensures forall layout | TableInv(old(Value()), layout) :: TableInv(Value(), layout)
    {
      if r !in rows || OfStoppedBatch(Value(), r) || rows[r].revision != revision || rows[r].state != NeedsAttention {
        return false;
      }
      ghost var was := Value();
      rows := rows[r := rows[r].(state := Queued, task := None, reason := Fine, revision := revision + 1)];
      forall layout | TableInv(was, layout)
        ensures TableInv(Value(), layout)
      {
        RequeueRefines(was, Value(), r);
        RefiningKeepsTable(was, Value(), layout);
      }
      return true;
    }

    predicate SameBatch(x: BatchId, request: nat, signature: nat)
      reads this
    {
      x in batches && batches[x].request == request && x in signatures && signatures[x] == signature
    }

    method FindBatch(request: nat) returns (found: Option<BatchId>)
      ensures found.Some? <==> exists x :: x in batches && batches[x].request == request
      ensures found.Some? ==> found.value in batches && batches[found.value].request == request
    {
      found := None;
      var left := batches.Keys;
      while left != {}
        invariant left <= batches.Keys
        invariant found.Some? ==> found.value in batches && batches[found.value].request == request
        invariant found.None? ==> forall x | x in batches && x !in left :: batches[x].request != request
        decreases left
      {
        var x :| x in left;
        if batches[x].request == request {
          found := Some(x);
        }
        left := left - {x};
      }
    }

    /** The transaction looks the request up before it counts: a repetition is answered with its batch, or as a
        conflict, however full the queue is; a new batch is inserted with all its children, or not at all. */
    method EnqueueBatch(b: BatchId, request: nat, signature: nat, peers: seq<PeerId>, ids: seq<RowId>,
                        reachable: set<PeerId>) returns (answer: BatchAnswer, top: int)
      modifies this
      ensures IsTop(old(rows), top)
      ensures answer.BatchExisting? || answer == BatchConflict <==>
                exists x :: x in old(batches) && old(batches)[x].request == request
      ensures answer.BatchExisting? ==> SameBatch(answer.batch, request, signature)
      ensures answer == BatchConflict ==>
                exists x :: x in batches && batches[x].request == request && !SameBatch(x, request, signature)
      ensures answer == BatchInserted <==> MayEnqueueBatch(old(Value()), b, request, peers, ids) && top <= MAX_POSITION
      ensures answer == BatchInserted ==>
                Value() == BatchEnqueued(old(Value()), b, request, peers, ids, reachable, top)
                && SameBatch(b, request, signature)
      ensures answer != BatchInserted ==> Value() == old(Value()) && signatures == old(signatures)
    {
      top := HighestPosition();
      var found := FindBatch(request);
      if found.Some? {
        answer := if SameBatch(found.value, request, signature) then BatchExisting(found.value) else BatchConflict;
        return;
      }
      if !MayEnqueueBatch(Value(), b, request, peers, ids) || top > MAX_POSITION {
        return BatchRefused, top;
      }
      var inserted := rows;
      for i := 0 to |peers|
        invariant inserted == WithChildren(rows, b, request, peers, ids, reachable, top, i)
      {
        inserted := inserted[ids[i] := ChildRow(b, request, peers[i], peers[i] in reachable, top, i)];
      }
      rows, batches := inserted, batches[b := Batch(request, false, 1)];
      signatures := signatures[b := signature];
      return BatchInserted, top;
    }

    method ReorderQueue(ids: seq<RowId>) returns (ok: bool)
      modifies this`rows
      ensures ok == MayReorder(old(Value()), ids)
      ensures Value() == if ok then Reordered(old(Value()), ids) else old(Value())
    {
      if |ids| > MAX_UNFINISHED {
        return false;
      }
      var seen: set<RowId> := {};
      var moved := rows;
      for i := 0 to |ids|
        invariant forall r :: r in seen <==> r in ids[..i]
        invariant Value() == old(Value()) && MovedSoFar(rows, moved, ids, i)
      {
        if ids[i] in seen {
          assert exists j :: 0 <= j < i && ids[j] == ids[i];
          return false;
        }
        if ids[i] !in rows || !Movable(rows[ids[i]]) {
          return false;
        }
        MovedOneMore(rows, moved, ids, i);
        seen := seen + {ids[i]};
        moved := moved[ids[i] := MovedTo(moved[ids[i]], i)];
        assert ids[..i + 1] == ids[..i] + [ids[i]];
      }
      MovedAll(Value(), moved, ids);
      rows := moved;
      return true;
    }

    /** One transaction: the batch is cancelled for good, every row of it has ended, what had ended before and
        every other row and batch are as they were, and whatever held of the table still does. */
    method CancelBatch(b: BatchId, revision: nat) returns (ok: bool)
      modifies this`rows, this`batches
      ensures ok == (b in old(batches) && !old(batches)[b].cancelled && old(batches)[b].revision == revision)
      ensures Value() == if ok then BatchStopped(old(Value()), b) else old(Value())
      ensures ok ==> batches[b].cancelled && forall r | r in rows && rows[r].batch == Some(b) :: Ended(rows[r].state)
      ensures rows.Keys == old(rows).Keys && batches.Keys == old(batches).Keys
      ensures forall r | r in rows && (rows[r].batch != Some(b) || Ended(old(rows)[r].state)) :: rows[r] == old(rows)[r]
      ensures forall r | r in rows && rows[r] != old(rows)[r] ::
                rows[r].state == Cancelled && rows[r].task == old(rows)[r].task
      ensures forall x | x in batches && x != b :: batches[x] == old(batches)[x]
      ensures forall layout | TableInv(old(Value()), layout) :: TableInv(Value(), layout)
    {
      if b !in batches || batches[b].cancelled || batches[b].revision != revision {
        return false;
      }
      ghost var was := Value();
      var before := rows;
      batches := batches[b := batches[b].(cancelled := true, revision := batches[b].revision + 1)];
      rows := map r | r in before :: if before[r].batch == Some(b) then StopRow(before[r]) else before[r];
      assert Value() == BatchStopped(was, b);
      forall layout | TableInv(was, layout)
        ensures TableInv(Value(), layout)
      {
        StoppingKeepsTable(was, b, layout);
      }
      return true;
    }

    /** Every row of a cancelled batch whose task is delivered on disk is completed, no other row changes, running
        it again changes nothing, and whatever held of the table still does. */
    method ReconcileReceipts(saved: map<TaskId, Saved>)
      modifies this`rows
      ensures Value() == Reconciled(old(Value()), saved) && Reconciled(Value(), saved) == Value()
      ensures rows.Keys == old(rows).Keys && forall r | r in rows :: !Owed(Value(), saved, r)
      ensures forall r | r in rows && rows[r] != old(rows)[r] ::
                rows[r].state == Completed && OfStoppedBatch(Value(), r) && rows[r].task == old(rows)[r].task
                && rows[r].task.Some? && rows[r].task.value in saved && Delivered(saved[rows[r].task.value].state)
      ensures forall layout | TableInv(old(Value()), layout) :: TableInv(Value(), layout)
    {
      ghost var before := Value();
      var was := Value();
      rows := map r | r in was.rows ::
        if Owed(was, saved, r) then Receipted(was.rows[r]) else was.rows[r];
      assert Value() == Reconciled(before, saved);
      ReconcilingSettles(before, saved);
      forall layout | TableInv(before, layout)
        ensures TableInv(Value(), layout)
      {
        ReconcilingKeepsTable(before, saved, layout);
      }
    }
  }

  lemma StoppingKeepsTable(t: Table, b: BatchId, layout: map<BatchId, seq<RowId>>)
    requires TableInv(t, layout) && b in t.batches
    ensures TableInv(BatchStopped(t, b), layout)
  {
    var saved: map<TaskId, Saved> := map[];
    BatchStoppedFollows(t, saved, b);
    FollowingKeepsTable(t, BatchStopped(t, b), saved, Past(layout, map[], {}, {}, {}));
  }

  lemma ReconcilingKeepsTable(t: Table, saved: map<TaskId, Saved>, layout: map<BatchId, seq<RowId>>)
    requires TableInv(t, layout)
    ensures TableInv(Reconciled(t, saved), layout)
  {
    ReconciledFollows(t, saved);
    FollowingKeepsTable(t, Reconciled(t, saved), saved, Past(layout, map[], {}, {}, {}));
  }

  lemma ReconcilingSettles(t: Table, saved: map<TaskId, Saved>)
    ensures Reconciled(Reconciled(t, saved), saved) == Reconciled(t, saved)
    ensures forall r | r in Reconciled(t, saved).rows :: !Owed(Reconciled(t, saved), saved, r)
  {
    var u := Reconciled(t, saved);
    forall r | r in u.rows
      ensures !Owed(u, saved, r)
    {
      assert OfStoppedBatch(u, r) == OfStoppedBatch(t, r);
    }
    assert Reconciled(u, saved).rows == u.rows;
  }
}
