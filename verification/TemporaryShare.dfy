/** Temporary share records (internal/app/temporary_share_control.go, temporary_share_tasks.go and
    share_ledger.go): one signed local record per share, changed by compare-and-swap on its stored row,
    while intents, server answers, refreshes, stops and restarts interleave. Answers come from a server
    that may return anything. */
module TemporaryShare {

  import opened Common
  import opened Swapping

  // Keys, grant and claim IDs and digests are compared only; 0 stands for the empty string.
  type Name = nat

  const RETENTION := 604800

  datatype Role = Sender | Receiver
  datatype Local = Creating | Claiming | Ready | Active | AwaitingSave | Paused | NeedsAttention | Stopped | Finished
  datatype Grant = Unset | Offered | Pending | Approved | Bound | Completed | Revoked | Expired
  datatype Operation = OpCreate | OpClaim | OpApprove | OpDeny | OpBind | OpRevoke | OpComplete

  datatype Intent = Intent(id: nat, operation: Operation)

  datatype Status = Status(id: Name, claim: Name, task: Name, manifest: Name, plan: Name,
                           senderKey: Name, receiverKey: Name, generation: nat, state: Grant)

  datatype Record = Record(role: Role, id: Name, claim: Name, revision: nat, state: Local, stopped: bool,
                           status: Status, approval: Name, manifest: Name, plan: Name, task: Name, completion: bool,
                           intent: Option<Intent>, observed: nat)

  const BLANK := Status(0, 0, 0, 0, 0, 0, 0, 0, Unset)

  predicate Terminal(g: Grant) {
    g == Completed || g == Revoked || g == Expired
  }

  // validTemporaryRecord, as far as these fields go; every save checks it.
  predicate Valid(r: Record) {
    && r.id != 0 && r.revision != 0
    && (r.stopped ==> r.state == Stopped)
    && (r.observed != 0 ==> Terminal(r.status.state))
    && (r.role == Receiver ==> r.claim != 0)
    && (r.manifest != 0 && r.status.manifest != 0 ==> r.status.manifest == r.manifest)
    && (r.role == Sender ==> r.manifest != 0 && (r.status.id != 0 ==> r.status.id == r.id))
    && (r.completion ==> r.manifest != 0)
    && (r.plan != 0 ==> r.manifest != 0 && (r.status.plan != 0 ==> r.plan == r.status.plan))
    && (r.status.id != 0 ==> r.status.manifest != 0 && r.status.generation != 0 && r.status.senderKey != 0)
  }

  predicate Kept(a: Name, b: Name) {
    a == 0 || a == b
  }

  // mergeTemporaryStatus: what an answer may say about a record. mine is this device's key.
  predicate Mergeable(r: Record, s: Status, mine: Name) {
    && (Terminal(r.status.state) ==> s.state == r.status.state)
    && s.id != 0 && Kept(r.status.id, s.id) && Kept(r.status.manifest, s.manifest)
    && Kept(r.status.senderKey, s.senderKey)
    && (r.manifest != 0 ==> r.manifest == s.manifest) && Kept(r.status.task, s.task) && Kept(r.status.plan, s.plan)
    && r.status.generation <= s.generation
    && (r.role == Sender ==> s.senderKey == mine)
    && (r.role == Receiver ==> s.receiverKey == mine && s.claim == r.claim)
    && (r.approval != 0 && r.status.receiverKey != 0 ==>
          r.status.receiverKey == s.receiverKey && r.status.claim == s.claim)
  }

  function Merged(r: Record, s: Status, now: nat): Record {
    r.(status := s, observed := if r.observed == 0 && Terminal(s.state) then now else r.observed)
  }

  // executeTemporaryIntent, once the server has answered.
  function Answered(r: Record, s: Status, now: nat): Record {
    Merged(r, s, now).(intent := None,
      state := if r.stopped then Stopped
               else if s.state == Completed then (if r.completion then Finished else NeedsAttention)
               else Ready)
  }

  // refreshTemporaryShare: a revoked or expired grant stops the share.
  function Refreshed(r: Record, s: Status, now: nat): Record {
    var m := Merged(r, s, now);
    var m' := if !r.stopped && s.state == Completed && r.completion then m.(state := Finished) else m;
    if s.state == Revoked || s.state == Expired then m'.(stopped := true, state := Stopped) else m'
  }

  // stopTemporaryShare. A sender revokes its grant, by its own share ID if the grant has none yet.
  function AfterStop(r: Record, revoke: bool, freshId: nat): Record {
    var named := r.status.id != 0 || r.role == Sender;
    r.(stopped := true, state := Stopped, intent := if revoke && named then Some(Intent(freshId, OpRevoke)) else None)
  }

  // ------------------------------------------------------------------- the world

  // The record in memory, and the signed row on disk that only a compare-and-swap replaces.
  datatype Store = Store(record: Record, row: Option<Record>)

  datatype Entry = Entry(
    store: Store, calls: set<Intent>, active: bool, retired: bool, nextIntent: nat,
    superseded: set<nat>,  // history: the intents that stops were asked to replace
    lost: set<nat>,        // history: those of them whose stop did not reach the row
    late: set<nat>)        // history: superseded intents whose answer changed the row afterwards

  predicate Storable(d: Store, next: Record, ending: Io) {
    d.row == Some(d.record) && Valid(next.(revision := d.record.revision + 1)) && ending != Rejected
  }

  // saveTemporaryRecord. Without an acknowledgement the row has moved on and memory has not.
  function Saved(d: Store, next: Record, ending: Io): Store {
    var next' := next.(revision := d.record.revision + 1);
    if !Storable(d, next, ending) then d
    else if ending == Unacknowledged then Store(d.record, Some(next'))
    else Store(next', Some(next'))
  }

  function Save(e: Entry, next: Record, ending: Io): Entry {
    e.(store := Saved(e.store, next, ending))
  }

  datatype Act =
    | Call
    | Answer(i: Intent, status: Status, now: nat, allowed: bool, ending: Io)
    | Fail(i: Intent, ending: Io)
    | Refresh(status: Status, now: nat, allowed: bool, ending: Io)
    | Approve(approval: Name, ending: Io)
    | Deny(ending: Io)
    | Stop(revoke: bool, ending: Io)
    | Start(task: Name, ending: Io)
    | Preview(manifest: Name, sameTask: bool, ending: Io)
    | Bind(plan: Name, ending: Io)
    | Complete(ending: Io)
    | Halt(ending: Io)               // the monitor found the authority gone
    | Finish(paused: bool, ending: Io)
    | Retire(now: nat)
    | Restart

  function Fresh(e: Entry): Entry {
    e.(nextIntent := e.nextIntent + 1)
  }

  function StepAnswer(e: Entry, mine: Name, i: Intent, s: Status, now: nat, allowed: bool, ending: Io): Entry {
    var e' := e.(calls := e.calls - {i});
    if i !in e.calls then e
    else if e.store.record.intent != Some(i) || !Mergeable(e.store.record, s, mine) || !allowed || now == 0 then e'
    else
      var saved := Save(e', Answered(e.store.record, s, now), ending);
      if saved.store.row != e.store.row && i.id in e.superseded then saved.(late := e.late + {i.id}) else saved
  }

  function Failed(r: Record, i: Intent): Record {
    if i.operation == OpComplete && r.completion then r.(state := NeedsAttention) else r
  }

  function StepFail(e: Entry, i: Intent, ending: Io): Entry {
    var e' := e.(calls := e.calls - {i});
    if i !in e.calls then e
    else if e.store.record.intent != Some(i) then e'
    else Save(e', Failed(e.store.record, i), ending)
  }

  function IntentIds(r: Record): set<nat> {
    if r.intent.Some? then {r.intent.value.id} else {}
  }

  function StepStop(e: Entry, revoke: bool, ending: Io): Entry {
    if e.retired || (revoke && e.store.record.role != Sender) || e.store.record.state == Finished then e
    else
      var asked := IntentIds(e.store.record);
      var saved := Saved(e.store, AfterStop(e.store.record, revoke, e.nextIntent), ending);
      Fresh(e.(store := saved, superseded := e.superseded + asked,
               lost := if saved.row == e.store.row then e.lost + asked else e.lost))
  }

  function StepTask(e: Entry, a: Act): Entry {
    var r := e.store.record;
    match a
    case Start(task, ending) =>
      if e.active || r.stopped || r.intent.Some? || r.status.state !in {Approved, Bound} || task == 0 then e
      else
        var saved := Save(e, r.(state := Active, task := if r.task == 0 then task else r.task), ending);
        if Storable(e.store, r.(state := Active), ending) && ending == Acknowledged
        then saved.(active := true) else saved
    case Preview(manifest, sameTask, ending) =>
      if !e.active || r.role != Receiver || r.stopped || manifest == 0 || manifest != r.status.manifest || !sameTask
      then e
      else Save(e, r.(manifest := manifest, state := AwaitingSave), ending)
    case Bind(plan, ending) =>
      if !e.active || r.role != Receiver || r.stopped || r.status.state != Approved || r.intent.Some? || plan == 0
      then e
      else Fresh(Save(e, r.(plan := plan, intent := Some(Intent(e.nextIntent, OpBind))), ending))
    case Complete(ending) =>
      if !e.active || r.stopped then e
      else
        Fresh(Save(e, r.(completion := true, state := Ready, intent := Some(Intent(e.nextIntent, OpComplete))), ending))
    case Halt(ending) => if r.stopped then e else Save(e, r.(stopped := true, state := Stopped), ending)
    case Finish(paused, ending) =>
      var idle := e.(active := false);
      if r.stopped || r.state == Finished then idle
      else Save(idle, r.(state := if paused then Paused else NeedsAttention), ending)
    case _ => e
  }

  function StepDecide(e: Entry, a: Act): Entry {
    var r := e.store.record;
    if r.stopped || r.role != Sender || r.intent.Some? || r.status.state != Pending then e
    else
      match a
      case Approve(approval, ending) =>
        if approval == 0 then e
        else Fresh(Save(e, r.(approval := approval, intent := Some(Intent(e.nextIntent, OpApprove))), ending))
      case Deny(ending) => Fresh(Save(e, r.(intent := Some(Intent(e.nextIntent, OpDeny))), ending))
      case _ => e
  }

  predicate MayRetire(e: Entry, now: nat) {
    && e.store.row == Some(e.store.record) && !e.active && e.calls == {} && e.store.record.intent.None?
    && e.store.record.observed > 0 && now >= e.store.record.observed + RETENTION
    && Terminal(e.store.record.status.state)
  }

  function Next(e: Entry, mine: Name, a: Act): Entry {
    if e.retired then e
    else
      match a
      case Call =>
        var r := e.store.record;
        if r.intent.None? || (r.stopped && r.intent.value.operation != OpRevoke) then e
        else e.(calls := e.calls + {r.intent.value})
      case Answer(i, s, now, allowed, ending) => StepAnswer(e, mine, i, s, now, allowed, ending)
      case Fail(i, ending) => StepFail(e, i, ending)
      case Refresh(s, now, allowed, ending) =>
        if e.store.record.status.id == 0 || !Mergeable(e.store.record, s, mine) || !allowed || now == 0 then e
        else Save(e, Refreshed(e.store.record, s, now), ending)
      case Approve(_, _) => StepDecide(e, a)
      case Deny(_) => StepDecide(e, a)
      case Stop(revoke, ending) => StepStop(e, revoke, ending)
      case Retire(now) => if MayRetire(e, now) then e.(store := e.store.(row := None), retired := true) else e
      case Restart =>
        if e.store.row.None? then e
        else e.(store := Store(e.store.row.value, e.store.row), calls := {}, active := false)
      case _ => StepTask(e, a)
  }

  function Run(e: Entry, mine: Name, acts: seq<Act>): Entry
    decreases |acts|
  {
    if acts == [] then e else Run(Next(e, mine, acts[0]), mine, acts[1..])
  }

  // insertTemporaryRecord: what creating or claiming a share writes first.
  predicate Initial(e: Entry) {
    && e.store.row == Some(e.store.record) && e.calls == {} && !e.active && !e.retired && e.nextIntent == 2
    && e.superseded == {} && e.lost == {} && e.late == {} && InitialRecord(e.store.record)
  }

  predicate InitialRecord(r: Record) {
    && Valid(r) && r.revision == 1 && !r.stopped && r.status == BLANK && r.approval == 0 && r.plan == 0
    && r.task == 0 && r.observed == 0 && !r.completion
    && (if r.role == Sender then r.state == Creating && r.intent == Some(Intent(1, OpCreate))
        else r.state == Claiming && r.manifest == 0 && r.intent == Some(Intent(1, OpClaim)))
  }

  // --------------------------------------------------------- how a record evolves

  ghost predicate Evolves(r: Record, r': Record) {
    && r'.role == r.role && r'.id == r.id && r'.claim == r.claim && r.revision <= r'.revision
    && (r.stopped ==> r'.stopped)
    && (Terminal(r.status.state) ==> r'.status.state == r.status.state)
    && Kept(r.status.id, r'.status.id) && Kept(r.status.manifest, r'.status.manifest)
    && Kept(r.status.senderKey, r'.status.senderKey) && Kept(r.status.task, r'.status.task)
    && Kept(r.status.plan, r'.status.plan)
    && Kept(r.manifest, r'.manifest) && Kept(r.task, r'.task) && Kept(r.observed, r'.observed)
    && r.status.generation <= r'.status.generation
    && (r.approval != 0 && r.status.receiverKey != 0 ==>
          r'.approval != 0 && r'.status.receiverKey == r.status.receiverKey && r'.status.claim == r.status.claim)
  }

  lemma EvolvesChains(a: Record, b: Record, c: Record)
    requires Evolves(a, b) && Evolves(b, c)
    ensures Evolves(a, c)
  {
  }

  ghost predicate IntentsBelow(r: Record, bound: nat) {
    r.intent.Some? ==> r.intent.value.id < bound
  }

  // Memory is the row, or the row as it was before an unacknowledged save, or the row is retired.
  ghost predicate StoreInv(d: Store, bound: nat) {
    && Valid(d.record) && IntentsBelow(d.record, bound)
    && (d.row.Some? ==> Valid(d.row.value) && IntentsBelow(d.row.value, bound) && Evolves(d.record, d.row.value)
                        && (d.row.value != d.record ==> d.row.value.revision == d.record.revision + 1))
  }

  ghost predicate EntryInv(e: Entry) {
    && StoreInv(e.store, e.nextIntent) && (e.retired <==> e.store.row.None?)
    && (forall x | x in e.superseded :: x < e.nextIntent)
  }

  // What was stored has only evolved, and nothing is stored again once it is gone.
  ghost predicate Advances(d: Store, d': Store) {
    d'.row.Some? ==> d.row.Some? && Evolves(d.row.value, d'.row.value)
  }

  lemma SaveAdvances(d: Store, next: Record, ending: Io, bound: nat)
    requires StoreInv(d, bound) && Evolves(d.record, next.(revision := d.record.revision + 1))
    ensures Advances(d, Saved(d, next, ending)) && (d.row.Some? <==> Saved(d, next, ending).row.Some?)
    ensures IntentsBelow(next, bound) ==> StoreInv(Saved(d, next, ending), bound)
    ensures IntentsBelow(next, bound + 1) ==> StoreInv(Saved(d, next, ending), bound + 1)
  {
  }

  // A change of the local state, the intent or one name that was still empty.
  lemma EditEvolves(r: Record, next: Record)
    requires next.(state := r.state, intent := r.intent, stopped := r.stopped, completion := r.completion,
                   approval := r.approval, plan := r.plan, task := r.task, manifest := r.manifest) == r
    requires (r.stopped ==> next.stopped) && (r.approval != 0 ==> next.approval != 0)
    requires Kept(r.task, next.task) && Kept(r.manifest, next.manifest)
    ensures Evolves(r, next.(revision := r.revision + 1))
  {
  }

  lemma MergedEvolves(r: Record, s: Status, mine: Name, now: nat, next: Record)
    requires Mergeable(r, s, mine) && now > 0
    requires next == Answered(r, s, now) || next == Refreshed(r, s, now)
    ensures Evolves(r, next.(revision := r.revision + 1))
  {
  }

  ghost predicate StepOk(e: Entry, e': Entry) {
    EntryInv(e') && Advances(e.store, e'.store)
  }

  lemma AnswerOk(e: Entry, mine: Name, i: Intent, s: Status, now: nat, allowed: bool, ending: Io)
    requires EntryInv(e)
    ensures StepOk(e, StepAnswer(e, mine, i, s, now, allowed, ending))
  {
    if i in e.calls && e.store.record.intent == Some(i) && Mergeable(e.store.record, s, mine) && allowed && now != 0 {
      var next := Answered(e.store.record, s, now);
      MergedEvolves(e.store.record, s, mine, now, next);
      SavesAside(e, e.calls - {i}, next, ending);
      SameStoreOk(e, Save(e.(calls := e.calls - {i}), next, ending), StepAnswer(e, mine, i, s, now, allowed, ending));
    }
  }

  // Only the stored part and the intents matter.
  lemma SameStoreOk(e: Entry, e': Entry, e'': Entry)
    requires StepOk(e, e') && e'.(calls := e''.calls, active := e''.active, late := e''.late) == e''
    ensures StepOk(e, e'')
  {
  }

  lemma RefreshOk(e: Entry, mine: Name, s: Status, now: nat, ending: Io)
    requires EntryInv(e) && Mergeable(e.store.record, s, mine) && now != 0
    ensures StepOk(e, Save(e, Refreshed(e.store.record, s, now), ending))
  {
    var next := Refreshed(e.store.record, s, now);
    MergedEvolves(e.store.record, s, mine, now, next);
    SaveAdvances(e.store, next, ending, e.nextIntent);
  }

  lemma FailOk(e: Entry, i: Intent, ending: Io)
    requires EntryInv(e)
    ensures StepOk(e, StepFail(e, i, ending))
  {
    var next := Failed(e.store.record, i);
    EditEvolves(e.store.record, next);
    SavesAside(e, e.calls - {i}, next, ending);
  }

  lemma SavesAside(e: Entry, calls: set<Intent>, next: Record, ending: Io)
    requires EntryInv(e) && Evolves(e.store.record, next.(revision := e.store.record.revision + 1))
    requires IntentsBelow(next, e.nextIntent)
    ensures StepOk(e, Save(e.(calls := calls), next, ending)) && StepOk(e, e.(calls := calls))
  {
    SaveAdvances(e.store, next, ending, e.nextIntent);
  }

  // An edit of the record in memory, with or without a fresh intent.
  lemma EditOk(e: Entry, next: Record, ending: Io)
    requires EntryInv(e) && Evolves(e.store.record, next.(revision := e.store.record.revision + 1))
    ensures IntentsBelow(next, e.nextIntent) ==> StepOk(e, Save(e, next, ending))
    ensures IntentsBelow(next, e.nextIntent + 1) ==> StepOk(e, Fresh(Save(e, next, ending)))
  {
    SaveAdvances(e.store, next, ending, e.nextIntent);
  }

  lemma StopOk(e: Entry, revoke: bool, ending: Io)
    requires EntryInv(e)
    ensures StepOk(e, StepStop(e, revoke, ending))
  {
    var r := e.store.record;
    var next := AfterStop(r, revoke, e.nextIntent);
    EditEvolves(r, next);
    SaveAdvances(e.store, next, ending, e.nextIntent);
  }

  lemma StartOk(e: Entry, task: Name, ending: Io)
    requires EntryInv(e)
    ensures StepOk(e, StepTask(e, Start(task, ending)))
  {
    var r := e.store.record;
    var next := r.(state := Active, task := if r.task == 0 then task else r.task);
    EditEvolves(r, next);
    EditOk(e, next, ending);
  }

  lemma PreviewOk(e: Entry, manifest: Name, sameTask: bool, ending: Io)
    requires EntryInv(e)
    ensures StepOk(e, StepTask(e, Preview(manifest, sameTask, ending)))
  {
    var r := e.store.record;
    if manifest != 0 && manifest == r.status.manifest {
      var next := r.(manifest := manifest, state := AwaitingSave);
      EditEvolves(r, next);
      EditOk(e, next, ending);
    }
  }

  lemma BindOk(e: Entry, plan: Name, ending: Io)
    requires EntryInv(e)
    ensures StepOk(e, StepTask(e, Bind(plan, ending)))
  {
    var r := e.store.record;
    var next := r.(plan := plan, intent := Some(Intent(e.nextIntent, OpBind)));
    EditEvolves(r, next);
    EditOk(e, next, ending);
  }

  lemma CompleteOk(e: Entry, ending: Io)
    requires EntryInv(e)
    ensures StepOk(e, StepTask(e, Complete(ending)))
  {
    var r := e.store.record;
    var next := r.(completion := true, state := Ready, intent := Some(Intent(e.nextIntent, OpComplete)));
    EditEvolves(r, next);
    EditOk(e, next, ending);
  }

  lemma HaltOk(e: Entry, ending: Io)
    requires EntryInv(e)
    ensures StepOk(e, StepTask(e, Halt(ending)))
  {
    var r := e.store.record;
    EditEvolves(r, r.(stopped := true, state := Stopped));
    EditOk(e, r.(stopped := true, state := Stopped), ending);
  }

  lemma FinishOk(e: Entry, paused: bool, ending: Io)
    requires EntryInv(e)
    ensures StepOk(e, StepTask(e, Finish(paused, ending)))
  {
    var r := e.store.record;
    var next := r.(state := if paused then Paused else NeedsAttention);
    EditEvolves(r, next);
    EditOk(e, next, ending);
    if !r.stopped && r.state != Finished {
      SameStoreOk(e, Save(e, next, ending), StepTask(e, Finish(paused, ending)));
    }
  }

  lemma ApproveOk(e: Entry, approval: Name, ending: Io)
    requires EntryInv(e)
    ensures StepOk(e, StepDecide(e, Approve(approval, ending)))
  {
    if approval != 0 {
      var r := e.store.record;
      var next := r.(approval := approval, intent := Some(Intent(e.nextIntent, OpApprove)));
      EditEvolves(r, next);
      EditOk(e, next, ending);
    }
  }

  lemma DenyOk(e: Entry, ending: Io)
    requires EntryInv(e)
    ensures StepOk(e, StepDecide(e, Deny(ending)))
  {
    var r := e.store.record;
    EditEvolves(r, r.(intent := Some(Intent(e.nextIntent, OpDeny))));
    EditOk(e, r.(intent := Some(Intent(e.nextIntent, OpDeny))), ending);
  }

  lemma TaskOk(e: Entry, a: Act)
    requires EntryInv(e)
    ensures StepOk(e, StepTask(e, a))
  {
    match a
    case Start(task, ending) => StartOk(e, task, ending);
    case Preview(manifest, sameTask, ending) => PreviewOk(e, manifest, sameTask, ending);
    case Bind(plan, ending) => BindOk(e, plan, ending);
    case Complete(ending) => CompleteOk(e, ending);
    case Halt(ending) => HaltOk(e, ending);
    case Finish(paused, ending) => FinishOk(e, paused, ending);
    case _ =>
  }

  lemma ServerOk(e: Entry, mine: Name, a: Act)
    requires EntryInv(e) && (a.Answer? || a.Fail? || a.Refresh?)
    ensures StepOk(e, Next(e, mine, a))
  {
    if a.Answer? {
      AnswerOk(e, mine, a.i, a.status, a.now, a.allowed, a.ending);
    } else if a.Fail? {
      FailOk(e, a.i, a.ending);
    } else if Mergeable(e.store.record, a.status, mine) && a.now != 0 {
      RefreshOk(e, mine, a.status, a.now, a.ending);
    }
  }

  lemma UserOk(e: Entry, mine: Name, a: Act)
    requires EntryInv(e) && (a.Approve? || a.Deny? || a.Stop?)
    ensures StepOk(e, Next(e, mine, a))
  {
    if a.Approve? {
      ApproveOk(e, a.approval, a.ending);
    } else if a.Deny? {
      DenyOk(e, a.ending);
    } else {
      StopOk(e, a.revoke, a.ending);
    }
  }

  lemma NextOk(e: Entry, mine: Name, a: Act)
    requires EntryInv(e)
    ensures StepOk(e, Next(e, mine, a))
  {
    if a.Answer? || a.Fail? || a.Refresh? {
      ServerOk(e, mine, a);
    } else if a.Approve? || a.Deny? || a.Stop? {
      UserOk(e, mine, a);
    } else {
      TaskOk(e, a);
    }
  }

  lemma {:induction false} RunOk(e: Entry, mine: Name, acts: seq<Act>)
    requires EntryInv(e)
    ensures StepOk(e, Run(e, mine, acts))
    decreases |acts|
  {
    if acts == [] {
    } else {
      var next := Next(e, mine, acts[0]);
      NextOk(e, mine, acts[0]);
      RunOk(next, mine, acts[1..]);
      var last := Run(next, mine, acts[1..]);
      if last.store.row.Some? {
        EvolvesChains(e.store.row.value, next.store.row.value, last.store.row.value);
      }
    }
  }

  /** From any point of any run to any later one, whatever the server answers, however saves end and whenever
      the program restarts: the grant's ID, manifest, sender key, task and plan, the local manifest and task,
      and the time the end was observed never change once set; the approved receiver and claim stay; the
      generation and the revision never fall; a terminal grant keeps its state; a stopped share stays stopped;
      and a retired record never comes back. */
  lemma {:induction false} RecordsEvolve(start: Entry, mine: Name, before: seq<Act>, after: seq<Act>)
    requires Initial(start)
    ensures var e := Run(start, mine, before);
            var e' := Run(e, mine, after);
            && EntryInv(e) && EntryInv(e')
            && (e'.store.row.Some? ==> e.store.row.Some? && Evolves(e.store.row.value, e'.store.row.value))
  {
    RunOk(start, mine, before);
    RunOk(Run(start, mine, before), mine, after);
  }

  // ------------------------------------------------------------ superseded answers

  // A superseded intent that is still in the row is there because its stop did not reach the row.
  ghost predicate Replaced(e: Entry) {
    && EntryInv(e) && e.lost <= e.superseded
    && (e.store.row.Some? && e.store.row.value.intent.Some? && e.store.row.value.intent.value.id in e.superseded ==>
          e.store.row.value.intent.value.id in e.lost)
  }

  // A step that is not a stop leaves the row's intent alone, clears it, or writes a new one.
  ghost predicate IntentStep(e: Entry, e': Entry) {
    && e'.superseded == e.superseded && e'.lost == e.lost
    && (e'.store.row.Some? && e'.store.row.value.intent.Some? ==>
          e'.store.row.value.intent.value.id == e.nextIntent
          || (e.store.row.Some? && e'.store.row.value.intent == e.store.row.value.intent))
  }

  lemma TaskIntents(e: Entry, a: Act)
    ensures IntentStep(e, StepTask(e, a))
  {
  }

  lemma DecideIntents(e: Entry, a: Act)
    ensures IntentStep(e, StepDecide(e, a))
  {
  }

  lemma AnswerIntents(e: Entry, mine: Name, i: Intent, s: Status, now: nat, allowed: bool, ending: Io)
    ensures IntentStep(e, StepAnswer(e, mine, i, s, now, allowed, ending))
  {
  }

  // A stop that reaches the row puts a new intent, or none, in the place of the old one.
  lemma StopReplaces(e: Entry, revoke: bool, ending: Io)
    requires Replaced(e)
    ensures Replaced(StepStop(e, revoke, ending))
  {
    StopOk(e, revoke, ending);
  }

  lemma SaveIntents(e: Entry, e': Entry, next: Record, ending: Io)
    requires e' == e.(store := Saved(e.store, next, ending), calls := e'.calls) && next.intent == e.store.record.intent
    ensures IntentStep(e, e')
  {
  }

  lemma OtherIntents(e: Entry, mine: Name, a: Act)
    requires a.Fail? || a.Refresh? || a.Call? || a.Retire? || a.Restart?
    ensures IntentStep(e, Next(e, mine, a))
  {
    var r := e.store.record;
    match a
    case Fail(i, ending) =>
      SaveIntents(e, Save(e.(calls := e.calls - {i}), Failed(r, i), ending), Failed(r, i), ending);
    case Refresh(s, now, allowed, ending) =>
      SaveIntents(e, Save(e, Refreshed(r, s, now), ending), Refreshed(r, s, now), ending);
    case _ =>
  }

  lemma StepReplaces(e: Entry, e': Entry)
    requires Replaced(e) && EntryInv(e') && IntentStep(e, e')
    ensures Replaced(e')
  {
  }

  lemma NextReplaces(e: Entry, mine: Name, a: Act)
    requires Replaced(e)
    ensures Replaced(Next(e, mine, a))
  {
    NextOk(e, mine, a);
    if a.Stop? {
      StopReplaces(e, a.revoke, a.ending);
    } else {
      NextIntents(e, mine, a);
      StepReplaces(e, Next(e, mine, a));
    }
  }

  lemma NextIntents(e: Entry, mine: Name, a: Act)
    requires !a.Stop?
    ensures IntentStep(e, Next(e, mine, a))
  {
    match a
    case Answer(i, s, now, allowed, ending) => AnswerIntents(e, mine, i, s, now, allowed, ending);
    case Approve(_, _) => DecideIntents(e, a);
    case Deny(_) => DecideIntents(e, a);
    case Fail(_, _) => OtherIntents(e, mine, a);
    case Refresh(_, _, _, _) => OtherIntents(e, mine, a);
    case Call => OtherIntents(e, mine, a);
    case Retire(_) => OtherIntents(e, mine, a);
    case Restart => OtherIntents(e, mine, a);
    case _ => TaskIntents(e, a);
  }

  // The answer is accepted and its save reaches the row.
  predicate Lands(e: Entry, mine: Name, a: Act) {
    && a.Answer? && !e.retired && a.i in e.calls && e.store.record.intent == Some(a.i)
    && Mergeable(e.store.record, a.status, mine) && a.allowed && a.now != 0
    && Storable(e.store, Answered(e.store.record, a.status, a.now), a.ending)
  }

  // An answer that lands although a stop, which did not reach the row, was asked to replace its intent.
  predicate OutrunsStop(e: Entry, mine: Name, a: Act) {
    Lands(e, mine, a) && a.i.id in e.lost
  }

  lemma OnlyAnswersAreLate(e: Entry, mine: Name, a: Act)
    requires !a.Answer?
    ensures Next(e, mine, a).late == e.late
  {
  }

  /** One step of any run applies the answer to a superseded intent exactly if that intent's stop did not reach
      the row: a stop that did makes its intent unanswerable for ever. */
  lemma LateIffStopWasLost(e: Entry, mine: Name, a: Act)
    requires Replaced(e)
    ensures Next(e, mine, a).late == if OutrunsStop(e, mine, a) then e.late + {a.i.id} else e.late
  {
    if !a.Answer? {
      OnlyAnswersAreLate(e, mine, a);
    }
  }

  ghost predicate NoStopOutrun(e: Entry, mine: Name, acts: seq<Act>)
    decreases |acts|
  {
    acts == [] || (!OutrunsStop(e, mine, acts[0]) && NoStopOutrun(Next(e, mine, acts[0]), mine, acts[1..]))
  }

  lemma {:induction false} LateFrom(e: Entry, mine: Name, acts: seq<Act>)
    requires Replaced(e)
    ensures e.late <= Run(e, mine, acts).late
    ensures Run(e, mine, acts).late == {} <==> e.late == {} && NoStopOutrun(e, mine, acts)
    ensures Replaced(Run(e, mine, acts))
    ensures Run(e, mine, acts).late <= e.late + Run(e, mine, acts).lost && e.lost <= Run(e, mine, acts).lost
    decreases |acts|
  {
    if acts != [] {
      NextReplaces(e, mine, acts[0]);
      LateIffStopWasLost(e, mine, acts[0]);
      LostGrows(e, mine, acts[0]);
      LateFrom(Next(e, mine, acts[0]), mine, acts[1..]);
    }
  }

  lemma LostGrows(e: Entry, mine: Name, a: Act)
    ensures e.lost <= Next(e, mine, a).lost
  {
    if !a.Stop? {
      NextIntents(e, mine, a);
    }
  }

  /** In a run of the code as it is, no answer to a superseded intent is applied exactly if no answer lands whose
      stop did not reach the row. In particular none is if every stop reaches the row. */
  lemma {:induction false} StopsReplaceUnlessLost(start: Entry, mine: Name, acts: seq<Act>)
    requires Initial(start)
    ensures Run(start, mine, acts).late == {} <==> NoStopOutrun(start, mine, acts)
    ensures Run(start, mine, acts).late <= Run(start, mine, acts).lost
  {
    LateFrom(start, mine, acts);
  }

  // A sender's new share, and the server's answer to the request that creates it.
  function NewShare(mine: Name): Entry {
    var r := Record(Sender, 1, 0, 1, Creating, false, BLANK, 0, 9, 0, 0, false, Some(Intent(1, OpCreate)), 0);
    Entry(Store(r, Some(r)), {}, false, false, 2, {}, {}, {})
  }

  function Outrunning(mine: Name): seq<Act> {
    [Call, Stop(true, Rejected),
     Answer(Intent(1, OpCreate), Status(1, 0, 0, 9, 0, mine, 0, 1, Offered), 1, true, Acknowledged)]
  }

  /** The losing run: the save of a stop fails while the first request is under way; the local task is cancelled,
      and the request's answer is applied. */
  lemma StopOutrun(mine: Name)
    requires mine != 0
    ensures Initial(NewShare(mine)) && Run(NewShare(mine), mine, Outrunning(mine)).late == {1}
  {
    var acts := Outrunning(mine);
    var e0 := NewShare(mine);
    var e1 := Next(e0, mine, acts[0]);
    var e2 := Next(e1, mine, acts[1]);
    var e3 := Next(e2, mine, acts[2]);
    assert e1.calls == {Intent(1, OpCreate)} && e2.superseded == {1} && e2.store == e0.store;
    assert e3.late == {} + {1};
    assert acts[1..] == [acts[1], acts[2]] && [acts[1], acts[2]][1..] == [acts[2]] && [acts[2]][1..] == [];
    assert Run(e3, mine, []) == e3;
    assert Run(e2, mine, [acts[2]]) == e3;
    assert Run(e1, mine, acts[1..]) == e3;
  }

  // ------------------------------------------------------------------ in place

  /** One share's entry as its methods update it under its lock. */
  class ShareEntry {
    var record: Record
    var row: Option<Record>

    constructor (r: Record)
      ensures Value() == Store(r, Some(r))
    {
      record, row := r, Some(r);
    }

    function Value(): Store
      reads this
    {
      Store(record, row)
    }

    method SaveRecord(next: Record, ending: Io) returns (ok: bool)
      modifies this
      ensures Value() == Saved(old(Value()), next, ending)
      ensures ok <==> Storable(old(Value()), next, ending) && ending == Acknowledged
      ensures ok ==> row == Some(record) && record == next.(revision := old(record).revision + 1)
    {
      var signed := next.(revision := record.revision + 1);
      if !Valid(signed) || ending == Rejected || row != Some(record) {
        return false;
      }
      row := Some(signed);
      if ending == Unacknowledged {
        return false;
      }
      record := signed;
      return true;
    }

    method Merge(s: Status, mine: Name, now: nat) returns (merged: Option<Record>)
      ensures merged == if Mergeable(record, s, mine) then Some(Merged(record, s, now)) else None
      ensures merged.Some? && now > 0 ==> Evolves(record, merged.value)
    {
      var known := record.status;
      if Terminal(known.state) && known.state != s.state {
        return None;
      }
      if s.id == 0 || !Kept(known.id, s.id) || !Kept(known.manifest, s.manifest) || !Kept(known.senderKey, s.senderKey)
         || (record.manifest != 0 && record.manifest != s.manifest) || !Kept(known.task, s.task)
         || !Kept(known.plan, s.plan) || known.generation > s.generation {
        return None;
      }
      if (record.role == Sender && s.senderKey != mine)
         || (record.role == Receiver && (s.receiverKey != mine || s.claim != record.claim)) {
        return None;
      }
      if record.approval != 0 && known.receiverKey != 0
         && (known.receiverKey != s.receiverKey || known.claim != s.claim) {
        return None;
      }
      var next := record.(status := s);
      if next.observed == 0 && Terminal(s.state) {
        next := next.(observed := now);
      }
      return Some(next);
    }

    method StopShare(revoke: bool, freshId: nat, ending: Io) returns (ok: bool)
      modifies this
      ensures var refused := (revoke && old(record).role != Sender) || old(record).state == Finished;
              Value() == if refused then old(Value())
                         else Saved(old(Value()), AfterStop(old(record), revoke, freshId), ending)
      ensures ok ==> record.stopped && record.state == Stopped && row == Some(record)
    {
      if (revoke && record.role != Sender) || record.state == Finished {
        return false;
      }
      var named := record.status.id != 0 || record.role == Sender;
      var next := record.(stopped := true, state := Stopped);
      next := next.(intent := if revoke && named then Some(Intent(freshId, OpRevoke)) else None);
      ok := SaveRecord(next, ending);
    }

    // The end of executeTemporaryIntent, for the intent i that was sent.
    method ApplyAnswer(i: Intent, s: Status, mine: Name, now: nat, ending: Io) returns (ok: bool)
      requires now > 0
      modifies this
      ensures var applies := old(record).intent == Some(i) && Mergeable(old(record), s, mine);
              Value() == if applies then Saved(old(Value()), Answered(old(record), s, now), ending) else old(Value())
      ensures ok ==> old(record).intent == Some(i) && record.intent.None? && record.status == s
    {
      if record.intent != Some(i) {
        return false;
      }
      var merged := Merge(s, mine, now);
      if merged.None? {
        return false;
      }
      var next := merged.value.(intent := None);
      if next.stopped {
        next := next.(state := Stopped);
      } else if s.state == Completed {
        next := next.(state := if next.completion then Finished else NeedsAttention);
      } else {
        next := next.(state := Ready);
      }
      ok := SaveRecord(next, ending);
    }
  }
}
