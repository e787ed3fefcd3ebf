/** The durable task history (internal/app/history.go) and forgetting (internal/app/inbox_actions.go):
    saves reach the table in any order and may repeat, a forgotten task leaves a tombstone, and a row that
    cannot be read at start-up is moved aside without one. */
module History {

  type TaskId = nat
  type Payload = nat // a snapshot with its recovery record; 0 is one that cannot be read

  const MAX_FORGET := 100

  datatype Saved = Saved(id: TaskId, revision: nat, payload: Payload)

  datatype Table = Table(rows: map<TaskId, Saved>, tombs: set<TaskId>)

  datatype Ref = Ref(id: TaskId, revision: nat)

  function Upserted(t: Table, s: Saved): Table {
    if s.id in t.tombs || (s.id in t.rows && s.revision <= t.rows[s.id].revision) then t
    else t.(rows := t.rows[s.id := s])
  }

  function Applied(t: Table, saves: seq<Saved>): Table {
    if saves == [] then t else Upserted(Applied(t, saves[..|saves| - 1]), saves[|saves| - 1])
  }

  // ForgetInboxRecords: all of them, or none. protected are the tasks that are live or still needed.
  predicate WellFormed(refs: seq<Ref>, protected: set<TaskId>) {
    && 1 <= |refs| <= MAX_FORGET
    && (forall i | 0 <= i < |refs| :: refs[i].revision > 0 && refs[i].id !in protected)
    && (forall i, j | 0 <= i < j < |refs| :: refs[i].id != refs[j].id)
  }

  predicate Current(t: Table, r: Ref) {
    r.id in t.rows && t.rows[r.id].revision == r.revision && r.id !in t.tombs
  }

  predicate MayForget(t: Table, refs: seq<Ref>, protected: set<TaskId>) {
    WellFormed(refs, protected) && forall i | 0 <= i < |refs| :: Current(t, refs[i])
  }

  function Ids(refs: seq<Ref>): set<TaskId> {
    set r | r in refs :: r.id
  }

  lemma NotYet(refs: seq<Ref>, i: nat, protected: set<TaskId>)
    requires WellFormed(refs, protected) && i < |refs|
    ensures refs[i].id !in Ids(refs[..i])
  {
  }

  lemma IdsGrow(refs: seq<Ref>, i: nat)
    requires i < |refs|
    ensures Ids(refs[..i + 1]) == Ids(refs[..i]) + {refs[i].id}
  {
    assert refs[..i + 1] == refs[..i] + [refs[i]];
  }

  function Forgotten(t: Table, refs: seq<Ref>): Table {
    Table(t.rows - Ids(refs), t.tombs + Ids(refs))
  }

  function Quarantined(t: Table, id: TaskId, revision: nat): Table {
    if id in t.rows && t.rows[id].revision == revision then t.(rows := t.rows - {id}) else t
  }

  /** The table as its transactions change it. */
  class TaskHistory {
    var rows: map<TaskId, Saved>
    var tombs: set<TaskId>

    constructor ()
      ensures rows == map[] && tombs == {}
    {
      rows, tombs := map[], {};
    }

    function Value(): Table
      reads this
    {
      Table(rows, tombs)
    }

    method Upsert(s: Saved)
      modifies this
      ensures Value() == Upserted(old(Value()), s)
      ensures s.id in tombs ==> Value() == old(Value())
      ensures s.id !in tombs ==> s.id in rows && rows[s.id].revision >= s.revision
      ensures forall id | id in old(rows) :: id in rows && rows[id].revision >= old(rows)[id].revision
      ensures forall id | id != s.id :: (id in rows <==> id in old(rows)) && (id in rows ==> rows[id] == old(rows)[id])
      ensures Upserted(Value(), s) == Value()
    {
      if s.id in tombs {
        return;
      }
      if s.id !in rows || s.revision > rows[s.id].revision {
        rows := rows[s.id := s];
      }
    }

    static method CheckRefs(refs: seq<Ref>, protected: set<TaskId>) returns (ok: bool)
      ensures ok == WellFormed(refs, protected)
    {
      if |refs| == 0 || |refs| > MAX_FORGET {
        return false;
      }
      var seen: set<TaskId> := {};
      for i := 0 to |refs|
        invariant forall x :: x in seen <==> exists k :: 0 <= k < i && refs[k].id == x
        invariant forall k | 0 <= k < i :: refs[k].revision > 0
        invariant forall j, k | 0 <= j < k < i :: refs[j].id != refs[k].id
      {
        if refs[i].revision == 0 || refs[i].id in seen {
          return false;
        }
        seen := seen + {refs[i].id};
      }
      for i := 0 to |refs|
        invariant forall k | 0 <= k < i :: refs[k].id !in protected
      {
        if refs[i].id in protected {
          return false;
        }
      }
      return true;
    }

    method Forget(refs: seq<Ref>, protected: set<TaskId>) returns (ok: bool)
      modifies this
      ensures ok == MayForget(old(Value()), refs, protected)
      ensures Value() == if ok then Forgotten(old(Value()), refs) else old(Value())
    {
      ok := CheckRefs(refs, protected);
      if !ok {
        return;
      }
      var kept, marked := rows, tombs;
      for i := 0 to |refs|
        invariant Value() == old(Value())
        invariant kept == rows - Ids(refs[..i]) && marked == tombs + Ids(refs[..i])
        invariant forall k | 0 <= k < i :: Current(Value(), refs[k])
      {
        NotYet(refs, i, protected);
        if refs[i].id !in kept || kept[refs[i].id].revision != refs[i].revision || refs[i].id in marked {
          return false;
        }
        kept, marked := kept - {refs[i].id}, marked + {refs[i].id};
        IdsGrow(refs, i);
      }
      assert refs[..|refs|] == refs;
      rows, tombs := kept, marked;
    }

    method Quarantine(id: TaskId, revision: nat)
      modifies this
      ensures Value() == Quarantined(old(Value()), id, revision)
    {
      if id in rows && rows[id].revision == revision {
        rows := rows - {id};
      }
    }
  }

  // ------------------------------------------------------------ saving is a join

  ghost predicate Keyed(t: Table) {
    forall id | id in t.rows :: t.rows[id].id == id && id !in t.tombs
  }

  // One revision of a task has one content, in the table and among the saves.
  ghost predicate Consistent(t: Table, saves: seq<Saved>) {
    && (forall a, b | a in saves && b in saves && a.id == b.id && a.revision == b.revision :: a == b)
    && (forall a | a in saves && a.id in t.rows && a.revision == t.rows[a.id].revision :: a == t.rows[a.id])
  }

  // The row is the newest of what the table had and what was saved.
  ghost predicate NewestOf(row: Saved, t: Table, saves: seq<Saved>) {
    && (row in saves || (row.id in t.rows && row == t.rows[row.id]))
    && (forall a | a in saves && a.id == row.id :: a.revision <= row.revision)
    && (row.id in t.rows ==> t.rows[row.id].revision <= row.revision)
  }

  lemma {:induction false} AppliedIs(t: Table, saves: seq<Saved>)
    requires Keyed(t)
    ensures var u := Applied(t, saves);
            && Keyed(u) && u.tombs == t.tombs
            && (forall id :: id in u.rows <==>
                               id in t.rows || (id !in t.tombs && exists a :: a in saves && a.id == id))
            && (forall id | id in u.rows :: NewestOf(u.rows[id], t, saves))
    decreases |saves|
  {
    if saves != [] {
      var before := saves[..|saves| - 1];
      var last := saves[|saves| - 1];
      AppliedIs(t, before);
      assert saves == before + [last];
      var u, u' := Applied(t, before), Applied(t, saves);
      forall id | id in u'.rows
        ensures NewestOf(u'.rows[id], t, saves)
      {
        if id != last.id {
          assert NewestOf(u.rows[id], t, before);
        } else if id in u.rows {
          assert NewestOf(u.rows[id], t, before);
        } else {
          assert u'.rows[id] == last;
        }
      }
    }
  }

  lemma SameRow(t: Table, saves: seq<Saved>, others: seq<Saved>, a: Saved, b: Saved)
    requires Consistent(t, saves) && forall s :: s in saves <==> s in others
    requires NewestOf(a, t, saves) && NewestOf(b, t, others) && a.id == b.id
    ensures a == b
  {
  }

  lemma SameIds(t: Table, saves: seq<Saved>, others: seq<Saved>)
    requires Keyed(t) && forall s :: s in saves <==> s in others
    ensures Applied(t, saves).rows.Keys <= Applied(t, others).rows.Keys
  {
    AppliedIs(t, saves);
    AppliedIs(t, others);
    forall id | id in Applied(t, saves).rows
      ensures id in Applied(t, others).rows
    {
      if id !in t.rows {
        var a :| a in saves && a.id == id;
        assert a in others;
      }
    }
  }

  lemma OneRow(t: Table, saves: seq<Saved>, others: seq<Saved>, id: TaskId)
    requires Keyed(t) && Consistent(t, saves) && forall s :: s in saves <==> s in others
    requires id in Applied(t, saves).rows && id in Applied(t, others).rows
    ensures Applied(t, saves).rows[id] == Applied(t, others).rows[id]
  {
    AppliedIs(t, saves);
    AppliedIs(t, others);
    SameRow(t, saves, others, Applied(t, saves).rows[id], Applied(t, others).rows[id]);
  }

  lemma SameRows(t: Table, saves: seq<Saved>, others: seq<Saved>)
    requires Keyed(t) && Consistent(t, saves) && forall s :: s in saves <==> s in others
    ensures Applied(t, saves).rows.Keys == Applied(t, others).rows.Keys
    ensures forall id | id in Applied(t, saves).rows :: Applied(t, saves).rows[id] == Applied(t, others).rows[id]
  {
    SameIds(t, saves, others);
    SameIds(t, others, saves);
    forall id | id in Applied(t, saves).rows
      ensures Applied(t, saves).rows[id] == Applied(t, others).rows[id]
    {
      OneRow(t, saves, others, id);
    }
  }

  /** Saving is a join: any two sequences of saves with the same members, in whatever order and however often
      each occurs, leave the same table, in which every task has its newest revision. */
  lemma SavesCommute(t: Table, saves: seq<Saved>, others: seq<Saved>)
    requires Keyed(t) && Consistent(t, saves)
    requires forall s :: s in saves <==> s in others
    ensures Applied(t, saves) == Applied(t, others)
    ensures forall id | id in Applied(t, saves).rows :: NewestOf(Applied(t, saves).rows[id], t, saves)
  {
    AppliedIs(t, saves);
    AppliedIs(t, others);
    SameRows(t, saves, others);
    assert Applied(t, saves).rows == Applied(t, others).rows;
  }

  // ------------------------------------------------------------- gone for good

  // The application over its starts. A record in memory saves itself whenever it changes, and keeps doing so
  // after it was forgotten, as long as something still holds it.
  datatype Life = Life(
    table: Table,
    loading: set<TaskId>,          // rows that start-up has read and not yet gone through
    records: map<TaskId, nat>,     // records in memory and their revisions
    late: set<Saved>,              // saves under way, in any order and any number of times
    used: set<TaskId>,             // every ID there has been
    removed: set<TaskId>)          // history: IDs that were in the table and have left it

  const UNUSED := Life(Table(map[], {}), {}, map[], {}, {}, {})

  datatype Step =
    | Create(id: TaskId)
    | Change(id: TaskId, payload: Payload)
    | Land(saved: Saved)
    | Forget(refs: seq<Ref>, protected: set<TaskId>)
    | Damage(id: TaskId)           // the stored row can no longer be read
    | Restart(finished: set<TaskId>, newest: set<TaskId>)
    | Load(id: TaskId, running: bool)

  // New tasks get identifiers that were never used.
  function StepCreate(l: Life, id: TaskId): Life {
    if l.loading != {} || id in l.used then l else l.(records := l.records[id := 1], used := l.used + {id})
  }

  function StepChange(l: Life, id: TaskId, payload: Payload): Life {
    if l.loading != {} || id !in l.records || payload == 0 then l
    else
      var revision := l.records[id] + 1;
      l.(records := l.records[id := revision], late := l.late + {Saved(id, revision, payload)})
  }

  function StepForget(l: Life, refs: seq<Ref>, protected: set<TaskId>): Life {
    if l.loading != {} || !MayForget(l.table, refs, protected) then l
    else l.(table := Forgotten(l.table, refs), removed := l.removed + Ids(refs))
  }

  const MAX_LOADED := 200

  // The process ends; the next one reads every row that is not finished, and the newest ones, before it goes
  // through them. The other rows stay on disk without a record in memory.
  function StepRestart(l: Life, finished: set<TaskId>, newest: set<TaskId>): Life {
    if |newest| > MAX_LOADED then l
    else
      var read := set id | id in l.table.rows && (id !in finished || id in newest);
      l.(loading := read, records := map[], late := {})
  }

  // One row of configureHistory: quarantined if it cannot be read, else loaded, and saved again if it was live.
  function StepLoad(l: Life, id: TaskId, running: bool): Life {
    if id !in l.loading || id !in l.table.rows then l
    else
      var (row, rest) := (l.table.rows[id], l.loading - {id});
      if row.payload == 0 then
        l.(table := Quarantined(l.table, id, row.revision), loading := rest, removed := l.removed + {id})
      else
        var revision := if running then row.revision + 1 else row.revision;
        l.(table := Upserted(l.table, row.(revision := revision)), loading := rest,
           records := l.records[id := revision])
  }

  function StepDamage(l: Life, id: TaskId): Life {
    if id in l.table.rows then l.(table := l.table.(rows := l.table.rows[id := l.table.rows[id].(payload := 0)])) else l
  }

  function After(l: Life, s: Step): Life {
    match s
    case Create(id) => StepCreate(l, id)
    case Change(id, payload) => StepChange(l, id, payload)
    case Land(saved) => if saved in l.late then l.(table := Upserted(l.table, saved)) else l
    case Forget(refs, protected) => StepForget(l, refs, protected)
    case Damage(id) => StepDamage(l, id)
    case Restart(finished, newest) => StepRestart(l, finished, newest)
    case Load(id, running) => StepLoad(l, id, running)
  }

  function Run(l: Life, steps: seq<Step>): Life
    decreases |steps|
  {
    if steps == [] then l else Run(After(l, steps[0]), steps[1..])
  }

  // Nothing in memory could still save this task.
  ghost predicate Unsaved(l: Life, id: TaskId) {
    id !in l.records && forall s | s in l.late :: s.id != id
  }

  // What has left the table is out of it: behind a tombstone, or with nothing that would save it.
  ghost predicate GoneInv(l: Life) {
    && l.table.tombs <= l.removed
    && (forall id | id in l.removed :: id !in l.table.rows && (id in l.table.tombs || Unsaved(l, id)))
  }

  ghost predicate UsedInv(l: Life) {
    && l.table.rows.Keys <= l.used && l.records.Keys <= l.used && l.removed <= l.used
    && (forall s | s in l.late :: s.id in l.used)
  }

  // While start-up goes through the rows, no row it has yet to see has a record.
  ghost predicate LoadingInv(l: Life) {
    && l.loading <= l.table.rows.Keys
    && (forall id | id in l.loading :: Unsaved(l, id))
  }

  ghost predicate LifeInv(l: Life) {
    Keyed(l.table) && GoneInv(l) && UsedInv(l) && LoadingInv(l)
  }

  lemma ForgetKeeps(l: Life, refs: seq<Ref>, protected: set<TaskId>)
    requires LifeInv(l)
    ensures LifeInv(StepForget(l, refs, protected))
  {
    if l.loading == {} && MayForget(l.table, refs, protected) {
      forall id | id in Ids(refs)
        ensures id in l.table.rows
      {
        var i :| 0 <= i < |refs| && refs[i].id == id;
        assert Current(l.table, refs[i]);
      }
    }
  }

  lemma LoadKeeps(l: Life, id: TaskId, running: bool)
    requires LifeInv(l)
    ensures LifeInv(StepLoad(l, id, running))
  {
  }

  lemma AfterKeeps(l: Life, s: Step)
    requires LifeInv(l)
    ensures LifeInv(After(l, s))
  {
    match s
    case Forget(refs, protected) => ForgetKeeps(l, refs, protected);
    case Load(id, running) => LoadKeeps(l, id, running);
    case _ =>
  }

  lemma {:induction false} RunKeeps(l: Life, steps: seq<Step>)
    requires LifeInv(l)
    ensures LifeInv(Run(l, steps)) && l.removed <= Run(l, steps).removed
    decreases |steps|
  {
    if steps != [] {
      AfterKeeps(l, steps[0]);
      RunKeeps(After(l, steps[0]), steps[1..]);
    }
  }

  /** A task that has left the table stays out of it, through whatever is saved late, forgotten, damaged and
      restarted afterwards: a forgotten one because of its tombstone, a quarantined one because nothing is left
      in memory, now or later, that would save it. */
  lemma {:induction false} GoneForGood(before: seq<Step>, after: seq<Step>, id: TaskId)
    requires id in Run(UNUSED, before).removed
    ensures var l := Run(Run(UNUSED, before), after);
            id !in l.table.rows && (id in l.table.tombs || Unsaved(l, id))
  {
    RunKeeps(UNUSED, before);
    RunKeeps(Run(UNUSED, before), after);
  }

  /** Which of the two: a step that removes a task leaves a tombstone exactly if it is a forgetting, of the
      revision the user saw and of nothing live; the other kind is the start-up's quarantine of an unreadable row. */
  lemma {:induction false} HowItLeaves(before: seq<Step>, s: Step, id: TaskId)
    requires id in Run(UNUSED, before).table.rows && id !in After(Run(UNUSED, before), s).table.rows
    ensures var (l, l') := (Run(UNUSED, before), After(Run(UNUSED, before), s));
            && id in l'.removed && (id in l'.table.tombs <==> s.Forget?)
            && (s.Forget? ==> id !in s.protected && Ref(id, l.table.rows[id].revision) in s.refs)
            && (!s.Forget? ==> s.Load? && s.id == id && l.table.rows[id].payload == 0)
  {
    RunKeeps(UNUSED, before);
    var l := Run(UNUSED, before);
    if s.Forget? {
      var i :| 0 <= i < |s.refs| && s.refs[i].id == id;
      assert Current(l.table, s.refs[i]);
      assert s.refs[i] == Ref(id, l.table.rows[id].revision);
    }
  }

  // A task is saved, changed once more, and forgotten while that save is under way.
  const OVERTAKEN := [Create(7), Change(7, 1), Land(Saved(7, 2, 1)), Change(7, 1), Forget([Ref(7, 2)], {})]

  /** The tombstone is needed: a save can be under way when its task is forgotten, and would bring it back. */
  lemma LateSaveMeetsTombstone()
    ensures var l := Run(UNUSED, OVERTAKEN);
            && Saved(7, 3, 1) in l.late && 7 in l.table.tombs
            && 7 in Upserted(l.table.(tombs := {}), Saved(7, 3, 1)).rows && 7 !in Upserted(l.table, Saved(7, 3, 1)).rows
  {
    var s := OVERTAKEN;
    var l1 := After(UNUSED, s[0]);
    var l2 := After(l1, s[1]);
    var l3 := After(l2, s[2]);
    var l4 := After(l3, s[3]);
    var l5 := After(l4, s[4]);
    assert Current(l4.table, Ref(7, 2)) && Ids([Ref(7, 2)]) == {7};
    assert s[1..][1..] == s[2..] && s[2..][1..] == s[3..] && s[3..][1..] == s[4..] && s[4..][1..] == [];
    assert Run(l4, s[4..]) == Run(l5, []);
    assert Run(l3, s[3..]) == Run(l4, s[4..]);
    assert Run(l2, s[2..]) == Run(l3, s[3..]);
    assert Run(l1, s[1..]) == Run(l2, s[2..]);
  }
}
