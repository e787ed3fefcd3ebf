/** The bounded memory of native notifications (apps/desktop/native_background_notifications.go): a revision
    is admitted under the lock, sent without it, and finished under it again, while other calls interleave. */
module NotificationLedger {

  import opened Common

  const CAPACITY := 4096
  const MAX_PENDING := 8

  type TaskId = nat
  type Ref = nat // identity of a record in memory

  // History: the revisions handed over, all sends begun, in order, and those that ended unsent.
  datatype Note = Note(revision: nat, order: nat, pending: set<nat>, submitted: set<nat>, started: seq<nat>,
                       failed: set<nat>)

  // A call between admission and its end.
  datatype Flight = Flight(task: TaskId, ref: Ref, revision: nat)

  datatype Ledger = Ledger(recent: map<TaskId, Ref>, notes: map<Ref, Note>, order: nat, nextRef: nat,
                           flights: set<Flight>)

  const EMPTY := Ledger(map[], map[], 0, 0, {})

  datatype Verdict = Invalid | Duplicate | Full | Admitted

  const BLANK := Note(0, 0, {}, {}, [], {})

  function NoteOf(l: Ledger, t: TaskId): Note {
    if t in l.recent && l.recent[t] in l.notes then l.notes[l.recent[t]] else BLANK
  }

  // Records that no call is using.
  predicate Evictable(l: Ledger, t: TaskId) {
    t in l.recent && NoteOf(l, t).pending == {}
  }

  predicate Oldest(l: Ledger, t: TaskId) {
    Evictable(l, t) && forall u | u in l.recent && Evictable(l, u) :: NoteOf(l, t).order <= NoteOf(l, u).order
  }

  function Judge(l: Ledger, t: TaskId, revision: nat): Verdict {
    if revision == 0 then Invalid
    else if t in l.recent then
      var n := NoteOf(l, t);
      if n.revision >= revision || (exists p :: p in n.pending && p >= revision) then Duplicate
      else if |n.pending| >= MAX_PENDING then Full else Admitted
    else if |l.recent| >= CAPACITY && (forall u | u in l.recent :: !Evictable(l, u)) then Full else Admitted
  }

  predicate Evicts(l: Ledger, t: TaskId) {
    t !in l.recent && |l.recent| >= CAPACITY
  }

  function Without(l: Ledger, t: TaskId): Ledger
    requires t in l.recent
  {
    l.(recent := l.recent - {t}, notes := l.notes - {l.recent[t]})
  }

  function RefFor(l: Ledger, t: TaskId): Ref {
    if t in l.recent then l.recent[t] else l.nextRef
  }

  function Starting(n: Note, revision: nat, order: nat): Note {
    n.(order := order, pending := n.pending + {revision}, started := n.started + [revision])
  }

  function Begun(l: Ledger, t: TaskId, revision: nat): Ledger {
    var ref := RefFor(l, t);
    Ledger(l.recent[t := ref], l.notes[ref := Starting(NoteOf(l, t), revision, l.order + 1)], l.order + 1,
           if t in l.recent then l.nextRef else l.nextRef + 1, l.flights + {Flight(t, ref, revision)})
  }

  // The first half of notify; victim is the record to evict when one has to go.
  function AfterAdmit(l: Ledger, t: TaskId, revision: nat, victim: TaskId): Ledger {
    if Judge(l, t, revision) != Admitted then l
    else if !Evicts(l, t) then Begun(l, t, revision)
    else if Oldest(l, victim) then Begun(Without(l, victim), t, revision)
    else l
  }

  function Ended(n: Note, revision: nat, sent: bool): Note {
    n.(pending := n.pending - {revision}, revision := if sent && revision > n.revision then revision else n.revision,
       submitted := if sent then n.submitted + {revision} else n.submitted,
       failed := if sent then n.failed else n.failed + {revision})
  }

  // The deferred second half, with what became of the send.
  function AfterFinish(l: Ledger, f: Flight, sent: bool): Ledger {
    var landed := l.(flights := l.flights - {f});
    if f !in l.flights || f.ref !in l.notes then landed
    else
      var n := Ended(l.notes[f.ref], f.revision, sent);
      if n.revision == 0 && n.pending == {} then landed.(recent := l.recent - {f.task}, notes := l.notes - {f.ref})
      else landed.(notes := l.notes[f.ref := n])
  }

  datatype Act = Admit(t: TaskId, revision: nat, victim: TaskId) | Finish(f: Flight, sent: bool)

  function Next(l: Ledger, a: Act): Ledger {
    match a
    case Admit(t, revision, victim) => AfterAdmit(l, t, revision, victim)
    case Finish(f, sent) => AfterFinish(l, f, sent)
  }

  function Run(l: Ledger, acts: seq<Act>): Ledger
    decreases |acts|
  {
    if acts == [] then l else Run(Next(l, acts[0]), acts[1..])
  }

  // -------------------------------------------------------------------- invariant

  ghost predicate NoteInv(n: Note) {
    && |n.pending| <= MAX_PENDING && 0 !in n.pending
    && (n.revision == 0 ==> n.pending != {})
    && (n.revision != 0 ==> n.revision in n.submitted)
    && (forall s | s in n.submitted :: s <= n.revision && s !in n.pending)
  }

  ghost predicate NotesInv(l: Ledger) {
    forall r | r in l.notes :: NoteInv(l.notes[r]) && r < l.nextRef
  }

  // Every task has a record of its own, and there is none besides.
  ghost predicate RefsInv(l: Ledger) {
    && |l.recent| <= CAPACITY
    && (forall t | t in l.recent :: l.recent[t] in l.notes)
    && (forall t, u | t in l.recent && u in l.recent && t != u :: l.recent[t] != l.recent[u])
  }

  // A call in progress and its pending revision are the same thing, in the record its own task has.
  ghost predicate FlightsInv(l: Ledger) {
    && (forall f | f in l.flights ::
          f.task in l.recent && l.recent[f.task] == f.ref && f.revision in NoteOf(l, f.task).pending)
    && (forall t, p | t in l.recent && p in NoteOf(l, t).pending :: Flight(t, l.recent[t], p) in l.flights)
  }

  ghost predicate Inv(l: Ledger) {
    NotesInv(l) && RefsInv(l) && FlightsInv(l)
  }

  lemma MinusOne(m: map<TaskId, Ref>, t: TaskId)
    requires t in m
    ensures |m - {t}| == |m| - 1
  {
    AddOne(m.Keys, t);
    assert (m - {t}).Keys == m.Keys - {t};
    assert |(m - {t}).Keys| == |m - {t}| && |m.Keys| == |m|;
  }

  lemma PlusOne(m: map<TaskId, Ref>, t: TaskId, r: Ref)
    ensures |m[t := r]| <= if t in m then |m| else |m| + 1
  {
    AddOne(m.Keys, t);
    assert m[t := r].Keys == m.Keys + {t};
    assert |m[t := r].Keys| == |m[t := r]| && |m.Keys| == |m|;
    if t in m {
      assert m.Keys + {t} == m.Keys;
    }
  }

  lemma WithoutKeeps(l: Ledger, v: TaskId)
    requires Inv(l) && Evictable(l, v)
    ensures Inv(Without(l, v)) && |Without(l, v).recent| == |l.recent| - 1
  {
    MinusOne(l.recent, v);
  }

  lemma StartingKeeps(l: Ledger, t: TaskId, revision: nat)
    requires NotesInv(l) && RefsInv(l) && revision > 0
    requires t in l.recent ==> Judge(l, t, revision) == Admitted
    ensures NoteInv(Starting(NoteOf(l, t), revision, l.order + 1))
  {
    AddOne(NoteOf(l, t).pending, revision);
  }

  lemma BegunKeeps(l: Ledger, t: TaskId, revision: nat)
    requires Inv(l) && revision > 0
    requires if t in l.recent then Judge(l, t, revision) == Admitted else |l.recent| < CAPACITY
    ensures Inv(Begun(l, t, revision))
  {
    PlusOne(l.recent, t, RefFor(l, t));
    StartingKeeps(l, t, revision);
    BegunKeepsRefs(l, t, revision);
    BegunKeepsNotes(l, t, revision);
    BegunKeepsFlights(l, t, revision);
  }

  lemma BegunKeepsRefs(l: Ledger, t: TaskId, revision: nat)
    requires NotesInv(l) && RefsInv(l)
    ensures var l' := Begun(l, t, revision);
            && (forall u | u in l'.recent :: l'.recent[u] in l'.notes)
            && (forall u, v | u in l'.recent && v in l'.recent && u != v :: l'.recent[u] != l'.recent[v])
  {
  }

  lemma BegunKeepsNotes(l: Ledger, t: TaskId, revision: nat)
    requires NotesInv(l) && RefsInv(l)
    ensures var l' := Begun(l, t, revision);
            && NoteOf(l', t) == Starting(NoteOf(l, t), revision, l.order + 1)
            && (forall u | u in l.recent && u != t :: NoteOf(l', u) == NoteOf(l, u))
  {
  }

  lemma BegunKeepsFlights(l: Ledger, t: TaskId, revision: nat)
    requires FlightsInv(l) && (t !in l.recent ==> NoteOf(l, t) == BLANK)
    requires forall u | u in l.recent && u != t :: NoteOf(Begun(l, t, revision), u) == NoteOf(l, u)
    requires NoteOf(Begun(l, t, revision), t) == Starting(NoteOf(l, t), revision, l.order + 1)
    ensures FlightsInv(Begun(l, t, revision))
  {
    var l' := Begun(l, t, revision);
    var (now, was) := (NoteOf(l', t).pending, NoteOf(l, t).pending);
    assert now == was + {revision};
    forall u, p | u in l'.recent && p in NoteOf(l', u).pending
      ensures Flight(u, l'.recent[u], p) in l'.flights
    {
      if u != t || p in was {
        assert u in l.recent && p in NoteOf(l, u).pending;
      }
    }
  }

  lemma AdmitKeeps(l: Ledger, t: TaskId, revision: nat, victim: TaskId)
    requires Inv(l)
    ensures Inv(AfterAdmit(l, t, revision, victim))
  {
    if Judge(l, t, revision) == Admitted {
      if !Evicts(l, t) {
        BegunKeeps(l, t, revision);
      } else if Oldest(l, victim) {
        WithoutKeeps(l, victim);
        BegunKeeps(Without(l, victim), t, revision);
      }
    }
  }

  lemma FinishKeeps(l: Ledger, f: Flight, sent: bool)
    requires Inv(l)
    ensures Inv(AfterFinish(l, f, sent))
  {
    if f in l.flights {
      var n := Ended(l.notes[f.ref], f.revision, sent);
      EndedKeeps(l.notes[f.ref], f.revision, sent);
      if n.revision == 0 && n.pending == {} {
        MinusOne(l.recent, f.task);
      }
    }
  }

  lemma EndedKeeps(n: Note, revision: nat, sent: bool)
    requires NoteInv(n) && revision in n.pending
    ensures var n' := Ended(n, revision, sent);
            (n'.revision == 0 && n'.pending == {}) || NoteInv(n')
  {
    AddOne(n.pending, revision);
  }

  lemma NextKeeps(l: Ledger, a: Act)
    requires Inv(l)
    ensures Inv(Next(l, a))
  {
    match a
    case Admit(t, revision, victim) => AdmitKeeps(l, t, revision, victim);
    case Finish(f, sent) => FinishKeeps(l, f, sent);
  }

  lemma {:induction false} RunKeeps(l: Ledger, acts: seq<Act>)
    requires Inv(l)
    ensures Inv(Run(l, acts))
    decreases |acts|
  {
    if acts != [] {
      NextKeeps(l, acts[0]);
      RunKeeps(Next(l, acts[0]), acts[1..]);
    }
  }

  // --------------------------------------------------------------------- theorems

  /** At every moment of every run: at most 4096 tasks are remembered, at most 8 sends of a task are pending,
      every task has a record of its own, and every call in progress is pending in the record of its task,
      which therefore has not been evicted. */
  lemma {:induction false} LedgerInvariant(acts: seq<Act>)
    ensures Inv(Run(EMPTY, acts))
  {
    RunKeeps(EMPTY, acts);
  }

  /** While a task is remembered, nothing that was submitted or is pending for it is sent again, nor anything
      older than what is. */
  lemma {:induction false} NeverSentAgain(acts: seq<Act>, t: TaskId, revision: nat)
    ensures var l := Run(EMPTY, acts);
            var n := NoteOf(l, t);
            t in l.recent && Judge(l, t, revision) == Admitted ==>
              && (forall s | s in n.submitted :: s < revision) && (forall p | p in n.pending :: p < revision)
              && (forall s | s in n.started && s >= revision :: s !in n.submitted && s !in n.pending)
  {
    RunKeeps(EMPTY, acts);
  }

  lemma BegunSpares(l: Ledger, t: TaskId, revision: nat, u: TaskId)
    requires NotesInv(l) && RefsInv(l) && u in l.recent
    ensures var l' := Begun(l, t, revision);
            u in l'.recent && l'.recent[u] == l.recent[u] && NoteOf(l, u).pending <= NoteOf(l', u).pending
  {
    BegunKeepsNotes(l, t, revision);
  }

  /** Admitting a revision evicts at most one record, the longest untouched of those no call is using. */
  lemma {:induction false} PendingIsNeverEvicted(acts: seq<Act>, t: TaskId, revision: nat, victim: TaskId, u: TaskId)
    ensures var l := Run(EMPTY, acts);
            var l' := AfterAdmit(l, t, revision, victim);
            u in l.recent ==>
              if u in l'.recent then l'.recent[u] == l.recent[u] && NoteOf(l, u).pending <= NoteOf(l', u).pending
              else u == victim && Oldest(l, u) && Judge(l, t, revision) == Admitted && Evicts(l, t)
  {
    RunKeeps(EMPTY, acts);
    if u in Run(EMPTY, acts).recent {
      AdmitSpares(Run(EMPTY, acts), t, revision, victim, u);
    }
  }

  lemma AdmitSpares(l: Ledger, t: TaskId, revision: nat, victim: TaskId, u: TaskId)
    requires Inv(l) && u in l.recent
    ensures var l' := AfterAdmit(l, t, revision, victim);
            if u in l'.recent then l'.recent[u] == l.recent[u] && NoteOf(l, u).pending <= NoteOf(l', u).pending
            else u == victim && Oldest(l, u) && Judge(l, t, revision) == Admitted && Evicts(l, t)
  {
    BegunSpares(l, t, revision, u);
    if Evicts(l, t) && Oldest(l, victim) {
      WithoutKeeps(l, victim);
      if u != victim {
        BegunSpares(Without(l, victim), t, revision, u);
      }
    }
  }

  lemma FinishOwn(l: Ledger, f: Flight, sent: bool, u: TaskId)
    requires Inv(l) && f in l.flights && u in l.recent
    ensures f.task in l.recent && l.recent[f.task] == f.ref
    ensures u != f.task ==> u in AfterFinish(l, f, sent).recent && AfterFinish(l, f, sent).recent[u] == l.recent[u]
                            && NoteOf(AfterFinish(l, f, sent), u) == NoteOf(l, u)
    ensures f.task !in AfterFinish(l, f, sent).recent <==>
              NoteOf(l, f.task).revision == 0 && NoteOf(l, f.task).pending == {f.revision} && !sent
  {
    var n := NoteOf(l, f.task);
    assert n.pending - {f.revision} == {} <==> n.pending == {f.revision};
  }

  /** A call that ends changes no record but its own, and deletes it only if nothing of it was ever submitted
      and nothing is pending. */
  lemma {:induction false} FinishTouchesOwn(acts: seq<Act>, f: Flight, sent: bool, u: TaskId)
    ensures var l := Run(EMPTY, acts);
            var l' := AfterFinish(l, f, sent);
            f in l.flights && u in l.recent ==>
              && f.task in l.recent && l.recent[f.task] == f.ref
              && (u != f.task ==> u in l'.recent && l'.recent[u] == l.recent[u] && NoteOf(l', u) == NoteOf(l, u))
              && (f.task !in l'.recent <==>
                    NoteOf(l, f.task).revision == 0 && NoteOf(l, f.task).pending == {f.revision} && !sent)
  {
    RunKeeps(EMPTY, acts);
    if f in Run(EMPTY, acts).flights && u in Run(EMPTY, acts).recent {
      FinishOwn(Run(EMPTY, acts), f, sent, u);
    }
  }

  predicate Increasing(s: seq<nat>) {
    forall i, j | 0 <= i < j < |s| :: s[i] < s[j]
  }

  // Every started revision is pending, was submitted or ended unsent.
  ghost predicate HistoryInv(n: Note) {
    && (forall s | s in n.started :: s in n.pending || s in n.submitted || s in n.failed)
    && (forall s | s in n.pending || s in n.failed :: s in n.started)
  }

  ghost predicate HistoriesInv(l: Ledger) {
    forall r | r in l.notes :: HistoryInv(l.notes[r])
  }

  lemma StartingKeepsHistory(n: Note, revision: nat, order: nat)
    requires HistoryInv(n)
    ensures HistoryInv(Starting(n, revision, order))
  {
    var n' := Starting(n, revision, order);
    assert forall s :: s in n'.started <==> s in n.started || s == revision;
  }

  lemma EndedKeepsHistory(n: Note, revision: nat, sent: bool)
    requires HistoryInv(n) && revision in n.pending
    ensures HistoryInv(Ended(n, revision, sent))
  {
  }

  lemma NextKeepsHistory(l: Ledger, a: Act)
    requires FlightsInv(l) && HistoriesInv(l)
    ensures HistoriesInv(Next(l, a))
  {
    match a
    case Admit(t, revision, victim) =>
      StartingKeepsHistory(NoteOf(l, t), revision, l.order + 1);
    case Finish(f, sent) =>
      if f in l.flights && f.ref in l.notes {
        EndedKeepsHistory(l.notes[f.ref], f.revision, sent);
      }
  }

  lemma {:induction false} RunKeepsHistory(l: Ledger, acts: seq<Act>)
    requires Inv(l) && HistoriesInv(l)
    ensures HistoriesInv(Run(l, acts))
    decreases |acts|
  {
    if acts != [] {
      NextKeeps(l, acts[0]);
      NextKeepsHistory(l, acts[0]);
      RunKeepsHistory(Next(l, acts[0]), acts[1..]);
    }
  }

  // A started revision at or above this one ended unsent, which the ledger forgets.
  predicate BehindFailure(n: Note, revision: nat) {
    exists s :: s in n.failed && s >= revision
  }

  // The admission goes through for a remembered task.
  predicate Resumes(l: Ledger, t: TaskId, revision: nat) {
    t in l.recent && Judge(l, t, revision) == Admitted
  }

  lemma StartsInOrderIff(n: Note, revision: nat, order: nat)
    requires NoteInv(n) && HistoryInv(n) && n.revision < revision && (forall p | p in n.pending :: p < revision)
    requires Increasing(n.started)
    ensures Increasing(Starting(n, revision, order).started) <==> !BehindFailure(n, revision)
  {
    var started := Starting(n, revision, order).started;
    if BehindFailure(n, revision) {
      var s :| s in n.failed && s >= revision;
      var i :| 0 <= i < |n.started| && n.started[i] == s;
      assert started[i] >= started[|n.started|];
    } else {
      forall i | 0 <= i < |n.started|
        ensures n.started[i] < revision
      {
        assert n.started[i] in n.started;
      }
    }
  }

  /** An admitted revision of a remembered task comes after a started one that is at least as new exactly if such
      a one ended unsent: nothing submitted or pending stands in its way. */
  lemma {:induction false} OlderStartsOnlyBehindFailures(acts: seq<Act>, t: TaskId, revision: nat)
    requires Resumes(Run(EMPTY, acts), t, revision)
    ensures var n := NoteOf(Run(EMPTY, acts), t);
            (exists s :: s in n.started && s >= revision) <==> BehindFailure(n, revision)
  {
    RunKeeps(EMPTY, acts);
    RunKeepsHistory(EMPTY, acts);
    var n := NoteOf(Run(EMPTY, acts), t);
    assert NoteInv(n) && HistoryInv(n);
  }

  ghost predicate AllIncreasing(l: Ledger) {
    forall t | t in l.recent :: Increasing(NoteOf(l, t).started)
  }

  predicate StartsBehindFailure(l: Ledger, a: Act) {
    a.Admit? && Resumes(l, a.t, a.revision) && BehindFailure(NoteOf(l, a.t), a.revision)
  }

  lemma OtherNotesIncrease(l: Ledger, l': Ledger, t: TaskId)
    requires AllIncreasing(l)
    requires forall u | u in l'.recent && u != t :: u in l.recent && NoteOf(l', u) == NoteOf(l, u)
    ensures AllIncreasing(l') <==> (t in l'.recent ==> Increasing(NoteOf(l', t).started))
  {
  }

  lemma BegunInOrder(l: Ledger, t: TaskId, revision: nat)
    requires Inv(l) && HistoriesInv(l) && AllIncreasing(l) && Judge(l, t, revision) == Admitted
    ensures AllIncreasing(Begun(l, t, revision)) <==> !(t in l.recent && BehindFailure(NoteOf(l, t), revision))
  {
    BegunKeepsNotes(l, t, revision);
    OtherNotesIncrease(l, Begun(l, t, revision), t);
    if t in l.recent {
      StartsInOrderIff(NoteOf(l, t), revision, l.order + 1);
    }
  }

  lemma FinishInOrder(l: Ledger, f: Flight, sent: bool)
    requires Inv(l) && AllIncreasing(l)
    ensures AllIncreasing(AfterFinish(l, f, sent))
  {
    if f in l.flights {
      forall u | u in AfterFinish(l, f, sent).recent && u != f.task
        ensures NoteOf(AfterFinish(l, f, sent), u) == NoteOf(l, u)
      {
        FinishOwn(l, f, sent, u);
      }
      OtherNotesIncrease(l, AfterFinish(l, f, sent), f.task);
    }
  }

  lemma StepInOrder(l: Ledger, a: Act)
    requires Inv(l) && HistoriesInv(l) && AllIncreasing(l)
    ensures AllIncreasing(Next(l, a)) <==> !StartsBehindFailure(l, a)
  {
    match a
    case Admit(t, revision, victim) =>
      if Judge(l, t, revision) == Admitted {
        if !Evicts(l, t) {
          BegunInOrder(l, t, revision);
        } else if Oldest(l, victim) {
          WithoutKeeps(l, victim);
          assert AllIncreasing(Without(l, victim));
          BegunInOrder(Without(l, victim), t, revision);
        }
      }
    case Finish(f, sent) => FinishInOrder(l, f, sent);
  }

  ghost predicate IncreasingThroughout(l: Ledger, acts: seq<Act>)
    decreases |acts|
  {
    AllIncreasing(l) && (acts == [] || IncreasingThroughout(Next(l, acts[0]), acts[1..]))
  }

  ghost predicate NeverBehindFailure(l: Ledger, acts: seq<Act>)
    decreases |acts|
  {
    acts == [] || (!StartsBehindFailure(l, acts[0]) && NeverBehindFailure(Next(l, acts[0]), acts[1..]))
  }

  lemma {:induction false} InOrderFrom(l: Ledger, acts: seq<Act>)
    requires Inv(l) && HistoriesInv(l) && AllIncreasing(l)
    ensures IncreasingThroughout(l, acts) <==> NeverBehindFailure(l, acts)
    decreases |acts|
  {
    if acts != [] {
      NextKeeps(l, acts[0]);
      NextKeepsHistory(l, acts[0]);
      StepInOrder(l, acts[0]);
      if AllIncreasing(Next(l, acts[0])) {
        InOrderFrom(Next(l, acts[0]), acts[1..]);
      }
    }
  }

  /** The revisions started for every remembered task strictly increase throughout a run exactly if no revision is
      admitted in it for a task of which one at least as new was started and ended unsent. */
  lemma {:induction false} StartsIncreaseIff(acts: seq<Act>)
    ensures IncreasingThroughout(EMPTY, acts) <==> NeverBehindFailure(EMPTY, acts)
  {
    InOrderFrom(EMPTY, acts);
  }

  ghost predicate NothingFailed(l: Ledger) {
    forall t | t in l.recent :: NoteOf(l, t).failed == {}
  }

  lemma NothingFails(l: Ledger, a: Act)
    requires Inv(l) && NothingFailed(l) && (a.Finish? ==> a.sent)
    ensures NothingFailed(Next(l, a)) && !StartsBehindFailure(l, a)
  {
    match a
    case Admit(t, revision, victim) =>
      BegunFailsNothing(l, t, revision);
      if Evicts(l, t) && Oldest(l, victim) {
        WithoutKeeps(l, victim);
        BegunFailsNothing(Without(l, victim), t, revision);
      }
    case Finish(f, sent) => SentFailsNothing(l, f);
  }

  lemma BegunFailsNothing(l: Ledger, t: TaskId, revision: nat)
    requires NotesInv(l) && RefsInv(l) && NothingFailed(l)
    ensures NothingFailed(Begun(l, t, revision))
  {
    BegunKeepsNotes(l, t, revision);
  }

  lemma SentFailsNothing(l: Ledger, f: Flight)
    requires Inv(l) && NothingFailed(l)
    ensures NothingFailed(AfterFinish(l, f, true))
  {
    if f in l.flights {
      forall u | u in AfterFinish(l, f, true).recent && u != f.task
        ensures NoteOf(AfterFinish(l, f, true), u) == NoteOf(l, u)
      {
        FinishOwn(l, f, true, u);
      }
    }
  }

  /** In particular they do while no send fails. */
  lemma {:induction false} StartsIncreaseUnlessSendsFail(l: Ledger, acts: seq<Act>)
    requires Inv(l) && HistoriesInv(l) && NothingFailed(l) && AllIncreasing(l)
    requires forall a | a in acts && a.Finish? :: a.sent
    ensures IncreasingThroughout(l, acts)
    decreases |acts|
  {
    if acts != [] {
      NextKeeps(l, acts[0]);
      NextKeepsHistory(l, acts[0]);
      NothingFails(l, acts[0]);
      StepInOrder(l, acts[0]);
      StartsIncreaseUnlessSendsFail(Next(l, acts[0]), acts[1..]);
    }
  }

  const OUT_OF_ORDER := [
    Admit(0, 1, 0), Finish(Flight(0, 0, 1), true), Admit(0, 5, 0), Finish(Flight(0, 0, 5), false), Admit(0, 3, 0)]

  // A ledger that remembers one task.
  function One(n: Note, flights: set<Flight>): Ledger {
    Ledger(map[0 := 0], map[0 := n], n.order, 1, flights)
  }

  const FIRST_SENT := One(Note(1, 1, {}, {1}, [1], {}), {})
  const SECOND_LOST := One(Note(1, 2, {}, {1}, [1, 5], {5}), {})
  const THIRD_STARTED := One(Note(1, 3, {3}, {1}, [1, 5, 3], {5}), {Flight(0, 0, 3)})

  lemma OutOfOrderFirst()
    ensures Next(Next(EMPTY, OUT_OF_ORDER[0]), OUT_OF_ORDER[1]) == FIRST_SENT
  {
    assert Judge(EMPTY, 0, 1) == Admitted && !Evicts(EMPTY, 0);
    var n := Starting(BLANK, 1, 1);
    assert Next(EMPTY, OUT_OF_ORDER[0]) == One(n, {Flight(0, 0, 1)});
    assert Ended(n, 1, true) == Note(1, 1, {}, {1}, [1], {});
  }

  lemma OutOfOrderSecond()
    ensures Next(Next(FIRST_SENT, OUT_OF_ORDER[2]), OUT_OF_ORDER[3]) == SECOND_LOST
  {
    assert Judge(FIRST_SENT, 0, 5) == Admitted && !Evicts(FIRST_SENT, 0);
    var n := Note(1, 2, {5}, {1}, [1, 5], {});
    assert Starting(NoteOf(FIRST_SENT, 0), 5, 2) == n;
    assert Next(FIRST_SENT, OUT_OF_ORDER[2]) == One(n, {Flight(0, 0, 5)});
    assert Ended(n, 5, false) == Note(1, 2, {}, {1}, [1, 5], {5});
  }

  lemma OutOfOrderThird()
    ensures Next(SECOND_LOST, OUT_OF_ORDER[4]) == THIRD_STARTED && StartsBehindFailure(SECOND_LOST, OUT_OF_ORDER[4])
  {
    assert Judge(SECOND_LOST, 0, 3) == Admitted && !Evicts(SECOND_LOST, 0);
    assert 5 in NoteOf(SECOND_LOST, 0).failed;
    assert Starting(NoteOf(SECOND_LOST, 0), 3, 3) == Note(1, 3, {3}, {1}, [1, 5, 3], {5});
  }

  lemma RunFive(l: Ledger, a: seq<Act>)
    requires |a| == 5
    ensures Run(l, a) == Next(Next(Next(Next(Next(l, a[0]), a[1]), a[2]), a[3]), a[4])
  {
    var l1 := Next(l, a[0]);
    var l2 := Next(l1, a[1]);
    var l3 := Next(l2, a[2]);
    var l4 := Next(l3, a[3]);
    assert a[1..][1..] == a[2..] && a[2..][1..] == a[3..] && a[3..][1..] == a[4..] && a[4..][1..] == [];
    assert Run(l4, a[4..]) == Run(Next(l4, a[4]), []);
    assert Run(l3, a[3..]) == Run(l4, a[4..]);
    assert Run(l2, a[2..]) == Run(l3, a[3..]);
    assert Run(l1, a[1..]) == Run(l2, a[2..]);
  }

  /** The losing run: revision 1 is sent, revision 5 fails, and revision 3 is sent after it. */
  lemma StartedOutOfOrder()
    ensures NoteOf(Run(EMPTY, OUT_OF_ORDER), 0).started == [1, 5, 3]
  {
    OutOfOrderFirst();
    OutOfOrderSecond();
    OutOfOrderThird();
    RunFive(EMPTY, OUT_OF_ORDER);
  }

  // ------------------------------------------------------------------- in place

  /** The notifier's maps, updated in place. */
  class Notifier {
    var recent: map<TaskId, Ref>
    var notes: map<Ref, Note>
    var order: nat
    var nextRef: nat
    ghost var flights: set<Flight>

    constructor ()
      ensures Value() == EMPTY
    {
      recent, notes, order, nextRef, flights := map[], map[], 0, 0, {};
    }

    ghost function Value(): Ledger
      reads this
    {
      Ledger(recent, notes, order, nextRef, flights)
    }

    // The record to evict: of those no call is using, the one touched longest ago.
    method FindOldest() returns (victim: Option<TaskId>)
      requires forall t | t in recent :: recent[t] in notes
      ensures victim.Some? ==> Oldest(Value(), victim.value)
      ensures victim.None? ==> forall t | t in recent :: !Evictable(Value(), t)
    {
      victim := None;
      var left := recent.Keys;
      while left != {}
        invariant left <= recent.Keys
        invariant victim.None? ==> forall t | t in recent && t !in left :: !Evictable(Value(), t)
        invariant victim.Some? ==> Evictable(Value(), victim.value)
        invariant victim.Some? ==> forall t | t in recent && t !in left && Evictable(Value(), t) ::
                                     NoteOf(Value(), victim.value).order <= NoteOf(Value(), t).order
        decreases left
      {
        var t :| t in left;
        left := left - {t};
        if notes[recent[t]].pending == {}
           && (victim.None? || notes[recent[t]].order < notes[recent[victim.value]].order) {
          victim := Some(t);
        }
      }
    }

    method Admit(t: TaskId, revision: nat) returns (v: Verdict, ghost victim: TaskId)
      requires revision > 0 && forall u | u in recent :: recent[u] in notes
      modifies this
      ensures v == Judge(old(Value()), t, revision)
      ensures Value() == AfterAdmit(old(Value()), t, revision, victim)
      ensures v == Admitted && Evicts(old(Value()), t) ==> Oldest(old(Value()), victim)
    {
      victim := t;
      if t in recent {
        var n := notes[recent[t]];
        if n.revision >= revision {
          return Duplicate, victim;
        }
        var left := n.pending;
        while left != {}
          invariant left <= n.pending && forall p | p in n.pending && p !in left :: p < revision
          decreases left
        {
          var p :| p in left;
          if p >= revision {
            return Duplicate, victim;
          }
          left := left - {p};
        }
        if |n.pending| >= MAX_PENDING {
          return Full, victim;
        }
      } else if |recent| >= CAPACITY {
        var found := FindOldest();
        if found.None? {
          return Full, victim;
        }
        victim := found.value;
        recent, notes := recent - {found.value}, notes - {recent[found.value]};
      }
      order := order + 1;
      var n := BLANK;
      var ref := nextRef;
      if t in recent {
        ref := recent[t];
        n := notes[ref];
      } else {
        nextRef := nextRef + 1;
      }
      recent := recent[t := ref];
      notes := notes[ref := Starting(n, revision, order)];
      flights := flights + {Flight(t, ref, revision)};
      return Admitted, victim;
    }

    method Finish(f: Flight, sent: bool)
      requires f in flights && f.ref in notes
      modifies this
      ensures Value() == AfterFinish(old(Value()), f, sent)
      ensures forall r | r != f.ref :: r in notes <==> r in old(notes)
      ensures forall r | r in notes && r != f.ref :: notes[r] == old(notes)[r]
      ensures f.ref !in notes <==> old(notes)[f.ref].revision == 0 && !(sent && f.revision > 0)
                                   && old(notes)[f.ref].pending <= {f.revision}
      ensures sent && f.ref in notes ==> f.revision <= notes[f.ref].revision
      ensures sent && f.task in recent && recent[f.task] == f.ref && f.ref in notes ==>
                forall q | 0 < q <= f.revision :: Judge(Value(), f.task, q) == Duplicate
    {
      flights := flights - {f};
      var n := notes[f.ref];
      n := n.(pending := n.pending - {f.revision},
              submitted := if sent then n.submitted + {f.revision} else n.submitted,
              failed := if sent then n.failed else n.failed + {f.revision});
      if sent && f.revision > n.revision {
        n := n.(revision := f.revision);
      }
      if n.revision == 0 && n.pending == {} {
        recent, notes := recent - {f.task}, notes - {f.ref};
      } else {
        notes := notes[f.ref := n];
      }
    }
  }
}
