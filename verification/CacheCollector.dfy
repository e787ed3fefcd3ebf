/** The background pass over the clipboard cache ledger (internal/app/clipboard_cache_lifecycle.go): it
    reads one page of rows behind a cursor, examines them in key order, tries to delete at most eight
    objects, and backs off from each object that fails. */
module CacheCollector {

  import opened Common

  const PAGE_ROWS := 64
  const PAGE_BYTES := 0x40_0000
  const ROW_BYTES := 0x100_0000 // twice transfer.MaxMetadata; a longer value is read as empty
  const ATTEMPTS := 8
  const RETRIES := 256
  const INTERVAL := 300
  const PRESSURE_INTERVAL := 30
  const HOUR := 3600

  // deletable: the row decodes, is sealed, names no native receipt, and is reclaimable or deleting.
  datatype Row = Row(key: nat, length: nat, deletable: bool)

  datatype Retry = Retry(attempts: nat, next: int)

  // cursor is -1 before the first key.
  datatype Cleaner = Cleaner(cursor: int, last: Option<int>, pressure: Option<int>, retries: map<nat, Retry>)

  // What one pass meets: the ledger, the objects in use, the deletions that would succeed, the time, and
  // how many rows it examines before its two seconds are over.
  datatype Pass = Pass(rows: seq<Row>, active: set<nat>, cleans: set<nat>, now: int, urgent: bool, patience: nat)

  datatype Outcome = Outcome(cleaner: Cleaner, tried: set<nat>, examined: nat)

  function Shown(r: Row): nat {
    if r.length <= ROW_BYTES then r.length else 0
  }

  predicate Candidate(r: Row) {
    r.deletable && r.length <= ROW_BYTES
  }

  predicate Sorted(rows: seq<Row>) {
    forall i, j | 0 <= i < j < |rows| :: rows[i].key < rows[j].key
  }

  function Behind(rows: seq<Row>, cursor: int): seq<Row> {
    if rows == [] || rows[0].key > cursor then rows else Behind(rows[1..], cursor)
  }

  // How many rows the page takes, n of them with these bytes being taken already.
  function Taken(rows: seq<Row>, n: nat, bytes: nat): (k: nat)
    ensures k <= |rows| && (n <= PAGE_ROWS ==> n + k <= PAGE_ROWS)
  {
    if rows == [] || n >= PAGE_ROWS || bytes + Shown(rows[0]) > PAGE_BYTES then 0
    else 1 + Taken(rows[1..], n + 1, bytes + Shown(rows[0]))
  }

  // The page was cut short by its byte budget.
  predicate Cut(rows: seq<Row>) {
    Taken(rows, 0, 0) < |rows| && Taken(rows, 0, 0) < PAGE_ROWS
  }

  function Due(c: Cleaner, p: Pass): bool {
    if p.urgent then c.pressure.None? || p.now - c.pressure.value >= PRESSURE_INTERVAL
    else c.last.None? || p.now - c.last.value >= INTERVAL
  }

  function Min(a: int, b: int): int {
    if a <= b then a else b
  }

  function Doubled(n: nat): (d: nat)
    ensures d >= 1
  {
    if n == 0 then 1 else 2 * Doubled(n - 1)
  }

  function Backoff(attempts: nat): int
    requires attempts >= 1
  {
    Min(HOUR, INTERVAL * Doubled(attempts - 1))
  }

  function Attempts(retries: map<nat, Retry>, key: nat): nat {
    if key in retries then retries[key].attempts else 0
  }

  // The ordinary pass leaves alone what is backing off or has failed eight times.
  predicate Ripe(retries: map<nat, Retry>, key: nat, now: int) {
    key in retries ==> retries[key].attempts < ATTEMPTS && now >= retries[key].next
  }

  predicate Attemptable(retries: map<nat, Retry>, r: Row, p: Pass) {
    Candidate(r) && r.key !in p.active && (p.urgent || Ripe(retries, r.key, p.now))
  }

  function Attempted(retries: map<nat, Retry>, key: nat, p: Pass): map<nat, Retry> {
    if key in p.cleans then retries - {key}
    else if |retries| < RETRIES || Attempts(retries, key) != 0 then
      var attempts := Min(ATTEMPTS, Attempts(retries, key) + 1);
      retries[key := Retry(attempts, p.now + Backoff(attempts))]
    else retries
  }

  function Visited(retries: map<nat, Retry>, r: Row, p: Pass): map<nat, Retry> {
    if Attemptable(retries, r, p) then Attempted(retries, r.key, p) else retries
  }

  // Deletions tried once this row has been examined.
  function Counted(retries: map<nat, Retry>, r: Row, n: nat, p: Pass): nat {
    if Attemptable(retries, r, p) then n + 1 else n
  }

  function Tried(retries: map<nat, Retry>, r: Row, p: Pass): set<nat> {
    if Attemptable(retries, r, p) then {r.key} else {}
  }

  datatype Walk = Walk(cursor: int, retries: map<nat, Retry>, tried: set<nat>, examined: nat, ended: bool)

  // Where the loop over the page is: n deletions tried, and rows left before the deadline.
  datatype Scan = Scan(cursor: int, retries: map<nat, Retry>, n: nat, patience: nat)

  predicate Goes(s: Scan) {
    s.patience > 0 && s.n < ATTEMPTS
  }

  function Visit(s: Scan, r: Row, p: Pass): Scan
    requires Goes(s)
  {
    Scan(r.key, Visited(s.retries, r, p), Counted(s.retries, r, s.n, p), s.patience - 1)
  }

  // The loop over the page. It ends early at the budget or the deadline.
  function Examine(page: seq<Row>, s: Scan, p: Pass): Walk
    decreases |page|
  {
    if page == [] || !Goes(s) then Walk(s.cursor, s.retries, {}, 0, page == [])
    else
      var rest := Examine(page[1..], Visit(s, page[0], p), p);
      rest.(tried := rest.tried + Tried(s.retries, page[0], p), examined := rest.examined + 1)
  }

  function Starting(c: Cleaner, p: Pass): Scan {
    Scan(c.cursor, c.retries, 0, p.patience)
  }

  function Collected(c: Cleaner, p: Pass): Outcome {
    if !Due(c, p) then Outcome(c, {}, 0)
    else
      var behind := Behind(p.rows, c.cursor);
      var page := behind[..Taken(behind, 0, 0)];
      var walk := Examine(page, Starting(c, p), p);
      var wraps := walk.ended && !Cut(behind) && |page| < PAGE_ROWS;
      Outcome(Cleaner(if wraps then -1 else walk.cursor, if p.urgent then c.last else Some(p.now),
                      if p.urgent then Some(p.now) else c.pressure, walk.retries),
              walk.tried, walk.examined)
  }

  // What is left of a walk, once this much of it has been tried.
  ghost predicate Resumes(whole: Walk, rest: Walk, tried: set<nat>) {
    && whole.cursor == rest.cursor && whole.retries == rest.retries && whole.ended == rest.ended
    && whole.tried == tried + rest.tried
  }

  lemma ExamineStep(page: seq<Row>, i: nat, s: Scan, p: Pass, whole: Walk, tried: set<nat>)
    requires i < |page| && Goes(s) && Resumes(whole, Examine(page[i..], s, p), tried)
    ensures Resumes(whole, Examine(page[i + 1..], Visit(s, page[i], p), p), tried + Tried(s.retries, page[i], p))
  {
    assert page[i..][1..] == page[i + 1..];
  }

  /** The collector's own fields, updated as the pass goes. */
  class Collector {
    var cursor: int
    var last: Option<int>
    var pressure: Option<int>
    var retries: map<nat, Retry>

    constructor ()
      ensures Value() == Cleaner(-1, None, None, map[])
    {
      cursor, last, pressure, retries := -1, None, None, map[];
    }

    function Value(): Cleaner
      reads this
    {
      Cleaner(cursor, last, pressure, retries)
    }

    method Page(rows: seq<Row>) returns (page: seq<Row>, reachedEnd: bool)
      ensures page == rows[..Taken(rows, 0, 0)] && reachedEnd == !Cut(rows)
    {
      page, reachedEnd := [], true;
      var bytes: nat := 0;
      for i := 0 to |rows|
        invariant i <= PAGE_ROWS && page == rows[..i] && reachedEnd
        invariant Taken(rows, 0, 0) == i + Taken(rows[i..], i, bytes)
      {
        if i == PAGE_ROWS {
          return;
        }
        assert rows[i..][1..] == rows[i + 1..];
        if bytes + Shown(rows[i]) > PAGE_BYTES {
          return page, false;
        }
        bytes := bytes + Shown(rows[i]);
        page := page + [rows[i]];
      }
    }

    method ExaminePage(page: seq<Row>, p: Pass) returns (ended: bool, ghost tried: set<nat>)
      modifies `cursor, `retries
      ensures var w := Examine(page, Scan(old(cursor), old(retries), 0, p.patience), p);
              cursor == w.cursor && retries == w.retries && ended == w.ended && tried == w.tried
    {
      tried := {};
      var attempted: nat := 0;
      ghost var whole := Examine(page, Scan(cursor, retries, 0, p.patience), p);
      var i := 0;
      while i < |page|
        invariant i <= |page| && i <= p.patience
        invariant Resumes(whole, Examine(page[i..], Scan(cursor, retries, attempted, p.patience - i), p), tried)
      {
        if i == p.patience || attempted >= ATTEMPTS {
          return false, tried;
        }
        ExamineStep(page, i, Scan(cursor, retries, attempted, p.patience - i), p, whole, tried);
        ghost var now;
        attempted, now := ExamineRow(page[i], p, attempted);
        tried := tried + now;
        i := i + 1;
      }
      return true, tried;
    }

    method ExamineRow(r: Row, p: Pass, attempted: nat) returns (n: nat, ghost tried: set<nat>)
      modifies `cursor, `retries
      ensures cursor == r.key && retries == Visited(old(retries), r, p)
      ensures n == Counted(old(retries), r, attempted, p) && tried == Tried(old(retries), r, p)
    {
      n, tried, cursor := attempted, {}, r.key;
      if Attemptable(retries, r, p) {
        n, tried, retries := n + 1, {r.key}, Attempted(retries, r.key, p);
      }
    }

    method Collect(p: Pass) returns (ghost tried: set<nat>)
      modifies this
      ensures Value() == Collected(old(Value()), p).cleaner && tried == Collected(old(Value()), p).tried
    {
      tried := {};
      if p.urgent {
        if pressure.Some? && p.now - pressure.value < PRESSURE_INTERVAL {
          return;
        }
        pressure := Some(p.now);
      } else {
        if last.Some? && p.now - last.value < INTERVAL {
          return;
        }
        last := Some(p.now);
      }
      var page, reachedEnd := Page(Behind(p.rows, cursor));
      var ended;
      ended, tried := ExaminePage(page, p);
      if ended && reachedEnd && |page| < PAGE_ROWS {
        cursor := -1;
      }
    }
  }

  // --------------------------------------------------------------------- bounds

  predicate Bounded(retries: map<nat, Retry>) {
    |retries| <= RETRIES && forall key | key in retries :: 1 <= retries[key].attempts <= ATTEMPTS
  }

  lemma AttemptedBounded(retries: map<nat, Retry>, key: nat, p: Pass)
    requires Bounded(retries)
    ensures Bounded(Attempted(retries, key, p))
  {
    var retries' := Attempted(retries, key, p);
    if key in p.cleans {
      assert retries'.Keys == retries.Keys - {key};
      assert |retries'.Keys| == |retries'|;
      assert |retries.Keys| == |retries|;
      AddOne(retries'.Keys, key);
    } else {
      AddOne(retries.Keys, key);
      assert retries' == retries || retries'.Keys == retries.Keys + {key};
      assert |retries'.Keys| == |retries'|;
      assert |retries.Keys| == |retries|;
    }
  }

  lemma {:induction false} TriesBounded(page: seq<Row>, s: Scan, p: Pass)
    requires s.n <= ATTEMPTS
    ensures s.n + |Examine(page, s, p).tried| <= ATTEMPTS && Examine(page, s, p).examined <= |page|
    decreases |page|
  {
    if page != [] && Goes(s) {
      TriesBounded(page[1..], Visit(s, page[0], p), p);
      AddOne(Examine(page[1..], Visit(s, page[0], p), p).tried, page[0].key);
    }
  }

  lemma {:induction false} RetriesBounded(page: seq<Row>, s: Scan, p: Pass)
    requires Bounded(s.retries)
    ensures Bounded(Examine(page, s, p).retries)
    decreases |page|
  {
    if page != [] && Goes(s) {
      VisitedBounded(s.retries, page[0], p);
      RetriesBounded(page[1..], Visit(s, page[0], p), p);
    }
  }

  lemma VisitedBounded(retries: map<nat, Retry>, r: Row, p: Pass)
    requires Bounded(retries)
    ensures Bounded(Visited(retries, r, p))
  {
    AttemptedBounded(retries, r.key, p);
  }

  function Bytes(rows: seq<Row>): nat {
    if rows == [] then 0 else Shown(rows[0]) + Bytes(rows[1..])
  }

  lemma {:induction false} TakenFits(rows: seq<Row>, n: nat, bytes: nat)
    requires bytes <= PAGE_BYTES
    ensures bytes + Bytes(rows[..Taken(rows, n, bytes)]) <= PAGE_BYTES
  {
    if rows != [] && n < PAGE_ROWS && bytes + Shown(rows[0]) <= PAGE_BYTES {
      TakenFits(rows[1..], n + 1, bytes + Shown(rows[0]));
      var k := Taken(rows, n, bytes);
      assert rows[..k][1..] == rows[1..][..k - 1];
    } else {
      assert rows[..0] == [];
    }
  }

  /** One pass reads at most 64 rows and 4 MiB, tries at most 8 deletions, and remembers at most 256
      failures with at most 8 attempts each. */
  lemma {:induction false} PassIsBounded(c: Cleaner, p: Pass)
    requires Bounded(c.retries)
    ensures var out := Collected(c, p);
            var behind := Behind(p.rows, c.cursor);
            && Bounded(out.cleaner.retries) && |out.tried| <= ATTEMPTS && out.examined <= PAGE_ROWS
            && Taken(behind, 0, 0) <= PAGE_ROWS && Bytes(behind[..Taken(behind, 0, 0)]) <= PAGE_BYTES
  {
    var behind := Behind(p.rows, c.cursor);
    TakenFits(behind, 0, 0);
    var page := behind[..Taken(behind, 0, 0)];
    TriesBounded(page, Starting(c, p), p);
    RetriesBounded(page, Starting(c, p), p);
  }

  // -------------------------------------------------------------------- fairness

  function Keys(rows: seq<Row>): set<nat> {
    set r | r in rows :: r.key
  }

  predicate HasTarget(rows: seq<Row>, k: nat) {
    exists r :: r in rows && r.key == k && Candidate(r)
  }

  lemma {:induction false} BehindIs(rows: seq<Row>, cursor: int)
    requires Sorted(rows)
    ensures var behind := Behind(rows, cursor);
            Sorted(behind) && forall r :: r in behind <==> r in rows && r.key > cursor
  {
    if rows != [] && rows[0].key <= cursor {
      BehindIs(rows[1..], cursor);
    }
  }

  // What the walk leaves of the entry of a key it does not try.
  lemma {:induction false} ExamineSpares(page: seq<Row>, s: Scan, p: Pass, k: nat)
    ensures var w := Examine(page, s, p);
            k !in w.tried ==>
              (k in w.retries <==> k in s.retries) && (k in s.retries ==> w.retries[k] == s.retries[k])
    decreases |page|
  {
    if page != [] && Goes(s) {
      ExamineSpares(page[1..], Visit(s, page[0], p), p, k);
    }
  }

  lemma {:induction false} ExamineMoves(page: seq<Row>, s: Scan, p: Pass)
    requires page != [] && Goes(s)
    ensures var w := Examine(page, s, p);
            w.examined >= 1 && exists r :: r in page && r.key == w.cursor
    decreases |page|
  {
    var next := Visit(s, page[0], p);
    var rest := Examine(page[1..], next, p);
    if page[1..] != [] && Goes(next) {
      ExamineMoves(page[1..], next, p);
      var q :| q in page[1..] && q.key == rest.cursor;
      assert q in page;
    } else {
      assert rest.cursor == page[0].key;
    }
  }

  // A target in the page is tried, or the walk ends early and before it.
  ghost predicate Reaches(w: Walk, k: nat) {
    k in w.tried || (w.cursor < k && !w.ended)
  }

  lemma {:induction false} ExamineReaches(page: seq<Row>, s: Scan, p: Pass, k: nat)
    requires Sorted(page) && HasTarget(page, k) && k !in p.active && Ripe(s.retries, k, p.now)
    requires forall r | r in page :: r.key > s.cursor
    ensures Reaches(Examine(page, s, p), k)
    decreases |page|
  {
    var t :| t in page && t.key == k && Candidate(t);
    if Goes(s) {
      if page[0].key != k {
        TailHolds(page, t, k);
        VisitedSpares(s.retries, page[0], p, k);
        ExamineReaches(page[1..], Visit(s, page[0], p), p, k);
      } else {
        SameKeySameRow(page, t);
        assert k in Tried(s.retries, page[0], p);
      }
    } else {
      assert s.cursor < k && Examine(page, s, p) == Walk(s.cursor, s.retries, {}, 0, false);
    }
  }

  lemma VisitedSpares(retries: map<nat, Retry>, r: Row, p: Pass, k: nat)
    requires r.key != k && Ripe(retries, k, p.now)
    ensures Ripe(Visited(retries, r, p), k, p.now)
  {
  }

  lemma SameKeySameRow(page: seq<Row>, t: Row)
    requires Sorted(page) && t in page && t.key == page[0].key
    ensures t == page[0]
  {
    var i :| 0 <= i < |page| && page[i] == t;
  }

  lemma TailHolds(page: seq<Row>, t: Row, k: nat)
    requires Sorted(page) && t in page && t.key == k && Candidate(t) && page[0].key != k
    ensures Sorted(page[1..]) && HasTarget(page[1..], k) && forall q | q in page[1..] :: q.key > page[0].key
  {
    assert t in page[1..];
  }

  function Between(keys: set<nat>, after: int, last: nat): set<nat> {
    set x | x in keys && after < x <= last
  }

  function Beyond(keys: set<nat>, after: int): set<nat> {
    set x | x in keys && after < x
  }

  // Rows a scan still has to pass before it has examined k, going round once if it must.
  function Distance(rows: seq<Row>, cursor: int, k: nat): nat {
    if cursor < k then |Between(Keys(rows), cursor, k)|
    else |Beyond(Keys(rows), cursor)| + 1 + |Between(Keys(rows), -1, k)|
  }

  lemma DistanceShrinks(rows: seq<Row>, rows': seq<Row>, cursor: int, k: nat)
    requires forall r | r in rows' :: r in rows
    ensures Distance(rows', cursor, k) <= Distance(rows, cursor, k) <= 2 * |Keys(rows)| + 1
  {
    var (keys, keys') := (Keys(rows), Keys(rows'));
    assert keys' <= keys;
    SubsetSize(Between(keys', cursor, k), Between(keys, cursor, k));
    SubsetSize(Beyond(keys', cursor), Beyond(keys, cursor));
    SubsetSize(Between(keys', -1, k), Between(keys, -1, k));
    SubsetSize(Between(keys, cursor, k), keys);
    SubsetSize(Beyond(keys, cursor), keys);
    SubsetSize(Between(keys, -1, k), keys);
  }

  lemma CloserBefore(rows: seq<Row>, cursor: int, next: int, k: nat)
    requires cursor < next < k && next in Keys(rows)
    ensures Distance(rows, next, k) < Distance(rows, cursor, k)
  {
    var far, near := Between(Keys(rows), cursor, k), Between(Keys(rows), next, k);
    assert next in far && next !in near;
    SubsetSize(near, far);
  }

  lemma CloserAfter(rows: seq<Row>, cursor: int, next: int, k: nat)
    requires k <= cursor && ((cursor < next && next in Keys(rows)) || next == -1)
    ensures Distance(rows, next, k) < Distance(rows, cursor, k)
  {
    if next != -1 {
      var far, near := Beyond(Keys(rows), cursor), Beyond(Keys(rows), next);
      assert next in far && next !in near;
      SubsetSize(near, far);
    }
  }

  // No row that a scan meets on its way from the cursor to k, going round if it must, is larger than a page.
  ghost predicate Clear(rows: seq<Row>, cursor: int, k: nat) {
    if cursor < k then forall r | r in rows && cursor < r.key <= k :: Shown(r) <= PAGE_BYTES
    else forall r | r in rows && (cursor < r.key || r.key <= k) :: Shown(r) <= PAGE_BYTES
  }

  // One pass over a ledger that holds the target.
  ghost predicate Meets(c: Cleaner, p: Pass, k: nat) {
    && Due(c, p) && p.patience > 0 && Sorted(p.rows) && HasTarget(p.rows, k) && k !in p.active
  }

  lemma {:induction false} TakenSome(rows: seq<Row>, n: nat, bytes: nat, i: nat)
    requires i < Taken(rows, n, bytes)
    ensures Shown(rows[i]) <= PAGE_BYTES
  {
    if i > 0 {
      TakenSome(rows[1..], n + 1, bytes + Shown(rows[0]), i - 1);
    }
  }

  // The page behind a cursor: rows of the ledger, in order, none of them larger than a page.
  lemma {:induction false} PageIs(rows: seq<Row>, cursor: int)
    requires Sorted(rows)
    ensures var behind := Behind(rows, cursor);
            var page := behind[..Taken(behind, 0, 0)];
            Sorted(page) && forall r | r in page :: r in rows && r.key > cursor && Shown(r) <= PAGE_BYTES
  {
    var behind := Behind(rows, cursor);
    BehindIs(rows, cursor);
    forall i | 0 <= i < Taken(behind, 0, 0)
      ensures behind[i] in behind && Shown(behind[i]) <= PAGE_BYTES
    {
      TakenSome(behind, 0, 0, i);
    }
  }

  // A row that is not in the page ends it: the page is full or was cut, and lies before that row.
  lemma {:induction false} PageEndsBefore(rows: seq<Row>, cursor: int, t: Row)
    requires Sorted(rows) && t in rows && cursor < t.key
    ensures var behind := Behind(rows, cursor);
            var page := behind[..Taken(behind, 0, 0)];
            t in page || ((forall r | r in page :: r.key < t.key) && (Cut(behind) || |page| == PAGE_ROWS))
  {
    var behind := Behind(rows, cursor);
    BehindIs(rows, cursor);
    var i :| 0 <= i < |behind| && behind[i] == t;
    if i < Taken(behind, 0, 0) {
      assert behind[..Taken(behind, 0, 0)][i] == t;
    }
  }

  // The page behind a cursor short of the target holds the target, or ends before it and is not the last.
  lemma {:induction false} PageBeforeTarget(rows: seq<Row>, cursor: int, k: nat)
    requires Sorted(rows) && HasTarget(rows, k) && cursor < k && Clear(rows, cursor, k)
    ensures var behind := Behind(rows, cursor);
            var page := behind[..Taken(behind, 0, 0)];
            && page != []
            && (HasTarget(page, k)
                || ((forall r | r in page :: r.key < k) && (Cut(behind) || |page| == PAGE_ROWS)))
  {
    var behind := Behind(rows, cursor);
    var t :| t in rows && t.key == k && Candidate(t);
    PageEndsBefore(rows, cursor, t);
    BehindIs(rows, cursor);
    var i :| 0 <= i < |behind| && behind[i] == t;
    assert behind[0] in rows && cursor < behind[0].key <= k;
    assert Taken(behind, 0, 0) > 0;
  }

  lemma PassBeforeTarget(c: Cleaner, p: Pass, k: nat)
    requires Meets(c, p, k) && Clear(p.rows, c.cursor, k) && Ripe(c.retries, k, p.now) && c.cursor < k
    ensures var out := Collected(c, p);
            k in out.tried || (c.cursor < out.cleaner.cursor < k && out.cleaner.cursor in Keys(p.rows))
  {
    var behind := Behind(p.rows, c.cursor);
    var page := behind[..Taken(behind, 0, 0)];
    PageIs(p.rows, c.cursor);
    PageBeforeTarget(p.rows, c.cursor, k);
    ExamineMoves(page, Starting(c, p), p);
    if HasTarget(page, k) {
      ExamineReaches(page, Starting(c, p), p, k);
    }
  }

  lemma PassAfterTarget(c: Cleaner, p: Pass, k: nat)
    requires Meets(c, p, k) && Clear(p.rows, c.cursor, k) && k <= c.cursor
    ensures var next := Collected(c, p).cleaner.cursor;
            next == -1 || (c.cursor < next && next in Keys(p.rows))
  {
    var behind := Behind(p.rows, c.cursor);
    BehindIs(p.rows, c.cursor);
    if behind != [] {
      assert behind[0] in behind && Shown(behind[0]) <= PAGE_BYTES;
      var page := behind[..Taken(behind, 0, 0)];
      ExamineMoves(page, Starting(c, p), p);
      var r :| r in page && r.key == Examine(page, Starting(c, p), p).cursor;
      assert r in behind;
    }
  }

  /** While the way to it is clear, a pass tries the target or comes strictly closer to it round the ledger,
      leaves its retry alone, and the way stays clear. */
  lemma PassApproaches(c: Cleaner, p: Pass, k: nat)
    requires Meets(c, p, k) && Clear(p.rows, c.cursor, k) && Ripe(c.retries, k, p.now)
    ensures var out := Collected(c, p);
            && (k in out.tried || (Distance(p.rows, out.cleaner.cursor, k) < Distance(p.rows, c.cursor, k)
                                   && Clear(p.rows, out.cleaner.cursor, k)))
            && (k !in out.tried && k in out.cleaner.retries ==>
                  k in c.retries && out.cleaner.retries[k] == c.retries[k])
  {
    var out := Collected(c, p);
    var behind := Behind(p.rows, c.cursor);
    ExamineSpares(behind[..Taken(behind, 0, 0)], Starting(c, p), p, k);
    if c.cursor < k {
      PassBeforeTarget(c, p, k);
      if k !in out.tried {
        CloserBefore(p.rows, c.cursor, out.cleaner.cursor, k);
      }
    } else {
      PassAfterTarget(c, p, k);
      CloserAfter(p.rows, c.cursor, out.cleaner.cursor, k);
    }
  }

  // Successive passes as time goes on: rows may go, none is added, and the target stays and is not in use.
  ghost predicate Regular(c: Cleaner, passes: seq<Pass>, rows: seq<Row>, since: int, k: nat)
    decreases |passes|
  {
    passes == [] ||
    var p := passes[0];
    && Meets(c, p, k) && since <= p.now && (forall r | r in p.rows :: r in rows)
    && Regular(Collected(c, p).cleaner, passes[1..], p.rows, p.now, k)
  }

  ghost predicate Tries(c: Cleaner, passes: seq<Pass>, k: nat)
    decreases |passes|
  {
    passes != [] &&
    (k in Collected(c, passes[0]).tried || Tries(Collected(c, passes[0]).cleaner, passes[1..], k))
  }

  lemma {:induction false} TriedWithinDistance(c: Cleaner, passes: seq<Pass>, rows: seq<Row>, since: int, k: nat)
    requires Regular(c, passes, rows, since, k) && Clear(rows, c.cursor, k) && Ripe(c.retries, k, since)
    requires |passes| >= Distance(rows, c.cursor, k) > 0
    ensures Tries(c, passes, k)
    decreases |passes|
  {
    var p := passes[0];
    var out := Collected(c, p);
    PassApproaches(c, p, k);
    if k !in out.tried {
      DistanceShrinks(rows, p.rows, c.cursor, k);
      assert k in Keys(p.rows);
      DistancePositive(p.rows, out.cleaner.cursor, k);
      TriedWithinDistance(out.cleaner, passes[1..], p.rows, p.now, k);
    }
  }

  lemma DistancePositive(rows: seq<Row>, cursor: int, k: nat)
    requires k in Keys(rows)
    ensures Distance(rows, cursor, k) > 0
  {
    if cursor < k {
      assert k in Between(Keys(rows), cursor, k);
    }
  }

  /** Within as many passes as the distance to it, at most twice the rows plus one, every object that may be
      deleted, is not in use and is not backing off is tried, however many rows before it are protected or
      fail, provided no row on the way to it is larger than a page. */
  lemma {:induction false} EveryCandidateIsTried(c: Cleaner, passes: seq<Pass>, rows: seq<Row>, since: int, k: nat)
    requires Regular(c, passes, rows, since, k) && Ripe(c.retries, k, since) && HasTarget(rows, k)
    requires Clear(rows, c.cursor, k) && |passes| >= 2 * |Keys(rows)| + 1
    ensures Tries(c, passes, k)
  {
    DistanceShrinks(rows, rows, c.cursor, k);
    assert k in Keys(rows);
    DistancePositive(rows, c.cursor, k);
    TriedWithinDistance(c, passes, rows, since, k);
  }

  // The next row is larger than a whole page.
  predicate Blocked(rows: seq<Row>, cursor: int) {
    var behind := Behind(rows, cursor);
    behind != [] && Shown(behind[0]) > PAGE_BYTES
  }

  /** A pass examines a row, or goes round to the start, exactly when the next row is not larger than a whole
      page; otherwise it changes nothing but its own time stamp, and so does every pass after it. */
  lemma {:induction false} PassMovesUnlessBlocked(c: Cleaner, p: Pass)
    requires Due(c, p) && p.patience > 0
    ensures var out := Collected(c, p);
            && (out.examined > 0 || (Behind(p.rows, c.cursor) == [] && out.cleaner.cursor == -1)
                <==> !Blocked(p.rows, c.cursor))
            && (Blocked(p.rows, c.cursor) ==>
                  out.tried == {} && out.cleaner.cursor == c.cursor && out.cleaner.retries == c.retries)
  {
    var behind := Behind(p.rows, c.cursor);
    if behind != [] && Shown(behind[0]) <= PAGE_BYTES {
      ExamineMoves(behind[..Taken(behind, 0, 0)], Starting(c, p), p);
    }
  }

  // A walk tries only rows of its page, and ends on one of them or where it began.
  lemma {:induction false} ExamineWithin(page: seq<Row>, s: Scan, p: Pass)
    ensures var w := Examine(page, s, p);
            w.tried <= Keys(page) && (w.cursor == s.cursor || w.cursor in Keys(page))
    decreases |page|
  {
    if page != [] && Goes(s) {
      KeysOf(page);
      ExamineWithin(page[1..], Visit(s, page[0], p), p);
    }
  }

  lemma KeysOf(page: seq<Row>)
    requires page != []
    ensures Keys(page) == {page[0].key} + Keys(page[1..])
  {
    assert page == [page[0]] + page[1..];
  }

  // No pass gets past a row that is larger than a page.
  lemma PassStopsShort(c: Cleaner, p: Pass, b: Row)
    requires Sorted(p.rows) && b in p.rows && Shown(b) > PAGE_BYTES && c.cursor < b.key
    ensures var out := Collected(c, p);
            c.cursor <= out.cleaner.cursor < b.key && forall x | x in out.tried :: c.cursor < x < b.key
  {
    var behind := Behind(p.rows, c.cursor);
    var page := behind[..Taken(behind, 0, 0)];
    PageIs(p.rows, c.cursor);
    PageEndsBefore(p.rows, c.cursor, b);
    ExamineWithin(page, Starting(c, p), p);
  }

  // Without such a row ahead the scan may go round, and is then in front of it.
  lemma PassGoesOn(c: Cleaner, p: Pass)
    requires Sorted(p.rows)
    ensures var out := Collected(c, p);
            (out.cleaner.cursor == -1 || c.cursor <= out.cleaner.cursor) && forall x | x in out.tried :: c.cursor < x
  {
    var behind := Behind(p.rows, c.cursor);
    var page := behind[..Taken(behind, 0, 0)];
    PageIs(p.rows, c.cursor);
    ExamineWithin(page, Starting(c, p), p);
  }

  lemma PassStaysBarred(c: Cleaner, p: Pass, k: nat)
    requires Sorted(p.rows) && !Clear(p.rows, c.cursor, k)
    ensures k !in Collected(c, p).tried && !Clear(p.rows, Collected(c, p).cleaner.cursor, k)
  {
    PassGoesOn(c, p);
    if c.cursor < k {
      var b :| b in p.rows && c.cursor < b.key <= k && Shown(b) > PAGE_BYTES;
      PassStopsShort(c, p, b);
    } else {
      var b :| b in p.rows && (c.cursor < b.key || b.key <= k) && Shown(b) > PAGE_BYTES;
      if c.cursor < b.key {
        PassStopsShort(c, p, b);
      }
    }
  }

  ghost predicate SameLedger(passes: seq<Pass>, rows: seq<Row>) {
    forall p | p in passes :: p.rows == rows
  }

  lemma {:induction false} BarredForEver(c: Cleaner, passes: seq<Pass>, rows: seq<Row>, k: nat)
    requires Sorted(rows) && SameLedger(passes, rows) && !Clear(rows, c.cursor, k)
    ensures !Tries(c, passes, k)
    decreases |passes|
  {
    if passes != [] {
      PassStaysBarred(c, passes[0], k);
      BarredForEver(Collected(c, passes[0]).cleaner, passes[1..], rows, k);
    }
  }

  /** Over an unchanging ledger every long enough run tries a candidate exactly if no row from its cursor round
      to the candidate is larger than a page. Rows up to 16 MiB are read and a page holds 4 MiB, so one row in
      between keeps it from ever being tried. */
  lemma {:induction false} TriedIffClear(c: Cleaner, passes: seq<Pass>, rows: seq<Row>, since: int, k: nat)
    requires Sorted(rows) && HasTarget(rows, k) && SameLedger(passes, rows)
    requires Regular(c, passes, rows, since, k) && Ripe(c.retries, k, since) && |passes| >= 2 * |Keys(rows)| + 1
    ensures Tries(c, passes, k) <==> Clear(rows, c.cursor, k)
  {
    if Clear(rows, c.cursor, k) {
      EveryCandidateIsTried(c, passes, rows, since, k);
    } else {
      BarredForEver(c, passes, rows, k);
    }
  }

  lemma ExamineOne(r: Row, p: Pass)
    requires p.patience > 0 && Candidate(r) && !p.urgent
    ensures var w := Examine([r], Scan(-1, map[], 0, p.patience), p);
            w.cursor == r.key && w.ended && w.tried == if r.key in p.active then {} else {r.key}
  {
    assert [r][1..] == [];
    assert Ripe(map[], r.key, p.now);
  }

  const START := Cleaner(-1, None, None, map[])

  /** The losing run: in the first pass after the start the candidate is in use, and a row larger than a page
      follows it. The pass moves the cursor between the two, and no later pass ever tries the candidate. */
  lemma StalledFromTheStart(candidate: Row, big: Row, now: int, passes: seq<Pass>)
    requires Candidate(candidate) && Shown(candidate) <= PAGE_BYTES && candidate.key < big.key
    requires Shown(big) > PAGE_BYTES && SameLedger(passes, [candidate, big])
    ensures Tries(START, [Pass([candidate, big], {}, {}, now, false, PAGE_ROWS)], candidate.key)
    ensures var first := Pass([candidate, big], {candidate.key}, {}, now, false, PAGE_ROWS);
            !Tries(START, [first] + passes, candidate.key)
  {
    var rows := [candidate, big];
    var first := Pass(rows, {candidate.key}, {}, now, false, PAGE_ROWS);
    var free := Pass(rows, {}, {}, now, false, PAGE_ROWS);
    assert Behind(rows, -1) == rows && rows[1..] == [big];
    assert Taken(rows, 0, 0) == 1 + Taken([big], 1, Shown(candidate)) == 1;
    assert rows[..1] == [candidate];
    ExamineOne(candidate, free);
    ExamineOne(candidate, first);
    assert [free][1..] == [] && ([first] + passes)[1..] == passes;
    var c1 := Collected(START, first).cleaner;
    assert c1.cursor == candidate.key && Collected(START, first).tried == {};
    assert big in rows;
    BarredForEver(c1, passes, rows, candidate.key);
  }
}
