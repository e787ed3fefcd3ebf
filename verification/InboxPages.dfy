/** Keyset pagination of the inbox and of a task's files (internal/app/inbox_history.go). A table is its rows
    in index order, which is the order the queries ask for. */
module InboxPages {

  import opened Common

  const MAX_PAGE := 100
  const DEFAULT_PAGE := 50

  // Entries are listed newest first, then by ID downwards; files by number upwards.
  datatype Key = Entry(started: int, id: nat) | File(number: nat)

  predicate Before(a: Key, b: Key) {
    match a
    case Entry(started, id) => b.Entry? && (started > b.started || (started == b.started && id > b.id))
    case File(number) => b.File? && number < b.number
  }

  datatype Row = Row(key: Key, matches: bool, readable: bool)

  predicate Indexed(rows: seq<Row>) {
    forall i, j | 0 <= i < j < |rows| :: Before(rows[i].key, rows[j].key)
  }

  // A cursor is bound to the filter it was made for.
  datatype Cursor = Cursor(filter: nat, last: Key)

  datatype Request = Request(filter: nat, cursor: Option<Cursor>, limit: int)

  datatype Reply = Invalid | Unreadable | Page(items: seq<Row>, next: Option<Cursor>)

  predicate Valid(q: Request) {
    0 <= q.limit <= MAX_PAGE && (q.cursor.Some? ==> q.cursor.value.filter == q.filter)
  }

  function Limit(q: Request): nat
    requires Valid(q)
  {
    if q.limit == 0 then DEFAULT_PAGE else q.limit
  }

  predicate Selected(r: Row, after: Option<Key>) {
    r.matches && (after.Some? ==> Before(after.value, r.key))
  }

  // The query without its LIMIT.
  function Listing(rows: seq<Row>, after: Option<Key>): seq<Row> {
    if rows == [] then []
    else Listing(rows[..|rows| - 1], after) + (if Selected(rows[|rows| - 1], after) then [rows[|rows| - 1]] else [])
  }

  function After(q: Request): Option<Key> {
    if q.cursor.Some? then Some(q.cursor.value.last) else None
  }

  predicate AllReadable(rows: seq<Row>) {
    forall i | 0 <= i < |rows| :: rows[i].readable
  }

  function Answer(rows: seq<Row>, q: Request): Reply {
    if !Valid(q) then Invalid
    else
      var all := Listing(rows, After(q));
      var items := if |all| <= Limit(q) then all else all[..Limit(q)];
      if !AllReadable(items) then Unreadable
      else Page(items, if |all| <= Limit(q) then None else Some(Cursor(q.filter, items[Limit(q) - 1].key)))
  }

  /** One page as the reading loop builds it, from the rows the query returns. */
  method ReadPage(rows: seq<Row>, q: Request) returns (reply: Reply)
    ensures reply == Answer(rows, q)
    ensures reply.Page? ==> Valid(q) && |reply.items| <= Limit(q) && (reply.next.Some? ==> |reply.items| == Limit(q))
  {
    if q.limit < 0 || q.limit > MAX_PAGE || (q.cursor.Some? && q.cursor.value.filter != q.filter) {
      return Invalid;
    }
    var limit := if q.limit == 0 then DEFAULT_PAGE else q.limit;
    var all := Listing(rows, After(q));
    var items: seq<Row> := [];
    for i := 0 to |all|
      invariant i <= limit && items == all[..i]
      invariant forall k | 0 <= k < i :: all[k].readable
    {
      if |items| == limit {
        return Page(items, Some(Cursor(q.filter, items[limit - 1].key)));
      }
      if !all[i].readable {
        ghost var items' := if |all| <= Limit(q) then all else all[..Limit(q)];
        assert items'[i] == all[i];
        return Unreadable;
      }
      items := items + [all[i]];
    }
    return Page(items, None);
  }

  // ------------------------------------------------------------- what is listed

  lemma {:induction false} ListingIs(rows: seq<Row>, after: Option<Key>)
    requires Indexed(rows)
    ensures Indexed(Listing(rows, after))
    ensures forall r :: r in Listing(rows, after) <==> r in rows && Selected(r, after)
    decreases |rows|
  {
    if rows != [] {
      var init, last := rows[..|rows| - 1], rows[|rows| - 1];
      ListingIs(init, after);
      assert rows == init + [last];
      var before := Listing(init, after);
      forall i | 0 <= i < |before|
        ensures Before(before[i].key, last.key)
      {
        assert before[i] in init;
      }
    }
  }

  lemma {:induction false} ListingJoins(a: seq<Row>, b: seq<Row>, after: Option<Key>)
    ensures Listing(a + b, after) == Listing(a, after) + Listing(b, after)
    decreases |b|
  {
    if b == [] {
      assert a + b == a;
    } else {
      var init, last := b[..|b| - 1], b[|b| - 1];
      ListingJoins(a, init, after);
      assert (a + b)[..|a + b| - 1] == a + init;
    }
  }

  lemma {:induction false} NothingBehindLast(rows: seq<Row>, last: Key)
    requires forall r | r in rows :: Before(r.key, last)
    ensures Listing(rows, Some(last)) == []
    decreases |rows|
  {
    if rows != [] {
      NothingBehindLast(rows[..|rows| - 1], last);
      assert Before(rows[|rows| - 1].key, last);
    }
  }

  // Behind the k-th row of a listing comes the rest of it.
  lemma {:induction false} RestOfListing(rows: seq<Row>, after: Option<Key>, k: nat)
    requires Indexed(rows) && 1 <= k <= |Listing(rows, after)|
    ensures Listing(rows, Some(Listing(rows, after)[k - 1].key)) == Listing(rows, after)[k..]
    decreases |rows|
  {
    var all := Listing(rows, after);
    var init, last := rows[..|rows| - 1], rows[|rows| - 1];
    var before := Listing(init, after);
    assert rows == init + [last];
    ListingIs(init, after);
    if k <= |before| {
      RestOfListing(init, after, k);
      assert before[k - 1] in init;
      assert Before(before[k - 1].key, last.key);
    } else {
      NothingBehindLast(init, last.key);
    }
  }

  // ------------------------------------------------------------ following cursors

  datatype Walk = Walk(items: seq<Row>, done: bool)

  // Reading page after page, each from the table as it is then, with any limit each time.
  function Follow(tables: seq<seq<Row>>, limits: seq<int>, filter: nat, cursor: Option<Cursor>): Walk
    requires |tables| == |limits|
    decreases |tables|
  {
    if tables == [] then Walk([], false)
    else
      match Answer(tables[0], Request(filter, cursor, limits[0]))
      case Page(items, next) =>
        if next.None? then Walk(items, true)
        else
          var rest := Follow(tables[1..], limits[1..], filter, next);
          Walk(items + rest.items, rest.done)
      case _ => Walk([], false)
  }

  // Between two pages the table changes only ahead of the cursor.
  ghost predicate ChangesAhead(tables: seq<seq<Row>>, limits: seq<int>, filter: nat, cursor: Option<Cursor>)
    requires |tables| == |limits|
    decreases |tables|
  {
    tables == [] ||
    (var reply := Answer(tables[0], Request(filter, cursor, limits[0]));
     reply.Page? && reply.next.Some? && |tables| > 1 ==>
       && Listing(tables[1], Some(reply.next.value.last)) == Listing(tables[0], Some(reply.next.value.last))
       && ChangesAhead(tables[1..], limits[1..], filter, reply.next))
  }

  ghost predicate Clean(rows: seq<Row>) {
    Indexed(rows) && forall r | r in rows :: r.readable
  }

  ghost predicate Sound(tables: seq<seq<Row>>, limits: seq<int>) {
    && |tables| == |limits|
    && (forall i | 0 <= i < |tables| :: Clean(tables[i]))
    && (forall i | 0 <= i < |limits| :: 0 <= limits[i] <= MAX_PAGE)
  }

  // A clean table has nothing in its listings that cannot be read.
  lemma ListingIsReadable(rows: seq<Row>, after: Option<Key>)
    requires Clean(rows)
    ensures forall r | r in Listing(rows, after) :: r.readable
  {
    ListingIs(rows, after);
  }

  // A page that does not hold the whole listing ends at its cursor.
  lemma CutIs(rows: seq<Row>, q: Request)
    requires Clean(rows) && Valid(q) && |Listing(rows, After(q))| > Limit(q)
    ensures var all := Listing(rows, After(q));
            all == all[..Limit(q)] + Listing(rows, Some(all[Limit(q) - 1].key))
  {
    var all := Listing(rows, After(q));
    RestOfListing(rows, After(q), Limit(q));
    assert all == all[..Limit(q)] + all[Limit(q)..];
  }

  lemma AnswerIs(rows: seq<Row>, filter: nat, cursor: Option<Cursor>, limit: int)
    requires Clean(rows) && Valid(Request(filter, cursor, limit))
    ensures var q := Request(filter, cursor, limit);
            var reply := Answer(rows, q);
            var all := Listing(rows, After(q));
            && reply.Page? && (reply.next.None? ==> reply.items == all)
            && (reply.next.Some? ==> reply.items != [] && reply.next.value.filter == filter
                                     && all == reply.items + Listing(rows, Some(reply.next.value.last)))
  {
    var q := Request(filter, cursor, limit);
    ListingIsReadable(rows, After(q));
    if |Listing(rows, After(q))| > Limit(q) {
      CutIs(rows, q);
    }
  }

  /** Following cursors reads exactly the listing the first page started: its rows in order, none left out and
      none twice, for every limit, even while rows come and go ahead of the cursor; and it ends. */
  lemma {:induction false} PagesAreExact(tables: seq<seq<Row>>, limits: seq<int>, filter: nat, cursor: Option<Cursor>)
    requires Sound(tables, limits) && tables != [] && (cursor.Some? ==> cursor.value.filter == filter)
    requires ChangesAhead(tables, limits, filter, cursor)
    ensures var all := Listing(tables[0], After(Request(filter, cursor, 0)));
            var walk := Follow(tables, limits, filter, cursor);
            && walk.items <= all && (walk.done ==> walk.items == all)
            && (|tables| >= |all| ==> walk.done)
    decreases |tables|
  {
    var reply := Answer(tables[0], Request(filter, cursor, limits[0]));
    AnswerIs(tables[0], filter, cursor, limits[0]);
    if reply.next.Some? && |tables| > 1 {
      PagesAreExact(tables[1..], limits[1..], filter, reply.next);
    }
  }

  /** A row added anywhere in the table shows up behind a cursor exactly when it matches and its place is behind
      the cursor; anything else leaves the remainder as it was. */
  lemma InsertionAhead(rows: seq<Row>, i: nat, r: Row, cursor: Key)
    requires i <= |rows|
    ensures Listing(rows[..i] + [r] + rows[i..], Some(cursor)) == Listing(rows, Some(cursor))
            <==> !(r.matches && Before(cursor, r.key))
  {
    var after := Some(cursor);
    var (ahead, behind) := (rows[..i], rows[i..]);
    ListingJoins(ahead, [r], after);
    ListingJoins(ahead + [r], behind, after);
    ListingJoins(ahead, behind, after);
    assert ahead + behind == rows;
    SingleListing(r, after);
    Compare(Listing(ahead, after), Listing([r], after), Listing(behind, after));
  }

  lemma Compare(a: seq<Row>, m: seq<Row>, b: seq<Row>)
    ensures a + m + b == a + b <==> m == []
  {
    if m == [] {
      assert a + m + b == a + b;
    } else {
      assert |a + m + b| == |a + b| + |m|;
    }
  }

  lemma SingleListing(r: Row, after: Option<Key>)
    ensures Listing([r], after) == if Selected(r, after) then [r] else []
  {
    assert [r][..0] == [];
  }
}
