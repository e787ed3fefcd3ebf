/** The pool of direct sessions (internal/app/direct_pool.go): one slot per peer and authorization
    generation, a key lock that a dial holds until it publishes, and the arbitration of two sessions that
    both ends of a LAN dialled at once. */
module DirectPool {

  import opened Common

  datatype Session = Session(id: nat, local: bool, sync: bool)

  datatype Entry = Entry(session: Session, bootstrap: bool, inUse: bool, receiving: bool,
                         sendReady: bool, receiveReady: bool, timer: bool)

  // holder is history: the session a file operation has reserved and not given back.
  datatype Slot = Slot(entry: Option<Entry>, dialing: bool, dead: set<Session>, holder: Option<Session>)

  const VACANT := Slot(None, false, {}, None)

  // ------------------------------------------------------------ what can happen

  datatype Event =
    | Acquire(file: bool)
    | DialDone(session: Session, file: bool)
    | DialFailed
    | Adopt(session: Session)
    | Release(session: Session)
    | Remove(session: Session)
    | Lease(session: Session, send: bool, ready: bool)
    | Receiving(session: Session, on: bool)
    | IdleFired(session: Session)
    | Died(session: Session)

  // A step's new slot and the sessions it closes.
  datatype Effect = Effect(slot: Slot, closes: set<Session>)

  predicate Idle(e: Entry) {
    !e.inUse && !e.receiving && !e.sendReady && !e.receiveReady
  }

  function Scheduled(e: Entry): Entry {
    if Idle(e) then e.(timer := true) else e
  }

  predicate Holds(s: Slot, session: Session) {
    s.entry.Some? && s.entry.value.session == session
  }

  predicate Alive(s: Slot) {
    s.entry.Some? && s.entry.value.session !in s.dead
  }

  // preferInboundClipboardBootstrap
  predicate PrefersInbound(previous: Entry, incoming: Session) {
    && previous.bootstrap && !previous.receiving && previous.session.local && incoming.local
    && previous.session.sync && incoming.sync && incoming.id < previous.session.id
  }

  // acquirePeerSession up to the dial; a dialling or busy slot makes the caller wait or fail.
  function AfterAcquire(s: Slot, file: bool): Slot {
    if s.dialing || (s.entry.Some? && s.entry.value.inUse) then s
    else if Alive(s) then
      var e := s.entry.value;
      s.(entry := Some(e.(inUse := true, bootstrap := e.bootstrap && !file, timer := false)),
         holder := if file then Some(e.session) else s.holder)
    else s.(dialing := true)
  }

  // acquirePeerSession from the end of the dial.
  function AfterDial(s: Slot, session: Session, file: bool): Effect {
    if !s.dialing then Effect(s, {})
    else
      var replaced := if s.entry.Some? && s.entry.value.session != session then {s.entry.value.session} else {};
      Effect(Slot(Some(Entry(session, !file, true, false, false, false, false)), false, s.dead + replaced,
                  if file then Some(session) else s.holder), replaced)
  }

  // adoptInboundPeerSession; it waits for a dial in progress.
  function AfterAdopt(s: Slot, session: Session): Effect {
    if s.dialing then Effect(s, {})
    else if s.entry.Some? && s.entry.value.session != session && Alive(s) && !PrefersInbound(s.entry.value, session)
    then Effect(s.(dead := s.dead + {session}), {session})
    else
      var replaced := if s.entry.Some? && s.entry.value.session != session then {s.entry.value.session} else {};
      Effect(s.(entry := Some(Scheduled(Entry(session, false, false, false, false, false, false))),
                dead := s.dead + replaced), replaced)
  }

  function AfterRelease(s: Slot, session: Session): Effect {
    var holder := if s.holder == Some(session) then None else s.holder;
    if s.dialing then Effect(s, {})
    else if Holds(s, session)
    then Effect(s.(entry := Some(Scheduled(s.entry.value.(inUse := false))), holder := holder), {})
    else Effect(s.(dead := s.dead + {session}, holder := holder), {session})
  }

  function AfterRemove(s: Slot, session: Session): Effect {
    Effect(Slot(if Holds(s, session) then None else s.entry, s.dialing, s.dead + {session},
                if s.holder == Some(session) then None else s.holder), {session})
  }

  function AfterLease(s: Slot, session: Session, send: bool, ready: bool): Slot {
    if !Holds(s, session) then s
    else
      var e := s.entry.value;
      var leased := if send then e.(sendReady := ready) else e.(receiveReady := ready);
      var cleared := leased.(bootstrap := leased.bootstrap && !(leased.sendReady && leased.receiveReady));
      s.(entry := Some(if ready then cleared.(timer := false) else Scheduled(cleared)))
  }

  function AfterReceiving(s: Slot, session: Session, on: bool): Slot {
    if !Holds(s, session) then s
    else
      var e := s.entry.value.(receiving := on);
      s.(entry := Some(if on then e.(timer := false) else Scheduled(e)))
  }

  function AfterIdle(s: Slot, session: Session): Effect {
    if !Holds(s, session) || !s.entry.value.timer then Effect(s, {})
    else if Idle(s.entry.value) then Effect(s.(entry := None, dead := s.dead + {session}), {session})
    else Effect(s.(entry := Some(s.entry.value.(timer := false))), {})
  }

  function After(s: Slot, e: Event): Effect {
    match e
    case Acquire(file) => Effect(AfterAcquire(s, file), {})
    case DialDone(session, file) => AfterDial(s, session, file)
    case DialFailed => Effect(s.(dialing := false), {})
    case Adopt(session) => AfterAdopt(s, session)
    case Release(session) => AfterRelease(s, session)
    case Remove(session) => AfterRemove(s, session)
    case Lease(session, send, ready) => Effect(AfterLease(s, session, send, ready), {})
    case Receiving(session, on) => Effect(AfterReceiving(s, session, on), {})
    case IdleFired(session) => AfterIdle(s, session)
    case Died(session) => Effect(s.(dead := s.dead + {session}), {})
  }

  function Run(s: Slot, events: seq<Event>): Slot
    decreases |events|
  {
    if events == [] then s else Run(After(s, events[0]).slot, events[1..])
  }

  /** The slot of one key, as the pool updates it in place. */
  class PoolSlot {
    var entry: Option<Entry>
    var dialing: bool
    var dead: set<Session>
    ghost var holder: Option<Session>

    constructor ()
      ensures Value() == VACANT
    {
      entry, dialing, dead, holder := None, false, {}, None;
    }

    ghost function Value(): Slot
      reads this
    {
      Slot(entry, dialing, dead, holder)
    }

    // The session to reuse, or None with dialing set when the caller has to dial.
    method Acquire(file: bool) returns (reused: Option<Session>, busy: bool)
      modifies this
      ensures Value() == AfterAcquire(old(Value()), file)
      ensures busy == (old(dialing) || (old(entry).Some? && old(entry).value.inUse))
      ensures reused.Some? <==> !busy && Alive(old(Value()))
      ensures reused.Some? ==> Holds(Value(), reused.value) && entry.value.inUse && (file ==> !entry.value.bootstrap)
    {
      if dialing || (entry.Some? && entry.value.inUse) {
        return None, true;
      }
      if entry.Some? && entry.value.session !in dead {
        var e := entry.value;
        entry := Some(e.(inUse := true, bootstrap := e.bootstrap && !file, timer := false));
        if file {
          holder := Some(e.session);
        }
        return Some(e.session), false;
      }
      dialing := true;
      return None, false;
    }

    method Publish(session: Session, file: bool) returns (closed: set<Session>)
      requires dialing
      modifies this
      ensures Effect(Value(), closed) == AfterDial(old(Value()), session, file)
      ensures Holds(Value(), session) && entry.value.inUse && !dialing
    {
      closed := if entry.Some? && entry.value.session != session then {entry.value.session} else {};
      entry := Some(Entry(session, !file, true, false, false, false, false));
      dialing, dead := false, dead + closed;
      if file {
        holder := Some(session);
      }
    }

    method AdoptInbound(session: Session) returns (closed: set<Session>)
      requires !dialing
      modifies this
      ensures Effect(Value(), closed) == AfterAdopt(old(Value()), session)
      ensures Holds(Value(), session) || (closed == {session} && entry == old(entry))
    {
      closed := {};
      if entry.Some? && entry.value.session != session {
        if entry.value.session !in dead && !PrefersInbound(entry.value, session) {
          dead := dead + {session};
          return {session};
        }
        closed := {entry.value.session};
      }
      entry := Some(Entry(session, false, false, false, false, false, true));
      dead := dead + closed;
    }

    method Release(session: Session) returns (closed: set<Session>)
      requires !dialing
      modifies this
      ensures Effect(Value(), closed) == AfterRelease(old(Value()), session)
      ensures Holds(old(Value()), session) ==>
                closed == {} && Holds(Value(), session) && !entry.value.inUse
                && (Idle(entry.value) ==> entry.value.timer)
      ensures !Holds(old(Value()), session) ==> closed == {session} && entry == old(entry)
      ensures holder != Some(session) && SlotInv(old(Value())) ==> SlotInv(Value())
    {
      if holder == Some(session) {
        holder := None;
      }
      if entry.Some? && entry.value.session == session {
        entry := Some(Scheduled(entry.value.(inUse := false)));
        return {};
      }
      dead := dead + {session};
      return {session};
    }

    method IdleExpired(session: Session) returns (closed: set<Session>)
      modifies this
      ensures Effect(Value(), closed) == AfterIdle(old(Value()), session)
      ensures closed != {} ==> closed == {session} && Holds(old(Value()), session) && Idle(old(entry).value)
      ensures Holds(old(Value()), session) && !Idle(old(entry).value) ==>
                Holds(Value(), session) && closed == {} && (old(entry).value.timer ==> !entry.value.timer)
      ensures SlotInv(old(Value())) && holder.Some? && holder.value !in old(dead) ==>
                Holds(Value(), holder.value) && holder.value !in closed
    {
      closed := {};
      if entry.Some? && entry.value.session == session && entry.value.timer {
        if Idle(entry.value) {
          entry, dead, closed := None, dead + {session}, {session};
        } else {
          entry := Some(entry.value.(timer := false));
        }
      }
    }
  }

  // --------------------------------------------------------- file reservations

  // A dial runs only while no live session is pooled, and a live file reservation is the pooled session.
  ghost predicate SlotInv(s: Slot) {
    && (s.dialing ==> !Alive(s))
    && (s.holder.Some? && s.holder.value !in s.dead ==>
          Holds(s, s.holder.value) && s.entry.value.inUse && !s.entry.value.bootstrap)
  }

  // An inbound session is adopted once, and a dial yields a session that is alive.
  predicate Sensible(s: Slot, e: Event) {
    && (e.Adopt? ==> !Holds(s, e.session))
    && (e.DialDone? ==> !Holds(s, e.session))
  }

  ghost predicate AllSensible(s: Slot, events: seq<Event>)
    decreases |events|
  {
    events == [] || (Sensible(s, events[0]) && AllSensible(After(s, events[0]).slot, events[1..]))
  }

  lemma AfterKeepsSlot(s: Slot, e: Event)
    requires SlotInv(s) && Sensible(s, e)
    ensures SlotInv(After(s, e).slot)
  {
  }

  lemma {:induction false} RunKeepsSlot(s: Slot, events: seq<Event>)
    requires SlotInv(s) && AllSensible(s, events)
    ensures SlotInv(Run(s, events))
    decreases |events|
  {
    if events != [] {
      AfterKeepsSlot(s, events[0]);
      RunKeepsSlot(After(s, events[0]).slot, events[1..]);
    }
  }

  /** A session reserved for a file is never displaced while it lives: through any dials, inbound adoptions,
      leases, streams and idle timers it stays the pooled one, in use, until it is given back or dies. */
  lemma {:induction false} FileReservationStays(events: seq<Event>, x: Session)
    requires AllSensible(VACANT, events)
    requires Run(VACANT, events).holder == Some(x) && x !in Run(VACANT, events).dead
    ensures var s := Run(VACANT, events);
            && Holds(s, x) && s.entry.value.inUse
            && forall y: Session :: y != x ==> After(s, Adopt(y)).slot.entry == s.entry
  {
    RunKeepsSlot(VACANT, events);
  }

  // -------------------------------------------------------------------- the race

  datatype End = Low | High // the end that dialled the session with the smaller ID, and the other

  // Both ends dial at once, for the clipboard or for a file; each publishes its own session and is later handed
  // the other's. History: whether the larger session was ever reserved for a file, whether its dialler gave way
  // when it was handed the smaller one, and whether an operation on the smaller session ended in an error that
  // closes it.
  datatype Race = Race(low: Slot, high: Slot, published: set<End>, adopted: set<End>, closed: set<Session>,
                       reserved: bool, gaveWay: bool, failed: bool)

  const BOTH_DIAL := Race(Slot(None, true, {}, None), Slot(None, true, {}, None), {}, {}, {}, false, false, false)

  function Other(p: End): End {
    if p == Low then High else Low
  }

  function At(w: Race, p: End): Slot {
    if p == Low then w.low else w.high
  }

  function Own(p: End, small: Session, large: Session): Session {
    if p == Low then small else large
  }

  // A session closed at one end dies at the other whenever it is noticed there. An operation on the pooled
  // session may end in an error after which the session is removed and closed.
  predicate CanHappen(w: Race, p: End, e: Event, small: Session, large: Session) {
    var s := At(w, p);
    match e
    case DialDone(x, _) => x == Own(p, small, large) && p !in w.published
    case Adopt(x) => x == Own(Other(p), small, large) && p in w.published && p !in w.adopted
    case Died(x) => x in w.closed
    case Remove(x) => x in s.dead || Holds(s, x)
    case Acquire(file) => !s.dialing && Alive(s)
    case Release(x) => !s.dialing && (Holds(s, x) || x == Own(p, small, large)) && p in w.published
    case Lease(x, _, _) => Holds(At(w, Other(p)), x)
    case Receiving(x, _) => Holds(At(w, Other(p)), x)
    case _ => false
  }

  // The branch of adoptInboundPeerSession that takes the incoming session.
  predicate GivesWay(s: Slot, incoming: Session) {
    s.entry.None? || s.entry.value.session == incoming || !Alive(s) || PrefersInbound(s.entry.value, incoming)
  }

  // A file reserves this session, by dialling it or by finding it pooled.
  predicate ReservesPooled(s: Slot, e: Event, x: Session) {
    e == DialDone(x, true) || (e == Acquire(true) && Holds(s, x) && !s.entry.value.inUse)
  }

  function RaceNext(w: Race, p: End, e: Event, small: Session, large: Session): Race {
    if !CanHappen(w, p, e, small, large) then w
    else
      var Effect(slot, closes) := After(At(w, p), e);
      Race(if p == Low then slot else w.low, if p == High then slot else w.high,
           if e.DialDone? then w.published + {p} else w.published,
           if e.Adopt? then w.adopted + {p} else w.adopted, w.closed + closes,
           w.reserved || (p == High && ReservesPooled(w.high, e, large)),
           if p == High && e.Adopt? then GivesWay(w.high, small) else w.gaveWay,
           w.failed || e == Remove(small))
  }

  function RaceRun(w: Race, steps: seq<(End, Event)>, small: Session, large: Session): Race
    decreases |steps|
  {
    if steps == [] then w
    else RaceRun(RaceNext(w, steps[0].0, steps[0].1, small, large), steps[1..], small, large)
  }

  predicate Contenders(small: Session, large: Session) {
    small.id < large.id && small.local && large.local && small.sync && large.sync
  }

  // The smaller session has been closed, or is about to be.
  predicate Doomed(w: Race) {
    w.failed || (High in w.adopted && !w.gaveWay)
  }

  ghost predicate SmallInv(w: Race, small: Session) {
    && (small in w.low.dead || small in w.high.dead ==> small in w.closed)
    && (small in w.closed <==> Doomed(w))
  }

  ghost predicate LowInv(w: Race, small: Session) {
    if Low in w.published then !w.low.dialing && (!Doomed(w) ==> Holds(w.low, small))
    else w.low.dialing && w.low.entry.None?
  }

  ghost predicate HighInv(w: Race, small: Session, large: Session) {
    if High in w.adopted then High in w.published && !w.high.dialing && (!Doomed(w) ==> Holds(w.high, small))
    else if High in w.published then
      && !w.high.dialing
      && (w.high.entry.Some? ==> Holds(w.high, large) && (Unreserved(w) ==> Fresh(w.high.entry.value)))
    else w.high.dialing && w.high.entry.None?
  }

  predicate Unreserved(w: Race) {
    !w.reserved && !Doomed(w)
  }

  predicate Fresh(e: Entry) {
    e.bootstrap && !e.receiving
  }

  ghost predicate RaceInv(w: Race, small: Session, large: Session) {
    SmallInv(w, small) && LowInv(w, small) && HighInv(w, small, large)
  }

  lemma LowKeeps(w: Race, e: Event, small: Session, large: Session)
    requires Contenders(small, large) && RaceInv(w, small, large) && !e.Adopt?
    ensures RaceInv(RaceNext(w, Low, e, small, large), small, large)
  {
  }

  // The end that dialled the smaller session never gives way to the larger one.
  lemma LowKeepsOnAdopt(w: Race, x: Session, small: Session, large: Session)
    requires Contenders(small, large) && RaceInv(w, small, large)
    ensures RaceInv(RaceNext(w, Low, Adopt(x), small, large), small, large)
  {
  }

  lemma HighKeeps(w: Race, e: Event, small: Session, large: Session)
    requires Contenders(small, large) && RaceInv(w, small, large) && !e.Adopt? && !e.Acquire? && !e.Release?
    ensures RaceInv(RaceNext(w, High, e, small, large), small, large)
  {
  }

  lemma HighKeepsOnUse(w: Race, e: Event, small: Session, large: Session)
    requires Contenders(small, large) && RaceInv(w, small, large) && (e.Acquire? || e.Release?)
    ensures RaceInv(RaceNext(w, High, e, small, large), small, large)
  {
  }

  lemma HighKeepsOnAdopt(w: Race, x: Session, small: Session, large: Session)
    requires Contenders(small, large) && RaceInv(w, small, large)
    ensures RaceInv(RaceNext(w, High, Adopt(x), small, large), small, large)
  {
  }

  lemma RaceNextKeeps(w: Race, p: End, e: Event, small: Session, large: Session)
    requires Contenders(small, large) && RaceInv(w, small, large)
    ensures RaceInv(RaceNext(w, p, e, small, large), small, large)
  {
    match p
    case Low =>
      if e.Adopt? {
        LowKeepsOnAdopt(w, e.session, small, large);
      } else {
        LowKeeps(w, e, small, large);
      }
    case High =>
      if e.Adopt? {
        HighKeepsOnAdopt(w, e.session, small, large);
      } else if e.Acquire? || e.Release? {
        HighKeepsOnUse(w, e, small, large);
      } else {
        HighKeeps(w, e, small, large);
      }
  }

  lemma {:induction false} RaceRunKeeps(w: Race, steps: seq<(End, Event)>, small: Session, large: Session)
    requires Contenders(small, large) && RaceInv(w, small, large)
    ensures RaceInv(RaceRun(w, steps, small, large), small, large)
    decreases |steps|
  {
    if steps != [] {
      RaceNextKeeps(w, steps[0].0, steps[0].1, small, large);
      RaceRunKeeps(RaceNext(w, steps[0].0, steps[0].1, small, large), steps[1..], small, large);
    }
  }

  predicate Settled(w: Race) {
    w.published == {Low, High} && w.adopted == {Low, High}
  }

  predicate Converged(w: Race, small: Session) {
    && Holds(w.low, small) && Holds(w.high, small)
    && small !in w.closed && small !in w.low.dead && small !in w.high.dead
  }

  /** When both ends dial at once, for the clipboard or for a file, then under every order of publishing, adopting,
      noticing closures, leases, streams, failures and reservations a settled run ends with the smaller session,
      alive and pooled at both ends, exactly when no operation on it failed and the end that dialled the larger
      one could give way when it was handed the smaller: the larger was gone or dead by then, or still an unused
      clipboard bootstrap. */
  lemma {:induction false} DialsConverge(small: Session, large: Session, steps: seq<(End, Event)>)
    requires Contenders(small, large) && Settled(RaceRun(BOTH_DIAL, steps, small, large))
    ensures var w := RaceRun(BOTH_DIAL, steps, small, large); Converged(w, small) <==> w.gaveWay && !w.failed
  {
    RaceRunKeeps(BOTH_DIAL, steps, small, large);
  }

  // Once asked, the end that dialled the larger session has given way unless that was reserved for a file.
  ghost predicate GaveWayUnlessReserved(w: Race) {
    High in w.adopted && !w.reserved && !w.failed ==> w.gaveWay
  }

  lemma AdoptionGivesWay(w: Race, p: End, e: Event, small: Session, large: Session)
    requires Contenders(small, large) && RaceInv(w, small, large) && GaveWayUnlessReserved(w)
    ensures GaveWayUnlessReserved(RaceNext(w, p, e, small, large))
  {
  }

  lemma {:induction false} GivesWayUnlessReserved(w: Race, steps: seq<(End, Event)>, small: Session, large: Session)
    requires Contenders(small, large) && RaceInv(w, small, large) && GaveWayUnlessReserved(w)
    ensures GaveWayUnlessReserved(RaceRun(w, steps, small, large))
    decreases |steps|
  {
    if steps != [] {
      RaceNextKeeps(w, steps[0].0, steps[0].1, small, large);
      AdoptionGivesWay(w, steps[0].0, steps[0].1, small, large);
      GivesWayUnlessReserved(RaceNext(w, steps[0].0, steps[0].1, small, large), steps[1..], small, large);
    }
  }

  /** In particular every settled run converges in which nothing fails and the larger session is never reserved
      for a file. */
  lemma {:induction false} UnreservedDialsConverge(small: Session, large: Session, steps: seq<(End, Event)>)
    requires Contenders(small, large) && Settled(RaceRun(BOTH_DIAL, steps, small, large))
    requires !RaceRun(BOTH_DIAL, steps, small, large).reserved && !RaceRun(BOTH_DIAL, steps, small, large).failed
    ensures Converged(RaceRun(BOTH_DIAL, steps, small, large), small)
  {
    DialsConverge(small, large, steps);
    GivesWayUnlessReserved(BOTH_DIAL, steps, small, large);
  }

  // Both dials are done, and the larger session has been given back and reserved for a file.
  function Reserving(small: Session, large: Session): seq<(End, Event)> {
    [(Low, DialDone(small, false)), (High, DialDone(large, false)), (High, Release(large)), (High, Acquire(true))]
  }

  function Reserved(small: Session, large: Session): Race {
    Race(Slot(Some(Entry(small, true, true, false, false, false, false)), false, {}, None),
         Slot(Some(Entry(large, false, true, false, false, false, false)), false, {}, Some(large)),
         {Low, High}, {}, {}, true, false, false)
  }

  lemma RaceSteps(w: Race, a: (End, Event), rest: seq<(End, Event)>, small: Session, large: Session)
    ensures RaceRun(w, [a] + rest, small, large) == RaceRun(RaceNext(w, a.0, a.1, small, large), rest, small, large)
  {
    assert ([a] + rest)[1..] == rest;
  }

  lemma ReservedFirst(small: Session, large: Session, rest: seq<(End, Event)>)
    requires Contenders(small, large)
    ensures RaceRun(BOTH_DIAL, Reserving(small, large) + rest, small, large)
            == RaceRun(Reserved(small, large), rest, small, large)
  {
    var s := Reserving(small, large);
    var w1 := RaceNext(BOTH_DIAL, s[0].0, s[0].1, small, large);
    var w2 := RaceNext(w1, s[1].0, s[1].1, small, large);
    var w3 := RaceNext(w2, s[2].0, s[2].1, small, large);
    assert RaceNext(w3, s[3].0, s[3].1, small, large) == Reserved(small, large);
    assert s + rest == [s[0]] + ([s[1]] + ([s[2]] + ([s[3]] + rest)));
    RaceSteps(BOTH_DIAL, s[0], [s[1]] + ([s[2]] + ([s[3]] + rest)), small, large);
    RaceSteps(w1, s[1], [s[2]] + ([s[3]] + rest), small, large);
    RaceSteps(w2, s[2], [s[3]] + rest, small, large);
    RaceSteps(w3, s[3], rest, small, large);
  }

  /** The losing run: the dialler of the larger session has reserved it for a file when it is handed the smaller
      one. Each end refuses the other's session and both are closed. */
  lemma BothCanBeClosed(small: Session, large: Session)
    requires Contenders(small, large)
    ensures var w := RaceRun(BOTH_DIAL, Reserving(small, large) + [(High, Adopt(small)), (Low, Adopt(large))],
                             small, large);
            Settled(w) && w.closed == {small, large} && !w.gaveWay && !Converged(w, small)
  {
    var w0 := Reserved(small, large);
    ReservedFirst(small, large, [(High, Adopt(small)), (Low, Adopt(large))]);
    var w1 := RaceNext(w0, High, Adopt(small), small, large);
    var w2 := RaceNext(w1, Low, Adopt(large), small, large);
    assert [(High, Adopt(small)), (Low, Adopt(large))] == [(High, Adopt(small))] + ([(Low, Adopt(large))] + []);
    RaceSteps(w0, (High, Adopt(small)), [(Low, Adopt(large))] + [], small, large);
    RaceSteps(w1, (Low, Adopt(large)), [], small, large);
  }

  /** The same reservation does no harm if the other end refuses first and the closure is noticed in time. */
  lemma ReservedCanConverge(small: Session, large: Session)
    requires Contenders(small, large)
    ensures var w := RaceRun(BOTH_DIAL, Reserving(small, large)
                                        + [(Low, Adopt(large)), (High, Died(large)), (High, Adopt(small))],
                             small, large);
            Settled(w) && w.reserved && w.gaveWay && Converged(w, small)
  {
    var w0 := Reserved(small, large);
    var rest := [(Low, Adopt(large)), (High, Died(large)), (High, Adopt(small))];
    ReservedFirst(small, large, rest);
    var w1 := RaceNext(w0, Low, Adopt(large), small, large);
    var w2 := RaceNext(w1, High, Died(large), small, large);
    assert rest == [rest[0]] + ([rest[1]] + ([rest[2]] + []));
    RaceSteps(w0, rest[0], [rest[1]] + ([rest[2]] + []), small, large);
    RaceSteps(w1, rest[1], [rest[2]] + [], small, large);
    RaceSteps(w2, rest[2], [], small, large);
  }
}
