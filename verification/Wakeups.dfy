/** The two wake-token mailboxes: the critical events of the desktop's system event pump
    (apps/desktop/native_system_events.go), delivered one by one, and the clipboard sender of one peer
    (internal/app/clipboard_transport.go), which keeps only the newest job. A token channel holds one token. */
module Wakeups {

  import opened Common

  // ------------------------------------------------------------ critical events

  datatype Reason = Sleep | Wake | Lock | Unlock

  datatype Worker = Waiting | Draining | Delivering(reason: Reason) | Gone

  // notified and delivered are history.
  datatype Pump = Pump(queue: seq<Reason>, token: bool, worker: Worker, closed: bool,
                       notified: seq<Reason>, delivered: seq<Reason>)

  const QUIET := Pump([], false, Waiting, false, [], [])

  datatype Event = Notify(reason: Reason) | Take | Pop | Deliver | Close | Leave

  function PumpNext(p: Pump, e: Event): Pump {
    match e
    case Notify(r) => if p.closed then p else p.(queue := p.queue + [r], token := true, notified := p.notified + [r])
    case Take => if p.worker == Waiting && p.token then p.(token := false, worker := Draining) else p
    case Pop =>
      if p.worker != Draining then p
      else if p.queue == [] then p.(worker := Waiting)
      else p.(queue := p.queue[1..], worker := Delivering(p.queue[0]))
    case Deliver =>
      if p.worker.Delivering? then p.(worker := Draining, delivered := p.delivered + [p.worker.reason]) else p
    case Close => p.(closed := true)
    case Leave => if p.closed && p.worker == Waiting then p.(worker := Gone) else p
  }

  function PumpRun(p: Pump, events: seq<Event>): Pump
    decreases |events|
  {
    if events == [] then p else PumpRun(PumpNext(p, events[0]), events[1..])
  }

  function InHand(w: Worker): seq<Reason> {
    if w.Delivering? then [w.reason] else []
  }

  ghost predicate PumpInv(p: Pump) {
    && p.notified == p.delivered + InHand(p.worker) + p.queue
    && (p.queue != [] && !p.worker.Gone? ==> p.token || p.worker.Draining? || p.worker.Delivering?)
    && (p.worker.Gone? ==> p.closed)
  }

  lemma PumpNextKeeps(p: Pump, e: Event)
    requires PumpInv(p)
    ensures PumpInv(PumpNext(p, e))
  {
    match e
    case Notify(r) =>
      var handed := p.delivered + InHand(p.worker);
      assert handed + (p.queue + [r]) == handed + p.queue + [r];
    case Pop =>
      if p.worker == Draining && p.queue != [] {
        assert p.queue == [p.queue[0]] + p.queue[1..];
      }
    case _ =>
  }

  lemma {:induction false} PumpRunKeeps(p: Pump, events: seq<Event>)
    requires PumpInv(p)
    ensures PumpInv(PumpRun(p, events))
    decreases |events|
  {
    if events != [] {
      PumpNextKeeps(p, events[0]);
      PumpRunKeeps(PumpNext(p, events[0]), events[1..]);
    }
  }

  /** In every run what has been delivered is a prefix of what was notified, in order; and while anything is
      queued the worker is draining or a token is waiting for it, unless the pump was closed and it left. */
  lemma CriticalEventsInOrder(events: seq<Event>)
    ensures var p := PumpRun(QUIET, events);
            && p.delivered <= p.notified
            && (p.queue != [] ==> p.token || p.worker.Draining? || p.worker.Delivering? || (p.closed && p.worker.Gone?))
            && (p.delivered != p.notified ==> p.queue != [] || p.worker.Delivering?)
  {
    PumpRunKeeps(QUIET, events);
    var p := PumpRun(QUIET, events);
    assert p.delivered + InHand(p.worker) + p.queue == p.delivered + (InHand(p.worker) + p.queue);
  }

  // The worker's own steps, with nobody else moving.
  function WorkerStep(p: Pump): Event {
    match p.worker
    case Waiting => Take
    case Draining => Pop
    case Delivering(_) => Deliver
    case Gone => Leave
  }

  function WorkerRun(p: Pump, n: nat): Pump
    decreases n
  {
    if n == 0 then p else WorkerRun(PumpNext(p, WorkerStep(p)), n - 1)
  }

  // Steps the worker still needs.
  function Work(p: Pump): nat {
    2 * |p.queue| + (if p.token then 2 else 0) + (match p.worker case Draining => 1 case Delivering(_) => 2 case _ => 0)
  }

  /** Left alone, a worker that has not gone delivers everything notified within two steps for each queued
      event and four more. */
  lemma {:induction false} DrainsInBoundedSteps(p: Pump, n: nat)
    requires PumpInv(p) && !p.worker.Gone? && n >= Work(p)
    ensures Work(p) <= 2 * |p.queue| + 4
    ensures WorkerRun(p, n).delivered == p.notified && WorkerRun(p, n).queue == []
    decreases n
  {
    if n == 0 || (p.worker.Waiting? && !p.token) {
      Asleep(p, n);
    } else {
      var p' := PumpNext(p, WorkerStep(p));
      PumpNextKeeps(p, WorkerStep(p));
      DrainsInBoundedSteps(p', n - 1);
    }
  }

  lemma {:induction false} Asleep(p: Pump, n: nat)
    requires p.worker.Waiting? && !p.token
    ensures WorkerRun(p, n) == p
    decreases n
  {
    if n > 0 {
      Asleep(p, n - 1);
    }
  }

  /** The pump's fields, updated under its lock. */
  class EventPump {
    var queue: seq<Reason>
    var token: bool
    var closed: bool
    ghost var worker: Worker
    ghost var notified: seq<Reason>
    ghost var delivered: seq<Reason>

    constructor ()
      ensures Value() == QUIET
    {
      queue, token, closed := [], false, false;
      worker, notified, delivered := Waiting, [], [];
    }

    ghost function Value(): Pump
      reads this
    {
      Pump(queue, token, worker, closed, notified, delivered)
    }

    /** On a closed pump nothing happens. On an open one the event is the last of the queue, and the worker, left
        alone, will have delivered it after everything notified before. */
    method NotifyCritical(r: Reason)
      modifies `queue, `token, `notified
      ensures Value() == PumpNext(old(Value()), Event.Notify(r))
      ensures closed ==> Value() == old(Value())
      ensures PumpInv(old(Value())) && !closed ==>
                PumpInv(Value()) && WorkerRun(Value(), Work(Value())).delivered == old(notified) + [r]
    {
      if closed {
        return;
      }
      ghost var was := Value();
      queue := queue + [r];
      notified := notified + [r];
      token := true;
      if PumpInv(was) {
        PumpNextKeeps(was, Event.Notify(r));
        DrainsInBoundedSteps(Value(), Work(Value()));
      }
    }

    static lemma HandOver(done: seq<Reason>, queue: seq<Reason>)
      requires queue != []
      ensures done + queue == (done + [queue[0]]) + queue[1..]
    {
      assert queue == [queue[0]] + queue[1..];
    }

    // The worker's inner loop, from a taken token until the queue is empty.
    method Drain() returns (handed: seq<Reason>)
      requires worker == Draining && PumpInv(Value())
      modifies this
      ensures PumpInv(Value()) && queue == [] && worker == Waiting
      ensures handed == old(queue) && delivered == old(delivered) + handed && delivered == notified
      ensures token == old(token) && closed == old(closed) && notified == old(notified)
    {
      handed := [];
      while queue != []
        invariant worker == Draining && notified == delivered + queue
        invariant handed + queue == old(queue) && delivered == old(delivered) + handed
        invariant token == old(token) && closed == old(closed) && notified == old(notified)
        decreases |queue|
      {
        var r := queue[0];
        HandOver(delivered, queue);
        HandOver(handed, queue);
        HandOver(old(delivered) + handed, queue);
        queue := queue[1..];
        handed := handed + [r];
        delivered := delivered + [r];
      }
      worker := Waiting;
    }
  }

  // ---------------------------------------------------------- the clipboard sender

  type Job = nat // the n-th job handed over

  datatype Sending = Idle | Picking | Busy(job: Job)

  // owed: callers between storing their job and signalling it. The rest after worker is history.
  datatype Mailbox = Mailbox(pending: Option<Job>, wake: bool, owed: nat, worker: Sending,
                             handed: nat, picked: seq<Job>, cancelled: set<Job>, withdrawn: set<Job>)

  const EMPTY := Mailbox(None, false, 0, Idle, 0, [], {}, {})

  datatype Move = Enqueue | Signal | Await | Pick | Finish | Withdraw(all: bool)

  function Current(m: Mailbox): set<Job> {
    if m.worker.Busy? then {m.worker.job} else {}
  }

  function Waits(m: Mailbox): set<Job> {
    if m.pending.Some? then {m.pending.value} else {}
  }

  function MailNext(m: Mailbox, a: Move): Mailbox {
    match a
    case Enqueue =>
      m.(pending := Some(m.handed), owed := m.owed + 1, handed := m.handed + 1, cancelled := m.cancelled + Current(m))
    case Signal => if m.owed > 0 then m.(owed := m.owed - 1, wake := true) else m
    case Await => if m.worker == Idle && m.wake then m.(wake := false, worker := Picking) else m
    case Pick =>
      if m.worker != Picking then m
      else if m.pending.None? then m.(worker := Idle)
      else m.(pending := None, worker := Busy(m.pending.value), picked := m.picked + [m.pending.value])
    case Finish => if m.worker.Busy? then m.(worker := Idle) else m
    case Withdraw(all) =>
      if all then m.(pending := None, withdrawn := m.withdrawn + Waits(m), cancelled := m.cancelled + Current(m)) else m
  }

  function MailRun(m: Mailbox, moves: seq<Move>): Mailbox
    decreases |moves|
  {
    if moves == [] then m else MailRun(MailNext(m, moves[0]), moves[1..])
  }

  ghost predicate MailInv(m: Mailbox) {
    // never stranded
    && (m.pending.Some? ==> m.wake || m.owed > 0 || m.worker.Picking?)
    // always the newest, and what it replaces has been told to stop
    && (m.pending.Some? ==> m.pending.value + 1 == m.handed && m.pending.value !in m.withdrawn)
    && (m.pending.Some? && m.worker.Busy? ==> m.worker.job in m.cancelled)
    && (m.worker.Busy? ==> m.picked != [] && m.picked[|m.picked| - 1] == m.worker.job)
    && (forall j | j in m.withdrawn :: j < m.handed)
    // each job at most once, in order
    && (forall i, j | 0 <= i < j < |m.picked| :: m.picked[i] < m.picked[j])
    && (forall i | 0 <= i < |m.picked| :: m.picked[i] < m.handed && (m.pending.Some? ==> m.picked[i] < m.pending.value))
    // the newest job waits, was picked, or was withdrawn
    && (m.handed > 0 && m.pending.None? ==>
          m.handed - 1 in m.withdrawn || (m.picked != [] && m.picked[|m.picked| - 1] == m.handed - 1))
  }

  lemma MailNextKeeps(m: Mailbox, a: Move)
    requires MailInv(m)
    ensures MailInv(MailNext(m, a))
  {
  }

  lemma {:induction false} MailRunKeeps(m: Mailbox, moves: seq<Move>)
    requires MailInv(m)
    ensures MailInv(MailRun(m, moves))
    decreases |moves|
  {
    if moves != [] {
      MailNextKeeps(m, moves[0]);
      MailRunKeeps(MailNext(m, moves[0]), moves[1..]);
    }
  }

  /** In every run a pending job is the newest one handed over, has a wake-up on the way, and has cancelled the
      job being sent; jobs are taken in order, none twice; and the newest job is pending, taken or withdrawn. */
  lemma NewestJobIsNeverStranded(moves: seq<Move>)
    ensures MailInv(MailRun(EMPTY, moves))
  {
    MailRunKeeps(EMPTY, moves);
  }

  // What the callers and the worker do next if nobody hands over or withdraws anything.
  function Remaining(m: Mailbox): seq<Move> {
    (if m.worker.Busy? then [Finish] else []) + (if m.worker.Picking? then [] else [Signal, Await]) + [Pick]
  }

  /** From any reachable state a pending job is taken within four moves of its callers and the worker. */
  lemma PendingJobIsTaken(moves: seq<Move>)
    requires MailRun(EMPTY, moves).pending.Some?
    ensures var m := MailRun(EMPTY, moves);
            var m' := MailRun(m, Remaining(m));
            |Remaining(m)| <= 4 && m'.worker == Busy(m.pending.value) && m'.pending.None?
  {
    MailRunKeeps(EMPTY, moves);
    TakenFrom(MailRun(EMPTY, moves));
  }

  lemma TakenFrom(m: Mailbox)
    requires MailInv(m) && m.pending.Some?
    ensures var m' := MailRun(m, Remaining(m));
            |Remaining(m)| <= 4 && m'.worker == Busy(m.pending.value) && m'.pending.None?
  {
    match m.worker
    case Picking =>
      assert Remaining(m) == [Pick];
      OneMove(m, Pick);
    case Idle =>
      assert Remaining(m) == [Signal, Await, Pick];
      ThreeMoves(m);
    case Busy(_) =>
      MailNextKeeps(m, Finish);
      ThreeMoves(MailNext(m, Finish));
      assert Remaining(m) == [Finish] + [Signal, Await, Pick];
      MoveThen(m, Finish, [Signal, Await, Pick]);
  }

  lemma MoveThen(m: Mailbox, a: Move, rest: seq<Move>)
    ensures MailRun(m, [a] + rest) == MailRun(MailNext(m, a), rest)
  {
    assert ([a] + rest)[1..] == rest;
  }

  lemma OneMove(m: Mailbox, a: Move)
    ensures MailRun(m, [a]) == MailNext(m, a)
  {
    assert MailRun(MailNext(m, a), [a][1..]) == MailNext(m, a);
  }

  lemma ThreeMoves(m: Mailbox)
    requires MailInv(m) && m.worker.Idle? && m.pending.Some?
    ensures var m' := MailRun(m, [Signal, Await, Pick]);
            m'.worker == Busy(m.pending.value) && m'.pending.None?
  {
    var m1 := MailNext(m, Signal);
    var m2 := MailNext(m1, Await);
    assert [Signal, Await, Pick] == [Signal] + ([Await] + [Pick]);
    MoveThen(m, Signal, [Await] + [Pick]);
    MoveThen(m1, Await, [Pick]);
    OneMove(m2, Pick);
  }
}
