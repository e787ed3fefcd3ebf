/** LAN pairing between two devices (internal/app/lan_pairing.go and the provisional grants of
    internal/identity/identity.go): request, accept, commit, ready, confirm, done, the query-based
    recovery and the tie-break of crossing requests. Every frame ever sent stays receivable, so loss,
    delay, duplication and reordering are all covered; either device may crash between any two steps. */
module LanPairing {

  import opened Common

  const MAX_GRANTS := 64

  // Request IDs are random strings; the protocol only compares them.
  type RequestId = nat
  type Nonce = nat
  type Pair = (RequestId, Nonce)

  datatype Side = A | B

  function Other(p: Side): Side {
    if p == A then B else A
  }

  datatype Phase = Request | Accept | Reject | Commit | Ready | Confirm | Done | Query

  // A signed frame; the recipient is always the other device.
  datatype Frame = Frame(phase: Phase, from: Side, request: RequestId, nonce: Nonce)

  // ---------------------------------------------------------- the trust file

  datatype Grant = Grant(nonce: Nonce, generation: nat, done: bool)

  datatype Pairing = Pairing(request: RequestId, generation: nat)

  // What is left of a peer that was forgotten or blocked. A peer's ID is the digest of its key, so one ID
  // never comes with two keys.
  datatype Denial = Denial(generation: nat, blocked: bool)

  // What one device stores about the other.
  datatype Trust = Trust(grants: map<RequestId, Grant>, paired: Option<Pairing>, denied: Option<Denial>, epoch: nat)

  datatype Status = IsDone | IsReady | Unknown

  const UNKNOWN_PEER := Trust(map[], None, None, 0)

  function Max(a: nat, b: nat): nat {
    if a < b then b else a
  }

  predicate Blocked(t: Trust) {
    t.denied.Some? && t.denied.value.blocked
  }

  predicate Forgotten(t: Trust) {
    t.denied.Some? && !t.denied.value.blocked
  }

  predicate PairedBy(t: Trust, r: RequestId) {
    t.paired.Some? && t.paired.value.request == r
  }

  // LANPairGeneration, what a conversation is started with.
  function Offered(t: Trust): nat {
    if t.denied.Some? then t.denied.value.generation
    else if t.paired.Some? then Max(1, t.paired.value.generation)
    else t.epoch + 1
  }

  // What BeginProvisionalLAN compares a new grant with.
  function Required(t: Trust): nat {
    Max(if t.denied.Some? then t.denied.value.generation
        else if t.paired.Some? then t.paired.value.generation else 1, t.epoch + 1)
  }

  function Unexpired(t: Trust, late: set<RequestId>): map<RequestId, Grant> {
    map r | r in t.grants && r !in late :: t.grants[r]
  }

  // BeginProvisionalLAN: storing the same grant again is fine, a conflicting one is refused. A grant that would
  // expire more than 75 seconds from now is too far ahead.
  function TrustBegin(t: Trust, late: set<RequestId>, far: bool, r: RequestId, n: Nonce, generation: nat): (Trust, bool)
  {
    var active := Unexpired(t, late);
    if r in active then (t, active[r].nonce == n && active[r].generation == generation)
    else if |active| >= MAX_GRANTS || r in late || far || Blocked(t) || generation != Required(t) then (t, false)
    else (t.(grants := active[r := Grant(n, generation, false)]), true)
  }

  // commitLANPeerFile: against a denial or a pairing of another generation nothing is committed.
  predicate MayPair(t: Trust, generation: nat) {
    && generation != 0
    && (t.denied.Some? ==> !t.denied.value.blocked && t.denied.value.generation == generation)
    && (t.paired.Some? ==> t.paired.value.generation == generation)
  }

  // CommitProvisionalLAN.
  function TrustCommit(t: Trust, late: set<RequestId>, r: RequestId, n: Nonce): (Trust, bool) {
    if r !in t.grants || t.grants[r].nonce != n then (t, false)
    else if r in late then (t.(grants := t.grants - {r}), false)
    else if t.grants[r].done then (t, true)
    else if !MayPair(t, t.grants[r].generation) then (t, false)
    else (Trust(t.grants[r := t.grants[r].(done := true)], Some(Pairing(r, t.grants[r].generation)), None,
                if t.denied.Some? then Max(t.epoch, t.denied.value.generation) else t.epoch), true)
  }

  // LANPairStatus: the trusted peer entry is matched by request alone.
  function TrustStatus(t: Trust, late: set<RequestId>, r: RequestId, n: Nonce): Status {
    if PairedBy(t, r) then IsDone
    else if r in t.grants && t.grants[r].nonce == n && r !in late then (if t.grants[r].done then IsDone else IsReady)
    else Unknown
  }

  // ForgetPeer: the pairing and every grant go, and older grants can never be committed again.
  function TrustForget(t: Trust): Trust {
    if t.denied.Some? || t.paired.None? then t
    else
      var next := t.paired.value.generation + 1;
      Trust(map[], None, Some(Denial(next, false)), Max(t.epoch, next))
  }

  // The generation RevokePeer leaves behind: above the pairing and above every grant.
  predicate BlockGeneration(t: Trust, generation: nat) {
    var least := if t.paired.Some? then Max(1, t.paired.value.generation + 1)
                 else if t.denied.Some? then t.denied.value.generation else 1;
    && least <= generation && (forall r | r in t.grants :: t.grants[r].generation < generation)
    && (generation == least || exists r | r in t.grants :: t.grants[r].generation + 1 == generation)
  }

  // RevokePeer, on one's own decision.
  function TrustBlock(t: Trust, generation: nat): Trust {
    if Blocked(t) || !BlockGeneration(t, generation) then t
    else Trust(map[], None, Some(Denial(generation, true)), Max(t.epoch, generation))
  }

  // AllowPeer; RestoreForgottenPeers does the same for a forgotten peer after an enrollment by code.
  function TrustAllow(t: Trust): Trust {
    if t.denied.None? then t else t.(denied := None, epoch := Max(t.epoch, t.denied.value.generation))
  }

  /** The trust file as the identity package updates it in place. */
  class TrustFile {
    var grants: map<RequestId, Grant>
    var paired: Option<Pairing>
    var denied: Option<Denial>
    var epoch: nat

    constructor ()
      ensures Value() == UNKNOWN_PEER
    {
      grants, paired, denied, epoch := map[], None, None, 0;
    }

    function Value(): Trust
      reads this
    {
      Trust(grants, paired, denied, epoch)
    }

    method Begin(late: set<RequestId>, far: bool, r: RequestId, n: Nonce, generation: nat) returns (ok: bool)
      modifies this`grants
      ensures (Value(), ok) == TrustBegin(old(Value()), late, far, r, n, generation)
      ensures ok ==> r in grants && r !in late && grants[r].nonce == n && grants[r].generation == generation
      ensures ok && r !in old(grants) ==> !Blocked(Value()) && |grants| <= MAX_GRANTS && !far
      ensures !ok ==> grants == old(grants)
    {
      var active := map q | q in grants && q !in late :: grants[q];
      assert active == Unexpired(Value(), late);
      if r in active {
        return active[r].nonce == n && active[r].generation == generation;
      }
      if |active| >= MAX_GRANTS || r in late || far || Blocked(Value()) || generation != Required(Value()) {
        return false;
      }
      grants := active[r := Grant(n, generation, false)];
      assert grants.Keys == active.Keys + {r};
      return true;
    }

    method Commit(late: set<RequestId>, r: RequestId, n: Nonce) returns (ok: bool)
      modifies this
      ensures (Value(), ok) == TrustCommit(old(Value()), late, r, n)
      ensures ok ==> r in old(grants) && old(grants)[r].nonce == n && r in grants && grants[r].done
      ensures ok && !old(grants)[r].done ==>
                !Blocked(old(Value())) && denied.None? && paired == Some(Pairing(r, old(grants)[r].generation))
      ensures !ok ==> paired == old(paired) && denied == old(denied) && epoch == old(epoch)
    {
      if r !in grants || grants[r].nonce != n {
        return false;
      }
      if r in late {
        grants := grants - {r};
        return false;
      }
      if grants[r].done {
        return true;
      }
      if !MayPair(Value(), grants[r].generation) {
        return false;
      }
      if denied.Some? {
        epoch, denied := Max(epoch, denied.value.generation), None;
      }
      grants, paired := grants[r := grants[r].(done := true)], Some(Pairing(r, grants[r].generation));
      return true;
    }
  }

  // ------------------------------------------------------------ one device

  datatype Asking = AwaitAccept | AwaitReady | AwaitDone
  datatype Answering = Undecided(crossing: bool) | AwaitCommit | AwaitConfirm
  datatype Recovering = AwaitStatus | AwaitRecovered
  datatype Talk<S> = Talk(state: S, nonce: Nonce, generation: nat)

  datatype Peer = Peer(
    trust: Trust,
    late: set<RequestId>,                          // requests past their expiry by this device's clock
    // lost in a crash
    outgoing: Option<RequestId>,
    asking: map<RequestId, Talk<Asking>>,          // RequestLANPair
    answering: map<RequestId, Talk<Answering>>,    // handleIncomingLANPair, phase "request"
    recovering: map<RequestId, Talk<Recovering>>,  // recoverLANPair
    serving: set<Pair>)                            // handleIncomingLANPair, phase "query", status ready

  datatype Deed = Deed(who: Side, request: RequestId, nonce: Nonce)

  // What has happened so far; no device can read this.
  datatype Facts = Facts(
    issued: map<RequestId, (Side, Nonce)>,         // requests and who made them
    began: set<Deed>, committed: set<Deed>,
    consented: set<(Side, RequestId)>,             // accepted by the user, or by a crossing request of one's own
    outranked: set<(Side, RequestId, RequestId)>)  // (device, incoming refused, own outgoing) by the tie-break

  datatype World = World(a: Peer, b: Peer, net: set<Frame>, facts: Facts)

  const NEWCOMER := Peer(UNKNOWN_PEER, {}, None, map[], map[], map[], {})
  const START := World(NEWCOMER, NEWCOMER, {}, Facts(map[], {}, {}, {}, {}))

  function At(w: World, p: Side): Peer {
    if p == A then w.a else w.b
  }

  // What one step of one device does.
  datatype Effect = Effect(peer: Peer, facts: Facts, sent: set<Frame>)

  function Apply(w: World, p: Side, e: Effect): World {
    var net := w.net + e.sent;
    if p == A then World(e.peer, w.b, net, e.facts) else World(w.a, e.peer, net, e.facts)
  }

  function DropAsking(d: Peer, r: RequestId): Peer {
    d.(asking := d.asking - {r}, outgoing := if d.outgoing == Some(r) then None else d.outgoing)
  }

  // A grant begun, or refused, and its place in the history.
  function Begun(d: Peer, k: Facts, p: Side, r: RequestId, n: Nonce, generation: nat): (Peer, Facts, bool) {
    var (trust, ok) := TrustBegin(d.trust, d.late, false, r, n, generation);
    (d.(trust := trust), if ok then k.(began := k.began + {Deed(p, r, n)}) else k, ok)
  }

  // Commits, then says so.
  function CommitThen(d: Peer, k: Facts, p: Side, r: RequestId, n: Nonce, reply: set<Frame>): Effect {
    var (trust, ok) := TrustCommit(d.trust, d.late, r, n);
    if ok then Effect(d.(trust := trust), k.(committed := k.committed + {Deed(p, r, n)}), reply)
    else Effect(d.(trust := trust), k, {})
  }

  // ---------------------------------------------------------- the tie-break

  datatype Verdict = Ignore | Refuse | Enter(crossing: bool)

  // The device whose own outstanding request is smaller refuses; otherwise it will agree by itself.
  function TieBreak(outgoing: Option<RequestId>, pending: set<RequestId>, r: RequestId): Verdict {
    if r in pending || |pending| >= MAX_GRANTS then Ignore
    else if outgoing.Some? && outgoing.value < r then Refuse
    else Enter(outgoing.Some?)
  }

  /** The table behind Service.lanPair, which both halves of the protocol update under its lock. */
  class PairTable {
    var pending: set<RequestId>
    var outgoing: Option<RequestId>

    constructor ()
      ensures pending == {} && outgoing == None
    {
      pending, outgoing := {}, None;
    }

    // Only one request of one's own at a time; while it lasts, it decides over every crossing one.
    method Reserve(r: RequestId) returns (ok: bool)
      modifies this`outgoing
      ensures ok == old(outgoing).None?
      ensures outgoing == if ok then Some(r) else old(outgoing)
      ensures ok ==> forall q: RequestId | q !in pending && |pending| < MAX_GRANTS ::
                       TieBreak(outgoing, pending, q) == if r < q then Refuse else Enter(true)
    {
      if outgoing.Some? {
        return false;
      }
      outgoing := Some(r);
      return true;
    }

    method Admit(r: RequestId) returns (v: Verdict)
      modifies this
      ensures v == TieBreak(old(outgoing), old(pending), r) && outgoing == old(outgoing)
      ensures pending == if v.Enter? then old(pending) + {r} else old(pending)
      ensures |old(pending)| <= MAX_GRANTS ==> |pending| <= MAX_GRANTS
    {
      if r in pending || |pending| >= MAX_GRANTS {
        return Ignore;
      }
      if outgoing.Some? && outgoing.value < r {
        return Refuse;
      }
      pending := pending + {r};
      return Enter(outgoing.Some?);
    }
  }

  // -------------------------------------------------------------- the steps

  datatype Act =
    | Start(r: RequestId, n: Nonce)
    | HearRequest(r: RequestId, n: Nonce)
    | Decide(r: RequestId, accept: bool)
    | HearAccept(r: RequestId)
    | HearCommit(r: RequestId)
    | HearReady(r: RequestId)
    | HearConfirm(r: RequestId)
    | HearDone(r: RequestId)
    | Recover(r: RequestId)
    | HearQuery(r: RequestId, n: Nonce)
    | HearStatus(r: RequestId)
    | HearRecoveryConfirm(r: RequestId, n: Nonce)
    | HearRecovered(r: RequestId)
    | Abort(r: RequestId)
    | Crash
    | Expire(r: RequestId)
    | Forget
    | Block(generation: nat)
    | Allow

  datatype Step = Step(side: Side, act: Act)

  predicate Heard(w: World, p: Side, phase: Phase, r: RequestId, n: Nonce) {
    Frame(phase, Other(p), r, n) in w.net && r !in At(w, p).late
  }

  function StartEffect(d: Peer, k: Facts, p: Side, r: RequestId, n: Nonce): Effect {
    if r in k.issued || d.outgoing.Some? || Blocked(d.trust) then Effect(d, k, {})
    else Effect(d.(outgoing := Some(r), asking := d.asking[r := Talk(AwaitAccept, n, Offered(d.trust))]),
                k.(issued := k.issued[r := (p, n)]), {Frame(Request, p, r, n)})
  }

  function RequestEffect(d: Peer, k: Facts, p: Side, r: RequestId, n: Nonce): Effect {
    match if Blocked(d.trust) then Ignore else TieBreak(d.outgoing, d.answering.Keys, r)
    case Ignore => Effect(d, k, {})
    case Refuse => Effect(d, k.(outranked := k.outranked + {(p, r, d.outgoing.value)}), {Frame(Reject, p, r, n)})
    case Enter(crossing) =>
      Effect(d.(answering := d.answering[r := Talk(Undecided(crossing), n, Offered(d.trust))]), k, {})
  }

  // A crossing request is accepted without asking; any other as the user decides.
  function DecideEffect(d: Peer, k: Facts, p: Side, r: RequestId, accept: bool): Effect
    requires r in d.answering && d.answering[r].state.Undecided?
  {
    var Talk(state, n, generation) := d.answering[r];
    var gone := d.(answering := d.answering - {r});
    if r in d.late then Effect(gone, k, {})
    else if !accept && !state.crossing then Effect(gone, k, {Frame(Reject, p, r, n)})
    else
      var (begun, facts, ok) := Begun(d, k, p, r, n, generation);
      if !ok then Effect(begun.(answering := gone.answering), k, {})
      else Effect(begun.(answering := d.answering[r := Talk(AwaitCommit, n, generation)]),
                  facts.(consented := k.consented + {(p, r)}), {Frame(Accept, p, r, n)})
  }

  function AcceptEffect(d: Peer, k: Facts, p: Side, r: RequestId): Effect
    requires r in d.asking
  {
    var Talk(_, n, generation) := d.asking[r];
    var (begun, facts, ok) := Begun(d, k, p, r, n, generation);
    if !ok then Effect(DropAsking(begun, r), k, {})
    else Effect(begun.(asking := d.asking[r := Talk(AwaitReady, n, generation)]), facts, {Frame(Commit, p, r, n)})
  }

  function CommitEffect(d: Peer, k: Facts, p: Side, r: RequestId): Effect
    requires r in d.answering
  {
    var t := d.answering[r];
    Effect(d.(answering := d.answering[r := t.(state := AwaitConfirm)]), k, {Frame(Ready, p, r, t.nonce)})
  }

  function ReadyEffect(d: Peer, k: Facts, p: Side, r: RequestId): Effect
    requires r in d.asking
  {
    var t := d.asking[r];
    Effect(d.(asking := d.asking[r := t.(state := AwaitDone)]), k, {Frame(Confirm, p, r, t.nonce)})
  }

  function ConfirmEffect(d: Peer, k: Facts, p: Side, r: RequestId): Effect
    requires r in d.answering
  {
    var n := d.answering[r].nonce;
    CommitThen(d.(answering := d.answering - {r}), k, p, r, n, {Frame(Done, p, r, n)})
  }

  function DoneEffect(d: Peer, k: Facts, p: Side, r: RequestId): Effect
    requires r in d.asking
  {
    CommitThen(DropAsking(d, r), k, p, r, d.asking[r].nonce, {})
  }

  // recoverLANPair on a stored, unexpired grant for this peer, whoever asked for it first.
  function RecoverEffect(d: Peer, k: Facts, p: Side, r: RequestId): Effect {
    if r !in d.trust.grants || r in d.late then Effect(d, k, {})
    else
      var g := d.trust.grants[r];
      Effect(d.(recovering := d.recovering[r := Talk(AwaitStatus, g.nonce, g.generation)]), k,
             {Frame(Query, p, r, g.nonce)})
  }

  function QueryEffect(d: Peer, k: Facts, p: Side, r: RequestId, n: Nonce): Effect {
    match TrustStatus(d.trust, d.late, r, n)
    case Unknown => Effect(d, k, {})
    case IsDone => Effect(d, k, {Frame(Done, p, r, n)})
    case IsReady => Effect(d.(serving := d.serving + {(r, n)}), k, {Frame(Ready, p, r, n)})
  }

  function StatusEffect(d: Peer, k: Facts, p: Side, r: RequestId): Effect
    requires r in d.recovering
  {
    var t := d.recovering[r];
    Effect(d.(recovering := d.recovering[r := t.(state := AwaitRecovered)]), k, {Frame(Confirm, p, r, t.nonce)})
  }

  function RecoveryConfirmEffect(d: Peer, k: Facts, p: Side, r: RequestId, n: Nonce): Effect {
    CommitThen(d.(serving := d.serving - {(r, n)}), k, p, r, n, {Frame(Done, p, r, n)})
  }

  function RecoveredEffect(d: Peer, k: Facts, p: Side, r: RequestId): Effect
    requires r in d.recovering
  {
    var Talk(state, n, _) := d.recovering[r];
    var gone := d.(recovering := d.recovering - {r});
    if state == AwaitStatus && TrustStatus(d.trust, d.late, r, n) == IsDone then Effect(gone, k, {})
    else CommitThen(gone, k, p, r, n, {})
  }

  // Any exchange can fail at any point, and a crash forgets them all.
  function LocalChange(d: Peer, a: Act): Peer {
    match a
    case Abort(r) => DropAsking(d, r).(answering := d.answering - {r}, recovering := d.recovering - {r},
                                       serving := set q | q in d.serving && q.0 != r)
    case Crash => d.(outgoing := None, asking := map[], answering := map[], recovering := map[], serving := {})
    case Expire(r) => d.(late := d.late + {r})
    case Forget => d.(trust := TrustForget(d.trust))
    case Block(generation) => d.(trust := TrustBlock(d.trust, generation))
    case Allow => d.(trust := TrustAllow(d.trust))
    case _ => d
  }

  predicate IssuedBy(k: Facts, r: RequestId, p: Side) {
    r in k.issued && k.issued[r].0 == p
  }

  predicate Asks(d: Peer, r: RequestId, state: Asking) {
    r in d.asking && d.asking[r].state == state
  }

  predicate Answers(d: Peer, r: RequestId, state: Answering) {
    r in d.answering && d.answering[r].state == state
  }

  predicate Recovers(d: Peer, r: RequestId, state: Recovering) {
    r in d.recovering && d.recovering[r].state == state
  }

  predicate Enabled(w: World, p: Side, a: Act, recoverAccepted: bool) {
    var d := At(w, p);
    match a
    case HearRequest(r, n) => Heard(w, p, Request, r, n)
    case Decide(r, _) => r in d.answering && d.answering[r].state.Undecided?
    case HearAccept(r) => Asks(d, r, AwaitAccept) && Heard(w, p, Accept, r, d.asking[r].nonce)
    case HearCommit(r) => Answers(d, r, AwaitCommit) && Heard(w, p, Commit, r, d.answering[r].nonce)
    case HearReady(r) => Asks(d, r, AwaitReady) && Heard(w, p, Ready, r, d.asking[r].nonce)
    case HearConfirm(r) => Answers(d, r, AwaitConfirm) && Heard(w, p, Confirm, r, d.answering[r].nonce)
    case HearDone(r) => Asks(d, r, AwaitDone) && Heard(w, p, Done, r, d.asking[r].nonce)
    case Recover(r) => recoverAccepted || IssuedBy(w.facts, r, p)
    case HearQuery(r, n) => Heard(w, p, Query, r, n)
    case HearStatus(r) => Recovers(d, r, AwaitStatus) && Heard(w, p, Ready, r, d.recovering[r].nonce)
    case HearRecoveryConfirm(r, n) => (r, n) in d.serving && Heard(w, p, Confirm, r, n)
    case HearRecovered(r) => r in d.recovering && Heard(w, p, Done, r, d.recovering[r].nonce)
    case _ => true
  }

  function EffectOf(w: World, p: Side, a: Act, recoverAccepted: bool): Effect
    requires Enabled(w, p, a, recoverAccepted)
  {
    var (d, k) := (At(w, p), w.facts);
    match a
    case Start(r, n) => StartEffect(d, k, p, r, n)
    case HearRequest(r, n) => RequestEffect(d, k, p, r, n)
    case Decide(r, accept) => DecideEffect(d, k, p, r, accept)
    case HearAccept(r) => AcceptEffect(d, k, p, r)
    case HearCommit(r) => CommitEffect(d, k, p, r)
    case HearReady(r) => ReadyEffect(d, k, p, r)
    case HearConfirm(r) => ConfirmEffect(d, k, p, r)
    case HearDone(r) => DoneEffect(d, k, p, r)
    case Recover(r) => RecoverEffect(d, k, p, r)
    case HearQuery(r, n) => QueryEffect(d, k, p, r, n)
    case HearStatus(r) => StatusEffect(d, k, p, r)
    case HearRecoveryConfirm(r, n) => RecoveryConfirmEffect(d, k, p, r, n)
    case HearRecovered(r) => RecoveredEffect(d, k, p, r)
    case _ => Effect(LocalChange(d, a), k, {})
  }

  /** One step. With recoverAccepted false a device runs the recovery query only for requests it sent
      itself; the code makes no such distinction, so it corresponds to true. */
  function Next(w: World, s: Step, recoverAccepted: bool): World {
    if Enabled(w, s.side, s.act, recoverAccepted)
    then Apply(w, s.side, EffectOf(w, s.side, s.act, recoverAccepted)) else w
  }

  function RunFrom(w: World, steps: seq<Step>, recoverAccepted: bool): World
    decreases |steps|
  {
    if steps == [] then w else RunFrom(Next(w, steps[0], recoverAccepted), steps[1..], recoverAccepted)
  }

  function Run(steps: seq<Step>, recoverAccepted: bool): World {
    RunFrom(START, steps, recoverAccepted)
  }

  // --------------------------------------------------------------- the invariant

  predicate Genuine(k: Facts, r: RequestId, n: Nonce) {
    r in k.issued && k.issued[r].1 == n
  }

  predicate BothBegan(k: Facts, r: RequestId, n: Nonce) {
    Deed(A, r, n) in k.began && Deed(B, r, n) in k.began
  }

  ghost predicate FrameInv(k: Facts, f: Frame, own: bool) {
    var (r, n) := (f.request, f.nonce);
    && Genuine(k, r, n)
    && match f.phase
       case Request => IssuedBy(k, r, f.from)
       case Accept => IssuedBy(k, r, Other(f.from)) && Deed(f.from, r, n) in k.began
       case Reject => true
       case Commit => BothBegan(k, r, n)
       case Ready => Deed(f.from, r, n) in k.began
       case Confirm => BothBegan(k, r, n)
       case Done => Deed(f.from, r, n) in k.committed
       case Query => Deed(f.from, r, n) in k.began && (own ==> IssuedBy(k, r, f.from))
  }

  // A grant was agreed to by the other device before, or by this one.
  ghost predicate BeganInv(k: Facts) {
    forall g | g in k.began ::
      && Genuine(k, g.request, g.nonce)
      && (IssuedBy(k, g.request, g.who) ==> Deed(Other(g.who), g.request, g.nonce) in k.began)
      && (IssuedBy(k, g.request, Other(g.who)) ==> (g.who, g.request) in k.consented)
  }

  ghost predicate CommittedInv(k: Facts, own: bool) {
    forall g | g in k.committed ::
      && BothBegan(k, g.request, g.nonce)
      && (own && IssuedBy(k, g.request, g.who) ==> Deed(Other(g.who), g.request, g.nonce) in k.committed)
  }

  ghost predicate OutrankedInv(k: Facts) {
    forall t | t in k.outranked :: t.2 < t.1 && IssuedBy(k, t.1, Other(t.0)) && IssuedBy(k, t.2, t.0)
  }

  ghost predicate FactsInv(k: Facts, own: bool) {
    BeganInv(k) && CommittedInv(k, own) && OutrankedInv(k)
  }

  ghost predicate TrustInv(k: Facts, p: Side, t: Trust) {
    && (forall r | r in t.grants ::
          && Deed(p, r, t.grants[r].nonce) in k.began
          && (t.grants[r].done ==> Deed(p, r, t.grants[r].nonce) in k.committed && t.paired.Some?))
    && (t.paired.Some? ==> exists n :: Deed(p, t.paired.value.request, n) in k.committed)
  }

  ghost predicate AskingInv(k: Facts, p: Side, asking: map<RequestId, Talk<Asking>>, outgoing: Option<RequestId>) {
    && (forall r | r in asking :: IssuedBy(k, r, p) && Genuine(k, r, asking[r].nonce)
                                  && (!asking[r].state.AwaitAccept? ==> BothBegan(k, r, asking[r].nonce)))
    && (outgoing.Some? ==> IssuedBy(k, outgoing.value, p))
  }

  ghost predicate AnsweringInv(k: Facts, p: Side, answering: map<RequestId, Talk<Answering>>) {
    forall r | r in answering :: IssuedBy(k, r, Other(p)) && Genuine(k, r, answering[r].nonce)
                                 && (!answering[r].state.Undecided? ==> Deed(p, r, answering[r].nonce) in k.began)
  }

  ghost predicate RecoveringInv(k: Facts, p: Side, recovering: map<RequestId, Talk<Recovering>>, own: bool) {
    forall r | r in recovering ::
      && Deed(p, r, recovering[r].nonce) in k.began && (own ==> IssuedBy(k, r, p))
      && (recovering[r].state.AwaitRecovered? ==> BothBegan(k, r, recovering[r].nonce))
  }

  ghost predicate ServingInv(k: Facts, p: Side, serving: set<Pair>, own: bool) {
    forall q | q in serving :: BothBegan(k, q.0, q.1) && (own ==> IssuedBy(k, q.0, Other(p)))
  }

  ghost predicate DeviceInv(k: Facts, p: Side, d: Peer, own: bool) {
    && TrustInv(k, p, d.trust) && AskingInv(k, p, d.asking, d.outgoing) && AnsweringInv(k, p, d.answering)
    && RecoveringInv(k, p, d.recovering, own) && ServingInv(k, p, d.serving, own)
  }

  ghost predicate Inv(w: World, own: bool) {
    && FactsInv(w.facts, own)
    && (forall f | f in w.net :: FrameInv(w.facts, f, own))
    && DeviceInv(w.facts, A, w.a, own) && DeviceInv(w.facts, B, w.b, own)
  }

  // History only grows, so what is known of a frame or of a device stays known.
  ghost predicate Grows(k: Facts, k': Facts) {
    && (forall r | r in k.issued :: r in k'.issued && k'.issued[r] == k.issued[r])
    && k.began <= k'.began && k.committed <= k'.committed && k.consented <= k'.consented
  }

  lemma FrameStable(k: Facts, k': Facts, f: Frame, own: bool)
    requires FrameInv(k, f, own) && Grows(k, k')
    ensures FrameInv(k', f, own)
  {
  }

  lemma DeviceStable(k: Facts, k': Facts, p: Side, d: Peer, own: bool)
    requires DeviceInv(k, p, d, own) && BeganInv(k) && Grows(k, k')
    ensures DeviceInv(k', p, d, own)
  {
  }

  // What a step of device p owes the rest of the world.
  ghost predicate Sound(k: Facts, p: Side, e: Effect, own: bool) {
    && Grows(k, e.facts) && FactsInv(e.facts, own) && DeviceInv(e.facts, p, e.peer, own)
    && forall f | f in e.sent :: FrameInv(e.facts, f, own)
  }

  lemma ApplyKeepsInv(w: World, p: Side, e: Effect, own: bool)
    requires Inv(w, own) && Sound(w.facts, p, e, own)
    ensures Inv(Apply(w, p, e), own)
  {
    DeviceStable(w.facts, e.facts, Other(p), At(w, Other(p)), own);
    forall f | f in Apply(w, p, e).net
      ensures FrameInv(e.facts, f, own)
    {
      if f in w.net {
        FrameStable(w.facts, e.facts, f, own);
      }
    }
  }

  // ------------------------------------------------------- every step is sound

  lemma BegunTrustSound(d: Peer, k: Facts, p: Side, r: RequestId, n: Nonce, generation: nat)
    requires TrustInv(k, p, d.trust)
    ensures var (begun, facts, ok) := Begun(d, k, p, r, n, generation);
            && TrustInv(facts, p, begun.trust) && (!ok ==> begun == d)
  {
  }

  lemma BegunSound(d: Peer, k: Facts, p: Side, r: RequestId, n: Nonce, generation: nat, own: bool)
    requires FactsInv(k, own) && DeviceInv(k, p, d, own) && Genuine(k, r, n)
    requires IssuedBy(k, r, p) ==> Deed(Other(p), r, n) in k.began
    requires IssuedBy(k, r, Other(p)) ==> (p, r) in k.consented
    ensures var (begun, facts, ok) := Begun(d, k, p, r, n, generation);
            && Grows(k, facts) && FactsInv(facts, own) && DeviceInv(facts, p, begun, own)
            && (ok ==> Deed(p, r, n) in facts.began)
  {
    var (begun, facts, ok) := Begun(d, k, p, r, n, generation);
    if ok {
      DeviceStable(k, facts, p, d, own);
    }
  }

  lemma TrustCommitSound(k: Facts, p: Side, t: Trust, late: set<RequestId>, r: RequestId, n: Nonce)
    requires TrustInv(k, p, t)
    ensures var (t', ok) := TrustCommit(t, late, r, n);
            TrustInv(if ok then k.(committed := k.committed + {Deed(p, r, n)}) else k, p, t')
  {
    var (t', ok) := TrustCommit(t, late, r, n);
    var k' := if ok then k.(committed := k.committed + {Deed(p, r, n)}) else k;
    if t'.paired.Some? {
      var m :| Deed(p, t'.paired.value.request, m) in k'.committed;
    }
  }

  lemma CommittedSound(k: Facts, p: Side, r: RequestId, n: Nonce, own: bool)
    requires CommittedInv(k, own) && BothBegan(k, r, n)
    requires own && IssuedBy(k, r, p) ==> Deed(Other(p), r, n) in k.committed
    ensures CommittedInv(k.(committed := k.committed + {Deed(p, r, n)}), own)
  {
  }

  lemma CommitThenSound(d: Peer, k: Facts, p: Side, r: RequestId, n: Nonce, reply: set<Frame>, own: bool)
    requires FactsInv(k, own) && DeviceInv(k, p, d, own) && BothBegan(k, r, n)
    requires own && IssuedBy(k, r, p) ==> Deed(Other(p), r, n) in k.committed
    requires reply <= {Frame(Done, p, r, n)}
    ensures Sound(k, p, CommitThen(d, k, p, r, n, reply), own)
  {
    var (trust, ok) := TrustCommit(d.trust, d.late, r, n);
    TrustCommitSound(k, p, d.trust, d.late, r, n);
    if ok {
      var k' := k.(committed := k.committed + {Deed(p, r, n)});
      CommittedSound(k, p, r, n, own);
      DeviceStable(k, k', p, d, own);
      ReplySound(k', p, d.(trust := trust), r, n, reply, own);
    }
  }

  // A device that has just committed, and says so.
  lemma ReplySound(k: Facts, p: Side, d: Peer, r: RequestId, n: Nonce, reply: set<Frame>, own: bool)
    requires FactsInv(k, own) && DeviceInv(k, p, d, own) && Deed(p, r, n) in k.committed
    requires reply <= {Frame(Done, p, r, n)}
    ensures Sound(k, p, Effect(d, k, reply), own)
  {
    assert BothBegan(k, r, n);
    assert Deed(p, r, n) in k.began;
  }

  lemma StartSound(d: Peer, k: Facts, p: Side, r: RequestId, n: Nonce, own: bool)
    requires FactsInv(k, own) && DeviceInv(k, p, d, own)
    ensures Sound(k, p, StartEffect(d, k, p, r, n), own)
  {
    if r !in k.issued && d.outgoing.None? {
      var k' := k.(issued := k.issued[r := (p, n)]);
      IssuedGrows(k, p, r, n, own);
      DeviceStable(k, k', p, d, own);
      StartAsks(k', p, d, r, n);
    }
  }

  lemma IssuedGrows(k: Facts, p: Side, r: RequestId, n: Nonce, own: bool)
    requires FactsInv(k, own) && r !in k.issued
    ensures var k' := k.(issued := k.issued[r := (p, n)]); Grows(k, k') && FactsInv(k', own)
  {
  }

  lemma StartAsks(k: Facts, p: Side, d: Peer, r: RequestId, n: Nonce)
    requires AskingInv(k, p, d.asking, d.outgoing) && IssuedBy(k, r, p) && Genuine(k, r, n)
    ensures AskingInv(k, p, d.asking[r := Talk(AwaitAccept, n, Offered(d.trust))], Some(r))
  {
  }

  lemma RequestSound(d: Peer, k: Facts, p: Side, r: RequestId, n: Nonce, own: bool)
    requires FactsInv(k, own) && DeviceInv(k, p, d, own) && FrameInv(k, Frame(Request, Other(p), r, n), own)
    ensures Sound(k, p, RequestEffect(d, k, p, r, n), own)
  {
    match if Blocked(d.trust) then Ignore else TieBreak(d.outgoing, d.answering.Keys, r)
    case Ignore =>
    case Refuse => RefuseSound(d, k, p, r, n, own);
    case Enter(crossing) => EnterSound(d, k, p, r, n, crossing, own);
  }

  lemma RefuseSound(d: Peer, k: Facts, p: Side, r: RequestId, n: Nonce, own: bool)
    requires FactsInv(k, own) && DeviceInv(k, p, d, own) && FrameInv(k, Frame(Request, Other(p), r, n), own)
    requires !Blocked(d.trust) && TieBreak(d.outgoing, d.answering.Keys, r).Refuse?
    ensures Sound(k, p, RequestEffect(d, k, p, r, n), own)
  {
    DeviceStable(k, RequestEffect(d, k, p, r, n).facts, p, d, own);
  }

  lemma EnterSound(d: Peer, k: Facts, p: Side, r: RequestId, n: Nonce, crossing: bool, own: bool)
    requires FactsInv(k, own) && DeviceInv(k, p, d, own) && FrameInv(k, Frame(Request, Other(p), r, n), own)
    requires !Blocked(d.trust) && TieBreak(d.outgoing, d.answering.Keys, r) == Enter(crossing)
    ensures Sound(k, p, RequestEffect(d, k, p, r, n), own)
  {
  }

  lemma DroppedSound(d: Peer, k: Facts, p: Side, r: RequestId, sent: set<Frame>, own: bool)
    requires FactsInv(k, own) && DeviceInv(k, p, d, own)
    requires forall f | f in sent :: FrameInv(k, f, own)
    ensures Sound(k, p, Effect(d.(answering := d.answering - {r}), k, sent), own)
  {
  }

  lemma DecideSound(d: Peer, k: Facts, p: Side, r: RequestId, accept: bool, own: bool)
    requires FactsInv(k, own) && DeviceInv(k, p, d, own) && r in d.answering && d.answering[r].state.Undecided?
    ensures Sound(k, p, DecideEffect(d, k, p, r, accept), own)
  {
    var Talk(state, n, generation) := d.answering[r];
    if r !in d.late && (accept || state.crossing) && Begun(d, k, p, r, n, generation).2 {
      AgreeSound(d, k, p, r, n, generation, own);
    } else {
      BegunTrustSound(d, k, p, r, n, generation);
      DroppedSound(d, k, p, r, DecideEffect(d, k, p, r, accept).sent, own);
    }
  }

  lemma AgreeSound(d: Peer, k: Facts, p: Side, r: RequestId, n: Nonce, generation: nat, own: bool)
    requires FactsInv(k, own) && DeviceInv(k, p, d, own) && IssuedBy(k, r, Other(p)) && Genuine(k, r, n)
    requires Begun(d, k, p, r, n, generation).2
    ensures var (begun, facts, _) := Begun(d, k, p, r, n, generation);
            Sound(k, p, Effect(begun.(answering := d.answering[r := Talk(AwaitCommit, n, generation)]),
                               facts.(consented := k.consented + {(p, r)}), {Frame(Accept, p, r, n)}), own)
  {
    var k' := k.(consented := k.consented + {(p, r)});
    DeviceStable(k, k', p, d, own);
    BegunSound(d, k', p, r, n, generation, own);
  }

  lemma AcceptSound(d: Peer, k: Facts, p: Side, r: RequestId, own: bool)
    requires FactsInv(k, own) && DeviceInv(k, p, d, own) && r in d.asking
    requires FrameInv(k, Frame(Accept, Other(p), r, d.asking[r].nonce), own)
    ensures Sound(k, p, AcceptEffect(d, k, p, r), own)
  {
    BegunSound(d, k, p, r, d.asking[r].nonce, d.asking[r].generation, own);
  }

  lemma RecoverSound(d: Peer, k: Facts, p: Side, r: RequestId, own: bool)
    requires FactsInv(k, own) && DeviceInv(k, p, d, own) && (own ==> IssuedBy(k, r, p))
    ensures Sound(k, p, RecoverEffect(d, k, p, r), own)
  {
  }

  lemma CommittedDeed(k: Facts, p: Side, t: Trust, r: RequestId, n: Nonce, own: bool)
    requires FactsInv(k, own) && TrustInv(k, p, t) && Genuine(k, r, n)
    requires PairedBy(t, r)
    ensures Deed(p, r, n) in k.committed
  {
    var m :| Deed(p, r, m) in k.committed;
    assert Genuine(k, r, m);
  }

  lemma QuerySound(d: Peer, k: Facts, p: Side, r: RequestId, n: Nonce, own: bool)
    requires FactsInv(k, own) && DeviceInv(k, p, d, own) && FrameInv(k, Frame(Query, Other(p), r, n), own)
    ensures Sound(k, p, QueryEffect(d, k, p, r, n), own)
  {
    StatusIsTrue(d, k, p, r, n, own);
    if TrustStatus(d.trust, d.late, r, n) == IsReady {
      ServeSound(d, k, p, r, n, own);
    }
  }

  lemma StatusIsTrue(d: Peer, k: Facts, p: Side, r: RequestId, n: Nonce, own: bool)
    requires FactsInv(k, own) && TrustInv(k, p, d.trust) && Genuine(k, r, n)
    ensures TrustStatus(d.trust, d.late, r, n) == IsDone ==> Deed(p, r, n) in k.committed
    ensures TrustStatus(d.trust, d.late, r, n) == IsReady ==> Deed(p, r, n) in k.began
  {
    if PairedBy(d.trust, r) {
      CommittedDeed(k, p, d.trust, r, n, own);
    }
  }

  lemma ServeSound(d: Peer, k: Facts, p: Side, r: RequestId, n: Nonce, own: bool)
    requires FactsInv(k, own) && DeviceInv(k, p, d, own)
    requires FrameInv(k, Frame(Query, Other(p), r, n), own) && Deed(p, r, n) in k.began
    ensures Sound(k, p, Effect(d.(serving := d.serving + {(r, n)}), k, {Frame(Ready, p, r, n)}), own)
  {
  }

  lemma RecoveredSound(d: Peer, k: Facts, p: Side, r: RequestId, own: bool)
    requires FactsInv(k, own) && DeviceInv(k, p, d, own) && r in d.recovering
    requires FrameInv(k, Frame(Done, Other(p), r, d.recovering[r].nonce), own)
    ensures Sound(k, p, RecoveredEffect(d, k, p, r), own)
  {
    var n := d.recovering[r].nonce;
    assert BothBegan(k, r, n) by {
      assert Deed(Other(p), r, n) in k.committed;
    }
    CommitThenSound(d.(recovering := d.recovering - {r}), k, p, r, n, {}, own);
  }

  lemma LocalSound(d: Peer, k: Facts, p: Side, a: Act, own: bool)
    requires FactsInv(k, own) && DeviceInv(k, p, d, own)
    ensures Sound(k, p, Effect(LocalChange(d, a), k, {}), own)
  {
  }

  lemma CommitSound(d: Peer, k: Facts, p: Side, r: RequestId, own: bool)
    requires FactsInv(k, own) && DeviceInv(k, p, d, own) && Answers(d, r, AwaitCommit)
    requires FrameInv(k, Frame(Commit, Other(p), r, d.answering[r].nonce), own)
    ensures Sound(k, p, CommitEffect(d, k, p, r), own)
  {
  }

  lemma ReadySound(d: Peer, k: Facts, p: Side, r: RequestId, own: bool)
    requires FactsInv(k, own) && DeviceInv(k, p, d, own) && Asks(d, r, AwaitReady)
    requires FrameInv(k, Frame(Ready, Other(p), r, d.asking[r].nonce), own)
    ensures Sound(k, p, ReadyEffect(d, k, p, r), own)
  {
  }

  lemma ConfirmSound(d: Peer, k: Facts, p: Side, r: RequestId, own: bool)
    requires FactsInv(k, own) && DeviceInv(k, p, d, own) && Answers(d, r, AwaitConfirm)
    requires FrameInv(k, Frame(Confirm, Other(p), r, d.answering[r].nonce), own)
    ensures Sound(k, p, ConfirmEffect(d, k, p, r), own)
  {
    var n := d.answering[r].nonce;
    CommitThenSound(d.(answering := d.answering - {r}), k, p, r, n, {Frame(Done, p, r, n)}, own);
  }

  lemma DoneSound(d: Peer, k: Facts, p: Side, r: RequestId, own: bool)
    requires FactsInv(k, own) && DeviceInv(k, p, d, own) && Asks(d, r, AwaitDone)
    requires FrameInv(k, Frame(Done, Other(p), r, d.asking[r].nonce), own)
    ensures Sound(k, p, DoneEffect(d, k, p, r), own)
  {
    CommitThenSound(DropAsking(d, r), k, p, r, d.asking[r].nonce, {}, own);
  }

  lemma StatusSound(d: Peer, k: Facts, p: Side, r: RequestId, own: bool)
    requires FactsInv(k, own) && DeviceInv(k, p, d, own) && Recovers(d, r, AwaitStatus)
    requires FrameInv(k, Frame(Ready, Other(p), r, d.recovering[r].nonce), own)
    ensures Sound(k, p, StatusEffect(d, k, p, r), own)
  {
  }

  lemma RecoveryConfirmSound(d: Peer, k: Facts, p: Side, r: RequestId, n: Nonce, own: bool)
    requires FactsInv(k, own) && DeviceInv(k, p, d, own) && (r, n) in d.serving
    ensures Sound(k, p, RecoveryConfirmEffect(d, k, p, r, n), own)
  {
    CommitThenSound(d.(serving := d.serving - {(r, n)}), k, p, r, n, {Frame(Done, p, r, n)}, own);
  }

  lemma StepSound(w: World, p: Side, a: Act, own: bool)
    requires Inv(w, own) && Enabled(w, p, a, !own)
    ensures Sound(w.facts, p, EffectOf(w, p, a, !own), own)
  {
    var (d, k) := (At(w, p), w.facts);
    match a
    case Start(r, n) => StartSound(d, k, p, r, n, own);
    case HearRequest(r, n) => RequestSound(d, k, p, r, n, own);
    case Decide(r, accept) => DecideSound(d, k, p, r, accept, own);
    case HearAccept(r) => AcceptSound(d, k, p, r, own);
    case Recover(r) => RecoverSound(d, k, p, r, own);
    case HearQuery(r, n) => QuerySound(d, k, p, r, n, own);
    case HearRecovered(r) => RecoveredSound(d, k, p, r, own);
    case Abort(_) => LocalSound(d, k, p, a, own);
    case Crash => LocalSound(d, k, p, a, own);
    case Expire(_) => LocalSound(d, k, p, a, own);
    case Forget => LocalSound(d, k, p, a, own);
    case Block(_) => LocalSound(d, k, p, a, own);
    case Allow => LocalSound(d, k, p, a, own);
    case HearCommit(r) => CommitSound(d, k, p, r, own);
    case HearReady(r) => ReadySound(d, k, p, r, own);
    case HearConfirm(r) => ConfirmSound(d, k, p, r, own);
    case HearDone(r) => DoneSound(d, k, p, r, own);
    case HearStatus(r) => StatusSound(d, k, p, r, own);
    case HearRecoveryConfirm(r, n) => RecoveryConfirmSound(d, k, p, r, n, own);
  }

  lemma {:induction false} RunKeepsInv(w: World, steps: seq<Step>, own: bool)
    requires Inv(w, own)
    ensures Inv(RunFrom(w, steps, !own), own)
    decreases |steps|
  {
    if steps != [] {
      var s := steps[0];
      if Enabled(w, s.side, s.act, !own) {
        StepSound(w, s.side, s.act, own);
        ApplyKeepsInv(w, s.side, EffectOf(w, s.side, s.act, !own), own);
      }
      RunKeepsInv(Next(w, s, !own), steps[1..], own);
    }
  }

  // ----------------------------------------------------- generations and denials

  // Every stored grant and the pairing are of the generation after the last epoch, and neither lies beside a
  // denial, whose generation is an epoch that was used.
  ghost predicate EpochInv(t: Trust) {
    && (t.grants != map[] || t.paired.Some? ==> t.denied.None?)
    && (forall r | r in t.grants :: t.grants[r].generation == t.epoch + 1)
    && (t.paired.Some? ==> t.paired.value.generation == t.epoch + 1)
    && (t.denied.Some? ==> 0 < t.denied.value.generation <= t.epoch)
  }

  // No conversation was started with a later generation, or after a forgetting with one still to come.
  predicate WithinEpoch(t: Trust, generation: nat) {
    generation <= t.epoch + 1 && (Forgotten(t) ==> generation <= t.epoch)
  }

  ghost predicate GenerationInv(d: Peer) {
    && EpochInv(d.trust)
    && (forall r | r in d.asking :: WithinEpoch(d.trust, d.asking[r].generation))
    && (forall r | r in d.answering :: WithinEpoch(d.trust, d.answering[r].generation))
  }

  ghost predicate Dates(w: World) {
    GenerationInv(w.a) && GenerationInv(w.b)
  }

  lemma OfferIsWithinEpoch(t: Trust)
    requires EpochInv(t)
    ensures WithinEpoch(t, Offered(t)) && 0 < Offered(t)
  {
  }

  lemma BeginKeepsEpoch(t: Trust, late: set<RequestId>, r: RequestId, n: Nonce, generation: nat)
    requires EpochInv(t) && WithinEpoch(t, generation)
    ensures var (t', ok) := TrustBegin(t, late, false, r, n, generation);
            && EpochInv(t') && t'.denied == t.denied && t'.epoch == t.epoch && (ok ==> t.denied.None?)
  {
  }

  lemma CommitKeepsEpoch(t: Trust, late: set<RequestId>, r: RequestId, n: Nonce)
    requires EpochInv(t)
    ensures var (t', ok) := TrustCommit(t, late, r, n);
            && EpochInv(t') && t'.denied == t.denied && t'.epoch == t.epoch
            && (ok <==> r in t.grants && t.grants[r].nonce == n && r !in late)
  {
  }

  // A peer with a denial, and so without a grant or a pairing.
  ghost predicate Barred(t: Trust) {
    t.denied.Some? && t.grants == map[] && t.paired.None?
  }

  ghost predicate SameCommits(k: Facts, k': Facts, p: Side) {
    forall g | g in k'.committed && g.who == p :: g in k.committed
  }

  // What a step owes its own generations; while the peer is barred it stores and commits nothing.
  ghost predicate Dated(d: Peer, k: Facts, p: Side, e: Effect) {
    GenerationInv(e.peer) && (Barred(d.trust) ==> Barred(e.peer.trust) && SameCommits(k, e.facts, p))
  }

  lemma LocalDated(d: Peer, k: Facts, p: Side, a: Act)
    requires GenerationInv(d)
    ensures GenerationInv(LocalChange(d, a))
    ensures a != Allow ==> Dated(d, k, p, Effect(LocalChange(d, a), k, {}))
  {
  }

  lemma BegunDated(d: Peer, k: Facts, p: Side, r: RequestId, n: Nonce, generation: nat)
    requires GenerationInv(d) && WithinEpoch(d.trust, generation)
    ensures var (begun, facts, ok) := Begun(d, k, p, r, n, generation);
            && Dated(d, k, p, Effect(begun, facts, {})) && (ok ==> d.trust.denied.None?)
            && begun.trust.epoch == d.trust.epoch && begun.trust.denied == d.trust.denied
  {
    BeginKeepsEpoch(d.trust, d.late, r, n, generation);
  }

  lemma CommitThenDated(d: Peer, k: Facts, p: Side, r: RequestId, n: Nonce, reply: set<Frame>)
    requires GenerationInv(d)
    ensures Dated(d, k, p, CommitThen(d, k, p, r, n, reply))
  {
    CommitKeepsEpoch(d.trust, d.late, r, n);
  }

  lemma StartDated(d: Peer, k: Facts, p: Side, r: RequestId, n: Nonce)
    requires GenerationInv(d)
    ensures Dated(d, k, p, StartEffect(d, k, p, r, n))
  {
    OfferIsWithinEpoch(d.trust);
  }

  lemma RequestDated(d: Peer, k: Facts, p: Side, r: RequestId, n: Nonce)
    requires GenerationInv(d)
    ensures Dated(d, k, p, RequestEffect(d, k, p, r, n))
  {
    OfferIsWithinEpoch(d.trust);
  }

  lemma DecideDated(d: Peer, k: Facts, p: Side, r: RequestId, accept: bool)
    requires GenerationInv(d) && r in d.answering && d.answering[r].state.Undecided?
    ensures Dated(d, k, p, DecideEffect(d, k, p, r, accept))
  {
    BegunDated(d, k, p, r, d.answering[r].nonce, d.answering[r].generation);
  }

  lemma AcceptDated(d: Peer, k: Facts, p: Side, r: RequestId)
    requires GenerationInv(d) && r in d.asking
    ensures Dated(d, k, p, AcceptEffect(d, k, p, r))
  {
    BegunDated(d, k, p, r, d.asking[r].nonce, d.asking[r].generation);
  }

  // Any step that leaves the trust file, the history and every conversation's generation alone.
  lemma QuietDated(d: Peer, k: Facts, p: Side, e: Effect)
    requires GenerationInv(d) && e.peer.trust == d.trust && e.facts == k
    requires forall r | r in e.peer.asking :: r in d.asking && e.peer.asking[r].generation == d.asking[r].generation
    requires forall r | r in e.peer.answering ::
               r in d.answering && e.peer.answering[r].generation == d.answering[r].generation
    ensures Dated(d, k, p, e)
  {
  }

  lemma TalkDated(w: World, p: Side, a: Act)
    requires GenerationInv(At(w, p)) && Enabled(w, p, a, true)
    requires a.HearCommit? || a.HearReady? || a.Recover? || a.HearQuery? || a.HearStatus?
    ensures Dated(At(w, p), w.facts, p, EffectOf(w, p, a, true))
  {
    QuietDated(At(w, p), w.facts, p, EffectOf(w, p, a, true));
  }

  lemma CommitsDated(w: World, p: Side, a: Act)
    requires GenerationInv(At(w, p)) && Enabled(w, p, a, true)
    requires a.HearConfirm? || a.HearDone? || a.HearRecoveryConfirm? || a.HearRecovered?
    ensures Dated(At(w, p), w.facts, p, EffectOf(w, p, a, true))
  {
    var (d, k) := (At(w, p), w.facts);
    match a
    case HearConfirm(r) =>
      var n := d.answering[r].nonce;
      CommitThenDated(d.(answering := d.answering - {r}), k, p, r, n, {Frame(Done, p, r, n)});
    case HearDone(r) => CommitThenDated(DropAsking(d, r), k, p, r, d.asking[r].nonce, {});
    case HearRecoveryConfirm(r, n) =>
      CommitThenDated(d.(serving := d.serving - {(r, n)}), k, p, r, n, {Frame(Done, p, r, n)});
    case HearRecovered(r) =>
      CommitThenDated(d.(recovering := d.recovering - {r}), k, p, r, d.recovering[r].nonce, {});
  }

  lemma StepDated(w: World, p: Side, a: Act)
    requires GenerationInv(At(w, p)) && Enabled(w, p, a, true)
    ensures GenerationInv(EffectOf(w, p, a, true).peer)
    ensures a != Allow ==> Dated(At(w, p), w.facts, p, EffectOf(w, p, a, true))
  {
    var (d, k) := (At(w, p), w.facts);
    match a
    case Start(r, n) => StartDated(d, k, p, r, n);
    case HearRequest(r, n) => RequestDated(d, k, p, r, n);
    case Decide(r, accept) => DecideDated(d, k, p, r, accept);
    case HearAccept(r) => AcceptDated(d, k, p, r);
    case HearCommit(_) => TalkDated(w, p, a);
    case HearReady(_) => TalkDated(w, p, a);
    case Recover(_) => TalkDated(w, p, a);
    case HearQuery(_, _) => TalkDated(w, p, a);
    case HearStatus(_) => TalkDated(w, p, a);
    case HearConfirm(_) => CommitsDated(w, p, a);
    case HearDone(_) => CommitsDated(w, p, a);
    case HearRecoveryConfirm(_, _) => CommitsDated(w, p, a);
    case HearRecovered(_) => CommitsDated(w, p, a);
    case Abort(_) => LocalDated(d, k, p, a);
    case Crash => LocalDated(d, k, p, a);
    case Expire(_) => LocalDated(d, k, p, a);
    case Forget => LocalDated(d, k, p, a);
    case Block(_) => LocalDated(d, k, p, a);
    case Allow => LocalDated(d, k, p, a);
  }

  lemma {:induction false} RunKeepsGenerations(w: World, steps: seq<Step>)
    requires Dates(w)
    ensures GenerationInv(RunFrom(w, steps, true).a) && GenerationInv(RunFrom(w, steps, true).b)
    decreases |steps|
  {
    if steps != [] {
      if Enabled(w, steps[0].side, steps[0].act, true) {
        StepDated(w, steps[0].side, steps[0].act);
      }
      RunKeepsGenerations(Next(w, steps[0], true), steps[1..]);
    }
  }

  /** In every reachable state a device may store a new grant of the generation it offers exactly when it keeps
      no denial of the peer. After a forgetting it offers one generation less than it demands. */
  lemma {:induction false} OfferHoldsUnlessDenied(steps: seq<Step>, p: Side, r: RequestId, n: Nonce)
    requires var d := At(Run(steps, true), p); r !in d.trust.grants && r !in d.late && |d.trust.grants| < MAX_GRANTS
    ensures var d := At(Run(steps, true), p);
            && (TrustBegin(d.trust, d.late, false, r, n, Offered(d.trust)).1 <==> d.trust.denied.None?)
            && (Forgotten(d.trust) ==> Offered(d.trust) < Required(d.trust))
  {
    RunKeepsGenerations(START, steps);
    var d := At(Run(steps, true), p);
    SubsetSize(Unexpired(d.trust, d.late).Keys, d.trust.grants.Keys);
    assert |Unexpired(d.trust, d.late).Keys| == |Unexpired(d.trust, d.late)|;
    assert |d.trust.grants.Keys| == |d.trust.grants|;
  }

  lemma BarredStays(w: World, s: Step, p: Side)
    requires GenerationInv(At(w, s.side)) && Barred(At(w, p).trust) && s != Step(p, Allow)
    ensures Barred(At(Next(w, s, true), p).trust) && SameCommits(w.facts, Next(w, s, true).facts, p)
  {
    if Enabled(w, s.side, s.act, true) {
      if s.side == p {
        StepDated(w, p, s.act);
      } else {
        OtherCommits(w, s.side, s.act);
      }
    }
  }

  // A device never writes the other's history.
  lemma OtherCommits(w: World, p: Side, a: Act)
    requires Enabled(w, p, a, true)
    ensures SameCommits(w.facts, EffectOf(w, p, a, true).facts, Other(p))
  {
  }

  lemma OneStep(w: World, s: Step)
    ensures RunFrom(w, [s], true) == Next(w, s, true)
  {
    assert [s][1..] == [];
  }

  lemma {:induction false} BarredForLong(w: World, steps: seq<Step>, p: Side)
    requires Dates(w) && Barred(At(w, p).trust) && Step(p, Allow) !in steps
    ensures Barred(At(RunFrom(w, steps, true), p).trust) && SameCommits(w.facts, RunFrom(w, steps, true).facts, p)
    decreases |steps|
  {
    if steps != [] {
      BarredStays(w, steps[0], p);
      OneStep(w, steps[0]);
      RunKeepsGenerations(w, [steps[0]]);
      BarredForLong(Next(w, steps[0], true), steps[1..], p);
    }
  }

  lemma {:induction false} RunFromConcat(w: World, steps: seq<Step>, more: seq<Step>)
    ensures RunFrom(w, steps + more, true) == RunFrom(RunFrom(w, steps, true), more, true)
    decreases |steps|
  {
    if steps == [] {
      assert steps + more == more;
    } else {
      RunFromConcat(Next(w, steps[0], true), steps[1..], more);
      assert (steps + more)[1..] == steps[1..] + more;
    }
  }

  /** A forgotten peer cannot be paired again over the LAN: from the forgetting on, whatever both devices and
      their users do, the device stores no grant and commits nothing, until the denial is lifted from outside
      the protocol. A blocked peer, as intended, neither. */
  lemma {:induction false} ForgottenCannotPair(steps: seq<Step>, more: seq<Step>, p: Side)
    requires At(Run(steps, true), p).trust.denied.Some? && Step(p, Allow) !in more
    ensures var (before, after) := (Run(steps, true), Run(steps + more, true));
            && At(after, p).trust.grants == map[] && At(after, p).trust.paired.None?
            && SameCommits(before.facts, after.facts, p)
  {
    RunKeepsGenerations(START, steps);
    BarredForLong(Run(steps, true), more, p);
    RunFromConcat(START, steps, more);
  }

  // ------------------------------------------------------------------ agreement

  /** Whoever commits, under any loss, duplication, delay and crashes: both devices had stored the same
      grant, and the device that did not ask had consented to that very request. */
  lemma {:induction false} MutualConsent(steps: seq<Step>, recoverAccepted: bool, g: Deed)
    requires g in Run(steps, recoverAccepted).facts.committed
    ensures var k := Run(steps, recoverAccepted).facts;
            && BothBegan(k, g.request, g.nonce) && Genuine(k, g.request, g.nonce)
            && exists asker :: IssuedBy(k, g.request, asker) && (Other(asker), g.request) in k.consented
  {
    RunKeepsInv(START, steps, !recoverAccepted);
    var k := Run(steps, recoverAccepted).facts;
    var asker := k.issued[g.request].0;
    assert Deed(Other(asker), g.request, g.nonce) in k.began;
    assert IssuedBy(k, g.request, asker);
  }

  // The asking device commits only what the answering device has committed before.
  ghost predicate Agreed(k: Facts) {
    forall g | g in k.committed && IssuedBy(k, g.request, g.who) ::
      Deed(Other(g.who), g.request, g.nonce) in k.committed
  }

  function Two(w: World, s: Step, t: Step): World {
    Next(Next(w, s, true), t, true)
  }

  lemma TwoSteps(w: World, s: Step, t: Step, rest: seq<Step>)
    ensures RunFrom(w, [s, t] + rest, true) == RunFrom(Two(w, s, t), rest, true)
  {
    var all := [s, t] + rest;
    assert all[1..] == [t] + rest && all[1..][1..] == rest;
  }

  // The world a run is in after the asking device A has made request 1, and B has it on its screen.
  lemma Asked()
    ensures var w := Two(START, Step(A, Start(1, 7)), Step(B, HearRequest(1, 7)));
            && w.b == NEWCOMER.(answering := map[1 := Talk(Undecided(false), 7, 1)])
            && w.a == NEWCOMER.(outgoing := Some(1), asking := map[1 := Talk(AwaitAccept, 7, 1)])
            && w.net == {Frame(Request, A, 1, 7)} && w.facts == START.facts.(issued := map[1 := (A, 7)])
  {
  }

  // Both have stored the grant, and neither has committed.
  ghost predicate Granted(w: World) {
    && w.a.trust == w.b.trust == Trust(map[1 := Grant(7, 1, false)], None, None, 0) && w.a.late == w.b.late == {}
    && w.facts.committed == {} && w.facts.issued == map[1 := (A, 7)]
  }

  // B agrees, and A hears of it.
  lemma Agrees(w: World)
    requires w.b == NEWCOMER.(answering := map[1 := Talk(Undecided(false), 7, 1)])
    requires w.facts == START.facts.(issued := map[1 := (A, 7)])
    ensures var w' := Next(w, Step(B, Decide(1, true)), true);
            && w'.b.trust == Trust(map[1 := Grant(7, 1, false)], None, None, 0) && w'.b.late == {} && w'.a == w.a
            && Frame(Accept, B, 1, 7) in w'.net && w'.facts.committed == {} && w'.facts.issued == map[1 := (A, 7)]
  {
    assert Unexpired(NEWCOMER.trust, {}) == map[];
  }

  lemma HearsAgreement(w: World)
    requires w.a == NEWCOMER.(outgoing := Some(1), asking := map[1 := Talk(AwaitAccept, 7, 1)])
    requires w.b.trust == Trust(map[1 := Grant(7, 1, false)], None, None, 0) && w.b.late == {}
    requires Frame(Accept, B, 1, 7) in w.net && w.facts.committed == {} && w.facts.issued == map[1 := (A, 7)]
    ensures Granted(Next(w, Step(A, HearAccept(1)), true))
  {
    assert Unexpired(NEWCOMER.trust, {}) == map[];
    assert Begun(w.a, w.facts, A, 1, 7, 1).2;
  }

  lemma GrantedThenReversed(w: World)
    requires Granted(w)
    ensures var w' := Two(Two(w, Step(B, Recover(1)), Step(A, HearQuery(1, 7))),
                          Step(B, HearStatus(1)), Step(A, HearRecoveryConfirm(1, 7)));
            w'.facts.committed == {Deed(A, 1, 7)} && w'.facts.issued == map[1 := (A, 7)]
  {
    OpeningStep(w, B, 1, 7);
    ReversedTail(Two(w, Step(B, Recover(1)), Step(A, HearQuery(1, 7))));
  }

  lemma ReversedTail(w: World)
    requires Granted(w) && Frame(Ready, A, 1, 7) in w.net && (1, 7) in w.a.serving
    requires Recovers(w.b, 1, AwaitStatus) && w.b.recovering[1].nonce == 7
    ensures var w' := Two(w, Step(B, HearStatus(1)), Step(A, HearRecoveryConfirm(1, 7)));
            w'.facts.committed == {Deed(A, 1, 7)} && w'.facts.issued == map[1 := (A, 7)]
  {
    var w1 := Next(w, Step(B, HearStatus(1)), true);
    assert Frame(Confirm, B, 1, 7) in w1.net && w1.a == w.a && w1.facts == w.facts;
  }

  const REVERSED := [
    Step(A, Start(1, 7)), Step(B, HearRequest(1, 7)), Step(B, Decide(1, true)), Step(A, HearAccept(1)),
    Step(B, Recover(1)), Step(A, HearQuery(1, 7)), Step(B, HearStatus(1)), Step(A, HearRecoveryConfirm(1, 7))]

  lemma EightSteps(w: World, s: seq<Step>)
    requires |s| == 8
    ensures RunFrom(w, s, true) == Two(Two(Two(Two(w, s[0], s[1]), s[2], s[3]), s[4], s[5]), s[6], s[7])
  {
    var w1 := Two(w, s[0], s[1]);
    var w2 := Two(w1, s[2], s[3]);
    var w3 := Two(w2, s[4], s[5]);
    assert s == [s[0], s[1]] + s[2..] && s[2..] == [s[2], s[3]] + s[4..];
    assert s[4..] == [s[4], s[5]] + s[6..] && s[6..] == [s[6], s[7]] + [];
    TwoSteps(w, s[0], s[1], s[2..]);
    TwoSteps(w1, s[2], s[3], s[4..]);
    TwoSteps(w2, s[4], s[5], s[6..]);
    TwoSteps(w3, s[6], s[7], []);
  }

  // B's own recovery query for the request it accepted makes A, who asked, commit first.
  lemma AskerCommitsFirst()
    ensures !Agreed(Run(REVERSED, true).facts)
  {
    EightSteps(START, REVERSED);
    Asked();
    var w1 := Two(START, REVERSED[0], REVERSED[1]);
    Agrees(w1);
    HearsAgreement(Next(w1, REVERSED[2], true));
    GrantedThenReversed(Two(w1, REVERSED[2], REVERSED[3]));
    var k := Run(REVERSED, true).facts;
    assert Deed(A, 1, 7) in k.committed && IssuedBy(k, 1, A);
  }

  /** If devices queried only the requests they sent themselves, agreement would hold in every run; as the
      code queries the grants it accepted too, some run breaks it. */
  lemma {:induction false} AgreementNeedsOwnQueries(recoverAccepted: bool)
    ensures (forall steps: seq<Step> :: Agreed(Run(steps, recoverAccepted).facts)) <==> !recoverAccepted
  {
    if recoverAccepted {
      AskerCommitsFirst();
    } else {
      forall steps: seq<Step>
        ensures Agreed(Run(steps, false).facts)
      {
        RunKeepsInv(START, steps, true);
      }
    }
  }

  // The asking device confirms a query about its own request, whose grant it still holds, while the other
  // device has not committed.
  predicate Reverses(w: World, s: Step) {
    match s.act
    case HearRecoveryConfirm(r, n) =>
      && Enabled(w, s.side, s.act, true) && IssuedBy(w.facts, r, s.side)
      && r in At(w, s.side).trust.grants && At(w, s.side).trust.grants[r].nonce == n
      && Deed(Other(s.side), r, n) !in w.facts.committed
    case _ => false
  }

  lemma CommitThenAgrees(d: Peer, k: Facts, p: Side, r: RequestId, n: Nonce, reply: set<Frame>)
    requires Agreed(k)
    ensures IssuedBy(k, r, p) && CommitThen(d, k, p, r, n, reply).facts != k && Deed(p, r, n) !in k.committed ==>
              (Agreed(CommitThen(d, k, p, r, n, reply).facts) <==> Deed(Other(p), r, n) in k.committed)
    ensures !IssuedBy(k, r, p) || Deed(Other(p), r, n) in k.committed || Deed(p, r, n) in k.committed ==>
              Agreed(CommitThen(d, k, p, r, n, reply).facts)
  {
    var k' := CommitThen(d, k, p, r, n, reply).facts;
    if k' != k {
      assert Deed(p, r, n) in k'.committed;
      assert Deed(p, r, n) in k.committed ==> k'.committed == k.committed;
    }
  }

  // What every commit but one rests on: the other device is done, or this one did not ask.
  lemma OtherCommitsAgree(w: World, p: Side, a: Act)
    requires Inv(w, false) && Agreed(w.facts) && Enabled(w, p, a, true)
    requires a.HearConfirm? || a.HearDone? || a.HearRecovered?
    ensures Agreed(EffectOf(w, p, a, true).facts)
  {
    var (d, k) := (At(w, p), w.facts);
    match a
    case HearConfirm(r) =>
      var n := d.answering[r].nonce;
      CommitThenAgrees(d.(answering := d.answering - {r}), k, p, r, n, {Frame(Done, p, r, n)});
    case HearDone(r) =>
      assert FrameInv(k, Frame(Done, Other(p), r, d.asking[r].nonce), false);
      CommitThenAgrees(DropAsking(d, r), k, p, r, d.asking[r].nonce, {});
    case HearRecovered(r) =>
      assert FrameInv(k, Frame(Done, Other(p), r, d.recovering[r].nonce), false);
      CommitThenAgrees(d.(recovering := d.recovering - {r}), k, p, r, d.recovering[r].nonce, {});
  }

  lemma OtherStepsCommitNothing(w: World, p: Side, a: Act)
    requires Inv(w, false) && Agreed(w.facts) && Enabled(w, p, a, true)
    requires !a.HearConfirm? && !a.HearDone? && !a.HearRecovered? && !a.HearRecoveryConfirm?
    ensures Agreed(EffectOf(w, p, a, true).facts)
  {
    var k := EffectOf(w, p, a, true).facts;
    assert k.committed == w.facts.committed;
    forall g | g in k.committed && IssuedBy(k, g.request, g.who)
      ensures Deed(Other(g.who), g.request, g.nonce) in k.committed
    {
      assert BothBegan(w.facts, g.request, g.nonce) && Genuine(w.facts, g.request, g.nonce);
    }
  }

  lemma RecoveryConfirmAgrees(w: World, p: Side, r: RequestId, n: Nonce)
    requires Inv(w, false) && GenerationInv(At(w, p)) && Agreed(w.facts)
    requires Enabled(w, p, HearRecoveryConfirm(r, n), true)
    ensures Agreed(EffectOf(w, p, HearRecoveryConfirm(r, n), true).facts)
            <==> !Reverses(w, Step(p, HearRecoveryConfirm(r, n)))
  {
    var (d, k) := (At(w, p), w.facts);
    CommitKeepsEpoch(d.trust, d.late, r, n);
    CommitThenAgrees(d.(serving := d.serving - {(r, n)}), k, p, r, n, {Frame(Done, p, r, n)});
  }

  /** One step breaks agreement exactly if it is the asking device's answer to a query about its own request. */
  lemma AgreementStep(w: World, s: Step)
    requires Inv(w, false) && Dates(w) && Agreed(w.facts)
    ensures Agreed(Next(w, s, true).facts) <==> !Reverses(w, s)
  {
    var (p, a) := (s.side, s.act);
    if Enabled(w, p, a, true) {
      if a.HearRecoveryConfirm? {
        RecoveryConfirmAgrees(w, p, a.r, a.n);
      } else if a.HearConfirm? || a.HearDone? || a.HearRecovered? {
        OtherCommitsAgree(w, p, a);
      } else {
        OtherStepsCommitNothing(w, p, a);
      }
    }
  }

  ghost predicate AgreedThroughout(w: World, steps: seq<Step>)
    decreases |steps|
  {
    Agreed(w.facts) && (steps == [] || AgreedThroughout(Next(w, steps[0], true), steps[1..]))
  }

  ghost predicate NeverReverses(w: World, steps: seq<Step>)
    decreases |steps|
  {
    steps == [] || (!Reverses(w, steps[0]) && NeverReverses(Next(w, steps[0], true), steps[1..]))
  }

  lemma {:induction false} AgreementFrom(w: World, steps: seq<Step>)
    requires Inv(w, false) && Dates(w) && Agreed(w.facts)
    ensures AgreedThroughout(w, steps) <==> NeverReverses(w, steps)
    decreases |steps|
  {
    if steps != [] {
      AgreementStep(w, steps[0]);
      OneStep(w, steps[0]);
      RunKeepsInv(w, [steps[0]], false);
      RunKeepsGenerations(w, [steps[0]]);
      if Agreed(Next(w, steps[0], true).facts) {
        AgreementFrom(Next(w, steps[0], true), steps[1..]);
      }
    }
  }

  /** In a run of the code as it is, the asking device has committed only what the answering one committed
      before, at every moment, exactly if the asking device never answered a query about its own request while
      the other device had not committed it. */
  lemma {:induction false} AgreementIffNoReversal(steps: seq<Step>)
    ensures AgreedThroughout(START, steps) <==> NeverReverses(START, steps)
  {
    AgreementFrom(START, steps);
  }

  // ------------------------------------------------------------------- recovery

  predicate Holds(d: Peer, r: RequestId, n: Nonce) {
    r in d.trust.grants && d.trust.grants[r].nonce == n && r !in d.late
  }

  predicate Settled(w: World, r: RequestId, n: Nonce) {
    && Deed(A, r, n) in w.facts.committed && Deed(B, r, n) in w.facts.committed
    && w.a.trust.paired.Some? && w.b.trust.paired.Some?
  }

  // One undisturbed run of recoverLANPair on device p.
  function Recovery(w: World, p: Side, r: RequestId, n: Nonce): seq<Step> {
    var q := Other(p);
    var opening := [Step(p, Recover(r)), Step(q, HearQuery(r, n))];
    if TrustStatus(At(w, q).trust, At(w, q).late, r, n) == IsDone then opening + [Step(p, HearRecovered(r))]
    else opening + [Step(p, HearStatus(r)), Step(q, HearRecoveryConfirm(r, n)), Step(p, HearRecovered(r))]
  }

  lemma OpeningStep(w: World, p: Side, r: RequestId, n: Nonce)
    requires Holds(At(w, p), r, n) && Holds(At(w, Other(p)), r, n)
    ensures var q := Other(p);
            var w' := Next(Next(w, Step(p, Recover(r)), true), Step(q, HearQuery(r, n)), true);
            && At(w', p).trust == At(w, p).trust && At(w', p).late == At(w, p).late
            && At(w', q).trust == At(w, q).trust && At(w', q).late == At(w, q).late && w'.facts == w.facts
            && Recovers(At(w', p), r, AwaitStatus) && At(w', p).recovering[r].nonce == n
            && (TrustStatus(At(w, q).trust, At(w, q).late, r, n) == IsDone ==> Frame(Done, q, r, n) in w'.net)
            && (TrustStatus(At(w, q).trust, At(w, q).late, r, n) != IsDone ==>
                  Frame(Ready, q, r, n) in w'.net && (r, n) in At(w', q).serving)
  {
    var w1 := Next(w, Step(p, Recover(r)), true);
    assert At(w1, p).recovering[r] == Talk(AwaitStatus, n, At(w, p).trust.grants[r].generation);
    assert Frame(Query, p, r, n) in w1.net;
  }

  lemma ConfirmStep(w: World, p: Side, r: RequestId, n: Nonce)
    requires Inv(w, false) && Dates(w) && Holds(At(w, p), r, n) && Holds(At(w, Other(p)), r, n)
    requires Recovers(At(w, p), r, AwaitStatus) && At(w, p).recovering[r].nonce == n
    requires Frame(Ready, Other(p), r, n) in w.net && (r, n) in At(w, Other(p)).serving
    ensures var q := Other(p);
            var w' := Next(Next(w, Step(p, HearStatus(r)), true), Step(q, HearRecoveryConfirm(r, n)), true);
            && At(w', p).trust == At(w, p).trust && At(w', p).late == At(w, p).late
            && r in At(w', p).recovering && At(w', p).recovering[r].nonce == n
            && Frame(Done, q, r, n) in w'.net && Deed(q, r, n) in w'.facts.committed && At(w', q).trust.paired.Some?
  {
    var q := Other(p);
    StatusStep(w, p, r, n);
    ConfirmedStep(Next(w, Step(p, HearStatus(r)), true), q, r, n);
  }

  lemma StatusStep(w: World, p: Side, r: RequestId, n: Nonce)
    requires Recovers(At(w, p), r, AwaitStatus) && At(w, p).recovering[r].nonce == n && r !in At(w, p).late
    requires Frame(Ready, Other(p), r, n) in w.net
    ensures var w' := Next(w, Step(p, HearStatus(r)), true);
            && At(w', p).trust == At(w, p).trust && At(w', p).late == At(w, p).late && w'.facts == w.facts
            && r in At(w', p).recovering && At(w', p).recovering[r].nonce == n
            && Frame(Confirm, p, r, n) in w'.net && At(w', Other(p)) == At(w, Other(p))
  {
    assert Next(w, Step(p, HearStatus(r)), true) == Apply(w, p, StatusEffect(At(w, p), w.facts, p, r));
  }

  lemma ConfirmedStep(w: World, q: Side, r: RequestId, n: Nonce)
    requires TrustInv(w.facts, q, At(w, q).trust) && EpochInv(At(w, q).trust) && Holds(At(w, q), r, n)
    requires (r, n) in At(w, q).serving && Frame(Confirm, Other(q), r, n) in w.net
    ensures var w' := Next(w, Step(q, HearRecoveryConfirm(r, n)), true);
            && At(w', Other(q)) == At(w, Other(q)) && Frame(Done, q, r, n) in w'.net
            && Deed(q, r, n) in w'.facts.committed && At(w', q).trust.paired.Some?
  {
    ConfirmedCommit(At(w, q), w.facts, q, r, n);
    assert Next(w, Step(q, HearRecoveryConfirm(r, n)), true)
           == Apply(w, q, RecoveryConfirmEffect(At(w, q), w.facts, q, r, n));
  }

  lemma ConfirmedCommit(d: Peer, k: Facts, p: Side, r: RequestId, n: Nonce)
    requires TrustInv(k, p, d.trust) && EpochInv(d.trust) && Holds(d, r, n)
    ensures var e := RecoveryConfirmEffect(d, k, p, r, n);
            Deed(p, r, n) in e.facts.committed && e.peer.trust.paired.Some? && e.sent == {Frame(Done, p, r, n)}
  {
    CommitKeepsEpoch(d.trust, d.late, r, n);
  }

  lemma ClosingStep(w: World, p: Side, r: RequestId, n: Nonce)
    requires Inv(w, false) && Dates(w) && Holds(At(w, p), r, n)
    requires r in At(w, p).recovering && At(w, p).recovering[r].nonce == n && Frame(Done, Other(p), r, n) in w.net
    requires Deed(Other(p), r, n) in w.facts.committed && At(w, Other(p)).trust.paired.Some?
    ensures Settled(Next(w, Step(p, HearRecovered(r)), true), r, n)
  {
    Closes(At(w, p), w.facts, p, r, n);
    var e := RecoveredEffect(At(w, p), w.facts, p, r);
    assert Next(w, Step(p, HearRecovered(r)), true) == Apply(w, p, e);
  }

  lemma Closes(d: Peer, k: Facts, p: Side, r: RequestId, n: Nonce)
    requires FactsInv(k, false) && TrustInv(k, p, d.trust) && EpochInv(d.trust)
    requires Holds(d, r, n) && r in d.recovering && d.recovering[r].nonce == n
    ensures var e := RecoveredEffect(d, k, p, r);
            Deed(p, r, n) in e.facts.committed && e.peer.trust.paired.Some? && k.committed <= e.facts.committed
  {
    assert Deed(p, r, n) in k.began;
    StatusIsTrue(d, k, p, r, n, false);
    CommitKeepsEpoch(d.trust, d.late, r, n);
  }

  lemma TwoKeepInv(w: World, s: Step, t: Step)
    requires Inv(w, false) && Dates(w)
    ensures Inv(Two(w, s, t), false) && Dates(Two(w, s, t))
  {
    TwoSteps(w, s, t, []);
    RunKeepsInv(w, [s, t] + [], false);
    RunKeepsGenerations(w, [s, t] + []);
  }

  lemma DoneIsTrue(d: Peer, k: Facts, p: Side, r: RequestId, n: Nonce)
    requires FactsInv(k, false) && TrustInv(k, p, d.trust) && Holds(d, r, n)
    requires TrustStatus(d.trust, d.late, r, n) == IsDone
    ensures Deed(p, r, n) in k.committed
  {
    assert Deed(p, r, n) in k.began;
    if PairedBy(d.trust, r) {
      CommittedDeed(k, p, d.trust, r, n, false);
    }
  }

  // The answering device has already committed.
  lemma SettlesIfDone(w: World, p: Side, r: RequestId, n: Nonce)
    requires Inv(w, false) && Dates(w) && Holds(At(w, p), r, n) && Holds(At(w, Other(p)), r, n)
    requires TrustStatus(At(w, Other(p)).trust, At(w, Other(p)).late, r, n) == IsDone
    ensures Settled(RunFrom(w, Recovery(w, p, r, n), true), r, n)
  {
    var q := Other(p);
    var (s1, s2, s3) := (Step(p, Recover(r)), Step(q, HearQuery(r, n)), Step(p, HearRecovered(r)));
    DoneIsTrue(At(w, q), w.facts, q, r, n);
    OpeningStep(w, p, r, n);
    TwoKeepInv(w, s1, s2);
    ClosingStep(Two(w, s1, s2), p, r, n);
    TwoSteps(w, s1, s2, [s3]);
  }

  lemma SettlesIfReady(w: World, p: Side, r: RequestId, n: Nonce)
    requires Inv(w, false) && Dates(w) && Holds(At(w, p), r, n) && Holds(At(w, Other(p)), r, n)
    requires TrustStatus(At(w, Other(p)).trust, At(w, Other(p)).late, r, n) != IsDone
    ensures Settled(RunFrom(w, Recovery(w, p, r, n), true), r, n)
  {
    var q := Other(p);
    var (s1, s2) := (Step(p, Recover(r)), Step(q, HearQuery(r, n)));
    var rest := [Step(p, HearStatus(r)), Step(q, HearRecoveryConfirm(r, n)), Step(p, HearRecovered(r))];
    OpeningStep(w, p, r, n);
    TwoKeepInv(w, s1, s2);
    SettlesOnceServed(Two(w, s1, s2), p, r, n);
    TwoSteps(w, s1, s2, rest);
    assert Recovery(w, p, r, n) == [s1, s2] + rest;
  }

  lemma SettlesOnceServed(w: World, p: Side, r: RequestId, n: Nonce)
    requires Inv(w, false) && Dates(w) && Holds(At(w, p), r, n) && Holds(At(w, Other(p)), r, n)
    requires Recovers(At(w, p), r, AwaitStatus) && At(w, p).recovering[r].nonce == n
    requires Frame(Ready, Other(p), r, n) in w.net && (r, n) in At(w, Other(p)).serving
    ensures var rest := [Step(p, HearStatus(r)), Step(Other(p), HearRecoveryConfirm(r, n)), Step(p, HearRecovered(r))];
            Settled(RunFrom(w, rest, true), r, n)
  {
    var (s3, s4, s5) := (Step(p, HearStatus(r)), Step(Other(p), HearRecoveryConfirm(r, n)), Step(p, HearRecovered(r)));
    ConfirmStep(w, p, r, n);
    TwoKeepInv(w, s3, s4);
    ClosingStep(Two(w, s3, s4), p, r, n);
    TwoSteps(w, s3, s4, [s5]);
    assert [s3, s4] + [s5] == [s3, s4, s5];
  }

  /** From any reachable state in which both devices hold the unexpired grant, whichever of them asked and
      however far each has got, one undisturbed recovery leaves both committed and both paired. */
  lemma {:induction false} RecoverySettles(steps: seq<Step>, p: Side, r: RequestId, n: Nonce)
    requires var w := Run(steps, true); Holds(At(w, p), r, n) && Holds(At(w, Other(p)), r, n)
    ensures var w := Run(steps, true); Settled(RunFrom(w, Recovery(w, p, r, n), true), r, n)
  {
    RunKeepsInv(START, steps, false);
    RunKeepsGenerations(START, steps);
    var w, q := Run(steps, true), Other(p);
    if TrustStatus(At(w, q).trust, At(w, q).late, r, n) == IsDone {
      SettlesIfDone(w, p, r, n);
    } else {
      SettlesIfReady(w, p, r, n);
    }
  }

  // ------------------------------------------------------------------- crossing

  predicate Hears(w: World, p: Side, r: RequestId, n: Nonce) {
    && Heard(w, p, Request, r, n) && r !in At(w, p).answering && |At(w, p).answering| < MAX_GRANTS
    && !Blocked(At(w, p).trust)
  }

  // Neither hearing disturbs the other, so their order does not matter.
  lemma CrossingHeard(w: World, p: Side, small: RequestId, m: Nonce, large: RequestId, n: Nonce)
    requires small < large && At(w, p).outgoing == Some(small) && At(w, Other(p)).outgoing == Some(large)
    requires Hears(w, p, large, n) && Hears(w, Other(p), small, m)
    ensures var (q, d) := (Other(p), At(w, Other(p)));
            var k := w.facts.(outranked := w.facts.outranked + {(p, large, small)});
            var entered := d.(answering := d.answering[small := Talk(Undecided(true), m, Offered(d.trust))]);
            var refused := Effect(At(w, p), k, {Frame(Reject, p, large, n)});
            && Next(w, Step(p, HearRequest(large, n)), true) == Apply(w, p, refused)
            && Next(w, Step(q, HearRequest(small, m)), true) == Apply(w, q, Effect(entered, w.facts, {}))
  {
  }

  lemma CrossingCommutes(w: World, p: Side, small: RequestId, m: Nonce, large: RequestId, n: Nonce)
    requires small < large && At(w, p).outgoing == Some(small) && At(w, Other(p)).outgoing == Some(large)
    requires Hears(w, p, large, n) && Hears(w, Other(p), small, m)
    ensures var (q, d) := (Other(p), At(w, Other(p)));
            var w' := Two(w, Step(p, HearRequest(large, n)), Step(q, HearRequest(small, m)));
            && w' == Two(w, Step(q, HearRequest(small, m)), Step(p, HearRequest(large, n)))
            && w'.net == w.net + {Frame(Reject, p, large, n)} && At(w', p) == At(w, p)
            && At(w', q) == d.(answering := d.answering[small := Talk(Undecided(true), m, Offered(d.trust))])
  {
    var q := Other(p);
    var (d, k) := (At(w, q), w.facts.(outranked := w.facts.outranked + {(p, large, small)}));
    var entered := d.(answering := d.answering[small := Talk(Undecided(true), m, Offered(d.trust))]);
    var reject := {Frame(Reject, p, large, n)};
    CrossingHeard(w, p, small, m, large, n);
    var w1 := Next(w, Step(p, HearRequest(large, n)), true);
    var w2 := Next(w, Step(q, HearRequest(small, m)), true);
    SecondEnters(w1, q, small, m, entered);
    SecondRefuses(w2, p, small, large, n, k);
    ApplyCommutes(w, p, At(w, p), k, reject, entered);
  }

  lemma SecondEnters(w: World, q: Side, small: RequestId, m: Nonce, entered: Peer)
    requires Hears(w, q, small, m) && At(w, q).outgoing.Some? && small <= At(w, q).outgoing.value
    requires var d := At(w, q);
             entered == d.(answering := d.answering[small := Talk(Undecided(true), m, Offered(d.trust))])
    ensures Next(w, Step(q, HearRequest(small, m)), true) == Apply(w, q, Effect(entered, w.facts, {}))
  {
  }

  lemma SecondRefuses(w: World, p: Side, small: RequestId, large: RequestId, n: Nonce, k: Facts)
    requires Hears(w, p, large, n) && At(w, p).outgoing == Some(small) && small < large
    requires k == w.facts.(outranked := w.facts.outranked + {(p, large, small)})
    ensures Next(w, Step(p, HearRequest(large, n)), true)
            == Apply(w, p, Effect(At(w, p), k, {Frame(Reject, p, large, n)}))
  {
  }

  // Steps of the two devices touch different peers; only the first here sends or is remembered.
  lemma ApplyCommutes(w: World, p: Side, peer: Peer, k: Facts, sent: set<Frame>, other: Peer)
    ensures Apply(Apply(w, p, Effect(peer, k, sent)), Other(p), Effect(other, k, {}))
            == Apply(Apply(w, Other(p), Effect(other, w.facts, {})), p, Effect(peer, k, sent))
    ensures Apply(Apply(w, p, Effect(peer, k, sent)), Other(p), Effect(other, k, {})).net == w.net + sent
  {
    assert w.net + sent + {} == w.net + {} + sent == w.net + sent;
  }

  /** Two requests that cross: whichever is heard first, the device with the smaller own request refuses the
      larger one and the other device answers the smaller one, and can no longer refuse it whatever its user
      chooses. */
  lemma CrossingRequests(w: World, p: Side, small: RequestId, m: Nonce, large: RequestId, n: Nonce, accept: bool)
    requires small < large && At(w, p).outgoing == Some(small) && At(w, Other(p)).outgoing == Some(large)
    requires Hears(w, p, large, n) && Hears(w, Other(p), small, m)
    requires Frame(Reject, Other(p), small, m) !in w.net
    ensures var q := Other(p);
            var refuses, enters := Step(p, HearRequest(large, n)), Step(q, HearRequest(small, m));
            var w' := Two(w, refuses, enters);
            && w' == Two(w, enters, refuses)
            && Frame(Reject, p, large, n) in w'.net && At(w', p).answering == At(w, p).answering
            && Frame(Reject, q, small, m) !in w'.net && Answers(At(w', q), small, Undecided(true))
            && Frame(Reject, q, small, m) !in Next(w', Step(q, Decide(small, accept)), true).net
  {
    var q := Other(p);
    CrossingCommutes(w, p, small, m, large, n);
    LastWord(Two(w, Step(p, HearRequest(large, n)), Step(q, HearRequest(small, m))), q, small, accept);
  }

  lemma LastWord(w: World, q: Side, r: RequestId, accept: bool)
    requires Answers(At(w, q), r, Undecided(true))
    ensures forall f | f in Next(w, Step(q, Decide(r, accept)), true).net && f !in w.net :: f.phase == Accept
  {
  }

  /** Over every run the tie-break refuses only the larger of two requests, and never both of them. */
  lemma {:induction false} NeverBothRefused(steps: seq<Step>, recoverAccepted: bool, p: Side, theirs: RequestId,
                                            mine: RequestId)
    requires (p, theirs, mine) in Run(steps, recoverAccepted).facts.outranked
    ensures var k := Run(steps, recoverAccepted).facts;
            && mine < theirs && IssuedBy(k, theirs, Other(p)) && IssuedBy(k, mine, p)
            && (Other(p), mine, theirs) !in k.outranked
  {
    RunKeepsInv(START, steps, !recoverAccepted);
  }
}
