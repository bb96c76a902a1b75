/**
 * The two-way watch between a user's connections and the user's grain (reregister.go,
 * connection.go, internal/grain/user/user.go): any number of connections, activations that die at
 * any time, RegisterConnection calls that fail before or after taking effect, death notices that
 * arrive late or more than once, and links that break between two live ends, so that each of them is
 * told that the other is gone.
 *
 * An activation's PID is its index; only the newest can be alive. A connection blocked in a
 * RegisterConnection call handles nothing else until the call returns.
 */
module Watch {
  import opened Options
  import opened Connection

  datatype Activation = Activation(alive: bool, conns: set<nat>)

  datatype Purpose = Authenticate | AfterDeath(who: nat) | AfterTick

  /** A call under way, the activation that has handled it, once one has, and whether a broken link took its reply. */
  datatype Call = Call(purpose: Purpose, handledBy: Option<nat>, cut: bool)

  /**
   * `ticks` counts retry timers running and ticks undelivered; `cycle` the register calls made since
   * the repair cycle began.
   */
  datatype Peer = Peer(conn: Conn, ticks: nat, call: Option<Call>, cycle: nat)

  /**
   * `notices` are the undelivered Terminated messages to connections: (connection, PID of the grain
   * activation). `evictions` are those to activations about connections behind a broken link.
   */
  datatype World = World(
    acts: seq<Activation>,
    peers: map<nat, Peer>,
    notices: multiset<(nat, nat)>,
    evictions: multiset<(nat, nat)>)

  const EMPTY := World([], map[], multiset{}, multiset{})

  datatype Action =
    | Connect(c: nat)
    | Begin(c: nat, purpose: Purpose)        // a handler starts a RegisterConnection call
    | GrainHandles(c: nat)                   // the grain handles the outstanding call
    | GrainHandlesLate(c: nat)               // ... or one its caller has given up on
    | Return(c: nat, lost: bool, skew: bool) // the call returns; skew: the reply names no PID
    | DropNotice(c: nat, who: nat)           // Terminated is delivered and ignored
    | DropTick(c: nat)                       // a retry tick is delivered and ignored
    | Deliver(c: nat, m: Message)            // any other message
    | Die                                    // the live activation dies
    | Repeat(c: nat, who: nat)               // a second notice of the same death
    | Evict(c: nat, who: nat)                // the grain hears that a connection stopped
    | LinkDown(c: nat)                       // the link between c and the live activation breaks
    | EvictLive(c: nat, who: nat)            // the grain hears of c, which may have registered again

  predicate Alive(w: World, a: nat) {
    a < |w.acts| && w.acts[a].alive
  }

  predicate HasLive(w: World) {
    w.acts != [] && w.acts[|w.acts| - 1].alive
  }

  predicate Free(w: World, c: nat) {
    c in w.peers && w.peers[c].call.None?
  }

  predicate WouldRepair(p: Peer, who: nat) {
    p.conn.phase.PostAuth? && p.conn.pid == Some(who) && !p.conn.retryArmed
  }

  predicate Enabled(w: World, a: Action) {
    match a
    case Connect(c) => c !in w.peers
    case Begin(c, purpose) =>
      && Free(w, c)
      && (match purpose
          case Authenticate => w.peers[c].conn.phase.PreAuth?
          case AfterDeath(who) => w.notices[(c, who)] > 0 && WouldRepair(w.peers[c], who)
          case AfterTick => w.peers[c].ticks > 0 && w.peers[c].conn.phase.PostAuth?)
    case GrainHandles(c) =>
      c in w.peers && w.peers[c].call.Some? && w.peers[c].call.value.handledBy.None?
    case GrainHandlesLate(c) => c in w.peers
    case Return(c, _, _) => c in w.peers && w.peers[c].call.Some?
    case DropNotice(c, who) => Free(w, c) && w.notices[(c, who)] > 0 && !WouldRepair(w.peers[c], who)
    case DropTick(c) => Free(w, c) && w.peers[c].ticks > 0 && !w.peers[c].conn.phase.PostAuth?
    case Deliver(c, m) =>
      Free(w, c) && !m.Terminated? && !m.ReregisterRetry? && !(m.InboundAuth? && m.auth.Accepted?)
    case Die => HasLive(w)
    case Repeat(c, who) => c in w.peers && who in w.peers[c].conn.watched && who < |w.acts| && !Alive(w, who)
    case Evict(c, who) => c in w.peers && w.peers[c].conn.phase.Stopped? && who < |w.acts|
    case LinkDown(c) => c in w.peers && HasLive(w)
    case EvictLive(c, who) => w.evictions[(c, who)] > 0 && who < |w.acts|
  }

  function SetPeer(w: World, c: nat, p: Peer): World {
    w.(peers := w.peers[c := p])
  }

  /** RegisterConnection at the grain: the live activation, or a fresh one, records the connection. */
  function Registering(acts: seq<Activation>, c: nat): seq<Activation> {
    if acts != [] && acts[|acts| - 1].alive
    then acts[|acts| - 1 := acts[|acts| - 1].(conns := acts[|acts| - 1].conns + {c})]
    else acts + [Activation(true, {c})]
  }

  function Result(call: Call, lost: bool, skew: bool): CallResult {
    if lost || call.cut || call.handledBy.None? then CallFailed
    else if skew then Registered(None)
    else Registered(call.handledBy)
  }

  function MessageOf(call: Call, r: CallResult): Message {
    match call.purpose
    case Authenticate => InboundAuth(if r.CallFailed? then Rejected else Accepted(r.pid))
    case AfterDeath(who) => Terminated(who, r)
    case AfterTick => ReregisterRetry(r)
  }

  function Returned(p: Peer, r: CallResult): Peer
    requires p.call.Some?
  {
    var conn := Receive(p.conn, MessageOf(p.call.value, r));
    var armed := conn.retryArmed && r.CallFailed? && !p.call.value.purpose.Authenticate?;
    Peer(conn, if armed then p.ticks + 1 else p.ticks, None,
         if r.CallFailed? then p.cycle else 0)
  }

  function Next(w: World, a: Action): World
    requires Enabled(w, a)
  {
    match a
    case Connect(c) => SetPeer(w, c, Peer(FRESH, 0, None, 0))
    case Begin(c, purpose) =>
      var p := w.peers[c];
      var call := Some(Call(purpose, None, false));
      (match purpose
       case Authenticate => SetPeer(w, c, p.(call := call))
       case AfterDeath(who) =>
         SetPeer(w, c, p.(call := call, cycle := 1)).(notices := w.notices - multiset{(c, who)})
       case AfterTick => SetPeer(w, c, p.(call := call, ticks := p.ticks - 1, cycle := p.cycle + 1)))
    case GrainHandles(c) =>
      var acts := Registering(w.acts, c);
      SetPeer(w, c, w.peers[c].(call := Some(w.peers[c].call.value.(handledBy := Some(|acts| - 1))))).(acts := acts)
    case GrainHandlesLate(c) => w.(acts := Registering(w.acts, c))
    case Return(c, lost, skew) =>
      var p := w.peers[c];
      var r := Result(p.call.value, lost, skew);
      // a watch on a dead PID is answered at once
      var dead := r.Registered? && r.pid.Some? && !Alive(w, r.pid.value);
      SetPeer(w, c, Returned(p, r)).(notices := if dead then w.notices + multiset{(c, r.pid.value)} else w.notices)
    case DropNotice(c, who) =>
      SetPeer(w, c, w.peers[c].(conn := Receive(w.peers[c].conn, Terminated(who, CallFailed))))
      .(notices := w.notices - multiset{(c, who)})
    case DropTick(c) =>
      var conn := Receive(w.peers[c].conn, ReregisterRetry(CallFailed));
      SetPeer(w, c, w.peers[c].(conn := conn, ticks := w.peers[c].ticks - 1))
    case Deliver(c, m) => SetPeer(w, c, w.peers[c].(conn := Receive(w.peers[c].conn, m)))
    case Die =>
      var a := |w.acts| - 1;
      w.(acts := w.acts[a := w.acts[a].(alive := false)],
         notices := w.notices + multiset(set c | c in w.peers && a in w.peers[c].conn.watched :: (c, a)))
    case Repeat(c, who) => w.(notices := w.notices + multiset{(c, who)})
    case Evict(c, who) => w.(acts := Without(w.acts, who, c))
    case LinkDown(c) =>
      var p, a := w.peers[c], |w.acts| - 1;
      SetPeer(w, c, Unplugged(p))
      .(notices := if a in p.conn.watched then w.notices + multiset{(c, a)} else w.notices,
        evictions := if c in w.acts[a].conns then w.evictions + multiset{(c, a)} else w.evictions)
    case EvictLive(c, who) =>
      w.(acts := Without(w.acts, who, c), evictions := w.evictions - multiset{(c, who)})
  }

  function Without(acts: seq<Activation>, who: nat, c: nat): seq<Activation>
    requires who < |acts|
  {
    acts[who := acts[who].(conns := acts[who].conns - {c})]
  }

  /** A reply still on its way over the link is lost with it. */
  function Unplugged(p: Peer): Peer {
    if p.call.Some? && p.call.value.handledBy.Some? then p.(call := Some(p.call.value.(cut := true))) else p
  }

  predicate CanRun(w: World, acts: seq<Action>)
    decreases |acts|
  {
    acts == [] || (Enabled(w, acts[0]) && CanRun(Next(w, acts[0]), acts[1..]))
  }

  function Run(w: World, acts: seq<Action>): World
    requires CanRun(w, acts)
    decreases |acts|
  {
    if acts == [] then w else Run(Next(w, acts[0]), acts[1..])
  }

  // ---- The invariant ----

  /** The retry bookkeeping of one connection. */
  predicate BudgetOk(p: Peer) {
    match p.conn.phase
    case PreAuth =>
      && p.conn.attempts == 0 && !p.conn.retryArmed && p.ticks == 0 && p.cycle == 0 && p.conn.pid.None?
      && (p.call.Some? ==> p.call.value.purpose.Authenticate?)
    case PostAuth =>
      && p.conn.attempts < REREGISTER_MAX_ATTEMPTS && (p.conn.retryArmed <==> p.conn.attempts > 0)
      && (match p.call
          case None => p.ticks == (if p.conn.retryArmed then 1 else 0) && p.cycle == p.conn.attempts
          case Some(Call(Authenticate, _, _)) => false
          case Some(Call(AfterDeath(who), _, _)) =>
            !p.conn.retryArmed && p.ticks == 0 && p.cycle == 1 && p.conn.pid == Some(who)
          case Some(Call(AfterTick, _, _)) =>
            p.conn.retryArmed && p.ticks == 0 && p.cycle == p.conn.attempts + 1)
    case _ => p.call.None? && p.cycle <= REREGISTER_MAX_ATTEMPTS
  }

  ghost predicate BudgetInv(w: World) {
    forall c :: c in w.peers ==> BudgetOk(w.peers[c])
  }

  predicate IsRegistered(w: World, c: nat, a: nat) {
    a < |w.acts| && c in w.acts[a].conns
  }

  /** c is in the map of a, and no eviction of it is on its way. */
  predicate Secure(w: World, c: nat, a: nat) {
    IsRegistered(w, c, a) && w.evictions[(c, a)] == 0
  }

  predicate PeerOk(w: World, c: nat)
    requires c in w.peers
  {
    var p := w.peers[c];
    && (p.call.Some? ==>
          match p.call.value.handledBy
          case None => !p.call.value.cut
          case Some(a) =>
            a < |w.acts| && (p.call.value.cut || (Alive(w, a) ==> Secure(w, c, a) || w.notices[(c, a)] > 0)))
    && (p.conn.phase.PostAuth? && p.conn.pid.Some? ==>
          var a := p.conn.pid.value;
          && a < |w.acts| && a in p.conn.watched
          && ((Alive(w, a) && Secure(w, c, a)) || w.notices[(c, a)] > 0 || p.conn.retryArmed || p.call.Some?))
  }

  ghost predicate Inv(w: World) {
    && BudgetInv(w)
    && (forall c :: c in w.peers ==> PeerOk(w, c))
    && (forall a :: 0 <= a < |w.acts| && w.acts[a].alive ==> a == |w.acts| - 1)
    && (forall c, a :: |w.acts| <= a ==> w.evictions[(c, a)] == 0)
  }

  /** What a step that concerns connection c may do to the rest of the world. */
  ghost predicate Concerns(w: World, w': World, c: nat) {
    && w'.peers.Keys == w.peers.Keys + {c} && |w.acts| <= |w'.acts|
    && (forall d :: d in w.peers && d != c ==>
          w'.peers[d] == w.peers[d] && forall a :: w'.notices[(d, a)] == w.notices[(d, a)])
    && (forall d, a :: d != c ==> w'.evictions[(d, a)] == w.evictions[(d, a)])
    && (forall d, a :: IsRegistered(w, d, a) && d != c ==> IsRegistered(w', d, a))
    && (forall a: nat :: a < |w.acts| ==> (Alive(w, a) <==> Alive(w', a)))
  }

  /**
   * Whether a step keeps the order of a broken link: a fresh registration is handled after the eviction
   * of that connection, or while a further notice is on its way that will make it register again.
   */
  predicate Orderly(w: World, a: Action) {
    a.GrainHandles? && HasLive(w) ==> Harmless(w, a.c)
  }

  /** No eviction of c is due at the live activation, or c will hear from that activation once more. */
  predicate Harmless(w: World, c: nat)
    requires HasLive(w)
  {
    w.evictions[(c, |w.acts| - 1)] == 0 || w.notices[(c, |w.acts| - 1)] > 0
  }

  predicate OrderlyRun(w: World, acts: seq<Action>)
    requires CanRun(w, acts)
    decreases |acts|
  {
    acts == [] || (Orderly(w, acts[0]) && OrderlyRun(Next(w, acts[0]), acts[1..]))
  }

  // ---- The budget: every run ----

  lemma ReturnKeepsBudget(p: Peer, r: CallResult)
    requires BudgetOk(p) && p.call.Some?
    ensures BudgetOk(Returned(p, r))
  {
  }

  /** A message that makes no call leaves the registration alone, unless it ends the session. */
  lemma DeliveryKeepsRegistration(p: Peer, m: Message)
    requires BudgetOk(p) && p.call.None?
    requires m.Terminated? ==> !WouldRepair(p, m.who)
    requires m.ReregisterRetry? ==> !p.conn.phase.PostAuth?
    requires !(m.InboundAuth? && m.auth.Accepted?)
    ensures var q := Receive(p.conn, m);
            && BudgetOk(p.(conn := q))
            && (q.phase.PostAuth? ==> p.conn.phase.PostAuth? && q.pid == p.conn.pid && q.watched == p.conn.watched
                                      && q.retryArmed == p.conn.retryArmed)
  {
  }

  /** The message a quiet step hands to its connection. */
  function MessageIn(a: Action): Message
    requires a.DropNotice? || a.DropTick? || a.Deliver?
  {
    match a
    case DropNotice(_, who) => Terminated(who, CallFailed)
    case DropTick(_) => ReregisterRetry(CallFailed)
    case Deliver(_, m) => m
  }

  lemma PeerKeepsBudget(w: World, w': World, c: nat)
    requires BudgetInv(w) && c in w'.peers && w'.peers == w.peers[c := w'.peers[c]] && BudgetOk(w'.peers[c])
    ensures BudgetInv(w')
  {
  }

  lemma BeginKeepsBudget(w: World, c: nat, purpose: Purpose)
    requires c in w.peers && BudgetOk(w.peers[c]) && Enabled(w, Begin(c, purpose))
    ensures BudgetOk(Next(w, Begin(c, purpose)).peers[c])
  {
  }

  lemma StepKeepsBudget(w: World, a: Action)
    requires BudgetInv(w) && Enabled(w, a)
    ensures BudgetInv(Next(w, a))
  {
    if a.Begin? {
      BeginKeepsBudget(w, a.c, a.purpose);
      PeerKeepsBudget(w, Next(w, a), a.c);
    } else if a.Return? {
      ReturnKeepsBudget(w.peers[a.c], Result(w.peers[a.c].call.value, a.lost, a.skew));
      PeerKeepsBudget(w, Next(w, a), a.c);
    } else if a.DropNotice? || a.DropTick? || a.Deliver? {
      DeliveryKeepsRegistration(w.peers[a.c], MessageIn(a));
      PeerKeepsBudget(w, Next(w, a), a.c);
    } else if a.Connect? || a.GrainHandles? || a.LinkDown? {
      PeerKeepsBudget(w, Next(w, a), a.c);
    }
  }

  lemma {:induction false} RunKeepsBudget(w: World, acts: seq<Action>)
    requires BudgetInv(w) && CanRun(w, acts)
    ensures BudgetInv(Run(w, acts))
    decreases |acts|
  {
    if acts != [] {
      StepKeepsBudget(w, acts[0]);
      RunKeepsBudget(Next(w, acts[0]), acts[1..]);
    }
  }

  // ---- The watch: every orderly run ----

  lemma ConcernsKeepsInv(w: World, w': World, c: nat)
    requires Inv(w) && BudgetInv(w') && Concerns(w, w', c) && c in w'.peers && PeerOk(w', c)
    requires forall a :: 0 <= a < |w'.acts| && w'.acts[a].alive ==> a == |w'.acts| - 1
    requires forall a :: |w'.acts| <= a ==> w'.evictions[(c, a)] == 0
    ensures Inv(w')
  {
    forall d | d in w'.peers ensures PeerOk(w', d) {
      if d != c {
        assert PeerOk(w, d);
      }
    }
  }

  lemma BeginKeepsPeer(w: World, c: nat, purpose: Purpose)
    requires c in w.peers && PeerOk(w, c) && BudgetOk(w.peers[c]) && Enabled(w, Begin(c, purpose))
    ensures var w' := Next(w, Begin(c, purpose)); Concerns(w, w', c) && PeerOk(w', c)
  {
  }

  lemma HandlingShape(w: World, a: Action)
    requires Enabled(w, a) && (a.GrainHandles? || a.GrainHandlesLate?)
    ensures var w' := Next(w, a);
            && Concerns(w, w', a.c) && IsRegistered(w', a.c, |w'.acts| - 1) && w'.evictions == w.evictions
            && (forall b :: IsRegistered(w, a.c, b) ==> IsRegistered(w', a.c, b))
            && |w'.acts| == (if HasLive(w) then |w.acts| else |w.acts| + 1)
            && forall b :: 0 <= b < |w.acts| ==> w'.acts[b].alive == w.acts[b].alive
  {
  }

  lemma HandlingKeepsPeer(w: World, a: Action)
    requires Enabled(w, a) && Orderly(w, a) && (a.GrainHandles? || a.GrainHandlesLate?)
    requires PeerOk(w, a.c) && (!HasLive(w) ==> w.evictions[(a.c, |w.acts|)] == 0)
    requires forall b :: 0 <= b < |w.acts| && w.acts[b].alive ==> b == |w.acts| - 1
    ensures PeerOk(Next(w, a), a.c)
  {
    HandlingShape(w, a);
  }

  lemma HandlingKeepsInv(w: World, a: Action)
    requires Inv(w) && Enabled(w, a) && Orderly(w, a) && (a.GrainHandles? || a.GrainHandlesLate?)
    ensures Inv(Next(w, a))
  {
    assert PeerOk(w, a.c);
    HandlingShape(w, a);
    HandlingKeepsPeer(w, a);
    StepKeepsBudget(w, a);
    ConcernsKeepsInv(w, Next(w, a), a.c);
  }

  lemma ReturnedRegistration(p: Peer, r: CallResult)
    requires BudgetOk(p) && p.call.Some? && Returned(p, r).conn.phase.PostAuth?
    ensures var q := Returned(p, r).conn;
            && (r.Registered? ==> q.pid == r.pid && (q.pid.Some? ==> q.pid.value in q.watched))
            && (r.CallFailed? ==>
                  p.conn.phase.PostAuth? && q.pid == p.conn.pid && q.watched == p.conn.watched && q.retryArmed)
  {
  }

  lemma ReturnKeepsPeer(w: World, c: nat, lost: bool, skew: bool)
    requires Enabled(w, Return(c, lost, skew)) && PeerOk(w, c) && BudgetOk(w.peers[c])
    ensures var w' := Next(w, Return(c, lost, skew));
            Concerns(w, w', c) && PeerOk(w', c) && w'.acts == w.acts && w'.evictions == w.evictions
  {
    var p := w.peers[c];
    var r := Result(p.call.value, lost, skew);
    ReturnKeepsBudget(p, r);
    if Returned(p, r).conn.phase.PostAuth? {
      ReturnedRegistration(p, r);
    }
  }

  lemma ReturnKeepsInv(w: World, c: nat, lost: bool, skew: bool)
    requires Inv(w) && Enabled(w, Return(c, lost, skew))
    ensures Inv(Next(w, Return(c, lost, skew)))
  {
    assert PeerOk(w, c);
    ReturnKeepsPeer(w, c, lost, skew);
    StepKeepsBudget(w, Return(c, lost, skew));
    ConcernsKeepsInv(w, Next(w, Return(c, lost, skew)), c);
  }

  lemma DeliveryKeepsPeer(w: World, a: Action)
    requires Enabled(w, a) && (a.DropNotice? || a.DropTick? || a.Deliver?)
    requires PeerOk(w, a.c) && BudgetOk(w.peers[a.c])
    ensures var w' := Next(w, a);
            Concerns(w, w', a.c) && PeerOk(w', a.c) && w'.acts == w.acts && w'.evictions == w.evictions
  {
    DeliveryKeepsRegistration(w.peers[a.c], MessageIn(a));
  }

  lemma DeliveryKeepsInv(w: World, a: Action)
    requires Inv(w) && Enabled(w, a) && (a.DropNotice? || a.DropTick? || a.Deliver?)
    ensures Inv(Next(w, a))
  {
    assert PeerOk(w, a.c);
    DeliveryKeepsPeer(w, a);
    StepKeepsBudget(w, a);
    ConcernsKeepsInv(w, Next(w, a), a.c);
  }

  lemma DieKeepsInv(w: World)
    requires Inv(w) && HasLive(w)
    ensures Inv(Next(w, Die))
  {
    var w' := Next(w, Die);
    var a := |w.acts| - 1;
    forall c | c in w.peers ensures PeerOk(w', c) {
      assert PeerOk(w, c);
      if w.peers[c].conn.pid == Some(a) && a in w.peers[c].conn.watched {
        assert (c, a) in (set d | d in w.peers && a in w.peers[d].conn.watched :: (d, a));
        assert w'.notices[(c, a)] > 0;
      }
    }
  }

  /** The connection is told as well, or was not relying on the activation. */
  lemma LinkDownKeepsPeer(w: World, c: nat)
    requires Enabled(w, LinkDown(c)) && PeerOk(w, c)
    ensures PeerOk(Next(w, LinkDown(c)), c)
  {
  }

  lemma LinkDownShape(w: World, c: nat)
    requires Enabled(w, LinkDown(c))
    ensures var w' := Next(w, LinkDown(c)); Concerns(w, w', c) && w'.acts == w.acts
  {
  }

  lemma LinkDownKeepsInv(w: World, c: nat)
    requires Inv(w) && Enabled(w, LinkDown(c))
    ensures Inv(Next(w, LinkDown(c)))
  {
    assert PeerOk(w, c);
    LinkDownShape(w, c);
    LinkDownKeepsPeer(w, c);
    StepKeepsBudget(w, LinkDown(c));
    ConcernsKeepsInv(w, Next(w, LinkDown(c)), c);
  }

  /** An eviction that is still due takes nothing from a secure registration. */
  lemma EvictionKeepsInv(w: World, c: nat, who: nat)
    requires Inv(w) && Enabled(w, EvictLive(c, who))
    ensures Inv(Next(w, EvictLive(c, who)))
  {
    var w' := Next(w, EvictLive(c, who));
    assert forall d, a :: Secure(w, d, a) ==> Secure(w', d, a);
    forall d | d in w'.peers ensures PeerOk(w', d) {
      assert PeerOk(w, d);
    }
  }

  lemma BeginKeepsInv(w: World, c: nat, purpose: Purpose)
    requires Inv(w) && Enabled(w, Begin(c, purpose))
    ensures Inv(Next(w, Begin(c, purpose)))
  {
    assert PeerOk(w, c);
    BeginKeepsPeer(w, c, purpose);
    StepKeepsBudget(w, Begin(c, purpose));
    ConcernsKeepsInv(w, Next(w, Begin(c, purpose)), c);
  }

  lemma ConnectKeepsInv(w: World, c: nat)
    requires Inv(w) && c !in w.peers
    ensures Inv(Next(w, Connect(c)))
  {
    StepKeepsBudget(w, Connect(c));
    ConcernsKeepsInv(w, Next(w, Connect(c)), c);
  }

  lemma RepeatKeepsInv(w: World, c: nat, who: nat)
    requires Inv(w) && Enabled(w, Repeat(c, who))
    ensures Inv(Next(w, Repeat(c, who)))
  {
    assert PeerOk(w, c);
    StepKeepsBudget(w, Repeat(c, who));
    ConcernsKeepsInv(w, Next(w, Repeat(c, who)), c);
  }

  lemma EvictKeepsInv(w: World, c: nat, who: nat)
    requires Inv(w) && Enabled(w, Evict(c, who))
    ensures Inv(Next(w, Evict(c, who)))
  {
    assert PeerOk(w, c) && BudgetOk(w.peers[c]);
    StepKeepsBudget(w, Evict(c, who));
    ConcernsKeepsInv(w, Next(w, Evict(c, who)), c);
  }

  lemma StepKeepsInv(w: World, a: Action)
    requires Inv(w) && Enabled(w, a) && Orderly(w, a)
    ensures Inv(Next(w, a))
  {
    match a {
      case Connect(c) => ConnectKeepsInv(w, c);
      case Begin(c, purpose) => BeginKeepsInv(w, c, purpose);
      case GrainHandles(_) => HandlingKeepsInv(w, a);
      case GrainHandlesLate(_) => HandlingKeepsInv(w, a);
      case Return(c, lost, skew) => ReturnKeepsInv(w, c, lost, skew);
      case DropNotice(_, _) => DeliveryKeepsInv(w, a);
      case DropTick(_) => DeliveryKeepsInv(w, a);
      case Deliver(_, _) => DeliveryKeepsInv(w, a);
      case Die => DieKeepsInv(w);
      case Repeat(c, who) => RepeatKeepsInv(w, c, who);
      case Evict(c, who) => EvictKeepsInv(w, c, who);
      case LinkDown(c) => LinkDownKeepsInv(w, c);
      case EvictLive(c, who) => EvictionKeepsInv(w, c, who);
    }
  }

  lemma {:induction false} RunKeepsInv(w: World, acts: seq<Action>)
    requires Inv(w) && CanRun(w, acts) && OrderlyRun(w, acts)
    ensures Inv(Run(w, acts))
    decreases |acts|
  {
    if acts != [] {
      StepKeepsInv(w, acts[0]);
      RunKeepsInv(Next(w, acts[0]), acts[1..]);
    }
  }

  // ---- The theorems ----

  /**
   * c is post-auth with a known PID, in the middle of no call, and yet not in the map of that live
   * activation, with no notice from it on the way and no retry outstanding.
   */
  predicate SilentGap(w: World, c: nat) {
    c in w.peers &&
    var p := w.peers[c];
    p.conn.phase.PostAuth? && p.conn.pid.Some? && p.call.None? &&
    var a := p.conn.pid.value;
    !(Alive(w, a) && c in w.acts[a].conns) && w.notices[(c, a)] == 0 && p.ticks == 0
  }

  lemma InvMeansNoGap(w: World, c: nat)
    requires Inv(w)
    ensures !SilentGap(w, c)
  {
    assert c in w.peers ==> PeerOk(w, c) && BudgetOk(w.peers[c]);
  }

  /**
   * No silent gap, across any activation deaths, broken links and failed registrations, as long as no
   * grain handles a fresh registration while the eviction of that connection is still on its way and
   * no further notice to it is.
   */
  lemma NoSilentGap(acts: seq<Action>, c: nat)
    requires CanRun(EMPTY, acts) && OrderlyRun(EMPTY, acts)
    ensures !SilentGap(Run(EMPTY, acts), c)
  {
    RunKeepsInv(EMPTY, acts);
    InvMeansNoGap(Run(EMPTY, acts), c);
  }

  /** The grain is about to handle a repair call of c. */
  predicate AboutToHandle(w: World, c: nat) {
    Enabled(w, GrainHandles(c)) && HasLive(w) && w.peers[c].conn.phase.PostAuth?
  }

  lemma TwoSteps(w: World, a: Action, b: Action)
    requires Enabled(w, a) && Enabled(Next(w, a), b) && !a.GrainHandles? && !b.GrainHandles?
    ensures CanRun(w, [a, b]) && OrderlyRun(w, [a, b]) && Run(w, [a, b]) == Next(Next(w, a), b)
  {
    var w', w'' := Next(w, a), Next(Next(w, a), b);
    assert [a, b][1..] == [b] && [b][1..] == [];
    assert CanRun(w'', []) && CanRun(w', [b]);
    assert OrderlyRun(w'', []) && OrderlyRun(w', [b]) && Run(w', [b]) == w'';
  }

  /** The reply of a call that the live activation has handled is adopted. */
  lemma AdoptedReply(w: World, c: nat, a: nat)
    requires c in w.peers && BudgetOk(w.peers[c]) && w.peers[c].conn.phase.PostAuth? && Alive(w, a)
    requires w.peers[c].call.Some? && w.peers[c].call.value.handledBy == Some(a) && !w.peers[c].call.value.cut
    ensures var w' := Next(w, Return(c, false, false));
            && w'.acts == w.acts && w'.notices == w.notices && w'.evictions == w.evictions && c in w'.peers
            && w'.peers[c].conn.phase.PostAuth? && w'.peers[c].conn.pid == Some(a)
            && w'.peers[c].call.None? && w'.peers[c].ticks == 0
  {
  }

  /** The reply arrives and is adopted, then the old eviction: nothing is left to repair it. */
  lemma LateEvictionOpensGap(w: World, c: nat)
    requires AboutToHandle(w, c) && BudgetOk(w.peers[c]) && PeerOk(w, c) && !Harmless(w, c)
    ensures var w1 := Next(w, GrainHandles(c));
            var acts := [Return(c, false, false), EvictLive(c, |w.acts| - 1)];
            CanRun(w1, acts) && OrderlyRun(w1, acts) && SilentGap(Run(w1, acts), c)
  {
    var a := |w.acts| - 1;
    var w1 := Next(w, GrainHandles(c));
    AdoptedReply(w1, c, a);
    TwoSteps(w1, Return(c, false, false), EvictLive(c, a));
  }

  /** No orderly continuation leads to a silent gap for c. */
  ghost predicate NoGapAhead(w: World, c: nat) {
    forall acts :: CanRun(w, acts) && OrderlyRun(w, acts) ==> !SilentGap(Run(w, acts), c)
  }

  /**
   * That order is needed, exactly: when a grain handles a repair call, no orderly continuation leads to
   * a gap for that connection if and only if no eviction of it is on its way, or a further notice to it is.
   */
  lemma HandlingIsSafeIff(w: World, c: nat)
    requires Inv(w) && AboutToHandle(w, c)
    ensures NoGapAhead(Next(w, GrainHandles(c)), c) <==> Harmless(w, c)
  {
    var w1 := Next(w, GrainHandles(c));
    if Harmless(w, c) {
      StepKeepsInv(w, GrainHandles(c));
      forall acts | CanRun(w1, acts) && OrderlyRun(w1, acts) ensures !SilentGap(Run(w1, acts), c) {
        RunKeepsInv(w1, acts);
        InvMeansNoGap(Run(w1, acts), c);
      }
    } else {
      assert PeerOk(w, c) && BudgetOk(w.peers[c]);
      LateEvictionOpensGap(w, c);
    }
  }

  lemma Cons(w: World, a: Action, rest: seq<Action>)
    requires Enabled(w, a) && CanRun(Next(w, a), rest)
    ensures CanRun(w, [a] + rest) && Run(w, [a] + rest) == Run(Next(w, a), rest)
    ensures OrderlyRun(w, [a] + rest) <==> Orderly(w, a) && OrderlyRun(Next(w, a), rest)
  {
    assert ([a] + rest)[1..] == rest;
  }

  /** The world of one authenticated connection, registered with activation 0. */
  predicate IsRegisteredWorld(w: World) {
    && w.acts == [Activation(true, {0})] && w.notices == multiset{} && w.evictions == multiset{}
    && w.peers == map[0 := Peer(Conn(PostAuth, [], [AuthOk], Some(0), 0, false, {0}), 0, None, 0)]
  }

  lemma BrokenLink(w: World)
    requires IsRegisteredWorld(w)
    ensures var w1 := Next(w, LinkDown(0));
            && Enabled(w1, Begin(0, AfterDeath(0)))
            && var w2 := Next(w1, Begin(0, AfterDeath(0)));
            AboutToHandle(w2, 0) && BudgetOk(w2.peers[0]) && PeerOk(w2, 0) && |w2.acts| == 1 && !Harmless(w2, 0)
  {
    assert Next(w, LinkDown(0)).notices == multiset{(0, 0)};
  }

  /** From there: the link breaks, the connection repairs at once, and the grain is told too late. */
  lemma GapAfterBrokenLink(w: World) returns (acts: seq<Action>)
    requires IsRegisteredWorld(w)
    ensures CanRun(w, acts) && SilentGap(Run(w, acts), 0)
  {
    BrokenLink(w);
    var w1 := Next(w, LinkDown(0));
    var w2 := Next(w1, Begin(0, AfterDeath(0)));
    LateEvictionOpensGap(w2, 0);
    var rest := [Return(0, false, false), EvictLive(0, 0)];
    Cons(w2, GrainHandles(0), rest);
    Cons(w1, Begin(0, AfterDeath(0)), [GrainHandles(0)] + rest);
    Cons(w, LinkDown(0), [Begin(0, AfterDeath(0))] + ([GrainHandles(0)] + rest));
    acts := [LinkDown(0)] + ([Begin(0, AfterDeath(0))] + ([GrainHandles(0)] + rest));
  }

  lemma Welcomed()
    ensures Returned(Peer(FRESH, 0, Some(Call(Authenticate, Some(0), false)), 0), Registered(Some(0)))
         == Peer(Conn(PostAuth, [], [AuthOk], Some(0), 0, false, {0}), 0, None, 0)
  {
    var adopted := Adopt(FRESH, Some(0));
    assert adopted == Conn(PreAuth, [], [], Some(0), 0, false, {0});
    assert [] + [AuthOk] == [AuthOk];
  }

  const CALLING := World([], map[0 := Peer(FRESH, 0, Some(Call(Authenticate, None, false)), 0)], multiset{}, multiset{})

  const HANDLED := World(
    [Activation(true, {0})],
    map[0 := Peer(FRESH, 0, Some(Call(Authenticate, Some(0), false)), 0)],
    multiset{},
    multiset{})

  lemma CallsFirst()
    ensures var w := Next(EMPTY, Connect(0));
            Enabled(w, Begin(0, Authenticate)) && Next(w, Begin(0, Authenticate)) == CALLING
  {
  }

  lemma IsHandled()
    ensures Enabled(CALLING, GrainHandles(0)) && Next(CALLING, GrainHandles(0)) == HANDLED
  {
    assert Registering([], 0) == [Activation(true, {0})];
  }

  lemma IsWelcomed()
    ensures Enabled(HANDLED, Return(0, false, false)) && IsRegisteredWorld(Next(HANDLED, Return(0, false, false)))
  {
    Welcomed();
  }

  /** So the order is not for free: a run with one broken link and a late eviction ends in a silent gap. */
  lemma DisorderlyRunHasGap() returns (acts: seq<Action>)
    ensures CanRun(EMPTY, acts) && SilentGap(Run(EMPTY, acts), 0)
  {
    IsWelcomed();
    var rest := GapAfterBrokenLink(Next(HANDLED, Return(0, false, false)));
    Cons(HANDLED, Return(0, false, false), rest);
    acts := [Return(0, false, false)] + rest;
    IsHandled();
    Cons(CALLING, GrainHandles(0), acts);
    acts := [GrainHandles(0)] + acts;
    CallsFirst();
    Cons(Next(EMPTY, Connect(0)), Begin(0, Authenticate), acts);
    acts := [Begin(0, Authenticate)] + acts;
    Cons(EMPTY, Connect(0), acts);
    acts := [Connect(0)] + acts;
  }

  /**
   * The retry budget, in every reachable state, however messages are ordered: post-auth the count is
   * 0, 1 or 2; between calls it is positive exactly when one retry timer or tick is outstanding; and a
   * repair cycle never makes more than three register calls.
   */
  lemma RetryBudget(acts: seq<Action>, c: nat)
    requires CanRun(EMPTY, acts) && c in Run(EMPTY, acts).peers
    ensures var p := Run(EMPTY, acts).peers[c];
            && p.cycle <= REREGISTER_MAX_ATTEMPTS
            && (p.conn.phase.PostAuth? ==>
                  && 0 <= p.conn.attempts <= 2 && p.ticks <= 1
                  && (p.call.None? ==> (p.conn.attempts > 0 <==> p.ticks == 1)))
  {
    RunKeepsBudget(EMPTY, acts);
    assert BudgetOk(Run(EMPTY, acts).peers[c]);
  }

  /** What the return of a repair call does to its connection's budget. */
  predicate EndsCycle(p: Peer, p': Peer, r: CallResult) {
    if r.CallFailed?
    then (if p.cycle == REREGISTER_MAX_ATTEMPTS then p'.conn.phase.Closing? || p'.conn.phase.Stopped?
          else p'.ticks == 1 && p'.conn.attempts == p.cycle)
    else p'.cycle == 0 && p'.conn.attempts == 0 && p'.conn.pid == r.pid
  }

  lemma ReturnEndsCycle(p: Peer, r: CallResult)
    requires BudgetOk(p) && p.call.Some? && p.conn.phase.PostAuth?
    ensures EndsCycle(p, Returned(p, r), r)
  {
  }

  /** The third failed call of a cycle closes the connection; a success adopts a PID and ends the cycle. */
  lemma CycleEnds(acts: seq<Action>, c: nat, lost: bool, skew: bool)
    requires CanRun(EMPTY, acts) && Enabled(Run(EMPTY, acts), Return(c, lost, skew))
    requires Run(EMPTY, acts).peers[c].conn.phase.PostAuth?
    ensures var w := Run(EMPTY, acts);
            var p, p' := w.peers[c], Next(w, Return(c, lost, skew)).peers[c];
            EndsCycle(p, p', Result(p.call.value, lost, skew))
  {
    RunKeepsBudget(EMPTY, acts);
    var p := Run(EMPTY, acts).peers[c];
    ReturnEndsCycle(p, Result(p.call.value, lost, skew));
  }
}
