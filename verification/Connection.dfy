/**
 * The UserConnection actor (internal/actor/connection/connection.go, reregister.go) and its write
 * pump (write_pump.go): one mailbox message at a time, a bounded outbound queue, and a retry budget
 * for registering again after the watched User grain activation dies.
 *
 * A message whose handler calls the User grain carries the result of that call. A PID is a number,
 * different for every activation.
 */
module Connection {
  import opened Options

  const OUTBOUND_BUFFER_SIZE := 64
  const REREGISTER_MAX_ATTEMPTS := 3

  datatype Frame = Ping | AuthFailed | AuthOk | Chat(id: nat) | MemberJoined(id: nat) | MemberLeft(id: nat) | Close

  datatype AuthResult = Rejected | Accepted(pid: Option<nat>)

  datatype CallResult = CallFailed | Registered(pid: Option<nat>)

  datatype Message =
    | InboundAuth(auth: AuthResult)
    | AuthTimeoutExpired
    | DecodeFailed
    | ProtocolViolation
    | AppPingTick
    | AppPongReceived
    | PongTimeoutExpired
    | ForwardMessage(id: nat, refsOk: bool)
    | NotifyRoomEvent(joined: Option<bool>, id: nat, refsOk: bool) // None: an unknown event type
    | Terminated(who: nat, call: CallResult)
    | ReregisterRetry(call: CallResult)
    | TransportDown // any of the pumps' reports: the connection is gone

  datatype Phase = PreAuth | PostAuth | Closing | Stopped

  /**
   * `taken` is what the write pump has already received from the queue. `retryArmed` is a non-nil
   * reregisterRetryCancel; `watched` are the PIDs this actor has asked to watch.
   */
  datatype Conn = Conn(
    phase: Phase,
    taken: seq<Frame>,
    queue: seq<Frame>,
    pid: Option<nat>,
    attempts: nat,
    retryArmed: bool,
    watched: set<nat>)
  {
    function Enqueued(): seq<Frame> { taken + queue }
  }

  const FRESH := Conn(PreAuth, [], [], None, 0, false, {})

  // ---- The handlers ----

  /** sendOutbound: a full queue panics, and the guardian stops the actor. */
  function Send(c: Conn, f: Frame): Conn {
    if |c.queue| < OUTBOUND_BUFFER_SIZE then c.(queue := c.queue + [f]) else c.(phase := Stopped)
  }

  function SendBestEffort(c: Conn, f: Frame): Conn {
    if |c.queue| < OUTBOUND_BUFFER_SIZE then c.(queue := c.queue + [f]) else c
  }

  /** newClosingBehavior: queue the close frame, then become closing. */
  function BeginClose(c: Conn): Conn {
    var sent := Send(c, Close);
    if sent.phase.Stopped? then sent else sent.(phase := Closing)
  }

  function Reject(c: Conn): Conn {
    BeginClose(SendBestEffort(c, AuthFailed))
  }

  function Adopt(c: Conn, pid: Option<nat>): Conn {
    c.(pid := pid, watched := if pid.Some? then c.watched + {pid.value} else c.watched)
  }

  function AttemptReregister(c: Conn, call: CallResult): Conn {
    match call
    case Registered(pid) => Adopt(c.(attempts := 0), pid)
    case CallFailed =>
      var failed := c.(attempts := c.attempts + 1);
      if failed.attempts >= REREGISTER_MAX_ATTEMPTS then BeginClose(failed) else failed.(retryArmed := true)
  }

  function BeforeAuth(c: Conn, m: Message): Conn {
    match m
    case InboundAuth(auth) =>
      if auth.Rejected? then Reject(c)
      else
        var sent := Send(Adopt(c, auth.pid), AuthOk);
        if sent.phase.Stopped? then sent else sent.(phase := PostAuth)
    case AuthTimeoutExpired => Reject(c)
    case ProtocolViolation => Reject(c)
    case AppPingTick => Send(c, Ping)
    case PongTimeoutExpired => BeginClose(c)
    case _ => c
  }

  function AfterAuth(c: Conn, m: Message): Conn {
    match m
    case ForwardMessage(id, refsOk) => if refsOk then Send(c, Chat(id)) else c
    case NotifyRoomEvent(joined, id, refsOk) =>
      if joined.None? || !refsOk then c else Send(c, if joined.value then MemberJoined(id) else MemberLeft(id))
    case Terminated(who, call) =>
      if c.pid != Some(who) || c.retryArmed then c else AttemptReregister(c, call)
    case ReregisterRetry(call) => AttemptReregister(c.(retryArmed := false), call)
    case AppPingTick => Send(c, Ping)
    case PongTimeoutExpired => BeginClose(c)
    case _ => c
  }

  function Receive(c: Conn, m: Message): Conn {
    if c.phase.Stopped? then c
    else if m.TransportDown? then c.(phase := Stopped)
    else match c.phase
      case PreAuth => BeforeAuth(c, m)
      case PostAuth => AfterAuth(c, m)
      case _ => c
  }

  class UserConnection {
    var phase: Phase
    var outbound: seq<Frame>
    var grainPID: Option<nat>
    var reregisterAttempts: nat
    var reregisterRetryArmed: bool
    var watched: set<nat>
    ghost var taken: seq<Frame>

    ghost function View(): Conn
      reads this
    {
      Conn(phase, taken, outbound, grainPID, reregisterAttempts, reregisterRetryArmed, watched)
    }

    constructor ()
      ensures View() == FRESH
    {
      phase, outbound, grainPID, reregisterAttempts := PreAuth, [], None, 0;
      reregisterRetryArmed, watched, taken := false, {}, [];
    }

    /** Returns false when the channel is full: the caller's handler unwinds and the actor is stopped. */
    method SendOutbound(f: Frame) returns (sent: bool)
      modifies this
      ensures View() == Send(old(View()), f) && sent == (|old(outbound)| < OUTBOUND_BUFFER_SIZE)
    {
      sent := |outbound| < OUTBOUND_BUFFER_SIZE;
      if sent {
        outbound := outbound + [f];
      } else {
        phase := Stopped;
      }
    }

    method StartClosing()
      requires !phase.Stopped?
      modifies this
      ensures View() == BeginClose(old(View()))
    {
      var sent := SendOutbound(Close);
      if sent {
        phase := Closing;
      }
    }

    method RejectAuth()
      requires !phase.Stopped?
      modifies this
      ensures View() == Reject(old(View()))
    {
      if |outbound| < OUTBOUND_BUFFER_SIZE {
        outbound := outbound + [AuthFailed];
      }
      StartClosing();
    }

    method AttemptToReregister(call: CallResult)
      requires !phase.Stopped?
      modifies this
      ensures View() == AttemptReregister(old(View()), call)
    {
      if call.CallFailed? {
        reregisterAttempts := reregisterAttempts + 1;
        if reregisterAttempts >= REREGISTER_MAX_ATTEMPTS {
          StartClosing();
        } else {
          reregisterRetryArmed := true;
        }
        return;
      }
      grainPID, reregisterAttempts := call.pid, 0;
      if call.pid.Some? {
        watched := watched + {call.pid.value};
      }
    }

    method PreAuthBehavior(m: Message)
      requires !phase.Stopped?
      modifies this
      ensures View() == BeforeAuth(old(View()), m)
    {
      match m {
        case InboundAuth(auth) =>
          if auth.Rejected? {
            RejectAuth();
            return;
          }
          grainPID := auth.pid;
          if auth.pid.Some? {
            watched := watched + {auth.pid.value};
          }
          var sent := SendOutbound(AuthOk);
          if sent {
            phase := PostAuth;
          }
        case AuthTimeoutExpired => RejectAuth();
        case ProtocolViolation => RejectAuth();
        case AppPingTick => var _ := SendOutbound(Ping);
        case PongTimeoutExpired => StartClosing();
        case _ =>
      }
    }

    method PostAuthBehavior(m: Message)
      requires !phase.Stopped?
      modifies this
      ensures View() == AfterAuth(old(View()), m)
    {
      match m {
        case ForwardMessage(id, refsOk) =>
          if refsOk {
            var _ := SendOutbound(Chat(id));
          }
        case NotifyRoomEvent(joined, id, refsOk) =>
          if joined.Some? && refsOk {
            var _ := SendOutbound(if joined.value then MemberJoined(id) else MemberLeft(id));
          }
        case Terminated(who, call) =>
          if grainPID == Some(who) && !reregisterRetryArmed {
            AttemptToReregister(call);
          }
        case ReregisterRetry(call) =>
          reregisterRetryArmed := false;
          AttemptToReregister(call);
        case AppPingTick => var _ := SendOutbound(Ping);
        case PongTimeoutExpired => StartClosing();
        case _ =>
      }
    }

    method ReceiveMessage(m: Message)
      modifies this
      ensures View() == Receive(old(View()), m)
    {
      if phase.Stopped? {
        return;
      }
      if m.TransportDown? {
        phase := Stopped;
        return;
      }
      match phase {
        case PreAuth => PreAuthBehavior(m);
        case PostAuth => PostAuthBehavior(m);
        case _ =>
      }
    }
  }

  // ---- The write pump ----

  /** What ends a pump: shutdown, the close frame, a failed write, or nothing left on a closed channel. */
  datatype PumpEnd = Shutdown | CloseWritten | WriteFailed | Drained

  /** What the pump writes of `outbound` from position i on. */
  function Pumped(outbound: seq<Frame>, i: nat, shutdownAt: nat, failing: set<nat>): seq<Frame>
    decreases |outbound| - i
  {
    if i >= shutdownAt || i >= |outbound| then []
    else if outbound[i] == Close then [Close]
    else if i in failing then []
    else [outbound[i]] + Pumped(outbound, i + 1, shutdownAt, failing)
  }

  /** The first n frames are ordinary ones that the script lets through. */
  predicate Passes(outbound: seq<Frame>, n: nat, shutdownAt: nat, failing: set<nat>) {
    n <= |outbound| && n <= shutdownAt && forall i :: 0 <= i < n ==> outbound[i] != Close && i !in failing
  }

  lemma {:induction false} PumpedSplits(outbound: seq<Frame>, n: nat, shutdownAt: nat, failing: set<nat>)
    requires Passes(outbound, n, shutdownAt, failing)
    ensures Pumped(outbound, 0, shutdownAt, failing) == outbound[..n] + Pumped(outbound, n, shutdownAt, failing)
  {
    if n > 0 {
      PumpedSplits(outbound, n - 1, shutdownAt, failing);
      assert outbound[..n] == outbound[..n - 1] + [outbound[n - 1]];
    }
  }

  /**
   * runWritePump over the messages it will receive. `shutdownAt` is how many it receives before it
   * sees the cancelled context; `failing` are the positions whose write fails.
   */
  method RunWritePump(outbound: seq<Frame>, shutdownAt: nat, failing: set<nat>)
    returns (written: seq<Frame>, end: PumpEnd)
    ensures written == Pumped(outbound, 0, shutdownAt, failing)
    ensures written <= outbound
    ensures end.CloseWritten? <==> Close in written
    ensures Close in written ==> written[|written| - 1] == Close
    ensures forall i :: 0 <= i < |written| - 1 ==> written[i] != Close && i !in failing
    ensures end.Drained? ==> written == outbound
    ensures end.WriteFailed? ==> |written| < |outbound| && |written| in failing && outbound[|written|] != Close
  {
    written := [];
    while true
      invariant written <= outbound && Passes(outbound, |written|, shutdownAt, failing)
      decreases |outbound| - |written|
    {
      var i := |written|;
      PumpedSplits(outbound, i, shutdownAt, failing);
      if i >= shutdownAt {
        return written, Shutdown;
      }
      if i == |outbound| {
        return written, Drained;
      }
      if outbound[i] == Close {
        written := written + [Close];
        return written, CloseWritten;
      }
      if i in failing {
        return written, WriteFailed;
      }
      written := written + [outbound[i]];
    }
  }

  // ---- The grammar of a session ----

  predicate IsBody(f: Frame) {
    f.Ping? || f.Chat? || f.MemberJoined? || f.MemberLeft?
  }

  predicate AllPings(fs: seq<Frame>) {
    forall i :: 0 <= i < |fs| ==> fs[i] == Ping
  }

  /** Pings, then AuthOk at position n, then body frames. */
  predicate IsOpenAt(fs: seq<Frame>, n: nat) {
    && n < |fs| && AllPings(fs[..n]) && fs[n] == AuthOk
    && forall i :: n < i < |fs| ==> IsBody(fs[i])
  }

  /** Ping* ([AuthFailed] Close | AuthOk (Ping|Chat|Joined|Left)* Close) */
  ghost predicate IsSession(fs: seq<Frame>) {
    exists n :: IsSessionAt(fs, n)
  }

  predicate IsSessionAt(fs: seq<Frame>, n: nat) {
    && n < |fs| && fs[|fs| - 1] == Close && AllPings(fs[..n])
    && (fs[n..] == [Close] || fs[n..] == [AuthFailed, Close] || (n < |fs| - 1 && IsOpenAt(fs[..|fs| - 1], n)))
  }

  ghost predicate IsSessionPrefix(fs: seq<Frame>) {
    exists rest :: IsSession(fs + rest)
  }

  ghost predicate FramesFit(phase: Phase, fs: seq<Frame>) {
    match phase
    case PreAuth => AllPings(fs)
    case PostAuth => exists n :: IsOpenAt(fs, n)
    case Closing => IsSession(fs)
    case Stopped => IsSessionPrefix(fs)
  }

  lemma PingsThenClose(fs: seq<Frame>)
    requires AllPings(fs)
    ensures IsSession(fs + [Close]) && IsSession(fs + [AuthFailed, Close])
    ensures IsSessionPrefix(fs) && IsSessionPrefix(fs + [AuthFailed])
  {
    assert (fs + [Close])[..|fs|] == fs && (fs + [AuthFailed, Close])[..|fs|] == fs;
    assert IsSessionAt(fs + [Close], |fs|) && IsSessionAt(fs + [AuthFailed, Close], |fs|);
    assert fs + [AuthFailed] + [Close] == fs + [AuthFailed, Close];
  }

  lemma OpenThenClose(fs: seq<Frame>, n: nat)
    requires IsOpenAt(fs, n)
    ensures IsSession(fs + [Close]) && IsSessionPrefix(fs)
  {
    assert (fs + [Close])[..|fs|] == fs && (fs + [Close])[..n] == fs[..n];
    assert IsSessionAt(fs + [Close], n);
  }

  lemma OpenGrows(fs: seq<Frame>, n: nat, f: Frame)
    requires IsOpenAt(fs, n) && IsBody(f)
    ensures IsOpenAt(fs + [f], n)
  {
    assert (fs + [f])[..n] == fs[..n];
  }

  ghost predicate Fits(c: Conn) {
    FramesFit(c.phase, c.Enqueued()) && |c.queue| <= OUTBOUND_BUFFER_SIZE
  }

  lemma QueuedAtTheEnd(c: Conn, f: Frame)
    ensures c.taken + (c.queue + [f]) == c.Enqueued() + [f]
  {
  }

  lemma StoppingFits(c: Conn)
    requires Fits(c)
    ensures Fits(c.(phase := Stopped))
  {
    var fs := c.Enqueued();
    match c.phase {
      case PreAuth => PingsThenClose(fs);
      case PostAuth => var n :| IsOpenAt(fs, n); OpenThenClose(fs, n);
      case Closing => assert fs + [] == fs;
      case Stopped =>
    }
  }

  lemma ClosingFits(c: Conn)
    requires Fits(c) && (c.phase.PreAuth? || c.phase.PostAuth?)
    ensures Fits(BeginClose(c))
  {
    StoppingFits(c);
    QueuedAtTheEnd(c, Close);
    if c.phase.PreAuth? {
      PingsThenClose(c.Enqueued());
    } else {
      var n :| IsOpenAt(c.Enqueued(), n);
      OpenThenClose(c.Enqueued(), n);
    }
  }

  lemma RejectFits(c: Conn)
    requires Fits(c) && c.phase.PreAuth?
    ensures Fits(Reject(c))
  {
    var fs := c.Enqueued();
    PingsThenClose(fs);
    if |c.queue| < OUTBOUND_BUFFER_SIZE {
      QueuedAtTheEnd(c, AuthFailed);
      var c1 := SendBestEffort(c, AuthFailed);
      QueuedAtTheEnd(c1, Close);
      assert fs + [AuthFailed] + [Close] == fs + [AuthFailed, Close];
    } else {
      ClosingFits(c);
    }
  }

  lemma BodyFits(c: Conn, f: Frame)
    requires Fits(c) && c.phase.PostAuth? && IsBody(f)
    ensures Fits(Send(c, f))
  {
    StoppingFits(c);
    QueuedAtTheEnd(c, f);
    var n :| IsOpenAt(c.Enqueued(), n);
    OpenGrows(c.Enqueued(), n, f);
  }

  lemma OpeningFits(c: Conn, pid: Option<nat>)
    requires Fits(c) && c.phase.PreAuth?
    ensures Fits(BeforeAuth(c, InboundAuth(Accepted(pid))))
  {
    StoppingFits(Adopt(c, pid));
    QueuedAtTheEnd(c, AuthOk);
    var fs := c.Enqueued();
    assert (fs + [AuthOk])[..|fs|] == fs;
    assert IsOpenAt(fs + [AuthOk], |fs|);
  }

  lemma ReceiveFits(c: Conn, m: Message)
    requires Fits(c)
    ensures Fits(Receive(c, m))
  {
    StoppingFits(c);
    match c.phase {
      case PreAuth =>
        ClosingFits(c);
        RejectFits(c);
        if m.InboundAuth? && m.auth.Accepted? {
          OpeningFits(c, m.auth.pid);
        }
        QueuedAtTheEnd(c, Ping);
      case PostAuth =>
        ClosingFits(c);
        match m {
          case ForwardMessage(id, _) => BodyFits(c, Chat(id));
          case NotifyRoomEvent(_, id, _) =>
            BodyFits(c, MemberJoined(id));
            BodyFits(c, MemberLeft(id));
          case Terminated(_, call) => AttemptFits(c, call);
          case ReregisterRetry(call) => AttemptFits(c.(retryArmed := false), call);
          case AppPingTick => BodyFits(c, Ping);
          case _ =>
        }
      case _ =>
    }
  }

  lemma AttemptFits(c: Conn, call: CallResult)
    requires Fits(c) && c.phase.PostAuth?
    ensures Fits(AttemptReregister(c, call))
  {
    if call.CallFailed? {
      ClosingFits(c.(attempts := c.attempts + 1));
    }
  }

  // ---- Runs of the actor and its pump together ----

  /** The actor, what its pump has put on the wire, and whether the pump still runs. */
  datatype Wired = Wired(conn: Conn, written: seq<Frame>, pumping: bool)

  datatype Event = Deliver(m: Message) | PumpTakes(writeOk: bool) | PumpQuits

  function Next(w: Wired, v: Event): Wired {
    match v
    case Deliver(m) => w.(conn := Receive(w.conn, m))
    case PumpQuits => w.(pumping := false)
    case PumpTakes(writeOk) =>
      if !w.pumping || w.conn.queue == [] then w
      else
        var f := w.conn.queue[0];
        var conn := w.conn.(taken := w.conn.taken + [f], queue := w.conn.queue[1..]);
        if f == Close then Wired(conn, w.written + [f], false)
        else if writeOk then Wired(conn, w.written + [f], true)
        else Wired(conn, w.written, false)
  }

  function Run(w: Wired, events: seq<Event>): Wired
    decreases |events|
  {
    if events == [] then w else Run(Next(w, events[0]), events[1..])
  }

  const CONNECTED := Wired(FRESH, [], true)

  ghost predicate WiredInv(w: Wired) {
    && Fits(w.conn)
    && w.written <= w.conn.taken
    && (w.pumping ==> w.written == w.conn.taken && Close !in w.written)
  }

  lemma TakingKeepsEnqueued(c: Conn)
    requires c.queue != []
    ensures c.taken + [c.queue[0]] + c.queue[1..] == c.Enqueued()
  {
  }

  lemma NextKeepsWired(w: Wired, v: Event)
    requires WiredInv(w)
    ensures WiredInv(Next(w, v))
  {
    match v {
      case Deliver(m) =>
        ReceiveFits(w.conn, m);
        assert Receive(w.conn, m).taken == w.conn.taken;
      case PumpTakes(_) =>
        if w.pumping && w.conn.queue != [] {
          TakingKeepsEnqueued(w.conn);
        }
      case PumpQuits =>
    }
  }

  lemma {:induction false} RunKeepsWired(w: Wired, events: seq<Event>)
    requires WiredInv(w)
    ensures WiredInv(Run(w, events))
    decreases |events|
  {
    if events != [] {
      NextKeepsWired(w, events[0]);
      RunKeepsWired(Next(w, events[0]), events[1..]);
    }
  }

  lemma NoEarlyClose(all: seq<Frame>, n: nat, i: nat)
    requires IsSessionAt(all, n) && i < |all| - 1
    ensures all[i] != Close
  {
    var body := all[..|all| - 1];
    assert all[i] == body[i] && (i < n ==> all[i] == all[..n][i]) && all[n] == all[n..][0];
    assert i < n ==> all[..n][i] == Ping;
  }

  lemma CloseEndsASession(fs: seq<Frame>, i: nat)
    requires IsSessionPrefix(fs) && i < |fs| && fs[i] == Close
    ensures i == |fs| - 1
  {
    var rest :| IsSession(fs + rest);
    var all := fs + rest;
    var n: nat :| IsSessionAt(all, n);
    assert all[i] == Close;
    if i < |all| - 1 {
      NoEarlyClose(all, n, i);
    }
  }

  /**
   * In every mailbox run, with any results and any pump behaviour: the frames enqueued are a prefix
   * of a legal session, the queue holds at most 64, and what reaches the wire is a prefix of them
   * after whose close frame nothing is written.
   */
  lemma SessionsAreWellFormed(events: seq<Event>)
    ensures var w := Run(CONNECTED, events);
            && IsSessionPrefix(w.conn.Enqueued())
            && |w.conn.queue| <= 64
            && w.written <= w.conn.Enqueued()
            && forall i :: 0 <= i < |w.written| && w.written[i] == Close ==>
                 i == |w.written| - 1 && w.written == w.conn.Enqueued() && !w.pumping
  {
    RunKeepsWired(CONNECTED, events);
    var w := Run(CONNECTED, events);
    var fs := w.conn.Enqueued();
    StoppingFits(w.conn);
    forall i | 0 <= i < |w.written| && w.written[i] == Close
      ensures i == |w.written| - 1 && w.written == fs && !w.pumping
    {
      assert fs[i] == Close;
      CloseEndsASession(fs, i);
    }
  }

  // ---- The pump that runs beside the actor is the loop ----

  /** The pump's side of the run goes by this script: it fails where the loop fails and stops where the loop stops. */
  predicate Obeys(w: Wired, v: Event, shutdownAt: nat, failing: set<nat>) {
    var i := |w.conn.taken|;
    match v
    case Deliver(_) => true
    case PumpQuits => w.pumping ==> i == shutdownAt
    case PumpTakes(writeOk) => w.pumping && w.conn.queue != [] ==> i < shutdownAt && writeOk == (i !in failing)
  }

  predicate Follows(w: Wired, events: seq<Event>, shutdownAt: nat, failing: set<nat>)
    decreases |events|
  {
    events == [] ||
    (Obeys(w, events[0], shutdownAt, failing) && Follows(Next(w, events[0]), events[1..], shutdownAt, failing))
  }

  /** The loop has come to its end after n ordinary frames, whatever is enqueued later. */
  predicate EndsAfter(outbound: seq<Frame>, n: nat, shutdownAt: nat, failing: set<nat>) {
    n == shutdownAt || (n < |outbound| && outbound[n] != Close && n in failing)
  }

  ghost predicate PumpOk(w: Wired, shutdownAt: nat, failing: set<nat>) {
    var all, n := w.conn.Enqueued(), |w.written|;
    && w.written <= all
    && if w.pumping then w.written == w.conn.taken && Passes(all, n, shutdownAt, failing)
       else if n > 0 && w.written[n - 1] == Close then n <= shutdownAt && Passes(all, n - 1, shutdownAt, failing)
       else Passes(all, n, shutdownAt, failing) && EndsAfter(all, n, shutdownAt, failing)
  }

  /** A pump that has ended, or has nothing left to take, has written what the loop writes. */
  lemma PumpOkMeansPumped(w: Wired, shutdownAt: nat, failing: set<nat>)
    requires PumpOk(w, shutdownAt, failing) && (!w.pumping || w.conn.queue == [])
    ensures w.written == Pumped(w.conn.Enqueued(), 0, shutdownAt, failing)
  {
    var all, n := w.conn.Enqueued(), |w.written|;
    if !w.pumping && n > 0 && w.written[n - 1] == Close {
      PumpedSplits(all, n - 1, shutdownAt, failing);
      assert w.written == all[..n - 1] + [Close];
    } else {
      PumpedSplits(all, n, shutdownAt, failing);
      assert w.written == all[..n];
    }
  }

  /** The actor only ever appends to what is enqueued. */
  lemma ReceiveAppends(c: Conn, m: Message)
    ensures Receive(c, m).taken == c.taken && c.queue <= Receive(c, m).queue
  {
  }

  lemma DeliverKeepsPump(w: Wired, m: Message, shutdownAt: nat, failing: set<nat>)
    requires PumpOk(w, shutdownAt, failing)
    ensures PumpOk(Next(w, Deliver(m)), shutdownAt, failing)
  {
    ReceiveAppends(w.conn, m);
    var all, all' := w.conn.Enqueued(), Receive(w.conn, m).Enqueued();
    assert all <= all';
  }

  lemma TakeKeepsPump(w: Wired, writeOk: bool, shutdownAt: nat, failing: set<nat>)
    requires PumpOk(w, shutdownAt, failing) && Obeys(w, PumpTakes(writeOk), shutdownAt, failing)
    ensures PumpOk(Next(w, PumpTakes(writeOk)), shutdownAt, failing)
  {
    if w.pumping && w.conn.queue != [] {
      TakingKeepsEnqueued(w.conn);
      assert w.conn.Enqueued()[|w.written|] == w.conn.queue[0];
      if |w.written| > 0 {
        assert w.written[|w.written| - 1] == w.conn.Enqueued()[|w.written| - 1];
      }
    }
  }

  lemma QuitKeepsPump(w: Wired, shutdownAt: nat, failing: set<nat>)
    requires PumpOk(w, shutdownAt, failing) && Obeys(w, PumpQuits, shutdownAt, failing)
    ensures PumpOk(Next(w, PumpQuits), shutdownAt, failing)
  {
    if w.pumping && |w.written| > 0 {
      assert w.written[|w.written| - 1] == w.conn.Enqueued()[|w.written| - 1];
    }
  }

  lemma {:induction false} RunKeepsPump(w: Wired, events: seq<Event>, shutdownAt: nat, failing: set<nat>)
    requires PumpOk(w, shutdownAt, failing) && Follows(w, events, shutdownAt, failing)
    ensures PumpOk(Run(w, events), shutdownAt, failing)
    decreases |events|
  {
    if events != [] {
      match events[0] {
        case Deliver(m) => DeliverKeepsPump(w, m, shutdownAt, failing);
        case PumpTakes(writeOk) => TakeKeepsPump(w, writeOk, shutdownAt, failing);
        case PumpQuits => QuitKeepsPump(w, shutdownAt, failing);
      }
      RunKeepsPump(Next(w, events[0]), events[1..], shutdownAt, failing);
    }
  }

  /**
   * Beside an actor that enqueues at any time, the pump's steps write exactly what the loop returns for
   * all that was enqueued, once the pump has ended or caught up.
   */
  lemma PumpStepsAreTheLoop(events: seq<Event>, shutdownAt: nat, failing: set<nat>)
    requires Follows(CONNECTED, events, shutdownAt, failing)
    ensures var w := Run(CONNECTED, events);
            !w.pumping || w.conn.queue == [] ==> w.written == Pumped(w.conn.Enqueued(), 0, shutdownAt, failing)
  {
    RunKeepsPump(CONNECTED, events, shutdownAt, failing);
    var w := Run(CONNECTED, events);
    if !w.pumping || w.conn.queue == [] {
      PumpOkMeansPumped(w, shutdownAt, failing);
    }
  }

  /** What the script says of frames taken long ago no longer matters. */
  lemma {:induction false} FollowsIgnoresPast(w: Wired, events: seq<Event>, shutdownAt: nat, f: set<nat>, g: set<nat>)
    requires Follows(w, events, shutdownAt, f) && forall i :: |w.conn.taken| <= i ==> (i in f <==> i in g)
    ensures Follows(w, events, shutdownAt, g)
    decreases |events|
  {
    if events != [] {
      TakenGrows(w, events[0]);
      FollowsIgnoresPast(Next(w, events[0]), events[1..], shutdownAt, f, g);
    }
  }

  lemma TakenGrows(w: Wired, v: Event)
    ensures |w.conn.taken| <= |Next(w, v).conn.taken|
    ensures v.PumpTakes? && w.pumping && w.conn.queue != [] ==> |Next(w, v).conn.taken| == |w.conn.taken| + 1
  {
    if v.Deliver? {
      ReceiveAppends(w.conn, v.m);
    }
  }

  /** A pump that has ended follows any script. */
  lemma {:induction false} EndedFollows(w: Wired, events: seq<Event>, shutdownAt: nat, failing: set<nat>)
    requires !w.pumping
    ensures Follows(w, events, shutdownAt, failing)
    decreases |events|
  {
    if events != [] {
      EndedFollows(Next(w, events[0]), events[1..], shutdownAt, failing);
    }
  }

  /** Every run goes by some script. */
  lemma {:induction false} EveryRunFollows(w: Wired, events: seq<Event>) returns (shutdownAt: nat, failing: set<nat>)
    ensures Follows(w, events, shutdownAt, failing) && |w.conn.taken| <= shutdownAt
    decreases |events|
  {
    var i := |w.conn.taken|;
    shutdownAt, failing := i, {};
    if !w.pumping || (events != [] && events[0].PumpQuits?) {
      EndedFollows(if w.pumping then Next(w, PumpQuits) else w, if w.pumping then events[1..] else events, i, {});
    } else if events != [] {
      TakenGrows(w, events[0]);
      shutdownAt, failing := EveryRunFollows(Next(w, events[0]), events[1..]);
      if events[0].PumpTakes? && w.conn.queue != [] {
        var script := if events[0].writeOk then failing - {i} else failing + {i};
        FollowsIgnoresPast(Next(w, events[0]), events[1..], shutdownAt, failing, script);
        failing := script;
      }
    }
  }
}
