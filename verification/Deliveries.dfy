/**
 * What a connection puts on its queue for every message it receives (module Connection), message by
 * message and over whole runs.
 */
module Deliveries {
  import opened Options
  import opened Connection

  /** There is room in the queue, also for the two frames of a rejection. */
  predicate Roomy(c: Conn) {
    |c.queue| + 2 <= 64
  }

  /** c' is c with these frames queued, in this phase; the registration is as it was. */
  predicate Queues(c: Conn, c': Conn, frames: seq<Frame>, phase: Phase) {
    c' == c.(queue := c.queue + frames, phase := phase)
  }

  /** The frame that stands for a message of the User grain, if it is well-formed. */
  function FrameOf(m: Message): seq<Frame> {
    match m
    case ForwardMessage(id, true) => [Chat(id)]
    case NotifyRoomEvent(Some(true), id, true) => [MemberJoined(id)]
    case NotifyRoomEvent(Some(false), id, true) => [MemberLeft(id)]
    case _ => []
  }

  // ---- After authentication ----

  lemma PostAuthDelivers(c: Conn, m: Message)
    requires c.phase.PostAuth? && |c.queue| < 64 && (m.ForwardMessage? || m.NotifyRoomEvent?)
    ensures Queues(c, Receive(c, m), FrameOf(m), PostAuth)
  {
    assert c.queue + [] == c.queue;
  }

  /** The heartbeat, a late auth timer and client errors. */
  lemma PostAuthKeepsAlive(c: Conn)
    requires c.phase.PostAuth? && |c.queue| < 64
    ensures Queues(c, Receive(c, AppPingTick), [Ping], PostAuth)
    ensures Queues(c, Receive(c, PongTimeoutExpired), [Close], Closing)
    ensures Receive(c, AppPongReceived) == Receive(c, AuthTimeoutExpired) == c
    ensures Receive(c, DecodeFailed) == Receive(c, ProtocolViolation) == c
    ensures forall auth :: Receive(c, InboundAuth(auth)) == c
  {
  }

  /** A death notice or a retry tick: adopt the PID of a registration that succeeded, or count, or close. */
  lemma PostAuthRepairs(c: Conn, m: Message)
    requires c.phase.PostAuth? && |c.queue| < 64 && (m.Terminated? || m.ReregisterRetry?)
    ensures var c', repairs := Receive(c, m), m.ReregisterRetry? || (c.pid == Some(m.who) && !c.retryArmed);
            if !repairs then c' == c
            else match m.call
              case Registered(pid) =>
                && c'.phase.PostAuth? && c'.queue == c.queue && c'.pid == pid && c'.attempts == 0 && !c'.retryArmed
                && (pid.Some? ==> pid.value in c'.watched) && c.watched <= c'.watched
              case CallFailed =>
                && c'.pid == c.pid && c'.watched == c.watched && c'.attempts == c.attempts + 1
                && if c.attempts + 1 < 3 then c'.phase.PostAuth? && c'.queue == c.queue && c'.retryArmed
                   else c'.phase.Closing? && c'.queue == c.queue + [Close]
  {
  }

  // ---- Before authentication ----

  /** Authentication is answered by one frame; a rejection, a time-out and a protocol violation end the session. */
  lemma PreAuthAnswers(c: Conn, m: Message)
    requires c.phase.PreAuth? && Roomy(c)
    ensures m.InboundAuth? && m.auth.Accepted? ==>
              && Receive(c, m).phase.PostAuth? && Receive(c, m).queue == c.queue + [AuthOk]
              && Receive(c, m).pid == m.auth.pid
              && (m.auth.pid.Some? ==> Receive(c, m).watched == c.watched + {m.auth.pid.value})
    ensures (m.InboundAuth? && m.auth.Rejected?) || m.AuthTimeoutExpired? || m.ProtocolViolation? ==>
              Queues(c, Receive(c, m), [AuthFailed, Close], Closing)
    ensures m.AppPingTick? ==> Queues(c, Receive(c, m), [Ping], PreAuth)
    ensures m.PongTimeoutExpired? ==> Queues(c, Receive(c, m), [Close], Closing)
    ensures (|| m.DecodeFailed? || m.AppPongReceived? || m.ForwardMessage? || m.NotifyRoomEvent?
             || m.Terminated? || m.ReregisterRetry?) ==> Receive(c, m) == c
  {
    assert c.queue + [AuthFailed] + [Close] == c.queue + [AuthFailed, Close];
  }

  /** With room for one frame only, a rejection still queues the notice, and stops for want of the close frame. */
  lemma LastSlotGoesToTheNotice(c: Conn, m: Message)
    requires c.phase.PreAuth? && |c.queue| == 63
    requires (m.InboundAuth? && m.auth.Rejected?) || m.AuthTimeoutExpired? || m.ProtocolViolation?
    ensures Queues(c, Receive(c, m), [AuthFailed], Stopped)
  {
  }

  // ---- At the end, and with a full queue ----

  /** A lost transport stops the actor in any phase; a closing actor drops everything else. */
  lemma ClosingDropsAll(c: Conn, m: Message)
    ensures m.TransportDown? ==> Receive(c, m) == c.(phase := Stopped)
    ensures !m.TransportDown? && (c.phase.Closing? || c.phase.Stopped?) ==> Receive(c, m) == c
  {
  }

  /** Whatever would have to be queued on a full queue stops the actor instead, and nothing is dropped from it. */
  lemma FullQueueStops(c: Conn, m: Message)
    requires c.phase.PostAuth? && |c.queue| == 64
    ensures FrameOf(m) != [] || m.AppPingTick? || m.PongTimeoutExpired? ==> Receive(c, m) == c.(phase := Stopped)
    ensures Receive(c, m).queue == c.queue
  {
  }

  // ---- Every run ----

  predicate IsContent(f: Frame) { f.Chat? || f.MemberJoined? || f.MemberLeft? }

  /** The frames that carry what the User grain sent. */
  function Content(frames: seq<Frame>): seq<Frame> {
    if frames == [] then []
    else
      var n := |frames| - 1;
      Content(frames[..n]) + if IsContent(frames[n]) then [frames[n]] else []
  }

  /** The frames due for m in this state: after authentication, with room for one. */
  function Due(c: Conn, m: Message): seq<Frame> {
    if c.phase.PostAuth? && |c.queue| < 64 then FrameOf(m) else []
  }

  /** What the grain's messages of a run amount to. */
  function Said(w: Wired, events: seq<Event>): seq<Frame>
    decreases |events|
  {
    if events == [] then []
    else
      var v := events[0];
      (if v.Deliver? then Due(w.conn, v.m) else []) + Said(Next(w, v), events[1..])
  }

  lemma {:induction false} ContentConcat(xs: seq<Frame>, ys: seq<Frame>)
    ensures Content(xs + ys) == Content(xs) + Content(ys)
  {
    if ys == [] {
      assert xs + ys == xs;
    } else {
      var n := |ys| - 1;
      assert (xs + ys)[..|xs| + n] == xs + ys[..n];
      ContentConcat(xs, ys[..n]);
    }
  }

  lemma {:induction false} NoContent(frames: seq<Frame>)
    requires forall f :: f in frames ==> !IsContent(f)
    ensures Content(frames) == []
  {
    if frames != [] {
      NoContent(frames[..|frames| - 1]);
    }
  }

  lemma ContentOfOne(f: Frame)
    requires IsContent(f)
    ensures Content([f]) == [f]
  {
    assert [f][..0] == [];
  }

  /** What Receive adds to the queue: the frames due, or frames without content. */
  function Added(c: Conn, m: Message): seq<Frame>
    requires |c.queue| <= |Receive(c, m).queue|
  {
    Receive(c, m).queue[|c.queue|..]
  }

  lemma PostAuthAdds(c: Conn, m: Message)
    requires c.phase.PostAuth?
    ensures c.queue <= Receive(c, m).queue
    ensures if Due(c, m) != [] then Added(c, m) == Due(c, m) else forall f :: f in Added(c, m) ==> !IsContent(f)
  {
    if |c.queue| < 64 && (m.ForwardMessage? || m.NotifyRoomEvent?) {
      PostAuthDelivers(c, m);
    }
  }

  lemma PreAuthAdds(c: Conn, m: Message)
    requires c.phase.PreAuth?
    ensures c.queue <= Receive(c, m).queue
    ensures forall f :: f in Added(c, m) ==> !IsContent(f)
  {
  }

  lemma MessageAdds(c: Conn, m: Message)
    ensures Receive(c, m).taken == c.taken && c.queue <= Receive(c, m).queue
    ensures if Due(c, m) != [] then Added(c, m) == Due(c, m) else forall f :: f in Added(c, m) ==> !IsContent(f)
  {
    ReceiveAppends(c, m);
    if c.phase.PostAuth? {
      PostAuthAdds(c, m);
    } else if c.phase.PreAuth? {
      PreAuthAdds(c, m);
    } else {
      ClosingDropsAll(c, m);
    }
  }

  lemma DueIsContent(c: Conn, m: Message)
    ensures Content(Due(c, m)) == Due(c, m)
  {
    if Due(c, m) != [] {
      ContentOfOne(Due(c, m)[0]);
    }
  }

  /** The frames one message adds. */
  lemma MessageContent(c: Conn, m: Message)
    ensures Content(Receive(c, m).Enqueued()) == Content(c.Enqueued()) + Due(c, m)
  {
    MessageAdds(c, m);
    DueIsContent(c, m);
    if Due(c, m) == [] {
      NoContent(Added(c, m));
    }
    assert Receive(c, m).Enqueued() == c.Enqueued() + Added(c, m);
    ContentConcat(c.Enqueued(), Added(c, m));
  }

  lemma StepContent(w: Wired, v: Event)
    ensures Content(Next(w, v).conn.Enqueued()) == Content(w.conn.Enqueued())
            + if v.Deliver? then Due(w.conn, v.m) else []
  {
    match v {
      case Deliver(m) => MessageContent(w.conn, m);
      case PumpTakes(_) =>
        if w.pumping && w.conn.queue != [] {
          TakingKeepsEnqueued(w.conn);
        }
      case PumpQuits =>
    }
  }

  /**
   * Over every run, the chat and membership frames enqueued are, one to one and in order, the
   * well-formed messages that the grain delivered after authentication while the queue had room - the
   * one that finds it full stops the connection.
   */
  lemma {:induction false} FramesMirrorMessages(w: Wired, events: seq<Event>)
    ensures Content(Run(w, events).conn.Enqueued()) == Content(w.conn.Enqueued()) + Said(w, events)
    decreases |events|
  {
    if events != [] {
      StepContent(w, events[0]);
      FramesMirrorMessages(Next(w, events[0]), events[1..]);
    }
  }

  /** In particular from the start. */
  lemma SessionsSayWhatWasSent(events: seq<Event>)
    ensures Content(Run(CONNECTED, events).conn.Enqueued()) == Said(CONNECTED, events)
  {
    FramesMirrorMessages(CONNECTED, events);
  }
}
