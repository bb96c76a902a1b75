/**
 * Start, Stop, the lease loop and context cancellation of one Manager
 * (internal/persistence/workerlease/manager.go), one shared-memory or channel operation per step.
 *
 * lifecycleMu serialises Start and Stop, so `holder` is the one of them that is under way. Loops are
 * keyed by their done channel and may overlap: an old one can still be on its way out while a new
 * one runs. A parent context may be cancelled at any time, so a loop may leave its select at any time.
 */
module Lifecycle {
  import opened Options

  /** Where a loop stands. Up to and including Releasing it may still touch `cur`. */
  datatype Pc = Selecting | Beating | Reacquiring | Tearing | Releasing | Cleared | Exited

  datatype Loop = Loop(stop: nat, done: nat, pc: Pc)

  datatype Holder =
    | Unlocked
    | Acquiring          // Start saw cur == nil and is acquiring the first lease
    | Launching          // Start published a session and has not launched its loop yet
    | Closing            // Stop saw cur != nil and is about to close the stop channel
    | Awaiting(on: nat)  // Stop waits for this done channel

  /** `closings` counts every close() of a channel; a second close of one would panic. */
  datatype State = State(
    holder: Holder,
    cur: Option<nat>,
    stop: nat,
    done: nat,
    loops: map<nat, Loop>,
    closings: multiset<nat>,
    nextChannel: nat,
    nextSession: nat,
    halted: set<nat>)

  const INIT := State(Unlocked, None, 0, 0, map[], multiset{}, 1, 0, {})

  datatype Event =
    | StartBegins | StartFails | StartPublishes | StartLaunches
    | StopBegins | StopCloses | StopReturns
    | BeatBegins(l: nat) | BeatKeeps(l: nat) | BeatLoses(l: nat) | Reacquires(l: nat) | ReacquireFails(l: nat)
    | Leaves(l: nat) | Halts(l: nat) | Clears(l: nat) | Signals(l: nat)

  function At(s: State, l: nat, pc: Pc): State
    requires l in s.loops
  {
    s.(loops := s.loops[l := s.loops[l].(pc := pc)])
  }

  function Publish(s: State): State {
    s.(cur := Some(s.nextSession), nextSession := s.nextSession + 1)
  }

  predicate Enabled(s: State, v: Event) {
    match v
    case StartBegins => s.holder.Unlocked?
    case StartFails => s.holder.Acquiring?
    case StartPublishes => s.holder.Acquiring?
    case StartLaunches => s.holder.Launching?
    case StopBegins => s.holder.Unlocked?
    case StopCloses => s.holder.Closing?
    case StopReturns => s.holder.Awaiting? && s.closings[s.holder.on] > 0
    case BeatBegins(l) => l in s.loops && s.loops[l].pc.Selecting?
    case BeatKeeps(l) => l in s.loops && s.loops[l].pc.Beating?
    case BeatLoses(l) => l in s.loops && s.loops[l].pc.Beating?
    case Reacquires(l) => l in s.loops && s.loops[l].pc.Reacquiring?
    case ReacquireFails(l) => l in s.loops && s.loops[l].pc.Reacquiring?
    case Leaves(l) => l in s.loops && s.loops[l].pc.Selecting?
    case Halts(l) => l in s.loops && s.loops[l].pc.Tearing?
    case Clears(l) => l in s.loops && s.loops[l].pc.Releasing?
    case Signals(l) => l in s.loops && s.loops[l].pc.Cleared?
  }

  /** One step. A nil `cur` is handled everywhere the source checks for it. */
  function Next(s: State, v: Event): State
    requires Enabled(s, v)
  {
    match v
    case StartBegins => if s.cur.Some? then s else s.(holder := Acquiring)
    case StartFails => s.(holder := Unlocked)
    case StartPublishes => Publish(s).(holder := Launching)
    case StartLaunches =>
      var stop, done := s.nextChannel, s.nextChannel + 1;
      s.(holder := Unlocked, stop := stop, done := done, nextChannel := s.nextChannel + 2,
         loops := s.loops[done := Loop(stop, done, Selecting)])
    case StopBegins => if s.cur.None? then s else s.(holder := Closing)
    case StopCloses => s.(closings := s.closings + multiset{s.stop}, holder := Awaiting(s.done))
    case StopReturns => s.(holder := Unlocked)
    case BeatBegins(l) => if s.cur.None? then s else At(s, l, Beating)
    case BeatKeeps(l) => At(s, l, Selecting)
    case BeatLoses(l) => At(s, l, Reacquiring).(halted := s.halted + Current(s))
    case Reacquires(l) => At(Publish(s), l, Selecting)
    case ReacquireFails(l) => At(s, l, Selecting)
    case Leaves(l) => At(s, l, Tearing)
    case Halts(l) =>
      if s.cur.None? then At(s, l, Cleared) else At(s, l, Releasing).(halted := s.halted + Current(s))
    case Clears(l) => At(s, l, Cleared).(cur := None)
    case Signals(l) => At(s, l, Exited).(closings := s.closings + multiset{s.loops[l].done})
  }

  function Current(s: State): set<nat> {
    if s.cur.Some? then {s.cur.value} else {}
  }

  predicate CanPlay(s: State, events: seq<Event>)
    decreases |events|
  {
    events == [] || (Enabled(s, events[0]) && CanPlay(Next(s, events[0]), events[1..]))
  }

  /** An interleaving: one event after the other. */
  function Play(s: State, events: seq<Event>): State
    requires CanPlay(s, events)
    decreases |events|
  {
    if events == [] then s else Play(Next(s, events[0]), events[1..])
  }

  /** The loop may still load, halt or store the current session. */
  predicate Owns(s: State, l: nat) {
    l in s.loops && !s.loops[l].pc.Cleared? && !s.loops[l].pc.Exited?
  }

  predicate StartWrites(s: State) {
    s.holder.Acquiring? || s.holder.Launching?
  }

  /** One writer of `cur`: the loop recorded in `done`, or a Start, never two at once. */
  ghost predicate OneWriter(s: State) {
    && (forall l :: Owns(s, l) ==> l == s.done)
    && (Owns(s, s.done) ==> !StartWrites(s) && s.cur.Some?)
    && (s.cur.Some? ==> s.holder.Launching? || Owns(s, s.done))
    && (s.holder.Acquiring? ==> s.cur.None?)
    && (s.holder.Launching? ==> s.cur.Some?)
  }

  /** A loop's two channels are its own, and only its done channel is closed by it, on exit. */
  predicate LoopOk(s: State, l: nat)
    requires l in s.loops
  {
    var p := s.loops[l];
    && p.done == l == p.stop + 1 && 0 < p.stop && l < s.nextChannel && l % 2 == 0
    && s.closings[l] == (if p.pc.Exited? then 1 else 0)
  }

  ghost predicate Inv(s: State) {
    && OneWriter(s)
    && s.nextChannel % 2 == 1 && s.done < s.nextChannel && s.done % 2 == 0 && (s.done > 0 ==> s.stop == s.done - 1)
    && (forall l :: l in s.loops ==> LoopOk(s, l))
    && (s.done == 0 ==> s.loops == map[] && s.stop == 0) && (s.done > 0 ==> s.done in s.loops)
    && (forall c :: s.closings[c] <= 1) && s.closings[0] == 0
    && (forall c :: s.nextChannel <= c ==> s.closings[c] == 0)
    // Stop closes a channel nobody closed before, and then waits for a loop that has been told to exit
    && (s.holder.Closing? ==> 0 < s.done && s.closings[s.stop] == 0)
    && (s.holder.Awaiting? ==> s.holder.on == s.done && 0 < s.done && s.closings[s.stop] == 1)
    && (s.cur.Some? && s.holder.Unlocked? ==> s.closings[s.stop] == 0)
  }

  lemma InitInv()
    ensures Inv(INIT)
  {
  }

  lemma StartKeepsInv(s: State, v: Event)
    requires Inv(s) && Enabled(s, v)
    requires v.StartBegins? || v.StartFails? || v.StartPublishes? || v.StartLaunches?
    ensures Inv(Next(s, v))
  {
    var s' := Next(s, v);
    forall l | l in s'.loops ensures LoopOk(s', l) {
      assert l in s.loops ==> LoopOk(s, l);
    }
    forall l | Owns(s', l) ensures l == s'.done {
      assert l in s.loops ==> Owns(s, l) || !Owns(s, l);
    }
  }

  lemma StopKeepsInv(s: State, v: Event)
    requires Inv(s) && Enabled(s, v)
    requires v.StopBegins? || v.StopCloses? || v.StopReturns?
    ensures Inv(Next(s, v))
  {
    var s' := Next(s, v);
    assert s.done in s.loops ==> LoopOk(s, s.done);
    forall l | l in s'.loops ensures LoopOk(s', l) {
      assert l in s.loops ==> LoopOk(s, l);
    }
    forall l | Owns(s', l) ensures l == s'.done {
      assert l in s.loops ==> Owns(s, l) || !Owns(s, l);
    }
  }

  lemma BeatKeepsInv(s: State, v: Event)
    requires Inv(s) && Enabled(s, v)
    requires v.BeatBegins? || v.BeatKeeps? || v.BeatLoses? || v.Reacquires? || v.ReacquireFails?
    ensures Inv(Next(s, v))
  {
    var s' := Next(s, v);
    assert Owns(s, v.l);
    forall l | l in s'.loops ensures LoopOk(s', l) {
      assert l in s.loops ==> LoopOk(s, l);
    }
    forall l | Owns(s', l) ensures l == s'.done {
      assert l in s.loops ==> Owns(s, l) || !Owns(s, l);
    }
  }

  lemma ExitKeepsInv(s: State, v: Event)
    requires Inv(s) && Enabled(s, v)
    requires v.Leaves? || v.Halts? || v.Clears?
    ensures Inv(Next(s, v))
  {
    var s' := Next(s, v);
    assert LoopOk(s, v.l) && Owns(s, v.l);
    forall l | l in s'.loops ensures LoopOk(s', l) {
      assert l in s.loops ==> LoopOk(s, l);
    }
    forall l | Owns(s', l) ensures l == s'.done {
      assert l in s.loops ==> Owns(s, l) || !Owns(s, l);
    }
  }

  lemma SignalKeepsInv(s: State, l: nat)
    requires Inv(s) && Enabled(s, Signals(l))
    ensures Inv(Next(s, Signals(l)))
  {
    var s' := Next(s, Signals(l));
    assert LoopOk(s, l);
    forall k | k in s'.loops ensures LoopOk(s', k) {
      assert LoopOk(s, k);
    }
    assert forall k :: Owns(s', k) <==> Owns(s, k);
    assert s.done in s.loops ==> LoopOk(s, s.done);
  }

  lemma StepKeepsInv(s: State, v: Event)
    requires Inv(s) && Enabled(s, v)
    ensures Inv(Next(s, v))
  {
    match v {
      case StartBegins => StartKeepsInv(s, v);
      case StartFails => StartKeepsInv(s, v);
      case StartPublishes => StartKeepsInv(s, v);
      case StartLaunches => StartKeepsInv(s, v);
      case StopBegins => StopKeepsInv(s, v);
      case StopCloses => StopKeepsInv(s, v);
      case StopReturns => StopKeepsInv(s, v);
      case Leaves(_) => ExitKeepsInv(s, v);
      case Halts(_) => ExitKeepsInv(s, v);
      case Clears(_) => ExitKeepsInv(s, v);
      case Signals(l) => SignalKeepsInv(s, l);
      case _ => BeatKeepsInv(s, v);
    }
  }

  lemma {:induction false} PlayKeepsInv(s: State, events: seq<Event>)
    requires Inv(s) && CanPlay(s, events)
    ensures Inv(Play(s, events))
    decreases |events|
  {
    if events != [] {
      StepKeepsInv(s, events[0]);
      PlayKeepsInv(Next(s, events[0]), events[1..]);
    }
  }

  lemma PlayedInv(events: seq<Event>)
    requires CanPlay(INIT, events)
    ensures Inv(Play(INIT, events))
  {
    InitInv();
    PlayKeepsInv(INIT, events);
  }

  // ---- What holds over every interleaving ----

  /** A thread that may write `cur`: a Start past its check, or a loop that has not cleared it. */
  datatype Writer = TheStart | TheLoop(l: nat)

  predicate MayWrite(s: State, w: Writer) {
    match w
    case TheStart => StartWrites(s)
    case TheLoop(l) => Owns(s, l)
  }

  /** The thread that takes a step which stores to `cur`. */
  function WriterOf(v: Event): Option<Writer> {
    match v
    case StartPublishes => Some(TheStart)
    case Reacquires(l) => Some(TheLoop(l))
    case Clears(l) => Some(TheLoop(l))
    case _ => None
  }

  lemma WritersAgree(s: State, a: Writer, b: Writer)
    requires Inv(s) && MayWrite(s, a) && MayWrite(s, b)
    ensures a == b
  {
  }

  lemma WriterMayWrite(s: State, v: Event)
    requires Enabled(s, v) && Next(s, v).cur != s.cur
    ensures WriterOf(v).Some? && MayWrite(s, WriterOf(v).value)
  {
  }

  /**
   * At most one thread may write the current session, and a step that changes the session is a step
   * of the one thread that may.
   */
  lemma AtMostOneWriter(events: seq<Event>, v: Event)
    requires CanPlay(INIT, events) && Enabled(Play(INIT, events), v)
    ensures var s := Play(INIT, events);
            && (forall a, b :: MayWrite(s, a) && MayWrite(s, b) ==> a == b)
            && (Next(s, v).cur != s.cur ==> WriterOf(v).Some? && MayWrite(s, WriterOf(v).value))
  {
    var s := Play(INIT, events);
    PlayedInv(events);
    forall a, b | MayWrite(s, a) && MayWrite(s, b) ensures a == b {
      WritersAgree(s, a, b);
    }
    if Next(s, v).cur != s.cur {
      WriterMayWrite(s, v);
    }
  }

  /** No channel is closed twice: the close a step performs is always the first of its channel. */
  lemma ChannelsCloseOnce(events: seq<Event>, v: Event)
    requires CanPlay(INIT, events) && Enabled(Play(INIT, events), v)
    ensures var s := Play(INIT, events);
            && (forall c :: Next(s, v).closings[c] <= 1)
            && (v.StopCloses? ==> s.closings[s.stop] == 0)
            && (v.Signals? ==> s.closings[s.loops[v.l].done] == 0)
  {
    var s := Play(INIT, events);
    PlayedInv(events);
    StepKeepsInv(s, v);
    assert v.Signals? ==> LoopOk(s, v.l);
  }

  /** Stop returns only when the session is gone and no loop can bring one back; until then its loop is leaving. */
  lemma StopReturnsStopped(events: seq<Event>)
    requires CanPlay(INIT, events) && Play(INIT, events).holder.Awaiting?
    ensures var s := Play(INIT, events);
            && s.holder.on in s.loops && s.closings[s.loops[s.holder.on].stop] == 1
            && (Enabled(s, StopReturns) <==> s.loops[s.holder.on].pc.Exited?)
            && (Enabled(s, StopReturns) ==> s.cur.None? && forall l :: !Owns(s, l))
  {
    var s := Play(INIT, events);
    PlayedInv(events);
    assert LoopOk(s, s.done);
  }

  ghost predicate SessionsAreOld(s: State) {
    (s.cur.Some? ==> s.cur.value < s.nextSession) && forall x :: x in s.halted ==> x < s.nextSession
  }

  lemma StepKeepsSessionsOld(s: State, v: Event)
    requires SessionsAreOld(s) && Enabled(s, v)
    ensures SessionsAreOld(Next(s, v))
  {
    match v {
      case StartPublishes =>
      case Reacquires(l) =>
      case _ =>
    }
  }

  lemma {:induction false} PlayKeepsSessionsOld(s: State, events: seq<Event>)
    requires SessionsAreOld(s) && CanPlay(s, events)
    ensures SessionsAreOld(Play(s, events))
    decreases |events|
  {
    if events != [] {
      StepKeepsSessionsOld(s, events[0]);
      PlayKeepsSessionsOld(Next(s, events[0]), events[1..]);
    }
  }

  lemma HaltedSessionStaysGone(s: State, v: Event, x: nat)
    requires SessionsAreOld(s) && Enabled(s, v) && x in s.halted && s.cur != Some(x)
    ensures x in Next(s, v).halted && Next(s, v).cur != Some(x)
  {
  }

  lemma {:induction false} HaltedStaysGoneAlong(s: State, events: seq<Event>, x: nat)
    requires SessionsAreOld(s) && CanPlay(s, events) && x in s.halted && s.cur != Some(x)
    ensures x in Play(s, events).halted && Play(s, events).cur != Some(x)
    decreases |events|
  {
    if events != [] {
      HaltedSessionStaysGone(s, events[0], x);
      StepKeepsSessionsOld(s, events[0]);
      HaltedStaysGoneAlong(Next(s, events[0]), events[1..], x);
    }
  }

  /** A halted session that is no longer current never becomes current again, whatever follows. */
  lemma HaltedSessionsStayGone(before: seq<Event>, after: seq<Event>, x: nat)
    requires CanPlay(INIT, before) && CanPlay(Play(INIT, before), after)
    requires x in Play(INIT, before).halted && Play(INIT, before).cur != Some(x)
    ensures var s := Play(Play(INIT, before), after); x in s.halted && s.cur != Some(x)
  {
    PlayKeepsSessionsOld(INIT, before);
    HaltedStaysGoneAlong(Play(INIT, before), after, x);
  }

  // ---- What a call achieves ----

  lemma PlayCons(s: State, v: Event, rest: seq<Event>)
    requires Enabled(s, v) && CanPlay(Next(s, v), rest)
    ensures CanPlay(s, [v] + rest) && Play(s, [v] + rest) == Play(Next(s, v), rest)
  {
    assert ([v] + rest)[1..] == rest;
  }

  lemma PlayTwo(s: State, u: Event, v: Event)
    requires Enabled(s, u) && Enabled(Next(s, u), v)
    ensures CanPlay(s, [u, v]) && Play(s, [u, v]) == Next(Next(s, u), v)
  {
    PlayCons(Next(s, u), v, []);
    assert [v] + [] == [v];
    PlayCons(s, u, [v]);
    assert [u] + [v] == [u, v];
  }

  /** Start on a stopped manager: a new session, and a loop for it with two new channels. */
  lemma StartRuns(s: State)
    requires s.holder.Unlocked? && s.cur.None?
    ensures CanPlay(s, [StartBegins] + [StartPublishes, StartLaunches])
    ensures var s' := Play(s, [StartBegins] + [StartPublishes, StartLaunches]);
            && s'.holder.Unlocked? && s'.cur == Some(s.nextSession) && s'.nextSession == s.nextSession + 1
            && s'.done == s'.stop + 1 && s'.stop == s.nextChannel && s'.nextChannel == s.nextChannel + 2
            && s'.loops == s.loops[s'.done := Loop(s'.stop, s'.done, Selecting)]
            && s'.halted == s.halted && s'.closings == s.closings
  {
    PlayTwo(Next(s, StartBegins), StartPublishes, StartLaunches);
    PlayCons(s, StartBegins, [StartPublishes, StartLaunches]);
  }

  /** A Start that gets no lease, a second Start, and a Stop of a stopped manager leave everything as it was. */
  lemma NothingHappens(s: State)
    requires s.holder.Unlocked?
    ensures if s.cur.Some? then Next(s, StartBegins) == s
            else CanPlay(s, [StartBegins, StartFails]) && Play(s, [StartBegins, StartFails]) == s
    ensures s.cur.None? ==> Next(s, StopBegins) == s
  {
    if s.cur.None? {
      PlayTwo(s, StartBegins, StartFails);
    }
  }

  /** A loop told to leave halts the session, clears it, and closes its done channel last. */
  lemma LoopLeaves(s: State, l: nat)
    requires l in s.loops && s.loops[l].pc.Selecting? && s.loops[l].done == l && s.cur.Some?
    ensures CanPlay(s, [Leaves(l), Halts(l)]) && CanPlay(Play(s, [Leaves(l), Halts(l)]), [Clears(l), Signals(l)])
    ensures var halted := Play(s, [Leaves(l), Halts(l)]);
            halted.cur == s.cur && halted.halted == s.halted + {s.cur.value} && halted.closings == s.closings
    ensures var s' := Play(Play(s, [Leaves(l), Halts(l)]), [Clears(l), Signals(l)]);
            && s'.cur.None? && s'.halted == s.halted + {s.cur.value} && s'.closings == s.closings + multiset{l}
            && s'.loops == s.loops[l := s.loops[l].(pc := Exited)] && s'.holder == s.holder
  {
    PlayTwo(s, Leaves(l), Halts(l));
    PlayTwo(Play(s, [Leaves(l), Halts(l)]), Clears(l), Signals(l));
  }

  /** Stop closes the stop channel of the running loop, and returns once that loop has gone. */
  lemma StopStops(s: State)
    requires s.holder.Unlocked? && s.cur.Some? && s.done in s.loops
    requires s.loops[s.done].pc.Selecting? && s.loops[s.done].done == s.done
    ensures CanPlay(s, [StopBegins, StopCloses])
    ensures var waiting, l := Play(s, [StopBegins, StopCloses]), s.done;
            && waiting.holder == Awaiting(l) && waiting.closings == s.closings + multiset{s.stop}
            && waiting.cur == s.cur && waiting.loops == s.loops
            && CanPlay(waiting, [Leaves(l), Halts(l)])
            && CanPlay(Play(waiting, [Leaves(l), Halts(l)]), [Clears(l), Signals(l)])
            && var gone := Play(Play(waiting, [Leaves(l), Halts(l)]), [Clears(l), Signals(l)]);
            && Enabled(gone, StopReturns) && Next(gone, StopReturns).holder.Unlocked?
            && Next(gone, StopReturns).cur.None? && s.cur.value in Next(gone, StopReturns).halted
  {
    PlayTwo(s, StopBegins, StopCloses);
    LoopLeaves(Play(s, [StopBegins, StopCloses]), s.done);
  }

  /** A beat that keeps the lease changes nothing. */
  lemma KeptBeat(s: State, l: nat)
    requires l in s.loops && s.loops[l].pc.Selecting? && s.cur.Some?
    ensures CanPlay(s, [BeatBegins(l), BeatKeeps(l)]) && Play(s, [BeatBegins(l), BeatKeeps(l)]) == s
  {
    PlayTwo(s, BeatBegins(l), BeatKeeps(l));
  }

  /** One that loses it halts the session before anything else. */
  lemma LostBeat(s: State, l: nat)
    requires l in s.loops && s.loops[l].pc.Selecting? && s.cur.Some?
    ensures CanPlay(s, [BeatBegins(l), BeatLoses(l)])
    ensures var lost := Play(s, [BeatBegins(l), BeatLoses(l)]);
            lost == s.(halted := s.halted + {s.cur.value}, loops := s.loops[l := s.loops[l].(pc := Reacquiring)])
  {
    PlayTwo(s, BeatBegins(l), BeatLoses(l));
  }

  /** Then a new session is published, or the halted one is kept for the next beat. */
  lemma AfterALoss(s: State, l: nat)
    requires l in s.loops && s.loops[l].pc.Reacquiring?
    ensures Enabled(s, Reacquires(l)) && Enabled(s, ReacquireFails(l))
    ensures Next(s, Reacquires(l)).cur == Some(s.nextSession) && Next(s, ReacquireFails(l)).cur == s.cur
    ensures var loops := s.loops[l := s.loops[l].(pc := Selecting)];
            Next(s, Reacquires(l)).loops == Next(s, ReacquireFails(l)).loops == loops
    ensures Next(s, Reacquires(l)).halted == Next(s, ReacquireFails(l)).halted == s.halted
  {
  }
}
