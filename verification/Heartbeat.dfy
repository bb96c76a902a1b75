/**
 * The application heartbeat (internal/actor/connection/heartbeat.go): a repeating ping and a one-shot
 * watchdog that a pong re-arms. A beat is a ping tick or a pong at the instant the actor handles it.
 * The watchdog armed at d posts its expiry at d unless it was re-armed or cancelled before.
 */
module Heartbeat {
  import opened Options

  /** The zero value disables the heartbeat; others exist only through New. */
  datatype Cadence = Disabled | Enabled(ping: int, pong: int)

  function New(ping: int, pong: int): (r: Option<Cadence>)
    ensures r.Some? <==> 0 < ping < pong
  {
    if ping <= 0 then None else if pong <= ping then None else Some(Enabled(ping, pong))
  }

  class Timers {
    const cadence: Cadence
    var pinging: bool
    var watchdog: Option<int> // the instant a pending watchdog fires

    constructor (cadence: Cadence)
      ensures this.cadence == cadence && !pinging && watchdog == None
    {
      this.cadence, pinging, watchdog := cadence, false, None;
    }

    method Start()
      modifies this
      ensures pinging == (old(pinging) || cadence.Enabled?) && watchdog == old(watchdog)
    {
      if cadence.Disabled? {
        return;
      }
      pinging := true;
    }

    method EnsureWatchdog(now: int)
      modifies this
      ensures watchdog == if cadence.Enabled? then Armed(cadence.pong, old(watchdog), Ping(now)) else old(watchdog)
      ensures pinging == old(pinging)
    {
      if watchdog.Some? {
        return;
      }
      ResetWatchdog(now);
    }

    method ResetWatchdog(now: int)
      modifies this
      ensures watchdog == if cadence.Enabled? then Armed(cadence.pong, old(watchdog), Pong(now)) else old(watchdog)
      ensures pinging == old(pinging)
    {
      if cadence.Disabled? {
        return;
      }
      CancelWatchdog();
      watchdog := Some(now + cadence.pong);
    }

    method CancelWatchdog()
      modifies this
      ensures watchdog == None && pinging == old(pinging)
    {
      watchdog := None;
    }

    method Stop()
      modifies this
      ensures watchdog == None && !pinging
    {
      CancelWatchdog();
      pinging := false;
    }
  }

  // ---- Timed runs ----

  datatype Beat = Ping(at: int) | Pong(at: int)

  function Armed(pong: int, watchdog: Option<int>, b: Beat): Option<int> {
    if b.Ping? && watchdog.Some? then watchdog else Some(b.at + pong)
  }

  /** The expiry of a watchdog due at d comes before a beat handled at t; `tie` decides equal instants. */
  predicate Fires(d: int, t: int, tie: bool) {
    d < t || (d == t && tie)
  }

  datatype State = State(watchdog: Option<int>, timedOut: Option<int>)

  function Next(pong: int, tie: bool, s: State, b: Beat): State {
    if s.timedOut.Some? then s
    else if s.watchdog.Some? && Fires(s.watchdog.value, b.at, tie) then s.(timedOut := s.watchdog)
    else State(Armed(pong, s.watchdog, b), None)
  }

  function Run(pong: int, tie: bool, beats: seq<Beat>): State {
    if beats == [] then State(None, None)
    else Next(pong, tie, Run(pong, tie, beats[..|beats| - 1]), beats[|beats| - 1])
  }

  /** When, if ever, the peer has been declared dead by `until`, no beat following the last one. */
  function TimeOutBy(pong: int, tie: bool, beats: seq<Beat>, until: int): Option<int> {
    var s := Run(pong, tie, beats);
    if s.timedOut.Some? then s.timedOut
    else if s.watchdog.Some? && s.watchdog.value <= until then s.watchdog
    else None
  }

  // ---- Reference: the last sign of life ----

  /** The last pong, or the first ping if there was none. */
  function Anchor(beats: seq<Beat>): Option<int> {
    if beats == [] then None
    else
      var before := Anchor(beats[..|beats| - 1]);
      var b := beats[|beats| - 1];
      if b.Pong? || before.None? then Some(b.at) else before
  }

  /** The watchdog is always pongTimeout after the anchor, and fires only on a gap that long. */
  lemma {:induction false} WatchdogFollowsAnchor(pong: int, tie: bool, beats: seq<Beat>)
    ensures var s := Run(pong, tie, beats);
            && (s.timedOut.None? ==>
                  s.watchdog == match Anchor(beats) case None => None case Some(a) => Some(a + pong))
  {
    if beats != [] {
      WatchdogFollowsAnchor(pong, tie, beats[..|beats| - 1]);
    }
  }

  /** Beat i came too late for the sign of life before it. */
  predicate LateAt(pong: int, tie: bool, beats: seq<Beat>, i: nat)
    requires i < |beats|
  {
    Anchor(beats[..i]).Some? && Fires(Anchor(beats[..i]).value + pong, beats[i].at, tie)
  }

  /** A peer is timed out during a run exactly when some beat came too late. */
  lemma {:induction false} TimedOutIffLate(pong: int, tie: bool, beats: seq<Beat>)
    ensures Run(pong, tie, beats).timedOut.Some? <==> exists i :: 0 <= i < |beats| && LateAt(pong, tie, beats, i)
  {
    if beats != [] {
      var n := |beats| - 1;
      var before := beats[..n];
      TimedOutIffLate(pong, tie, before);
      WatchdogFollowsAnchor(pong, tie, before);
      forall i | 0 <= i < n ensures LateAt(pong, tie, before, i) <==> LateAt(pong, tie, beats, i) {
        assert before[..i] == beats[..i];
      }
      if Run(pong, tie, before).timedOut.Some? {
        var i :| 0 <= i < n && LateAt(pong, tie, before, i);
        assert LateAt(pong, tie, beats, i);
      } else {
        assert Run(pong, tie, beats).timedOut.Some? <==> LateAt(pong, tie, beats, n);
      }
    }
  }

  /** ... and the instant is pongTimeout after the last sign of life before the first beat that came too late. */
  lemma {:induction false} TimeOutInstant(pong: int, tie: bool, beats: seq<Beat>, i: nat)
    requires i < |beats| && LateAt(pong, tie, beats, i) && forall j :: 0 <= j < i ==> !LateAt(pong, tie, beats, j)
    ensures Run(pong, tie, beats).timedOut == Some(Anchor(beats[..i]).value + pong)
  {
    var n := |beats| - 1;
    var before := beats[..n];
    if i < n {
      assert forall j :: 0 <= j <= i ==> before[..j] == beats[..j];
      assert forall j :: 0 <= j < i ==> (LateAt(pong, tie, before, j) <==> LateAt(pong, tie, beats, j));
      TimeOutInstant(pong, tie, before, i);
    } else {
      forall j | 0 <= j < n ensures !LateAt(pong, tie, before, j) {
        assert before[..j] == beats[..j] && !LateAt(pong, tie, beats, j);
      }
      TimedOutIffLate(pong, tie, before);
      WatchdogFollowsAnchor(pong, tie, before);
    }
  }

  /**
   * A peer that goes silent after a run it survived is timed out exactly pongTimeout after its last
   * pong - or after the first ping, if it never answered one - and not before.
   */
  lemma SilentPeerTimesOutOnTime(pong: int, tie: bool, beats: seq<Beat>, until: int)
    requires Run(pong, tie, beats).timedOut.None? && Anchor(beats).Some?
    ensures TimeOutBy(pong, tie, beats, until) ==
            if Anchor(beats).value + pong <= until then Some(Anchor(beats).value + pong) else None
  {
    WatchdogFollowsAnchor(pong, tie, beats);
  }

  /** Pings alone, however many, do not push the deadline out. */
  lemma {:induction false} PingsDoNotExtend(beats: seq<Beat>)
    requires beats != [] && forall i :: 0 <= i < |beats| ==> beats[i].Ping?
    ensures Anchor(beats) == Some(beats[0].at)
  {
    if |beats| > 1 {
      PingsDoNotExtend(beats[..|beats| - 1]);
    }
  }

  // ---- A punctual peer is never timed out ----

  predicate Sorted(start: int, beats: seq<Beat>) {
    && (forall i :: 0 <= i < |beats| ==> start <= beats[i].at)
    && (forall i, j :: 0 <= i < j < |beats| ==> beats[i].at <= beats[j].at)
  }

  function LastPing(start: int, beats: seq<Beat>): int {
    if beats == [] then start
    else if beats[|beats| - 1].Ping? then beats[|beats| - 1].at
    else LastPing(start, beats[..|beats| - 1])
  }

  /**
   * The ping ticks keep coming: no beat is handled more than `gap` after the ping handled before it.
   * The gap is the ping interval where ticks are handled at once, and more behind a busy mailbox.
   */
  predicate Ticking(gap: int, start: int, beats: seq<Beat>) {
    forall i :: 0 <= i < |beats| ==> beats[i].at - LastPing(start, beats[..i]) <= gap
  }

  /** The ping at i is answered within d, or its answer is not overdue when the run ends. */
  ghost predicate AnsweredInTime(d: int, beats: seq<Beat>, i: nat)
    requires i < |beats|
  {
    || (exists j :: i < j < |beats| && beats[j].Pong? && beats[j].at - beats[i].at <= d)
    || (forall j :: i < j < |beats| ==> beats[j].at - beats[i].at <= d)
  }

  ghost predicate Punctual(d: int, beats: seq<Beat>) {
    forall i :: 0 <= i < |beats| && beats[i].Ping? ==> AnsweredInTime(d, beats, i)
  }

  /** The first ping since the last pong. */
  function Unanswered(beats: seq<Beat>): Option<nat> {
    if beats == [] || beats[|beats| - 1].Pong? then None
    else match Unanswered(beats[..|beats| - 1])
      case Some(k) => Some(k)
      case None => Some(|beats| - 1)
  }

  lemma {:induction false} UnansweredIsAnUnansweredPing(beats: seq<Beat>)
    ensures Unanswered(beats).Some? ==>
              var k := Unanswered(beats).value;
              k < |beats| && forall i :: k <= i < |beats| ==> beats[i].Ping?
  {
    if beats != [] {
      UnansweredIsAnUnansweredPing(beats[..|beats| - 1]);
    }
  }

  /** The oldest unanswered ping came at most one interval after the last sign of life. */
  lemma {:induction false} UnansweredIsRecent(gap: int, start: int, beats: seq<Beat>)
    requires 0 < gap && Sorted(start, beats) && Ticking(gap, start, beats)
    ensures Anchor(beats).None? <==> beats == []
    ensures Anchor(beats).Some? ==>
              match Unanswered(beats)
              case Some(k) => k < |beats| && beats[k].at <= Anchor(beats).value + gap
              case None => LastPing(start, beats) <= Anchor(beats).value
  {
    if beats != [] {
      var n := |beats| - 1;
      var before := beats[..n];
      TickingPrefix(gap, start, beats, n);
      UnansweredIsRecent(gap, start, before);
      LastPingIsPast(start, before, beats[n].at);
    }
  }

  lemma {:induction false} LastPingIsPast(start: int, beats: seq<Beat>, t: int)
    requires start <= t && forall i :: 0 <= i < |beats| ==> beats[i].at <= t
    ensures LastPing(start, beats) <= t
  {
    if beats != [] && beats[|beats| - 1].Pong? {
      LastPingIsPast(start, beats[..|beats| - 1], t);
    }
  }

  lemma TickingPrefix(gap: int, start: int, beats: seq<Beat>, n: nat)
    requires n <= |beats| && Ticking(gap, start, beats)
    ensures Ticking(gap, start, beats[..n])
  {
    forall i | 0 <= i < n ensures beats[..n][i].at - LastPing(start, beats[..n][..i]) <= gap {
      assert beats[..n][..i] == beats[..i];
    }
  }

  /** Up to its answer, nothing later than an in-time ping is more than d after it. */
  lemma BeforeTheAnswer(d: int, start: int, beats: seq<Beat>, k: nat, i: nat)
    requires k < i < |beats| && Sorted(start, beats) && AnsweredInTime(d, beats, k)
    requires forall j :: k <= j < i ==> beats[j].Ping?
    ensures beats[i].at - beats[k].at <= d
  {
    if exists j :: k < j < |beats| && beats[j].Pong? && beats[j].at - beats[k].at <= d {
      var j :| k < j < |beats| && beats[j].Pong? && beats[j].at - beats[k].at <= d;
      assert beats[i].at <= beats[j].at;
    }
  }

  lemma UnansweredIsNotDue(d: int, start: int, beats: seq<Beat>, i: nat)
    requires Sorted(start, beats) && Punctual(d, beats) && i < |beats| && Unanswered(beats[..i]).Some?
    ensures var k := Unanswered(beats[..i]).value; k < i && beats[i].at - beats[k].at <= d
  {
    var before := beats[..i];
    UnansweredIsAnUnansweredPing(before);
    var k := Unanswered(before).value;
    forall j | k <= j < i ensures beats[j].Ping? {
      assert before[j].Ping?;
    }
    BeforeTheAnswer(d, start, beats, k, i);
  }

  /** A beat that long after the last sign of life comes before the watchdog does. */
  predicate Within(delay: int, pong: int, tie: bool) {
    !Fires(pong, delay, tie)
  }

  /** What ticks at most `gap` apart and answers within d can add up to. */
  function Longest(gap: int, d: int): int {
    gap + if d < 0 then 0 else d
  }

  lemma PunctualIsNeverLate(gap: int, pong: int, d: int, tie: bool, start: int, beats: seq<Beat>, i: nat)
    requires 0 < gap && Within(Longest(gap, d), pong, tie)
    requires Sorted(start, beats) && Ticking(gap, start, beats) && Punctual(d, beats) && i < |beats|
    ensures !LateAt(pong, tie, beats, i)
  {
    TickingPrefix(gap, start, beats, i);
    UnansweredIsRecent(gap, start, beats[..i]);
    if Unanswered(beats[..i]).Some? {
      UnansweredIsNotDue(d, start, beats, i);
    }
  }

  /** The promise: every run with such ticks and such answers goes without a time-out. */
  ghost predicate Promise(gap: int, pong: int, d: int, tie: bool) {
    forall start, beats :: Sorted(start, beats) && Ticking(gap, start, beats) && Punctual(d, beats) ==>
      Run(pong, tie, beats).timedOut.None?
  }

  lemma PunctualPeerIsSafe(gap: int, pong: int, d: int, tie: bool)
    requires 0 < gap && Within(Longest(gap, d), pong, tie)
    ensures Promise(gap, pong, d, tie)
  {
    forall start, beats | Sorted(start, beats) && Ticking(gap, start, beats) && Punctual(d, beats)
      ensures Run(pong, tie, beats).timedOut.None?
    {
      forall i | 0 <= i < |beats| ensures !LateAt(pong, tie, beats, i) {
        PunctualIsNeverLate(gap, pong, d, tie, start, beats, i);
      }
      TimedOutIffLate(pong, tie, beats);
    }
  }

  // ---- and the bound is sharp, for every cadence ----

  /** A gap alone that is too long: no ping between two pongs. */
  lemma LongGapTimesOut(gap: int, pong: int, d: int, tie: bool)
    requires 0 < gap && !Within(gap, pong, tie)
    ensures !Promise(gap, pong, d, tie)
  {
    var beats := [Pong(0), Pong(gap)];
    assert beats[..0] == [] && beats[..1] == [Pong(0)];
    assert [Pong(0)][..0] == [];
    assert LateAt(pong, tie, beats, 1);
    TimedOutIffLate(pong, tie, beats);
    assert Sorted(0, beats) && Ticking(gap, 0, beats) && Punctual(d, beats);
  }

  /** A ping every `gap`, the first answered at once, the others only at `end`. */
  function Slow(gap: int, n: nat, end: int): seq<Beat> {
    [Ping(gap), Pong(gap)] + seq(n, i => Ping((i + 2) * gap)) + [Pong(end)]
  }

  lemma SlowBeats(gap: int, n: nat, end: int, i: nat)
    requires 2 <= i < n + 2
    ensures Slow(gap, n, end)[i] == Ping(i * gap)
  {
  }

  lemma SlowIsSorted(gap: int, n: nat, end: int)
    requires 0 < gap && (n + 1) * gap <= end && 1 <= n
    ensures Sorted(0, Slow(gap, n, end))
  {
    var beats := Slow(gap, n, end);
    forall i | 0 <= i < |beats| ensures 0 <= beats[i].at && (0 < i ==> beats[i - 1].at <= beats[i].at) {
      if 2 <= i < n + 2 {
        SlowBeats(gap, n, end, i);
        Multiples(gap, 1, i);
      }
      if 3 <= i {
        SlowBeats(gap, n, end, i - 1);
        Multiples(gap, i - 1, if i < n + 2 then i else n + 1);
      }
    }
    StepwiseSorted(beats);
  }

  lemma Multiples(gap: int, a: nat, b: nat)
    requires 0 < gap && a <= b
    ensures a * gap <= b * gap
  {
  }

  lemma {:induction false} StepwiseSorted(beats: seq<Beat>)
    requires forall i :: 0 < i < |beats| ==> beats[i - 1].at <= beats[i].at
    ensures forall i, j :: 0 <= i < j < |beats| ==> beats[i].at <= beats[j].at
  {
    if |beats| > 1 {
      var n := |beats| - 1;
      StepwiseSorted(beats[..n]);
      forall i, j | 0 <= i < j < |beats| ensures beats[i].at <= beats[j].at {
        if j == n {
          assert beats[n - 1].at <= beats[n].at;
          assert i < n - 1 ==> beats[..n][i].at <= beats[..n][n - 1].at;
        } else {
          assert beats[..n][i].at <= beats[..n][j].at;
        }
      }
    }
  }

  lemma SlowTicks(gap: int, n: nat, end: int)
    requires 0 < gap && 1 <= n && end <= (n + 2) * gap
    ensures Ticking(gap, 0, Slow(gap, n, end))
  {
    var beats := Slow(gap, n, end);
    assert beats[..0] == [] && beats[..1] == [Ping(gap)];
    assert beats[..2] == [Ping(gap), Pong(gap)] && beats[..2][..1] == [Ping(gap)];
    forall i | 0 <= i < |beats| ensures beats[i].at - LastPing(0, beats[..i]) <= gap {
      if 3 <= i {
        SlowBeats(gap, n, end, i - 1);
        assert LastPing(0, beats[..i]) == (i - 1) * gap;
      }
      if 2 <= i < n + 2 {
        SlowBeats(gap, n, end, i);
      }
    }
  }

  lemma SlowIsPunctual(gap: int, n: nat, end: int, d: int)
    requires 0 < gap && 1 <= n && 0 <= d && end - 2 * gap <= d
    ensures Punctual(d, Slow(gap, n, end))
  {
    var beats := Slow(gap, n, end);
    assert AnsweredInTime(d, beats, 0) by {
      assert beats[1] == Pong(gap);
    }
    forall i | 2 <= i < n + 2 ensures AnsweredInTime(d, beats, i) {
      SlowBeats(gap, n, end, i);
      Multiples(gap, 2, i);
      assert beats[n + 2] == Pong(end);
    }
  }

  lemma {:induction false} PingsKeepAnchor(beats: seq<Beat>, k: nat, a: int)
    requires k <= |beats| && Anchor(beats[..k]) == Some(a) && forall i :: k <= i < |beats| ==> beats[i].Ping?
    ensures Anchor(beats) == Some(a)
    decreases |beats| - k
  {
    if k == |beats| {
      assert beats[..k] == beats;
    } else {
      assert beats[..k + 1][..k] == beats[..k];
      PingsKeepAnchor(beats, k + 1, a);
    }
  }

  lemma SlowIsLate(gap: int, n: nat, end: int, pong: int, tie: bool)
    requires Fires(gap + pong, end, tie)
    ensures LateAt(pong, tie, Slow(gap, n, end), n + 2)
  {
    var beats := Slow(gap, n, end);
    var before := beats[..n + 2];
    assert before[..2] == [Ping(gap), Pong(gap)];
    forall i | 2 <= i < |before| ensures before[i].Ping? {
      SlowBeats(gap, n, end, i);
    }
    PingsKeepAnchor(before, 2, gap);
  }

  /** The last multiple of `gap` up to `end`, counted from the second. */
  lemma TicksUpTo(gap: int, end: int) returns (n: nat)
    requires 0 < gap && 2 * gap <= end
    ensures 1 <= n && (n + 1) * gap <= end <= (n + 2) * gap
  {
    n := 1;
    while (n + 2) * gap < end
      invariant 1 <= n && (n + 1) * gap <= end
      decreases end - (n + 1) * gap
    {
      n := n + 1;
    }
  }

  /** Answers that may come just too late: pings keep coming, and the answer loses to the watchdog. */
  lemma LateAnswerTimesOut(gap: int, pong: int, d: int, tie: bool)
    requires 0 < gap && 0 <= d && Within(gap, pong, tie) && !Within(gap + d, pong, tie)
    ensures !Promise(gap, pong, d, tie)
  {
    var end := if tie then gap + pong else gap + pong + 1;
    var n := TicksUpTo(gap, end);
    var beats := Slow(gap, n, end);
    SlowIsSorted(gap, n, end);
    SlowTicks(gap, n, end);
    SlowIsPunctual(gap, n, end, d);
    SlowIsLate(gap, n, end, pong, tie);
    TimedOutIffLate(pong, tie, beats);
  }

  /**
   * The exact bound, for every tick gap, time-out and answer delay: a peer that answers within d is
   * never timed out if and only if gap + d stays below pongTimeout, or equals it where a message due
   * at the very instant of the expiry is handled first.
   */
  lemma PromiseIsExact(gap: int, pong: int, d: int, tie: bool)
    requires 0 < gap
    ensures Promise(gap, pong, d, tie) <==> Within(Longest(gap, d), pong, tie)
  {
    if Within(Longest(gap, d), pong, tie) {
      PunctualPeerIsSafe(gap, pong, d, tie);
    } else if !Within(gap, pong, tie) {
      LongGapTimesOut(gap, pong, d, tie);
    } else {
      LateAnswerTimesOut(gap, pong, d, tie);
    }
  }

  /**
   * For a cadence whose ticks are handled on time: a peer whose pong to each ping is handled within d
   * is never timed out if and only if d < pongTimeout - pingInterval, or d equals it and a tie goes to
   * the pong.
   */
  lemma PunctualPeerSurvives(c: Cadence, d: int, tie: bool)
    requires c.Enabled? && New(c.ping, c.pong).Some?
    ensures Promise(c.ping, c.pong, d, tie) <==> d < c.pong - c.ping || (d == c.pong - c.ping && !tie)
  {
    PromiseIsExact(c.ping, c.pong, d, tie);
  }
}
