/**
 * The id generator of internal/snowflake/generator.go.
 *
 * A clock reading carries two numbers, as Go's time.Time does: the monotonic part, which is all
 * the deadline check looks at, and the wall part, which is all the timestamp is computed from.
 * A call to Next may read the clock many times (it spins when a millisecond is full), so it takes
 * the finite script of readings the clock will return to it.
 */
module Snowflake {
  import opened Options

  const MAX_WORKER_ID := 1023
  const MAX_SEQUENCE := 4095
  const MAX_TIMESTAMP := 0x1FF_FFFF_FFFF // 41 bits
  const MILLISECOND := 1_000_000         // in nanoseconds, the unit of every clock here

  /** `wall` is in nanoseconds since the package epoch; `mono` has an arbitrary origin. */
  datatype Reading = Reading(mono: int, wall: int)

  /** Duration.Milliseconds: division that truncates toward zero. */
  function MillisSinceEpoch(wall: int): int {
    if wall >= 0 then wall / MILLISECOND else -(-wall / MILLISECOND)
  }

  function Pack(millis: int, worker: int, sequence: int): int {
    millis * 0x40_0000 + worker * 0x1000 + sequence
  }

  function MillisOf(id: int): int { id / 0x40_0000 }
  function WorkerOf(id: int): int { id / 0x1000 % 0x400 }
  function SequenceOf(id: int): int { id % 0x1000 }

  /** The fields the generator keeps; the zero time as a deadline is None, which no reading precedes. */
  datatype State = State(worker: int, lastMillis: int, sequence: int, deadline: Option<int>) {
    ghost predicate Valid() {
      && 0 <= worker <= MAX_WORKER_ID
      && -1 <= lastMillis <= MAX_TIMESTAMP
      && 0 <= sequence <= MAX_SEQUENCE
    }

    predicate Allows(r: Reading) {
      deadline.Some? && r.mono < deadline.value
    }

    /** The greatest id minted so far, or a value below every id. */
    function Last(): int {
      if lastMillis < 0 then -1 else Pack(lastMillis, worker, sequence)
    }
  }

  datatype Outcome =
    | Minted(id: int)
    | LeaseExpired
    | ClockRegression
    | EpochExhausted
    | ClockBeforeEpoch
    | StillSpinning // the script ended before the call did

  datatype Step = Step(outcome: Outcome, state: State, used: nat)

  datatype Spin = Advanced(millis: int, used: nat) | Expired(used: nat) | OutOfReadings

  function SpinSpec(s: State, after: int, clock: seq<Reading>): (r: Spin)
    ensures r.Advanced? ==> 0 < r.used <= |clock| && after < r.millis
    ensures r.Expired? ==> 0 < r.used <= |clock|
  {
    if clock == [] then OutOfReadings
    else if !s.Allows(clock[0]) then Expired(1)
    else if MillisSinceEpoch(clock[0].wall) > after then Advanced(MillisSinceEpoch(clock[0].wall), 1)
    else match SpinSpec(s, after, clock[1..])
      case Advanced(m, n) => Advanced(m, n + 1)
      case Expired(n) => Expired(n + 1)
      case OutOfReadings => OutOfReadings
  }

  /** The tail of Next: range checks, then the only place the state changes. */
  function Commit(s: State, millis: int, seqno: int, used: nat): Step {
    if millis > MAX_TIMESTAMP then Step(EpochExhausted, s, used)
    else if Pack(millis, s.worker, seqno) <= 0 then Step(ClockBeforeEpoch, s, used)
    else Step(Minted(Pack(millis, s.worker, seqno)), s.(lastMillis := millis, sequence := seqno), used)
  }

  function NextSpec(s: State, clock: seq<Reading>): Step
    requires clock != []
  {
    var millis := MillisSinceEpoch(clock[0].wall);
    if !s.Allows(clock[0]) then Step(LeaseExpired, s, 1)
    else if millis < 0 then Step(ClockBeforeEpoch, s, 1)
    else if millis < s.lastMillis then Step(ClockRegression, s, 1)
    else if millis > s.lastMillis then Commit(s, millis, 0, 1)
    else if s.sequence + 1 <= MAX_SEQUENCE then Commit(s, millis, s.sequence + 1, 1)
    else match SpinSpec(s, s.lastMillis, clock[1..])
      case Advanced(m, n) => Commit(s, m, 0, n + 1)
      case Expired(n) => Step(LeaseExpired, s, n + 1)
      case OutOfReadings => Step(StillSpinning, s, |clock|)
  }

  class Generator {
    const workerID: int
    var lastMillis: int
    var sequence: int
    var leaseDeadline: Option<int>

    function View(): State
      reads this
    {
      State(workerID, lastMillis, sequence, leaseDeadline)
    }

    constructor (worker: int)
      requires 0 <= worker <= MAX_WORKER_ID
      ensures View() == State(worker, -1, 0, None) && View().Valid()
    {
      workerID, lastMillis, sequence, leaseDeadline := worker, -1, 0, None;
    }

    method Renew(deadline: Option<int>)
      modifies this
      ensures View() == old(View()).(deadline := deadline)
    {
      leaseDeadline := deadline;
    }

    method SpinNextMillis(after: int, clock: seq<Reading>) returns (r: Spin)
      ensures r == SpinSpec(View(), after, clock)
    {
      var i := 0;
      while i < |clock|
        invariant 0 <= i <= |clock|
        invariant SpinSpec(View(), after, clock) == match SpinSpec(View(), after, clock[i..])
          case Advanced(m, n) => Advanced(m, n + i)
          case Expired(n) => Expired(n + i)
          case OutOfReadings => OutOfReadings
      {
        if leaseDeadline.None? || clock[i].mono >= leaseDeadline.value {
          return Expired(i + 1);
        }
        var m := MillisSinceEpoch(clock[i].wall);
        if m > after {
          return Advanced(m, i + 1);
        }
        assert clock[i..][1..] == clock[i + 1..];
        i := i + 1;
      }
      r := OutOfReadings;
    }

    method Next(clock: seq<Reading>) returns (outcome: Outcome, used: nat)
      requires clock != []
      modifies this
      ensures Step(outcome, View(), used) == NextSpec(old(View()), clock)
    {
      used := 1;
      if leaseDeadline.None? || clock[0].mono >= leaseDeadline.value {
        return LeaseExpired, used;
      }
      var millis := MillisSinceEpoch(clock[0].wall);
      if millis < 0 {
        return ClockBeforeEpoch, used;
      }
      var seqno := 0;
      if millis < lastMillis {
        return ClockRegression, used;
      } else if millis == lastMillis {
        seqno := sequence + 1;
        if seqno > MAX_SEQUENCE {
          var spin := SpinNextMillis(lastMillis, clock[1..]);
          match spin {
            case Advanced(m, n) => millis, seqno, used := m, 0, n + 1;
            case Expired(n) => return LeaseExpired, n + 1;
            case OutOfReadings => return StillSpinning, |clock|;
          }
        }
      }
      if millis > MAX_TIMESTAMP {
        return EpochExhausted, used;
      }
      var id := Pack(millis, workerID, seqno);
      if id <= 0 {
        return ClockBeforeEpoch, used;
      }
      lastMillis, sequence := millis, seqno;
      outcome := Minted(id);
    }
  }

  /** NewGenerator: a worker id outside the ten bits is refused. */
  method NewGenerator(worker: int) returns (g: Option<Generator>)
    ensures g.Some? <==> 0 <= worker <= MAX_WORKER_ID
    ensures g.Some? ==> fresh(g.value) && g.value.View() == State(worker, -1, 0, None) && g.value.View().Valid()
  {
    if worker < 0 || worker > MAX_WORKER_ID {
      return None;
    }
    var made := new Generator(worker);
    g := Some(made);
  }

  // ---- What the ids are ----

  /** The fields can be read back, and packing orders by (millis, worker, sequence). */
  lemma PackDecodes(millis: int, worker: int, sequence: int)
    requires 0 <= millis && 0 <= worker <= MAX_WORKER_ID && 0 <= sequence <= MAX_SEQUENCE
    ensures MillisOf(Pack(millis, worker, sequence)) == millis
    ensures WorkerOf(Pack(millis, worker, sequence)) == worker
    ensures SequenceOf(Pack(millis, worker, sequence)) == sequence
  {
    var id := Pack(millis, worker, sequence);
    assert id / 0x1000 == millis * 0x400 + worker;
  }

  /**
   * The shift-and-or word of the source is the number Pack computes: fields of 41, 10 and 12 bits do
   * not overlap, and the word never reaches the sign bit.
   */
  lemma OrIsPack(millis: bv41, worker: bv10, sequence: bv12)
    ensures var word := (millis as bv64 << 22) | (worker as bv64 << 12) | sequence as bv64;
            && word as int == Pack(millis as int, worker as int, sequence as int)
            && word < 0x8000_0000_0000_0000
  {
  }

  // ---- What one call does ----

  /** A spin that advances stopped at a reading that was still inside the lease. */
  lemma {:induction false} SpinAdvancesInsideLease(s: State, after: int, clock: seq<Reading>)
    requires SpinSpec(s, after, clock).Advanced?
    ensures var r := SpinSpec(s, after, clock);
            s.Allows(clock[r.used - 1]) && r.millis == MillisSinceEpoch(clock[r.used - 1].wall)
  {
    if s.Allows(clock[0]) && MillisSinceEpoch(clock[0].wall) <= after {
      SpinAdvancesInsideLease(s, after, clock[1..]);
    }
  }

  /** A spin never reads past the first reading at or beyond the deadline. */
  lemma {:induction false} SpinEndsByDeadline(s: State, after: int, clock: seq<Reading>, k: nat)
    requires k < |clock| && !s.Allows(clock[k])
    ensures var r := SpinSpec(s, after, clock); !r.OutOfReadings? && r.used <= k + 1
  {
    if s.Allows(clock[0]) && MillisSinceEpoch(clock[0].wall) <= after {
      SpinEndsByDeadline(s, after, clock[1..], k - 1);
    }
  }

  /**
   * One call: either an id that is positive, fits 63 bits, exceeds everything minted before and
   * carries this worker and a millisecond the clock showed before the deadline; or an error that
   * leaves the minting state alone. Only Renew moves the deadline.
   */
  lemma NextIsSound(s: State, clock: seq<Reading>)
    requires clock != [] && s.Valid()
    ensures var r := NextSpec(s, clock);
            && r.state.Valid() && 0 < r.used <= |clock|
            && r.state.worker == s.worker && r.state.deadline == s.deadline
            && (!r.outcome.Minted? ==> r.state == s)
            && (r.outcome.Minted? ==>
                  && s.Last() < r.outcome.id == r.state.Last()
                  && 0 < r.outcome.id < 0x8000_0000_0000_0000
                  && r.outcome.id == Pack(r.state.lastMillis, s.worker, r.state.sequence)
                  && s.Allows(clock[r.used - 1])
                  && r.state.lastMillis == MillisSinceEpoch(clock[r.used - 1].wall) >= 0)
  {
    if SpinSpec(s, s.lastMillis, clock[1..]).Advanced? {
      SpinAdvancesInsideLease(s, s.lastMillis, clock[1..]);
    }
  }

  /** A whole call ends by the first reading at or past the deadline, whatever state it starts in. */
  lemma NextEndsByDeadline(s: State, clock: seq<Reading>, k: nat)
    requires k < |clock| && !s.Allows(clock[k])
    ensures var r := NextSpec(s, clock); r.outcome != StillSpinning && r.used <= k + 1
  {
    if 0 < k {
      SpinEndsByDeadline(s, s.lastMillis, clock[1..], k - 1);
    }
  }

  /** A call that spun and then minted did what a fresh call at its last reading would have done. */
  lemma SpinIsALaterCall(s: State, clock: seq<Reading>)
    requires clock != [] && s.Valid() && NextSpec(s, clock).outcome.Minted?
    ensures var r := NextSpec(s, clock);
            NextSpec(s, [clock[r.used - 1]]) == r.(used := 1)
  {
    NextIsSound(s, clock);
  }

  // ---- Whole lifetimes ----

  datatype Call = Renew(deadline: Option<int>) | Next(clock: seq<Reading>)

  function After(s: State, c: Call): State {
    match c
    case Renew(d) => s.(deadline := d)
    case Next(clock) => if clock == [] then s else NextSpec(s, clock).state
  }

  function Ids(s: State, calls: seq<Call>): seq<int>
    decreases |calls|
  {
    if calls == [] then []
    else
      var rest := Ids(After(s, calls[0]), calls[1..]);
      if calls[0].Next? && calls[0].clock != [] && NextSpec(s, calls[0].clock).outcome.Minted?
      then [NextSpec(s, calls[0].clock).outcome.id] + rest
      else rest
  }

  /** A positive 63-bit number whose three fields are the worker, a legal millisecond and a sequence. */
  predicate IsIdOf(worker: int, id: int) {
    && 0 < id < 0x8000_0000_0000_0000
    && WorkerOf(id) == worker && 0 <= MillisOf(id) <= MAX_TIMESTAMP && 0 <= SequenceOf(id) <= MAX_SEQUENCE
    && id == Pack(MillisOf(id), worker, SequenceOf(id))
  }

  predicate IncreasingIdsOf(worker: int, above: int, ids: seq<int>) {
    && (forall i :: 0 <= i < |ids| ==> above < ids[i] && IsIdOf(worker, ids[i]))
    && (forall i, j :: 0 <= i < j < |ids| ==> ids[i] < ids[j])
  }

  /**
   * Over any sequence of Renew and Next calls and any clock readings, the ids minted are strictly
   * increasing, and each is positive, below 2^63 and decodes uniquely.
   */
  lemma {:induction false} LifetimeIdsIncrease(s: State, calls: seq<Call>)
    requires s.Valid()
    ensures IncreasingIdsOf(s.worker, s.Last(), Ids(s, calls))
    decreases |calls|
  {
    if calls != [] {
      var s' := After(s, calls[0]);
      if calls[0].Next? && calls[0].clock != [] {
        NextIsSound(s, calls[0].clock);
        if NextSpec(s, calls[0].clock).outcome.Minted? {
          PackDecodes(s'.lastMillis, s.worker, s'.sequence);
        }
      }
      LifetimeIdsIncrease(s', calls[1..]);
    }
  }
}
