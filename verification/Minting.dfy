/**
 * What every single call of the id generator of module Snowflake answers, reading by reading, and
 * what one millisecond yields.
 */
module Minting {
  import opened Options
  import opened Snowflake

  /** The id and the state of a call that mints (millis, sequence) at its first reading. */
  predicate MintsAt(s: State, clock: seq<Reading>, millis: int, sequence: int)
    requires clock != []
  {
    var r := NextSpec(s, clock);
    && r.outcome == Minted(Pack(millis, s.worker, sequence)) && r.used == 1
    && r.state == State(s.worker, millis, sequence, s.deadline)
  }

  /** A later millisecond mints its sequence 0. */
  lemma FreshMillisecondMints(s: State, clock: seq<Reading>)
    requires clock != [] && s.Valid() && s.Allows(clock[0])
    requires s.lastMillis < MillisSinceEpoch(clock[0].wall) <= MAX_TIMESTAMP
    requires 0 < MillisSinceEpoch(clock[0].wall) || (0 == MillisSinceEpoch(clock[0].wall) && 0 < s.worker)
    ensures MintsAt(s, clock, MillisSinceEpoch(clock[0].wall), 0)
  {
  }

  /** The same millisecond mints the next sequence number: the id after the last one. */
  lemma SameMillisecondMints(s: State, clock: seq<Reading>)
    requires clock != [] && s.Valid() && s.Allows(clock[0])
    requires 0 <= s.lastMillis == MillisSinceEpoch(clock[0].wall) && s.sequence < MAX_SEQUENCE
    ensures MintsAt(s, clock, s.lastMillis, s.sequence + 1)
    ensures NextSpec(s, clock).outcome == Minted(s.Last() + 1)
  {
  }

  /** A reading at which a spin from `after` ends. */
  predicate EndsSpin(s: State, after: int, r: Reading) {
    !s.Allows(r) || after < MillisSinceEpoch(r.wall)
  }

  lemma {:induction false} SpinFindsFirst(s: State, after: int, clock: seq<Reading>, j: nat)
    requires j <= |clock| && forall i :: 0 <= i < j ==> !EndsSpin(s, after, clock[i])
    ensures j == |clock| ==> SpinSpec(s, after, clock).OutOfReadings?
    ensures j < |clock| && EndsSpin(s, after, clock[j]) ==>
              SpinSpec(s, after, clock) ==
              if s.Allows(clock[j]) then Advanced(MillisSinceEpoch(clock[j].wall), j + 1) else Expired(j + 1)
  {
    if j > 0 {
      SpinFindsFirst(s, after, clock[1..], j - 1);
    }
  }

  /**
   * A full millisecond spins, exactly to the first reading past the deadline or in a later
   * millisecond, and is then decided as a call at that reading alone; until one comes it keeps spinning.
   */
  lemma FullMillisecondSpins(s: State, clock: seq<Reading>, j: nat)
    requires clock != [] && s.Valid() && s.Allows(clock[0])
    requires 0 <= s.lastMillis == MillisSinceEpoch(clock[0].wall) && s.sequence == MAX_SEQUENCE
    requires 1 <= j <= |clock| && forall i :: 1 <= i < j ==> !EndsSpin(s, s.lastMillis, clock[i])
    ensures j == |clock| ==> NextSpec(s, clock) == Step(StillSpinning, s, |clock|)
    ensures j < |clock| && EndsSpin(s, s.lastMillis, clock[j]) ==>
              NextSpec(s, clock) == NextSpec(s, [clock[j]]).(used := j + 1)
  {
    SpinFindsFirst(s, s.lastMillis, clock[1..], j - 1);
  }

  /** Exactly when each answer is given, for the reading that decides. */
  lemma AnswersExactly(s: State, r: Reading)
    requires s.Valid()
    ensures var millis, outcome := MillisSinceEpoch(r.wall), NextSpec(s, [r]).outcome;
            && (outcome == LeaseExpired <==> !s.Allows(r))
            && (outcome == ClockBeforeEpoch <==>
                  s.Allows(r) && (millis < 0 || (millis == 0 && s.worker == 0 && s.lastMillis < 0)))
            && (outcome == ClockRegression <==> s.Allows(r) && 0 <= millis < s.lastMillis)
            && (outcome == EpochExhausted <==> s.Allows(r) && MAX_TIMESTAMP < millis)
            && (outcome == StillSpinning <==> s.Allows(r) && 0 <= millis == s.lastMillis && s.sequence == MAX_SEQUENCE)
            && (outcome.Minted? <==>
                  && s.Allows(r) && s.lastMillis <= millis && 0 <= millis <= MAX_TIMESTAMP
                  && (millis == s.lastMillis ==> s.sequence < MAX_SEQUENCE)
                  && (millis == 0 && s.worker == 0 ==> s.lastMillis == 0))
  {
    assert [r][1..] == [];
    assert SpinSpec(s, s.lastMillis, [r][1..]).OutOfReadings?;
  }

  /** Only a full millisecond looks past the first reading. */
  lemma FirstReadingDecides(s: State, clock: seq<Reading>)
    requires clock != [] && s.Valid() && NextSpec(s, [clock[0]]).outcome != StillSpinning
    ensures NextSpec(s, clock) == NextSpec(s, [clock[0]])
  {
  }

  // ---- One millisecond ----

  /** Every reading is inside the lease and in this millisecond. */
  predicate AllIn(s: State, millis: int, readings: seq<Reading>) {
    forall i :: 0 <= i < |readings| ==> s.Allows(readings[i]) && MillisSinceEpoch(readings[i].wall) == millis
  }

  /** One call per reading, each reading the clock once. */
  function Calls(readings: seq<Reading>): seq<Call> {
    if readings == [] then [] else [Next([readings[0]])] + Calls(readings[1..])
  }

  /** n consecutive ids from `first` on. */
  function Consecutive(first: int, n: nat): seq<int> {
    seq(n, i requires 0 <= i < n => first + i)
  }

  function Min(a: int, b: int): int { if a < b then a else b }

  lemma ConsecutiveFrom(first: int, n: nat)
    requires 0 < n
    ensures Consecutive(first, n) == [first] + Consecutive(first + 1, n - 1)
  {
  }

  /** The ids of a row of calls whose first one mints. */
  lemma FirstCallMints(s: State, readings: seq<Reading>, millis: int, sequence: int)
    requires readings != [] && MintsAt(s, [readings[0]], millis, sequence)
    ensures Ids(s, Calls(readings)) ==
            [Pack(millis, s.worker, sequence)]
            + Ids(State(s.worker, millis, sequence, s.deadline), Calls(readings[1..]))
  {
    assert Calls(readings)[1..] == Calls(readings[1..]);
  }

  lemma {:induction false} RestOfMillisecond(s: State, readings: seq<Reading>)
    requires s.Valid() && 0 <= s.lastMillis
    requires AllIn(s, s.lastMillis, readings)
    ensures Ids(s, Calls(readings)) == Consecutive(s.Last() + 1, Min(|readings|, MAX_SEQUENCE - s.sequence))
    decreases |readings|
  {
    if readings != [] {
      var r := readings[0];
      if s.sequence < MAX_SEQUENCE {
        SameMillisecondMints(s, [r]);
        FirstCallMints(s, readings, s.lastMillis, s.sequence + 1);
        RestOfMillisecond(s.(sequence := s.sequence + 1), readings[1..]);
        ConsecutiveFrom(s.Last() + 1, Min(|readings|, MAX_SEQUENCE - s.sequence));
      } else {
        AnswersExactly(s, r);
        NextIsSound(s, [r]);
        assert Calls(readings)[1..] == Calls(readings[1..]);
        RestOfMillisecond(s, readings[1..]);
      }
    }
  }

  /**
   * Calls within one fresh millisecond mint its ids one after the other, from sequence 0 on, and
   * 4096 of them at most: every call mints until all are used, and none after that.
   */
  lemma {:induction false} MillisecondYields4096(s: State, millis: int, readings: seq<Reading>)
    requires s.Valid() && s.lastMillis < millis <= MAX_TIMESTAMP && (0 < millis || (millis == 0 && 0 < s.worker))
    requires AllIn(s, millis, readings)
    ensures Ids(s, Calls(readings)) == Consecutive(Pack(millis, s.worker, 0), Min(|readings|, 4096))
  {
    if readings != [] {
      var rest, s' := readings[1..], State(s.worker, millis, 0, s.deadline);
      FreshMillisecondMints(s, [readings[0]]);
      FirstCallMints(s, readings, millis, 0);
      RestOfMillisecond(s', rest);
      var first, k := Pack(millis, s.worker, 0), Min(|rest|, 4095);
      assert s'.Last() == first && Ids(s', Calls(rest)) == Consecutive(first + 1, k);
      ConsecutiveFrom(first, k + 1);
      assert Min(|readings|, 4096) == k + 1;
    }
  }
}
