/**
 * The worker_lease table and the three statements of internal/persistence/workerlease/repo.go.
 * A token is the fencing token of a lease; times are the database clock.
 */
module LeaseTable {
  import opened Options
  import Snowflake

  const ACQUIRE_ATTEMPTS := 8

  datatype Row = Row(token: nat, acquired: int, expires: int)

  type Table = map<int, Row>

  predicate Free(t: Table, worker: int, now: int) {
    worker !in t || t[worker].expires <= now
  }

  /** The row selected by the acquire statement: the lowest id in [from, 1023] without an unexpired lease. */
  function LowestFree(t: Table, now: int, from: nat): (r: Option<int>)
    ensures r.Some? ==> from <= r.value <= Snowflake.MAX_WORKER_ID && Free(t, r.value, now)
    ensures forall k :: from <= k <= Snowflake.MAX_WORKER_ID && (r.Some? ==> k < r.value) ==> !Free(t, k, now)
    decreases Snowflake.MAX_WORKER_ID + 1 - from
  {
    if from > Snowflake.MAX_WORKER_ID then None
    else if Free(t, from, now) then Some(from)
    else LowestFree(t, now, from + 1)
  }

  /** The renew statement's WHERE clause: this token's row, not yet expired. */
  predicate IsHeld(t: Table, worker: int, token: nat, now: int) {
    worker in t && t[worker].token == token && t[worker].expires > now
  }

  function Claim(t: Table, worker: int, token: nat, now: int, ttl: int): Table {
    t[worker := Row(token, now, now + ttl)]
  }

  function Extend(t: Table, worker: int, token: nat, now: int, ttl: int): Table {
    if IsHeld(t, worker, token, now) then t[worker := t[worker].(expires := now + ttl)] else t
  }

  function Drop(t: Table, worker: int, token: nat): Table {
    if worker in t && t[worker].token == token then t - {worker} else t
  }

  /**
   * How one execution of the acquire statement goes: it runs; a rival takes the slot it selected; or
   * the call fails, with the statement perhaps in effect.
   */
  datatype Luck = Runs | Raced | Fails(took: bool)

  /** What one try meets: the table as rivals have left it, its instant, its fresh token, its luck. */
  datatype Try = Try(found: Table, now: int, token: nat, luck: Luck)

  /** The slot a try claims, if it gets that far. */
  function Slot(a: Try): Option<int> {
    if a.luck.Raced? || (a.luck.Fails? && !a.luck.took) then None else LowestFree(a.found, a.now, 0)
  }

  /** The table a try leaves behind. */
  function LeftBehind(a: Try, ttl: int): Table {
    if Slot(a).Some? then Claim(a.found, Slot(a).value, a.token, a.now, ttl) else a.found
  }

  datatype Acquired = Leased(worker: int, token: nat) | NoCapacity | Errored

  class Repo {
    var rows: Table

    /**
     * The bounded retry loop, with rivals at work between tries. It ends at the first try that gets a
     * row - then the lease is the lowest id free at that instant, under that try's own token - or that
     * fails, or at the eighth; tries before it wrote nothing.
     */
    method Acquire(tries: seq<Try>, ttl: int) returns (lease: Acquired, used: nat)
      requires |tries| >= ACQUIRE_ATTEMPTS
      modifies this
      ensures 1 <= used <= ACQUIRE_ATTEMPTS && rows == LeftBehind(tries[used - 1], ttl)
      ensures forall j :: 0 <= j < used - 1 ==> !tries[j].luck.Fails? && LeftBehind(tries[j], ttl) == tries[j].found
      ensures match lease
              case Leased(worker, token) =>
                !tries[used - 1].luck.Fails? && Slot(tries[used - 1]) == Some(worker) && token == tries[used - 1].token
              case Errored => tries[used - 1].luck.Fails?
              case NoCapacity =>
                used == ACQUIRE_ATTEMPTS && !tries[used - 1].luck.Fails? && Slot(tries[used - 1]).None?
    {
      used := 0;
      while used < ACQUIRE_ATTEMPTS
        invariant 0 <= used <= ACQUIRE_ATTEMPTS && (0 < used ==> rows == LeftBehind(tries[used - 1], ttl))
        invariant forall j :: 0 <= j < used ==> !tries[j].luck.Fails? && Slot(tries[j]).None?
      {
        var a := tries[used];
        used := used + 1;
        rows := a.found;
        if !a.luck.Raced? && !(a.luck.Fails? && !a.luck.took) {
          var slot := LowestFree(rows, a.now, 0);
          if slot.Some? {
            rows := Claim(rows, slot.value, a.token, a.now, ttl);
            return if a.luck.Fails? then Errored else Leased(slot.value, a.token), used;
          }
        }
        if a.luck.Fails? {
          return Errored, used;
        }
      }
      lease := NoCapacity;
    }

    method Renew(worker: int, token: nat, now: int, ttl: int) returns (held: bool)
      modifies this
      ensures held == IsHeld(old(rows), worker, token, now)
      ensures rows == Extend(old(rows), worker, token, now, ttl)
    {
      held := worker in rows && rows[worker].token == token && rows[worker].expires > now;
      if held {
        rows := rows[worker := rows[worker].(expires := now + ttl)];
      }
    }

    method Release(worker: int, token: nat)
      modifies this
      ensures rows == Drop(old(rows), worker, token)
    {
      if worker in rows && rows[worker].token == token {
        rows := rows - {worker};
      }
    }
  }
}
