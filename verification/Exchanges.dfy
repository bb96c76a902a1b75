/**
 * Whole exchanges of one lease manager with the database (internal/persistence/workerlease/manager.go),
 * in any world of module Fleet: what each of them leaves in the table, at the manager and at its
 * generators.
 */
module Exchanges {
  import opened Options
  import opened LeaseTable
  import opened Snowflake
  import opened Fleet

  lemma RunCons(e: Env, w: World, a: Action, rest: seq<Action>)
    requires Do(e, w, a).Some?
    ensures Run(e, w, [a] + rest) == Run(e, Do(e, w, a).value, rest)
  {
    assert ([a] + rest)[1..] == rest;
  }

  lemma RunThree(e: Env, w: World, a: Action, b: Action, c: Action)
    requires Do(e, w, a).Some? && Do(e, Do(e, w, a).value, b).Some?
    ensures Run(e, w, [a, b, c]) == Do(e, Do(e, Do(e, w, a).value, b).value, c)
  {
    var w1, w2 := Do(e, w, a).value, Do(e, Do(e, w, a).value, b).value;
    RunCons(e, w, a, [b, c]);
    RunCons(e, w1, b, [c]);
    assert [a] + [b, c] == [a, b, c] && [b] + [c] == [b, c];
    if Do(e, w2, c).Some? {
      RunCons(e, w2, c, []);
      assert [c] + [] == [c];
    }
  }

  /** The deadline that a request sent by p in this world earns. */
  function Earned(e: Env, w: World, p: nat): Option<int>
    requires p in e.hosts
  {
    Some(w.now + e.hosts[p].offset + e.hosts[p].ttl - e.hosts[p].margin)
  }

  /** p is between exchanges, with this session. */
  predicate Rests(w: World, p: nat, s: Session) {
    p in w.managers && w.managers[p] == Manager(Some(s), Idle)
  }

  // ---- A first lease ----

  /** Start, answered: the lowest free worker id, under a new token, for a full ttl. */
  lemma StartLeases(e: Env, w: World, p: nat)
    requires p in e.hosts && p in w.managers && w.managers[p] == Manager(None, Idle)
    requires LowestFree(w.table, w.now, 0).Some?
    ensures var token, slot := |w.requests|, LowestFree(w.table, w.now, 0).value;
            var r := Run(e, w, [Start(p), Execute(token, false), Deliver(p)]);
            && r.Some?
            && r.value.managers == w.managers[p := Manager(Some(Session(slot, token)), Idle)]
            && r.value.gens == w.gens[token := State(slot, -1, 0, Earned(e, w, p))]
            && r.value.table == w.table[slot := Row(token, w.now, w.now + e.hosts[p].ttl)]
            && r.value.log == w.log && r.value.lost == w.lost && r.value.retired == w.retired
  {
    RunThree(e, w, Start(p), Execute(|w.requests|, false), Deliver(p));
  }

  // ---- A beat ----

  /** A renewal, answered: row and deadline move on by a full ttl, and nothing else changes. */
  lemma BeatRenews(e: Env, w: World, p: nat, s: Session, raced: bool)
    requires p in e.hosts && Rests(w, p, s) && s.token in w.gens && IsHeld(w.table, s.worker, s.token, w.now)
    ensures var r := Run(e, w, [Beat(p), Execute(|w.requests|, raced), Deliver(p)]);
            && r.Some? && r.value.managers == w.managers
            && r.value.gens == w.gens[s.token := w.gens[s.token].(deadline := Earned(e, w, p))]
            && r.value.table == w.table[s.worker := w.table[s.worker].(expires := w.now + e.hosts[p].ttl)]
            && r.value.log == w.log && r.value.lost == w.lost && r.value.retired == w.retired
  {
    var i := |w.requests|;
    RunThree(e, w, Beat(p), Execute(i, raced), Deliver(p));
  }

  /** A renewal without an answer changes nothing at the manager or its generators; the next beat can be sent. */
  lemma BeatFails(e: Env, w: World, p: nat, s: Session)
    requires p in e.hosts && Rests(w, p, s)
    ensures Do(e, w, Beat(p)).Some?
    ensures var r := Do(e, Do(e, w, Beat(p)).value, GiveUp(p));
            && r.Some? && r.value.managers == w.managers && r.value.gens == w.gens && r.value.table == w.table
            && r.value.lost == w.lost && r.value.retired == w.retired && Do(e, r.value, Beat(p)).Some?
  {
  }

  /** The world in which p has heard of a loss and asked for a new lease. */
  function AfterLoss(e: Env, w: World, p: nat, s: Session): Option<World> {
    Run(e, w, [Beat(p), Execute(|w.requests|, false), Deliver(p)])
  }

  /** A renewal that lost: the generator is halted at once, and a new lease is asked for under a new token. */
  lemma BeatLoses(e: Env, w: World, p: nat, s: Session)
    requires p in e.hosts && Rests(w, p, s) && s.token in w.gens && !IsHeld(w.table, s.worker, s.token, w.now)
    ensures var r, n := AfterLoss(e, w, p, s), |w.requests|;
            && r.Some? && r.value.table == w.table && r.value.now == w.now && r.value.log == w.log
            && r.value.gens == w.gens[s.token := w.gens[s.token].(deadline := None)]
            && r.value.lost == w.lost + {s.token} && r.value.retired == w.retired
            && r.value.managers == w.managers[p := Manager(Some(s), Acquiring(n + 1, w.now + e.hosts[p].offset, 1))]
            && |r.value.requests| == n + 2
            && r.value.requests[n + 1] == Request(p, Acquire, -1, n + 1, w.now, Pending)
  {
    RunThree(e, w, Beat(p), Execute(|w.requests|, false), Deliver(p));
  }

  /** ... which, answered, is the lowest free worker id, in a new session with a new generator. */
  lemma LossReacquires(e: Env, w: World, p: nat, s: Session)
    requires p in e.hosts && Rests(w, p, s) && s.token in w.gens && !IsHeld(w.table, s.worker, s.token, w.now)
    requires LowestFree(w.table, w.now, 0).Some? && AfterLoss(e, w, p, s).Some?
    ensures var w1, token, slot := AfterLoss(e, w, p, s).value, |w.requests| + 1, LowestFree(w.table, w.now, 0).value;
            && Do(e, w1, Execute(token, false)).Some?
            && var r := Do(e, Do(e, w1, Execute(token, false)).value, Deliver(p));
            && r.Some? && Rests(r.value, p, Session(slot, token))
            && r.value.gens == w1.gens[token := State(slot, -1, 0, Earned(e, w, p))]
            && r.value.table == w.table[slot := Row(token, w.now, w.now + e.hosts[p].ttl)]
  {
    BeatLoses(e, w, p, s);
  }

  /** ... which, failing, leaves the halted session for the next beat to try again. */
  lemma LossKeepsTrying(e: Env, w: World, p: nat, s: Session)
    requires p in e.hosts && Rests(w, p, s) && s.token in w.gens && !IsHeld(w.table, s.worker, s.token, w.now)
    requires AfterLoss(e, w, p, s).Some?
    ensures var w1 := AfterLoss(e, w, p, s).value;
            var r := Do(e, w1, GiveUp(p));
            r.Some? && Rests(r.value, p, s) && r.value.gens == w1.gens && Do(e, r.value, Beat(p)).Some?
  {
    BeatLoses(e, w, p, s);
  }

  /** An empty reply is tried again under a new token, with the deadline still counted from the first send. */
  lemma EmptyReplyRetries(e: Env, w: World, p: nat)
    requires p in e.hosts && p in w.managers && w.managers[p].wait.Acquiring?
    requires w.managers[p].wait.req < |w.requests| && w.requests[w.managers[p].wait.req].status.NoRow?
    ensures var wait, r := w.managers[p].wait, Do(e, w, Deliver(p));
            && r.Some? && r.value.managers[p].session == w.managers[p].session
            && r.value.gens == w.gens && r.value.table == w.table
            && if wait.attempt < 8
               then r.value.managers[p].wait == Acquiring(|w.requests|, wait.sendAt, wait.attempt + 1)
                    && r.value.requests == w.requests + [Request(p, Acquire, -1, |w.requests|, w.now, Pending)]
               else r.value.managers[p].wait == Idle && r.value.requests == w.requests
  {
  }

  // ---- Teardown ----

  /** Teardown, answered: halted, the row gone if it was still this lease's, and no session. */
  lemma TeardownReleases(e: Env, w: World, p: nat, s: Session, raced: bool)
    requires p in e.hosts && Rests(w, p, s) && s.token in w.gens
    ensures var r := Run(e, w, [Teardown(p), Execute(|w.requests|, raced), Deliver(p)]);
            && r.Some? && r.value.managers == w.managers[p := Manager(None, Idle)]
            && r.value.gens == w.gens[s.token := w.gens[s.token].(deadline := None)]
            && r.value.table == (if s.worker in w.table && w.table[s.worker].token == s.token
                                 then w.table - {s.worker} else w.table)
            && r.value.retired == w.retired + {s.token} && r.value.lost == w.lost && r.value.log == w.log
  {
    RunThree(e, w, Teardown(p), Execute(|w.requests|, raced), Deliver(p));
  }

  /** Teardown without an answer: halted and no session all the same. */
  lemma TeardownFails(e: Env, w: World, p: nat, s: Session)
    requires p in e.hosts && Rests(w, p, s) && s.token in w.gens
    ensures Do(e, w, Teardown(p)).Some?
    ensures var r := Do(e, Do(e, w, Teardown(p)).value, GiveUp(p));
            && r.Some? && r.value.managers == w.managers[p := Manager(None, Idle)] && r.value.table == w.table
            && r.value.gens == w.gens[s.token := w.gens[s.token].(deadline := None)]
  {
  }

  // ---- Next ----

  /** A generator whose deadline lies ahead mints in every fresh millisecond. */
  lemma AllowedCallMints(e: Env, w: World, token: nat, wall: int)
    requires token in w.gens && w.gens[token].Valid() && token < |w.requests| && w.requests[token].process in e.hosts
    requires w.gens[token].Allows(Reading(Mono(e, w, w.requests[token].process), wall)) && WallOk(e, w.now, wall)
    requires w.gens[token].lastMillis < wall / 1_000_000 <= MAX_TIMESTAMP && 0 < wall / 1_000_000
    ensures var r, worker := Do(e, w, Call(token, wall)), w.gens[token].worker;
            && r.Some? && |r.value.log| == |w.log| + 1 && w.log <= r.value.log
            && r.value.log[|w.log|] ==
                 Mint(token, worker, wall / 1_000_000, 0, w.now, wall, Pack(wall / 1_000_000, worker, 0))
  {
  }
}
