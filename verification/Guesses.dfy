/**
 * The bound on wrong PINs of module Accounts is attained: for every policy and every number of
 * overlapping verifications there are runs that use it up, and that compare any number of PINs beyond
 * it while writes fail.
 */
module Guesses {
  import opened Options
  import opened Accounts

  /** A policy under which a PIN is usable when it is issued. */
  predicate Sane(p: Policy) {
    0 < p.pinTTL && 0 <= p.minInterval
  }

  const NOBODY := World(Db(map[], map[]), {}, multiset{}, multiset{}, multiset{}, multiset{})

  /** w is the end of some run from nobody, in which at most k guesses at one account overlap. */
  ghost predicate Reached(p: Policy, k: nat, w: World) {
    exists acts :: Leads(p, k, acts, w)
  }

  ghost predicate Leads(p: Policy, k: nat, acts: seq<Action>, w: World) {
    CanRun(NOBODY, p, acts) && Overlapping(NOBODY, p, k, acts) && Run(NOBODY, p, acts) == w
  }

  ghost predicate Overlaps(w: World, k: nat) {
    forall i :: w.flights[WrongFor(i)] <= k
  }

  lemma {:induction false} RunThenStep(w: World, p: Policy, k: nat, acts: seq<Action>, a: Action)
    requires CanRun(w, p, acts) && Overlapping(w, p, k, acts) && CanAct(Run(w, p, acts), a)
    requires Overlaps(Next(Run(w, p, acts), p, a), k)
    ensures CanRun(w, p, acts + [a]) && Overlapping(w, p, k, acts + [a])
    ensures Run(w, p, acts + [a]) == Next(Run(w, p, acts), p, a)
    decreases |acts|
  {
    if acts == [] {
      assert acts + [a] == [a] && [a][1..] == [];
      assert Overlapping(Next(w, p, a), p, k, []);
    } else {
      assert (acts + [a])[1..] == acts[1..] + [a];
      RunThenStep(Next(w, p, acts[0]), p, k, acts[1..], a);
    }
  }

  lemma Reach(p: Policy, k: nat, w: World, a: Action)
    requires Reached(p, k, w) && CanAct(w, a) && Overlaps(Next(w, p, a), k)
    ensures Reached(p, k, Next(w, p, a))
  {
    var acts :| Leads(p, k, acts, w);
    RunThenStep(NOBODY, p, k, acts, a);
    assert Leads(p, k, acts + [a], Next(w, p, a));
  }

  // ---- One account under attack ----

  /**
   * Account 0, pending: its challenge was resent r times and has a attempts; f wrong guesses are in
   * flight; `answered` were answered and `lost` failed after comparing.
   */
  ghost predicate At(w: World, p: Policy, r: nat, a: nat, f: nat, answered: nat, lost: nat) {
    && w.db.users == map["m" := Account(0, 0, Pending)] && w.db.challenges.Keys == {0}
    && (var c := w.db.challenges[0];
        c.hash == HashOf(1) && c.attempts == a && c.resends == r && c.expires == c.lastSent + p.pinTTL)
    && w.flights[WrongFor(0)] == f && (forall i :: i != 0 ==> w.flights[WrongFor(i)] == 0)
    && w.answered[0] == answered && w.lost[0] == lost
  }

  lemma Registers(p: Policy, k: nat) returns (w: World)
    ensures Reached(p, k, w) && At(w, p, 0, 0, 0, 0, 0)
  {
    assert Leads(p, k, [], NOBODY);
    var a := Register("m", Draw(0, 1, 0, 0, NoTrouble));
    w := Next(NOBODY, p, a);
    Reach(p, k, NOBODY, a);
  }

  lemma Begins(p: Policy, k: nat, w: World, r: nat, a: nat, f: nat, answered: nat, lost: nat) returns (w': World)
    requires Sane(p) && Reached(p, k, w) && At(w, p, r, a, f, answered, lost) && a < p.maxAttempts && f < k
    ensures Reached(p, k, w') && At(w', p, r, a, f + 1, answered, lost)
  {
    var act := BeginVerify("m", None, w.db.challenges[0].lastSent);
    assert VerifyRead(w.db, p, "m", None, w.db.challenges[0].lastSent) == Some(WrongFor(0));
    w' := Next(w, p, act);
    Reach(p, k, w, act);
  }

  lemma Finishes(p: Policy, k: nat, w: World, r: nat, a: nat, f: nat, answered: nat, lost: nat) returns (w': World)
    requires Reached(p, k, w) && At(w, p, r, a, f, answered, lost) && 0 < f <= k
    ensures Reached(p, k, w') && At(w', p, r, a + 1, f - 1, answered + 1, lost)
  {
    w' := Next(w, p, FinishVerify(WrongFor(0), false));
    Reach(p, k, w, FinishVerify(WrongFor(0), false));
  }

  lemma Fails(p: Policy, k: nat, w: World, r: nat, a: nat, f: nat, answered: nat, lost: nat) returns (w': World)
    requires Reached(p, k, w) && At(w, p, r, a, f, answered, lost) && 0 < f <= k
    ensures Reached(p, k, w') && At(w', p, r, a, f - 1, answered, lost + 1)
  {
    w' := Next(w, p, FinishVerify(WrongFor(0), true));
    Reach(p, k, w, FinishVerify(WrongFor(0), true));
  }

  lemma Resends(p: Policy, k: nat, w: World, r: nat, a: nat, answered: nat, lost: nat) returns (w': World)
    requires Reached(p, k, w) && At(w, p, r, a, 0, answered, lost) && r < p.maxResends
    ensures Reached(p, k, w') && At(w', p, r + 1, 0, 0, answered, lost)
  {
    var act := Resend("m", Draw(w.db.challenges[0].lastSent + p.minInterval, 1, 0, 0, NoTrouble));
    w' := Next(w, p, act);
    Reach(p, k, w, act);
  }

  /** Guesses one after the other, up to one short of the lock. */
  lemma {:induction false} Guesses(p: Policy, k: nat, w: World, r: nat, a: nat, answered: nat, lost: nat)
    returns (w': World)
    requires Sane(p) && 1 <= k && Reached(p, k, w) && At(w, p, r, a, 0, answered, lost) && a < p.maxAttempts
    ensures Reached(p, k, w') && At(w', p, r, p.maxAttempts - 1, 0, answered + p.maxAttempts - 1 - a, lost)
    decreases p.maxAttempts - a
  {
    if a == p.maxAttempts - 1 {
      w' := w;
    } else {
      w' := Begins(p, k, w, r, a, 0, answered, lost);
      w' := Finishes(p, k, w', r, a, 1, answered, lost);
      w' := Guesses(p, k, w', r, a + 1, answered + 1, lost);
    }
  }

  /** k guesses that all read before any of them writes ... */
  lemma {:induction false} BeginsAll(p: Policy, k: nat, w: World, r: nat, a: nat, f: nat, answered: nat, lost: nat)
    returns (w': World)
    requires Sane(p) && Reached(p, k, w) && At(w, p, r, a, f, answered, lost) && a < p.maxAttempts && f <= k
    ensures Reached(p, k, w') && At(w', p, r, a, k, answered, lost)
    decreases k - f
  {
    w' := w;
    if f < k {
      w' := Begins(p, k, w, r, a, f, answered, lost);
      w' := BeginsAll(p, k, w', r, a, f + 1, answered, lost);
    }
  }

  /** ... and then all write. */
  lemma {:induction false} FinishesAll(p: Policy, k: nat, w: World, r: nat, a: nat, f: nat, answered: nat, lost: nat)
    returns (w': World)
    requires Reached(p, k, w) && At(w, p, r, a, f, answered, lost) && f <= k
    ensures Reached(p, k, w') && At(w', p, r, a + f, 0, answered + f, lost)
    decreases f
  {
    w' := w;
    if f > 0 {
      w' := Finishes(p, k, w, r, a, f, answered, lost);
      w' := FinishesAll(p, k, w', r, a + 1, f - 1, answered + 1, lost);
    }
  }

  /** Everything one issued PIN allows. */
  lemma UsesUpPin(p: Policy, k: nat, w: World, r: nat, answered: nat, lost: nat) returns (w': World)
    requires Sane(p) && 1 <= k && 1 <= p.maxAttempts && Reached(p, k, w) && At(w, p, r, 0, 0, answered, lost)
    ensures Reached(p, k, w') && At(w', p, r, PerPin(p, k), 0, answered + PerPin(p, k), lost)
  {
    var n := p.maxAttempts - 1;
    w' := Guesses(p, k, w, r, 0, answered, lost);
    w' := BeginsAll(p, k, w', r, n, 0, answered + n, lost);
    w' := FinishesAll(p, k, w', r, n, k, answered + n, lost);
  }

  lemma {:induction false} UsesUpAll(p: Policy, k: nat, w: World, r: nat, lost: nat) returns (w': World)
    requires Sane(p) && 1 <= k && 1 <= p.maxAttempts && r <= p.maxResends
    requires Reached(p, k, w) && At(w, p, r, 0, 0, PerPin(p, k) * r, lost)
    ensures Reached(p, k, w') && At(w', p, p.maxResends, PerPin(p, k), 0, GuessLimit(p, k), lost)
    decreases p.maxResends - r
  {
    var cap := PerPin(p, k);
    assert cap * r + cap == cap * (r + 1);
    w' := UsesUpPin(p, k, w, r, cap * r, lost);
    if r < p.maxResends {
      w' := Resends(p, k, w', r, cap, cap * (r + 1), lost);
      w' := UsesUpAll(p, k, w', r + 1, lost);
    }
  }

  lemma {:induction false} LosesMany(p: Policy, k: nat, w: World, lost: nat, n: nat) returns (w': World)
    requires Sane(p) && 1 <= k && 1 <= p.maxAttempts && Reached(p, k, w) && At(w, p, 0, 0, 0, 0, lost)
    ensures Reached(p, k, w') && At(w', p, 0, 0, 0, 0, lost + n)
    decreases n
  {
    w' := w;
    if n > 0 {
      w' := Begins(p, k, w, 0, 0, 0, 0, lost);
      w' := Fails(p, k, w', 0, 0, 1, 0, lost);
      w' := LosesMany(p, k, w', lost + 1, n - 1);
    }
  }

  /** The whole limit answered, and any number n of further comparisons that were never counted. */
  lemma LimitIsAttained(p: Policy, k: nat, n: nat) returns (w: World)
    requires Sane(p) && 1 <= k && 1 <= p.maxAttempts
    ensures Reached(p, k, w) && w.answered[0] == GuessLimit(p, k) && w.lost[0] == n
    ensures w.compared[0] == GuessLimit(p, k) + n
  {
    w := Registers(p, k);
    w := LosesMany(p, k, w, 0, n);
    w := UsesUpAll(p, k, w, 0, n);
    var acts :| Leads(p, k, acts, w);
    ComparisonsAreAccountedFor(NOBODY, p, k, acts, 0);
  }

  /**
   * The exact bound: with at most k guesses at one account overlapping, no account ever has more than
   * `limit` answered, if and only if limit is at least (maxAttempts + k - 1) * (maxResends + 1) - or
   * nothing, where no attempt is allowed at all.
   */
  lemma GuessLimitIsExact(p: Policy, k: nat, limit: nat)
    requires Sane(p)
    ensures (forall w, id :: Reached(p, k, w) ==> w.answered[id] <= limit) <==> GuessLimit(p, k) <= limit
  {
    if GuessLimit(p, k) <= limit {
      forall w, id | Reached(p, k, w) ensures w.answered[id] <= limit {
        var acts :| Leads(p, k, acts, w);
        GuessesAreBounded(NOBODY, p, k, acts, id);
      }
    } else {
      assert PerPin(p, k) != 0;
      var w := LimitIsAttained(p, k, 0);
      assert w.answered[0] > limit;
    }
  }

  /** Comparisons have no bound at all while writes can fail. */
  lemma ComparisonsAreUnbounded(p: Policy, k: nat, limit: nat)
    requires Sane(p) && 1 <= k && 1 <= p.maxAttempts
    ensures exists w :: Reached(p, k, w) && w.compared[0] > limit
  {
    var w := LimitIsAttained(p, k, limit + 1);
  }
}
