/**
 * What the fencing invariant buys: over every run of the fleet no two successful Next calls return
 * the same id - exactly when every margin, and every pause after a release, covers the spread of the
 * hosts' wall clocks plus one millisecond.
 */
module FleetIds {
  import opened Options
  import opened LeaseTable
  import opened Snowflake
  import opened Fleet

  // ---- A live generator owns its row ----

  lemma InitInv(e: Env)
    requires ValidEnv(e)
    ensures Inv(e, Init(e))
  {
  }

  /** The generator of `token` would mint now. */
  predicate Live(e: Env, w: World, token: nat)
    requires token in w.gens && token < |w.requests| && w.requests[token].process in e.hosts
  {
    var g := w.gens[token];
    g.deadline.Some? && Mono(e, w, w.requests[token].process) < g.deadline.value
  }

  /**
   * In every reachable world, whatever replies were lost and whenever statements took effect, a
   * generator whose deadline has not passed has the row of its worker id: its own token, not expired.
   */
  lemma LiveGeneratorIsFenced(e: Env, acts: seq<Action>, token: nat)
    requires ValidEnv(e) && Run(e, Init(e), acts).Some?
    requires token in Run(e, Init(e), acts).value.gens
    ensures var w := Run(e, Init(e), acts).value;
            && token < |w.requests| && w.requests[token].process in e.hosts
            && (Live(e, w, token) ==> IsHeld(w.table, w.gens[token].worker, token, w.now))
  {
    InitInv(e);
    RunKeepsInv(e, Init(e), acts);
    assert GenOk(e, Run(e, Init(e), acts).value, token);
  }

  // ---- A lost or released token is finished ----

  /** Halted by a loss or by teardown. */
  predicate Finished(w: World, token: nat) {
    token in w.lost + w.retired
  }

  /** From w to w' the log only grew, and not by this token's generator. */
  predicate NoMintsBy(w: World, w': World, token: nat) {
    w.log <= w'.log && forall i :: |w.log| <= i < |w'.log| ==> w'.log[i].token != token
  }

  lemma OnlyGrows(e: Env, w: World, a: Action)
    requires Do(e, w, a).Some?
    ensures var w' := Do(e, w, a).value; w.lost <= w'.lost && w.retired <= w'.retired
    ensures !a.Call? ==> Do(e, w, a).value.log == w.log
  {
    match a {
      case Execute(i, raced) =>
      case Deliver(p) =>
      case _ =>
    }
  }

  lemma HaltedCallMintsNothing(e: Env, w: World, token: nat, other: nat, wall: int)
    requires Inv(e, w) && DoCall(e, w, other, wall).Some? && Finished(w, token)
    ensures NoMintsBy(w, DoCall(e, w, other, wall).value, token)
  {
    assert token in w.lost ==> LostOk(w, token);
    assert GenOk(e, w, token);
  }

  lemma HaltedStep(e: Env, w: World, a: Action, token: nat)
    requires Inv(e, w) && Do(e, w, a).Some? && Finished(w, token)
    ensures var w' := Do(e, w, a).value;
            NoMintsBy(w, w', token) && Finished(w', token) && (token in w.lost ==> token in w'.lost)
  {
    OnlyGrows(e, w, a);
    if a.Call? {
      HaltedCallMintsNothing(e, w, token, a.token, a.wall);
    }
  }

  /**
   * Once a renewal has reported a loss, its token is never held again, and once a generator was
   * halted - by a loss or by teardown - it never mints again, in any continuation of the run.
   */
  lemma {:induction false} HaltedForGood(e: Env, w: World, acts: seq<Action>, token: nat)
    requires Inv(e, w) && Run(e, w, acts).Some? && Finished(w, token)
    ensures NoMintsBy(w, Run(e, w, acts).value, token)
    ensures token in w.lost ==> LostOk(Run(e, w, acts).value, token)
    decreases |acts|
  {
    if acts == [] {
      assert token in w.lost ==> LostOk(w, token);
    } else {
      HaltedStep(e, w, acts[0], token);
      StepKeepsInv(e, w, acts[0]);
      HaltedForGood(e, Do(e, w, acts[0]).value, acts[1..], token);
    }
  }

  // ---- Uniqueness ----

  function Spread(e: Env): int {
    e.slow + e.fast + MILLISECOND
  }

  /** Every manager's margin covers the spread of the wall clocks (the deadline itself is excluded, hence + 1 ns). */
  predicate MarginsCover(e: Env) {
    forall p :: p in e.hosts ==> e.hosts[p].margin + 1 >= Spread(e)
  }

  /** A claim of a worker id whose row was released comes at least `gap` after that release. */
  predicate SpacedStep(gap: int, w: World, a: Action) {
    a.Execute? && a.req < |w.requests| && w.requests[a.req].kind.Acquire? && !a.raced ==>
      var slot := LowestFree(w.table, w.now, 0);
      slot.Some? && slot.value !in w.table && slot.value in w.freed ==> w.now >= w.freed[slot.value] + gap
  }

  predicate SpacedRun(e: Env, gap: int, w: World, acts: seq<Action>)
    decreases |acts|
  {
    acts != [] ==>
      SpacedStep(gap, w, acts[0]) && (Do(e, w, acts[0]).Some? ==> SpacedRun(e, gap, Do(e, w, acts[0]).value, acts[1..]))
  }

  predicate UniqueIds(log: seq<Mint>) {
    forall i, j :: 0 <= i < j < |log| ==> log[i].id != log[j].id
  }

  /** Where a past mint stands relative to the row that its worker id has now. */
  predicate Settled(e: Env, w: World, m: Mint)
    requires m.token < |w.requests| && w.requests[m.token].process in e.hosts
  {
    if m.worker !in w.table then m.worker in w.freed && m.at <= w.freed[m.worker]
    else if w.table[m.worker].token == m.token
    then m.at + e.hosts[w.requests[m.token].process].margin < w.table[m.worker].expires
    else m.at + Spread(e) <= w.table[m.worker].acquired
  }

  ghost predicate EntryOk(e: Env, w: World, m: Mint) {
    && m.token in w.gens && IsClaim(w, m.token) && w.requests[m.token].process in e.hosts
    && m.worker == w.gens[m.token].worker && m.at <= w.now && WallOk(e, m.at, m.wall)
    && m.millis == m.wall / MILLISECOND && 0 <= m.worker <= MAX_WORKER_ID && 0 <= m.sequence <= MAX_SEQUENCE
    && m.id == Pack(m.millis, m.worker, m.sequence) && m.id <= w.gens[m.token].Last()
    && Settled(e, w, m)
  }

  predicate PairOk(e: Env, a: Mint, b: Mint) {
    a.worker == b.worker ==> if a.token == b.token then a.id < b.id else a.at + Spread(e) <= b.at
  }

  ghost predicate LogInv(e: Env, w: World) {
    && (forall i :: 0 <= i < |w.log| ==> EntryOk(e, w, w.log[i]))
    && (forall i, j :: 0 <= i < j < |w.log| ==> PairOk(e, w.log[i], w.log[j]))
  }

  /** Two mints that are apart as LogInv says never collide. */
  lemma ApartMeansDistinct(e: Env, w: World, a: Mint, b: Mint)
    requires EntryOk(e, w, a) && EntryOk(e, w, b) && PairOk(e, a, b)
    ensures a.id != b.id
  {
    PackDecodes(a.millis, a.worker, a.sequence);
    PackDecodes(b.millis, b.worker, b.sequence);
    if a.worker == b.worker && a.token != b.token {
      assert b.wall >= a.wall + MILLISECOND;
      assert b.millis >= a.millis + 1;
    }
  }

  lemma LogInvMeansUnique(e: Env, w: World)
    requires LogInv(e, w)
    ensures UniqueIds(w.log)
  {
    forall i, j | 0 <= i < j < |w.log| ensures w.log[i].id != w.log[j].id {
      assert PairOk(e, w.log[i], w.log[j]);
      ApartMeansDistinct(e, w, w.log[i], w.log[j]);
    }
  }

  /** What a step that neither mints nor runs a statement leaves alone, as far as the log is concerned. */
  ghost predicate Quiet(w: World, w': World) {
    && w'.log == w.log && w'.table == w.table && w'.freed == w.freed && w.now <= w'.now && w.requests <= w'.requests
    && forall t :: t in w.gens ==>
         t in w'.gens && w'.gens[t].worker == w.gens[t].worker && w'.gens[t].Last() == w.gens[t].Last()
  }

  lemma DeliverIsQuiet(e: Env, w: World, p: nat)
    requires p in w.managers && ManagerOk(e, w, p) && DoDeliver(e, w, p).Some?
    ensures Quiet(w, DoDeliver(e, w, p).value)
  {
    match w.managers[p].wait {
      case Acquiring(i, sendAt, attempt) =>
      case Renewing(i, sendAt) =>
      case Releasing(i) =>
    }
  }

  lemma QuietSteps(e: Env, w: World, a: Action)
    requires Do(e, w, a).Some? && !a.Execute? && !a.Call? && !a.Deliver?
    ensures Quiet(w, Do(e, w, a).value)
  {
    match a {
      case Beat(p) =>
      case Teardown(p) =>
      case GiveUp(p) =>
      case _ =>
    }
  }

  lemma QuietKeepsLog(e: Env, w: World, w': World)
    requires LogInv(e, w) && Quiet(w, w')
    ensures LogInv(e, w')
  {
    forall i | 0 <= i < |w'.log| ensures EntryOk(e, w', w'.log[i]) {
      assert EntryOk(e, w, w.log[i]);
    }
  }

  lemma ClaimSettles(e: Env, gap: int, w: World, i: nat, m: Mint)
    requires EntryOk(e, w, m) && DoExecute(e, w, i, false).Some? && w.requests[i].kind.Acquire?
    requires RequestOk(e, w, i) && (m.worker in w.table ==> RowOk(e, w, m.worker))
    requires MarginsCover(e) && gap >= Spread(e) && SpacedStep(gap, w, Execute(i, false))
    ensures EntryOk(e, DoExecute(e, w, i, false).value, m)
  {
    var w' := DoExecute(e, w, i, false).value;
    assert w'.gens == w.gens && w'.requests[m.token] == w.requests[m.token];
    var slot := LowestFree(w.table, w.now, 0);
    if slot.Some? && m.worker == slot.value && m.worker in w.table {
      assert w.table[m.worker].expires <= w.now;
    }
  }

  lemma ExtendOrDropSettles(e: Env, w: World, i: nat, raced: bool, m: Mint)
    requires EntryOk(e, w, m) && DoExecute(e, w, i, raced).Some? && ValidEnv(e)
    requires RequestOk(e, w, i) && (m.worker in w.table ==> RowOk(e, w, m.worker))
    requires w.requests[i].kind.Acquire? ==> raced
    ensures EntryOk(e, DoExecute(e, w, i, raced).value, m)
  {
    assert DoExecute(e, w, i, raced).value.requests[m.token] == w.requests[m.token];
  }

  lemma ExecuteKeepsLog(e: Env, gap: int, w: World, i: nat, raced: bool)
    requires Inv(e, w) && LogInv(e, w) && DoExecute(e, w, i, raced).Some?
    requires MarginsCover(e) && gap >= Spread(e) && SpacedStep(gap, w, Execute(i, raced))
    ensures LogInv(e, DoExecute(e, w, i, raced).value)
  {
    var w' := DoExecute(e, w, i, raced).value;
    assert w'.log == w.log && RequestOk(e, w, i);
    forall j | 0 <= j < |w'.log| ensures EntryOk(e, w', w'.log[j]) {
      assert EntryOk(e, w, w.log[j]);
      assert w.log[j].worker in w.table ==> RowOk(e, w, w.log[j].worker);
      if w.requests[i].kind.Acquire? && !raced {
        ClaimSettles(e, gap, w, i, w.log[j]);
      } else {
        ExtendOrDropSettles(e, w, i, raced, w.log[j]);
      }
    }
  }

  lemma CallKeepsLog(e: Env, w: World, token: nat, wall: int)
    requires Inv(e, w) && LogInv(e, w) && DoCall(e, w, token, wall).Some?
    ensures LogInv(e, DoCall(e, w, token, wall).value)
  {
    var w' := DoCall(e, w, token, wall).value;
    assert GenOk(e, w, token);
    NextIsSound(w.gens[token], [Reading(Mono(e, w, w.requests[token].process), wall)]);
    forall i | 0 <= i < |w.log| ensures EntryOk(e, w', w'.log[i]) {
      assert EntryOk(e, w, w.log[i]);
    }
    if |w'.log| > |w.log| {
      var n := w'.log[|w.log|];
      assert RowOk(e, w, n.worker);
      assert EntryOk(e, w', n);
      forall i | 0 <= i < |w.log| ensures PairOk(e, w'.log[i], n) {
        assert EntryOk(e, w, w.log[i]);
      }
    }
  }

  lemma StepKeepsLog(e: Env, gap: int, w: World, a: Action)
    requires Inv(e, w) && LogInv(e, w) && Do(e, w, a).Some?
    requires MarginsCover(e) && gap >= Spread(e) && SpacedStep(gap, w, a)
    ensures LogInv(e, Do(e, w, a).value)
  {
    match a {
      case Execute(i, raced) => ExecuteKeepsLog(e, gap, w, i, raced);
      case Call(token, wall) => CallKeepsLog(e, w, token, wall);
      case Deliver(p) =>
        assert ManagerOk(e, w, p);
        DeliverIsQuiet(e, w, p);
        QuietKeepsLog(e, w, Do(e, w, a).value);
      case _ =>
        QuietSteps(e, w, a);
        QuietKeepsLog(e, w, Do(e, w, a).value);
    }
  }

  lemma {:induction false} RunKeepsLog(e: Env, gap: int, w: World, acts: seq<Action>)
    requires Inv(e, w) && LogInv(e, w) && Run(e, w, acts).Some?
    requires MarginsCover(e) && gap >= Spread(e) && SpacedRun(e, gap, w, acts)
    ensures LogInv(e, Run(e, w, acts).value)
    decreases |acts|
  {
    if acts != [] {
      StepKeepsInv(e, w, acts[0]);
      StepKeepsLog(e, gap, w, acts[0]);
      RunKeepsLog(e, gap, Do(e, w, acts[0]).value, acts[1..]);
    }
  }

  /** The theorem of the package: no two successful Next calls of any fleet return the same id. */
  lemma IdsAreUnique(e: Env, gap: int, acts: seq<Action>)
    requires ValidEnv(e) && MarginsCover(e) && gap >= Spread(e)
    requires Run(e, Init(e), acts).Some? && SpacedRun(e, gap, Init(e), acts)
    ensures UniqueIds(Run(e, Init(e), acts).value.log)
  {
    InitInv(e);
    RunKeepsLog(e, gap, Init(e), acts);
    LogInvMeansUnique(e, Run(e, Init(e), acts).value);
  }

  // ---- The condition is exact ----

  ghost predicate Reachable(e: Env, gap: int, w: World) {
    exists acts :: Run(e, Init(e), acts) == Some(w) && SpacedRun(e, gap, Init(e), acts)
  }

  lemma {:induction false} RunThenStep(e: Env, gap: int, w: World, acts: seq<Action>, a: Action)
    requires Run(e, w, acts).Some? && SpacedRun(e, gap, w, acts) && SpacedStep(gap, Run(e, w, acts).value, a)
    requires Do(e, Run(e, w, acts).value, a).Some?
    ensures Run(e, w, acts + [a]) == Do(e, Run(e, w, acts).value, a) && SpacedRun(e, gap, w, acts + [a])
    decreases |acts|
  {
    if acts == [] {
      assert (acts + [a])[1..] == [];
    } else {
      assert (acts + [a])[1..] == acts[1..] + [a];
      RunThenStep(e, gap, Do(e, w, acts[0]).value, acts[1..], a);
    }
  }

  lemma Reach(e: Env, gap: int, w: World, a: Action, w': World)
    requires Reachable(e, gap, w) && Do(e, w, a) == Some(w') && SpacedStep(gap, w, a)
    ensures Reachable(e, gap, w')
  {
    var acts :| Run(e, Init(e), acts) == Some(w) && SpacedRun(e, gap, Init(e), acts);
    RunThenStep(e, gap, Init(e), acts, a);
  }

  /** From p's start at instant `at` to its first lease of worker 0. */
  lemma FirstLease(e: Env, gap: int, p: nat, at: nat) returns (w: World)
    requires ValidEnv(e) && p in e.hosts
    ensures Reachable(e, gap, w) && w.now == at && w.log == [] && w.freed == map[] && p in w.managers
    ensures w.requests == [Request(p, Acquire, -1, 0, at, Claimed(at, 0))]
    ensures w.table == map[0 := Row(0, at, at + e.hosts[p].ttl)]
    ensures w.managers[p] == Manager(Some(Session(0, 0)), Idle)
    ensures w.gens == map[0 := State(0, -1, 0, Some(Deadline(e.hosts[p], at + e.hosts[p].offset)))]
  {
    var w0 := Init(e);
    assert Run(e, w0, []) == Some(w0);
    var w1 := Do(e, w0, Tick(at)).value;
    Reach(e, gap, w0, Tick(at), w1);
    var w2 := Do(e, w1, Start(p)).value;
    Reach(e, gap, w1, Start(p), w2);
    var w3 := DoExecute(e, w2, 0, false).value;
    Reach(e, gap, w2, Execute(0, false), w3);
    w := DoDeliver(e, w3, p).value;
    Reach(e, gap, w3, Deliver(p), w);
  }

  /** A generator of worker 0 that has minted nothing mints (millis, 0, 0). */
  lemma FirstMint(e: Env, gap: int, w: World, token: nat, wall: int) returns (w': World)
    requires Reachable(e, gap, w) && token in w.gens && token < |w.requests| && w.requests[token].process in e.hosts
    requires WallOk(e, w.now, wall) && MILLISECOND <= wall < MILLISECOND * MAX_TIMESTAMP
    requires Live(e, w, token) && w.gens[token].worker == 0 && w.gens[token].lastMillis == -1
    ensures Reachable(e, gap, w')
    ensures w' == w.(gens := w'.gens, log := w'.log) && w'.gens.Keys == w.gens.Keys
    ensures |w'.log| == |w.log| + 1 && w.log <= w'.log && w'.log[|w.log|].id == Pack(wall / MILLISECOND, 0, 0)
  {
    w' := DoCall(e, w, token, wall).value;
    Reach(e, gap, w, Call(token, wall), w');
  }

  /** From a free worker 0 and p's acquire as request 2 outstanding: the lease, then a first mint. */
  lemma SecondLease(e: Env, gap: int, w: World, p: nat, sendAt: int, wall: int) returns (w': World)
    requires ValidEnv(e) && Reachable(e, gap, w) && p in e.hosts && p in w.managers && |w.requests| == 3
    requires w.requests[2] == Request(p, Acquire, -1, 2, w.now, Pending)
    requires w.managers[p].wait == Acquiring(2, sendAt, 1) && sendAt == Mono(e, w, p)
    requires Free(w.table, 0, w.now) && (0 !in w.table && 0 in w.freed ==> w.now >= w.freed[0] + gap)
    requires WallOk(e, w.now, wall) && MILLISECOND <= wall < MILLISECOND * MAX_TIMESTAMP
    ensures Reachable(e, gap, w')
    ensures |w'.log| == |w.log| + 1 && w.log <= w'.log && w'.log[|w.log|].id == Pack(wall / MILLISECOND, 0, 0)
  {
    var w1 := DoExecute(e, w, 2, false).value;
    Reach(e, gap, w, Execute(2, false), w1);
    var w2 := DoDeliver(e, w1, p).value;
    Reach(e, gap, w1, Deliver(p), w2);
    w' := FirstMint(e, gap, w2, 2, wall);
  }

  /** Two wall readings in one millisecond, the second taken `pause` later by a slower clock. */
  lemma SameMillisecond(e: Env, pause: nat, lead: nat) returns (at: nat, first: int, second: int)
    requires pause + 1 <= Spread(e)
    requires e.slow + e.fast + lead + MILLISECOND < MILLISECOND * MAX_TIMESTAMP
    ensures lead <= at && WallOk(e, at, first) && WallOk(e, at + pause, second)
    ensures MILLISECOND <= first < MILLISECOND * MAX_TIMESTAMP && MILLISECOND <= second < MILLISECOND * MAX_TIMESTAMP
    ensures first / MILLISECOND == second / MILLISECOND
  {
    var ahead := if pause <= e.slow + e.fast then pause - e.slow else e.fast;
    var k := (e.fast + lead) / MILLISECOND + 1;
    first := MILLISECOND * k;
    at := first - ahead;
    second := at + pause - e.slow;
    assert first <= second < first + MILLISECOND;
  }

  /** Small enough for a lease and a skew to fit the 41-bit timestamp at all. */
  predicate FitsEpoch(e: Env) {
    forall p :: p in e.hosts ==> e.slow + e.fast + e.hosts[p].ttl + MILLISECOND < MILLISECOND * MAX_TIMESTAMP
  }

  /** A margin that falls short of the spread: the id expires, is leased again, and an id is minted twice. */
  lemma ShortMarginDuplicates(e: Env, gap: int, p: nat) returns (w: World)
    requires ValidEnv(e) && FitsEpoch(e) && p in e.hosts && e.hosts[p].margin + 1 < Spread(e)
    ensures Reachable(e, gap, w) && !UniqueIds(w.log)
  {
    var h := e.hosts[p];
    var used := h.ttl - h.margin - 1;
    var t, first, second := SameMillisecond(e, h.margin + 1, used);
    var w1 := FirstLease(e, gap, p, t - used);
    var w2 := Do(e, w1, Tick(used)).value;
    Reach(e, gap, w1, Tick(used), w2);
    var w3 := FirstMint(e, gap, w2, 0, first);
    var w4 := Do(e, w3, Tick(h.margin + 1)).value;
    Reach(e, gap, w3, Tick(h.margin + 1), w4);
    var w5 := DoBeat(e, w4, p).value;
    Reach(e, gap, w4, Beat(p), w5);
    var w6 := DoExecute(e, w5, 1, false).value;
    Reach(e, gap, w5, Execute(1, false), w6);
    var w7 := DoDeliver(e, w6, p).value;
    Reach(e, gap, w6, Deliver(p), w7);
    w := SecondLease(e, gap, w7, p, Mono(e, w7, p), second);
    assert w.log[0].id == w.log[1].id;
  }

  /** p gives worker 0 back: halt, release, and the reply. */
  lemma HandBack(e: Env, gap: int, w: World, p: nat) returns (w': World)
    requires Reachable(e, gap, w) && p in e.hosts && p in w.managers && |w.requests| == 1 && 0 in w.gens
    requires w.managers[p] == Manager(Some(Session(0, 0)), Idle)
    requires 0 in w.table && w.table.Keys == {0} && w.table[0].token == 0
    ensures Reachable(e, gap, w') && w'.now == w.now && w'.log == w.log && |w'.requests| == 2
    ensures w'.table == map[] && 0 in w'.freed && w'.freed[0] == w.now
    ensures p in w'.managers && w'.managers[p] == Manager(None, Idle)
  {
    var w1 := DoTeardown(w, p).value;
    Reach(e, gap, w, Teardown(p), w1);
    var w2 := DoExecute(e, w1, 1, false).value;
    Reach(e, gap, w1, Execute(1, false), w2);
    w' := DoDeliver(e, w2, p).value;
    Reach(e, gap, w2, Deliver(p), w');
  }

  /** A pause after a release that falls short of the spread: the released id is leased again too early. */
  lemma ShortGapDuplicates(e: Env, gap: int, p: nat) returns (w: World)
    requires ValidEnv(e) && FitsEpoch(e) && p in e.hosts && gap < Spread(e)
    ensures Reachable(e, gap, w) && !UniqueIds(w.log)
  {
    var pause := if gap < 0 then 0 else gap;
    var t, first, second := SameMillisecond(e, pause, 0);
    var w1 := FirstLease(e, gap, p, t);
    var w2 := FirstMint(e, gap, w1, 0, first);
    var w3 := HandBack(e, gap, w2, p);
    var w4 := Do(e, w3, Tick(pause)).value;
    Reach(e, gap, w3, Tick(pause), w4);
    var w5 := Do(e, w4, Start(p)).value;
    Reach(e, gap, w4, Start(p), w5);
    w := SecondLease(e, gap, w5, p, Mono(e, w5, p), second);
    assert w.log[0].id == w.log[1].id;
  }

  /**
   * The exact condition. Ids are unique in every run whose release handovers pause at least `gap`
   * if and only if every margin (plus the nanosecond the deadline excludes) and that gap cover the
   * spread of the wall clocks and one millisecond. The code enforces no gap, so gap = 0 always fails.
   */
  lemma UniquenessIsExact(e: Env, gap: int)
    requires ValidEnv(e) && FitsEpoch(e) && e.hosts.Keys != {}
    ensures (forall w :: Reachable(e, gap, w) ==> UniqueIds(w.log)) <==> MarginsCover(e) && gap >= Spread(e)
  {
    if MarginsCover(e) && gap >= Spread(e) {
      forall w | Reachable(e, gap, w) ensures UniqueIds(w.log) {
        var acts :| Run(e, Init(e), acts) == Some(w) && SpacedRun(e, gap, Init(e), acts);
        IdsAreUnique(e, gap, acts);
      }
    } else if gap < Spread(e) {
      var p :| p in e.hosts.Keys;
      var w := ShortGapDuplicates(e, gap, p);
    } else {
      var p :| p in e.hosts && e.hosts[p].margin + 1 < Spread(e);
      var w := ShortMarginDuplicates(e, gap, p);
    }
  }
}
