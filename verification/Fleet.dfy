/**
 * Any number of lease managers (internal/persistence/workerlease/manager.go) over one table.
 *
 * Time is the database clock, in nanoseconds. A host's monotonic clock is that time plus a fixed
 * offset of its own; its wall clock may be anywhere between `slow` behind and `fast` ahead of it,
 * and may move within that band. A statement is a request that the database executes at most once,
 * at any instant after it was sent - also after its sender stopped waiting - and whose reply may be
 * lost. A token is the index of the acquire request it was generated for, so tokens are never reused.
 */
module Fleet {
  import opened Options
  import opened LeaseTable
  import opened Snowflake

  datatype Host = Host(ttl: int, margin: int, offset: int)

  /** The hosts, and how far their wall clocks stray from the database clock. */
  datatype Env = Env(hosts: map<nat, Host>, slow: nat, fast: nat)

  /** The part of validateCadence that safety rests on. */
  predicate ValidEnv(e: Env) {
    forall p :: p in e.hosts ==> 0 <= e.hosts[p].margin < e.hosts[p].ttl
  }

  datatype Kind = Acquire | Renewal | Release

  datatype Status =
    | Pending
    | Claimed(at: int, slot: int)
    | NoRow
    | Held(at: int)
    | Lost
    | Deleted

  datatype Request = Request(process: nat, kind: Kind, worker: int, token: nat, sent: int, status: Status)

  datatype Session = Session(worker: int, token: nat)

  /** What a manager's single thread of control is blocked on; sendAt is a monotonic reading. */
  datatype Wait =
    | Idle
    | Acquiring(req: nat, sendAt: int, attempt: nat)
    | Renewing(req: nat, sendAt: int)
    | Releasing(req: nat)

  datatype Manager = Manager(session: Option<Session>, wait: Wait)

  /** One successful Next: which generator, what it minted, and the instant and wall time it read. */
  datatype Mint = Mint(token: nat, worker: int, millis: int, sequence: int, at: int, wall: int, id: int)

  /**
   * `gens` holds every generator ever built, keyed by its lease token: a caller may still hold one
   * that the manager has replaced. `retired` are the tokens whose release was begun, `lost` those a
   * renewal reported lost, `freed` the instant a worker id's row was last deleted.
   */
  datatype World = World(
    now: int,
    table: Table,
    requests: seq<Request>,
    managers: map<nat, Manager>,
    gens: map<nat, State>,
    retired: set<nat>,
    lost: set<nat>,
    freed: map<int, int>,
    log: seq<Mint>)

  function Init(e: Env): World {
    World(0, map[], [], map p | p in e.hosts :: Manager(None, Idle), map[], {}, {}, map[], [])
  }

  datatype Action =
    | Tick(elapsed: nat)
    | Start(p: nat)                   // Start: the first acquire of a run
    | Beat(p: nat)                    // a renewal beat
    | Teardown(p: nat)                // releaseAndClear: halt, then release
    | Execute(req: nat, raced: bool)  // the database runs a statement
    | Deliver(p: nat)                 // the awaited reply arrives
    | GiveUp(p: nat)                  // the awaited call fails: timeout or lost reply
    | Call(token: nat, wall: int)     // somebody calls Next on a generator

  function Mono(e: Env, w: World, p: nat): int
    requires p in e.hosts
  {
    w.now + e.hosts[p].offset
  }

  function Deadline(h: Host, sendAt: int): int {
    sendAt + (h.ttl - h.margin)
  }

  predicate WallOk(e: Env, at: int, wall: int) {
    0 <= wall && at - e.slow <= wall <= at + e.fast
  }

  function SetManager(w: World, p: nat, m: Manager): World {
    w.(managers := w.managers[p := m])
  }

  /** Issue one acquire try: a fresh token, the same sendAt for every try of the call. */
  function SendAcquire(w: World, p: nat, session: Option<Session>, sendAt: int, attempt: nat): World {
    var i := |w.requests|;
    SetManager(w.(requests := w.requests + [Request(p, Acquire, -1, i, w.now, Pending)]),
               p, Manager(session, Acquiring(i, sendAt, attempt)))
  }

  function DoBeat(e: Env, w: World, p: nat): Option<World> {
    if p in e.hosts && p in w.managers && w.managers[p].wait.Idle? && w.managers[p].session.Some? then
      var s := w.managers[p].session.value;
      Some(SetManager(w.(requests := w.requests + [Request(p, Renewal, s.worker, s.token, w.now, Pending)]),
                      p, w.managers[p].(wait := Renewing(|w.requests|, Mono(e, w, p)))))
    else None
  }

  function DoTeardown(w: World, p: nat): Option<World> {
    if p in w.managers && w.managers[p].wait.Idle? && w.managers[p].session.Some?
       && w.managers[p].session.value.token in w.gens then
      var s := w.managers[p].session.value;
      Some(SetManager(
             w.(requests := w.requests + [Request(p, Release, s.worker, s.token, w.now, Pending)],
                gens := w.gens[s.token := w.gens[s.token].(deadline := None)],
                retired := w.retired + {s.token}),
             p, w.managers[p].(wait := Releasing(|w.requests|))))
    else None
  }

  function SetStatus(w: World, i: nat, s: Status): World
    requires i < |w.requests|
  {
    w.(requests := w.requests[i := w.requests[i].(status := s)])
  }

  function DoExecute(e: Env, w: World, i: nat, raced: bool): Option<World> {
    if !(i < |w.requests| && w.requests[i].status.Pending? && w.requests[i].process in e.hosts) then None
    else
      var r := w.requests[i];
      var ttl := e.hosts[r.process].ttl;
      match r.kind
      case Acquire =>
        var slot := LowestFree(w.table, w.now, 0);
        if raced || slot.None? then Some(SetStatus(w, i, NoRow))
        else Some(SetStatus(w, i, Claimed(w.now, slot.value))
                  .(table := Claim(w.table, slot.value, r.token, w.now, ttl)))
      case Renewal =>
        Some(SetStatus(w, i, if IsHeld(w.table, r.worker, r.token, w.now) then Held(w.now) else Lost)
             .(table := Extend(w.table, r.worker, r.token, w.now, ttl)))
      case Release =>
        Some(SetStatus(w, i, Deleted)
             .(table := Drop(w.table, r.worker, r.token),
               freed := if r.worker in w.table && w.table[r.worker].token == r.token
                        then w.freed[r.worker := w.now] else w.freed))
  }

  /** A reported loss: the generator is halted at once. */
  function Halt(w: World, t: nat): World
    requires t in w.gens
  {
    w.(gens := w.gens[t := w.gens[t].(deadline := None)], lost := w.lost + {t})
  }

  function DoDeliver(e: Env, w: World, p: nat): Option<World> {
    if !(p in e.hosts && p in w.managers) then None
    else
      var m := w.managers[p];
      match m.wait
      case Idle => None
      case Acquiring(i, sendAt, attempt) =>
        if i >= |w.requests| then None
        else if w.requests[i].status.Claimed? then
          var slot := w.requests[i].status.slot;
          Some(SetManager(w.(gens := w.gens[i := State(slot, -1, 0, Some(Deadline(e.hosts[p], sendAt)))]),
                          p, Manager(Some(Session(slot, i)), Idle)))
        else if w.requests[i].status.NoRow? then
          if attempt < ACQUIRE_ATTEMPTS then Some(SendAcquire(w, p, m.session, sendAt, attempt + 1))
          else Some(SetManager(w, p, m.(wait := Idle)))
        else None
      case Renewing(i, sendAt) =>
        if i >= |w.requests| || m.session.None? || m.session.value.token !in w.gens then None
        else
          var token := m.session.value.token;
          if w.requests[i].status.Held? then
            Some(SetManager(
                   w.(gens := w.gens[token := w.gens[token].(deadline := Some(Deadline(e.hosts[p], sendAt)))]),
                   p, m.(wait := Idle)))
          else if w.requests[i].status.Lost? then
            Some(SendAcquire(Halt(w, token), p, m.session, Mono(e, w, p), 1))
          else None
      case Releasing(i) =>
        if i >= |w.requests| || w.requests[i].status.Pending? then None
        else Some(SetManager(w, p, Manager(None, Idle)))
  }

  function DoGiveUp(w: World, p: nat): Option<World> {
    if !(p in w.managers) || w.managers[p].wait.Idle? then None
    else if w.managers[p].wait.Releasing? then Some(SetManager(w, p, Manager(None, Idle)))
    else Some(SetManager(w, p, w.managers[p].(wait := Idle)))
  }

  function DoCall(e: Env, w: World, token: nat, wall: int): Option<World> {
    if !(token in w.gens && token < |w.requests| && w.requests[token].process in e.hosts
         && WallOk(e, w.now, wall)) then None
    else
      var g := w.gens[token];
      var r := NextSpec(g, [Reading(Mono(e, w, w.requests[token].process), wall)]);
      if r.outcome.Minted? then
        var mint := Mint(token, g.worker, r.state.lastMillis, r.state.sequence, w.now, wall, r.outcome.id);
        Some(w.(gens := w.gens[token := r.state], log := w.log + [mint]))
      else Some(w)
  }

  /** One step, or None when the action is not possible in this world. */
  function Do(e: Env, w: World, a: Action): Option<World> {
    match a
    case Tick(d) => Some(w.(now := w.now + d))
    case Start(p) =>
      if p in e.hosts && p in w.managers && w.managers[p] == Manager(None, Idle)
      then Some(SendAcquire(w, p, None, Mono(e, w, p), 1)) else None
    case Beat(p) => DoBeat(e, w, p)
    case Teardown(p) => DoTeardown(w, p)
    case Execute(i, raced) => DoExecute(e, w, i, raced)
    case Deliver(p) => DoDeliver(e, w, p)
    case GiveUp(p) => DoGiveUp(w, p)
    case Call(token, wall) => DoCall(e, w, token, wall)
  }

  /** A run: None when some action in it is not possible. */
  function Run(e: Env, w: World, acts: seq<Action>): Option<World>
    decreases |acts|
  {
    if acts == [] then Some(w)
    else match Do(e, w, acts[0])
      case None => None
      case Some(w') => Run(e, w', acts[1..])
  }

  // ---- The fencing invariant ----

  /** Until `until`, the row of `worker` is this token's and outlives `until`. */
  predicate Fenced(w: World, token: nat, worker: int, until: int) {
    until > w.now ==> worker in w.table && w.table[worker].token == token && w.table[worker].expires >= until
  }

  predicate IsClaim(w: World, token: nat) {
    token < |w.requests| && w.requests[token].kind.Acquire? && w.requests[token].status.Claimed?
  }

  predicate RequestOk(e: Env, w: World, i: nat)
    requires i < |w.requests|
  {
    var r := w.requests[i];
    && r.process in e.hosts && r.sent <= w.now
    && (r.kind.Acquire? ==>
          r.token == i && (r.status.Pending? || r.status.NoRow? || r.status.Claimed?))
    && (!r.kind.Acquire? ==>
          && IsClaim(w, r.token) && w.requests[r.token].status.slot == r.worker
          && w.requests[r.token].process == r.process && !r.status.Claimed?)
    && (r.status.Claimed? ==> r.sent <= r.status.at <= w.now && 0 <= r.status.slot <= MAX_WORKER_ID)
    && (r.status.Held? ==> r.kind.Renewal? && r.sent <= r.status.at <= w.now)
    && (r.kind.Release? ==> r.token in w.retired)
  }

  predicate RowOk(e: Env, w: World, k: int)
    requires k in w.table
  {
    var row := w.table[k];
    && IsClaim(w, row.token) && w.requests[row.token].status == Claimed(row.acquired, k)
    && w.requests[row.token].process in e.hosts
    && row.acquired <= w.now && row.expires <= w.now + e.hosts[w.requests[row.token].process].ttl
  }

  /** What an executed statement still guarantees while its token is not retired. */
  predicate ReplyOk(e: Env, w: World, i: nat)
    requires i < |w.requests| && RequestOk(e, w, i)
  {
    var r := w.requests[i];
    var ttl := e.hosts[r.process].ttl;
    && (r.status.Lost? ==> r.kind.Renewal? && !IsHeld(w.table, r.worker, r.token, w.now))
    && (r.token !in w.retired ==>
      && (r.status.Claimed? ==> Fenced(w, r.token, r.status.slot, r.status.at + ttl))
      && (r.status.Held? ==> Fenced(w, r.token, r.worker, r.status.at + ttl)))
  }

  ghost predicate GenOk(e: Env, w: World, t: nat)
    requires t in w.gens
  {
    var g := w.gens[t];
    && IsClaim(w, t) && w.requests[t].process in e.hosts
    && g.Valid() && g.worker == w.requests[t].status.slot
    && (t in w.retired + w.lost ==> g.deadline.None?)
    && (g.deadline.Some? ==>
          var h := e.hosts[w.requests[t].process];
          Fenced(w, t, g.worker, g.deadline.value - h.offset + h.margin))
  }

  predicate ManagerOk(e: Env, w: World, p: nat)
    requires p in w.managers
  {
    var m := w.managers[p];
    && p in e.hosts
    && (m.session.Some? ==>
          var s := m.session.value;
          && s.token in w.gens && IsClaim(w, s.token) && w.requests[s.token].process == p
          && w.requests[s.token].status.slot == s.worker
          && (s.token in w.retired ==> m.wait.Releasing?))
    && (m.wait.Acquiring? ==>
          var i := m.wait.req;
          && i < |w.requests| && w.requests[i].kind.Acquire? && w.requests[i].process == p
          && i !in w.gens && m.wait.sendAt - e.hosts[p].offset <= w.requests[i].sent)
    && (m.wait.Renewing? ==>
          var i := m.wait.req;
          && m.session.Some? && i < |w.requests| && w.requests[i].kind.Renewal? && w.requests[i].process == p
          && w.requests[i].token == m.session.value.token
          && m.wait.sendAt - e.hosts[p].offset <= w.requests[i].sent
          && (w.requests[i].status.Held? ==> m.session.value.token !in w.lost))
    && (m.wait.Releasing? ==> m.session.Some? && m.wait.req < |w.requests|)
  }

  predicate LostOk(w: World, t: nat) {
    && t in w.gens
    && !IsHeld(w.table, w.gens[t].worker, t, w.now)
  }

  ghost predicate Inv(e: Env, w: World) {
    && ValidEnv(e)
    && w.managers.Keys == e.hosts.Keys
    && (forall i :: 0 <= i < |w.requests| ==> RequestOk(e, w, i) && ReplyOk(e, w, i))
    && (forall k :: k in w.table ==> RowOk(e, w, k))
    && (forall t :: t in w.gens ==> GenOk(e, w, t))
    && (forall p :: p in w.managers ==> ManagerOk(e, w, p))
    && (forall t :: t in w.lost ==> LostOk(w, t))
    && w.retired <= w.gens.Keys
  }

  lemma TickKeepsInv(e: Env, w: World, d: nat)
    requires Inv(e, w)
    ensures Inv(e, w.(now := w.now + d))
  {
    var w' := w.(now := w.now + d);
    forall i | 0 <= i < |w.requests| ensures RequestOk(e, w', i) && ReplyOk(e, w', i) {
      assert RequestOk(e, w, i) && ReplyOk(e, w, i);
    }
    forall k | k in w.table ensures RowOk(e, w', k) {
      assert RowOk(e, w, k);
    }
    forall t | t in w.gens ensures GenOk(e, w', t) {
      assert GenOk(e, w, t);
    }
    forall p | p in w.managers ensures ManagerOk(e, w', p) {
      assert ManagerOk(e, w, p);
    }
    forall t | t in w.lost ensures LostOk(w', t) {
      assert LostOk(w, t);
    }
  }

  /**
   * A step of process p that touches neither the table nor the clock: it may append requests, write
   * generators of its own, and change its own manager.
   */
  ghost predicate OwnStep(w: World, w': World, p: nat) {
    && w'.now == w.now && w'.table == w.table && w.requests <= w'.requests
    && w.retired <= w'.retired && w.lost <= w'.lost && w.gens.Keys <= w'.gens.Keys
    && p in w.managers && w'.managers.Keys == w.managers.Keys
    && (forall q :: q in w.managers && q != p ==> w'.managers[q] == w.managers[q])
    && (forall t :: t in w.gens ==> w'.gens[t].worker == w.gens[t].worker)
    && (forall t :: t in w'.gens && Touched(w, w', t) ==> t < |w.requests| && w.requests[t].process == p)
  }

  ghost predicate Touched(w: World, w': World, t: nat) {
    && t in w'.gens
    && (|| t !in w.gens || w'.gens[t] != w.gens[t]
        || (t in w'.retired && t !in w.retired) || (t in w'.lost && t !in w.lost))
  }

  lemma OwnStepKeepsRequests(e: Env, w: World, w': World, p: nat)
    requires Inv(e, w) && OwnStep(w, w', p)
    ensures forall i :: 0 <= i < |w.requests| ==> RequestOk(e, w', i) && ReplyOk(e, w', i)
    ensures forall k :: k in w'.table ==> RowOk(e, w', k)
  {
    forall i | 0 <= i < |w.requests| ensures RequestOk(e, w', i) && ReplyOk(e, w', i) {
      assert RequestOk(e, w, i) && ReplyOk(e, w, i);
    }
    forall k | k in w.table ensures RowOk(e, w', k) {
      assert RowOk(e, w, k);
    }
  }

  lemma OwnStepKeepsGenerator(e: Env, w: World, w': World, p: nat, t: nat)
    requires Inv(e, w) && OwnStep(w, w', p) && t in w.gens && !Touched(w, w', t)
    ensures GenOk(e, w', t)
  {
    assert GenOk(e, w, t);
  }

  lemma OwnStepKeepsManager(e: Env, w: World, w': World, p: nat, q: nat)
    requires Inv(e, w) && OwnStep(w, w', p) && q in w.managers && q != p && w'.retired <= w'.gens.Keys
    ensures ManagerOk(e, w', q)
  {
    assert ManagerOk(e, w, q) && w'.managers[q] == w.managers[q];
    var m := w.managers[q];
    assert m.session.Some? ==> !Touched(w, w', m.session.value.token);
    assert m.wait.Acquiring? ==> !Touched(w, w', m.wait.req);
  }

  /** What the step wrote itself is in order. */
  ghost predicate WritesOk(e: Env, w: World, w': World, p: nat) {
    && (forall i :: |w.requests| <= i < |w'.requests| ==> RequestOk(e, w', i) && ReplyOk(e, w', i))
    && (forall t :: Touched(w, w', t) ==> GenOk(e, w', t))
    && (forall t :: t in w'.lost && t !in w.lost ==> LostOk(w', t))
    && p in w'.managers && ManagerOk(e, w', p) && w'.retired <= w'.gens.Keys
  }

  lemma OwnStepKeepsInv(e: Env, w: World, w': World, p: nat)
    requires Inv(e, w) && OwnStep(w, w', p) && WritesOk(e, w, w', p)
    ensures Inv(e, w')
  {
    OwnStepKeepsRequests(e, w, w', p);
    forall t | t in w'.gens ensures GenOk(e, w', t) {
      if !Touched(w, w', t) {
        OwnStepKeepsGenerator(e, w, w', p, t);
      }
    }
    forall q | q in w'.managers ensures ManagerOk(e, w', q) {
      if q != p {
        OwnStepKeepsManager(e, w, w', p, q);
      }
    }
    forall t | t in w'.lost ensures LostOk(w', t) {
      assert t in w.lost ==> LostOk(w, t);
    }
  }

  lemma SendWrites(e: Env, w: World, p: nat, session: Option<Session>, sendAt: int, attempt: nat)
    requires p in w.managers && ManagerOk(e, w, p) && session == w.managers[p].session
    requires |w.requests| !in w.gens && w.retired <= w.gens.Keys
    requires session.Some? ==> session.value.token !in w.retired
    requires sendAt - e.hosts[p].offset <= w.now
    ensures var w' := SendAcquire(w, p, session, sendAt, attempt); OwnStep(w, w', p) && WritesOk(e, w, w', p)
  {
    var w' := SendAcquire(w, p, session, sendAt, attempt);
    assert w'.gens == w.gens && w'.retired == w.retired && w'.lost == w.lost;
  }

  lemma NextTokenIsFresh(e: Env, w: World)
    requires Inv(e, w)
    ensures |w.requests| !in w.gens
  {
    assert |w.requests| in w.gens ==> GenOk(e, w, |w.requests|);
  }

  lemma SendKeepsInv(e: Env, w: World, p: nat, session: Option<Session>, sendAt: int, attempt: nat)
    requires Inv(e, w) && p in w.managers && session == w.managers[p].session
    requires session.Some? ==> session.value.token !in w.retired
    requires sendAt - e.hosts[p].offset <= w.now
    ensures Inv(e, SendAcquire(w, p, session, sendAt, attempt))
  {
    NextTokenIsFresh(e, w);
    SendWrites(e, w, p, session, sendAt, attempt);
    OwnStepKeepsInv(e, w, SendAcquire(w, p, session, sendAt, attempt), p);
  }

  lemma BeatWrites(e: Env, w: World, p: nat)
    requires DoBeat(e, w, p).Some? && ManagerOk(e, w, p) && GenOk(e, w, w.managers[p].session.value.token)
    requires w.retired <= w.gens.Keys
    requires var t := w.managers[p].session.value.token; t in w.lost ==> LostOk(w, t)
    ensures var w' := DoBeat(e, w, p).value; OwnStep(w, w', p) && WritesOk(e, w, w', p)
  {
    var w' := DoBeat(e, w, p).value;
    assert w'.gens == w.gens && w'.retired == w.retired && w'.lost == w.lost;
  }

  lemma BeatKeepsInv(e: Env, w: World, p: nat)
    requires Inv(e, w) && DoBeat(e, w, p).Some?
    ensures Inv(e, DoBeat(e, w, p).value)
  {
    assert ManagerOk(e, w, p);
    BeatWrites(e, w, p);
    OwnStepKeepsInv(e, w, DoBeat(e, w, p).value, p);
  }

  lemma TeardownWrites(e: Env, w: World, p: nat)
    requires DoTeardown(w, p).Some? && ManagerOk(e, w, p) && GenOk(e, w, w.managers[p].session.value.token)
    requires w.retired <= w.gens.Keys
    ensures var w' := DoTeardown(w, p).value; OwnStep(w, w', p) && WritesOk(e, w, w', p)
  {
    var w' := DoTeardown(w, p).value;
    var t := w.managers[p].session.value.token;
    assert w'.lost == w.lost && forall u :: u != t && u in w.gens ==> w'.gens[u] == w.gens[u];
    assert GenOk(e, w', t);
  }

  lemma TeardownKeepsInv(e: Env, w: World, p: nat)
    requires Inv(e, w) && DoTeardown(w, p).Some?
    ensures Inv(e, DoTeardown(w, p).value)
  {
    assert ManagerOk(e, w, p);
    TeardownWrites(e, w, p);
    OwnStepKeepsInv(e, w, DoTeardown(w, p).value, p);
  }

  lemma ClaimReplyWrites(e: Env, w: World, p: nat, i: nat)
    requires DoDeliver(e, w, p).Some? && ManagerOk(e, w, p) && w.retired <= w.gens.Keys && i !in w.lost
    requires w.managers[p].wait.Acquiring? && i == w.managers[p].wait.req && w.requests[i].status.Claimed?
    requires RequestOk(e, w, i) && ReplyOk(e, w, i)
    ensures var w' := DoDeliver(e, w, p).value; OwnStep(w, w', p) && WritesOk(e, w, w', p)
  {
    var w' := DoDeliver(e, w, p).value;
    assert w'.lost == w.lost && w'.retired == w.retired && forall u :: u in w.gens ==> w'.gens[u] == w.gens[u];
    assert GenOk(e, w', i);
  }

  lemma ClaimReplyKeepsInv(e: Env, w: World, p: nat)
    requires Inv(e, w) && DoDeliver(e, w, p).Some?
    requires w.managers[p].wait.Acquiring? && w.requests[w.managers[p].wait.req].status.Claimed?
    ensures Inv(e, DoDeliver(e, w, p).value)
  {
    var i := w.managers[p].wait.req;
    assert ManagerOk(e, w, p);
    assert i in w.lost ==> LostOk(w, i);
    ClaimReplyWrites(e, w, p, i);
    OwnStepKeepsInv(e, w, DoDeliver(e, w, p).value, p);
  }

  lemma HeldReplyWrites(e: Env, w: World, p: nat, i: nat)
    requires DoDeliver(e, w, p).Some? && ManagerOk(e, w, p) && w.retired <= w.gens.Keys
    requires w.managers[p].wait.Renewing? && i == w.managers[p].wait.req && w.requests[i].status.Held?
    requires RequestOk(e, w, i) && ReplyOk(e, w, i) && GenOk(e, w, w.managers[p].session.value.token)
    ensures var w' := DoDeliver(e, w, p).value; OwnStep(w, w', p) && WritesOk(e, w, w', p)
  {
    var w' := DoDeliver(e, w, p).value;
    var t := w.managers[p].session.value.token;
    assert w'.lost == w.lost && w'.retired == w.retired;
    assert forall u :: u != t && u in w.gens ==> w'.gens[u] == w.gens[u];
    assert GenOk(e, w', t);
  }

  lemma HeldReplyKeepsInv(e: Env, w: World, p: nat)
    requires Inv(e, w) && DoDeliver(e, w, p).Some?
    requires w.managers[p].wait.Renewing? && w.requests[w.managers[p].wait.req].status.Held?
    ensures Inv(e, DoDeliver(e, w, p).value)
  {
    assert ManagerOk(e, w, p);
    HeldReplyWrites(e, w, p, w.managers[p].wait.req);
    OwnStepKeepsInv(e, w, DoDeliver(e, w, p).value, p);
  }

  lemma HaltWrites(e: Env, w: World, p: nat, t: nat)
    requires p in w.managers && ManagerOk(e, w, p) && w.managers[p].wait.Idle? && w.managers[p].session.Some?
    requires t == w.managers[p].session.value.token && t in w.gens && GenOk(e, w, t) && w.retired <= w.gens.Keys
    requires !IsHeld(w.table, w.gens[t].worker, t, w.now)
    ensures OwnStep(w, Halt(w, t), p) && WritesOk(e, w, Halt(w, t), p)
  {
    var w' := Halt(w, t);
    assert w'.retired == w.retired && forall u :: u != t && u in w.gens ==> w'.gens[u] == w.gens[u];
    assert GenOk(e, w', t) && LostOk(w', t);
  }

  lemma HaltKeepsInv(e: Env, w: World, p: nat, t: nat)
    requires Inv(e, w) && p in w.managers && w.managers[p].wait.Idle? && w.managers[p].session.Some?
    requires t == w.managers[p].session.value.token && t in w.gens
    requires !IsHeld(w.table, w.gens[t].worker, t, w.now)
    ensures Inv(e, Halt(w, t))
  {
    assert ManagerOk(e, w, p);
    HaltWrites(e, w, p, t);
    OwnStepKeepsInv(e, w, Halt(w, t), p);
  }

  /** The lost reply in two strides: stop waiting and halt, then send a fresh acquire. */
  lemma LostReplyInStrides(e: Env, w: World, p: nat)
    requires DoDeliver(e, w, p).Some?
    requires w.managers[p].wait.Renewing? && w.requests[w.managers[p].wait.req].status.Lost?
    ensures var m := w.managers[p];
            DoDeliver(e, w, p).value ==
              SendAcquire(Halt(DoGiveUp(w, p).value, m.session.value.token), p, m.session, Mono(e, w, p), 1)
  {
  }

  lemma LossIsStillALoss(e: Env, w: World, p: nat)
    requires Inv(e, w) && DoDeliver(e, w, p).Some?
    requires w.managers[p].wait.Renewing? && w.requests[w.managers[p].wait.req].status.Lost?
    ensures var t := w.managers[p].session.value.token;
            t in w.gens && t !in w.retired && !IsHeld(w.table, w.gens[t].worker, t, w.now)
  {
    var m := w.managers[p];
    assert ManagerOk(e, w, p);
    assert RequestOk(e, w, m.wait.req) && ReplyOk(e, w, m.wait.req) && GenOk(e, w, m.session.value.token);
  }

  lemma LostReplyKeepsInv(e: Env, w: World, p: nat)
    requires Inv(e, w) && DoDeliver(e, w, p).Some?
    requires w.managers[p].wait.Renewing? && w.requests[w.managers[p].wait.req].status.Lost?
    ensures Inv(e, DoDeliver(e, w, p).value)
  {
    var m := w.managers[p];
    LossIsStillALoss(e, w, p);
    GiveUpKeepsInv(e, w, p);
    var idle := DoGiveUp(w, p).value;
    HaltKeepsInv(e, idle, p, m.session.value.token);
    SendKeepsInv(e, Halt(idle, m.session.value.token), p, m.session, Mono(e, w, p), 1);
    LostReplyInStrides(e, w, p);
  }

  lemma EmptyReplyKeepsInv(e: Env, w: World, p: nat)
    requires Inv(e, w) && DoDeliver(e, w, p).Some?
    requires w.managers[p].wait.Acquiring? && w.requests[w.managers[p].wait.req].status.NoRow?
    ensures Inv(e, DoDeliver(e, w, p).value)
  {
    var m := w.managers[p];
    assert ManagerOk(e, w, p) && RequestOk(e, w, m.wait.req);
    if m.wait.attempt < ACQUIRE_ATTEMPTS {
      SendKeepsInv(e, w, p, m.session, m.wait.sendAt, m.wait.attempt + 1);
    } else {
      GiveUpKeepsInv(e, w, p);
    }
  }

  lemma DeliverKeepsInv(e: Env, w: World, p: nat)
    requires Inv(e, w) && DoDeliver(e, w, p).Some?
    ensures Inv(e, DoDeliver(e, w, p).value)
  {
    var wait := w.managers[p].wait;
    if wait.Acquiring? && w.requests[wait.req].status.Claimed? {
      ClaimReplyKeepsInv(e, w, p);
    } else if wait.Acquiring? {
      EmptyReplyKeepsInv(e, w, p);
    } else if wait.Renewing? && w.requests[wait.req].status.Held? {
      HeldReplyKeepsInv(e, w, p);
    } else if wait.Renewing? {
      LostReplyKeepsInv(e, w, p);
    } else {
      GiveUpKeepsInv(e, w, p);
    }
  }

  lemma GiveUpWrites(e: Env, w: World, p: nat)
    requires DoGiveUp(w, p).Some? && ManagerOk(e, w, p) && w.retired <= w.gens.Keys
    ensures var w' := DoGiveUp(w, p).value; OwnStep(w, w', p) && WritesOk(e, w, w', p)
  {
    var w' := DoGiveUp(w, p).value;
    assert w'.gens == w.gens && w'.retired == w.retired && w'.lost == w.lost;
  }

  lemma GiveUpKeepsInv(e: Env, w: World, p: nat)
    requires Inv(e, w) && DoGiveUp(w, p).Some?
    ensures Inv(e, DoGiveUp(w, p).value)
  {
    assert ManagerOk(e, w, p);
    GiveUpWrites(e, w, p);
    OwnStepKeepsInv(e, w, DoGiveUp(w, p).value, p);
  }

  lemma CallWrites(e: Env, w: World, token: nat, wall: int, p: nat)
    requires DoCall(e, w, token, wall).Some? && GenOk(e, w, token) && p == w.requests[token].process
    requires p in w.managers && ManagerOk(e, w, p) && w.retired <= w.gens.Keys
    ensures var w' := DoCall(e, w, token, wall).value; OwnStep(w, w', p) && WritesOk(e, w, w', p)
  {
    var w' := DoCall(e, w, token, wall).value;
    NextIsSound(w.gens[token], [Reading(Mono(e, w, p), wall)]);
    assert w'.retired == w.retired && w'.lost == w.lost;
    assert forall u :: u != token && u in w.gens ==> w'.gens[u] == w.gens[u];
    assert GenOk(e, w', token);
  }

  lemma CallKeepsInv(e: Env, w: World, token: nat, wall: int)
    requires Inv(e, w) && DoCall(e, w, token, wall).Some?
    ensures Inv(e, DoCall(e, w, token, wall).value)
  {
    var p := w.requests[token].process;
    assert GenOk(e, w, token) && p in w.managers && ManagerOk(e, w, p);
    CallWrites(e, w, token, wall, p);
    OwnStepKeepsInv(e, w, DoCall(e, w, token, wall).value, p);
  }

  // ---- The database's own steps ----

  /** Requests change only from Pending to a reply, and nothing but the table and freed changes besides. */
  ghost predicate DbStep(w: World, w': World, i: nat) {
    && i < |w.requests| == |w'.requests| && w.requests[i].status.Pending?
    && w'.requests == w.requests[i := w.requests[i].(status := w'.requests[i].status)]
    && w'.(table := w.table, requests := w.requests, freed := w.freed) == w
    && !w'.requests[i].status.Pending?
  }

  /** The statement took nothing from a token that is not retired. */
  ghost predicate KeepsFences(w: World, w': World) {
    && (forall t, k, u :: t !in w.retired && Fenced(w, t, k, u) ==> Fenced(w', t, k, u))
    && (forall t, k :: IsClaim(w, t) && IsHeld(w'.table, k, t, w.now) ==> IsHeld(w.table, k, t, w.now))
  }

  lemma DbStepKeepsInv(e: Env, w: World, w': World, i: nat)
    requires Inv(e, w) && DbStep(w, w', i) && KeepsFences(w, w')
    requires RequestOk(e, w', i) && ReplyOk(e, w', i)
    requires w'.requests[i].status.Held? ==> IsHeld(w.table, w.requests[i].worker, w.requests[i].token, w.now)
    requires forall k :: k in w'.table ==> RowOk(e, w', k)
    ensures Inv(e, w')
  {
    forall j | 0 <= j < |w.requests| ensures RequestOk(e, w', j) && ReplyOk(e, w', j) {
      if j != i {
        assert RequestOk(e, w, j) && ReplyOk(e, w, j);
      }
    }
    forall t | t in w.gens ensures GenOk(e, w', t) {
      assert GenOk(e, w, t);
    }
    forall t | t in w.lost ensures LostOk(w', t) {
      assert LostOk(w, t) && GenOk(e, w, t);
    }
    forall p | p in w.managers ensures ManagerOk(e, w', p) {
      assert ManagerOk(e, w, p);
      if w.managers[p].wait.Renewing? && w.managers[p].wait.req == i {
        var t := w.managers[p].session.value.token;
        assert t in w.lost ==> LostOk(w, t) && GenOk(e, w, t);
      }
    }
  }

  lemma AcquireShape(e: Env, w: World, i: nat, raced: bool)
    requires DoExecute(e, w, i, raced).Some? && w.requests[i].kind.Acquire? && RequestOk(e, w, i)
    ensures var w' := DoExecute(e, w, i, raced).value;
            DbStep(w, w', i) && KeepsFences(w, w') && RequestOk(e, w', i) && ReplyOk(e, w', i)
  {
  }

  lemma ExecuteAcquireKeepsInv(e: Env, w: World, i: nat, raced: bool)
    requires Inv(e, w) && DoExecute(e, w, i, raced).Some? && w.requests[i].kind.Acquire?
    ensures Inv(e, DoExecute(e, w, i, raced).value)
  {
    var w' := DoExecute(e, w, i, raced).value;
    assert RequestOk(e, w, i);
    AcquireShape(e, w, i, raced);
    forall k | k in w'.table ensures RowOk(e, w', k) {
      assert k in w.table ==> RowOk(e, w, k);
    }
    DbStepKeepsInv(e, w, w', i);
  }

  /** A renewal revives nothing: whatever is held after it was held before, reported lost or not. */
  lemma ExecuteRenewalKeepsInv(e: Env, w: World, i: nat, raced: bool)
    requires Inv(e, w) && DoExecute(e, w, i, raced).Some? && w.requests[i].kind.Renewal?
    ensures Inv(e, DoExecute(e, w, i, raced).value)
    ensures forall k, t :: IsHeld(DoExecute(e, w, i, raced).value.table, k, t, w.now) ==> IsHeld(w.table, k, t, w.now)
  {
    var w' := DoExecute(e, w, i, raced).value;
    assert RequestOk(e, w, i);
    forall k | k in w'.table ensures RowOk(e, w', k) {
      assert RowOk(e, w, k);
    }
    assert KeepsFences(w, w') by {
      assert forall k :: k in w.table ==> RowOk(e, w, k);
    }
    DbStepKeepsInv(e, w, w', i);
  }

  /** A release, however late, deletes no row but that of a token whose generator was halted before it was sent. */
  lemma ExecuteReleaseKeepsInv(e: Env, w: World, i: nat, raced: bool)
    requires Inv(e, w) && DoExecute(e, w, i, raced).Some? && w.requests[i].kind.Release?
    ensures Inv(e, DoExecute(e, w, i, raced).value)
    ensures forall k :: k in w.table && k !in DoExecute(e, w, i, raced).value.table ==>
              w.table[k].token in w.retired && w.table[k].token in w.gens && w.gens[w.table[k].token].deadline.None?
  {
    var w' := DoExecute(e, w, i, raced).value;
    assert RequestOk(e, w, i);
    forall k | k in w'.table ensures RowOk(e, w', k) {
      assert RowOk(e, w, k);
    }
    DbStepKeepsInv(e, w, w', i);
  }

  /** Every step keeps the fencing invariant. */
  lemma StepKeepsInv(e: Env, w: World, a: Action)
    requires Inv(e, w) && Do(e, w, a).Some?
    ensures Inv(e, Do(e, w, a).value)
  {
    match a {
      case Tick(d) => TickKeepsInv(e, w, d);
      case Start(p) => SendKeepsInv(e, w, p, None, Mono(e, w, p), 1);
      case Beat(p) => BeatKeepsInv(e, w, p);
      case Teardown(p) => TeardownKeepsInv(e, w, p);
      case Execute(i, raced) =>
        match w.requests[i].kind {
          case Acquire => ExecuteAcquireKeepsInv(e, w, i, raced);
          case Renewal => ExecuteRenewalKeepsInv(e, w, i, raced);
          case Release => ExecuteReleaseKeepsInv(e, w, i, raced);
        }
      case Deliver(p) => DeliverKeepsInv(e, w, p);
      case GiveUp(p) => GiveUpKeepsInv(e, w, p);
      case Call(token, wall) => CallKeepsInv(e, w, token, wall);
    }
  }

  lemma {:induction false} RunKeepsInv(e: Env, w: World, acts: seq<Action>)
    requires Inv(e, w) && Run(e, w, acts).Some?
    ensures Inv(e, Run(e, w, acts).value)
    decreases |acts|
  {
    if acts != [] {
      StepKeepsInv(e, w, acts[0]);
      RunKeepsInv(e, Do(e, w, acts[0]).value, acts[1..]);
    }
  }
}
