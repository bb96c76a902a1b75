/**
 * What the steps of module Fleet achieve, and not only what they never do: whole exchanges of a
 * manager with the database, and how long a renewed generator keeps minting.
 */
module Renewals {
  import opened Options
  import opened LeaseTable
  import opened Snowflake
  import opened Fleet

  // ---- The deadline a renewal gives ----

  /** A held reply moves the deadline of the session's generator to ttl - margin past the send. */
  lemma HeldReplyExtends(e: Env, w: World, p: nat)
    requires Inv(e, w) && DoDeliver(e, w, p).Some?
    requires w.managers[p].wait.Renewing? && w.requests[w.managers[p].wait.req].status.Held?
    ensures var w', token := DoDeliver(e, w, p).value, w.managers[p].session.value.token;
            && token in w'.gens
            && w'.gens[token].deadline == Some(w.managers[p].wait.sendAt + e.hosts[p].ttl - e.hosts[p].margin)
            && token !in w'.lost + w'.retired
  {
    assert ManagerOk(e, w, p);
  }

  /** No deadline lies further ahead than a renewal sent now, or sent by the one outstanding, would put it. */
  predicate TimelyAt(e: Env, w: World, t: nat)
    requires t in w.gens
  {
    t < |w.requests| && w.requests[t].process in e.hosts && w.requests[t].process in w.managers &&
    var p := w.requests[t].process;
    var m := w.managers[p];
    w.gens[t].deadline.Some? ==>
      && w.gens[t].deadline.value <= Deadline(e.hosts[p], Mono(e, w, p))
      && (m.wait.Renewing? && m.session.Some? && m.session.value.token == t ==>
            w.gens[t].deadline.value <= Deadline(e.hosts[p], m.wait.sendAt))
  }

  predicate WaitTimely(e: Env, w: World, p: nat)
    requires p in w.managers
  {
    p in e.hosts &&
    match w.managers[p].wait
    case Acquiring(_, sendAt, _) => sendAt <= Mono(e, w, p)
    case Renewing(_, sendAt) => sendAt <= Mono(e, w, p)
    case _ => true
  }

  ghost predicate Timely(e: Env, w: World) {
    && (forall t :: t in w.gens ==> TimelyAt(e, w, t))
    && (forall p :: p in w.managers ==> WaitTimely(e, w, p))
  }

  /** From w to w' the generator of t was finished, or its deadline did not move back. */
  predicate NoSooner(w: World, w': World, t: nat)
    requires t in w.gens
  {
    t in w'.gens && (w.gens[t].deadline.Some? ==>
      || t in w'.lost + w'.retired
      || (w'.gens[t].deadline.Some? && w.gens[t].deadline.value <= w'.gens[t].deadline.value))
  }

  /** A step of the manager of p, as far as deadlines are concerned. */
  ghost predicate DeadlineStep(e: Env, w: World, w': World, p: nat) {
    && w'.now == w.now && w.requests <= w'.requests && w'.managers.Keys == w.managers.Keys && p in w.managers
    && (forall q :: q in w.managers && q != p ==> w'.managers[q] == w.managers[q])
    && (forall t :: t in w.gens ==> t in w'.gens)
    && (forall t :: t in w.gens && t < |w.requests| && w.requests[t].process != p ==>
          w'.gens[t].deadline == w.gens[t].deadline)
    && (forall t :: t in w'.gens && t !in w.gens ==> t < |w.requests| && w.requests[t].process == p)
  }

  lemma DeadlineStepKeepsTimely(e: Env, w: World, w': World, p: nat)
    requires Timely(e, w) && DeadlineStep(e, w, w', p) && WaitTimely(e, w', p)
    requires forall t :: t in w'.gens && t < |w.requests| && w.requests[t].process == p ==> TimelyAt(e, w', t)
    ensures Timely(e, w')
  {
    forall t | t in w'.gens ensures TimelyAt(e, w', t) {
      if t in w.gens {
        assert TimelyAt(e, w, t);
      }
    }
    forall q | q in w'.managers ensures WaitTimely(e, w', q) {
      assert WaitTimely(e, w, q);
    }
  }

  /** What a delivery does to the generators of its own process. */
  lemma DeliverIsTimely(e: Env, w: World, p: nat, t: nat)
    requires DoDeliver(e, w, p).Some? && ManagerOk(e, w, p) && WaitTimely(e, w, p)
    requires t in w.gens ==> TimelyAt(e, w, t)
    requires t in DoDeliver(e, w, p).value.gens && t < |w.requests| && w.requests[t].process == p
    ensures TimelyAt(e, DoDeliver(e, w, p).value, t)
    ensures t in w.gens ==> NoSooner(w, DoDeliver(e, w, p).value, t)
  {
  }

  lemma DeliverShape(e: Env, w: World, p: nat)
    requires DoDeliver(e, w, p).Some? && ManagerOk(e, w, p) && WaitTimely(e, w, p)
    ensures DeadlineStep(e, w, DoDeliver(e, w, p).value, p) && WaitTimely(e, DoDeliver(e, w, p).value, p)
  {
  }

  lemma DeliverKeepsTimely(e: Env, w: World, p: nat)
    requires Inv(e, w) && Timely(e, w) && DoDeliver(e, w, p).Some?
    ensures Timely(e, DoDeliver(e, w, p).value)
    ensures forall t :: t in w.gens ==> NoSooner(w, DoDeliver(e, w, p).value, t)
  {
    var w' := DoDeliver(e, w, p).value;
    assert ManagerOk(e, w, p) && WaitTimely(e, w, p);
    DeliverShape(e, w, p);
    forall t | t in w'.gens && t < |w.requests| && w.requests[t].process == p ensures TimelyAt(e, w', t) {
      assert t in w.gens ==> TimelyAt(e, w, t);
      DeliverIsTimely(e, w, p, t);
    }
    DeadlineStepKeepsTimely(e, w, w', p);
    forall t | t in w.gens ensures NoSooner(w, w', t) {
      assert TimelyAt(e, w, t);
      if w.requests[t].process == p {
        DeliverIsTimely(e, w, p, t);
      }
    }
  }

  /** A step that leaves all deadlines alone, or only finishes generators. */
  ghost predicate Calm(e: Env, w: World, w': World) {
    && w.now <= w'.now && w'.gens.Keys == w.gens.Keys && w'.managers.Keys == w.managers.Keys
    && |w.requests| <= |w'.requests|
    && (forall i :: 0 <= i < |w.requests| ==> w'.requests[i].process == w.requests[i].process)
    && (forall t :: t in w.gens && w'.gens[t].deadline != w.gens[t].deadline ==>
          w'.gens[t].deadline.None? && t in w'.lost + w'.retired)
    && (forall p :: p in w.managers && p in e.hosts ==>
          || (w'.managers[p].wait == w.managers[p].wait && w'.managers[p].session == w.managers[p].session)
          || !(w'.managers[p].wait.Renewing? || w'.managers[p].wait.Acquiring?)
          || w'.managers[p].wait.sendAt == Mono(e, w', p))
  }

  lemma CalmKeepsTimely(e: Env, w: World, w': World)
    requires Timely(e, w) && Calm(e, w, w')
    ensures Timely(e, w') && forall t :: t in w.gens ==> NoSooner(w, w', t)
  {
    forall t | t in w'.gens ensures TimelyAt(e, w', t) {
      assert TimelyAt(e, w, t);
    }
    forall p | p in w'.managers ensures WaitTimely(e, w', p) {
      assert WaitTimely(e, w, p);
    }
  }

  lemma ExecuteIsCalm(e: Env, w: World, i: nat, raced: bool)
    requires DoExecute(e, w, i, raced).Some?
    ensures Calm(e, w, DoExecute(e, w, i, raced).value)
  {
  }

  lemma CallIsCalm(e: Env, w: World, token: nat, wall: int)
    requires DoCall(e, w, token, wall).Some? && w.gens[token].Valid()
    ensures Calm(e, w, DoCall(e, w, token, wall).value)
  {
    NextIsSound(w.gens[token], [Reading(Mono(e, w, w.requests[token].process), wall)]);
  }

  lemma OthersAreCalm(e: Env, w: World, a: Action)
    requires Do(e, w, a).Some? && !a.Deliver? && !a.Execute? && !a.Call?
    ensures Calm(e, w, Do(e, w, a).value)
  {
    match a {
      case Tick(d) =>
      case Start(p) =>
      case Beat(p) =>
      case Teardown(p) =>
      case GiveUp(p) =>
    }
  }

  lemma StepKeepsTimely(e: Env, w: World, a: Action)
    requires Inv(e, w) && Timely(e, w) && Do(e, w, a).Some?
    ensures Timely(e, Do(e, w, a).value)
    ensures forall t :: t in w.gens ==> NoSooner(w, Do(e, w, a).value, t)
  {
    match a {
      case Deliver(p) => DeliverKeepsTimely(e, w, p);
      case Execute(i, raced) =>
        ExecuteIsCalm(e, w, i, raced);
        CalmKeepsTimely(e, w, Do(e, w, a).value);
      case Call(token, wall) =>
        assert GenOk(e, w, token);
        CallIsCalm(e, w, token, wall);
        CalmKeepsTimely(e, w, Do(e, w, a).value);
      case _ =>
        OthersAreCalm(e, w, a);
        CalmKeepsTimely(e, w, Do(e, w, a).value);
    }
  }

  /** Finished stays finished. */
  lemma FinishedStays(e: Env, w: World, a: Action)
    requires Do(e, w, a).Some?
    ensures w.lost + w.retired <= Do(e, w, a).value.lost + Do(e, w, a).value.retired
  {
    match a {
      case Execute(i, raced) =>
      case Deliver(p) =>
      case _ =>
    }
  }

  /** Along any run, a generator's deadline only moves on until the generator is finished. */
  lemma {:induction false} DeadlineHolds(e: Env, w: World, acts: seq<Action>, t: nat)
    requires Inv(e, w) && Timely(e, w) && Run(e, w, acts).Some? && t in w.gens && t !in w.lost + w.retired
    ensures NoSooner(w, Run(e, w, acts).value, t)
    decreases |acts|
  {
    if acts != [] {
      var w' := Do(e, w, acts[0]).value;
      StepKeepsTimely(e, w, acts[0]);
      StepKeepsInv(e, w, acts[0]);
      assert NoSooner(w, w', t);
      if t in w'.lost + w'.retired {
        FinishedForever(e, w', acts[1..], t);
      } else {
        DeadlineHolds(e, w', acts[1..], t);
      }
    }
  }

  lemma {:induction false} FinishedForever(e: Env, w: World, acts: seq<Action>, t: nat)
    requires Inv(e, w) && Run(e, w, acts).Some? && t in w.gens && t in w.lost + w.retired
    ensures t in Run(e, w, acts).value.lost + Run(e, w, acts).value.retired && t in Run(e, w, acts).value.gens
    decreases |acts|
  {
    if acts != [] {
      FinishedStays(e, w, acts[0]);
      StepKeepsInv(e, w, acts[0]);
      var w' := Do(e, w, acts[0]).value;
      assert t in w'.lost ==> LostOk(w', t);
      FinishedForever(e, w', acts[1..], t);
    }
  }

  lemma InitTimely(e: Env)
    requires ValidEnv(e)
    ensures Timely(e, Init(e)) && Inv(e, Init(e))
  {
  }

  lemma {:induction false} RunKeepsTimely(e: Env, w: World, acts: seq<Action>)
    requires Inv(e, w) && Timely(e, w) && Run(e, w, acts).Some?
    ensures Timely(e, Run(e, w, acts).value)
    decreases |acts|
  {
    if acts != [] {
      StepKeepsTimely(e, w, acts[0]);
      StepKeepsInv(e, w, acts[0]);
      RunKeepsTimely(e, Do(e, w, acts[0]).value, acts[1..]);
    }
  }

  /**
   * After a renewal sent at s and answered held, whatever follows, the generator may mint until
   * s + ttl - margin unless it was finished by a loss or by teardown before.
   */
  lemma RenewedUntilDeadline(e: Env, before: seq<Action>, p: nat, after: seq<Action>)
    requires ValidEnv(e) && Run(e, Init(e), before).Some? && Do(e, Run(e, Init(e), before).value, Deliver(p)).Some?
    requires var w := Run(e, Init(e), before).value;
             w.managers[p].wait.Renewing? && w.requests[w.managers[p].wait.req].status.Held?
    requires Run(e, Do(e, Run(e, Init(e), before).value, Deliver(p)).value, after).Some?
    ensures var w := Run(e, Init(e), before).value;
            var w' := Run(e, Do(e, w, Deliver(p)).value, after).value;
            var token := w.managers[p].session.value.token;
            && token in w'.gens && token < |w'.requests| && w'.requests[token].process == p
            && (token in w'.lost + w'.retired
                || (Mono(e, w', p) < w.managers[p].wait.sendAt + e.hosts[p].ttl - e.hosts[p].margin ==>
                      w'.gens[token].Allows(Reading(Mono(e, w', p), 0))))
  {
    var w := Run(e, Init(e), before).value;
    InitTimely(e);
    RunKeepsInv(e, Init(e), before);
    RunKeepsTimely(e, Init(e), before);
    HeldReplyExtends(e, w, p);
    StepKeepsInv(e, w, Deliver(p));
    StepKeepsTimely(e, w, Deliver(p));
    var w1 := Do(e, w, Deliver(p)).value;
    var token := w.managers[p].session.value.token;
    DeadlineHolds(e, w1, after, token);
    SameProcess(e, w1, after, token);
    assert ManagerOk(e, w, p);
  }

  lemma {:induction false} SameProcess(e: Env, w: World, acts: seq<Action>, i: nat)
    requires Run(e, w, acts).Some? && i < |w.requests|
    ensures i < |Run(e, w, acts).value.requests|
    ensures Run(e, w, acts).value.requests[i].process == w.requests[i].process
    decreases |acts|
  {
    if acts != [] {
      var w' := Do(e, w, acts[0]).value;
      RequestsStay(e, w, acts[0]);
      SameProcess(e, w', acts[1..], i);
    }
  }

  lemma RequestsStay(e: Env, w: World, a: Action)
    requires Do(e, w, a).Some?
    ensures var w' := Do(e, w, a).value;
            |w.requests| <= |w'.requests|
            && forall i :: 0 <= i < |w.requests| ==> w'.requests[i].process == w.requests[i].process
  {
    match a {
      case Execute(i, raced) =>
      case Deliver(p) =>
      case _ =>
    }
  }
}
