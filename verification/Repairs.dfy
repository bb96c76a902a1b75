/**
 * What the exchanges of module Watch achieve: registration, repair after a death notice, retries,
 * death itself and eviction.
 */
module Repairs {
  import opened Options
  import opened Connection
  import opened Watch

  /** The activation that the next RegisterConnection reaches. */
  function Target(w: World): nat {
    if HasLive(w) then |w.acts| - 1 else |w.acts|
  }

  /** c is post-auth, calls nobody, and knows this PID. */
  predicate Settled(w: World, c: nat, pid: nat) {
    c in w.peers && w.peers[c].conn.phase.PostAuth? && w.peers[c].conn.pid == Some(pid) && w.peers[c].call.None?
  }

  /** RegisterConnection: the live activation, or a fresh one, has the connection, and keeps the others. */
  lemma RegistrationAdds(w: World, c: nat)
    requires Watch.Enabled(w, GrainHandles(c))
    ensures var w' := Watch.Next(w, GrainHandles(c));
            && Alive(w', Target(w)) && |w'.acts| == Target(w) + 1
            && w'.acts[Target(w)].conns == (if HasLive(w) then w.acts[Target(w)].conns else {}) + {c}
            && (forall a :: 0 <= a < Target(w) ==> w'.acts[a] == w.acts[a])
            && c in w'.peers && w'.peers[c].call == Some(w.peers[c].call.value.(handledBy := Some(Target(w))))
    ensures Watch.Next(w, GrainHandlesLate(c)) == w.(acts := Watch.Next(w, GrainHandles(c)).acts)
  {
  }

  /** A call that was handled and answered: the connection adopts and watches that activation, and its budget is new. */
  lemma AnswerIsAdopted(w: World, c: nat, a: nat)
    requires c in w.peers && w.peers[c].conn.phase.PostAuth? && Alive(w, a)
    requires w.peers[c].call.Some? && w.peers[c].call.value.handledBy == Some(a) && !w.peers[c].call.value.cut
    requires match w.peers[c].call.value.purpose
             case Authenticate => false
             case AfterDeath(who) => w.peers[c].conn.pid == Some(who) && !w.peers[c].conn.retryArmed
             case AfterTick => true
    ensures var w' := Watch.Next(w, Return(c, false, false));
            && Settled(w', c, a) && a in w'.peers[c].conn.watched && w'.acts == w.acts && w'.notices == w.notices
            && w'.peers[c].conn.attempts == 0 && !w'.peers[c].conn.retryArmed && w'.peers[c].cycle == 0
            && w'.peers[c].ticks == w.peers[c].ticks
  {
  }

  /** An answer that names no PID is a success all the same: the connection knows no activation until it reconnects. */
  lemma NamelessAnswer(w: World, c: nat, a: nat)
    requires c in w.peers && w.peers[c].conn.phase.PostAuth?
    requires w.peers[c].call == Some(Call(AfterTick, Some(a), false))
    ensures var w' := Watch.Next(w, Return(c, false, true));
            && w'.peers[c].conn.phase.PostAuth? && w'.peers[c].conn.pid == None && w'.peers[c].call == None
            && w'.peers[c].conn.attempts == 0 && !w'.peers[c].conn.retryArmed && w'.notices == w.notices
  {
  }

  /** A watch on an activation that has died since it answered is answered by its death notice. */
  lemma DeadAnswerIsTold(w: World, c: nat, a: nat)
    requires c in w.peers && w.peers[c].conn.phase.PostAuth? && a < |w.acts| && !Alive(w, a)
    requires w.peers[c].call == Some(Call(AfterTick, Some(a), false))
    ensures var w' := Watch.Next(w, Return(c, false, false));
            Settled(w', c, a) && w'.notices == w.notices + multiset{(c, a)}
  {
  }

  /**
   * A death notice, with a grain that answers: three steps later the connection is in the map of the
   * live activation, knows it and watches it.
   */
  lemma DeathIsRepaired(w: World, c: nat, dead: nat)
    requires Settled(w, c, dead) && !w.peers[c].conn.retryArmed && w.notices[(c, dead)] > 0
    ensures Watch.Enabled(w, Begin(c, AfterDeath(dead)))
    ensures var w1 := Watch.Next(w, Begin(c, AfterDeath(dead)));
            && w1.acts == w.acts && w1.notices == w.notices - multiset{(c, dead)} && Watch.Enabled(w1, GrainHandles(c))
            && var w2 := Watch.Next(w1, GrainHandles(c));
            && Watch.Enabled(w2, Return(c, false, false))
            && var w3 := Watch.Next(w2, Return(c, false, false));
            && Settled(w3, c, Target(w)) && Alive(w3, Target(w)) && IsRegistered(w3, c, Target(w))
            && Target(w) in w3.peers[c].conn.watched
  {
    var w1 := Watch.Next(w, Begin(c, AfterDeath(dead)));
    RegistrationAdds(w1, c);
    AnswerIsAdopted(Watch.Next(w1, GrainHandles(c)), c, Target(w));
  }

  /** A repair call that fails, short of the third: the PID stays, one retry is armed, and its tick calls again. */
  lemma FailureRetries(w: World, c: nat, dead: nat)
    requires c in w.peers && w.peers[c].conn.phase.PostAuth? && w.peers[c].conn.pid == Some(dead)
    requires w.peers[c].call == Some(Call(AfterDeath(dead), None, false)) && !w.peers[c].conn.retryArmed
    requires w.peers[c].conn.attempts + 1 < 3
    ensures var w' := Watch.Next(w, Return(c, true, false));
            && Settled(w', c, dead) && w'.peers[c].conn.retryArmed && w'.peers[c].ticks == w.peers[c].ticks + 1
            && w'.peers[c].conn.attempts == w.peers[c].conn.attempts + 1 && w'.notices == w.notices
            && Watch.Enabled(w', Begin(c, AfterTick))
  {
  }

  /** Every connection that watches an activation is told of its death, once. */
  lemma DeathIsTold(w: World, c: nat)
    requires HasLive(w) && c in w.peers
    ensures var w', a := Watch.Next(w, Die), |w.acts| - 1;
            && !Alive(w', a) && w'.peers == w.peers && w'.acts[a].conns == w.acts[a].conns
            && w'.notices[(c, a)] == w.notices[(c, a)] + if a in w.peers[c].conn.watched then 1 else 0
  {
    var a := |w.acts| - 1;
    var told := set d | d in w.peers && a in w.peers[d].conn.watched :: (d, a);
    assert a in w.peers[c].conn.watched ==> (c, a) in told;
    assert multiset(told)[(c, a)] == if (c, a) in told then 1 else 0;
  }

  /** A message is delivered once: what it does is what the actor does with it, and it is gone. */
  lemma MessagesAreConsumed(w: World, c: nat, who: nat, m: Message)
    requires c in w.peers
    ensures Watch.Enabled(w, DropNotice(c, who)) ==>
              Watch.Next(w, DropNotice(c, who)) == w.(notices := w.notices - multiset{(c, who)})
    ensures Watch.Enabled(w, DropTick(c)) && !w.peers[c].conn.phase.PreAuth? ==>
              Watch.Next(w, DropTick(c)) == w.(peers := w.peers[c := w.peers[c].(ticks := w.peers[c].ticks - 1)])
    ensures var p, v := w.peers[c], Watch.Action.Deliver(c, m);
            Watch.Enabled(w, v) ==> Watch.Next(w, v) == w.(peers := w.peers[c := p.(conn := Receive(p.conn, m))])
  {
    assert w.peers[c := w.peers[c]] == w.peers;
  }

  /** A broken link tells both ends, takes a reply under way with it, and leaves the activation and its map alone. */
  lemma BrokenLinkTellsBoth(w: World, c: nat)
    requires Watch.Enabled(w, LinkDown(c))
    ensures var w', a := Watch.Next(w, LinkDown(c)), |w.acts| - 1;
            && w'.acts == w.acts && w'.peers.Keys == w.peers.Keys && w'.peers[c].conn == w.peers[c].conn
            && w'.notices[(c, a)] == w.notices[(c, a)] + (if a in w.peers[c].conn.watched then 1 else 0)
            && w'.evictions[(c, a)] == w.evictions[(c, a)] + (if c in w.acts[a].conns then 1 else 0)
            && (w.peers[c].call.Some? && w.peers[c].call.value.handledBy.Some? ==>
                  w'.peers[c].call == Some(w.peers[c].call.value.(cut := true)))
  {
    assert w.peers[c := w.peers[c]] == w.peers;
  }

  /** An eviction takes this connection, and no other, out of this activation's map, and no other's. */
  lemma EvictionRemoves(w: World, v: Watch.Action, c: nat, who: nat)
    requires (v == Evict(c, who) || v == EvictLive(c, who)) && Watch.Enabled(w, v)
    ensures var w' := Watch.Next(w, v);
            && w'.peers == w.peers && |w'.acts| == |w.acts|
            && !IsRegistered(w', c, who)
            && (forall d, a :: (d != c || a != who) ==> (IsRegistered(w', d, a) <==> IsRegistered(w, d, a)))
            && (forall a :: 0 <= a < |w.acts| ==> w'.acts[a].alive == w.acts[a].alive)
  {
  }
}
