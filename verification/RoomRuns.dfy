/**
 * What holds of a room over every run: commands in any order with any database failures, and
 * activations that come and go at any point.
 */
module RoomRuns {
  import opened Options
  import opened Membership
  import opened SortedLists
  import opened RoomGrain

  datatype Action =
    | Activate(names: map<nat, string>, load: Load)
    | Deactivate
    | Do(command: Command, fault: bool)

  ghost function Step(r: Room, a: Action): Room {
    match a
    case Activate(names, load) => Activated(r, names, load)
    case Deactivate => r.(grain := None)
    case Do(c, fault) => Handle(r, c, fault).0
  }

  ghost function Run(r: Room, acts: seq<Action>): Room
    decreases |acts|
  {
    if acts == [] then r else Run(Step(r, acts[0]), acts[1..])
  }

  /** A room fresh from CreateRoom, not yet activated. */
  function Created(creator: nat): Room {
    Room(Founded(creator), None)
  }

  // ---- Reference definitions, in terms of the journal alone ----

  /** Who should hear of event i: the members after a join, before a leave, current for a message. */
  function Audience(journal: seq<Event>, i: nat): set<nat>
    requires i < |journal|
  {
    if journal[i].Joined? then Replay(journal[..i + 1]) else Replay(journal[..i])
  }

  function Messages(journal: seq<Event>): seq<Event> {
    if journal == [] then []
    else
      var v := journal[|journal| - 1];
      Messages(journal[..|journal| - 1]) + if v.Posted? then [v] else []
  }

  function Latest(xs: seq<Event>, n: nat): seq<Event> {
    if |xs| <= n then xs else xs[|xs| - n..]
  }

  // ---- The invariant ----

  ghost predicate JobOk(journal: seq<Event>, i: nat, j: Job)
    requires i < |journal|
  {
    j.event == journal[i] && j.recipients == Sorted(Audience(journal, i))
  }

  /** One job for each event from `since` on, in order. */
  ghost predicate JobsOk(journal: seq<Event>, since: nat, jobs: seq<Job>) {
    && since + |jobs| == |journal|
    && forall k :: 0 <= k < |jobs| ==> JobOk(journal, since + k, jobs[k])
  }

  ghost predicate GrainInv(s: Store, g: Activation) {
    && g.members.Keys == s.rows.Keys
    && g.since <= |s.journal| && JobsOk(s.journal, g.since, g.jobs)
    && g.recent == Latest(Messages(s.journal[g.since..]), MAX_RECENT_MESSAGES)
  }

  ghost predicate RoomInv(r: Room) {
    StoreInv(r.store) && (r.grain.Some? ==> GrainInv(r.store, r.grain.value))
  }

  lemma AppendKeepsJobs(journal: seq<Event>, since: nat, jobs: seq<Job>, v: Event)
    requires JobsOk(journal, since, jobs)
    ensures JobsOk(journal + [v], since, jobs + [Job(v, Sorted(Audience(journal + [v], |journal|)))])
  {
    var journal', jobs' := journal + [v], jobs + [Job(v, Sorted(Audience(journal + [v], |journal|)))];
    forall k | 0 <= k < |jobs'| ensures JobOk(journal', since + k, jobs'[k]) {
      if k < |jobs| {
        var i := since + k;
        assert JobOk(journal, i, jobs[k]);
        assert journal'[..i] == journal[..i] && journal'[..i + 1] == journal[..i + 1];
      }
    }
  }

  lemma AppendKeepsWindow(journal: seq<Event>, since: nat, v: Event)
    requires since <= |journal|
    ensures var old_, new_ := Messages(journal[since..]), Messages((journal + [v])[since..]);
            && new_ == (if v.Posted? then old_ + [v] else old_)
            && Latest(old_ + [v], MAX_RECENT_MESSAGES) == Remember(Latest(old_, MAX_RECENT_MESSAGES), v)
  {
    assert (journal + [v])[since..] == journal[since..] + [v];
    assert (journal[since..] + [v])[..|journal| - since] == journal[since..];
  }

  /** One more event: the cache follows the rows, one job follows the event, a message enters the window. */
  lemma AppendKeepsGrain(s: Store, g: Activation, v: Event, s': Store, g': Activation)
    requires GrainInv(s, g) && s'.journal == s.journal + [v] && g'.members.Keys == s'.rows.Keys && g'.since == g.since
    requires g'.recent == if v.Posted? then Remember(g.recent, v) else g.recent
    requires g'.jobs == g.jobs + [Job(v, Sorted(Audience(s.journal + [v], |s.journal|)))]
    ensures GrainInv(s', g')
  {
    AppendKeepsWindow(s.journal, g.since, v);
    AppendKeepsJobs(s.journal, g.since, g.jobs, v);
  }

  lemma AudienceOfLast(journal: seq<Event>, v: Event)
    ensures Audience(journal + [v], |journal|) == if v.Joined? then Replay(journal) + {v.user} else Replay(journal)
  {
    ReplaySnoc(journal, v);
    assert (journal + [v])[..|journal|] == journal && (journal + [v])[..|journal| + 1] == journal + [v];
  }

  lemma JoinKeepsRoom(r: Room, user: UserRef, fault: bool)
    requires RoomInv(r) && r.grain.Some?
    ensures RoomInv(HandleJoin(r, user, fault).0)
  {
    var r' := HandleJoin(r, user, fault).0;
    if r' != r {
      var o :| OwnedBy(r.store.rows, o);
      JoinKeepsInv(r.store, user.id, o);
      AudienceOfLast(r.store.journal, Joined(user.id));
      assert r'.grain.value.members.Keys == r.grain.value.members.Keys + {user.id};
      AppendKeepsGrain(r.store, r.grain.value, Joined(user.id), r'.store, r'.grain.value);
    }
  }

  lemma LeaveKeepsRoom(r: Room, user: nat, fault: bool)
    requires RoomInv(r) && r.grain.Some?
    ensures RoomInv(HandleLeave(r, user, fault).0)
  {
    var r' := HandleLeave(r, user, fault).0;
    if r' != r {
      var o :| OwnedBy(r.store.rows, o);
      LeaveKeepsInv(r.store, user, o);
      AudienceOfLast(r.store.journal, Left(user));
      assert r'.grain.value.members.Keys == r.grain.value.members.Keys - {user};
      AppendKeepsGrain(r.store, r.grain.value, Left(user), r'.store, r'.grain.value);
    }
  }

  lemma PostKeepsRoom(r: Room, sender: UserRef, text: string, fault: bool)
    requires RoomInv(r) && r.grain.Some?
    ensures RoomInv(HandlePost(r, sender, text, fault).0)
  {
    var r' := HandlePost(r, sender, text, fault).0;
    if r' != r {
      var v := Posted(sender.id, text);
      ReplaySnoc(r.store.journal, v);
      AudienceOfLast(r.store.journal, v);
      assert r'.grain.value.members.Keys == r.grain.value.members.Keys;
      AppendKeepsGrain(r.store, r.grain.value, v, r'.store, r'.grain.value);
    }
  }

  lemma RolesKeepRoom(r: Room, c: Command, fault: bool)
    requires RoomInv(r) && (c.SetRole? || c.HandOver?)
    ensures RoomInv(Handle(r, c, fault).0)
  {
    var (r', reply) := Handle(r, c, fault);
    if reply.Ok? {
      if c.SetRole? {
        var o :| OwnedBy(r.store.rows, o);
        RoleChangeKeepsInv(r.store, c.actor.value.id, c.target.value, ParseRole(c.role).value, o);
      } else {
        TransferKeepsInv(r.store, c.actor.value.id, c.newOwner.value);
      }
    }
  }

  /** The event a command journals, if it succeeds. */
  function EventOf(c: Command): seq<Event> {
    match c
    case Join(user) => if user.Some? then [Joined(user.value.id)] else []
    case Leave(user) => if user.Some? then [Left(user.value)] else []
    case Post(sender, text) => if sender.Some? && text.Valid? then [Posted(sender.value.id, text.text)] else []
    case _ => []
  }

  lemma CommandIsAllOrNothing(r: Room, c: Command, fault: bool)
    ensures var (r', reply) := Handle(r, c, fault);
            if reply.Ok? then r'.store.journal == r.store.journal + EventOf(c) else r' == r
  {
    if r.grain.Some? && c.HandOver? && c.actor.Some? && c.newOwner.Some? {
      assert r.store.journal + [] == r.store.journal;
    }
  }

  /**
   * Every command keeps the room consistent, and is all or nothing: answered Ok it has journaled its
   * one event, otherwise rows, journal, cache, window and jobs are as they were.
   */
  lemma CommandKeepsRoom(r: Room, c: Command, fault: bool)
    requires RoomInv(r)
    ensures RoomInv(Handle(r, c, fault).0)
    ensures var (r', reply) := Handle(r, c, fault);
            if reply.Ok? then r'.store.journal == r.store.journal + EventOf(c) else r' == r
  {
    CommandIsAllOrNothing(r, c, fault);
    if r.grain.Some? {
      match c {
        case Join(user) => if user.Some? { JoinKeepsRoom(r, user.value, fault); }
        case Leave(user) => if user.Some? { LeaveKeepsRoom(r, user.value, fault); }
        case Post(sender, text) =>
          if sender.Some? && text.Valid? { PostKeepsRoom(r, sender.value, text.text, fault); }
        case _ => RolesKeepRoom(r, c, fault);
      }
    }
  }

  lemma StepKeepsRoom(r: Room, a: Action)
    requires RoomInv(r)
    ensures RoomInv(Step(r, a))
  {
    match a {
      case Activate(names, load) =>
        assert r.store.journal[|r.store.journal|..] == [];
      case Deactivate =>
      case Do(c, fault) => CommandKeepsRoom(r, c, fault);
    }
  }

  lemma {:induction false} RunKeepsRoom(r: Room, acts: seq<Action>)
    requires RoomInv(r)
    ensures RoomInv(Run(r, acts))
    decreases |acts|
  {
    if acts != [] {
      StepKeepsRoom(r, acts[0]);
      RunKeepsRoom(Step(r, acts[0]), acts[1..]);
    }
  }

  // ---- The theorems ----

  /**
   * For every created room, whichever store calls fail and however often it is activated: replaying
   * the journal gives exactly the membership rows, and a loaded activation caches exactly those keys.
   */
  lemma JournalExplainsMembership(creator: nat, acts: seq<Action>)
    ensures var r := Run(Created(creator), acts);
            && Replay(r.store.journal) == r.store.rows.Keys
            && (r.grain.Some? ==> r.grain.value.members.Keys == r.store.rows.Keys)
  {
    FoundedInv(creator);
    RunKeepsRoom(Created(creator), acts);
  }

  /** For every created room, at every moment: exactly one owner. */
  lemma ExactlyOneOwner(creator: nat, acts: seq<Action>) returns (owner: nat)
    ensures OwnedBy(Run(Created(creator), acts).store.rows, owner)
  {
    FoundedInv(creator);
    RunKeepsRoom(Created(creator), acts);
    owner :| OwnedBy(Run(Created(creator), acts).store.rows, owner);
  }

  /** Ownership moves only by a successful hand-over that the owner of the moment asked for. */
  lemma OwnerMovesByHandOver(r: Room, a: Action, before: nat, after: nat)
    requires RoomInv(r) && OwnedBy(r.store.rows, before) && OwnedBy(Step(r, a).store.rows, after) && before != after
    ensures && a.Do? && a.command.HandOver? && !a.fault
            && a.command.actor.Some? && a.command.actor.value.id == before && a.command.newOwner == Some(after)
  {
    assert a.Do? && r.grain.Some?;
    match a.command {
      case Join(user) =>
        JoinKeepsInv(r.store, user.value.id, before);
      case Leave(user) =>
        LeaveKeepsInv(r.store, user.value, before);
      case Post(_, _) =>
      case SetRole(actor, target, role) =>
        RoleChangeKeepsInv(r.store, actor.value.id, target.value, ParseRole(role).value, before);
      case HandOver(actor, newOwner) =>
        TransferKeepsInv(r.store, actor.value.id, newOwner.value);
    }
  }

  /** A well-formed hand-over in a loaded room succeeds exactly when the actor owns it and the target belongs to it. */
  lemma HandOverSucceedsIff(r: Room, actor: UserRef, to: nat)
    requires RoomInv(r) && r.grain.Some?
    ensures var (r', reply) := Handle(r, HandOver(Some(actor), Some(to)), false);
            && (reply.Ok? <==> OwnedBy(r.store.rows, actor.id) && to in r.store.rows)
            && (reply.Ok? ==> OwnedBy(r'.store.rows, to))
            && (!reply.Ok? ==> r' == r)
  {
    TransferKeepsInv(r.store, actor.id, to);
  }

  /**
   * The jobs of the running activation are, one to one and in order, the events journaled since it
   * began, each addressed to the sorted audience that the journal itself determines.
   */
  lemma JobsMirrorJournal(creator: nat, acts: seq<Action>)
    requires Run(Created(creator), acts).grain.Some?
    ensures var r := Run(Created(creator), acts);
            var g := r.grain.value;
            && JobsOk(r.store.journal, g.since, g.jobs)
            && g.recent == Latest(Messages(r.store.journal[g.since..]), 100)
  {
    FoundedInv(creator);
    RunKeepsRoom(Created(creator), acts);
  }

  // ---- The fan-out child ----

  /** Those of the recipients whose User grain call did not fail. */
  function Reached(recipients: seq<nat>, failing: set<nat>): seq<nat> {
    if recipients == [] then []
    else
      var before := Reached(recipients[..|recipients| - 1], failing);
      var last := recipients[|recipients| - 1];
      if last in failing then before else before + [last]
  }

  /** runNotify and runForward: one call per recipient, in order; a failed one is skipped, never fatal. */
  method RunJob(job: Job, failing: set<nat>) returns (attempted: seq<nat>, delivered: seq<nat>)
    ensures attempted == job.recipients
    ensures delivered == Reached(job.recipients, failing)
  {
    attempted, delivered := [], [];
    for i := 0 to |job.recipients|
      invariant attempted == job.recipients[..i]
      invariant delivered == Reached(job.recipients[..i], failing)
    {
      var u := job.recipients[i];
      assert job.recipients[..i + 1][..i] == job.recipients[..i];
      attempted := attempted + [u];
      if u !in failing {
        delivered := delivered + [u];
      }
    }
    assert job.recipients[..|job.recipients|] == job.recipients;
  }

  /** Every member of the audience is attempted exactly once, and nobody else. */
  lemma EachRecipientOnce(journal: seq<Event>, i: nat, j: Job, u: nat)
    requires i < |journal| && JobOk(journal, i, j)
    ensures multiset(j.recipients)[u] == if u in Audience(journal, i) then 1 else 0
  {
    OnceInSorted(j.recipients, Audience(journal, i), u);
  }

  /** Delivery reaches exactly the attempted recipients that did not fail, whoever else fails. */
  lemma {:induction false} FailuresDoNotSpread(recipients: seq<nat>, failing: set<nat>, u: nat)
    ensures multiset(Reached(recipients, failing))[u] == if u in failing then 0 else multiset(recipients)[u]
  {
    if recipients != [] {
      var n := |recipients| - 1;
      assert recipients == recipients[..n] + [recipients[n]];
      FailuresDoNotSpread(recipients[..n], failing, u);
    }
  }
}
