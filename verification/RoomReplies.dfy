/**
 * What every command of the Room grain answers and does, stated on the membership rows: who may join,
 * leave, post, change whose role to what, and hand the room over - and, over every run, how a row
 * comes to hold its role.
 */
module RoomReplies {
  import opened Options
  import opened Membership
  import opened SortedLists
  import opened RoomGrain
  import opened RoomRuns

  /** A loaded room in the state every run keeps. */
  ghost predicate Ready(r: Room) {
    RoomInv(r) && r.grain.Some?
  }

  // ---- One command, with a working database ----

  lemma JoinExactly(r: Room, user: UserRef)
    requires Ready(r)
    ensures var (r', reply) := Handle(r, Join(Some(user)), false);
            && reply == (if user.id in r.store.rows then AlreadyMember else Ok)
            && (reply.Ok? ==>
                  && r'.store == Store(r.store.rows[user.id := Member], r.store.journal + [Joined(user.id)])
                  && r'.grain.value.members == r.grain.value.members[user.id := user.name]
                  && r'.grain.value.recent == r.grain.value.recent)
  {
  }

  lemma LeaveExactly(r: Room, user: nat)
    requires Ready(r)
    ensures var (r', reply) := Handle(r, Leave(Some(user)), false);
            && reply == (if user !in r.store.rows then NotMember
                         else if r.store.rows[user] == Owner then CannotLeave else Ok)
            && (reply.Ok? ==>
                  && r'.store == Store(r.store.rows - {user}, r.store.journal + [Left(user)])
                  && r'.grain.value.members == r.grain.value.members - {user}
                  && r'.grain.value.recent == r.grain.value.recent)
  {
  }

  lemma PostExactly(r: Room, sender: UserRef, text: Text)
    requires Ready(r)
    ensures var (r', reply) := Handle(r, Post(Some(sender), text), false);
            && reply == (if text.Empty? then MissingField else if text.Malformed? then InvalidRequest
                         else if sender.id !in r.store.rows then NotMember else Ok)
            && (reply.Ok? ==>
                  && r'.store == r.store.(journal := r.store.journal + [Posted(sender.id, text.text)])
                  && r'.grain.value.members == r.grain.value.members[sender.id := sender.name])
  {
  }

  /**
   * A role change: the request must name "admin" or "member", both parties must belong to the room,
   * the actor must be its owner or an admin, and the target must not be the owner.
   */
  lemma SetRoleExactly(r: Room, actor: UserRef, target: nat, role: string)
    requires Ready(r)
    ensures var (r', reply) := Handle(r, SetRole(Some(actor), Some(target), role), false);
            && reply == (if role != "admin" && role != "member" then InvalidRequest
                         else if actor.id !in r.store.rows || target !in r.store.rows then NotMember
                         else if r.store.rows[actor.id] == Member || r.store.rows[target] == Owner then NoPermission
                         else Ok)
            && (reply.Ok? ==>
                  var rows := r.store.rows[target := if role == "admin" then Admin else Member];
                  r' == r.(store := r.store.(rows := rows)))
  {
    assert "admin" != "owner" && "member" != "owner" && "member" != "admin";
  }

  /** A hand-over: the owner becomes an admin, the new owner the owner, and nobody else is touched. */
  lemma HandOverExactly(r: Room, actor: UserRef, to: nat)
    requires Ready(r)
    ensures var (r', reply) := Handle(r, HandOver(Some(actor), Some(to)), false);
            && reply == (if actor.id !in r.store.rows || to !in r.store.rows then NotMember
                         else if r.store.rows[actor.id] != Owner then NoPermission
                         else Ok)
            && (reply.Ok? ==>
                  r' == r.(store := r.store.(rows := r.store.rows[actor.id := Admin][to := Owner])))
  {
    if actor.id == to && to in r.store.rows {
      assert r.store.rows[to := Admin][to := Owner] == r.store.rows[to := Owner];
    }
  }

  // ---- What does not depend on the rows ----

  /** A command that parses. */
  predicate WellFormed(c: Command) {
    match c
    case Join(user) => user.Some?
    case Leave(user) => user.Some?
    case Post(sender, text) => sender.Some? && text.Valid?
    case SetRole(actor, target, role) => actor.Some? && target.Some? && (role == "admin" || role == "member")
    case HandOver(actor, newOwner) => actor.Some? && newOwner.Some?
  }

  /** A room that is not loaded answers nothing else; one that is never answers that. */
  lemma UnloadedExactly(r: Room, c: Command, fault: bool)
    ensures Handle(r, c, fault).1 == RoomNotFound <==> r.grain.None?
  {
  }

  /** A command that does not parse is told so, before any other check of a loaded room. */
  lemma MalformedExactly(r: Room, c: Command, fault: bool)
    requires r.grain.Some?
    ensures Handle(r, c, fault).1 in {InvalidRequest, MissingField} <==> !WellFormed(c)
    ensures Handle(r, c, fault).1 == MissingField <==> c.Post? && c.sender.Some? && c.text.Empty?
  {
    assert "admin" != "owner" && "member" != "owner";
  }

  /** A database failure is an internal error exactly where the cache lets the command through to it. */
  lemma FaultExactly(r: Room, c: Command)
    requires Ready(r) && WellFormed(c)
    ensures var rows := r.store.rows;
            Handle(r, c, true).1 == InternalError <==>
              match c
              case Join(user) => user.value.id !in rows
              case Leave(user) => user.value in rows
              case Post(sender, _) => sender.value.id in rows
              case SetRole(actor, target, _) => actor.value.id in rows && target.value in rows
              case HandOver(actor, newOwner) => actor.value.id in rows && newOwner.value in rows
  {
    assert "admin" != "owner" && "member" != "owner";
  }

  // ---- Every run ----

  /** How the row of u may change: appear, disappear, or hold another role. */
  ghost predicate RowMoves(r: Room, a: Action, u: nat) {
    var rows, rows' := r.store.rows, Step(r, a).store.rows;
    (u in rows) != (u in rows') || (u in rows && u in rows' && rows[u] != rows'[u])
  }

  /** a is a joining of u itself. */
  predicate Joins(a: Action, u: nat) {
    a.Do? && a.command.Join? && a.command.user.Some? && a.command.user.value.id == u
  }

  /** a is a change of u's role to `role`, by somebody who is not a plain member. */
  predicate Sets(rows: Rows, a: Action, u: nat, role: Role) {
    && a.Do? && a.command.SetRole? && a.command.target == Some(u) && a.command.actor.Some?
    && a.command.role == (if role == Admin then "admin" else "member") && role != Owner
    && a.command.actor.value.id in rows && rows[a.command.actor.value.id] != Member
  }

  /** a is a hand-over by the owner `from`, to `to`. */
  predicate Hands(rows: Rows, a: Action, from: nat, to: nat) {
    && a.Do? && a.command.HandOver? && a.command.actor.Some? && a.command.actor.value.id == from
    && a.command.newOwner == Some(to) && from in rows && rows[from] == Owner && to in rows
  }

  lemma FaultyDoMovesNothing(r: Room, c: Command)
    ensures Handle(r, c, true).0.store.rows == r.store.rows
  {
  }

  /**
   * A row appears as a plain member, by the user's own join; it disappears by the user's own leave, and
   * never the owner's; its role changes by a role change of the owner or an admin, never from or to
   * owner, or by one of the two writes of a hand-over. Nothing else moves a row.
   */
  lemma RowsMoveExactly(r: Room, a: Action, u: nat)
    requires RoomInv(r) && RowMoves(r, a, u)
    ensures var rows, rows' := r.store.rows, Step(r, a).store.rows;
            && a.Do? && !a.fault && r.grain.Some?
            && if u !in rows then Joins(a, u) && rows'[u] == Member
               else if u !in rows' then a.command == Leave(Some(u)) && rows[u] != Owner
               else if rows[u] == Owner then rows'[u] == Admin && exists to :: Hands(rows, a, u, to) && to != u
               else if rows'[u] == Owner then exists from :: Hands(rows, a, from, u) && from != u
               else Sets(rows, a, u, rows'[u])
  {
    assert a.Do? && r.grain.Some?;
    if a.fault {
      FaultyDoMovesNothing(r, a.command);
    }
    match a.command {
      case Join(user) => JoinExactly(r, user.value);
      case Leave(user) => LeaveExactly(r, user.value);
      case Post(sender, text) => PostExactly(r, sender.value, text);
      case SetRole(actor, target, role) => SetRoleExactly(r, actor.value, target.value, role);
      case HandOver(actor, to) =>
        HandOverExactly(r, actor.value, to.value);
        assert Hands(r.store.rows, a, actor.value.id, to.value);
    }
  }

  /** The same after any run of a created room. */
  lemma RowsMoveExactlyInRuns(creator: nat, acts: seq<Action>, a: Action, u: nat)
    requires RowMoves(Run(Created(creator), acts), a, u)
    ensures var r := Run(Created(creator), acts);
            var rows, rows' := r.store.rows, Step(r, a).store.rows;
            && (u !in rows ==> Joins(a, u) && rows'[u] == Member)
            && (u !in rows' ==> a == Do(Leave(Some(u)), false) && rows[u] != Owner)
            && (u in rows && u in rows' && rows[u] != Owner && rows'[u] != Owner ==> Sets(rows, a, u, rows'[u]))
  {
    FoundedInv(creator);
    RunKeepsRoom(Created(creator), acts);
    RowsMoveExactly(Run(Created(creator), acts), a, u);
  }

  // ---- Activation ----

  /** A loaded activation caches the name of every row it was given, an empty window, and no jobs. */
  lemma ActivationExactly(r: Room, names: map<nat, string>, load: Load)
    ensures var r' := Step(r, Activate(names, load));
            && r'.store == r.store && (r'.grain.Some? <==> load.Loaded?)
            && (load.Loaded? ==>
                  && r'.grain.value.members.Keys == r.store.rows.Keys
                  && r'.grain.value.recent == [] && r'.grain.value.jobs == []
                  && forall u :: u in r.store.rows && u in names ==> r'.grain.value.members[u] == names[u])
  {
  }
}
