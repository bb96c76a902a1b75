/**
 * Room membership as the database holds it: the role policy of internal/domain/membership.go, the
 * statements of internal/persistence/membership_repo.go, and the transactions of
 * internal/grain/room/membership.go, message.go and internal/gateway/room_creation.go.
 *
 * One Store is one room: its membership rows and its journal. A transaction is atomic; any failure
 * of the database is the flag `fault`, and then nothing was committed.
 */
module Membership {
  import opened Options

  datatype Role = Owner | Admin | Member

  function ParseRole(raw: string): Option<Role> {
    if raw == "owner" then Some(Owner)
    else if raw == "admin" then Some(Admin)
    else if raw == "member" then Some(Member)
    else None
  }

  predicate CanSetRole(actor: Role, target: Role, role: Role) {
    target != Owner && role != Owner && (actor == Owner || actor == Admin)
  }

  predicate CanTransferOwnership(actor: Role) {
    actor == Owner
  }

  type Rows = map<nat, Role>

  datatype Event = Joined(user: nat) | Left(user: nat) | Posted(user: nat, text: string)

  datatype Store = Store(rows: Rows, journal: seq<Event>)

  // ---- Statements ----

  /** The guarded delete: an owner's row survives it. */
  function RemoveStatement(rows: Rows, user: nat): (r: (Rows, bool, bool)) {
    var existed := user in rows;
    var deleted := existed && rows[user] != Owner;
    (if deleted then rows - {user} else rows, existed, deleted)
  }

  /** The three CTEs of the transfer, each reading its predecessor: target, demoted, promoted. */
  datatype Transfer = Transfer(before: Rows, afterDemote: Rows, afterPromote: Rows, target: bool, promoted: bool)

  function TransferStatement(rows: Rows, from: nat, to: nat): Transfer {
    var target := to in rows;
    var demoted := from in rows && rows[from] == Owner && target;
    var afterDemote := if demoted then rows[from := Admin] else rows;
    var promoted := to in rows && demoted;
    var afterPromote := if promoted then afterDemote[to := Owner] else afterDemote;
    Transfer(rows, afterDemote, afterPromote, target, promoted)
  }

  // ---- Transactions ----

  datatype Error = OwnerCannotLeave | PermissionDenied | Failed

  datatype Outcome = Committed(store: Store) | RolledBack(error: Error)

  function RecordJoin(s: Store, user: nat, fault: bool): Outcome {
    if fault || user in s.rows then RolledBack(Failed)
    else Committed(Store(s.rows[user := Member], s.journal + [Joined(user)]))
  }

  function RecordLeave(s: Store, user: nat, fault: bool): Outcome {
    var (rows, existed, deleted) := RemoveStatement(s.rows, user);
    if fault || !existed then RolledBack(Failed)
    else if !deleted then RolledBack(OwnerCannotLeave)
    else Committed(Store(rows, s.journal + [Left(user)]))
  }

  function RecordMessage(s: Store, author: nat, text: string, fault: bool): Outcome {
    if fault then RolledBack(Failed) else Committed(s.(journal := s.journal + [Posted(author, text)]))
  }

  function RecordRoleChange(s: Store, actor: nat, target: nat, role: Role, fault: bool): Outcome {
    if fault || actor !in s.rows || target !in s.rows then RolledBack(Failed)
    else if !CanSetRole(s.rows[actor], s.rows[target], role) then RolledBack(PermissionDenied)
    else Committed(s.(rows := s.rows[target := role]))
  }

  function RecordOwnershipTransfer(s: Store, actor: nat, newOwner: nat, fault: bool): Outcome {
    if fault || actor !in s.rows then RolledBack(Failed)
    else if !CanTransferOwnership(s.rows[actor]) then RolledBack(PermissionDenied)
    else if actor == newOwner then Committed(s)
    else if newOwner !in s.rows then RolledBack(Failed)
    else
      var t := TransferStatement(s.rows, actor, newOwner);
      if !t.target || !t.promoted then RolledBack(Failed) else Committed(s.(rows := t.afterPromote))
  }

  /** What one run of the room-creation transaction commits. */
  function Founded(creator: nat): Store {
    Store(map[creator := Owner], [Joined(creator)])
  }

  // ---- The journal explains the rows ----

  function Applied(members: set<nat>, v: Event): set<nat> {
    match v
    case Joined(u) => members + {u}
    case Left(u) => members - {u}
    case Posted(_, _) => members
  }

  /** The members that the journal, read in append order, accounts for. */
  function Replay(journal: seq<Event>): set<nat> {
    if journal == [] then {} else Applied(Replay(journal[..|journal| - 1]), journal[|journal| - 1])
  }

  lemma ReplaySnoc(journal: seq<Event>, v: Event)
    ensures Replay(journal + [v]) == Applied(Replay(journal), v)
  {
    assert (journal + [v])[..|journal|] == journal;
  }

  predicate OwnedBy(rows: Rows, owner: nat) {
    owner in rows && rows[owner] == Owner && forall u :: u in rows && rows[u] == Owner ==> u == owner
  }

  /** What the partial unique index enforces. */
  predicate AtMostOneOwner(rows: Rows) {
    forall u, v :: u in rows && v in rows && rows[u] == Owner && rows[v] == Owner ==> u == v
  }

  ghost predicate StoreInv(s: Store) {
    && (exists o :: OwnedBy(s.rows, o))
    && Replay(s.journal) == s.rows.Keys
  }

  lemma FoundedInv(creator: nat)
    ensures StoreInv(Founded(creator)) && OwnedBy(Founded(creator).rows, creator)
    ensures Founded(creator).rows.Keys == {creator} && Founded(creator).journal == [Joined(creator)]
  {
    ReplaySnoc([], Joined(creator));
    assert [] + [Joined(creator)] == [Joined(creator)];
    assert OwnedBy(Founded(creator).rows, creator);
  }

  /**
   * The transfer statement applies both role writes or neither, and the demote comes first, so the
   * unique index holds before it, between the two writes and after.
   */
  lemma TransferIsAllOrNothing(rows: Rows, from: nat, to: nat)
    requires AtMostOneOwner(rows) && from != to
    ensures var t := TransferStatement(rows, from, to);
            && (t.promoted <==> from in rows && rows[from] == Owner && to in rows)
            && (t.promoted ==> OwnedBy(t.afterPromote, to) && t.afterPromote[from] == Admin)
            && (!t.promoted ==> t.afterPromote == rows)
            && t.afterPromote.Keys == rows.Keys
            && (forall u :: u in rows && u != from && u != to ==> t.afterPromote[u] == rows[u])
            && AtMostOneOwner(t.afterDemote) && AtMostOneOwner(t.afterPromote)
  {
  }

  lemma JoinKeepsInv(s: Store, user: nat, o: nat)
    requires StoreInv(s) && OwnedBy(s.rows, o) && RecordJoin(s, user, false).Committed?
    ensures var s' := RecordJoin(s, user, false).store; StoreInv(s') && OwnedBy(s'.rows, o)
  {
    ReplaySnoc(s.journal, Joined(user));
    assert OwnedBy(s.rows[user := Member], o);
  }

  lemma LeaveKeepsInv(s: Store, user: nat, o: nat)
    requires StoreInv(s) && OwnedBy(s.rows, o) && RecordLeave(s, user, false).Committed?
    ensures var s' := RecordLeave(s, user, false).store; StoreInv(s') && OwnedBy(s'.rows, o)
  {
    ReplaySnoc(s.journal, Left(user));
    assert OwnedBy(s.rows - {user}, o);
  }

  lemma RoleChangeKeepsInv(s: Store, actor: nat, target: nat, role: Role, o: nat)
    requires StoreInv(s) && OwnedBy(s.rows, o) && RecordRoleChange(s, actor, target, role, false).Committed?
    ensures var s' := RecordRoleChange(s, actor, target, role, false).store; StoreInv(s') && OwnedBy(s'.rows, o)
  {
    assert OwnedBy(s.rows[target := role], o);
  }

  lemma TransferKeepsInv(s: Store, actor: nat, newOwner: nat)
    requires StoreInv(s)
    ensures var r := RecordOwnershipTransfer(s, actor, newOwner, false);
            && (r.Committed? <==> OwnedBy(s.rows, actor) && newOwner in s.rows)
            && (r.Committed? ==> StoreInv(r.store) && OwnedBy(r.store.rows, newOwner))
  {
    if actor != newOwner {
      TransferIsAllOrNothing(s.rows, actor, newOwner);
    }
    var o :| OwnedBy(s.rows, o);
  }

  // ---- Creation ----

  /** What one run of the creation transaction meets: the id it mints, and what goes wrong, if anything. */
  datatype Attempt = Attempt(room: nat, codeTaken: bool, fault: bool)

  const COLLISION_RETRIES := 3

  /** The transaction failed for another reason than a taken code. */
  predicate Broke(rooms: map<nat, Store>, a: Attempt) {
    a.fault || a.room in rooms
  }

  predicate Collided(rooms: map<nat, Store>, a: Attempt) {
    a.codeTaken && !Broke(rooms, a)
  }

  class RoomTable {
    var rooms: map<nat, Store>

    /**
     * CreateRoom's bounded retry: at most four transactions, of which at most the last commits, and
     * what it commits is the founded room; a failure leaves no trace. A minted id that is taken is
     * refused by the primary key, and not retried.
     */
    method CreateRoom(creator: nat, tries: seq<Attempt>) returns (room: Option<nat>, used: nat)
      requires |tries| > COLLISION_RETRIES
      modifies this
      ensures 1 <= used <= 4
      ensures forall i :: 0 <= i < used - 1 ==> Collided(old(rooms), tries[i])
      ensures room.Some? <==> !Broke(old(rooms), tries[used - 1]) && !tries[used - 1].codeTaken
      ensures room.Some? ==> room.value == tries[used - 1].room && room.value !in old(rooms)
      ensures room.Some? ==> rooms == old(rooms)[room.value := Founded(creator)]
      ensures room.None? ==> rooms == old(rooms)
      ensures room.None? && Collided(old(rooms), tries[used - 1]) ==> used == 4
    {
      var attempt := 0;
      while true
        invariant 0 <= attempt <= COLLISION_RETRIES && rooms == old(rooms)
        invariant forall i :: 0 <= i < attempt ==> Collided(rooms, tries[i])
        decreases COLLISION_RETRIES - attempt
      {
        var a := tries[attempt];
        if !a.fault && a.room !in rooms && !a.codeTaken {
          rooms := rooms[a.room := Founded(creator)];
          return Some(a.room), attempt + 1;
        }
        if a.fault || a.room in rooms {
          return None, attempt + 1;
        }
        if attempt >= COLLISION_RETRIES {
          return None, attempt + 1;
        }
        attempt := attempt + 1;
      }
    }
  }
}
