/**
 * The Room grain (internal/grain/room/room.go, state.go, roles.go, fanout.go) over the store of
 * module Membership: a cache of the members, a window of recent messages, and the jobs it hands to
 * its fan-out child. A room is one Store and at most one activation.
 */
module RoomGrain {
  import opened Options
  import opened Membership
  import opened SortedLists

  const MAX_RECENT_MESSAGES := 100

  datatype UserRef = UserRef(id: nat, name: string)

  /** Message text after parsing at the grain boundary. */
  datatype Text = Valid(text: string) | Empty | Malformed

  /** A None argument is one that did not parse. */
  datatype Command =
    | Join(user: Option<UserRef>)
    | Leave(leaver: Option<nat>)
    | Post(sender: Option<UserRef>, text: Text)
    | SetRole(actor: Option<UserRef>, target: Option<nat>, role: string)
    | HandOver(actor: Option<UserRef>, newOwner: Option<nat>)

  datatype Reply =
    | Ok
    | RoomNotFound
    | InvalidRequest
    | MissingField
    | AlreadyMember
    | NotMember
    | CannotLeave
    | NoPermission
    | InternalError

  /** One fan-out job: the journaled event it carries and the recipient snapshot. */
  datatype Job = Job(event: Event, recipients: seq<nat>)

  /** `since` is the length the journal had when the activation began. */
  datatype Activation = Activation(members: map<nat, string>, recent: seq<Event>, jobs: seq<Job>, since: nat)

  datatype Room = Room(store: Store, grain: Option<Activation>)

  // ---- What a command does ----

  /** recordMessage: append, dropping the oldest once the window is full. */
  function Remember(recent: seq<Event>, v: Event): seq<Event> {
    (if |recent| >= MAX_RECENT_MESSAGES then recent[1..] else recent) + [v]
  }

  ghost function HandleJoin(r: Room, user: UserRef, fault: bool): (Room, Reply)
    requires r.grain.Some?
  {
    var g := r.grain.value;
    if user.id in g.members then (r, AlreadyMember)
    else match RecordJoin(r.store, user.id, fault)
      case RolledBack(_) => (r, InternalError)
      case Committed(s) =>
        var members := g.members[user.id := user.name];
        var job := Job(Joined(user.id), Sorted(members.Keys));
        (Room(s, Some(g.(members := members, jobs := g.jobs + [job]))), Ok)
  }

  ghost function HandleLeave(r: Room, user: nat, fault: bool): (Room, Reply)
    requires r.grain.Some?
  {
    var g := r.grain.value;
    if user !in g.members then (r, NotMember)
    else match RecordLeave(r.store, user, fault)
      case RolledBack(e) => (r, if e.OwnerCannotLeave? then CannotLeave else InternalError)
      case Committed(s) =>
        var job := Job(Left(user), Sorted(g.members.Keys));
        (Room(s, Some(g.(members := g.members - {user}, jobs := g.jobs + [job]))), Ok)
  }

  ghost function HandlePost(r: Room, sender: UserRef, text: string, fault: bool): (Room, Reply)
    requires r.grain.Some?
  {
    var g := r.grain.value;
    if sender.id !in g.members then (r, NotMember)
    else match RecordMessage(r.store, sender.id, text, fault)
      case RolledBack(_) => (r, InternalError)
      case Committed(s) =>
        var v := Posted(sender.id, text);
        (Room(s, Some(g.(members := g.members[sender.id := sender.name], recent := Remember(g.recent, v),
                         jobs := g.jobs + [Job(v, Sorted(g.members.Keys))]))), Ok)
  }

  function AfterRoles(r: Room, o: Outcome): (Room, Reply) {
    match o
    case Committed(s) => (r.(store := s), Ok)
    case RolledBack(e) => (r, if e.PermissionDenied? then NoPermission else InternalError)
  }

  ghost function Handle(r: Room, c: Command, fault: bool): (Room, Reply) {
    if r.grain.None? then (r, RoomNotFound)
    else
      var members := r.grain.value.members;
      match c
      case Join(user) =>
        if user.None? then (r, InvalidRequest) else HandleJoin(r, user.value, fault)
      case Leave(user) =>
        if user.None? then (r, InvalidRequest) else HandleLeave(r, user.value, fault)
      case Post(sender, text) =>
        if sender.None? then (r, InvalidRequest)
        else if text.Empty? then (r, MissingField)
        else if text.Malformed? then (r, InvalidRequest)
        else HandlePost(r, sender.value, text.text, fault)
      case SetRole(actor, target, role) =>
        if actor.None? || target.None? || ParseRole(role).None? || ParseRole(role).value.Owner? then (r, InvalidRequest)
        else if actor.value.id !in members || target.value !in members then (r, NotMember)
        else AfterRoles(r, RecordRoleChange(r.store, actor.value.id, target.value, ParseRole(role).value, fault))
      case HandOver(actor, newOwner) =>
        if actor.None? || newOwner.None? then (r, InvalidRequest)
        else if actor.value.id !in members || newOwner.value !in members then (r, NotMember)
        else AfterRoles(r, RecordOwnershipTransfer(r.store, actor.value.id, newOwner.value, fault))
  }

  /**
   * What the room lookup and the member load of an activation meet: an active room and its members;
   * no such room, one that is not active, or a malformed identity; or a database that fails.
   */
  datatype Load = Loaded | Absent | LoadFails

  /**
   * Init: hydrate the cache from the rows of an active room. Otherwise the grain stays unloaded, or
   * the activation crashes; either way no room is served.
   */
  function Activated(r: Room, names: map<nat, string>, load: Load): Room {
    if !load.Loaded? then r.(grain := None)
    else
      var members := map u | u in r.store.rows :: if u in names then names[u] else "";
      r.(grain := Some(Activation(members, [], [], |r.store.journal|)))
  }

  // ---- The grain itself ----

  class Grain {
    var db: Store
    var loaded: bool
    var members: map<nat, string>
    var recent: seq<Event>
    var jobs: seq<Job>
    ghost var since: nat

    ghost function View(): Room
      reads this
    {
      Room(db, if loaded then Some(Activation(members, recent, jobs, since)) else None)
    }

    constructor (store: Store)
      ensures View() == Room(store, None)
    {
      db, loaded, members, recent, jobs, since := store, false, map[], [], [], 0;
    }

    method Init(names: map<nat, string>, load: Load) returns (crashed: bool)
      modifies this
      ensures View() == Activated(old(View()), names, load) && crashed == load.LoadFails?
    {
      loaded, members, recent, jobs, since := false, map[], [], [], |db.journal|;
      crashed := load.LoadFails?;
      if !load.Loaded? {
        return;
      }
      loaded := true;
      var rows := db.rows.Keys;
      while rows != {}
        invariant rows <= db.rows.Keys && members.Keys == db.rows.Keys - rows
        invariant forall u :: u in members ==> members[u] == if u in names then names[u] else ""
        invariant loaded && db == old(db) && recent == [] && jobs == [] && since == |db.journal|
        decreases rows
      {
        var u :| u in rows;
        members := members[u := if u in names then names[u] else ""];
        rows := rows - {u};
      }
      assert members == Activated(old(View()), names, load).grain.value.members;
    }

    /** memberIDs: a sorted snapshot of the member set. */
    method MemberIDs() returns (ids: seq<nat>)
      ensures ids == Sorted(members.Keys)
    {
      ids := [];
      var rest := members.Keys;
      while rest != {}
        invariant rest <= members.Keys && IsSortedListOf(ids, members.Keys - rest)
        decreases rest
      {
        var u :| u in rest;
        InsertSorts(ids, members.Keys - rest, u);
        assert members.Keys - rest + {u} == members.Keys - (rest - {u});
        ids := Insert(ids, u);
        rest := rest - {u};
      }
      assert members.Keys - rest == members.Keys;
      SortedListIsUnique(ids, Sorted(members.Keys), members.Keys);
    }

    method Join(user: Option<UserRef>, fault: bool) returns (reply: Reply)
      modifies this
      ensures (View(), reply) == Handle(old(View()), Command.Join(user), fault)
    {
      if !loaded {
        return RoomNotFound;
      }
      if user.None? {
        return InvalidRequest;
      }
      if user.value.id in members {
        return AlreadyMember;
      }
      var tx := RecordJoin(db, user.value.id, fault);
      if tx.RolledBack? {
        return InternalError;
      }
      db := tx.store;
      members := members[user.value.id := user.value.name];
      var recipients := MemberIDs();
      jobs := jobs + [Job(Joined(user.value.id), recipients)];
      reply := Ok;
    }

    method Leave(user: Option<nat>, fault: bool) returns (reply: Reply)
      modifies this
      ensures (View(), reply) == Handle(old(View()), Command.Leave(user), fault)
    {
      if !loaded {
        return RoomNotFound;
      }
      if user.None? {
        return InvalidRequest;
      }
      if user.value !in members {
        return NotMember;
      }
      var tx := RecordLeave(db, user.value, fault);
      if tx.RolledBack? {
        return if tx.error.OwnerCannotLeave? then CannotLeave else InternalError;
      }
      db := tx.store;
      var recipients := MemberIDs(); // before the removal: the leaver is told too
      members := members - {user.value};
      jobs := jobs + [Job(Left(user.value), recipients)];
      reply := Ok;
    }

    method PostMessage(sender: Option<UserRef>, text: Text, fault: bool) returns (reply: Reply)
      modifies this
      ensures (View(), reply) == Handle(old(View()), Post(sender, text), fault)
    {
      if !loaded {
        return RoomNotFound;
      }
      if sender.None? {
        return InvalidRequest;
      }
      if text.Empty? {
        return MissingField;
      }
      if text.Malformed? {
        return InvalidRequest;
      }
      if sender.value.id !in members {
        return NotMember;
      }
      var tx := RecordMessage(db, sender.value.id, text.text, fault);
      if tx.RolledBack? {
        return InternalError;
      }
      db := tx.store;
      ghost var before := members.Keys;
      members := members[sender.value.id := sender.value.name];
      recent := Remember(recent, Posted(sender.value.id, text.text));
      var recipients := MemberIDs();
      assert members.Keys == before;
      jobs := jobs + [Job(Posted(sender.value.id, text.text), recipients)];
      reply := Ok;
    }

    method SetMemberRole(actor: Option<UserRef>, target: Option<nat>, role: string, fault: bool) returns (reply: Reply)
      modifies this
      ensures (View(), reply) == Handle(old(View()), SetRole(actor, target, role), fault)
    {
      if !loaded {
        return RoomNotFound;
      }
      if actor.None? || target.None? || ParseRole(role).None? || ParseRole(role).value.Owner? {
        return InvalidRequest;
      }
      if actor.value.id !in members || target.value !in members {
        return NotMember;
      }
      var tx := RecordRoleChange(db, actor.value.id, target.value, ParseRole(role).value, fault);
      if tx.RolledBack? {
        return if tx.error.PermissionDenied? then NoPermission else InternalError;
      }
      db := tx.store;
      reply := Ok;
    }

    method TransferOwnership(actor: Option<UserRef>, newOwner: Option<nat>, fault: bool) returns (reply: Reply)
      modifies this
      ensures (View(), reply) == Handle(old(View()), HandOver(actor, newOwner), fault)
    {
      if !loaded {
        return RoomNotFound;
      }
      if actor.None? || newOwner.None? {
        return InvalidRequest;
      }
      if actor.value.id !in members || newOwner.value !in members {
        return NotMember;
      }
      var tx := RecordOwnershipTransfer(db, actor.value.id, newOwner.value, fault);
      if tx.RolledBack? {
        return if tx.error.PermissionDenied? then NoPermission else InternalError;
      }
      db := tx.store;
      reply := Ok;
    }
  }
}
