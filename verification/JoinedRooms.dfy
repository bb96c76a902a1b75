/**
 * The User grain's joined-room projection (internal/grain/user/user.go and state.go) against the
 * membership rows it mirrors, with Room replies lost at any point.
 *
 * The world of one user: every room, the joined set of the user's activation, and the rooms whose
 * state the user cannot be sure of. A call without a reply waits at its Room: it may be handled at
 * any later moment, also after the user's activation has died and hydrated again, or be lost. A Room
 * handles a user's commands in the order they were sent, so an answered one has no earlier one waiting.
 */
module JoinedRooms {
  import opened Options
  import opened Membership
  import opened RoomGrain
  import opened RoomRuns

  /** What the User grain's call to a Room returns; a loaded Room attaches its own reference. */
  datatype Response = NoReply | Replied(reply: Reply, room: Option<nat>)

  function AfterJoin(joined: set<nat>, resp: Response): set<nat> {
    if resp.Replied? && (resp.reply.Ok? || resp.reply.AlreadyMember?) && resp.room.Some?
    then joined + {resp.room.value} else joined
  }

  function AfterLeave(joined: set<nat>, room: nat, resp: Response): set<nat> {
    if resp.Replied? && (resp.reply.Ok? || resp.reply.NotMember?) then joined - {room} else joined
  }

  class UserGrain {
    var joinedRooms: set<nat>

    /** hydrateJoinedRooms: one insertion per row of the user. */
    method Hydrate(rows: seq<nat>)
      modifies this
      ensures joinedRooms == set r | r in rows
    {
      joinedRooms := {};
      for i := 0 to |rows|
        invariant joinedRooms == set r | r in rows[..i]
      {
        joinedRooms := joinedRooms + {rows[i]};
      }
    }

    method JoinRoom(room: Option<nat>, resp: Response) returns (ok: bool)
      modifies this
      ensures joinedRooms == if room.Some? then AfterJoin(old(joinedRooms), resp) else old(joinedRooms)
      ensures ok <==> room.Some? && resp.Replied? && (resp.reply.Ok? || resp.reply.AlreadyMember?) && resp.room.Some?
      ensures ok ==> resp.room.value in joinedRooms
    {
      if room.None? || resp.NoReply? {
        return false;
      }
      if !resp.reply.Ok? && !resp.reply.AlreadyMember? {
        return false;
      }
      if resp.room.None? {
        return false;
      }
      joinedRooms := joinedRooms + {resp.room.value};
      ok := true;
    }

    method LeaveRoom(room: Option<nat>, resp: Response) returns (ok: bool)
      modifies this
      ensures joinedRooms == if room.Some? then AfterLeave(old(joinedRooms), room.value, resp) else old(joinedRooms)
      ensures ok <==> room.Some? && resp.Replied? && (resp.reply.Ok? || resp.reply.NotMember?)
      ensures ok ==> room.value !in joinedRooms
    {
      if room.None? || resp.NoReply? {
        return false;
      }
      if !resp.reply.Ok? && !resp.reply.NotMember? {
        return false;
      }
      joinedRooms := joinedRooms - {room.value};
      ok := true;
    }
  }

  // ---- The user's world ----

  /**
   * `waiting`: the unanswered commands a room has yet to handle, oldest first. `unsettled`: rooms with
   * an unanswered command, or created by the user, since the last reply that told the outcome or the
   * last hydration. `answered`: whether the latest command to a room was.
   */
  datatype World = World(
    rooms: map<nat, Room>,
    joined: Option<set<nat>>,
    waiting: map<nat, seq<Command>>,
    unsettled: set<nat>,
    answered: map<nat, bool>)

  /** An answered call ran with this luck at the database; an unanswered one is left waiting. */
  datatype Fate = Answered(fault: bool) | Unanswered

  datatype Action =
    | Hydrate(loadFails: bool)
    | Passivate
    | JoinRoom(room: nat, self: Option<UserRef>, fate: Fate)
    | LeaveRoom(room: nat, fate: Fate)
    | RoomHandlesLate(room: nat, fault: bool)
    | CommandLost(room: nat, i: nat)
    | CreateRoom(room: nat, creator: nat)
    | Elsewhere(room: nat, act: RoomRuns.Action)

  function Mine(w: World, me: nat): set<nat> {
    set r | r in w.rooms && me in w.rooms[r].store.rows
  }

  function Waiting(w: World, room: nat): seq<Command> {
    if room in w.waiting then w.waiting[room] else []
  }

  /** A join or leave as the User grain of `me` sends it; the user's own reference may not resolve. */
  predicate IsOwn(me: nat, c: Command) {
    c == Leave(Some(me)) || (c.Join? && (c.user.Some? ==> c.user.value.id == me))
  }

  /** The command an action sends, if it sends one. */
  function Sent(me: nat, a: Action): Option<Command> {
    match a
    case JoinRoom(_, self, _) => Some(Join(self))
    case LeaveRoom(_, _) => Some(Leave(Some(me)))
    case _ => None
  }

  predicate CanAct(w: World, me: nat, a: Action) {
    match a
    case Hydrate(_) => true
    case Passivate => true
    case JoinRoom(room, self, fate) => CanSend(w, room, fate) && (self.Some? ==> self.value.id == me)
    case LeaveRoom(room, fate) => CanSend(w, room, fate)
    case RoomHandlesLate(room, _) => room in w.rooms && Waiting(w, room) != []
    case CommandLost(room, i) => i < |Waiting(w, room)|
    case CreateRoom(room, _) => room !in w.rooms
    case Elsewhere(room, act) =>
      // the user's own joins and leaves go through the user's grain
      room in w.rooms && !(act.Do? && (
        || (act.command.Join? && act.command.user.Some? && act.command.user.value.id == me)
        || (act.command.Leave? && act.command.leaver == Some(me))))
  }

  predicate CanSend(w: World, room: nat, fate: Fate) {
    w.joined.Some? && room in w.rooms && (fate.Answered? ==> Waiting(w, room) == [])
  }

  /** A reply that tells the caller whether it is a member now. */
  predicate Settles(c: Command, reply: Reply) {
    reply.Ok? || (c.Join? && reply.AlreadyMember?) || (c.Leave? && reply.NotMember?)
  }

  function Settled(unsettled: set<nat>, room: nat, c: Command, reply: Reply): set<nat> {
    if Settles(c, reply) then unsettled - {room} else unsettled
  }

  /** The projection after the Room answered. */
  function Projected(joined: set<nat>, loaded: bool, room: nat, c: Command, reply: Reply): set<nat> {
    var resp := Replied(reply, if loaded then Some(room) else None);
    if c.Join? then AfterJoin(joined, resp) else AfterLeave(joined, room, resp)
  }

  ghost function Commanded(w: World, room: nat, c: Command, fate: Fate): World
    requires w.joined.Some? && room in w.rooms
  {
    match fate
    case Unanswered =>
      w.(waiting := w.waiting[room := Waiting(w, room) + [c]],
         unsettled := w.unsettled + {room}, answered := w.answered[room := false])
    case Answered(fault) =>
      var (after, reply) := Handle(w.rooms[room], c, fault);
      w.(rooms := w.rooms[room := after],
         joined := Some(Projected(w.joined.value, w.rooms[room].grain.Some?, room, c, reply)),
         unsettled := Settled(w.unsettled, room, c, reply),
         answered := w.answered[room := true])
  }

  ghost function Next(w: World, me: nat, a: Action): World
    requires CanAct(w, me, a)
  {
    match a
    case Hydrate(loadFails) =>
      if loadFails then w.(joined := None)
      else w.(joined := Some(Mine(w, me)), unsettled := set r | r in w.waiting && w.waiting[r] != [])
    case Passivate => w.(joined := None)
    case JoinRoom(room, self, fate) => Commanded(w, room, Join(self), fate)
    case LeaveRoom(room, fate) => Commanded(w, room, Leave(Some(me)), fate)
    case RoomHandlesLate(room, fault) =>
      w.(rooms := w.rooms[room := Handle(w.rooms[room], Waiting(w, room)[0], fault).0],
         waiting := w.waiting[room := Waiting(w, room)[1..]])
    case CommandLost(room, i) =>
      w.(waiting := w.waiting[room := Waiting(w, room)[..i] + Waiting(w, room)[i + 1..]])
    case CreateRoom(room, creator) =>
      w.(rooms := w.rooms[room := Created(creator)],
         unsettled := if creator == me then w.unsettled + {room} else w.unsettled)
    case Elsewhere(room, act) => w.(rooms := w.rooms[room := Step(w.rooms[room], act)])
  }

  ghost predicate CanRun(w: World, me: nat, acts: seq<Action>)
    decreases |acts|
  {
    acts == [] || (CanAct(w, me, acts[0]) && CanRun(Next(w, me, acts[0]), me, acts[1..]))
  }

  ghost function RunAll(w: World, me: nat, acts: seq<Action>): World
    requires CanRun(w, me, acts)
    decreases |acts|
  {
    if acts == [] then w else RunAll(Next(w, me, acts[0]), me, acts[1..])
  }

  const NOWHERE := World(map[], None, map[], {}, map[])

  /** The joined set and the rows differ on this room. */
  predicate Disagrees(w: World, me: nat, room: nat) {
    w.joined.Some? && ((room in w.joined.value) != (room in Mine(w, me)))
  }

  predicate QueueOk(w: World, me: nat, room: nat) {
    Waiting(w, room) != [] ==>
      && room in w.rooms && room in w.unsettled && (room in w.answered ==> !w.answered[room])
      && forall i :: 0 <= i < |Waiting(w, room)| ==> IsOwn(me, Waiting(w, room)[i])
  }

  ghost predicate RoomOk(w: World, me: nat, r: nat) {
    && (r in w.rooms ==> RoomInv(w.rooms[r]))
    && QueueOk(w, me, r)
    && (Disagrees(w, me, r) ==> r in w.unsettled)
    && (r in w.answered ==> r in w.rooms)
  }

  ghost predicate Inv(w: World, me: nat) {
    forall r :: RoomOk(w, me, r)
  }

  /** Wrong about the room only if the latest command to it, if any, got no reply. */
  predicate WrongOnlyUnanswered(w: World, me: nat, room: nat) {
    Disagrees(w, me, room) && room in w.answered ==> !w.answered[room]
  }

  // ---- One command ----

  /** My membership of a room changes only by my own join or leave, and then the Room answers Ok. */
  lemma MembershipMovesByCommand(r: Room, me: nat, a: RoomRuns.Action)
    requires RoomInv(r) && (me in Step(r, a).store.rows) != (me in r.store.rows)
    ensures a.Do? && Handle(r, a.command, a.fault).1.Ok?
    ensures if me in r.store.rows then a.command == Leave(Some(me))
            else a.command.Join? && a.command.user.Some? && a.command.user.value.id == me
  {
    if a.Do? && a.command.HandOver? && a.command.actor.Some? && a.command.newOwner.Some? {
      TransferKeepsInv(r.store, a.command.actor.value.id, a.command.newOwner.value);
    }
  }

  /**
   * Whether the Room will tell the outcome of my command, by what holds before the call: it is
   * loaded; a join names me, and I am a member already or the database works; and for a leave I am
   * no member, or not the owner and the database works.
   */
  predicate Tells(r: Room, me: nat, c: Command, fault: bool) {
    r.grain.Some? &&
    if c.Join? then c.user.Some? && (me in r.store.rows || !fault)
    else me !in r.store.rows || (!fault && !r.store.rows[me].Owner?)
  }

  /**
   * The reply tells the outcome exactly when Tells holds before the call; then it states my row as it
   * is afterwards, and otherwise nothing has changed.
   */
  lemma ReplyTellsTheTruth(r: Room, me: nat, c: Command, fault: bool)
    requires RoomInv(r) && IsOwn(me, c)
    ensures var (r', reply) := Handle(r, c, fault);
            && (Settles(c, reply) <==> Tells(r, me, c, fault))
            && (Tells(r, me, c, fault) ==> ((me in r'.store.rows) <==> c.Join?))
            && (!Tells(r, me, c, fault) ==> r' == r)
  {
    CommandIsAllOrNothing(r, c, fault);
  }

  lemma AnsweredDisagrees(w: World, me: nat, room: nat, c: Command, fault: bool)
    requires room in w.rooms && RoomInv(w.rooms[room]) && IsOwn(me, c) && w.joined.Some?
    ensures Disagrees(Commanded(w, room, c, Answered(fault)), me, room) <==>
              Disagrees(w, me, room) && !Tells(w.rooms[room], me, c, fault)
  {
    ReplyTellsTheTruth(w.rooms[room], me, c, fault);
  }

  /** The world after an answered command, had the projection held `joined` before it. */
  ghost function AnsweredFrom(w: World, joined: set<nat>, room: nat, c: Command, fault: bool): World
    requires room in w.rooms
  {
    Commanded(w.(joined := Some(joined)), room, c, Answered(fault))
  }

  /**
   * One answered command, exactly: it leaves projection and rows in agreement on the room if and only
   * if they agreed or the Room could tell; so it does whatever the projection held before if and only
   * if the Room can tell.
   */
  lemma AnsweredCommandSettles(w: World, me: nat, room: nat, c: Command, fault: bool)
    requires room in w.rooms && RoomInv(w.rooms[room]) && IsOwn(me, c)
    ensures forall joined :: !Disagrees(AnsweredFrom(w, joined, room, c, fault), me, room) <==>
              !Disagrees(w.(joined := Some(joined)), me, room) || Tells(w.rooms[room], me, c, fault)
    ensures (forall joined :: !Disagrees(AnsweredFrom(w, joined, room, c, fault), me, room)) <==>
              Tells(w.rooms[room], me, c, fault)
  {
    forall joined: set<nat>
      ensures !Disagrees(AnsweredFrom(w, joined, room, c, fault), me, room) <==>
                !Disagrees(w.(joined := Some(joined)), me, room) || Tells(w.rooms[room], me, c, fault)
    {
      AnsweredDisagrees(w.(joined := Some(joined)), me, room, c, fault);
    }
    var wrong := if me in w.rooms[room].store.rows then {} else {room};
    assert Disagrees(w.(joined := Some(wrong)), me, room);
    assert !Tells(w.rooms[room], me, c, fault) ==> Disagrees(AnsweredFrom(w, wrong, room, c, fault), me, room);
  }

  // ---- Every run ----

  /** A step at one room leaves every other as it was. */
  ghost predicate Touches(w: World, w': World, me: nat, room: nat) {
    forall r :: r != room ==>
      && (r in w'.rooms <==> r in w.rooms) && (r in w.rooms ==> w'.rooms[r] == w.rooms[r])
      && Waiting(w', r) == Waiting(w, r) && (r in w'.unsettled <==> r in w.unsettled)
      && (r in w'.answered <==> r in w.answered) && (r in w.answered ==> w'.answered[r] == w.answered[r])
      && (Disagrees(w', me, r) <==> Disagrees(w, me, r))
  }

  /** An answered command to a room on which they disagree meets Tells. */
  predicate Discloses(w: World, me: nat, a: Action) {
    Sent(me, a).Some? && a.fate.Answered? && a.room in w.rooms && Disagrees(w, me, a.room) ==>
      Tells(w.rooms[a.room], me, Sent(me, a).value, a.fate.fault)
  }

  lemma UnansweredStep(w: World, me: nat, room: nat, c: Command)
    requires RoomOk(w, me, room) && IsOwn(me, c) && w.joined.Some? && room in w.rooms
    ensures var w' := Commanded(w, room, c, Unanswered);
            Touches(w, w', me, room) && RoomOk(w', me, room) && WrongOnlyUnanswered(w', me, room)
  {
    var w' := Commanded(w, room, c, Unanswered);
    assert Mine(w', me) == Mine(w, me);
  }

  lemma AnsweredTouches(w: World, me: nat, room: nat, c: Command, fault: bool)
    requires IsOwn(me, c) && w.joined.Some? && room in w.rooms
    ensures Touches(w, Commanded(w, room, c, Answered(fault)), me, room)
  {
    var w' := Commanded(w, room, c, Answered(fault));
    forall r | r != room ensures Disagrees(w', me, r) <==> Disagrees(w, me, r) {
      assert r in Mine(w', me) <==> r in Mine(w, me);
    }
  }

  lemma AnsweredStep(w: World, me: nat, room: nat, c: Command, fault: bool)
    requires RoomOk(w, me, room) && IsOwn(me, c) && CanSend(w, room, Answered(fault))
    ensures var w' := Commanded(w, room, c, Answered(fault));
            && Touches(w, w', me, room) && RoomOk(w', me, room)
            && (WrongOnlyUnanswered(w', me, room) <==>
                  (Disagrees(w, me, room) ==> Tells(w.rooms[room], me, c, fault)))
  {
    AnsweredTouches(w, me, room, c, fault);
    AnsweredDisagrees(w, me, room, c, fault);
    CommandKeepsRoom(w.rooms[room], c, fault);
    ReplyTellsTheTruth(w.rooms[room], me, c, fault);
    assert Waiting(Commanded(w, room, c, Answered(fault)), room) == [];
  }

  lemma LateStep(w: World, me: nat, room: nat, fault: bool)
    requires RoomOk(w, me, room) && CanAct(w, me, RoomHandlesLate(room, fault))
    ensures var w' := Next(w, me, RoomHandlesLate(room, fault));
            Touches(w, w', me, room) && RoomOk(w', me, room) && WrongOnlyUnanswered(w', me, room)
  {
    var w' := Next(w, me, RoomHandlesLate(room, fault));
    CommandKeepsRoom(w.rooms[room], Waiting(w, room)[0], fault);
    forall r | r != room ensures Disagrees(w', me, r) <==> Disagrees(w, me, r) {
      assert r in Mine(w', me) <==> r in Mine(w, me);
    }
  }

  lemma LossStep(w: World, me: nat, room: nat, i: nat)
    requires RoomOk(w, me, room) && CanAct(w, me, CommandLost(room, i))
    ensures var w' := Next(w, me, CommandLost(room, i));
            Touches(w, w', me, room) && RoomOk(w', me, room) && WrongOnlyUnanswered(w', me, room)
  {
    var w' := Next(w, me, CommandLost(room, i));
    assert Mine(w', me) == Mine(w, me);
  }

  lemma CreateStep(w: World, me: nat, room: nat, creator: nat)
    requires RoomOk(w, me, room) && room !in w.rooms
    ensures var w' := Next(w, me, CreateRoom(room, creator));
            Touches(w, w', me, room) && RoomOk(w', me, room) && WrongOnlyUnanswered(w', me, room)
  {
    var w' := Next(w, me, CreateRoom(room, creator));
    FoundedInv(creator);
    forall r ensures r in Mine(w', me) <==> r in Mine(w, me) || (r == room && creator == me) {
    }
  }

  lemma ElsewhereStep(w: World, me: nat, room: nat, act: RoomRuns.Action)
    requires RoomOk(w, me, room) && CanAct(w, me, Elsewhere(room, act))
    ensures var w' := Next(w, me, Elsewhere(room, act));
            && Touches(w, w', me, room) && RoomOk(w', me, room)
            && (WrongOnlyUnanswered(w', me, room) <==> WrongOnlyUnanswered(w, me, room))
  {
    var w' := Next(w, me, Elsewhere(room, act));
    StepKeepsRoom(w.rooms[room], act);
    if (me in Step(w.rooms[room], act).store.rows) != (me in w.rooms[room].store.rows) {
      MembershipMovesByCommand(w.rooms[room], me, act);
    }
    assert Mine(w', me) == Mine(w, me);
  }

  /** A step at one room keeps it in order, and keeps it wrong only when unanswered exactly if it discloses. */
  lemma RoomStep(w: World, me: nat, a: Action)
    requires Inv(w, me) && CanAct(w, me, a) && !a.Hydrate? && !a.Passivate?
    ensures var w' := Next(w, me, a);
            && Touches(w, w', me, a.room) && RoomOk(w', me, a.room)
            && (WrongOnlyUnanswered(w, me, a.room) ==>
                  (WrongOnlyUnanswered(w', me, a.room) <==> Discloses(w, me, a)))
  {
    assert RoomOk(w, me, a.room);
    match a {
      case JoinRoom(room, self, Answered(fault)) => AnsweredStep(w, me, room, Join(self), fault);
      case JoinRoom(room, self, Unanswered) => UnansweredStep(w, me, room, Join(self));
      case LeaveRoom(room, Answered(fault)) => AnsweredStep(w, me, room, Leave(Some(me)), fault);
      case LeaveRoom(room, Unanswered) => UnansweredStep(w, me, room, Leave(Some(me)));
      case RoomHandlesLate(room, fault) => LateStep(w, me, room, fault);
      case CommandLost(room, i) => LossStep(w, me, room, i);
      case CreateRoom(room, creator) => CreateStep(w, me, room, creator);
      case Elsewhere(room, act) => ElsewhereStep(w, me, room, act);
    }
  }

  /** A grain that is hydrated or gone is wrong about nothing. */
  lemma FreshStep(w: World, me: nat, a: Action)
    requires Inv(w, me) && (a.Hydrate? || a.Passivate?)
    ensures var w' := Next(w, me, a); Inv(w', me) && forall r :: !Disagrees(w', me, r)
  {
    var w' := Next(w, me, a);
    assert Mine(w', me) == Mine(w, me);
    forall r ensures RoomOk(w', me, r) && !Disagrees(w', me, r) {
      assert RoomOk(w, me, r);
    }
  }

  lemma ActionKeepsInv(w: World, me: nat, a: Action)
    requires Inv(w, me) && CanAct(w, me, a)
    ensures Inv(Next(w, me, a), me)
  {
    if a.Hydrate? || a.Passivate? {
      FreshStep(w, me, a);
    } else {
      RoomStep(w, me, a);
      forall r ensures RoomOk(Next(w, me, a), me, r) {
        assert RoomOk(w, me, r);
      }
    }
  }

  lemma {:induction false} RunKeepsInv(w: World, me: nat, acts: seq<Action>)
    requires Inv(w, me) && CanRun(w, me, acts)
    ensures Inv(RunAll(w, me, acts), me)
    decreases |acts|
  {
    if acts != [] {
      ActionKeepsInv(w, me, acts[0]);
      RunKeepsInv(Next(w, me, acts[0]), me, acts[1..]);
    }
  }

  /**
   * Over every run, with Room calls handled long after their caller gave up on them, the joined set
   * is wrong only about rooms that are unsettled.
   */
  lemma DisagreementIsUnsettled(me: nat, acts: seq<Action>, room: nat)
    requires CanRun(NOWHERE, me, acts) && Disagrees(RunAll(NOWHERE, me, acts), me, room)
    ensures room in RunAll(NOWHERE, me, acts).unsettled
  {
    RunKeepsInv(NOWHERE, me, acts);
    assert RoomOk(RunAll(NOWHERE, me, acts), me, room);
  }

  // ---- "Wrong only where the latest command got no reply" ----

  ghost predicate WrongOnlyUnansweredAnywhere(w: World, me: nat) {
    forall r :: WrongOnlyUnanswered(w, me, r)
  }

  lemma StepIsExact(w: World, me: nat, a: Action)
    requires Inv(w, me) && CanAct(w, me, a) && WrongOnlyUnansweredAnywhere(w, me)
    ensures WrongOnlyUnansweredAnywhere(Next(w, me, a), me) <==> Discloses(w, me, a)
  {
    var w' := Next(w, me, a);
    if a.Hydrate? || a.Passivate? {
      FreshStep(w, me, a);
    } else {
      RoomStep(w, me, a);
      assert WrongOnlyUnanswered(w, me, a.room);
      forall r | r != a.room ensures WrongOnlyUnanswered(w', me, r) {
        assert WrongOnlyUnanswered(w, me, r);
      }
    }
  }

  /** The statement holds now and after every step of the run. */
  ghost predicate HoldsThroughout(w: World, me: nat, acts: seq<Action>)
    requires CanRun(w, me, acts)
    decreases |acts|
  {
    && WrongOnlyUnansweredAnywhere(w, me)
    && (acts == [] || HoldsThroughout(Next(w, me, acts[0]), me, acts[1..]))
  }

  ghost predicate DisclosesThroughout(w: World, me: nat, acts: seq<Action>)
    requires CanRun(w, me, acts)
    decreases |acts|
  {
    acts == [] || (Discloses(w, me, acts[0]) && DisclosesThroughout(Next(w, me, acts[0]), me, acts[1..]))
  }

  lemma {:induction false} RunIsExact(w: World, me: nat, acts: seq<Action>)
    requires Inv(w, me) && CanRun(w, me, acts) && WrongOnlyUnansweredAnywhere(w, me)
    ensures HoldsThroughout(w, me, acts) <==> DisclosesThroughout(w, me, acts)
    decreases |acts|
  {
    if acts != [] {
      var w' := Next(w, me, acts[0]);
      ActionKeepsInv(w, me, acts[0]);
      StepIsExact(w, me, acts[0]);
      if Discloses(w, me, acts[0]) {
        RunIsExact(w', me, acts[1..]);
      }
    }
  }

  /**
   * The joined set is wrong only about rooms whose latest command got no reply (or that the user
   * created and never commanded), throughout a run, if and only if every answered command of the run
   * to a room on which it was wrong met Tells when it was issued.
   */
  lemma WrongOnlyUnansweredIff(me: nat, acts: seq<Action>)
    requires CanRun(NOWHERE, me, acts)
    ensures HoldsThroughout(NOWHERE, me, acts) <==> DisclosesThroughout(NOWHERE, me, acts)
  {
    RunIsExact(NOWHERE, me, acts);
  }

  /** Every answered command of the run meets Tells when it is issued. */
  ghost predicate TellsThroughout(w: World, me: nat, acts: seq<Action>)
    requires CanRun(w, me, acts)
    decreases |acts|
  {
    acts == [] || (
      && (Sent(me, acts[0]).Some? && acts[0].fate.Answered? ==>
            Tells(w.rooms[acts[0].room], me, Sent(me, acts[0]).value, acts[0].fate.fault))
      && TellsThroughout(Next(w, me, acts[0]), me, acts[1..]))
  }

  lemma {:induction false} TellingRunDiscloses(w: World, me: nat, acts: seq<Action>)
    requires CanRun(w, me, acts) && TellsThroughout(w, me, acts)
    ensures DisclosesThroughout(w, me, acts)
    decreases |acts|
  {
    if acts != [] {
      TellingRunDiscloses(Next(w, me, acts[0]), me, acts[1..]);
    }
  }

  lemma {:induction false} HoldsAtTheEnd(w: World, me: nat, acts: seq<Action>)
    requires CanRun(w, me, acts) && HoldsThroughout(w, me, acts)
    ensures WrongOnlyUnansweredAnywhere(RunAll(w, me, acts), me)
    decreases |acts|
  {
    if acts != [] {
      HoldsAtTheEnd(Next(w, me, acts[0]), me, acts[1..]);
    }
  }

  /** So Tells, which speaks of the moment before each call alone, is enough for the statement. */
  lemma TellingRunsAreWrongOnlyUnanswered(me: nat, acts: seq<Action>, room: nat)
    requires CanRun(NOWHERE, me, acts) && TellsThroughout(NOWHERE, me, acts)
    ensures WrongOnlyUnanswered(RunAll(NOWHERE, me, acts), me, room)
  {
    TellingRunDiscloses(NOWHERE, me, acts);
    WrongOnlyUnansweredIff(me, acts);
    HoldsAtTheEnd(NOWHERE, me, acts);
  }

  // ---- It can fail ----

  lemma Cons(w: World, me: nat, a: Action, rest: seq<Action>)
    requires CanAct(w, me, a) && CanRun(Next(w, me, a), me, rest)
    ensures CanRun(w, me, [a] + rest) && RunAll(w, me, [a] + rest) == RunAll(Next(w, me, a), me, rest)
  {
    assert ([a] + rest)[1..] == rest;
  }

  /** From a loaded room without user 9: a join handled late, then a leave answered with a database error. */
  lemma LateJoinThenError(w: World) returns (acts: seq<Action>)
    requires 1 in w.rooms && w.joined == Some({}) && w.waiting == map[] && w.answered == map[]
    requires w.rooms[1].store == Founded(7) && w.rooms[1].grain.Some? && 9 !in w.rooms[1].grain.value.members
    ensures CanRun(w, 9, acts)
    ensures Disagrees(RunAll(w, 9, acts), 9, 1) && RunAll(w, 9, acts).answered == map[1 := true]
  {
    var join, late := JoinRoom(1, Some(UserRef(9, "n")), Unanswered), RoomHandlesLate(1, false);
    var leave := LeaveRoom(1, Answered(true));
    var w1 := Next(w, 9, join);
    assert Waiting(w1, 1) == [Join(Some(UserRef(9, "n")))];
    var w2 := Next(w1, 9, late);
    assert 9 in w2.rooms[1].store.rows && 9 in w2.rooms[1].grain.value.members && w2.joined == Some({});
    var w3 := Next(w2, 9, leave);
    assert w3.rooms[1] == w2.rooms[1] && w3.joined == Some({}) && w3.answered == map[1 := true];
    assert 1 in Mine(w3, 9);
    Cons(w2, 9, leave, []);
    Cons(w1, 9, late, [leave] + []);
    Cons(w, 9, join, [late] + ([leave] + []));
    acts := [join] + ([late] + ([leave] + []));
  }

  /** After a join handled late, a leave that the Room answers with a database error. */
  lemma AnsweredErrorLeavesDisagreement() returns (acts: seq<Action>)
    ensures CanRun(NOWHERE, 9, acts)
    ensures var w := RunAll(NOWHERE, 9, acts); Disagrees(w, 9, 1) && w.answered == map[1 := true]
  {
    var create, activate, hydrate := CreateRoom(1, 7), Elsewhere(1, Activate(map[], Loaded)), Hydrate(false);
    var w1 := Next(NOWHERE, 9, create);
    var w2 := Next(w1, 9, activate);
    assert w2.rooms[1].store == Founded(7) && w2.rooms[1].grain.Some? && 9 !in w2.rooms[1].grain.value.members;
    var w3 := Next(w2, 9, hydrate);
    assert Mine(w2, 9) == {};
    var rest := LateJoinThenError(w3);
    Cons(w2, 9, hydrate, rest);
    Cons(w1, 9, activate, [hydrate] + rest);
    Cons(NOWHERE, 9, create, [activate] + ([hydrate] + rest));
    acts := [create] + ([activate] + ([hydrate] + rest));
  }

  /** Nothing fails and no reply is lost: an owner whose new room is not in the projection asks to leave it. */
  lemma AnsweredOwnerLeavesDisagreement() returns (acts: seq<Action>)
    ensures CanRun(NOWHERE, 9, acts)
    ensures var w := RunAll(NOWHERE, 9, acts); Disagrees(w, 9, 1) && w.answered == map[1 := true]
  {
    var hydrate, create, activate := Hydrate(false), CreateRoom(1, 9), Elsewhere(1, Activate(map[], Loaded));
    var leave := LeaveRoom(1, Answered(false));
    var w1 := Next(NOWHERE, 9, hydrate);
    assert Mine(NOWHERE, 9) == {};
    var w2 := Next(w1, 9, create);
    var w3 := Next(w2, 9, activate);
    assert w3.rooms[1].store == Founded(9) && w3.rooms[1].grain.Some? && 9 in w3.rooms[1].grain.value.members;
    var w4 := Next(w3, 9, leave);
    assert w4.rooms[1] == w3.rooms[1] && w4.joined == Some({}) && w4.answered == map[1 := true];
    assert 1 in Mine(w4, 9);
    Cons(w3, 9, leave, []);
    Cons(w2, 9, activate, [leave] + []);
    Cons(w1, 9, create, [activate] + ([leave] + []));
    Cons(NOWHERE, 9, hydrate, [create] + ([activate] + ([leave] + [])));
    acts := [hydrate] + ([create] + ([activate] + ([leave] + [])));
  }
}
