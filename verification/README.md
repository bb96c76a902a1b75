# A verified model of the chat back end

The system is a chat service in Go: a gateway, Room and User grains, one connection actor per
WebSocket, and a PostgreSQL database that is the authority for everything. This project models the
parts of it whose correctness depends on several functions at once, or on every interleaving of a
protocol, and proves what those parts promise. `dafny verify dfyconfig.toml` checks all of it.

| module | what it models |
|---|---|
| `Snowflake`, `Minting` | the id generator: bit packing, the lease deadline, the spin on a full millisecond; what every call answers |
| `LeaseTable` | the worker-lease table and its three conditional statements |
| `Fleet`, `FleetIds` | any number of lease managers over one table, with lost replies and late statements; fencing and id uniqueness |
| `Exchanges`, `Renewals` | what whole exchanges of a manager with the database achieve, and how long a renewal lasts |
| `Lifecycle` | every interleaving of Start, Stop, the lease loop and context cancellation in one manager |
| `Membership` | the membership rows and journal of a room, its transactions, room creation |
| `RoomGrain`, `RoomRuns` | the Room grain as an object; what holds of a room over every run; fan-out |
| `RoomReplies` | who may do what in a room, and how a row comes to hold its role |
| `JoinedRooms` | the User grain's joined-room projection, with Room replies lost at any point |
| `Connection`, `Deliveries` | the connection actor, its outbound queue and its write pump; which frames stand for which messages |
| `Watch`, `Repairs` | the two-way watch between connections and User grain activations that die, or lose their link, at any time |
| `Heartbeat` | the timed ping and pong watchdog |
| `Accounts`, `Verdicts`, `Guesses` | accounts and PIN challenges, with verifications that overlap or fail half-way; the sweeper; the exact bound on wrong PINs |
| `Registration` | the registration retry loop and the variables its closure captures |
| `Timeline` | keyset pagination of a room's history while it grows |
| `Escaping` | LIKE patterns and Groonga queries built from user text |
| `Search` | the timeline read as a whole: statement text, placeholders and arguments, answer, page |
| `Options`, `SortedLists` | shared definitions |

State that the source updates in place is a class whose methods are proved equal to a pure step
function (`Handle`, `Receive`, `NextSpec`, ...); the theorems are about every run of that step
function. Protocols with several threads, processes or actors (the lease managers, Start and Stop,
the two-way watch) are state machines over values, one atomic operation per step.

## What is assumed

- Time in `Fleet` is the database clock. A host's monotonic clock is that plus a constant of its
  own; its wall clock may wander between `slow` behind and `fast` ahead of it, after the epoch.
- A lease token is never generated twice, and an id minted for an account or a room is fresh.
- A SQL statement is atomic at some instant after it was sent, even after its caller stopped
  waiting. A transaction either commits as a whole or does nothing. Transactions are serial, except
  that verifications read first and write later, with anything in between.
- There is at most one activation per grain identity, and activations have different PIDs.
- A Room handles the commands of one user in the order they were sent. One that got no reply may be
  handled at any later time, or never.
- A watch on a PID that is already dead is answered with Terminated. A broken link tells both ends
  that the other is gone, and takes a reply that was on its way with it.
- LIKE and Groonga queries are read by the small grammars written out in `Escaping`; lower-casing
  leaves `%`, `_` and `\` alone and turns no other character into one of them.

## Where the code and what is said about it differ

- `docs/adr/adr-019-snowflake-ids-and-worker-lease-fencing.md` says that host and database skew
  cannot produce a duplicate id. `FleetIds.UniquenessIsExact` gives the exact condition: every
  margin (plus one nanosecond) and every pause between a release and the next claim of that worker id must
  cover the spread of the wall clocks plus one millisecond. The code enforces no such pause, so with
  a pause of zero some run always mints an id twice (`FleetIds.ShortGapDuplicates`), and a margin that is too
  short fails in the same way (`FleetIds.ShortMarginDuplicates`).
- A joined set can be wrong about a room although the latest command to that room was answered. The
  answers that leave it wrong are: the Room is not loaded (room not found); the user's own reference
  does not resolve (invalid request); the database fails under a join that would add, or a leave that
  would remove; and the owner asks to leave (cannot leave), which needs no failure and no lost reply at all.
  `JoinedRooms.Tells` is the complement of these, stated before the call. An answered command repairs
  the room whatever the projection held exactly when `Tells` holds
  (`JoinedRooms.AnsweredCommandSettles`), and "wrong only where the latest command got no reply" holds
  throughout a run exactly when every answered command to a room that was wrong met it
  (`JoinedRooms.WrongOnlyUnansweredIff`). `JoinedRooms.AnsweredErrorLeavesDisagreement` and
  `JoinedRooms.AnsweredOwnerLeavesDisagreement` are two failing runs.
- A pong handled exactly `pongTimeout - pingInterval` after its ping can still lose against a
  watchdog due at that instant. `Heartbeat.PunctualPeerSurvives` is the exact bound for every cadence,
  and `Heartbeat.PromiseIsExact` for ping ticks that a busy mailbox handles further apart.
- A link that breaks between two live ends can leave a silent gap: if the grain handles the
  connection's fresh registration before the notice that evicts it, and no further notice to the
  connection is on its way, nothing is left to repair the registration (`Watch.DisorderlyRunHasGap`).
  `Watch.NoSilentGap` holds for every run without such a step, and `Watch.HandlingIsSafeIff` says that
  each such step opens the way to a gap.
- The attempt limit of a PIN is read before the PIN is compared and raised after it, and not guarded
  in between, unlike the resend budget (internal/gateway/verification.go:73-84,
  internal/persistence/verification_repo.go:77-78). So maxAttempts * (maxResends + 1) bounds the wrong PINs
  of an account only where its verifications do not overlap. With up to k at a time the exact bound is
  (maxAttempts + k - 1) * (maxResends + 1) (`Accounts.GuessesAreBounded`, `Guesses.GuessLimitIsExact`). And
  it bounds the answered ones: a wrong PIN whose verification fails after the comparison is rolled back
  and never counted, so the comparisons themselves have no bound (`Accounts.ComparisonsAreAccountedFor`,
  `Guesses.ComparisonsAreUnbounded`).
- Walking the timeline returns the history of the first read exactly when no read finds a new event
  below its place in that history (`Timeline.HistoryIsExact`). Ids above everything already present ensure that
  (`Timeline.HistoryIsComplete`). The same decision record admits that an id from a host with a lagging
  clock need not be; `Timeline.LaggingIdDisturbs` is a walk that returns one.

## Model

| member | source | states |
|---|---|---|
| `FleetIds.IdsAreUnique` | internal/persistence/workerlease/manager.go:239-318 | over every run of any fleet on one lease table, with lost replies, timeouts, late statements and clock skew, no two successful Next calls return the same id, if margins and release pauses cover the clock spread plus 1 ms |
| `FleetIds.UniquenessIsExact` | docs/adr/adr-019-snowflake-ids-and-worker-lease-fencing.md:67-82 | that condition is necessary too: ids are unique in all runs if and only if it holds |
| `FleetIds.ShortMarginDuplicates` | internal/persistence/workerlease/manager.go:261-296 | for every margin below the spread there is a run (expiry, loss, re-acquire) that mints an id twice |
| `FleetIds.ShortGapDuplicates` | internal/persistence/workerlease/manager.go:303-318 | for every release pause below the spread there is a run (release, restart) that mints an id twice |
| `FleetIds.LiveGeneratorIsFenced` | internal/persistence/workerlease/manager.go:239-297 | in every reachable world a generator whose deadline has not passed has its worker's row: its own token, not expired |
| `FleetIds.HaltedForGood` | internal/persistence/workerlease/manager.go:285-311 | once a renewal reported a loss its token is never held again; a generator halted by loss or teardown never mints again, in any continuation |
| `FleetIds.ApartMeansDistinct` | internal/snowflake/generator.go:171-181 | mints of one worker by different lease holders, a spread apart in database time, carry different ids |
| `FleetIds.ClaimSettles` | internal/persistence/workerlease/repo.go:57-75 | a claim of a free row comes a full spread after every mint under an earlier holder of that worker id |
| `FleetIds.CallKeepsLog` | internal/snowflake/generator.go:132-181 | a new mint is a spread later than all mints of its worker id under other tokens and greater than all under its own |
| `Fleet.StepKeepsInv` | internal/persistence/workerlease/manager.go:165-318 | every step of the fleet keeps the fencing invariant over rows, requests, sessions and generators |
| `Fleet.RunKeepsInv` | internal/persistence/workerlease/manager.go:165-318 | so does every run |
| `Fleet.HeldReplyKeepsInv` | internal/persistence/workerlease/manager.go:261-279 | extending the deadline to sendAt + ttl - margin after a held renewal keeps every live generator fenced |
| `Renewals.HeldReplyExtends` | internal/persistence/workerlease/manager.go:261-279 | a held reply moves the deadline to sendAt + ttl - margin |
| `Renewals.RenewedUntilDeadline` | internal/persistence/workerlease/manager.go:261-279 | after a renewal sent at s and answered held, in any continuation, the generator may mint until s + ttl - margin unless a loss or teardown finished it |
| `Renewals.DeadlineHolds` | internal/persistence/workerlease/manager.go:239-318 | along any run a generator's deadline only moves on until it is finished |
| `Exchanges.StartLeases` | internal/persistence/workerlease/manager.go:165-184 | Start, answered: the lowest free worker id under a new token, a session, and a generator with its deadline |
| `Exchanges.BeatRenews` | internal/persistence/workerlease/manager.go:261-279 | a beat, answered: row and deadline move on by a full ttl and nothing else changes |
| `Exchanges.BeatFails` | internal/persistence/workerlease/manager.go:261-279 | a beat without an answer changes neither session nor generator, and the next one can be sent |
| `Exchanges.BeatLoses` | internal/persistence/workerlease/manager.go:285-297 | a beat that lost halts the generator and asks for a new lease under a new token |
| `Exchanges.LossReacquires` | internal/persistence/workerlease/manager.go:285-297 | answered, that is the lowest free worker id in a new session |
| `Exchanges.LossKeepsTrying` | internal/persistence/workerlease/manager.go:285-297 | failing, it leaves the halted session for the next beat to try again |
| `Exchanges.EmptyReplyRetries` | internal/persistence/workerlease/repo.go:77-98 | an empty reply is retried under a new token, eight tries in all, with the deadline counted from the first send |
| `Exchanges.TeardownReleases` | internal/persistence/workerlease/manager.go:303-318 | teardown, answered: halted, the row gone if it was still this lease's, no session |
| `Exchanges.TeardownFails` | internal/persistence/workerlease/manager.go:303-318 | teardown without an answer: halted and no session all the same |
| `Exchanges.AllowedCallMints` | internal/persistence/workerlease/manager.go:214-220 | a generator whose deadline lies ahead mints in every fresh millisecond |
| `Fleet.ClaimReplyKeepsInv` | internal/persistence/workerlease/manager.go:239-255 | installing a generator with the deadline of its acquire keeps it, though the claim took effect before the reply |
| `Fleet.LostReplyKeepsInv` | internal/persistence/workerlease/manager.go:285-297 | halting on a reported loss and re-acquiring keeps it |
| `Fleet.TeardownKeepsInv` | internal/persistence/workerlease/manager.go:303-318 | halting before the release is sent keeps it, whenever the delete takes effect |
| `Fleet.ExecuteAcquireKeepsInv` | internal/persistence/workerlease/repo.go:57-98 | the acquire statement takes no row from a token that is still fenced |
| `Fleet.ExecuteRenewalKeepsInv` | internal/persistence/workerlease/repo.go:103-117 | the renew statement keeps the fencing invariant, and whatever lease is held after it was held before |
| `Fleet.ExecuteReleaseKeepsInv` | internal/persistence/workerlease/repo.go:121-130 | the release statement keeps the fencing invariant, and deletes only the row of a token whose generator was halted first |
| `LeaseTable.LowestFree` | internal/persistence/workerlease/repo.go:57-75 | the slot chosen is the least worker id in 0..1023 without an unexpired lease; none exactly when there is none |
| `LeaseTable.Repo.Acquire` | internal/persistence/workerlease/repo.go:77-98 | with rivals at work between the tries, the loop ends at the first try that gets a row (the lowest id free then, under that try's own token), at the first driver error, or after eight; earlier tries wrote nothing |
| `LeaseTable.Repo.Renew` | internal/persistence/workerlease/repo.go:103-117 | held exactly when the row has this token and is unexpired, and only then extended |
| `LeaseTable.Repo.Release` | internal/persistence/workerlease/repo.go:121-130 | deletes the row only under its own token |
| `Snowflake.NewGenerator` | internal/snowflake/generator.go:102-116 | a generator exactly for worker ids 0..1023; it has minted nothing and is fail-closed |
| `Snowflake.Generator.Renew` | internal/snowflake/generator.go:122-126 | replaces the deadline and nothing else |
| `Snowflake.Generator.SpinNextMillis` | internal/snowflake/generator.go:186-196 | the loop reads exactly as far as its specification and ends as it does |
| `Snowflake.Generator.Next` | internal/snowflake/generator.go:132-181 | outcome, new state and readings consumed are those of the specification, for every clock script |
| `Minting.AnswersExactly` | internal/snowflake/generator.go:132-181 | at the reading that decides, exactly when each error is given and exactly when an id is minted |
| `Minting.FreshMillisecondMints` | internal/snowflake/generator.go:161-180 | a later millisecond mints its sequence 0 |
| `Minting.SameMillisecondMints` | internal/snowflake/generator.go:152-180 | a further call in the same millisecond mints the very next id |
| `Minting.FullMillisecondSpins` | internal/snowflake/generator.go:152-196 | a full millisecond spins to the first reading past the deadline or in a later millisecond, and is decided there |
| `Minting.FirstReadingDecides` | internal/snowflake/generator.go:132-181 | no other call looks past its first reading |
| `Minting.MillisecondYields4096` | internal/snowflake/generator.go:132-181 | calls within one millisecond mint consecutive ids from sequence 0 on, 4096 of them and no more |
| `Snowflake.PackDecodes` | internal/snowflake/generator.go:171-171 | an id decodes uniquely into millisecond, worker and sequence |
| `Snowflake.OrIsPack` | internal/snowflake/generator.go:171-171 | the shift-and-or word, as a number, is Pack of its 41, 10 and 12 bit fields, and is below 2^63 |
| `Snowflake.NextIsSound` | internal/snowflake/generator.go:132-181 | a minted id is positive, below 2^63, above all before it and stamped inside the lease; a failed call changes nothing |
| `Snowflake.NextEndsByDeadline` | internal/snowflake/generator.go:186-196 | no call reads the clock past the first reading at or beyond the deadline |
| `Snowflake.SpinEndsByDeadline` | internal/snowflake/generator.go:186-196 | nor does a spin |
| `Snowflake.SpinIsALaterCall` | internal/snowflake/generator.go:152-196 | a call that spun and minted did exactly what a fresh call at its last reading would do |
| `Snowflake.LifetimeIdsIncrease` | internal/snowflake/generator.go:122-200 | over any Renew and Next calls and any clock readings ids strictly increase and decode uniquely |
| `Lifecycle.PlayedInv` | internal/persistence/workerlease/manager.go:165-318 | the session and channel invariant holds after every interleaving |
| `Lifecycle.AtMostOneWriter` | internal/persistence/workerlease/manager.go:281-318 | at no moment may two threads - a Start, an old loop, a new loop - write the current session, and a step that changes it is a step of the one that may |
| `Lifecycle.ChannelsCloseOnce` | internal/persistence/workerlease/manager.go:193-234 | no stop or done channel is ever closed twice |
| `Lifecycle.StopReturnsStopped` | internal/persistence/workerlease/manager.go:225-234 | Stop returns exactly once its loop has exited, with no session left and no loop able to write one |
| `Lifecycle.HaltedSessionsStayGone` | internal/persistence/workerlease/manager.go:285-318 | a halted session that was replaced or cleared never becomes current again |
| `Lifecycle.StartRuns` | internal/persistence/workerlease/manager.go:165-184 | Start on a stopped manager gives a new session and a loop with two new channels |
| `Lifecycle.NothingHappens` | internal/persistence/workerlease/manager.go:165-175 | a Start without a lease, a second Start and a Stop of a stopped manager change nothing |
| `Lifecycle.StopStops` | internal/persistence/workerlease/manager.go:225-234 | Stop closes the stop channel, and returns once the loop has halted, cleared and signalled |
| `Lifecycle.LoopLeaves` | internal/persistence/workerlease/manager.go:193-209 | a loop that leaves halts the session before it clears it, and closes its done channel last |
| `Lifecycle.KeptBeat` | internal/persistence/workerlease/manager.go:261-279 | a beat that keeps the lease changes nothing |
| `Lifecycle.LostBeat` | internal/persistence/workerlease/manager.go:285-289 | a beat that lost halts the session before anything else |
| `Lifecycle.AfterALoss` | internal/persistence/workerlease/manager.go:290-297 | then a session never used before is published, or the halted one kept |
| `RoomRuns.JournalExplainsMembership` | internal/grain/room/room.go:181-489 | for every created room, whatever store calls fail and however often it is activated: replaying its journal gives exactly its rows, and a loaded activation caches exactly those members |
| `RoomRuns.ExactlyOneOwner` | internal/persistence/membership_repo.go:93-212 | every created room has exactly one owner at every moment |
| `RoomRuns.OwnerMovesByHandOver` | internal/grain/room/roles.go:86-137 | the owner changes only by a transfer that the owner of the moment requested |
| `RoomRuns.HandOverSucceedsIff` | internal/grain/room/roles.go:86-137 | a well-formed transfer succeeds if and only if the actor owns the room and the target belongs to it |
| `RoomRuns.CommandKeepsRoom` | internal/grain/room/room.go:290-593 | every command keeps the room consistent and is all or nothing: answered Ok it has journaled exactly its event, else rows, journal, cache, window and jobs are as they were |
| `RoomReplies.JoinExactly` | internal/grain/room/room.go:290-352 | a join succeeds exactly for a non-member, whose row is then that of a plain member |
| `RoomReplies.LeaveExactly` | internal/grain/room/room.go:357-422 | a leave succeeds exactly for a member who is not the owner |
| `RoomReplies.PostExactly` | internal/grain/room/room.go:493-593 | a valid post succeeds exactly for a member, is journaled with its text and refreshes the name |
| `RoomReplies.SetRoleExactly` | internal/grain/room/roles.go:21-80 | a role change succeeds exactly for "admin" or "member", by the owner or an admin, on a member who is not the owner, and writes that one row |
| `RoomReplies.HandOverExactly` | internal/grain/room/roles.go:86-137 | a hand-over succeeds exactly for the owner and a member, and writes those two rows |
| `RoomReplies.RowsMoveExactly` | internal/grain/room/membership.go:109-204 | rows appear as plain members by a join, vanish by the own leave of a non-owner, and change role only by such a role change or a hand-over |
| `RoomReplies.RowsMoveExactlyInRuns` | internal/grain/room/membership.go:109-204 | the same after every run of a created room |
| `RoomReplies.FaultExactly` | internal/grain/room/room.go:428-489 | a database failure shows exactly where the cache lets the command through to it |
| `RoomReplies.MalformedExactly` | internal/grain/room/room.go:290-593 | a command that does not parse is told so before any other check |
| `RoomReplies.UnloadedExactly` | internal/grain/room/room.go:290-593 | room-not-found is answered exactly by a grain that is not loaded |
| `RoomReplies.ActivationExactly` | internal/grain/room/room.go:181-273 | a loaded activation caches the names of its rows and starts with no window and no jobs |
| `RoomRuns.JobsMirrorJournal` | internal/grain/room/room.go:290-593 | an activation's fan-out jobs are one to one, in order, the events it journaled, each for the sorted audience the journal determines; the window holds the last 100 messages |
| `RoomRuns.EachRecipientOnce` | internal/grain/room/state.go:141-148 | a job lists every member of its audience exactly once and nobody else |
| `RoomRuns.RunJob` | internal/grain/room/fanout.go:96-124 | every recipient is attempted, in order, whichever calls fail |
| `RoomRuns.FailuresDoNotSpread` | internal/grain/room/fanout.go:96-124 | delivery reaches exactly the recipients whose own call did not fail |
| `RoomRuns.StepKeepsRoom` | internal/grain/room/room.go:181-593 | every command, activation and deactivation keeps store, cache, window and jobs in agreement |
| `RoomGrain.Grain.Init` | internal/grain/room/room.go:181-273 | hydration caches every row of an active room; an absent or inactive room stays unloaded; a failing load crashes the activation |
| `RoomGrain.Grain.MemberIDs` | internal/grain/room/state.go:141-148 | the sorted list of the member set, each once |
| `RoomGrain.Grain.Join` | internal/grain/room/room.go:290-352 | state and reply are those of the command's specification |
| `RoomGrain.Grain.Leave` | internal/grain/room/room.go:357-422 | likewise; recipients are taken before the removal |
| `RoomGrain.Grain.PostMessage` | internal/grain/room/room.go:493-593 | likewise, with the bounded window |
| `RoomGrain.Grain.SetMemberRole` | internal/grain/room/roles.go:21-80 | likewise, with the guards in their order |
| `RoomGrain.Grain.TransferOwnership` | internal/grain/room/roles.go:86-137 | likewise |
| `Membership.TransferIsAllOrNothing` | internal/persistence/membership_repo.go:172-212 | the statement applies both role writes or neither, and at most one owner exists before, between and after them |
| `Membership.TransferKeepsInv` | internal/grain/room/membership.go:184-204 | the transfer commits exactly when the actor is the owner and the target a member, and then the target alone owns the room |
| `Membership.JoinKeepsInv` | internal/grain/room/membership.go:109-155 | a committed join keeps the owner and the agreement of journal and rows |
| `Membership.LeaveKeepsInv` | internal/grain/room/membership.go:117-155 | so does a committed leave: the guarded delete never removes the owner |
| `Membership.RoleChangeKeepsInv` | internal/grain/room/membership.go:161-179 | so does a role change: the policy neither makes nor unmakes an owner |
| `Membership.FoundedInv` | internal/gateway/room_creation.go:74-117 | a fresh room has one row, its owner the creator, and one journal entry, that join |
| `Membership.RoomTable.CreateRoom` | internal/gateway/room_creation.go:74-117 | at most four transactions, retried only on a code collision, of which at most the last commits a founded room under an id not in use; a failure leaves no trace |
| `JoinedRooms.DisagreementIsUnsettled` | internal/grain/user/user.go:171-409 | over every run, with calls handled long after their caller gave up or rehydrated, the joined set is wrong only about rooms with a command still waiting or with no outcome-telling reply since the last lost one (or since their creation) |
| `JoinedRooms.WrongOnlyUnansweredIff` | internal/grain/user/user.go:315-409 | throughout a run the set is wrong only about rooms whose latest command got no reply (or that were only created), if and only if every answered command to a room it was wrong about met the pre-call condition Tells |
| `JoinedRooms.TellingRunsAreWrongOnlyUnanswered` | internal/grain/user/user.go:315-409 | if every answered command of a run met Tells when issued, that statement holds at its end |
| `JoinedRooms.AnsweredCommandSettles` | internal/grain/user/user.go:315-409 | an answered join or leave leaves projection and rows agreeing on the room, whatever the projection held before, if and only if Tells held before the call |
| `JoinedRooms.AnsweredErrorLeavesDisagreement` | internal/grain/user/user.go:373-409 | a run where the latest command was answered with a database error and the joined set is still wrong |
| `JoinedRooms.AnsweredOwnerLeavesDisagreement` | internal/grain/room/room.go:357-422 | a run without any failure or lost reply where the owner's leave is refused and the joined set is still wrong |
| `JoinedRooms.ReplyTellsTheTruth` | internal/grain/room/room.go:290-422 | the reply tells the outcome if and only if Tells held before the call; then it states the row as it is, and otherwise nothing changed |
| `JoinedRooms.MembershipMovesByCommand` | internal/grain/room/room.go:290-422 | a user's row appears or vanishes only by that user's own join or leave, answered Ok |
| `JoinedRooms.UserGrain.Hydrate` | internal/grain/user/user.go:171-188 | the joined set becomes exactly the user's rows |
| `JoinedRooms.UserGrain.JoinRoom` | internal/grain/user/user.go:315-369 | adds the room, and reports success, exactly on Ok or already-member with a room reference |
| `JoinedRooms.UserGrain.LeaveRoom` | internal/grain/user/user.go:373-409 | removes the room, and reports success, exactly on Ok or not-member |
| `Connection.SessionsAreWellFormed` | internal/actor/connection/connection.go:236-455 | in every run of mailbox and pump the frames form a prefix of `Ping* ([AuthFailed] Close or AuthOk body* Close)`, the queue holds at most 64, and nothing is written after the close frame |
| `Connection.ReceiveFits` | internal/actor/connection/connection.go:324-455 | every handler, in every phase, keeps the frames inside the grammar of its phase |
| `Deliveries.FramesMirrorMessages` | internal/actor/connection/connection.go:642-700 | over every run the chat and membership frames enqueued are, one to one and in order, the well-formed messages delivered after authentication while the queue had room |
| `Deliveries.SessionsSayWhatWasSent` | internal/actor/connection/connection.go:642-700 | so it is from the first message on |
| `Deliveries.PostAuthDelivers` | internal/actor/connection/connection.go:642-700 | a message gives the one frame that stands for it, a malformed or unknown one none |
| `Deliveries.PostAuthKeepsAlive` | internal/actor/connection/connection.go:418-437 | a tick gives a ping, a pong time-out closes, late auth and client errors are ignored |
| `Deliveries.PostAuthRepairs` | internal/actor/connection/connection.go:395-417 | a death notice or retry adopts, counts or closes, exactly when it is for the known PID and no repair is under way |
| `Deliveries.PreAuthAnswers` | internal/actor/connection/connection.go:324-368 | success is answered by one frame; rejection, time-out and violation by a notice and the close |
| `Deliveries.LastSlotGoesToTheNotice` | internal/actor/connection/connection.go:728-734 | with one slot left the notice is queued and the close stops the actor |
| `Deliveries.FullQueueStops` | internal/actor/connection/connection.go:715-722 | a frame that finds the queue full stops the actor and drops nothing from it |
| `Deliveries.ClosingDropsAll` | internal/actor/connection/connection.go:451-455 | a closing actor reacts to nothing but the end of its transport |
| `Connection.CloseEndsASession` | internal/actor/connection/connection.go:451-455 | in a legal prefix a close frame is the last frame |
| `Connection.RunWritePump` | internal/actor/connection/write_pump.go:21-69 | writes a prefix of what it receives, stops at the close frame, at the first failed write or on shutdown |
| `Connection.PumpStepsAreTheLoop` | internal/actor/connection/write_pump.go:21-69 | beside an actor that enqueues at any time, the pump's steps write exactly what that loop returns for all that was enqueued |
| `Connection.EveryRunFollows` | internal/actor/connection/write_pump.go:21-69 | every run of actor and pump goes by some script of failures and shutdown of that loop |
| `Connection.UserConnection.SendOutbound` | internal/actor/connection/connection.go:715-722 | appends, or on a full queue stops the actor |
| `Connection.UserConnection.StartClosing` | internal/actor/connection/connection.go:451-455 | queues the close frame before the phase changes |
| `Connection.UserConnection.RejectAuth` | internal/actor/connection/connection.go:324-361 | a best-effort auth-failed frame, then the close |
| `Connection.UserConnection.AttemptToReregister` | internal/actor/connection/reregister.go:70-128 | a failure counts and re-arms or closes at the third; a success adopts the PID, watches it and resets the count |
| `Connection.UserConnection.PreAuthBehavior` | internal/actor/connection/connection.go:324-368 | new state is that of the pre-auth specification |
| `Connection.UserConnection.PostAuthBehavior` | internal/actor/connection/connection.go:389-438 | new state is that of the post-auth specification |
| `Connection.UserConnection.ReceiveMessage` | internal/actor/connection/connection.go:236-306 | transport signals stop the actor, everything else goes to the behavior of the phase |
| `Watch.NoSilentGap` | internal/grain/user/user.go:241-310 | across any activation deaths, broken links, lost or late registrations and repeated notices, a post-auth connection with a known PID is registered with that live activation, or its death notice is on the way, or a retry is outstanding - in every orderly run: no fresh registration is handled while the eviction of that connection, and no further notice to it, is on its way |
| `Watch.HandlingIsSafeIff` | internal/grain/user/user.go:241-310 | when the grain handles a repair call, no orderly continuation leads to a gap for that connection if and only if no eviction of it is on its way or a further notice to it is |
| `Watch.DisorderlyRunHasGap` | internal/actor/connection/connection.go:395-413 | a run with one broken link whose eviction is handled late ends in a silent gap |
| `Watch.RetryBudget` | internal/actor/connection/reregister.go:70-119 | the retry count is 0, 1 or 2, positive exactly when one timer or tick is outstanding, and a repair cycle makes at most three calls |
| `Watch.CycleEnds` | internal/actor/connection/connection.go:395-417 | the third failed call closes; an earlier one leaves one tick; a success ends the cycle with the new PID |
| `Repairs.DeathIsRepaired` | internal/actor/connection/reregister.go:90-119 | a death notice, with a grain that answers, ends with the connection in the map of the live activation, knowing and watching it |
| `Repairs.RegistrationAdds` | internal/grain/user/user.go:277-310 | a registration adds the connection to the live activation - a fresh one if there is none - and keeps the others |
| `Repairs.AnswerIsAdopted` | internal/actor/connection/reregister.go:109-119 | an answered repair adopts and watches that activation with a new budget |
| `Repairs.NamelessAnswer` | internal/actor/connection/reregister.go:32-38 | an answer without a PID is a success that leaves none known |
| `Repairs.DeadAnswerIsTold` | internal/actor/connection/connection.go:395-417 | a watch on an activation that has died since is answered by its notice |
| `Repairs.FailureRetries` | internal/actor/connection/reregister.go:70-83 | a failure short of the third keeps the PID and arms one retry |
| `Repairs.DeathIsTold` | internal/grain/user/user.go:277-310 | every watching connection is told of a death once |
| `Repairs.EvictionRemoves` | internal/grain/user/user.go:241-259 | an eviction removes exactly that connection from exactly that activation |
| `Repairs.MessagesAreConsumed` | internal/actor/connection/connection.go:236-306 | a notice, tick or other message is delivered once, and does what the actor does with it |
| `Repairs.BrokenLinkTellsBoth` | internal/actor/connection/connection.go:403-409 | a broken link queues one notice to each end that watches the other, and takes a reply under way |
| `Watch.StepKeepsInv` | internal/actor/connection/reregister.go:70-128 | every step of connections, activations and notices keeps the watch invariant |
| `Heartbeat.New` | internal/actor/connection/heartbeat.go:27-35 | a cadence exists exactly when 0 < ping < pong |
| `Heartbeat.PunctualPeerSurvives` | internal/actor/connection/heartbeat.go:27-124 | for every cadence and every d: all peers that answer within d survive, if and only if d < pongTimeout - pingInterval, or d equals it and ties go to the pong |
| `Heartbeat.PromiseIsExact` | internal/actor/connection/connection.go:289-297 | the same for ticks handled up to any gap apart: safe if and only if gap + d stays below pongTimeout (or equals it without a tie) |
| `Heartbeat.LateAnswerTimesOut` | internal/actor/connection/heartbeat.go:89-114 | for every gap and time-out, a run with answers just over the bound that is timed out |
| `Heartbeat.SilentPeerTimesOutOnTime` | internal/actor/connection/heartbeat.go:89-114 | a silent peer is timed out exactly pongTimeout after its last pong, or after the first ping if it never answered |
| `Heartbeat.TimedOutIffLate` | internal/actor/connection/heartbeat.go:89-114 | a peer is timed out during a run if and only if some beat came too long after the last sign of life |
| `Heartbeat.TimeOutInstant` | internal/actor/connection/heartbeat.go:89-114 | the instant is pongTimeout after the last sign of life before the first late beat |
| `Heartbeat.WatchdogFollowsAnchor` | internal/actor/connection/heartbeat.go:89-105 | the watchdog is due pongTimeout after the last pong or the first ping |
| `Heartbeat.PingsDoNotExtend` | internal/actor/connection/heartbeat.go:89-94 | pings alone never move the deadline |
| `Heartbeat.Timers.Start` | internal/actor/connection/heartbeat.go:78-84 | starts the pings of an enabled cadence only |
| `Heartbeat.Timers.EnsureWatchdog` | internal/actor/connection/heartbeat.go:89-94 | arms a watchdog only when none is pending |
| `Heartbeat.Timers.ResetWatchdog` | internal/actor/connection/heartbeat.go:98-105 | re-arms it from now |
| `Heartbeat.Timers.CancelWatchdog` | internal/actor/connection/heartbeat.go:109-114 | disarms it and leaves the pings |
| `Heartbeat.Timers.Stop` | internal/actor/connection/heartbeat.go:118-124 | leaves no timer running |
| `Accounts.PendingIffChallenged` | internal/gateway/verification.go:48-98 | over every run of Register, Verify, Resend and Sweep an account is pending exactly when it has a challenge |
| `Accounts.GuessesAreBounded` | internal/persistence/verification_repo.go:77-148 | over every run in which at most k verifications of an account overlap, its answered wrong PINs never exceed (maxAttempts + k - 1) * (maxResends + 1), which for k = 1 is maxAttempts * (maxResends + 1) |
| `Accounts.ComparisonsAreAccountedFor` | internal/gateway/verification.go:73-84 | wrong PINs compared are those answered, those whose verification failed after comparing, and those under way, and so exceed the limit by at most the latter two |
| `Guesses.GuessLimitIsExact` | internal/gateway/verification.go:73-84 | with at most k overlapping, no account passes a limit if and only if the limit is at least that bound |
| `Guesses.LimitIsAttained` | internal/gateway/verification.go:73-84 | for every k and n a run that answers the whole bound and compares n wrong PINs beyond it |
| `Guesses.ComparisonsAreUnbounded` | internal/gateway/verification.go:79-82 | no number bounds the wrong PINs compared while writes can fail |
| `Accounts.ActiveAccountsStay` | internal/persistence/accountgc/sweep.go:56-92 | an active account is never swept, replaced or changed by any continuation |
| `Accounts.SweepIsExact` | internal/persistence/accountgc/sweep.go:56-92 | a sweep removes exactly the pending accounts whose challenge expired before the cutoff, each with its challenge |
| `Accounts.LockedUntilResend` | internal/gateway/verification.go:48-98 | a locked challenge accepts no PIN, and a resend reopens it for the new PIN |
| `Verdicts.VerifyExactly` | internal/gateway/verification.go:48-98 | an account is activated exactly for the PIN its open challenge stores; another submission costs one attempt and nothing else; a closed challenge answers nothing |
| `Verdicts.VerifyOtherwise` | internal/gateway/verification.go:48-98 | without a pending account nothing is verified, and a failure changes nothing |
| `Verdicts.BeginExactly` | internal/gateway/verification.go:55-79 | what is compared is the PIN submitted with the hash stored at that moment |
| `Verdicts.FinishExactly` | internal/gateway/verification.go:79-92 | the write costs one attempt of, or clears, the challenge stored by then, and changes nothing else |
| `Verdicts.ActivationNeedsThePin` | internal/gateway/verification.go:48-98 | over every run an account becomes active only if somebody submitted the PIN its challenge stored at that moment, unexpired and unlocked |
| `Verdicts.ResendExactly` | internal/persistence/verification_repo.go:112-148 | a PIN is re-issued exactly when the interval has passed and the budget is not spent, and what that stores |
| `Verdicts.ResendSilently` | internal/gateway/verification.go:105-138 | silence exactly for addresses without a pending account |
| `Verdicts.ResendsAreSpaced` | internal/persistence/verification_repo.go:112-148 | over every run an account's PINs are issued at least the minimum interval apart |
| `Verdicts.RegisterExactly` | internal/gateway/registration.go:133-208 | what a new, and a settled, address gets, and the error for each database outcome |
| `Verdicts.SweepExactly` | internal/persistence/accountgc/sweep.go:56-92 | swept are exactly pending accounts with a challenge expired before the cutoff; everything else is kept as it was |
| `Accounts.StepKeepsInv` | internal/gateway/registration.go:128-232 | every transaction, and each half of a verification, keeps accounts, challenges and the guess budget consistent |
| `Accounts.Service.Verify` | internal/gateway/verification.go:48-98 | tables and verdict are those of the verification transaction, failing before the comparison, after it, or not at all |
| `Accounts.Service.Resend` | internal/gateway/verification.go:105-138 | tables are those of the resend transaction, and a PIN is sent exactly when its hash was stored |
| `Accounts.Service.Sweep` | internal/persistence/accountgc/sweep.go:69-92 | the delete runs only under the lock, and the count is the number of accounts gone |
| `Registration.Call.RunWithRetry` | internal/gateway/registration.go:241-260 | at most collisionRetries + 2 transactions, one retried race, the reason the last one was the last; nothing committed before it, and the captured variables are those of that last run |
| `Registration.Call.Closure` | internal/gateway/registration.go:133-165 | the captured result, PIN and send flag after a run, and what a failing run leaves stale |
| `Registration.Call.WithinTx` | internal/gateway/registration.go:133-165 | a commit may fail after the closure has captured; only a commit adds to what is committed |
| `Registration.Call.Register` | internal/gateway/registration.go:128-176 | on success exactly one transaction of the call committed, and the captured PIN that is sent, once, is the one whose hash that transaction stored, whatever earlier runs captured; on failure nothing committed or sent |
| `Registration.CommitStoresPin` | internal/gateway/registration.go:180-232 | a committed registration stores the drawn PIN for a pending account with the code it reports |
| `Timeline.WalkIsExact` | internal/gateway/handler_room_events.go:168-172 | with any page sizes of at least 1 the walk returns the first read's history once, in descending order and nothing else, if and only if no read finds a new matching event below its place in that history, which the page sizes determine |
| `Timeline.UndisturbedIffQuiet` | internal/gateway/handler_room_events.go:168-172 | that condition on the input is the same as no read being disturbed below the cursor it was given |
| `Timeline.WalkReturnsTheHistory` | internal/persistence/timeline.go:88-114 | events appended above those present never disturb a walk |
| `Timeline.HistoryIsComplete` | internal/persistence/timeline.go:88-114 | over event tables that only grow, with a room's new events on top, the walk returns every matching event of the first table exactly once, newest first, and nothing else |
| `Timeline.HistoryIsExact` | internal/gateway/handler_room_events.go:168-172 | over any growing tables, exactly when no read finds a new matching event below its place in the first history |
| `Timeline.LaggingIdDisturbs` | docs/adr/adr-019-snowflake-ids-and-worker-lease-fencing.md:88-97 | two tables and a walk that returns an event minted below the newest one |
| `Timeline.WalkCovers` | internal/persistence/timeline.go:88-114 | however the table grows, a walk misses no matching event that a read had still below its cursor |
| `Timeline.FetchPage` | internal/persistence/timeline.go:102-114 | collecting and trimming limit + 1 rows gives the page and whether more follows |
| `Search.BuildStatement` | internal/persistence/timeline.go:88-100 | every placeholder names its own argument, and the statement admits exactly the room's events below the cursor that contain every term of the fragment |
| `Search.ReadTimeline` | internal/persistence/timeline.go:88-114 | against a database that answers statements, the page of matching events below the cursor |
| `Search.FullTextMeansTerms` | internal/persistence/timeline.go:95-98 | the full-text condition on the built query is containment of every term |
| `Timeline.PageIsAPrefix` | internal/gateway/handler_room_events.go:168-172 | a page is a prefix of what is left, has-more is exact, and the next cursor is its last event |
| `Timeline.ListingBelow` | internal/persistence/timeline.go:91-94 | the listing below a page's last event is the rest of the listing |
| `Timeline.ListingIsUnique` | internal/persistence/timeline.go:100-101 | the descending order of a set of ids is determined by the set |
| `Timeline.AppendingGrows` | internal/persistence/journal.go:31-108 | appended rows only add to what a query matches |
| `Escaping.ILikeMeansContains` | internal/persistence/room_repo.go:188-194 | for every fragment and name, matching the built pattern case-insensitively is literal containment of the folded fragment |
| `Escaping.LikeMeansContains` | internal/persistence/room_repo.go:188-194 | the same without folding |
| `Escaping.PatternIsWellFormed` | internal/persistence/room_repo.go:191-194 | no built pattern ends in a dangling escape |
| `Escaping.GroongaLiteralQuery` | internal/persistence/timeline.go:122-130 | the loop builds the query whose tokens are exactly the fragment's terms as phrases |
| `Escaping.QueryMeansEveryTerm` | internal/persistence/timeline.go:116-130 | a fragment can only mean that every one of its terms appears |
| `Escaping.TermsAreFields` | internal/persistence/timeline.go:124-124 | the terms are the maximal space-free runs of the fragment, in order, and nothing else |
| `Escaping.PhraseRoundTrip` | internal/persistence/timeline.go:123-128 | reading an escaped phrase gives the term back, whatever follows it |

## Left out

- Manager as an object: Start, beat, handleLoss, releaseAndClear and Stop are steps of the `Fleet` and `Lifecycle` state machines, because their point is how they interleave; a sequential class would lose that. The same holds for RegisterConnection and ReceiveDefault of the User grain in `Watch`.
- validateCadence: only `0 <= margin < ttl` matters for safety; the bound on the renew interval is about availability.
- Rates of clocks: a host's monotonic clock runs at the database's rate; drift within a lease is not modelled.
- Worker ids out of range from another LeaseStore (internal/persistence/workerlease/manager.go:245-252): the table never yields one.
- Commands of one user that overtake each other on their way to a Room: they are handled in sending order.
- Concurrent transactions other than verifications, row locks and PostgreSQL's isolation levels: those transactions are serial.
- The Room grain without a store (in-memory mode), room archiving, and more than one activation of an identity.
- Display names and public codes in room and user references, apart from being carried along.
- PID value comparison and parsing (samePID, grainPIDFromResponse): a PID is a number, and a reply may name none.
- Supervision of the fan-out child and the loss of its mailbox when an activation ends: a job is what was handed over, and `RoomRuns.RunJob` what one job does.
- A link that comes back with a reply it had on its way: `Watch` takes such a reply as lost.
- Connection timers inside `Watch`: a retry timer is an outstanding tick, without its delay. The auth timer is the message it sends.
- The write pump's skip of a message it cannot encode (no frame of this model is one), and whether the close frame itself reached the peer: it counts as written once the pump has tried.
- ListActive's ascending walk (internal/persistence/room_repo.go:160-186): the mirror image of the timeline walk.
- Groonga's normalisation and tokenisation of text, and Unicode case mapping beyond a character at a time.
- HTTP handlers, JSON, error-code mapping, JWT, password hashing, random codes, mail delivery, telemetry, configuration, and the terminal client: wiring or foreign libraries.
- Text value objects (names, handles, mail addresses, public codes): easy round trips over library tables.
- The maintenance grain's coalescing flag: one boolean.
