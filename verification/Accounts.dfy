/**
 * Registration, verification, resend and the sweeper: internal/gateway/registration.go and
 * verification.go, internal/persistence/verification_repo.go, internal/persistence/accountgc/sweep.go.
 *
 * The two tables they share, and each transaction as one atomic step on them - except Verify, which
 * reads the challenge, compares the PIN, and only then writes: other transactions, other
 * verifications among them, may come in between, and the write may fail. A PIN is a number and its
 * hash a constructor, so that matching a hash is an equality.
 */
module Accounts {
  import opened Options

  datatype Status = Pending | Active | Disabled

  datatype Account = Account(id: nat, code: nat, status: Status)

  datatype Hash = HashOf(pin: nat)

  datatype Challenge = Challenge(hash: Hash, expires: int, attempts: nat, resends: nat, lastSent: int)

  datatype Db = Db(users: map<string, Account>, challenges: map<nat, Challenge>)

  datatype Policy = Policy(pinTTL: int, minInterval: int, maxResends: nat, maxAttempts: nat, collisionRetries: nat)

  /** What an insert may run into, decided by the database. */
  datatype Trouble = NoTrouble | MailRace | CodeCollision | HandleTaken | Fault

  datatype Error =
    | MailAddressTaken
    | InsertRace
    | PublicCodeCollision
    | HandleIsTaken
    | RateLimited
    | NotFound
    | Infrastructure

  /** The result of a transaction that issues a PIN: the new tables and the account's public code. */
  datatype Issue = Committed(db: Db, code: nat) | Aborted(error: Error)

  /** The inputs one run of an issuing transaction draws: clock, random PIN, minted id and code, database luck. */
  datatype Draw = Draw(now: int, pin: nat, id: nat, code: nat, trouble: Trouble)

  /** The conditional UPDATE: the resend budget is part of its WHERE clause. */
  predicate MayResend(p: Policy, c: Challenge, now: int) {
    c.lastSent <= now - p.minInterval && c.resends < p.maxResends
  }

  function ResendPending(db: Db, p: Policy, a: Account, d: Draw): Issue {
    if a.id !in db.challenges then Aborted(NotFound)
    else
      var c := db.challenges[a.id];
      if !MayResend(p, c, d.now) then Aborted(RateLimited)
      else Committed(db.(challenges := db.challenges[a.id :=
             Challenge(HashOf(d.pin), d.now + p.pinTTL, 0, c.resends + 1, d.now)]), a.code)
  }

  function CreatePending(db: Db, p: Policy, mail: string, d: Draw): Issue {
    match d.trouble
    case MailRace => Aborted(InsertRace)
    case CodeCollision => Aborted(PublicCodeCollision)
    case HandleTaken => Aborted(HandleIsTaken)
    case Fault => Aborted(Infrastructure)
    case NoTrouble =>
      if d.id in db.challenges then Aborted(Infrastructure)
      else Committed(Db(db.users[mail := Account(d.id, d.code, Pending)],
                        db.challenges[d.id := Challenge(HashOf(d.pin), d.now + p.pinTTL, 0, 0, d.now)]), d.code)
  }

  /** The closure Register runs in a transaction. */
  function RegisterTx(db: Db, p: Policy, mail: string, d: Draw): Issue {
    if mail in db.users then
      if !db.users[mail].status.Pending? then Aborted(MailAddressTaken)
      else if d.trouble.Fault? then Aborted(Infrastructure)
      else ResendPending(db, p, db.users[mail], d)
    else CreatePending(db, p, mail, d)
  }

  /** The explicit resend: None when there is nothing to send, silently. */
  function ResendTx(db: Db, p: Policy, mail: string, d: Draw): Option<Issue> {
    if d.trouble.Fault? then Some(Aborted(Infrastructure))
    else if mail !in db.users || !db.users[mail].status.Pending? then None
    else Some(ResendPending(db, p, db.users[mail], d))
  }

  datatype Verdict = Activated | Invalid | WrongPin | Errored

  /** A verification between its comparison and its write: it found a wrong PIN, or the right one. */
  datatype Flight = WrongFor(id: nat) | RightFor(mail: string, id: nat)

  /**
   * The reads of Verify and the comparison, if it comes to one; `pin` is None when the submitted text
   * is not a PIN at all.
   */
  function VerifyRead(db: Db, p: Policy, mail: string, pin: Option<nat>, now: int): Option<Flight> {
    if mail !in db.users || !db.users[mail].status.Pending? then None
    else
      var id := db.users[mail].id;
      if id !in db.challenges then None
      else
        var c := db.challenges[id];
        if c.attempts >= p.maxAttempts || now >= c.expires then None
        else if pin.None? || c.hash != HashOf(pin.value) then Some(WrongFor(id))
        else Some(RightFor(mail, id))
  }

  /** The writes of Verify on the tables of a later moment; None when a row they need is gone. */
  function VerifyWrite(db: Db, f: Flight): Option<Db> {
    match f
    case WrongFor(id) =>
      if id !in db.challenges then None
      else
        var c := db.challenges[id];
        Some(db.(challenges := db.challenges[id := c.(attempts := c.attempts + 1)]))
    case RightFor(mail, id) =>
      if mail !in db.users || db.users[mail].id != id || id !in db.challenges then None
      else Some(Db(db.users[mail := db.users[mail].(status := Active)], db.challenges - {id}))
  }

  /** Where a verification fails, if the database fails it. */
  datatype Failure = NoFailure | BeforeComparing | AfterComparing

  /** A verification that nothing comes in between. */
  function VerifyTx(db: Db, p: Policy, mail: string, pin: Option<nat>, now: int, failure: Failure): (Db, Verdict) {
    if failure.BeforeComparing? then (db, Errored)
    else match VerifyRead(db, p, mail, pin, now)
      case None => (db, Invalid)
      case Some(f) =>
        if failure.AfterComparing? || VerifyWrite(db, f).None? then (db, Errored)
        else (VerifyWrite(db, f).value, if f.RightFor? then Activated else WrongPin)
  }

  /** The sweep's DELETE condition for one account. */
  predicate Abandoned(db: Db, a: Account, cutoff: int) {
    a.status.Pending? && a.id in db.challenges && db.challenges[a.id].expires < cutoff
  }

  /** The delete, with the challenge rows that cascade from it. */
  function SweepTx(db: Db, cutoff: int): Db {
    var gone := set m | m in db.users && Abandoned(db, db.users[m], cutoff) :: db.users[m].id;
    Db(map m | m in db.users && !Abandoned(db, db.users[m], cutoff) :: db.users[m], db.challenges - gone)
  }

  // ---- Runs ----

  /**
   * `ids` are all ids ever used; `flights` the verifications under way. The rest counts wrong PINs per
   * account id: those ever compared, those answered, and those whose verification then failed.
   */
  datatype World = World(
    db: Db,
    ids: set<nat>,
    flights: multiset<Flight>,
    compared: multiset<nat>,
    answered: multiset<nat>,
    lost: multiset<nat>)

  datatype Action =
    | Register(mail: string, draw: Draw)
    | BeginVerify(mail: string, pin: Option<nat>, now: int)
    | FinishVerify(flight: Flight, fails: bool)
    | Resend(mail: string, draw: Draw)
    | Sweep(now: int, grace: nat, locked: bool)

  /** Minted ids are fresh (see module FleetIds). */
  predicate CanAct(w: World, a: Action) {
    match a
    case Register(_, d) => d.id !in w.ids
    case FinishVerify(f, _) => w.flights[f] > 0
    case _ => true
  }

  function Begun(w: World, f: Flight): World {
    w.(flights := w.flights + multiset{f}, compared := if f.WrongFor? then w.compared + multiset{f.id} else w.compared)
  }

  function Finished(w: World, f: Flight, fails: bool): World {
    var landed := w.(flights := w.flights - multiset{f});
    if fails || VerifyWrite(w.db, f).None?
    then landed.(lost := if f.WrongFor? then w.lost + multiset{f.id} else w.lost)
    else landed.(db := VerifyWrite(w.db, f).value,
                 answered := if f.WrongFor? then w.answered + multiset{f.id} else w.answered)
  }

  function Next(w: World, p: Policy, a: Action): World {
    match a
    case Register(mail, d) =>
      (match RegisterTx(w.db, p, mail, d)
       case Committed(db, _) => w.(db := db, ids := w.ids + {d.id})
       case Aborted(_) => w.(ids := w.ids + {d.id}))
    case BeginVerify(mail, pin, now) =>
      (match VerifyRead(w.db, p, mail, pin, now)
       case None => w
       case Some(f) => Begun(w, f))
    case FinishVerify(f, fails) => Finished(w, f, fails)
    case Resend(mail, d) =>
      (match ResendTx(w.db, p, mail, d)
       case Some(Committed(db, _)) => w.(db := db)
       case _ => w)
    case Sweep(now, grace, locked) => if locked then w.(db := SweepTx(w.db, now - grace)) else w
  }

  predicate CanRun(w: World, p: Policy, acts: seq<Action>)
    decreases |acts|
  {
    acts == [] || (CanAct(w, acts[0]) && CanRun(Next(w, p, acts[0]), p, acts[1..]))
  }

  function Run(w: World, p: Policy, acts: seq<Action>): World
    decreases |acts|
  {
    if acts == [] then w else Run(Next(w, p, acts[0]), p, acts[1..])
  }

  /** Accounts that did not come from registration: none of them pending. */
  ghost predicate IsSeed(w: World) {
    && w.db.challenges == map[] && w.flights == multiset{}
    && w.compared == multiset{} && w.answered == multiset{} && w.lost == multiset{}
    && (forall m :: m in w.db.users ==> !w.db.users[m].status.Pending? && w.db.users[m].id in w.ids)
    && (forall m, n :: m in w.db.users && n in w.db.users && w.db.users[m].id == w.db.users[n].id ==> m == n)
  }

  // ---- The tables, in every run ----

  ghost predicate Matched(w: World) {
    && TablesOk(w.db, w.ids)
    && (forall i :: w.flights[WrongFor(i)] > 0 || w.answered[i] > 0 ==> i in w.ids)
  }

  /** The part of Matched that speaks of the tables and the ids in use. */
  ghost predicate TablesOk(db: Db, ids: set<nat>) {
    && (forall m :: m in db.users ==> db.users[m].id in ids)
    && (forall m, n :: m in db.users && n in db.users && db.users[m].id == db.users[n].id ==> m == n)
    && (forall m :: m in db.users ==> (db.users[m].status.Pending? <==> db.users[m].id in db.challenges))
    && (forall i :: i in db.challenges ==> i in ids)
  }

  lemma RegisterKeepsTables(db: Db, ids: set<nat>, p: Policy, mail: string, d: Draw)
    requires TablesOk(db, ids) && d.id !in ids
    ensures RegisterTx(db, p, mail, d).Committed? ==> TablesOk(RegisterTx(db, p, mail, d).db, ids + {d.id})
  {
  }

  lemma ResendKeepsTables(db: Db, ids: set<nat>, p: Policy, a: Account, d: Draw)
    requires TablesOk(db, ids)
    ensures ResendPending(db, p, a, d).Committed? ==> TablesOk(ResendPending(db, p, a, d).db, ids)
  {
  }

  lemma WriteKeepsTables(db: Db, ids: set<nat>, f: Flight)
    requires TablesOk(db, ids)
    ensures VerifyWrite(db, f).Some? ==> TablesOk(VerifyWrite(db, f).value, ids)
  {
  }

  lemma SweepKeepsTables(db: Db, ids: set<nat>, cutoff: int)
    requires TablesOk(db, ids)
    ensures TablesOk(SweepTx(db, cutoff), ids)
  {
  }

  lemma StepKeepsMatched(w: World, p: Policy, a: Action)
    requires Matched(w) && CanAct(w, a)
    ensures Matched(Next(w, p, a))
  {
    match a {
      case Register(mail, d) => RegisterKeepsTables(w.db, w.ids, p, mail, d);
      case BeginVerify(mail, pin, now) =>
      case FinishVerify(f, fails) => WriteKeepsTables(w.db, w.ids, f);
      case Resend(mail, d) => if mail in w.db.users { ResendKeepsTables(w.db, w.ids, p, w.db.users[mail], d); }
      case Sweep(now, grace, locked) => SweepKeepsTables(w.db, w.ids, now - grace);
    }
  }

  lemma {:induction false} RunKeepsMatched(w: World, p: Policy, acts: seq<Action>)
    requires Matched(w) && CanRun(w, p, acts)
    ensures Matched(Run(w, p, acts))
    decreases |acts|
  {
    if acts != [] {
      StepKeepsMatched(w, p, acts[0]);
      RunKeepsMatched(Next(w, p, acts[0]), p, acts[1..]);
    }
  }

  /** Over every run an account is pending exactly when it has a challenge. */
  lemma PendingIffChallenged(w: World, p: Policy, acts: seq<Action>, mail: string)
    requires IsSeed(w) && CanRun(w, p, acts) && mail in Run(w, p, acts).db.users
    ensures var db := Run(w, p, acts).db; db.users[mail].status.Pending? <==> db.users[mail].id in db.challenges
  {
    RunKeepsMatched(w, p, acts);
  }

  predicate Balanced(w: World, id: nat) {
    w.compared[id] == w.answered[id] + w.lost[id] + w.flights[WrongFor(id)]
  }

  lemma BegunIsBalanced(w: World, f: Flight, id: nat)
    requires Balanced(w, id)
    ensures Balanced(Begun(w, f), id)
  {
  }

  lemma FinishedIsBalanced(w: World, f: Flight, fails: bool, id: nat)
    requires Balanced(w, id) && w.flights[f] > 0
    ensures Balanced(Finished(w, f, fails), id)
  {
  }

  /** Only the two halves of a verification touch the counts. */
  lemma OthersKeepCounts(w: World, p: Policy, a: Action)
    requires a.Register? || a.Resend? || a.Sweep?
    ensures var w' := Next(w, p, a);
            w'.flights == w.flights && w'.compared == w.compared && w'.answered == w.answered && w'.lost == w.lost
  {
  }

  lemma StepKeepsBalance(w: World, p: Policy, a: Action, id: nat)
    requires Balanced(w, id) && CanAct(w, a)
    ensures Balanced(Next(w, p, a), id)
  {
    if a.BeginVerify? {
      var read := VerifyRead(w.db, p, a.mail, a.pin, a.now);
      if read.Some? {
        BegunIsBalanced(w, read.value, id);
      }
    } else if a.FinishVerify? {
      FinishedIsBalanced(w, a.flight, a.fails, id);
    } else {
      OthersKeepCounts(w, p, a);
    }
  }

  lemma {:induction false} RunKeepsBalance(w: World, p: Policy, acts: seq<Action>, id: nat)
    requires Balanced(w, id) && CanRun(w, p, acts)
    ensures Balanced(Run(w, p, acts), id)
    decreases |acts|
  {
    if acts != [] {
      StepKeepsBalance(w, p, acts[0], id);
      RunKeepsBalance(Next(w, p, acts[0]), p, acts[1..], id);
    }
  }

  // ---- How many wrong PINs ----

  /** In every state of the run at most k wrong PINs of one account are between comparison and write. */
  ghost predicate Overlapping(w: World, p: Policy, k: nat, acts: seq<Action>)
    decreases |acts|
  {
    && (forall i :: w.flights[WrongFor(i)] <= k)
    && (acts == [] || Overlapping(Next(w, p, acts[0]), p, k, acts[1..]))
  }

  /** What one issued PIN can cost: the k-th overlapping guess may start just before the lock. */
  function PerPin(p: Policy, k: nat): nat {
    if p.maxAttempts == 0 || k == 0 then 0 else p.maxAttempts + k - 1
  }

  function GuessLimit(p: Policy, k: nat): nat {
    PerPin(p, k) * (p.maxResends + 1)
  }

  /** The answered guesses of an account are paid for by its resends and its current attempts. */
  predicate PaidFor(w: World, p: Policy, k: nat, i: nat) {
    if i in w.db.challenges then
      var c := w.db.challenges[i];
      && c.attempts + w.flights[WrongFor(i)] <= PerPin(p, k) && c.resends <= p.maxResends
      && w.answered[i] <= PerPin(p, k) * c.resends + c.attempts
    else w.answered[i] <= GuessLimit(p, k)
  }

  ghost predicate Inv(w: World, p: Policy, k: nat) {
    Matched(w) && forall i :: PaidFor(w, p, k, i)
  }

  lemma Budget(cap: nat, resends: nat, maxResends: nat, attempts: nat, answered: nat)
    requires attempts <= cap && resends <= maxResends && answered <= cap * resends + attempts
    ensures answered <= cap * (resends + 1) <= cap * (maxResends + 1)
  {
    assert cap * (resends + 1) == cap * resends + cap;
    assert cap * (resends + 1) <= cap * (maxResends + 1);
  }

  lemma ChallengedIsWithinLimit(w: World, p: Policy, k: nat, i: nat)
    requires PaidFor(w, p, k, i) && i in w.db.challenges
    ensures w.answered[i] <= PerPin(p, k) * (w.db.challenges[i].resends + 1)
    ensures w.answered[i] <= GuessLimit(p, k)
  {
    var c := w.db.challenges[i];
    Budget(PerPin(p, k), c.resends, p.maxResends, c.attempts, w.answered[i]);
  }

  lemma RegisterPays(w: World, p: Policy, k: nat, mail: string, d: Draw, i: nat)
    requires Matched(w) && CanAct(w, Register(mail, d)) && PaidFor(w, p, k, i)
    ensures PaidFor(Next(w, p, Register(mail, d)), p, k, i)
  {
    if i in w.db.challenges {
      ChallengedIsWithinLimit(w, p, k, i);
    }
  }

  lemma ResendPays(w: World, p: Policy, k: nat, mail: string, d: Draw, i: nat)
    requires PaidFor(w, p, k, i)
    ensures PaidFor(Next(w, p, Resend(mail, d)), p, k, i)
  {
    if i in w.db.challenges {
      ChallengedIsWithinLimit(w, p, k, i);
    }
  }

  lemma BeginPays(w: World, p: Policy, k: nat, mail: string, pin: Option<nat>, now: int, i: nat)
    requires PaidFor(w, p, k, i)
    requires Next(w, p, BeginVerify(mail, pin, now)).flights[WrongFor(i)] <= k
    ensures PaidFor(Next(w, p, BeginVerify(mail, pin, now)), p, k, i)
  {
  }

  lemma FinishPays(w: World, p: Policy, k: nat, f: Flight, fails: bool, i: nat)
    requires w.flights[f] > 0 && PaidFor(w, p, k, i)
    ensures PaidFor(Finished(w, f, fails), p, k, i)
  {
    if i in w.db.challenges {
      ChallengedIsWithinLimit(w, p, k, i);
    }
  }

  lemma SweepPays(w: World, p: Policy, k: nat, cutoff: int, i: nat)
    requires PaidFor(w, p, k, i)
    ensures PaidFor(w.(db := SweepTx(w.db, cutoff)), p, k, i)
  {
    if i in w.db.challenges {
      ChallengedIsWithinLimit(w, p, k, i);
    }
  }

  lemma StepKeepsInv(w: World, p: Policy, k: nat, a: Action)
    requires Inv(w, p, k) && CanAct(w, a) && forall i :: Next(w, p, a).flights[WrongFor(i)] <= k
    ensures Inv(Next(w, p, a), p, k)
  {
    StepKeepsMatched(w, p, a);
    forall i ensures PaidFor(Next(w, p, a), p, k, i) {
      assert PaidFor(w, p, k, i);
      match a {
        case Register(mail, d) => RegisterPays(w, p, k, mail, d, i);
        case BeginVerify(mail, pin, now) => BeginPays(w, p, k, mail, pin, now, i);
        case FinishVerify(f, fails) => FinishPays(w, p, k, f, fails, i);
        case Resend(mail, d) => ResendPays(w, p, k, mail, d, i);
        case Sweep(now, grace, locked) => SweepPays(w, p, k, now - grace, i);
      }
    }
  }

  lemma {:induction false} RunKeepsInv(w: World, p: Policy, k: nat, acts: seq<Action>)
    requires Inv(w, p, k) && CanRun(w, p, acts) && Overlapping(w, p, k, acts)
    ensures Inv(Run(w, p, acts), p, k)
    decreases |acts|
  {
    if acts != [] {
      StepKeepsInv(w, p, k, acts[0]);
      RunKeepsInv(Next(w, p, acts[0]), p, k, acts[1..]);
    }
  }

  /**
   * Over every run in which at most k guesses at one account overlap, those answered stay within
   * (maxAttempts + k - 1) * (maxResends + 1); without overlap, within maxAttempts * (maxResends + 1).
   */
  lemma GuessesAreBounded(w: World, p: Policy, k: nat, acts: seq<Action>, id: nat)
    requires IsSeed(w) && CanRun(w, p, acts) && Overlapping(w, p, k, acts)
    ensures Run(w, p, acts).answered[id] <= GuessLimit(p, k)
    ensures k == 1 ==> GuessLimit(p, k) == p.maxAttempts * (p.maxResends + 1)
  {
    RunKeepsInv(w, p, k, acts);
    var w' := Run(w, p, acts);
    assert PaidFor(w', p, k, id);
    if id in w'.db.challenges {
      ChallengedIsWithinLimit(w', p, k, id);
    }
  }

  /**
   * A wrong PIN is compared before it is counted: those ever compared exceed the answered ones by
   * exactly the verifications that failed after comparing and those still under way.
   */
  lemma ComparisonsAreAccountedFor(w: World, p: Policy, k: nat, acts: seq<Action>, id: nat)
    requires IsSeed(w) && CanRun(w, p, acts) && Overlapping(w, p, k, acts)
    ensures var w' := Run(w, p, acts);
            && w'.compared[id] == w'.answered[id] + w'.lost[id] + w'.flights[WrongFor(id)]
            && w'.compared[id] <= GuessLimit(p, k) + w'.lost[id] + k
  {
    GuessesAreBounded(w, p, k, acts, id);
    RunKeepsBalance(w, p, acts, id);
    OverlapAtTheEnd(w, p, k, acts);
  }

  lemma {:induction false} OverlapAtTheEnd(w: World, p: Policy, k: nat, acts: seq<Action>)
    requires Overlapping(w, p, k, acts)
    ensures forall i :: Run(w, p, acts).flights[WrongFor(i)] <= k
    decreases |acts|
  {
    if acts != [] {
      OverlapAtTheEnd(Next(w, p, acts[0]), p, k, acts[1..]);
    }
  }

  // ---- The theorems about accounts ----

  predicate IsActive(db: Db, mail: string) {
    mail in db.users && db.users[mail].status.Active?
  }

  /** From db to db' the account of this address is there and unchanged. */
  predicate Stays(db: Db, db': Db, mail: string)
    requires mail in db.users
  {
    mail in db'.users && db'.users[mail] == db.users[mail]
  }

  lemma ActiveStaysOnIssue(db: Db, p: Policy, mail: string, m: string, d: Draw)
    requires IsActive(db, mail)
    ensures RegisterTx(db, p, m, d).Committed? ==> Stays(db, RegisterTx(db, p, m, d).db, mail)
  {
    assert RegisterTx(db, p, m, d).Committed? && m in db.users ==> m != mail;
  }

  lemma ActiveStaysOnVerify(db: Db, mail: string, f: Flight)
    requires IsActive(db, mail)
    ensures VerifyWrite(db, f).Some? ==> Stays(db, VerifyWrite(db, f).value, mail)
  {
  }

  lemma ActiveStaysOnSweep(db: Db, mail: string, cutoff: int)
    requires IsActive(db, mail)
    ensures Stays(db, SweepTx(db, cutoff), mail)
  {
    assert !Abandoned(db, db.users[mail], cutoff);
  }

  lemma ActiveStepsStay(w: World, p: Policy, a: Action, mail: string)
    requires IsActive(w.db, mail)
    ensures Stays(w.db, Next(w, p, a).db, mail)
  {
    match a {
      case Register(m, d) => ActiveStaysOnIssue(w.db, p, mail, m, d);
      case BeginVerify(m, pin, now) =>
      case FinishVerify(f, fails) => ActiveStaysOnVerify(w.db, mail, f);
      case Resend(m, d) =>
      case Sweep(now, grace, locked) => ActiveStaysOnSweep(w.db, mail, now - grace);
    }
  }

  /** An active account is never swept, replaced or demoted, in any continuation. */
  lemma {:induction false} ActiveAccountsStay(w: World, p: Policy, acts: seq<Action>, mail: string)
    requires mail in w.db.users && w.db.users[mail].status.Active?
    ensures var db := Run(w, p, acts).db; mail in db.users && db.users[mail] == w.db.users[mail]
    decreases |acts|
  {
    if acts != [] {
      ActiveStepsStay(w, p, acts[0], mail);
      ActiveAccountsStay(Next(w, p, acts[0]), p, acts[1..], mail);
    }
  }

  /** A sweep removes exactly the accounts whose challenge expired before the cutoff, each with its challenge. */
  lemma SweepIsExact(w: World, cutoff: int, mail: string)
    requires Matched(w) && mail in w.db.users
    ensures var db := SweepTx(w.db, cutoff);
            && (mail in db.users <==> !Abandoned(w.db, w.db.users[mail], cutoff))
            && (mail in db.users ==> db.users[mail] == w.db.users[mail])
            && (w.db.users[mail].id in w.db.challenges ==>
                  (w.db.users[mail].id in db.challenges <==> mail in db.users))
  {
  }

  /** A locked challenge accepts nothing until a resend: neither a right nor a wrong PIN changes anything. */
  lemma LockedUntilResend(db: Db, p: Policy, mail: string, pin: Option<nat>, now: int, d: Draw)
    requires mail in db.users && db.users[mail].status.Pending? && db.users[mail].id in db.challenges
    requires db.challenges[db.users[mail].id].attempts >= p.maxAttempts
    ensures VerifyTx(db, p, mail, pin, now, NoFailure) == (db, Invalid)
    ensures var r := ResendTx(db, p, mail, d);
            r.Some? && r.value.Committed? && 0 < p.maxAttempts && d.now < d.now + p.pinTTL ==>
              VerifyTx(r.value.db, p, mail, Some(d.pin), d.now, NoFailure).1.Activated?
  {
  }

  // ---- The services ----

  class Service {
    var users: map<string, Account>
    var challenges: map<nat, Challenge>
    const policy: Policy

    function View(): Db
      reads this
    {
      Db(users, challenges)
    }

    /** The closure, which may fail at its reads, or at its writes or its commit. */
    method Verify(mail: string, pin: Option<nat>, now: int, failure: Failure) returns (verdict: Verdict)
      modifies this
      ensures (View(), verdict) == VerifyTx(old(View()), policy, mail, pin, now, failure)
    {
      if failure.BeforeComparing? {
        return Errored;
      }
      if mail !in users || !users[mail].status.Pending? {
        return Invalid;
      }
      var a := users[mail];
      if a.id !in challenges {
        return Invalid;
      }
      var c := challenges[a.id];
      if c.attempts >= policy.maxAttempts {
        return Invalid;
      }
      if now >= c.expires {
        return Invalid;
      }
      if failure.AfterComparing? {
        return Errored;
      }
      if pin.None? || c.hash != HashOf(pin.value) {
        challenges := challenges[a.id := c.(attempts := c.attempts + 1)];
        return WrongPin;
      }
      users := users[mail := a.(status := Active)];
      challenges := challenges - {a.id};
      verdict := Activated;
    }

    /** Returns the PIN to deliver once the transaction has committed, if there is one. */
    method Resend(mail: string, d: Draw) returns (sent: Option<nat>, error: Option<Error>)
      modifies this
      ensures sent.Some? ==> error.None? && sent.value == d.pin && mail in users && users[mail].id in challenges
                             && challenges[users[mail].id].hash == HashOf(sent.value)
      ensures match ResendTx(old(View()), policy, mail, d)
              case None => View() == old(View()) && sent.None? && error.None?
              case Some(Aborted(e)) => View() == old(View()) && sent.None? && error == Some(e)
              case Some(Committed(db, _)) => View() == db && sent.Some?
    {
      if d.trouble.Fault? {
        return None, Some(Infrastructure);
      }
      if mail !in users || !users[mail].status.Pending? {
        return None, None;
      }
      var issue := ResendPending(View(), policy, users[mail], d);
      if issue.Aborted? {
        return None, Some(issue.error);
      }
      challenges := issue.db.challenges;
      return Some(d.pin), None;
    }

    /** `locked` is whether the advisory lock was obtained. */
    method Sweep(now: int, grace: nat, locked: bool) returns (deleted: nat)
      modifies this
      ensures View() == if locked then SweepTx(old(View()), now - grace) else old(View())
      ensures deleted == |old(users)| - |users|
    {
      if !locked {
        return 0;
      }
      var swept := SweepTx(View(), now - grace);
      CardinalityOfPart(swept.users.Keys, users.Keys);
      deleted := |users| - |swept.users|;
      users, challenges := swept.users, swept.challenges;
    }
  }

  lemma CardinalityOfPart(part: set<string>, whole: set<string>)
    requires part <= whole
    ensures |part| <= |whole|
  {
    assert whole == part + (whole - part);
  }
}
