/**
 * What Register, Verify, Resend and Sweep answer and do, exactly, and how an account comes to be
 * active in any run of module Accounts.
 */
module Verdicts {
  import opened Options
  import opened Accounts

  /** The challenge of a pending account. */
  predicate Challenged(db: Db, mail: string, c: Challenge) {
    && mail in db.users && db.users[mail].status.Pending?
    && db.users[mail].id in db.challenges && db.challenges[db.users[mail].id] == c
  }

  /** A challenge that may still be answered: not locked, not expired. */
  predicate Open(p: Policy, c: Challenge, now: int) {
    c.attempts < p.maxAttempts && now < c.expires
  }

  /** The challenge after one more wrong PIN. */
  function OneMore(c: Challenge): Challenge {
    Challenge(c.hash, c.expires, c.attempts + 1, c.resends, c.lastSent)
  }

  // ---- Verify ----

  /**
   * The account becomes active exactly for the PIN that an open challenge stores; any other submission
   * to an open challenge costs one attempt and changes nothing else; a closed one answers nothing.
   */
  lemma VerifyExactly(db: Db, p: Policy, mail: string, c: Challenge, pin: Option<nat>, now: int)
    requires Challenged(db, mail, c)
    ensures var (db', verdict) := VerifyTx(db, p, mail, pin, now, NoFailure);
            var id := db.users[mail].id;
            && (verdict.Activated? <==> Open(p, c, now) && pin.Some? && c.hash == HashOf(pin.value))
            && (verdict.WrongPin? <==> Open(p, c, now) && (pin.None? || c.hash != HashOf(pin.value)))
            && (verdict.Invalid? <==> !Open(p, c, now))
            && db' == match verdict
                      case Activated =>
                        Db(db.users[mail := Account(id, db.users[mail].code, Active)], db.challenges - {id})
                      case WrongPin =>
                        Db(db.users, db.challenges[id := OneMore(c)])
                      case _ => db
  {
  }

  /** Without a pending account and its challenge there is nothing to verify, and a failure changes nothing. */
  lemma VerifyOtherwise(db: Db, p: Policy, mail: string, pin: Option<nat>, now: int, failure: Failure)
    ensures !failure.NoFailure? ==> VerifyTx(db, p, mail, pin, now, failure).0 == db
    ensures failure.BeforeComparing? ==> VerifyTx(db, p, mail, pin, now, failure).1.Errored?
    ensures failure.NoFailure? && (mail !in db.users || !db.users[mail].status.Pending?) ==>
              VerifyTx(db, p, mail, pin, now, failure) == (db, Invalid)
  {
  }

  // ---- Issuing PINs ----

  /** The resend budget and the interval between two PINs. */
  predicate Due(p: Policy, c: Challenge, now: int) {
    c.lastSent + p.minInterval <= now && c.resends < p.maxResends
  }

  /** A challenge as it stands when a PIN is issued at `now`. */
  function Fresh(p: Policy, pin: nat, now: int, resends: nat): Challenge {
    Challenge(HashOf(pin), now + p.pinTTL, 0, resends, now)
  }

  /** A pending account gets a new PIN exactly when one is due; that clears the attempts and spends a resend. */
  lemma ResendExactly(db: Db, p: Policy, mail: string, c: Challenge, d: Draw)
    requires Challenged(db, mail, c) && !d.trouble.Fault?
    ensures ResendTx(db, p, mail, d) == Some(
              if Due(p, c, d.now)
              then Committed(Db(db.users, db.challenges[db.users[mail].id := Fresh(p, d.pin, d.now, c.resends + 1)]),
                             db.users[mail].code)
              else Aborted(RateLimited))
    ensures RegisterTx(db, p, mail, d) == ResendTx(db, p, mail, d).value
  {
  }

  /** Any other address is answered by silence. */
  lemma ResendSilently(db: Db, p: Policy, mail: string, d: Draw)
    requires !d.trouble.Fault?
    ensures ResendTx(db, p, mail, d) == None <==> mail !in db.users || !db.users[mail].status.Pending?
  {
  }

  /** A new address becomes a pending account with its first challenge; a settled one is refused. */
  lemma RegisterExactly(db: Db, p: Policy, mail: string, d: Draw)
    requires d.id !in db.challenges
    ensures mail in db.users && !db.users[mail].status.Pending? ==>
              RegisterTx(db, p, mail, d) == Aborted(MailAddressTaken)
    ensures mail !in db.users && d.trouble.NoTrouble? ==>
              RegisterTx(db, p, mail, d) == Committed(
                Db(db.users[mail := Account(d.id, d.code, Pending)], db.challenges[d.id := Fresh(p, d.pin, d.now, 0)]),
                d.code)
    ensures mail !in db.users && !d.trouble.NoTrouble? ==>
              RegisterTx(db, p, mail, d) == Aborted(
                match d.trouble
                case MailRace => InsertRace
                case CodeCollision => PublicCodeCollision
                case HandleTaken => HandleIsTaken
                case _ => Infrastructure)
  {
  }

  // ---- Sweep ----

  /** With the lock, swept are exactly the pending accounts whose challenge expired more than the grace period ago. */
  lemma SweepExactly(w: World, p: Policy, now: int, grace: nat, mail: string)
    requires Matched(w) && mail in w.db.users
    ensures Next(w, p, Sweep(now, grace, false)) == w
    ensures var db, a := Next(w, p, Sweep(now, grace, true)).db, w.db.users[mail];
            && (mail !in db.users <==>
                  a.status.Pending? && a.id in w.db.challenges && w.db.challenges[a.id].expires < now - grace)
            && (mail in db.users ==> db.users[mail] == a)
            && (mail in db.users && a.id in w.db.challenges ==>
                  a.id in db.challenges && db.challenges[a.id] == w.db.challenges[a.id])
            && (mail !in db.users ==> a.id !in db.challenges)
  {
  }

  // ---- Every run: how often PINs are sent ----

  /** From c to a later state c' of the same challenge, every resend waited its interval. */
  predicate Spaced(p: Policy, c: Challenge, c': Challenge) {
    && c.resends <= c'.resends
    && c.lastSent + (c'.resends - c.resends) * p.minInterval <= c'.lastSent
  }

  lemma NotResentIsSpaced(p: Policy, c: Challenge, c': Challenge)
    requires c'.resends == c.resends && c'.lastSent == c.lastSent
    ensures Spaced(p, c, c')
  {
  }

  lemma ResentIsSpaced(p: Policy, c: Challenge, d: Draw)
    requires Due(p, c, d.now)
    ensures Spaced(p, c, Fresh(p, d.pin, d.now, c.resends + 1))
  {
    assert (c.resends + 1 - c.resends) * p.minInterval == p.minInterval;
  }

  /** A transaction that issues a PIN either leaves this challenge alone or is a resend that was due. */
  lemma IssueIsSpaced(db: Db, p: Policy, mail: string, d: Draw, id: nat)
    requires id in db.challenges
    ensures var r := RegisterTx(db, p, mail, d);
            r.Committed? ==> id in r.db.challenges && Spaced(p, db.challenges[id], r.db.challenges[id])
    ensures var r := ResendTx(db, p, mail, d);
            r.Some? && r.value.Committed? ==>
              id in r.value.db.challenges && Spaced(p, db.challenges[id], r.value.db.challenges[id])
  {
    var c := db.challenges[id];
    NotResentIsSpaced(p, c, c);
    if Due(p, c, d.now) {
      ResentIsSpaced(p, c, d);
    }
  }

  lemma FinishIsSpaced(db: Db, p: Policy, f: Flight, id: nat)
    requires id in db.challenges && VerifyWrite(db, f).Some? && id in VerifyWrite(db, f).value.challenges
    ensures Spaced(p, db.challenges[id], VerifyWrite(db, f).value.challenges[id])
  {
    NotResentIsSpaced(p, db.challenges[id], VerifyWrite(db, f).value.challenges[id]);
  }

  lemma SpacedStep(w: World, p: Policy, a: Action, id: nat)
    requires id in w.db.challenges && id in Next(w, p, a).db.challenges
    ensures Spaced(p, w.db.challenges[id], Next(w, p, a).db.challenges[id])
  {
    NotResentIsSpaced(p, w.db.challenges[id], w.db.challenges[id]);
    match a {
      case Register(mail, d) => IssueIsSpaced(w.db, p, mail, d, id);
      case BeginVerify(mail, pin, now) =>
      case FinishVerify(f, fails) => if VerifyWrite(w.db, f).Some? && !fails { FinishIsSpaced(w.db, p, f, id); }
      case Resend(mail, d) => IssueIsSpaced(w.db, p, mail, d, id);
      case Sweep(now, grace, locked) =>
    }
  }

  lemma SpacedMeans(p: Policy, a: Challenge, b: Challenge, c: Challenge)
    requires Spaced(p, a, b) && Spaced(p, b, c)
    ensures Spaced(p, a, c)
  {
    assert (b.resends - a.resends) * p.minInterval + (c.resends - b.resends) * p.minInterval
        == (c.resends - a.resends) * p.minInterval;
  }

  lemma IssueRevivesNothing(db: Db, p: Policy, mail: string, d: Draw, id: nat)
    requires id !in db.challenges && id != d.id
    ensures var r := RegisterTx(db, p, mail, d); r.Committed? ==> id !in r.db.challenges
    ensures var r := ResendTx(db, p, mail, d); r.Some? && r.value.Committed? ==> id !in r.value.db.challenges
  {
  }

  lemma ResendRevivesNothing(db: Db, p: Policy, mail: string, d: Draw, id: nat)
    requires id !in db.challenges
    ensures var r := ResendTx(db, p, mail, d); r.Some? && r.value.Committed? ==> id !in r.value.db.challenges
  {
  }

  lemma StepRevivesNothing(w: World, p: Policy, a: Action, id: nat)
    requires CanAct(w, a) && id in w.ids && id !in w.db.challenges
    ensures id in Next(w, p, a).ids && id !in Next(w, p, a).db.challenges
  {
    match a {
      case Register(mail, d) => IssueRevivesNothing(w.db, p, mail, d, id);
      case BeginVerify(mail, pin, now) =>
      case FinishVerify(f, fails) =>
      case Resend(mail, d) => ResendRevivesNothing(w.db, p, mail, d, id);
      case Sweep(now, grace, locked) =>
    }
  }

  /** Ids are not used again. */
  lemma {:induction false} GoneForGood(w: World, p: Policy, acts: seq<Action>, id: nat)
    requires CanRun(w, p, acts) && id in w.ids && id !in w.db.challenges
    ensures id !in Run(w, p, acts).db.challenges
    decreases |acts|
  {
    if acts != [] {
      StepRevivesNothing(w, p, acts[0], id);
      GoneForGood(Next(w, p, acts[0]), p, acts[1..], id);
    }
  }

  /** Over every run, an account's PINs are sent at least the minimum interval apart. */
  lemma {:induction false} ResendsAreSpaced(w: World, p: Policy, acts: seq<Action>, id: nat)
    requires Matched(w) && CanRun(w, p, acts) && id in w.db.challenges && id in Run(w, p, acts).db.challenges
    ensures Spaced(p, w.db.challenges[id], Run(w, p, acts).db.challenges[id])
    decreases |acts|
  {
    if acts != [] {
      var w' := Next(w, p, acts[0]);
      StepKeepsMatched(w, p, acts[0]);
      if id !in w'.db.challenges {
        GoneForGood(w', p, acts[1..], id);
      } else {
        SpacedStep(w, p, acts[0], id);
        ResendsAreSpaced(w', p, acts[1..], id);
        SpacedMeans(p, w.db.challenges[id], w'.db.challenges[id], Run(w', p, acts[1..]).db.challenges[id]);
      }
    }
  }

  // ---- Every run: how an account becomes active ----

  /** In state w, somebody begins to verify `mail` with the PIN that the account's open challenge stores. */
  predicate SubmitsThePin(w: World, p: Policy, a: Action, mail: string, id: nat) {
    && a.BeginVerify? && a.mail == mail && a.pin.Some?
    && mail in w.db.users && w.db.users[mail].id == id && id in w.db.challenges
    && w.db.challenges[id].hash == HashOf(a.pin.value) && Open(p, w.db.challenges[id], a.now)
  }

  /** Some step of the run did. */
  ghost predicate WasSubmitted(w: World, p: Policy, acts: seq<Action>, mail: string, id: nat)
    decreases |acts|
  {
    acts != [] &&
    (SubmitsThePin(w, p, acts[0], mail, id) || WasSubmitted(Next(w, p, acts[0]), p, acts[1..], mail, id))
  }

  /** Active accounts and verifications about to make one active, other than those there already. */
  predicate Cleared(w: World, mail: string, id: nat) {
    w.flights[RightFor(mail, id)] > 0 || IsActiveAccount(w.db, mail, id)
  }

  predicate IsActiveAccount(db: Db, mail: string, id: nat) {
    mail in db.users && db.users[mail].id == id && db.users[mail].status.Active?
  }

  lemma IssueActivatesNobody(db: Db, p: Policy, m: string, d: Draw, mail: string, id: nat)
    requires !IsActiveAccount(db, mail, id)
    ensures var r := RegisterTx(db, p, m, d); r.Committed? ==> !IsActiveAccount(r.db, mail, id)
    ensures var r := ResendTx(db, p, m, d); r.Some? && r.value.Committed? ==> !IsActiveAccount(r.value.db, mail, id)
  {
  }

  lemma FinishActivatesOne(db: Db, f: Flight, mail: string, id: nat)
    requires !IsActiveAccount(db, mail, id) && f != RightFor(mail, id) && VerifyWrite(db, f).Some?
    ensures !IsActiveAccount(VerifyWrite(db, f).value, mail, id)
  {
  }

  lemma SweepActivatesNobody(db: Db, cutoff: int, mail: string, id: nat)
    requires !IsActiveAccount(db, mail, id)
    ensures !IsActiveAccount(SweepTx(db, cutoff), mail, id)
  {
  }

  lemma ClearingStep(w: World, p: Policy, a: Action, mail: string, id: nat)
    requires CanAct(w, a) && !Cleared(w, mail, id) && Cleared(Next(w, p, a), mail, id)
    ensures SubmitsThePin(w, p, a, mail, id)
  {
    match a {
      case Register(m, d) => IssueActivatesNobody(w.db, p, m, d, mail, id);
      case BeginVerify(m, pin, now) =>
      case FinishVerify(f, fails) => if VerifyWrite(w.db, f).Some? { FinishActivatesOne(w.db, f, mail, id); }
      case Resend(m, d) => IssueActivatesNobody(w.db, p, m, d, mail, id);
      case Sweep(now, grace, locked) => SweepActivatesNobody(w.db, now - grace, mail, id);
    }
  }

  /**
   * Over every run, an account becomes active only if the run contains a verification that submitted
   * the very PIN its challenge stored at that moment, unexpired and unlocked.
   */
  lemma {:induction false} ActivationNeedsThePin(w: World, p: Policy, acts: seq<Action>, mail: string, id: nat)
    requires CanRun(w, p, acts) && !Cleared(w, mail, id) && Cleared(Run(w, p, acts), mail, id)
    ensures WasSubmitted(w, p, acts, mail, id)
    decreases |acts|
  {
    if acts != [] {
      var w' := Next(w, p, acts[0]);
      if Cleared(w', mail, id) {
        ClearingStep(w, p, acts[0], mail, id);
      } else {
        ActivationNeedsThePin(w', p, acts[1..], mail, id);
      }
    }
  }

  // ---- A verification in two steps ----

  /** What is compared is the PIN submitted against the hash stored at that moment. */
  lemma BeginExactly(w: World, p: Policy, mail: string, c: Challenge, pin: Option<nat>, now: int)
    requires Challenged(w.db, mail, c)
    ensures var w', id := Next(w, p, BeginVerify(mail, pin, now)), w.db.users[mail].id;
            && w'.db == w.db
            && w'.flights == (
                 if !Open(p, c, now) then w.flights
                 else if pin.Some? && c.hash == HashOf(pin.value) then w.flights + multiset{RightFor(mail, id)}
                 else w.flights + multiset{WrongFor(id)})
  {
  }

  /** A wrong PIN then costs an attempt of whatever challenge is stored, and changes nothing else. */
  lemma FinishExactly(w: World, p: Policy, mail: string, c: Challenge, f: Flight)
    requires Challenged(w.db, mail, c) && w.flights[f] > 0
    requires f == WrongFor(w.db.users[mail].id) || f == RightFor(mail, w.db.users[mail].id)
    ensures var db', id := Next(w, p, FinishVerify(f, false)).db, w.db.users[mail].id;
            db' == if f.WrongFor?
                   then Db(w.db.users, w.db.challenges[id := OneMore(c)])
                   else Db(w.db.users[mail := Account(id, w.db.users[mail].code, Active)], w.db.challenges - {id})
    ensures Next(w, p, FinishVerify(f, true)).db == w.db
  {
  }
}
