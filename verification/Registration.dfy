/**
 * Register and its retry loop (internal/gateway/registration.go) against any behaviour of the
 * database: the transaction closure writes variables of the enclosing call, and may have written
 * them in a run that was then rolled back.
 */
module Registration {
  import opened Options
  import opened Accounts

  /**
   * One run of the transaction: the tables it finds, what it draws, and the error of its commit, if
   * that fails - any error at all, so also one that is retried.
   */
  datatype Try = Try(db: Db, draw: Draw, commitError: Option<Error>)

  function Outcome(p: Policy, mail: string, t: Try): Issue {
    match RegisterTx(t.db, p, mail, t.draw)
    case Aborted(e) => Aborted(e)
    case Committed(db, code) => if t.commitError.Some? then Aborted(t.commitError.value) else Committed(db, code)
  }

  predicate Collides(p: Policy, mail: string, t: Try) {
    Outcome(p, mail, t) == Aborted(PublicCodeCollision)
  }

  predicate Races(p: Policy, mail: string, t: Try) {
    Outcome(p, mail, t) == Aborted(InsertRace)
  }

  /** The tables store this PIN's hash for the account registered under this address. */
  predicate StoresPin(db: Db, mail: string, pin: nat) {
    && mail in db.users && db.users[mail].id in db.challenges
    && db.challenges[db.users[mail].id].hash == HashOf(pin)
  }

  lemma CommitStoresPin(p: Policy, mail: string, t: Try)
    requires Outcome(p, mail, t).Committed?
    ensures StoresPin(Outcome(p, mail, t).db, mail, t.draw.pin)
    ensures Outcome(p, mail, t).code == Outcome(p, mail, t).db.users[mail].code
    ensures Outcome(p, mail, t).db.users[mail].status.Pending?
  {
  }

  /** How many of the first n tries were rejected for a public-code collision. */
  function Collisions(p: Policy, mail: string, tries: seq<Try>, n: nat): nat
    requires n <= |tries|
  {
    if n == 0 then 0 else Collisions(p, mail, tries, n - 1) + if Collides(p, mail, tries[n - 1]) then 1 else 0
  }

  /** Why the loop stopped after `used` runs and not before. */
  ghost predicate StopsAt(p: Policy, mail: string, tries: seq<Try>, used: nat)
    requires used <= |tries|
  {
    && 1 <= used <= p.collisionRetries + 2
    && (forall i :: 0 <= i < used - 1 ==> Races(p, mail, tries[i]) || Collides(p, mail, tries[i]))
    && (forall i, j :: 0 <= i < j < used - 1 ==> !(Races(p, mail, tries[i]) && Races(p, mail, tries[j])))
    && (Races(p, mail, tries[used - 1]) ==> exists i :: 0 <= i < used - 1 && Races(p, mail, tries[i]))
    && (Collides(p, mail, tries[used - 1]) ==> Collisions(p, mail, tries, used - 1) == p.collisionRetries)
  }

  datatype Result = Registered(code: nat) | Failed(error: Error)

  /** One call of Register, with the variables its closure captures. */
  class Call {
    const policy: Policy
    const mail: string
    var result: nat                  // captured: the public code to report
    var toSend: (string, nat)        // captured: the PIN to deliver, and where
    var shouldSend: bool             // captured
    var commits: seq<Db>             // what transactions of this call have committed
    var outbox: seq<(string, nat)>   // what was handed to the sender

    constructor (policy: Policy, mail: string)
      ensures this.policy == policy && this.mail == mail && commits == [] && outbox == []
    {
      this.policy, this.mail := policy, mail;
      result, toSend, shouldSend, commits, outbox := 0, ("", 0), false, [], [];
    }

    /** The captured variables hold what run t of the closure put there. */
    ghost predicate CapturedFrom(t: Try)
      reads this
    {
      && shouldSend == RegisterTx(t.db, policy, mail, t.draw).Committed?
      && (shouldSend ==> result == RegisterTx(t.db, policy, mail, t.draw).code && toSend == (mail, t.draw.pin))
    }

    /** The closure: it resets shouldSend first, and leaves result and toSend stale when it fails. */
    method Closure(t: Try) returns (written: Issue)
      modifies this`result, this`toSend, this`shouldSend
      ensures written == RegisterTx(t.db, policy, mail, t.draw) && CapturedFrom(t)
      ensures written.Aborted? ==> result == old(result) && toSend == old(toSend)
    {
      shouldSend := false;
      if mail in t.db.users {
        var existing := t.db.users[mail];
        if !existing.status.Pending? {
          return Aborted(MailAddressTaken);
        }
        if t.draw.trouble.Fault? {
          return Aborted(Infrastructure);
        }
        written := ResendPending(t.db, policy, existing, t.draw);
        if written.Aborted? {
          return;
        }
        result := existing.code;
        toSend := (mail, t.draw.pin);
        shouldSend := true;
      } else {
        written := CreatePending(t.db, policy, mail, t.draw);
        if written.Aborted? {
          return;
        }
        result := written.code;
        toSend := (mail, t.draw.pin);
        shouldSend := true;
      }
    }

    /** WithinTx: the closure, then the commit, which may fail after the closure has captured. */
    method WithinTx(t: Try) returns (error: Option<Error>)
      modifies this`result, this`toSend, this`shouldSend, this`commits
      ensures CapturedFrom(t)
      ensures match Outcome(policy, mail, t)
              case Aborted(e) => error == Some(e) && commits == old(commits)
              case Committed(db, _) => error == None && commits == old(commits) + [db]
    {
      var written := Closure(t);
      if written.Aborted? {
        return Some(written.error);
      }
      if t.commitError.Some? {
        return t.commitError;
      }
      commits := commits + [written.db];
      error := None;
    }

    /**
     * runWithRegistrationRetry: it stops at the first outcome that is neither a retryable race nor a
     * retryable collision, having committed nothing before it, with the captures of that last run.
     */
    method RunWithRetry(tries: seq<Try>) returns (used: nat, error: Option<Error>)
      requires |tries| >= policy.collisionRetries + 2
      modifies this`result, this`toSend, this`shouldSend, this`commits
      ensures used <= |tries| && StopsAt(policy, mail, tries, used) && CapturedFrom(tries[used - 1])
      ensures match Outcome(policy, mail, tries[used - 1])
              case Aborted(e) => error == Some(e) && commits == old(commits)
              case Committed(db, _) => error == None && commits == old(commits) + [db]
    {
      var raced, collisions := false, 0;
      used := 0;
      while true
        invariant 0 <= used == collisions + (if raced then 1 else 0) && collisions <= policy.collisionRetries
        invariant collisions == Collisions(policy, mail, tries, used) && commits == old(commits)
        invariant forall i :: 0 <= i < used ==> Races(policy, mail, tries[i]) || Collides(policy, mail, tries[i])
        invariant raced <==> exists i :: 0 <= i < used && Races(policy, mail, tries[i])
        invariant forall i, j :: 0 <= i < j < used ==>
                    !(Races(policy, mail, tries[i]) && Races(policy, mail, tries[j]))
        decreases policy.collisionRetries + 2 - used
      {
        error := WithinTx(tries[used]);
        used := used + 1;
        if error == Some(InsertRace) && !raced {
          raced := true;
        } else if error == Some(PublicCodeCollision) {
          if collisions >= policy.collisionRetries {
            return;
          }
          collisions := collisions + 1;
        } else {
          return;
        }
      }
    }

    /**
     * Register, whatever earlier runs captured. On success exactly one transaction of the call
     * committed, and what is sent - once - is the PIN whose hash that transaction stored for this
     * address. On failure nothing committed and nothing is sent.
     */
    method Register(tries: seq<Try>) returns (answer: Result, used: nat)
      requires |tries| >= policy.collisionRetries + 2
      modifies this
      ensures used <= |tries| && StopsAt(policy, mail, tries, used)
      ensures answer.Failed? ==>
                commits == old(commits) && outbox == old(outbox)
                && Outcome(policy, mail, tries[used - 1]) == Aborted(answer.error)
      ensures answer.Registered? ==>
                && |commits| == |old(commits)| + 1 && old(commits) <= commits
                && |outbox| == |old(outbox)| + 1 && old(outbox) <= outbox
                && var db, (to, pin) := commits[|commits| - 1], outbox[|outbox| - 1];
                && to == mail && StoresPin(db, mail, pin)
                && answer.code == db.users[mail].code && db.users[mail].status.Pending?
    {
      var error;
      used, error := RunWithRetry(tries);
      if error.Some? {
        return Failed(error.value), used;
      }
      CommitStoresPin(policy, mail, tries[used - 1]);
      if shouldSend {
        outbox := outbox + [toSend];
      }
      answer := Registered(result);
    }
  }
}
