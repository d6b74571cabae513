/**
 Runs of the server as written that go wrong: with two offices or more a shutdown and a user that gives
 up can make it pop an empty queue, and with any number of offices a run can leave an office blocked for ever.
 */
module Crash {
  import opened Bank
  import opened Server
  import opened Invariant
  import opened Tickets
  import opened Users
  import opened Claims
  import opened Deadlock
  import opened Blocked
  import opened Lifecycle
  import opened Scenarios

  // ----- A pop of an empty queue -----

  /** The shutdown has been handled, and the user that sent it has its reply; the other request is in the FIFO. */
  lemma ShutdownHandled(cfg: Config, quitters: set<nat>, requests: seq<Request>, k: nat, l: nat) returns (t: State)
    requires cfg.offices >= 2 && !cfg.fused
    requires k < |requests| && l < |requests| && k != l && AuthorisedShutdown(cfg, requests[k])
    ensures ReachableWithin(cfg, quitters, requests, t) && !t.crashed && t.main == Read && |t.offices| == cfg.offices
    ensures forall j :: 0 <= j < |t.offices| ==> t.offices[j].pc == WaitFull
    ensures t.hall.queue == [] && t.hall.full == 0 && t.hall.empty > 0 && |t.hall.popped| == 1
    ensures t.hall.mutex.Free? && t.tally.mutex.Free?
    ensures !t.pipe.dummy && t.pipe.data == [requests[l]] && t.pipe.writers == [k, l]
    ensures t.users == Initial(cfg, requests).users[k := Written(requests[k])][l := Written(requests[l])]
  {
    t := FirstPopped(cfg, quitters, requests, k, l);
    t := HandleShutdown(cfg, quitters, requests, t, 0);
  }

  /** A request that no office carries any more has been answered. */
  lemma PoppedIsAnswered(cfg: Config, quitters: set<nat>, requests: seq<Request>, s: State, ticket: nat)
    requires ReachableWithin(cfg, quitters, requests, s) && ticket < |s.hall.popped|
    requires forall j :: 0 <= j < |s.offices| ==> s.offices[j].pc == WaitFull
    ensures Answered(s.vault.answers, ticket)
  {
    LeaversWereAnswered(cfg, quitters, requests, s);
    ReachableInv(cfg, requests, s);
  }

  /** The user that sent the shutdown leaves with its reply, and the other one gives up. */
  lemma BothLeave(cfg: Config, quitters: set<nat>, requests: seq<Request>, k: nat, l: nat) returns (t: State)
    requires cfg.offices >= 2 && !cfg.fused && Rivals(cfg, quitters, requests, k, l)
    ensures ReachableWithin(cfg, quitters, requests, t) && !t.crashed && t.main == Read && |t.offices| == cfg.offices
    ensures forall j :: 0 <= j < |t.offices| ==> t.offices[j].pc == WaitFull
    ensures t.hall.queue == [] && t.hall.full == 0 && t.hall.empty > 0 && t.hall.mutex.Free? && t.tally.mutex.Free?
    ensures t.pipe.data == [requests[l]] && NoWriters(t)
  {
    t := ShutdownHandled(cfg, quitters, requests, k, l);
    PoppedIsAnswered(cfg, quitters, requests, t, 0);
    assert t.pipe.writers[0] == k && HasReply(t, k);
    t := Go(cfg, quitters, requests, t, UserActor(k));
    t := Go(cfg, quitters, requests, t, UserActor(l));
  }

  /** The abandoned request is in the queue as the wake-ups start. */
  lemma UpToTheWake(cfg: Config, quitters: set<nat>, requests: seq<Request>, k: nat, l: nat) returns (t: State)
    requires cfg.offices >= 2 && !cfg.fused && Rivals(cfg, quitters, requests, k, l)
    ensures ReachableWithin(cfg, quitters, requests, t) && !t.crashed && |t.offices| == cfg.offices
    ensures t.offices[0].pc == WaitFull && t.offices[1].pc == WaitFull
    ensures t.hall.queue == [requests[l]] && t.hall.full == 2 && t.hall.mutex.Free? && t.tally.mutex.Free?
  {
    t := BothLeave(cfg, quitters, requests, k, l);
    t := Produce(cfg, quitters, requests, t);
    t := FirstWake(cfg, quitters, requests, t);
  }

  /**
   With two offices or more, a shutdown and another request whose user gives up can lead the code as
   written to pop an empty queue.
   */
  lemma TwoOfficesCanCrash(cfg: Config, quitters: set<nat>, requests: seq<Request>, k: nat, l: nat) returns (t: State)
    requires cfg.offices >= 2 && !cfg.fused && Rivals(cfg, quitters, requests, k, l)
    ensures ReachableWithin(cfg, quitters, requests, t) && t.crashed
  {
    t := UpToTheWake(cfg, quitters, requests, k, l);
    t := PassTest(cfg, quitters, requests, t, 0);
    t := PassTest(cfg, quitters, requests, t, 1);
    t := PopOne(cfg, quitters, requests, t, 0);
    t := Go(cfg, quitters, requests, t, OfficeActor(1));
    t := Go(cfg, quitters, requests, t, OfficeActor(1));
  }

  /**
   Exactly which servers can crash, on which traffic, and because of whom: those with more than one
   office and the test apart from the pop, on an authorised shutdown and another request whose user may
   give up before its reply.
   */
  lemma CrashesExactlyWhen(cfg: Config, quitters: set<nat>, requests: seq<Request>)
    requires ValidConfig(cfg)
    ensures (exists t :: ReachableWithin(cfg, quitters, requests, t) && t.crashed) <==>
      && cfg.offices >= 2 && !cfg.fused
      && exists k, l :: 0 <= k < |requests| && 0 <= l < |requests| && Rivals(cfg, quitters, requests, k, l)
  {
    if Tame(cfg, quitters, requests) {
      forall t | ReachableWithin(cfg, quitters, requests, t) ensures !t.crashed {
        TameNeverCrashes(cfg, quitters, requests, t);
      }
    } else {
      var k, l :| 0 <= k < |requests| && 0 <= l < |requests| && Rivals(cfg, quitters, requests, k, l);
      var t := TwoOfficesCanCrash(cfg, quitters, requests, k, l);
    }
  }

  lemma ReachableIsWithinAll(cfg: Config, requests: seq<Request>, t: State)
    ensures Reachable(cfg, requests, t) <==> ReachableWithin(cfg, AllUsers(|requests|), requests, t)
  {
    if Reachable(cfg, requests, t) {
      var schedule :| Runs(cfg, Initial(cfg, requests), schedule, t);
      RunsAreWithinAll(cfg, requests, Initial(cfg, requests), schedule, t);
    }
    if ReachableWithin(cfg, AllUsers(|requests|), requests, t) {
      LeaversWereAnswered(cfg, AllUsers(|requests|), requests, t);
    }
  }

  /** When any user may give up, an authorised shutdown and any other request are enough. */
  lemma CrashesWhenAnyoneMayGiveUp(cfg: Config, requests: seq<Request>)
    requires ValidConfig(cfg)
    ensures (exists t :: Reachable(cfg, requests, t) && t.crashed) <==>
      && cfg.offices >= 2 && !cfg.fused && |requests| >= 2
      && exists k :: 0 <= k < |requests| && AuthorisedShutdown(cfg, requests[k])
  {
    var all := AllUsers(|requests|);
    CrashesExactlyWhen(cfg, all, requests);
    forall t ensures Reachable(cfg, requests, t) <==> ReachableWithin(cfg, all, requests, t) {
      ReachableIsWithinAll(cfg, requests, t);
    }
    if |requests| >= 2 && exists k :: 0 <= k < |requests| && AuthorisedShutdown(cfg, requests[k]) {
      var k :| 0 <= k < |requests| && AuthorisedShutdown(cfg, requests[k]);
      assert Rivals(cfg, all, requests, k, if k == 0 then 1 else 0);
    }
  }

  // ----- An office blocked for ever -----

  /** The administrator opens an account. */
  predicate AuthorisedCreation(cfg: Config, req: Request) {
    && req.op.CreateAccount? && req.account == ADMIN_ACCOUNT_ID
    && PasswordIsCorrect(cfg.sha, AdminAccount(cfg), req.password)
  }

  /** The administrator creates the administrator's account. */
  predicate Recreation(cfg: Config, req: Request) {
    AuthorisedCreation(cfg, req) && req.op.id == ADMIN_ACCOUNT_ID
  }

  /** The owner of an account that `creation` opens pays that same account. */
  predicate PaysItself(cfg: Config, creation: Request, payment: Request) {
    && AuthorisedCreation(cfg, creation) && creation.op.id != ADMIN_ACCOUNT_ID
    && payment.op.Transfer? && payment.op.dest == payment.account == creation.op.id
    && payment.password == creation.op.newPassword
  }

  /** The refusal leaves the mutex locked. */
  lemma RefuseRecreation(cfg: Config, quitters: set<nat>, requests: seq<Request>, s: State, i: nat) returns (t: State)
    requires ReachableWithin(cfg, quitters, requests, s) && !s.crashed
    requires i < |s.offices| && s.offices[i].pc == Handle(CreateLock) && Recreation(cfg, s.offices[i].req)
    requires s.vault.accounts == map[ADMIN_ACCOUNT_ID := AdminAccount(cfg)] && s.vault.holder == map[]
    ensures ReachableWithin(cfg, quitters, requests, t)
    ensures t == s.(offices := t.offices, vault := t.vault)
    ensures |t.offices| == |s.offices| && t.offices == s.offices[i := t.offices[i]] && t.offices[i].pc == Handle(Send)
    ensures t.vault.accounts == s.vault.accounts
    ensures ADMIN_ACCOUNT_ID in t.vault.holder && ADMIN_ACCOUNT_ID in t.vault.leaked
  {
    t := GoHandle(cfg, quitters, requests, s, i);
    t := GoHandle(cfg, quitters, requests, t, i);
  }

  /** The first of two such creations is refused, and its office waits again. */
  lemma FirstRefusal(cfg: Config, requests: seq<Request>, a: nat, b: nat) returns (t: State)
    requires cfg.offices >= 1 && !cfg.fused
    requires a < |requests| && b < |requests| && a != b && Recreation(cfg, requests[a])
    ensures ReachableWithin(cfg, {}, requests, t) && !t.crashed && t.main == Read
    ensures |t.offices| == cfg.offices && t.offices[0].pc == WaitFull
    ensures t.hall.queue == [] && t.hall.full == 0 && t.hall.empty > 0 && t.hall.mutex.Free? && t.tally.mutex.Free?
    ensures t.pipe.data == [requests[b]]
    ensures t.vault.accounts == map[ADMIN_ACCOUNT_ID := AdminAccount(cfg)]
    ensures ADMIN_ACCOUNT_ID in t.vault.holder && ADMIN_ACCOUNT_ID in t.vault.leaked
  {
    t := FirstPopped(cfg, {}, requests, a, b);
    t := AcceptHeader(cfg, {}, requests, t, 0);
    t := RefuseRecreation(cfg, {}, requests, t, 0);
    t := SendOne(cfg, {}, requests, t, 0);
    t := CountOut(cfg, {}, requests, t, 0);
  }

  /**
   With any number of offices, any traffic with two creations of the administrator's account can block
   an office for ever, though nobody gives up.
   */
  lemma RecreationCanBlock(cfg: Config, requests: seq<Request>, a: nat, b: nat) returns (t: State)
    requires cfg.offices >= 1 && !cfg.fused
    requires a < |requests| && b < |requests| && a != b
    requires Recreation(cfg, requests[a]) && Recreation(cfg, requests[b])
    ensures ReachableWithin(cfg, {}, requests, t) && !t.crashed && BlockedForever(cfg, t, 0)
  {
    t := FirstRefusal(cfg, requests, a, b);
    t := Produce(cfg, {}, requests, t);
    t := PassTest(cfg, {}, requests, t, 0);
    t := PopOne(cfg, {}, requests, t, 0);
    t := AcceptHeader(cfg, {}, requests, t, 0);
    LeaversWereAnswered(cfg, {}, requests, t);
    BlockedExactlyWhen(cfg, requests, t, 0);
  }

  /** The creation finds the identifier free, under its mutex. */
  lemma TestCreation(cfg: Config, quitters: set<nat>, requests: seq<Request>, s: State, i: nat) returns (t: State)
    requires ReachableWithin(cfg, quitters, requests, s) && !s.crashed
    requires i < |s.offices| && s.offices[i].pc == Handle(CreateLock)
    requires Target(s.offices[i].req) !in s.vault.accounts && s.vault.holder == map[]
    ensures ReachableWithin(cfg, quitters, requests, t)
    ensures t == s.(offices := s.offices[i := s.offices[i].(pc := Handle(CreateWrite))], vault := t.vault)
    ensures t.vault.accounts == s.vault.accounts && t.vault.holder == map[Target(s.offices[i].req) := OfficeThread(i)]
  {
    t := GoHandle(cfg, quitters, requests, s, i);
    t := GoHandle(cfg, quitters, requests, t, i);
  }

  /** The creation writes the new slot. */
  lemma WriteSlot(cfg: Config, quitters: set<nat>, requests: seq<Request>, s: State, i: nat) returns (t: State)
    requires ReachableWithin(cfg, quitters, requests, s) && !s.crashed
    requires i < |s.offices| && s.offices[i].pc == Handle(CreateWrite) && s.offices[i].req.op.CreateAccount?
    ensures ReachableWithin(cfg, quitters, requests, t)
    ensures t == s.(offices := t.offices, vault := t.vault)
    ensures |t.offices| == |s.offices| && t.offices == s.offices[i := t.offices[i]]
    ensures t.offices[i].pc == Handle(CreateUnlock) && t.offices[i].req == s.offices[i].req
    ensures
      var op := s.offices[i].req.op;
      op.id in t.vault.accounts && PasswordIsCorrect(cfg.sha, t.vault.accounts[op.id], op.newPassword)
    ensures t.vault.holder == s.vault.holder
  {
    t := GoHandle(cfg, quitters, requests, s, i);
  }

  /** The creation releases the mutex. */
  lemma ReleaseSlot(cfg: Config, quitters: set<nat>, requests: seq<Request>, s: State, i: nat) returns (t: State)
    requires ReachableWithin(cfg, quitters, requests, s) && !s.crashed
    requires i < |s.offices| && s.offices[i].pc == Handle(CreateUnlock)
    requires s.vault.holder == map[Target(s.offices[i].req) := OfficeThread(i)]
    ensures ReachableWithin(cfg, quitters, requests, t)
    ensures t == s.(offices := s.offices[i := s.offices[i].(pc := Handle(Send))], vault := t.vault)
    ensures t.vault.accounts == s.vault.accounts && t.vault.holder == map[]
  {
    t := GoHandle(cfg, quitters, requests, s, i);
  }

  /** The owner takes the mutex of its account, and waits for it again. */
  lemma LockTwice(cfg: Config, quitters: set<nat>, requests: seq<Request>, s: State, i: nat) returns (t: State)
    requires ReachableWithin(cfg, quitters, requests, s) && !s.crashed
    requires i < |s.offices| && s.offices[i].pc == Handle(TransferFirst) && s.vault.holder == map[]
    requires Target(s.offices[i].req) == s.offices[i].req.account
    ensures ReachableWithin(cfg, quitters, requests, t) && !t.crashed && i < |t.offices|
    ensures t.offices[i].pc == Handle(TransferSecond) && t.offices[i].req == s.offices[i].req
    ensures t.vault.holder == map[t.offices[i].req.account := OfficeThread(i)]
  {
    t := GoHandle(cfg, quitters, requests, s, i);
  }

  /** The creation has been accepted, and the transfer of the account's owner is in the FIFO. */
  lemma CreationAccepted(cfg: Config, requests: seq<Request>, a: nat, b: nat) returns (t: State)
    requires cfg.offices >= 1 && !cfg.fused
    requires a < |requests| && b < |requests| && PaysItself(cfg, requests[a], requests[b])
    ensures ReachableWithin(cfg, {}, requests, t) && !t.crashed && t.main == Read && |t.offices| == cfg.offices
    ensures t.offices[0].pc == Handle(CreateLock) && t.offices[0].req == requests[a]
    ensures t.hall.queue == [] && t.hall.full == 0 && t.hall.empty > 0 && t.hall.mutex.Free? && t.tally.mutex.Free?
    ensures t.pipe.data == [requests[b]] && t.vault.holder == map[] && requests[a].op.id !in t.vault.accounts
  {
    t := FirstPopped(cfg, {}, requests, a, b);
    t := AcceptHeader(cfg, {}, requests, t, 0);
  }

  /** The account is in its slot, with its mutex free again. */
  lemma SlotWritten(cfg: Config, requests: seq<Request>, a: nat, b: nat) returns (t: State)
    requires cfg.offices >= 1 && !cfg.fused
    requires a < |requests| && b < |requests| && PaysItself(cfg, requests[a], requests[b])
    ensures ReachableWithin(cfg, {}, requests, t) && !t.crashed && t.main == Read
    ensures |t.offices| == cfg.offices && t.offices[0].pc == Handle(Send)
    ensures t.hall.queue == [] && t.hall.full == 0 && t.hall.empty > 0 && t.hall.mutex.Free? && t.tally.mutex.Free?
    ensures t.pipe.data == [requests[b]] && t.vault.holder == map[]
    ensures HeaderVerdict(cfg.sha, t.vault.accounts, requests[b]) == RC_OK
  {
    t := CreationAccepted(cfg, requests, a, b);
    t := TestCreation(cfg, {}, requests, t, 0);
    t := WriteSlot(cfg, {}, requests, t, 0);
    t := ReleaseSlot(cfg, {}, requests, t, 0);
  }

  /** The account has been opened. */
  lemma AccountOpened(cfg: Config, requests: seq<Request>, a: nat, b: nat) returns (t: State)
    requires cfg.offices >= 1 && !cfg.fused
    requires a < |requests| && b < |requests| && PaysItself(cfg, requests[a], requests[b])
    ensures ReachableWithin(cfg, {}, requests, t) && !t.crashed && t.main == Read
    ensures |t.offices| == cfg.offices && t.offices[0].pc == WaitFull
    ensures t.hall.queue == [] && t.hall.full == 0 && t.hall.empty > 0 && t.hall.mutex.Free? && t.tally.mutex.Free?
    ensures t.pipe.data == [requests[b]] && t.vault.holder == map[]
    ensures HeaderVerdict(cfg.sha, t.vault.accounts, requests[b]) == RC_OK
  {
    t := SlotWritten(cfg, requests, a, b);
    t := SendOne(cfg, {}, requests, t, 0);
    t := CountOut(cfg, {}, requests, t, 0);
  }

  /** The owner's transfer has been accepted. */
  lemma PayerAccepted(cfg: Config, requests: seq<Request>, a: nat, b: nat) returns (t: State)
    requires cfg.offices >= 1 && !cfg.fused
    requires a < |requests| && b < |requests| && PaysItself(cfg, requests[a], requests[b])
    ensures ReachableWithin(cfg, {}, requests, t) && !t.crashed && |t.offices| == cfg.offices
    ensures t.offices[0].pc == Handle(TransferFirst) && t.offices[0].req == requests[b] && t.vault.holder == map[]
  {
    t := AccountOpened(cfg, requests, a, b);
    t := Produce(cfg, {}, requests, t);
    t := PassTest(cfg, {}, requests, t, 0);
    t := PopOne(cfg, {}, requests, t, 0);
    t := AcceptHeader(cfg, {}, requests, t, 0);
  }

  /**
   With any number of offices, any traffic in which an account is opened and pays itself can block an
   office for ever, though nobody gives up.
   */
  lemma SelfTransferCanBlock(cfg: Config, requests: seq<Request>, a: nat, b: nat) returns (t: State)
    requires cfg.offices >= 1 && !cfg.fused
    requires a < |requests| && b < |requests| && PaysItself(cfg, requests[a], requests[b])
    ensures ReachableWithin(cfg, {}, requests, t) && !t.crashed && BlockedForever(cfg, t, 0)
    ensures t.offices[0].pc == Handle(TransferSecond) && t.vault.holder == map[requests[b].account := OfficeThread(0)]
  {
    t := PayerAccepted(cfg, requests, a, b);
    t := LockTwice(cfg, {}, requests, t, 0);
    LeaversWereAnswered(cfg, {}, requests, t);
    BlockedExactlyWhen(cfg, requests, t, 0);
  }

  /** A server with an office blocked for ever neither finishes nor comes to wait for users, whatever happens. */
  lemma BlockedPreventsTheEnd(cfg: Config, s: State, i: nat, schedule: seq<Actor>, t: State)
    requires BlockedForever(cfg, s, i) && Runs(cfg, s, schedule, t)
    ensures !Finished(t) && !WaitingForUsers(t)
  {
    assert t.offices[i] == s.offices[i] && t.offices[i].pc.Handle?;
  }

  /** Two creations of the administrator's account can bring about that. */
  lemma RecreationCanPreventTheEnd(cfg: Config, requests: seq<Request>, a: nat, b: nat) returns (s: State)
    requires cfg.offices >= 1 && !cfg.fused
    requires a < |requests| && b < |requests| && a != b
    requires Recreation(cfg, requests[a]) && Recreation(cfg, requests[b])
    ensures ReachableWithin(cfg, {}, requests, s)
    ensures forall schedule, t :: Runs(cfg, s, schedule, t) ==> !Finished(t) && !WaitingForUsers(t)
  {
    s := RecreationCanBlock(cfg, requests, a, b);
    forall schedule, t | Runs(cfg, s, schedule, t) ensures !Finished(t) && !WaitingForUsers(t) {
      BlockedPreventsTheEnd(cfg, s, 0, schedule, t);
    }
  }
}
