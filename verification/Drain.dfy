/**
 What a complete run has done: every request that a user wrote is answered exactly once, and an
 authorised shutdown ends the server with all offices joined.
 */
module Drain {
  import opened Bank
  import opened Server
  import opened Tickets
  import opened Locks
  import opened Books
  import opened Lifecycle
  import opened Invariant
  import opened Users
  import opened Deadlock

  // ----- Traffic that blocks nobody -----

  /** No transfer to the paying account; no creation of the administrator or of an account twice. */
  predicate GoodTraffic(reqs: seq<Request>) {
    && (forall t :: 0 <= t < |reqs| && reqs[t].op.Transfer? ==> reqs[t].op.dest != reqs[t].account)
    && (forall t :: 0 <= t < |reqs| && reqs[t].op.CreateAccount? ==> reqs[t].op.id != ADMIN_ACCOUNT_ID)
    && (forall t, u :: 0 <= t < u < |reqs| && reqs[t].op.CreateAccount? && reqs[u].op.CreateAccount? ==>
          reqs[t].op.id != reqs[u].op.id)
  }

  /** The accounts in the books are the administrator's and those that the log created. */
  lemma {:induction false} AccountsComeFromTheLog(cfg: Config, log: seq<Entry>, id: int)
    requires id in Replay(cfg, log).accounts
    ensures id == ADMIN_ACCOUNT_ID ||
            exists k :: 0 <= k < |log| && log[k].req.op.CreateAccount? && log[k].req.op.id == id
  {
    if log != [] {
      var rest, last := log[..|log| - 1], log[|log| - 1];
      if id in Replay(cfg, rest).accounts {
        AccountsComeFromTheLog(cfg, rest, id);
        if id != ADMIN_ACCOUNT_ID {
          var k :| 0 <= k < |rest| && rest[k].req.op.CreateAccount? && rest[k].req.op.id == id;
          assert log[k] == rest[k];
        }
      } else {
        assert last.req.op.CreateAccount? && last.req.op.id == id;
      }
    }
  }

  lemma {:induction false} RefusedComesFromTheLog(log: seq<Entry>, id: int)
    ensures id in RefusedIds(log) <==>
            exists k :: 0 <= k < |log| && log[k].reply.code == RC_ID_IN_USE && Target(log[k].req) == id
  {
    if log != [] {
      var last := |log| - 1;
      var rest := log[..last];
      RefusedComesFromTheLog(rest, id);
      assert forall k :: 0 <= k < last ==> rest[k] == log[k];
    }
  }

  lemma OnlyCreationsAreRefused(sha: string -> string, salt: string, ledger: Ledger, req: Request)
    requires Execute(sha, salt, ledger, req).reply.code == RC_ID_IN_USE
    ensures req.op.CreateAccount? && Target(req) in ledger.accounts
  {
  }

  /** A refused creation means that the log holds an earlier creation of the same account. */
  lemma RefusalHasATwin(cfg: Config, log: seq<Entry>, k: nat)
    requires Faithful(cfg, log) && k < |log| && log[k].reply.code == RC_ID_IN_USE
    ensures log[k].req.op.CreateAccount?
    ensures log[k].req.op.id == ADMIN_ACCOUNT_ID ||
            exists l :: 0 <= l < k && log[l].req.op.CreateAccount? && log[l].req.op.id == log[k].req.op.id
  {
    var id := Target(log[k].req);
    OnlyCreationsAreRefused(cfg.sha, cfg.salt(log[k].ticket), Replay(cfg, log[..k]), log[k].req);
    AccountsComeFromTheLog(cfg, log[..k], id);
    if id != ADMIN_ACCOUNT_ID {
      var l :| 0 <= l < k && log[..k][l].req.op.CreateAccount? && log[..k][l].req.op.id == id;
      assert log[l] == log[..k][l];
    }
  }

  lemma LeakNeedsATwin(cfg: Config, s: State, id: int)
    requires BooksInv(cfg, s) && LogInv(s) && s.hall.popped + s.hall.queue == s.hall.pushed
    requires id in RefusedIds(s.vault.log)
    ensures !GoodTraffic(s.hall.pushed)
  {
    var log := s.vault.log;
    RefusedComesFromTheLog(log, id);
    var k :| 0 <= k < |log| && log[k].reply.code == RC_ID_IN_USE && Target(log[k].req) == id;
    RefusalHasATwin(cfg, log, k);
    LogIsReceived(s, k);
    if id != ADMIN_ACCOUNT_ID {
      var l :| 0 <= l < k && log[l].req.op.CreateAccount? && log[l].req.op.id == id;
      LogIsReceived(s, l);
      TwinsAreNotGood(s.hall.pushed, log[l].ticket, log[k].ticket);
    } else {
      TwinsAreNotGood(s.hall.pushed, log[k].ticket, log[k].ticket);
    }
  }

  /** Two creations of one account, or one of the administrator's. */
  lemma TwinsAreNotGood(reqs: seq<Request>, p: nat, q: nat)
    requires p < |reqs| && q < |reqs| && reqs[p].op.CreateAccount? && reqs[q].op.CreateAccount?
    requires reqs[p].op.id == reqs[q].op.id && (p != q || reqs[p].op.id == ADMIN_ACCOUNT_ID)
    ensures !GoodTraffic(reqs)
  {
    if p > q {
      TwinsAreNotGood(reqs, q, p);
    }
  }

  lemma GoodTrafficLeaksNothing(cfg: Config, s: State)
    requires Inv(cfg, s) && GoodTraffic(s.hall.pushed)
    ensures s.vault.leaked == {}
  {
    forall id ensures id !in s.vault.leaked {
      if id in s.vault.leaked {
        LeakNeedsATwin(cfg, s, id);
      }
    }
  }

  lemma LogIsReceived(s: State, k: nat)
    requires LogInv(s) && s.hall.popped + s.hall.queue == s.hall.pushed && k < |s.vault.log|
    ensures s.vault.log[k].ticket < |s.hall.pushed| && s.hall.pushed[s.vault.log[k].ticket] == s.vault.log[k].req
  {
  }

  /** An office is cornered by a mutex on which a creation was refused, or by a transfer to the paying account. */
  lemma CorneredExactlyWhen(cfg: Config, s: State, i: nat)
    requires Inv(cfg, s) && i < |s.offices|
    ensures
      var office := s.offices[i];
      Cornered(s, i) <==>
        && Awaits(office).Some?
        && (Awaits(office).value in RefusedIds(s.vault.log) ||
            (office.pc == Handle(TransferSecond) && Target(office.req) == office.req.account))
  {
    var office := s.offices[i];
    if Awaits(office).Some? {
      var id := Awaits(office).value;
      HoldsWhatItAwaits(office);
      HolderExactly(s, i, id);
    }
  }

  lemma HoldsWhatItAwaits(office: Office)
    requires Awaits(office).Some?
    ensures Holds(office, Awaits(office).value) <==>
            office.pc == Handle(TransferSecond) && Target(office.req) == office.req.account
  {
  }

  /** What an office that waits for an account mutex carries. */
  lemma WaitingCarries(cfg: Config, s: State, i: nat)
    requires Inv(cfg, s) && i < |s.offices| && Awaits(s.offices[i]).Some?
    ensures
      var office := s.offices[i];
      && office.ticket < |s.hall.pushed| && s.hall.pushed[office.ticket] == office.req
      && (office.pc == Handle(TransferSecond) ==> office.req.op.Transfer?)
  {
    var office := s.offices[i];
    assert Facts(cfg, office, s.vault.accounts, Replay(cfg, s.vault.log).accounts);
    assert office.ticket < |s.hall.popped| && office.req == s.hall.popped[office.ticket];
  }

  lemma GoodTrafficCornersNobody(cfg: Config, s: State, i: nat)
    requires Inv(cfg, s) && GoodTraffic(s.hall.pushed)
    ensures !Cornered(s, i)
  {
    GoodTrafficLeaksNothing(cfg, s);
    if Cornered(s, i) {
      CorneredExactlyWhen(cfg, s, i);
      WaitingCarries(cfg, s, i);
    }
  }

  // ----- Everything received is answered once -----

  predicate AnsweredOnce(answers: seq<Answer>, ticket: nat) {
    exists k :: 0 <= k < |answers| && answers[k].ticket == ticket &&
                forall l :: 0 <= l < |answers| && answers[l].ticket == ticket ==> l == k
  }

  lemma AnsweredIsOnce(answers: seq<Answer>, ticket: nat)
    requires forall k, l :: 0 <= k < l < |answers| ==> answers[k].ticket != answers[l].ticket
    requires Answered(answers, ticket)
    ensures AnsweredOnce(answers, ticket)
  {
    var k :| 0 <= k < |answers| && answers[k].ticket == ticket;
    assert forall l :: 0 <= l < |answers| && answers[l].ticket == ticket ==> l == k;
  }

  lemma AllAnswered(cfg: Config, s: State)
    requires Inv(cfg, s) && s.hall.queue == []
    requires forall j :: 0 <= j < |s.offices| ==> !Carries(cfg.fused, s.offices[j].pc)
    ensures forall t :: 0 <= t < |s.hall.pushed| ==> AnsweredOnce(s.vault.answers, t)
    ensures |s.vault.answers| == |s.hall.pushed|
  {
    assert s.hall.popped == s.hall.pushed;
    forall t | 0 <= t < |s.hall.pushed| ensures AnsweredOnce(s.vault.answers, t) {
      AnsweredIsOnce(s.vault.answers, t);
    }
    CountAnswers(s.vault.answers, |s.hall.pushed|);
  }

  /** Where an answer of the shortened history comes from. */
  function Shifted(k: nat, j: nat): nat {
    if j < k then j else j + 1
  }

  lemma WithoutAnswer(answers: seq<Answer>, k: nat, last: nat)
    requires k < |answers| && answers[k].ticket == last
    requires forall i, j :: 0 <= i < j < |answers| ==> answers[i].ticket != answers[j].ticket
    requires forall j :: 0 <= j < |answers| ==> answers[j].ticket <= last
    ensures
      var rest := answers[..k] + answers[k + 1..];
      && (forall j :: 0 <= j < |rest| ==> rest[j] == answers[Shifted(k, j)] && rest[j].ticket < last)
      && (forall i, j :: 0 <= i < j < |rest| ==> rest[i].ticket != rest[j].ticket)
  {
    var rest := answers[..k] + answers[k + 1..];
    forall j | 0 <= j < |rest| ensures rest[j] == answers[Shifted(k, j)] && rest[j].ticket < last {
      assert Shifted(k, j) != k && answers[Shifted(k, j)].ticket != answers[k].ticket;
    }
    assert forall i, j :: 0 <= i < j < |rest| ==> Shifted(k, i) < Shifted(k, j);
  }

  lemma StillAnswered(answers: seq<Answer>, k: nat, ticket: nat)
    requires k < |answers| && answers[k].ticket != ticket && Answered(answers, ticket)
    ensures Answered(answers[..k] + answers[k + 1..], ticket)
  {
    var rest := answers[..k] + answers[k + 1..];
    var l :| 0 <= l < |answers| && answers[l].ticket == ticket;
    var m := if l < k then l else l - 1;
    assert 0 <= m < |rest| && rest[m] == answers[l] && rest[m].ticket == ticket;
  }

  /** Distinct tickets that cover exactly the numbers below `bound` are `bound` many. */
  lemma {:induction false} CountAnswers(answers: seq<Answer>, bound: nat)
    requires forall k :: 0 <= k < |answers| ==> answers[k].ticket < bound
    requires forall k, l :: 0 <= k < l < |answers| ==> answers[k].ticket != answers[l].ticket
    requires forall t :: 0 <= t < bound ==> Answered(answers, t)
    ensures |answers| == bound
  {
    if bound == 0 {
      assert answers != [] ==> answers[0].ticket < bound;
    } else {
      var last := bound - 1;
      assert Answered(answers, last);
      var k :| 0 <= k < |answers| && answers[k].ticket == last;
      var rest := answers[..k] + answers[k + 1..];
      WithoutAnswer(answers, k, last);
      forall t | 0 <= t < last ensures Answered(rest, t) {
        StillAnswered(answers, k, t);
      }
      CountAnswers(rest, last);
    }
  }

  /** Every user's request that was written has been answered, exactly once. */
  ghost predicate EverybodyServed(t: State) {
    forall u :: 0 <= u < |t.users| && Sent(t.users[u]) ==>
      exists k :: 0 <= k < |t.pipe.writers| && t.pipe.writers[k] == u && AnsweredOnce(t.vault.answers, k)
  }

  /** With nothing left in the FIFO, in hand, in the queue or with an office, everything written is answered once. */
  lemma AllWrittenAnswered(cfg: Config, requests: seq<Request>, t: State)
    requires Inv(cfg, t) && UsersInv(requests, t)
    requires t.pipe.data == [] && InHand(t.main) == [] && t.hall.queue == []
    requires forall j :: 0 <= j < |t.offices| ==> !Carries(cfg.fused, t.offices[j].pc)
    ensures t.hall.popped == t.pipe.written
    ensures forall k :: 0 <= k < |t.pipe.written| ==> AnsweredOnce(t.vault.answers, k)
    ensures |t.vault.answers| == |t.pipe.written|
    ensures EverybodyServed(t)
  {
    AllAnswered(cfg, t);
    forall u | 0 <= u < |t.users| && Sent(t.users[u])
      ensures exists k :: 0 <= k < |t.pipe.writers| && t.pipe.writers[k] == u && AnsweredOnce(t.vault.answers, k)
    {
      assert u in t.pipe.writers;
      var k :| 0 <= k < |t.pipe.writers| && t.pipe.writers[k] == u;
      assert AnsweredOnce(t.vault.answers, k);
    }
  }

  /** When the main thread has joined its offices, every request written has been answered exactly once. */
  lemma JoinedMeansAnswered(cfg: Config, requests: seq<Request>, t: State)
    requires ValidConfig(cfg) && Reachable(cfg, requests, t) && t.main.Done?
    ensures Finished(t) && t.hall.popped == t.pipe.written
    ensures forall k :: 0 <= k < |t.pipe.written| ==> AnsweredOnce(t.vault.answers, k)
    ensures |t.vault.answers| == |t.pipe.written|
    ensures EverybodyServed(t)
  {
    ReachableInv(cfg, requests, t);
    WrittenAreUsers(cfg, requests, t);
    DoneIsFinished(cfg, t);
    AllWrittenAnswered(cfg, requests, t);
  }

  /** An answered shutdown with the right credentials has put the flag up. */
  lemma AnsweredShutdown(cfg: Config, s: State, t: nat)
    requires Inv(cfg, s)
    requires t < |s.hall.popped| && AuthorisedShutdown(cfg, s.hall.popped[t]) && Answered(s.vault.answers, t)
    ensures s.vault.shutdown
  {
    var k :| 0 <= k < |s.vault.answers| && s.vault.answers[k].ticket == t;
    assert Logged(s.vault.log, t);
    var p := Position(s.vault.log, t);
    assert AuthorisedShutdown(cfg, s.vault.log[p].req);
    ShutdownIsAuthorised(cfg, s.vault.log);
  }

  /** A server that waits for users has not been shut down. */
  lemma WaitingIsNotShutDown(s: State)
    requires LifeInv(s) && WaitingForUsers(s)
    ensures !s.vault.shutdown
  {
    assert forall j :: 0 <= j < |s.offices| ==> !Closer(s.offices[j]);
  }

  lemma PrefixIsGood(reqs: seq<Request>, prefix: seq<Request>)
    requires GoodTraffic(reqs) && prefix <= reqs
    ensures GoodTraffic(prefix)
  {
    assert forall k :: 0 <= k < |prefix| ==> prefix[k] == reqs[k];
  }

  /** Some user has written a shutdown with the administrator's password. */
  predicate ShutdownSent(cfg: Config, users: seq<User>) {
    exists u :: 0 <= u < |users| && Sent(users[u]) && AuthorisedShutdown(cfg, users[u].req)
  }

  // ----- Where a run can stop -----

  /** Nobody can go on, unless a user outside `quitters` gives up. */
  ghost predicate Stuck(quitters: set<nat>, s: State) {
    forall actor :: !MayAct(quitters, s, actor)
  }

  lemma StuckIsStill(quitters: set<nat>, s: State)
    requires Stuck(quitters, s) && !s.crashed
    ensures Still(s)
  {
    assert !MayAct(quitters, s, MainActor);
    forall i | 0 <= i < |s.offices| ensures !OfficeEnabled(s, i) {
      assert !MayAct(quitters, s, OfficeActor(i));
    }
  }

  lemma RestIsServed(cfg: Config, requests: seq<Request>, t: State)
    requires Inv(cfg, t) && UsersInv(requests, t) && (Finished(t) || Resting(t))
    ensures t.hall.popped == t.pipe.written && |t.vault.answers| == |t.pipe.written|
    ensures forall k :: 0 <= k < |t.pipe.written| ==> AnsweredOnce(t.vault.answers, k)
    ensures EverybodyServed(t)
  {
    AllWrittenAnswered(cfg, requests, t);
  }

  lemma ServedHasReply(t: State, u: nat)
    requires EverybodyServed(t) && u < |t.users| && Sent(t.users[u])
    ensures HasReply(t, u)
  {
    var k :| 0 <= k < |t.pipe.writers| && t.pipe.writers[k] == u && AnsweredOnce(t.vault.answers, k);
    assert Answered(t.vault.answers, k);
  }

  /** A user that has opened the FIFO can write to it, or lets the main thread open it too. */
  lemma OpenUserGoesOn(cfg: Config, t: State, u: nat)
    requires PipeInv(t) && (Finished(t) || Resting(t)) && u < |t.users| && t.users[u].Open?
    ensures MainEnabled(t) || UserEnabled(t, u)
  {
  }

  /** In a server that is finished or rests, every user still there can take a step: its reply has come. */
  lemma UsersLeave(cfg: Config, quitters: set<nat>, t: State, u: nat)
    requires PipeInv(t) && EverybodyServed(t) && (Finished(t) || Resting(t)) && !MainEnabled(t) && !t.crashed
    requires u < |t.users|
    ensures t.users[u].Gone? || MayAct(quitters, t, UserActor(u))
  {
    if t.users[u].Open? {
      OpenUserGoesOn(cfg, t, u);
    } else if t.users[u].Written? {
      ServedHasReply(t, u);
    }
  }

  lemma StuckUsersAreGone(cfg: Config, quitters: set<nat>, requests: seq<Request>, t: State)
    requires Inv(cfg, t) && UsersInv(requests, t) && (Finished(t) || Resting(t))
    requires Stuck(quitters, t) && !t.crashed
    ensures Finished(t) || WaitingForUsers(t)
    ensures forall u :: 0 <= u < |t.users| ==> t.users[u].Gone?
  {
    StuckIsStill(quitters, t);
    RestIsServed(cfg, requests, t);
    forall u | 0 <= u < |t.users| ensures t.users[u].Gone? {
      UsersLeave(cfg, quitters, t, u);
    }
  }

  /**
   Deadlock, exactly: a stuck state is neither finished nor idle if and only if some office waits for a
   leaked mutex or for one that it holds itself.
   */
  lemma StuckExactlyWhenCornered(cfg: Config, quitters: set<nat>, requests: seq<Request>, s: State)
    requires ValidConfig(cfg) && Reachable(cfg, requests, s) && Stuck(quitters, s) && !s.crashed
    ensures !Finished(s) && !WaitingForUsers(s) <==> exists i: nat :: Cornered(s, i)
  {
    ReachableInv(cfg, requests, s);
    WrittenAreUsers(cfg, requests, s);
    StuckIsStill(quitters, s);
    if i: nat :| Cornered(s, i) {
      assert s.offices[i].pc.Handle?;
    } else {
      StillMeansOver(cfg, s);
      StuckUsersAreGone(cfg, quitters, requests, s);
    }
  }

  /** No run that cannot be continued has lost, duplicated or left a request. */
  lemma MaximalRun(cfg: Config, quitters: set<nat>, requests: seq<Request>, t: State)
    requires ValidConfig(cfg) && Reachable(cfg, requests, t)
    requires Stuck(quitters, t) && !t.crashed && GoodTraffic(t.pipe.written)
    ensures Finished(t) || WaitingForUsers(t)
    ensures forall u :: 0 <= u < |t.users| ==> t.users[u].Gone?
    ensures forall k :: 0 <= k < |t.pipe.written| ==> AnsweredOnce(t.vault.answers, k)
    ensures |t.vault.answers| == |t.pipe.written|
    ensures EverybodyServed(t)
    ensures ShutdownSent(cfg, t.users) ==> Finished(t)
  {
    ReachableInv(cfg, requests, t);
    WrittenAreUsers(cfg, requests, t);
    PrefixIsGood(t.pipe.written, t.hall.pushed);
    forall i: nat ensures !Cornered(t, i) {
      GoodTrafficCornersNobody(cfg, t, i);
    }
    StuckIsStill(quitters, t);
    StillMeansOver(cfg, t);
    StuckUsersAreGone(cfg, quitters, requests, t);
    RestIsServed(cfg, requests, t);
    if ShutdownSent(cfg, t.users) {
      SentShutdownIsUp(cfg, requests, t);
      if WaitingForUsers(t) {
        WaitingIsNotShutDown(t);
      }
    }
  }

  lemma SentShutdownIsPopped(cfg: Config, requests: seq<Request>, t: State) returns (k: nat)
    requires UsersInv(requests, t) && EverybodyServed(t)
    requires t.hall.popped == t.pipe.written && ShutdownSent(cfg, t.users)
    ensures k < |t.hall.popped| && AuthorisedShutdown(cfg, t.hall.popped[k]) && Answered(t.vault.answers, k)
  {
    var u :| 0 <= u < |t.users| && Sent(t.users[u]) && AuthorisedShutdown(cfg, t.users[u].req);
    k :| 0 <= k < |t.pipe.writers| && t.pipe.writers[k] == u && AnsweredOnce(t.vault.answers, k);
    assert t.hall.popped[k] == requests[u] == t.users[u].req;
  }

  lemma SentShutdownIsUp(cfg: Config, requests: seq<Request>, t: State)
    requires Inv(cfg, t) && UsersInv(requests, t) && EverybodyServed(t)
    requires t.hall.popped == t.pipe.written && ShutdownSent(cfg, t.users)
    ensures t.vault.shutdown
  {
    var k := SentShutdownIsPopped(cfg, requests, t);
    AnsweredShutdown(cfg, t, k);
  }
}
