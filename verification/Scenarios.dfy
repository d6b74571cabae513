/**
 Building runs: the steps of a run, segment by segment, for any number of offices.
 */
module Scenarios {
  import opened Bank
  import opened Server
  import opened Lifecycle
  import opened Users

  // ----- Single steps -----

  lemma Go(cfg: Config, quitters: set<nat>, requests: seq<Request>, s: State, actor: Actor) returns (t: State)
    requires ReachableWithin(cfg, quitters, requests, s) && MayAct(quitters, s, actor)
    ensures ReachableWithin(cfg, quitters, requests, t) && t == Step(cfg, s, actor)
  {
    StaysReachableWithin(cfg, quitters, requests, s, actor);
    t := Step(cfg, s, actor);
  }

  /** A step of an office outside `handleRequest`: the vault and the FIFO stay as they are. */
  lemma GoRoutine(cfg: Config, quitters: set<nat>, requests: seq<Request>, s: State, i: nat) returns (t: State)
    requires ReachableWithin(cfg, quitters, requests, s) && !s.crashed && i < |s.offices| && OfficeEnabled(s, i)
    requires !s.offices[i].pc.Handle? && (s.offices[i].pc == Pop ==> s.hall.queue != [])
    ensures ReachableWithin(cfg, quitters, requests, t)
    ensures t == s.(offices := s.offices[i := NextOffice(cfg, s.offices[i], s)],
                    hall := NextHall(i, s.offices[i].pc, s.hall), tally := NextTally(i, s.offices[i].pc, s.tally))
  {
    t := Go(cfg, quitters, requests, s, OfficeActor(i));
    assert t.vault == s.vault;
  }

  /** A step of an office inside `handleRequest`: the queue and the counter stay as they are. */
  lemma GoHandle(cfg: Config, quitters: set<nat>, requests: seq<Request>, s: State, i: nat) returns (t: State)
    requires ReachableWithin(cfg, quitters, requests, s) && !s.crashed && i < |s.offices| && OfficeEnabled(s, i)
    requires s.offices[i].pc.Handle?
    ensures ReachableWithin(cfg, quitters, requests, t)
    ensures t == s.(offices := s.offices[i := NextOffice(cfg, s.offices[i], s)],
                    vault := t.vault, pipe := NextPipe(s.offices[i].pc, s.pipe))
    ensures t.vault.shutdown == (s.vault.shutdown || s.offices[i].pc == Handle(SetShutdown))
    ensures t.vault.accounts == NextAccounts(cfg, s.offices[i], s.vault.accounts)
    ensures t.vault.holder == NextHolder(i, s.offices[i], s.vault.holder)
    ensures t.vault.leaked == NextLeaked(s.offices[i], s.vault.accounts, s.vault.leaked)
  {
    t := Go(cfg, quitters, requests, s, OfficeActor(i));
  }

  // ----- Start-up -----

  function Waiting(n: nat): seq<Office> {
    seq(n, _ => NewOffice().(pc := WaitFull))
  }

  lemma {:induction false} LaunchAll(cfg: Config, quitters: set<nat>, requests: seq<Request>, k: nat) returns (t: State)
    requires k <= cfg.offices
    ensures ReachableWithin(cfg, quitters, requests, t)
    ensures t == Initial(cfg, requests).(main := Launch(k),
      offices := Waiting(k) + seq(cfg.offices - k, _ => NewOffice()),
      hall := Hall([], false, Free, cfg.offices, 0, [], [], []))
  {
    var start := Initial(cfg, requests);
    if k == 0 {
      assert RunsWithin(cfg, quitters, start, [], start);
      t := Go(cfg, quitters, requests, start, MainActor);
      assert start.offices == Waiting(0) + seq(cfg.offices, _ => NewOffice());
    } else {
      var s := LaunchAll(cfg, quitters, requests, k - 1);
      t := Go(cfg, quitters, requests, s, MainActor);
      assert t.offices == Waiting(k) + seq(cfg.offices - k, _ => NewOffice());
    }
  }

  predicate Ready(cfg: Config, s: State, main: MainPc) {
    && s.main == main && !s.crashed
    && s.offices == Waiting(cfg.offices)
    && s.hall == Hall([], s.hall.ready, Free, cfg.offices, 0, [], [], [])
    && s.tally == Tally(Free, 0)
    && s.vault.holder == map[] && !s.vault.shutdown
  }

  /** From the first launch to the request FIFO. */
  lemma Boot(cfg: Config, quitters: set<nat>, requests: seq<Request>) returns (t: State)
    ensures ReachableWithin(cfg, quitters, requests, t) && Ready(cfg, t, OpenReader)
    ensures t.vault.accounts == map[ADMIN_ACCOUNT_ID := AdminAccount(cfg)]
    ensures t.pipe == Pipe(true, true, false, false, [], [], [])
    ensures t.users == Initial(cfg, requests).users
  {
    t := LaunchAll(cfg, quitters, requests, cfg.offices);
    t := Go(cfg, quitters, requests, t, MainActor);
    assert t.offices == Waiting(cfg.offices);
    t := Go(cfg, quitters, requests, t, MainActor);
    t := Go(cfg, quitters, requests, t, MainActor);
    t := Go(cfg, quitters, requests, t, MainActor);
    t := Go(cfg, quitters, requests, t, MainActor);
    t := Go(cfg, quitters, requests, t, MainActor);
    assert t.vault.holder == map[];
    t := Go(cfg, quitters, requests, t, MainActor);
    t := Go(cfg, quitters, requests, t, MainActor);
  }

  /** Two users come to open the FIFO; the others wait. */
  lemma Knock(cfg: Config, quitters: set<nat>, requests: seq<Request>, a: nat, b: nat) returns (t: State)
    requires a < |requests| && b < |requests| && a != b
    ensures ReachableWithin(cfg, quitters, requests, t) && Ready(cfg, t, OpenReader)
    ensures t.vault.accounts == map[ADMIN_ACCOUNT_ID := AdminAccount(cfg)]
    ensures t.pipe == Pipe(true, true, false, false, [], [], [])
    ensures t.users == Initial(cfg, requests).users[a := Open(requests[a])][b := Open(requests[b])]
  {
    t := Boot(cfg, quitters, requests);
    t := Go(cfg, quitters, requests, t, UserActor(a));
    t := Go(cfg, quitters, requests, t, UserActor(b));
  }

  /** That lets the server open it too. */
  lemma OpenUp(cfg: Config, quitters: set<nat>, requests: seq<Request>, a: nat, b: nat) returns (t: State)
    requires a < |requests| && b < |requests| && a != b
    ensures ReachableWithin(cfg, quitters, requests, t) && Ready(cfg, t, Read)
    ensures t.vault.accounts == map[ADMIN_ACCOUNT_ID := AdminAccount(cfg)]
    ensures t.pipe == Pipe(true, true, true, true, [], [], [])
    ensures t.users == Initial(cfg, requests).users[a := Open(requests[a])][b := Open(requests[b])]
  {
    t := Knock(cfg, quitters, requests, a, b);
    assert t.users[a].Open?;
    t := Go(cfg, quitters, requests, t, MainActor);
    t := Go(cfg, quitters, requests, t, MainActor);
  }

  /** Two users write their requests, one after the other. */
  lemma WriteBoth(cfg: Config, quitters: set<nat>, requests: seq<Request>, a: nat, b: nat) returns (t: State)
    requires a < |requests| && b < |requests| && a != b
    ensures ReachableWithin(cfg, quitters, requests, t) && Ready(cfg, t, Read)
    ensures t.vault.accounts == map[ADMIN_ACCOUNT_ID := AdminAccount(cfg)]
    ensures t.pipe.dummy && t.pipe.data == [requests[a], requests[b]] && t.pipe.writers == [a, b]
    ensures t.users == Initial(cfg, requests).users[a := Written(requests[a])][b := Written(requests[b])]
  {
    t := OpenUp(cfg, quitters, requests, a, b);
    t := Go(cfg, quitters, requests, t, UserActor(a));
    t := Go(cfg, quitters, requests, t, UserActor(b));
    assert t.pipe.data == [requests[a], requests[b]] && t.pipe.writers == [a, b];
    assert t.users == Initial(cfg, requests).users[a := Written(requests[a])][b := Written(requests[b])];
  }

  // ----- Segments that can start anywhere -----

  /** The producer reads a request and takes a slot for it. */
  lemma ReadOne(cfg: Config, quitters: set<nat>, requests: seq<Request>, s: State) returns (t: State)
    requires ReachableWithin(cfg, quitters, requests, s) && !s.crashed
    requires s.main == Read && s.pipe.data != [] && s.hall.empty > 0
    ensures ReachableWithin(cfg, quitters, requests, t)
    ensures t == s.(main := LockPush(s.pipe.data[0]), hall := s.hall.(empty := s.hall.empty - 1),
                    pipe := s.pipe.(data := s.pipe.data[1..]))
  {
    t := Go(cfg, quitters, requests, s, MainActor);
    t := Go(cfg, quitters, requests, t, MainActor);
  }

  /** The producer takes the queue's mutex and pushes the request in its hand. */
  lemma PushOne(cfg: Config, quitters: set<nat>, requests: seq<Request>, s: State, req: Request) returns (t: State)
    requires ReachableWithin(cfg, quitters, requests, s) && !s.crashed
    requires s.main == LockPush(req) && s.hall.mutex.Free?
    ensures ReachableWithin(cfg, quitters, requests, t)
    ensures t == s.(main := UnlockPush,
                    hall := s.hall.(queue := s.hall.queue + [req], pushed := s.hall.pushed + [req],
                                    mutex := Taken(MainThread)))
  {
    t := Go(cfg, quitters, requests, s, MainActor);
    t := Go(cfg, quitters, requests, t, MainActor);
  }

  /** The producer releases the mutex and posts `full`. */
  lemma PostOne(cfg: Config, quitters: set<nat>, requests: seq<Request>, s: State) returns (t: State)
    requires ReachableWithin(cfg, quitters, requests, s) && !s.crashed && s.main == UnlockPush
    ensures ReachableWithin(cfg, quitters, requests, t)
    ensures t == s.(main := Read, hall := s.hall.(mutex := Free, full := s.hall.full + 1))
  {
    t := Go(cfg, quitters, requests, s, MainActor);
    t := Go(cfg, quitters, requests, t, MainActor);
  }

  /** The producer moves one request from the FIFO to the queue. */
  lemma Produce(cfg: Config, quitters: set<nat>, requests: seq<Request>, s: State) returns (t: State)
    requires ReachableWithin(cfg, quitters, requests, s) && !s.crashed
    requires s.main == Read && s.pipe.data != [] && s.hall.empty > 0 && s.hall.mutex.Free?
    ensures ReachableWithin(cfg, quitters, requests, t)
    ensures t == s.(hall := t.hall, pipe := s.pipe.(data := s.pipe.data[1..]))
    ensures t.hall == s.hall.(queue := s.hall.queue + [s.pipe.data[0]], pushed := s.hall.pushed + [s.pipe.data[0]],
                              full := s.hall.full + 1, empty := s.hall.empty - 1)
  {
    t := ReadOne(cfg, quitters, requests, s);
    t := PushOne(cfg, quitters, requests, t, s.pipe.data[0]);
    t := PostOne(cfg, quitters, requests, t);
  }

  /** An office takes a permit and passes the emptiness test. */
  lemma TakePermit(cfg: Config, quitters: set<nat>, requests: seq<Request>, s: State, i: nat) returns (t: State)
    requires ReachableWithin(cfg, quitters, requests, s) && !s.crashed && !cfg.fused
    requires i < |s.offices| && s.offices[i].pc == WaitFull
    requires s.hall.full > 0 && s.hall.mutex.Free? && s.hall.queue != []
    ensures ReachableWithin(cfg, quitters, requests, t)
    ensures t == s.(offices := s.offices[i := s.offices[i].(pc := LockUp)], hall := s.hall.(full := s.hall.full - 1))
  {
    t := GoRoutine(cfg, quitters, requests, s, i);
    t := GoRoutine(cfg, quitters, requests, t, i);
    t := GoRoutine(cfg, quitters, requests, t, i);
    t := GoRoutine(cfg, quitters, requests, t, i);
  }

  /** An office counts itself active. */
  lemma CountIn(cfg: Config, quitters: set<nat>, requests: seq<Request>, s: State, i: nat) returns (t: State)
    requires ReachableWithin(cfg, quitters, requests, s) && !s.crashed && !cfg.fused
    requires i < |s.offices| && s.offices[i].pc == LockUp && s.tally.mutex.Free?
    ensures ReachableWithin(cfg, quitters, requests, t)
    ensures t == s.(offices := s.offices[i := s.offices[i].(pc := LockPop)], tally := Tally(Free, s.tally.active + 1))
  {
    t := GoRoutine(cfg, quitters, requests, s, i);
    t := GoRoutine(cfg, quitters, requests, t, i);
    t := GoRoutine(cfg, quitters, requests, t, i);
  }

  /** An office goes from its wait up to the lock before its pop. */
  lemma PassTest(cfg: Config, quitters: set<nat>, requests: seq<Request>, s: State, i: nat) returns (t: State)
    requires ReachableWithin(cfg, quitters, requests, s) && !s.crashed && !cfg.fused
    requires i < |s.offices| && s.offices[i].pc == WaitFull
    requires s.hall.full > 0 && s.hall.mutex.Free? && s.tally.mutex.Free? && s.hall.queue != []
    ensures ReachableWithin(cfg, quitters, requests, t)
    ensures t == s.(offices := s.offices[i := s.offices[i].(pc := LockPop)], hall := s.hall.(full := s.hall.full - 1),
                    tally := Tally(Free, s.tally.active + 1))
  {
    t := TakePermit(cfg, quitters, requests, s, i);
    t := CountIn(cfg, quitters, requests, t, i);
  }

  /** An office that has passed the test pops and releases the queue. */
  lemma PopOne(cfg: Config, quitters: set<nat>, requests: seq<Request>, s: State, i: nat) returns (t: State)
    requires ReachableWithin(cfg, quitters, requests, s) && !s.crashed && !cfg.fused
    requires i < |s.offices| && s.offices[i].pc == LockPop && s.hall.mutex.Free? && s.hall.queue != []
    ensures ReachableWithin(cfg, quitters, requests, t)
    ensures t == s.(offices := t.offices, hall := t.hall)
    ensures |t.offices| == |s.offices| && t.offices == s.offices[i := t.offices[i]]
    ensures t.offices[i].pc == PostEmpty && t.offices[i].req == s.hall.queue[0]
    ensures t.hall.queue == s.hall.queue[1..] && t.hall.mutex.Free?
    ensures t.hall.popped == s.hall.popped + [s.hall.queue[0]]
    ensures t.hall.full == s.hall.full && t.hall.empty == s.hall.empty
  {
    t := GoRoutine(cfg, quitters, requests, s, i);
    t := GoRoutine(cfg, quitters, requests, t, i);
    t := GoRoutine(cfg, quitters, requests, t, i);
  }

  /** An office finds the account of the request that it carries. */
  lemma FindAccount(cfg: Config, quitters: set<nat>, requests: seq<Request>, s: State, i: nat) returns (t: State)
    requires ReachableWithin(cfg, quitters, requests, s) && !s.crashed
    requires i < |s.offices| && s.offices[i].pc == Handle(Exists) && s.offices[i].req.account in s.vault.accounts
    ensures ReachableWithin(cfg, quitters, requests, t)
    ensures t == s.(offices := s.offices[i := s.offices[i].(pc := Handle(Login))], vault := t.vault)
    ensures t.vault.accounts == s.vault.accounts && t.vault.shutdown == s.vault.shutdown
    ensures t.vault.holder == s.vault.holder && t.vault.leaked == s.vault.leaked
  {
    t := GoHandle(cfg, quitters, requests, s, i);
  }

  /** An office accepts the header of the request that it carries. */
  lemma LogIn(cfg: Config, quitters: set<nat>, requests: seq<Request>, s: State, i: nat) returns (t: State)
    requires ReachableWithin(cfg, quitters, requests, s) && !s.crashed
    requires i < |s.offices| && s.offices[i].pc == Handle(Login)
    requires HeaderVerdict(cfg.sha, s.vault.accounts, s.offices[i].req) == RC_OK
    ensures ReachableWithin(cfg, quitters, requests, t)
    ensures t == s.(offices := s.offices[i := s.offices[i].(pc := Handle(Opening(s.offices[i].req.op)))],
                    vault := t.vault)
    ensures t.vault.accounts == s.vault.accounts && t.vault.shutdown == s.vault.shutdown
    ensures t.vault.holder == s.vault.holder && t.vault.leaked == s.vault.leaked
  {
    t := GoHandle(cfg, quitters, requests, s, i);
  }

  /** An office returns its slot and accepts the header of the request that it carries. */
  lemma AcceptHeader(cfg: Config, quitters: set<nat>, requests: seq<Request>, s: State, i: nat) returns (t: State)
    requires ReachableWithin(cfg, quitters, requests, s) && !s.crashed
    requires i < |s.offices| && s.offices[i].pc == PostEmpty
    requires HeaderVerdict(cfg.sha, s.vault.accounts, s.offices[i].req) == RC_OK
    ensures ReachableWithin(cfg, quitters, requests, t)
    ensures t == s.(offices := s.offices[i := s.offices[i].(pc := Handle(Opening(s.offices[i].req.op)))],
                    hall := s.hall.(empty := s.hall.empty + 1), vault := t.vault)
    ensures t.vault.accounts == s.vault.accounts && t.vault.shutdown == s.vault.shutdown
    ensures t.vault.holder == s.vault.holder && t.vault.leaked == s.vault.leaked
  {
    t := GoRoutine(cfg, quitters, requests, s, i);
    t := FindAccount(cfg, quitters, requests, t, i);
    t := LogIn(cfg, quitters, requests, t, i);
  }

  /** The shutdown flag goes up. */
  lemma RaiseFlag(cfg: Config, quitters: set<nat>, requests: seq<Request>, s: State, i: nat) returns (t: State)
    requires ReachableWithin(cfg, quitters, requests, s) && !s.crashed
    requires i < |s.offices| && s.offices[i].pc == Handle(SetShutdown)
    ensures ReachableWithin(cfg, quitters, requests, t)
    ensures t == s.(offices := t.offices, vault := t.vault)
    ensures |t.offices| == |s.offices| && t.offices == s.offices[i := t.offices[i]]
    ensures t.offices[i].pc == Handle(ChangeMode) && t.vault.shutdown
  {
    t := GoHandle(cfg, quitters, requests, s, i);
  }

  /** The FIFO's mode changes. */
  lemma CloseToWriters(cfg: Config, quitters: set<nat>, requests: seq<Request>, s: State, i: nat) returns (t: State)
    requires ReachableWithin(cfg, quitters, requests, s) && !s.crashed
    requires i < |s.offices| && s.offices[i].pc == Handle(ChangeMode)
    ensures ReachableWithin(cfg, quitters, requests, t)
    ensures t == s.(offices := s.offices[i := s.offices[i].(pc := Handle(CloseDummy))], vault := t.vault,
                    pipe := s.pipe.(writable := false))
    ensures t.vault.shutdown == s.vault.shutdown
  {
    t := GoHandle(cfg, quitters, requests, s, i);
  }

  /** The dummy writer is closed. */
  lemma CloseWriter(cfg: Config, quitters: set<nat>, requests: seq<Request>, s: State, i: nat) returns (t: State)
    requires ReachableWithin(cfg, quitters, requests, s) && !s.crashed
    requires i < |s.offices| && s.offices[i].pc == Handle(CloseDummy)
    ensures ReachableWithin(cfg, quitters, requests, t)
    ensures t == s.(offices := s.offices[i := s.offices[i].(pc := Handle(CountActive))], vault := t.vault,
                    pipe := s.pipe.(dummy := false))
    ensures t.vault.shutdown == s.vault.shutdown
  {
    t := GoHandle(cfg, quitters, requests, s, i);
  }

  /** The active offices are counted. */
  lemma CountOne(cfg: Config, quitters: set<nat>, requests: seq<Request>, s: State, i: nat) returns (t: State)
    requires ReachableWithin(cfg, quitters, requests, s) && !s.crashed
    requires i < |s.offices| && s.offices[i].pc == Handle(CountActive)
    ensures ReachableWithin(cfg, quitters, requests, t)
    ensures t == s.(offices := t.offices, vault := t.vault)
    ensures |t.offices| == |s.offices| && t.offices == s.offices[i := t.offices[i]] && t.offices[i].pc == Handle(Send)
    ensures t.vault.shutdown == s.vault.shutdown
  {
    t := GoHandle(cfg, quitters, requests, s, i);
  }

  /** An office carries out a shutdown. */
  lemma RunShutdown(cfg: Config, quitters: set<nat>, requests: seq<Request>, s: State, i: nat) returns (t: State)
    requires ReachableWithin(cfg, quitters, requests, s) && !s.crashed
    requires i < |s.offices| && s.offices[i].pc == Handle(SetShutdown)
    ensures ReachableWithin(cfg, quitters, requests, t)
    ensures t == s.(offices := t.offices, vault := t.vault, pipe := s.pipe.(writable := false, dummy := false))
    ensures |t.offices| == |s.offices| && t.offices == s.offices[i := t.offices[i]] && t.offices[i].pc == Handle(Send)
    ensures t.vault.shutdown
  {
    t := RaiseFlag(cfg, quitters, requests, s, i);
    t := CloseToWriters(cfg, quitters, requests, t, i);
    t := CloseWriter(cfg, quitters, requests, t, i);
    t := CountOne(cfg, quitters, requests, t, i);
  }

  /** The reply is sent. */
  lemma SendOne(cfg: Config, quitters: set<nat>, requests: seq<Request>, s: State, i: nat) returns (t: State)
    requires ReachableWithin(cfg, quitters, requests, s) && !s.crashed
    requires i < |s.offices| && s.offices[i].pc == Handle(Send)
    ensures ReachableWithin(cfg, quitters, requests, t)
    ensures t == s.(offices := s.offices[i := s.offices[i].(pc := LockDown)], vault := t.vault)
    ensures t.vault.shutdown == s.vault.shutdown && t.vault.accounts == s.vault.accounts
    ensures t.vault.holder == s.vault.holder && t.vault.leaked == s.vault.leaked
  {
    t := GoHandle(cfg, quitters, requests, s, i);
  }

  /** An office counts itself inactive and waits again. */
  lemma CountOut(cfg: Config, quitters: set<nat>, requests: seq<Request>, s: State, i: nat) returns (t: State)
    requires ReachableWithin(cfg, quitters, requests, s) && !s.crashed
    requires i < |s.offices| && s.offices[i].pc == LockDown && s.tally.mutex.Free?
    ensures ReachableWithin(cfg, quitters, requests, t)
    ensures t == s.(offices := s.offices[i := s.offices[i].(pc := WaitFull)], tally := Tally(Free, s.tally.active - 1))
  {
    t := GoRoutine(cfg, quitters, requests, s, i);
    t := GoRoutine(cfg, quitters, requests, t, i);
    t := GoRoutine(cfg, quitters, requests, t, i);
  }

  /** An office handles the administrator's shutdown and waits again. */
  lemma HandleShutdown(cfg: Config, quitters: set<nat>, requests: seq<Request>, s: State, i: nat) returns (t: State)
    requires ReachableWithin(cfg, quitters, requests, s) && !s.crashed
    requires i < |s.offices| && s.offices[i].pc == PostEmpty && AuthorisedShutdown(cfg, s.offices[i].req)
    requires s.tally.mutex.Free?
    requires s.vault.accounts == map[ADMIN_ACCOUNT_ID := AdminAccount(cfg)]
    ensures ReachableWithin(cfg, quitters, requests, t) && !t.crashed && t.main == s.main && t.users == s.users
    ensures |t.offices| == |s.offices| && t.offices == s.offices[i := t.offices[i]] && t.offices[i].pc == WaitFull
    ensures t.hall == s.hall.(empty := s.hall.empty + 1) && t.tally == Tally(Free, s.tally.active - 1)
    ensures t.vault.shutdown
    ensures t.pipe == s.pipe.(writable := false, dummy := false)
  {
    t := AcceptHeader(cfg, quitters, requests, s, i);
    t := RunShutdown(cfg, quitters, requests, t, i);
    t := SendOne(cfg, quitters, requests, t, i);
    t := CountOut(cfg, quitters, requests, t, i);
  }

  /** The producer reads end-of-file and posts the first wake-up. */
  lemma FirstWake(cfg: Config, quitters: set<nat>, requests: seq<Request>, s: State) returns (t: State)
    requires ReachableWithin(cfg, quitters, requests, s) && !s.crashed && cfg.offices > 0
    requires s.main == Read && s.pipe.data == [] && NoWriters(s)
    ensures ReachableWithin(cfg, quitters, requests, t)
    ensures t == s.(main := Wake(1), hall := s.hall.(full := s.hall.full + 1), pipe := t.pipe)
  {
    t := Go(cfg, quitters, requests, s, MainActor);
    t := Go(cfg, quitters, requests, t, MainActor);
    t := Go(cfg, quitters, requests, t, MainActor);
  }

  /** Two users have written, and office 0 has popped the first of their requests. */
  lemma FirstPopped(cfg: Config, quitters: set<nat>, requests: seq<Request>, a: nat, b: nat) returns (t: State)
    requires a < |requests| && b < |requests| && a != b && cfg.offices >= 1 && !cfg.fused
    ensures ReachableWithin(cfg, quitters, requests, t) && !t.crashed && t.main == Read && |t.offices| == cfg.offices
    ensures t.offices[0].pc == PostEmpty && t.offices[0].req == requests[a]
    ensures forall j :: 0 < j < |t.offices| ==> t.offices[j].pc == WaitFull
    ensures t.hall.queue == [] && t.hall.full == 0 && |t.hall.popped| == 1
    ensures t.hall.mutex.Free? && t.tally.mutex.Free?
    ensures t.pipe.data == [requests[b]] && t.pipe.writers == [a, b]
    ensures t.users == Initial(cfg, requests).users[a := Written(requests[a])][b := Written(requests[b])]
    ensures t.vault.accounts == map[ADMIN_ACCOUNT_ID := AdminAccount(cfg)] && t.vault.holder == map[]
  {
    t := WriteBoth(cfg, quitters, requests, a, b);
    t := Produce(cfg, quitters, requests, t);
    t := PassTest(cfg, quitters, requests, t, 0);
    t := PopOne(cfg, quitters, requests, t, 0);
  }
}
