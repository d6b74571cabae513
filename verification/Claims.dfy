/**
 When an office can find the queue empty at its pop.  The emptiness test and the pop are separate
 critical sections, so two offices may pass the test for the same last request.
 */
module Claims {
  import opened Bank
  import opened Server
  import opened Gauges
  import opened HallSafety
  import opened Lifecycle
  import opened Tickets
  import opened Invariant
  import opened Users

  /** Every office that has passed the test and not popped has a request of its own in the queue. */
  predicate Covered(cfg: Config, s: State) {
    Sum(Claims, cfg.fused, s.offices) <= |s.hall.queue|
  }

  lemma {:induction false} ClaimsArePermits(fused: bool, offices: seq<Office>)
    ensures Sum(Claims, fused, offices) <= Sum(Permits, fused, offices)
  {
    if offices != [] {
      ClaimsArePermits(fused, offices[..|offices| - 1]);
    }
  }

  /** Until `closeOffices` posts, the permits cover the claims. */
  lemma CoveredBeforeWakes(cfg: Config, s: State)
    requires HallInv(cfg, s) && Wakes(cfg, s.main) == 0
    ensures Covered(cfg, s)
  {
    ClaimsArePermits(cfg.fused, s.offices);
  }

  /** A covered state pops no empty queue. */
  lemma CoveredDoesNotCrash(cfg: Config, s: State, i: nat)
    requires Covered(cfg, s) && !s.crashed && i < |s.offices|
    ensures !OfficeStep(cfg, s, i).crashed
  {
    SumAtLeast(Claims, cfg.fused, s.offices, i);
  }

  /** One of the three reasons why a test that finds a request is the only one with a claim to it. */
  predicate SafeToTest(cfg: Config, s: State) {
    cfg.fused || cfg.offices == 1 || (Ended(s.main) && s.hall.queue == [])
  }

  lemma LoneClaim(cfg: Config, s: State, i: nat)
    requires HallInv(cfg, s)
    requires i < |s.offices| && s.offices[i].pc.Test?
    requires cfg.fused || cfg.offices == 1
    ensures Sum(Claims, cfg.fused, s.offices) == 0
  {
    assert s.hall.mutex == Taken(OfficeThread(i));
    SumZeroElsewhere(Claims, cfg.fused, s.offices, i);
  }

  /** Only a passed test makes a claim, and a pop gives up a claim with its request. */
  lemma ClaimBalance(cfg: Config, s: State, i: nat)
    requires NoGap(cfg, s)
    requires i < |s.offices|
    ensures
      var office, next := s.offices[i], NextOffice(cfg, s.offices[i], s);
      Weight(Claims, cfg.fused, next) + |s.hall.queue|
      <= Weight(Claims, cfg.fused, office) + |NextHall(i, office.pc, s.hall).queue|
         + One(office.pc.Test? && !(s.vault.shutdown && s.hall.queue == []))
  {
    if s.offices[i].pc.Handle? {
      HandleMoves(cfg, s.offices[i], s.vault.accounts, s.tally.active);
    }
  }

  lemma OfficeKeepsCovered(cfg: Config, s: State, i: nat)
    requires HallInv(cfg, s) && LifeInv(s)
    requires Covered(cfg, s) && SafeToTest(cfg, s) && Wakes(cfg, s.main) > 0
    requires i < |s.offices| && OfficeEnabled(s, i)
    ensures Covered(cfg, OfficeStep(cfg, s, i))
  {
    var office, next := s.offices[i], NextOffice(cfg, s.offices[i], s);
    ClaimBalance(cfg, s, i);
    SumUpdate(Claims, cfg.fused, s.offices, i, next);
    SumAtLeast(Claims, cfg.fused, s.offices, i);
    if office.pc.Test? && (cfg.fused || cfg.offices == 1) {
      LoneClaim(cfg, s, i);
    }
  }

  lemma MainKeepsCovered(cfg: Config, s: State)
    requires HallInv(cfg, s) && Covered(cfg, s) && MainEnabled(s)
    ensures Covered(cfg, MainStep(cfg, s))
  {
    LaunchKeepsSums(cfg, s);
  }

  lemma StepKeepsCovered(cfg: Config, s: State, actor: Actor)
    requires Inv(cfg, s) && Covered(cfg, s) && Enabled(s, actor)
    requires Wakes(cfg, s.main) > 0 ==> SafeToTest(cfg, s)
    ensures var t := Step(cfg, s, actor); Covered(cfg, t) && !t.crashed
  {
    match actor
    case MainActor => MainKeepsCovered(cfg, s);
    case OfficeActor(i) =>
      CoveredDoesNotCrash(cfg, s, i);
      if Wakes(cfg, s.main) > 0 {
        OfficeKeepsCovered(cfg, s, i);
      } else {
        StepKeepsInv(cfg, s, actor);
        CoveredBeforeWakes(cfg, OfficeStep(cfg, s, i));
      }
    case UserActor(u) =>
      var t := UserStep(s, u);
      assert t.hall == s.hall && t.offices == s.offices && t.main == s.main;
  }

  lemma StepKeepsSafe(cfg: Config, s: State, actor: Actor)
    requires SafeToTest(cfg, s) && Enabled(s, actor)
    ensures SafeToTest(cfg, Step(cfg, s, actor))
  {
  }

  lemma {:induction false} CoveredRun(cfg: Config, s: State, schedule: seq<Actor>, t: State)
    requires Inv(cfg, s) && Covered(cfg, s) && SafeToTest(cfg, s) && !s.crashed
    requires Runs(cfg, s, schedule, t)
    ensures !t.crashed
    decreases |schedule|
  {
    if schedule != [] {
      StepKeepsInv(cfg, s, schedule[0]);
      StepKeepsCovered(cfg, s, schedule[0]);
      StepKeepsSafe(cfg, s, schedule[0]);
      CoveredRun(cfg, Step(cfg, s, schedule[0]), schedule[1..], t);
    }
  }

  /** With the test and the pop in one critical section, or with a single office, no run crashes. */
  lemma FusedOrSingleNeverCrashes(cfg: Config, requests: seq<Request>, schedule: seq<Actor>, t: State)
    requires cfg.fused || cfg.offices == 1
    requires Runs(cfg, Initial(cfg, requests), schedule, t)
    ensures !t.crashed
  {
    InitialInv(cfg, requests);
    CoveredBeforeWakes(cfg, Initial(cfg, requests));
    CoveredRun(cfg, Initial(cfg, requests), schedule, t);
  }

  // ----- What is left in the queue at the end -----

  /** An authorised shutdown, and another request whose user may give up. */
  predicate Rivals(cfg: Config, quitters: set<nat>, requests: seq<Request>, k: nat, l: nat) {
    k < |requests| && l < |requests| && k != l && AuthorisedShutdown(cfg, requests[k]) && l in quitters
  }

  /** No two offices can compete for the last request: a safe test, or no such pair of requests. */
  predicate Tame(cfg: Config, quitters: set<nat>, requests: seq<Request>) {
    cfg.fused || cfg.offices == 1 ||
    forall k, l :: 0 <= k < |requests| && 0 <= l < |requests| ==> !Rivals(cfg, quitters, requests, k, l)
  }

  /** A server that wakes its offices has received an authorised shutdown. */
  lemma EndMeansShutdown(cfg: Config, s: State) returns (p: nat)
    requires Inv(cfg, s) && Ended(s.main)
    ensures p < |s.hall.popped| && AuthorisedShutdown(cfg, s.hall.popped[p])
  {
    ShutdownIsAuthorised(cfg, s.vault.log);
    var l :| 0 <= l < |s.vault.log| && AuthorisedShutdown(cfg, s.vault.log[l].req);
    p := s.vault.log[l].ticket;
  }

  /** A request whose user has its reply has been popped. */
  lemma RepliedIsPopped(requests: seq<Request>, s: State, p: nat)
    requires UsersInv(requests, s) && AnswersInv(s)
    requires p < |s.pipe.writers| && HasReply(s, s.pipe.writers[p])
    ensures p < |s.hall.popped|
  {
    var k :| 0 <= k < |s.pipe.writers| && s.pipe.writers[k] == s.pipe.writers[p] && Answered(s.vault.answers, k);
    assert k == p;
  }

  /** At end-of-file, a request that is still to be popped is that of a user that gave up. */
  lemma LeftAtTheEnd(cfg: Config, quitters: set<nat>, requests: seq<Request>, s: State, p: nat)
    requires Inv(cfg, s) && UsersInv(requests, s) && PatienceInv(quitters, s) && Ended(s.main)
    requires |s.hall.popped| <= p < |s.hall.pushed|
    ensures p < |s.pipe.writers| && s.pipe.writers[p] < |requests| && s.pipe.writers[p] in quitters
  {
    var u := s.pipe.writers[p];
    assert u in s.pipe.writers && Sent(s.users[u]) && !HasWriter(s.users[u]);
    if HasReply(s, u) {
      RepliedIsPopped(requests, s, p);
    }
  }

  /** A queue that is not empty as the producer ends means a pair of rivals. */
  lemma QueueAtTheEnd(cfg: Config, quitters: set<nat>, requests: seq<Request>, s: State) returns (k: nat, l: nat)
    requires ReachableWithin(cfg, quitters, requests, s) && Ended(s.main) && s.hall.queue != []
    ensures Rivals(cfg, quitters, requests, k, l)
  {
    LeaversWereAnswered(cfg, quitters, requests, s);
    ReachableInv(cfg, requests, s);
    WrittenAreUsers(cfg, requests, s);
    var p := EndMeansShutdown(cfg, s);
    var q := |s.hall.popped|;
    LeftAtTheEnd(cfg, quitters, requests, s, q);
    assert s.hall.popped[p] == s.hall.pushed[p] == s.pipe.written[p];
    k, l := s.pipe.writers[p], s.pipe.writers[q];
  }

  lemma WakesAreSafe(cfg: Config, quitters: set<nat>, requests: seq<Request>, s: State)
    requires ReachableWithin(cfg, quitters, requests, s) && Tame(cfg, quitters, requests) && Wakes(cfg, s.main) > 0
    ensures SafeToTest(cfg, s)
  {
    if !cfg.fused && cfg.offices != 1 && s.hall.queue != [] {
      var k, l := QueueAtTheEnd(cfg, quitters, requests, s);
    }
  }

  lemma {:induction false} TameRun(cfg: Config, quitters: set<nat>, requests: seq<Request>, s: State,
                                   schedule: seq<Actor>, t: State)
    requires ReachableWithin(cfg, quitters, requests, s) && Tame(cfg, quitters, requests)
    requires Covered(cfg, s) && !s.crashed
    requires RunsWithin(cfg, quitters, s, schedule, t)
    ensures !t.crashed
    decreases |schedule|
  {
    if schedule != [] {
      LeaversWereAnswered(cfg, quitters, requests, s);
      ReachableInv(cfg, requests, s);
      if Wakes(cfg, s.main) > 0 {
        WakesAreSafe(cfg, quitters, requests, s);
      }
      StepKeepsCovered(cfg, s, schedule[0]);
      StaysReachableWithin(cfg, quitters, requests, s, schedule[0]);
      TameRun(cfg, quitters, requests, Step(cfg, s, schedule[0]), schedule[1..], t);
    }
  }

  /** No run of such traffic crashes. */
  lemma TameNeverCrashes(cfg: Config, quitters: set<nat>, requests: seq<Request>, t: State)
    requires Tame(cfg, quitters, requests) && ReachableWithin(cfg, quitters, requests, t)
    ensures !t.crashed
  {
    var start := Initial(cfg, requests);
    var schedule :| RunsWithin(cfg, quitters, start, schedule, t);
    assert RunsWithin(cfg, quitters, start, [], start);
    InitialInv(cfg, requests);
    CoveredBeforeWakes(cfg, start);
    TameRun(cfg, quitters, requests, start, schedule, t);
  }

  /**
   As written, with any number of offices and any traffic: if every user waits for its reply, no run
   pops an empty queue, and the queue is empty when the producer ends.
   */
  lemma PatientUsersNeverCrash(cfg: Config, requests: seq<Request>, t: State)
    requires ReachableWithin(cfg, {}, requests, t)
    ensures !t.crashed && (Ended(t.main) ==> t.hall.queue == [])
  {
    TameNeverCrashes(cfg, {}, requests, t);
    if Ended(t.main) && t.hall.queue != [] {
      var k, l := QueueAtTheEnd(cfg, {}, requests, t);
    }
  }

  /** As written, with any number of offices: no crash if the queue is empty as `closeOffices` starts. */
  lemma EmptyAtCloseNeverCrashes(cfg: Config, requests: seq<Request>, s: State, schedule: seq<Actor>, t: State)
    requires Reachable(cfg, requests, s) && !s.crashed && s.main == Wake(0) && s.hall.queue == []
    requires Runs(cfg, s, schedule, t)
    ensures !t.crashed
  {
    ReachableInv(cfg, requests, s);
    CoveredBeforeWakes(cfg, s);
    CoveredRun(cfg, s, schedule, t);
  }
}
