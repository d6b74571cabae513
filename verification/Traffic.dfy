/**
 Every run of a given user traffic: finite, never stuck, and complete when it stops.
 */
module Traffic {
  import opened Bank
  import opened Server
  import opened Invariant
  import opened Progress
  import opened Users
  import opened Deadlock
  import opened Claims
  import opened Drain

  /** Each written request is that of a user of its own, so good traffic stays good on its way. */
  lemma GoodTrafficArrives(requests: seq<Request>, s: State)
    requires GoodTraffic(requests) && UsersInv(requests, s)
    ensures GoodTraffic(s.pipe.written)
  {
    var written, writers := s.pipe.written, s.pipe.writers;
    forall k, l | 0 <= k < l < |written| && written[k].op.CreateAccount? && written[l].op.CreateAccount?
      ensures written[k].op.id != written[l].op.id
    {
      assert writers[k] != writers[l] && requests[writers[k]] == written[k] && requests[writers[l]] == written[l];
    }
    assert forall k :: 0 <= k < |written| ==> written[k] == requests[writers[k]];
  }

  /** No deadlock: unless the server has finished or waits for users, somebody can take a step without giving up. */
  lemma SomebodyCanMove(cfg: Config, quitters: set<nat>, requests: seq<Request>, t: State)
    requires ValidConfig(cfg) && GoodTraffic(requests)
    requires Reachable(cfg, requests, t) && !t.crashed && !Finished(t) && !WaitingForUsers(t)
    ensures exists actor :: MayAct(quitters, t, actor)
  {
    WrittenAreUsers(cfg, requests, t);
    GoodTrafficArrives(requests, t);
    if Stuck(quitters, t) {
      MaximalRun(cfg, quitters, requests, t);
    }
  }

  /**
   Termination: a run of good traffic takes at most the initial measure of steps, whatever the schedule
   and whoever gives up.  If no two offices can compete for the last request -- in the code as written,
   when every user waits for its reply -- it never crashes, and it can only stop when every user has
   gone and each request that a user wrote has been answered exactly once, and with every office joined
   if one of them was an authorised shutdown.
   */
  lemma EveryRunDrains(cfg: Config, quitters: set<nat>, requests: seq<Request>, schedule: seq<Actor>, t: State)
    requires ValidConfig(cfg) && Tame(cfg, quitters, requests) && GoodTraffic(requests)
    requires RunsWithin(cfg, quitters, Initial(cfg, requests), schedule, t)
    ensures |schedule| <= Measure(cfg, Initial(cfg, requests))
    ensures !t.crashed
    ensures Stuck(quitters, t) ==>
      && (Finished(t) || WaitingForUsers(t))
      && (forall u :: 0 <= u < |t.users| ==> t.users[u].Gone?)
      && |t.vault.answers| == |t.pipe.written|
      && (forall k :: 0 <= k < |t.pipe.written| ==> AnsweredOnce(t.vault.answers, k))
      && EverybodyServed(t)
      && (ShutdownSent(cfg, t.users) ==> Finished(t))
  {
    InitialInv(cfg, requests);
    RunsWithinRuns(cfg, quitters, Initial(cfg, requests), schedule, t);
    RunsAreFinite(cfg, Initial(cfg, requests), schedule, t);
    TameNeverCrashes(cfg, quitters, requests, t);
    if Stuck(quitters, t) {
      LeaversWereAnswered(cfg, quitters, requests, t);
      WrittenAreUsers(cfg, requests, t);
      GoodTrafficArrives(requests, t);
      MaximalRun(cfg, quitters, requests, t);
    }
  }

  /** As written, with any number of offices: good traffic whose users wait for their replies always drains. */
  lemma PatientTrafficDrains(cfg: Config, requests: seq<Request>, schedule: seq<Actor>, t: State)
    requires ValidConfig(cfg) && GoodTraffic(requests)
    requires RunsWithin(cfg, {}, Initial(cfg, requests), schedule, t)
    ensures |schedule| <= Measure(cfg, Initial(cfg, requests)) && !t.crashed
    ensures Stuck({}, t) ==>
      && (Finished(t) || WaitingForUsers(t)) && EverybodyServed(t)
      && (forall u :: 0 <= u < |t.users| ==> t.users[u].Gone?)
      && (ShutdownSent(cfg, t.users) ==> Finished(t))
  {
    EveryRunDrains(cfg, {}, requests, schedule, t);
  }
}
