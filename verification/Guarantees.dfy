/**
 What users and maintainers can rely on in every reachable state and along every run.
 */
module Guarantees {
  import opened Bank
  import opened Server
  import opened Gauges
  import opened HallSafety
  import opened Tickets
  import opened Locks
  import opened Books
  import opened Lifecycle
  import opened Invariant

  // ----- Requests take effect one at a time -----

  lemma AnswersAreLogged(s: State, a: nat)
    requires AnswersInv(s) && a < |s.vault.answers|
    ensures
      var log, answer := s.vault.log, s.vault.answers[a];
      exists k :: 0 <= k < |log| && log[k].ticket == answer.ticket && log[k].reply == Mask(answer.reply)
  {
    var k := Position(s.vault.log, s.vault.answers[a].ticket);
    assert s.vault.log[k].ticket == s.vault.answers[a].ticket;
  }

  /** What is not being worked on is as the books have it. */
  lemma TableIsBooks(cfg: Config, s: State, id: int)
    requires BooksInv(cfg, s) && Installed(s.main)
    requires id in Replay(cfg, s.vault.log).accounts && id !in Live(s.vault)
    ensures id in s.vault.accounts && s.vault.accounts[id] == Replay(cfg, s.vault.log).accounts[id]
  {
    SeenUnlocked(s.offices, Live(s.vault), id, Replay(cfg, s.vault.log).accounts[id].balance);
  }

  /**
   Every reachable state is explained by the requests in the log run one at a time, in log order: the
   logged replies are those of that sequential run, each answer is the logged reply of its request
   (up to the office count of a shutdown), no request is logged twice, and the account table equals the
   sequential one at every account whose mutex is not held inside a critical section.
   */
  lemma Linearizable(cfg: Config, requests: seq<Request>, t: State)
    requires Reachable(cfg, requests, t)
    ensures
      var log, books := t.vault.log, Replay(cfg, t.vault.log);
      && (forall k :: 0 <= k < |log| ==>
            log[k].reply == Execute(cfg.sha, cfg.salt(log[k].ticket), Replay(cfg, log[..k]), log[k].req).reply)
      && (forall k :: 0 <= k < |log| ==> log[k].ticket < |t.hall.popped| && log[k].req == t.hall.popped[log[k].ticket])
      && (forall k, l :: 0 <= k < l < |log| ==> log[k].ticket != log[l].ticket)
      && (forall a :: 0 <= a < |t.vault.answers| ==>
            exists k :: 0 <= k < |log| && log[k].ticket == t.vault.answers[a].ticket &&
                        log[k].reply == Mask(t.vault.answers[a].reply))
      && t.vault.shutdown == books.shutdown
      && (Installed(t.main) ==>
            && t.vault.accounts.Keys == books.accounts.Keys
            && forall id :: id in books.accounts && id !in Live(t.vault) ==> t.vault.accounts[id] == books.accounts[id])
  {
    ReachableInv(cfg, requests, t);
    forall a | 0 <= a < |t.vault.answers|
      ensures exists k :: 0 <= k < |t.vault.log| && t.vault.log[k].ticket == t.vault.answers[a].ticket &&
                          t.vault.log[k].reply == Mask(t.vault.answers[a].reply)
    {
      AnswersAreLogged(t, a);
    }
    if Installed(t.main) {
      forall id | id in Replay(cfg, t.vault.log).accounts && id !in Live(t.vault)
        ensures id in t.vault.accounts && t.vault.accounts[id] == Replay(cfg, t.vault.log).accounts[id]
      {
        TableIsBooks(cfg, t, id);
      }
    }
  }

  /** What a step leaves behind it: histories only grow, and so do the accounts. */
  predicate Grows(s: State, t: State) {
    && s.vault.log <= t.vault.log && s.vault.answers <= t.vault.answers
    && s.hall.popped <= t.hall.popped && s.hall.pushed <= t.hall.pushed
    && (Installed(s.main) ==> Installed(t.main) && Extends(s.vault.accounts, t.vault.accounts))
    && (Ended(s.main) ==> Ended(t.main) && t.hall.pushed == s.hall.pushed)
  }

  lemma OfficeAppends(cfg: Config, s: State, i: nat)
    requires i < |s.offices|
    ensures
      var t := OfficeStep(cfg, s, i);
      && s.vault.log <= t.vault.log && s.vault.answers <= t.vault.answers
      && s.hall.popped <= t.hall.popped && t.hall.pushed == s.hall.pushed
  {
  }

  lemma OfficeExtends(cfg: Config, s: State, i: nat)
    requires BooksInv(cfg, s) && Installed(s.main) && i < |s.offices|
    ensures Extends(s.vault.accounts, OfficeStep(cfg, s, i).vault.accounts)
  {
    var office, ledger := s.offices[i], Replay(cfg, s.vault.log);
    if office.pc.Handle? {
      assert Facts(cfg, office, s.vault.accounts, ledger.accounts);
      StepKeepsCredentials(cfg, office, s.vault.accounts, ledger);
    }
  }

  lemma MainGrows(cfg: Config, s: State)
    requires LifeInv(s) && MainEnabled(s)
    ensures Grows(s, MainStep(cfg, s))
  {
  }

  lemma OfficeGrows(cfg: Config, s: State, i: nat)
    requires BooksInv(cfg, s) && i < |s.offices|
    ensures Grows(s, OfficeStep(cfg, s, i))
  {
    OfficeAppends(cfg, s, i);
    if Installed(s.main) {
      OfficeExtends(cfg, s, i);
    }
  }

  lemma StepGrows(cfg: Config, s: State, actor: Actor)
    requires Inv(cfg, s) && Enabled(s, actor)
    ensures Grows(s, Step(cfg, s, actor))
  {
    match actor
    case MainActor => MainGrows(cfg, s);
    case OfficeActor(i) =>
      OfficeGrows(cfg, s, i);
    case UserActor(u) =>
      var t := UserStep(s, u);
      assert t.vault == s.vault && t.hall == s.hall && t.main == s.main;
  }

  lemma {:induction false} RunGrows(cfg: Config, s: State, schedule: seq<Actor>, t: State)
    requires Inv(cfg, s) && Runs(cfg, s, schedule, t)
    ensures Grows(s, t)
    decreases |schedule|
  {
    if schedule != [] {
      var m := Step(cfg, s, schedule[0]);
      StepGrows(cfg, s, schedule[0]);
      StepKeepsInv(cfg, s, schedule[0]);
      RunGrows(cfg, m, schedule[1..], t);
      if Installed(s.main) {
        ExtendsTransitive(s.vault.accounts, m.vault.accounts, t.vault.accounts);
      }
    }
  }

  /** A request answered before another one is popped takes effect before it. */
  lemma RealTimeOrder(cfg: Config, requests: seq<Request>, s: State, schedule: seq<Actor>, t: State,
                      early: nat, late: nat)
    requires Reachable(cfg, requests, s) && Runs(cfg, s, schedule, t)
    requires Answered(s.vault.answers, early) && late >= |s.hall.popped|
    requires Logged(t.vault.log, late)
    ensures Logged(t.vault.log, early) && Position(t.vault.log, early) < Position(t.vault.log, late)
  {
    ReachableInv(cfg, requests, s);
    RunGrows(cfg, s, schedule, t);
    RunKeepsInv(cfg, s, schedule, t);
    var a :| 0 <= a < |s.vault.answers| && s.vault.answers[a].ticket == early;
    assert Logged(s.vault.log, early);
    EarlierStays(s.vault.log, t.vault.log, early, late);
  }

  /** In a longer log, a ticket that was there comes before one that was not. */
  lemma EarlierStays(log: seq<Entry>, longer: seq<Entry>, early: nat, late: nat)
    requires log <= longer && Logged(log, early) && Logged(longer, late)
    requires forall k :: 0 <= k < |log| ==> log[k].ticket < late
    requires forall k, l :: 0 <= k < l < |longer| ==> longer[k].ticket != longer[l].ticket
    ensures Logged(longer, early) && Position(longer, early) < Position(longer, late)
  {
    var p, q := Position(log, early), Position(longer, late);
    assert longer[p] == log[p];
    assert forall k :: 0 <= k < |log| ==> longer[k] == log[k];
    PositionIsUnique(longer, early, p);
  }

  lemma PositionIsUnique(log: seq<Entry>, ticket: nat, p: nat)
    requires p < |log| && log[p].ticket == ticket
    requires forall k, l :: 0 <= k < l < |log| ==> log[k].ticket != log[l].ticket
    ensures Position(log, ticket) == p
  {
    var q := Position(log, ticket);
    assert q < |log|;
  }

  // ----- The unlocked login check -----

  /** A header that passes on an existing account passes again at every later moment of every run. */
  lemma LoginStaysValid(cfg: Config, requests: seq<Request>, s: State, schedule: seq<Actor>, t: State, req: Request)
    requires Reachable(cfg, requests, s) && Runs(cfg, s, schedule, t) && Installed(s.main)
    requires req.account in s.vault.accounts
    ensures HeaderVerdict(cfg.sha, t.vault.accounts, req) == HeaderVerdict(cfg.sha, s.vault.accounts, req)
  {
    ReachableInv(cfg, requests, s);
    RunGrows(cfg, s, schedule, t);
    LoginIsStable(cfg.sha, s.vault.accounts, t.vault.accounts, req);
  }

  // ----- Who writes what -----

  /** An office that changes an account, or adds one, holds that account's mutex. */
  lemma WritersHoldTheMutex(cfg: Config, requests: seq<Request>, s: State, i: nat, id: int)
    requires Reachable(cfg, requests, s) && i < |s.offices|
    requires
      var accounts := OfficeStep(cfg, s, i).vault.accounts;
      !(id in accounts <==> id in s.vault.accounts) || (id in accounts && accounts[id] != s.vault.accounts[id])
    ensures id in s.vault.holder && s.vault.holder[id] == OfficeThread(i) && id !in s.vault.leaked
  {
    ReachableInv(cfg, requests, s);
    WriterHolds(cfg, s.offices[i], s.vault.accounts, Replay(cfg, s.vault.log).accounts, id);
    HolderExactly(s, i, id);
  }

  lemma WriterHolds(cfg: Config, office: Office, accounts: Accounts, books: Accounts, id: int)
    requires Facts(cfg, office, accounts, books)
    requires
      var next := NextAccounts(cfg, office, accounts);
      !(id in next <==> id in accounts) || (id in next && next[id] != accounts[id])
    ensures Holds(office, id)
  {
  }

  /**
   A locked mutex that no thread is inside the critical section of is exactly one on which a creation
   was answered RC_ID_IN_USE.
   */
  lemma LeakedExactlyWhenRefused(cfg: Config, requests: seq<Request>, s: State, id: int)
    requires Reachable(cfg, requests, s)
    ensures (id in s.vault.holder && id !in Live(s.vault)) <==> id in RefusedIds(s.vault.log)
    ensures id in Live(s.vault) ==>
      match s.vault.holder[id]
      case MainThread => id == ADMIN_ACCOUNT_ID && AdminHolds(s.main)
      case OfficeThread(j) => j < |s.offices| && Holds(s.offices[j], id)
  {
    ReachableInv(cfg, requests, s);
  }

  // ----- Queue and semaphores -----

  /** First in, first out, never more than the number of offices, and each request to the office that popped it. */
  lemma QueueIsFifoAndBounded(cfg: Config, requests: seq<Request>, t: State)
    requires Reachable(cfg, requests, t)
    ensures t.hall.popped + t.hall.queue == t.hall.pushed
    ensures |t.hall.queue| <= cfg.offices
    ensures !t.main.InitSync? ==>
      t.hall.empty + |t.hall.queue| + Taking(t.main) + Sum(Slots, cfg.fused, t.offices) == cfg.offices
    ensures |t.hall.poppers| == |t.hall.popped|
    ensures forall j, k ::
      0 <= j < k < |t.offices| && Carries(cfg.fused, t.offices[j].pc) && Carries(cfg.fused, t.offices[k].pc) ==>
        t.offices[j].ticket != t.offices[k].ticket
    ensures forall j :: 0 <= j < |t.offices| && Carries(cfg.fused, t.offices[j].pc) ==>
      t.offices[j].ticket < |t.hall.popped| && t.offices[j].req == t.hall.popped[t.offices[j].ticket]
      && t.hall.poppers[t.offices[j].ticket] == j
  {
    ReachableInv(cfg, requests, t);
  }

  /** The permit law at all times, and before any wake-up: a permit means a request, and nobody leaves. */
  lemma PermitsMeanRequests(cfg: Config, requests: seq<Request>, t: State)
    requires Reachable(cfg, requests, t)
    ensures t.hall.full + Sum(Permits, cfg.fused, t.offices) + Posting(t.main) + Sum(Exits, cfg.fused, t.offices)
         == |t.hall.queue| + Wakes(cfg, t.main)
    ensures Wakes(cfg, t.main) == 0 ==> forall j :: 0 <= j < |t.offices| ==>
      && !t.offices[j].pc.Exited? && !t.offices[j].pc.UnlockQuit?
      && (Weight(Permits, cfg.fused, t.offices[j]) == 1 ==> t.hall.queue != [])
  {
    ReachableInv(cfg, requests, t);
    forall j | 0 <= j < |t.offices|
      ensures Weight(Permits, cfg.fused, t.offices[j]) <= Sum(Permits, cfg.fused, t.offices)
    {
      SumAtLeast(Permits, cfg.fused, t.offices, j);
    }
  }

  /** The counter that a shutdown reads is the number of offices counted in, its own among them. */
  lemma ActiveCountIsInRange(cfg: Config, requests: seq<Request>, t: State, i: nat)
    requires Reachable(cfg, requests, t)
    requires i < |t.offices| && t.offices[i].pc == Handle(CountActive)
    ensures t.tally.active == Sum(Actives, cfg.fused, t.offices)
    ensures 0 <= t.tally.active - 1 < cfg.offices
  {
    ReachableInv(cfg, requests, t);
    ActiveCountLaw(cfg, t, i);
  }

  lemma ActiveCountLaw(cfg: Config, s: State, i: nat)
    requires ActiveLaw(cfg, s) && |s.offices| == cfg.offices
    requires i < |s.offices| && s.offices[i].pc == Handle(CountActive)
    ensures 0 <= s.tally.active - 1 < cfg.offices
  {
    SumAtLeast(Actives, cfg.fused, s.offices, i);
    SumFull(Actives, cfg.fused, s.offices);
  }

  // ----- Start-up and shutdown -----

  /** No office leaves its first wait before the accounts, the administrator and the queue are in place. */
  lemma LaunchIsSafe(cfg: Config, requests: seq<Request>, t: State)
    requires Reachable(cfg, requests, t)
    ensures forall j :: 0 <= j < |t.offices| && !t.offices[j].pc.Unborn? && !t.offices[j].pc.WaitFull? ==>
      t.vault.ready && t.hall.ready && Installed(t.main)
    ensures Installed(t.main) ==>
      && ADMIN_ACCOUNT_ID in t.vault.accounts
      && t.vault.accounts[ADMIN_ACCOUNT_ID] == Account(cfg.adminSalt, cfg.sha(cfg.adminPassword + cfg.adminSalt), 0)
  {
    ReachableInv(cfg, requests, t);
    AdminIsFixed(cfg, t.vault.log);
    var live := Live(t.vault);
    if Installed(t.main) && ADMIN_ACCOUNT_ID in live && live[ADMIN_ACCOUNT_ID].OfficeThread? {
      var office := t.offices[live[ADMIN_ACCOUNT_ID].index];
      assert Facts(cfg, office, t.vault.accounts, Replay(cfg, t.vault.log).accounts);
    }
  }

  /**
   The producer ends its loop only after an authorised shutdown has taken effect, and every wake-up
   comes after the last push.
   */
  lemma ShutdownCausesTheEnd(cfg: Config, requests: seq<Request>, s: State, schedule: seq<Actor>, t: State)
    requires Reachable(cfg, requests, s) && Runs(cfg, s, schedule, t)
    ensures Ended(s.main) ==>
      && s.vault.shutdown && !s.pipe.dummy && s.pipe.data == []
      && (exists k :: 0 <= k < |s.vault.log| && AuthorisedShutdown(cfg, s.vault.log[k].req))
      && t.hall.pushed == s.hall.pushed
    ensures Wakes(cfg, s.main) > 0 ==> Ended(s.main)
    ensures s.vault.shutdown <==> exists k :: 0 <= k < |s.vault.log| && AuthorisedShutdown(cfg, s.vault.log[k].req)
  {
    ReachableInv(cfg, requests, s);
    ShutdownIsAuthorised(cfg, s.vault.log);
    RunGrows(cfg, s, schedule, t);
  }
}
