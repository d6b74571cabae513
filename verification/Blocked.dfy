/**
 Offices that no run can ever move: exactly those whose chain of account mutexes ends at one that
 will not be unlocked.
 */
module Blocked {
  import opened Bank
  import opened Server
  import opened Gauges
  import opened HallSafety
  import opened Tickets
  import opened Locks
  import opened Books
  import opened Invariant
  import opened Progress
  import opened Deadlock
  import opened Drain

  // ----- What blocked means -----

  /** The office waits for an account mutex, and in every continuation of the run it stays where it is. */
  ghost predicate BlockedForever(cfg: Config, s: State, i: nat) {
    && i < |s.offices| && Awaits(s.offices[i]).Some?
    && forall schedule, t :: Runs(cfg, s, schedule, t) ==> i < |t.offices| && t.offices[i] == s.offices[i]
  }

  /** The office is about to find that the account it creates exists, and to return with the mutex locked. */
  predicate AboutToLeak(office: Office, accounts: Accounts) {
    office.pc == Handle(CreateTest) && Target(office.req) in accounts
  }

  /**
   A locked mutex that will not be unlocked: it was leaked, or its holder is about to leak it, or its
   holder is a transfer that waits for the same mutex again, or for a lower one that is doomed itself.
   */
  predicate Doomed(s: State, id: int)
    decreases id
  {
    id in s.vault.holder &&
    (id in s.vault.leaked ||
     match s.vault.holder[id]
     case MainThread => false
     case OfficeThread(j) =>
       j < |s.offices| &&
       (AboutToLeak(s.offices[j], s.vault.accounts) ||
        (s.offices[j].pc == Handle(TransferSecond) &&
         var lower := SecondLock(s.offices[j].req);
         lower == id || (lower < id && Doomed(s, lower)))))
  }

  // ----- A doomed mutex stays locked -----

  lemma {:induction false} DoomedFrame(s: State, t: State, id: int)
    requires Doomed(s, id) && t.offices == s.offices && t.vault == s.vault
    ensures Doomed(t, id)
    decreases id
  {
    if id !in s.vault.leaked {
      var office := s.offices[s.vault.holder[id].index];
      if office.pc == Handle(TransferSecond) && SecondLock(office.req) < id {
        DoomedFrame(s, t, SecondLock(office.req));
      }
    }
  }

  /** Nothing is doomed before the server serves. */
  lemma DoomedIsServing(cfg: Config, s: State, id: int)
    requires Inv(cfg, s) && Doomed(s, id)
    ensures !Starting(s.main)
  {
    if id in s.vault.leaked {
      LeaksAreServing(cfg, s, id);
    } else {
      HandlersAreServing(s, s.vault.holder[id].index);
    }
  }

  lemma LeaksAreServing(cfg: Config, s: State, id: int)
    requires BooksInv(cfg, s) && s.vault.leaked == RefusedIds(s.vault.log) && id in s.vault.leaked
    ensures !Starting(s.main)
  {
  }

  lemma HandlersAreServing(s: State, j: nat)
    requires StartingInv(s) && j < |s.offices| && s.offices[j].pc.Handle?
    ensures !Starting(s.main)
  {
  }

  /** What the holder of an account mutex holds, if nobody has leaked it. */
  lemma HolderHolds(s: State, id: int)
    requires LockInv(s) && id in s.vault.holder && id !in s.vault.leaked && s.vault.holder[id].OfficeThread?
    ensures s.vault.holder[id].index < |s.offices| && Holds(s.offices[s.vault.holder[id].index], id)
  {
    assert id in Live(s.vault);
  }

  /** An office step leaves a mutex alone that is leaked or that another thread holds. */
  lemma HolderStays(cfg: Config, s: State, j: nat, id: int)
    requires LockInv(s) && j < |s.offices| && OfficeEnabled(s, j)
    requires id in s.vault.holder && (id in s.vault.leaked || s.vault.holder[id] != OfficeThread(j))
    ensures var t := OfficeStep(cfg, s, j); id in t.vault.holder && t.vault.holder[id] == s.vault.holder[id]
  {
    HeldForNext(s, j);
    if Unlocks(s.offices[j]) == Some(id) {
      HolderExactly(s, j, id);
    }
  }

  /** The holder of a doomed mutex, when it steps, leaks it. */
  lemma HolderLeaks(cfg: Config, s: State, j: nat, id: int)
    requires Inv(cfg, s) && Doomed(s, id) && id !in s.vault.leaked && s.vault.holder[id] == OfficeThread(j)
    requires OfficeEnabled(s, j)
    ensures Doomed(OfficeStep(cfg, s, j), id)
  {
    HolderHolds(s, id);
    assert s.offices[j].pc == Handle(CreateTest) && Target(s.offices[j].req) == id;
    assert id in OfficeStep(cfg, s, j).vault.leaked;
  }

  lemma {:induction false} OfficeKeepsDoomed(cfg: Config, s: State, j: nat, id: int)
    requires Inv(cfg, s) && Doomed(s, id) && j < |s.offices| && OfficeEnabled(s, j)
    ensures Doomed(OfficeStep(cfg, s, j), id)
    decreases id
  {
    var t := OfficeStep(cfg, s, j);
    if id !in s.vault.leaked && s.vault.holder[id] == OfficeThread(j) {
      HolderLeaks(cfg, s, j, id);
    } else {
      HolderStays(cfg, s, j, id);
      assert s.vault.leaked <= t.vault.leaked;
      if id !in s.vault.leaked {
        var k := s.vault.holder[id].index;
        assert t.offices[k] == s.offices[k];
        if AboutToLeak(s.offices[k], s.vault.accounts) {
          AccountsStay(cfg, s.offices[j], s.vault.accounts);
        } else if SecondLock(s.offices[k].req) < id {
          OfficeKeepsDoomed(cfg, s, j, SecondLock(s.offices[k].req));
        }
      }
    }
  }

  lemma AccountsStay(cfg: Config, office: Office, accounts: Accounts)
    ensures accounts.Keys <= NextAccounts(cfg, office, accounts).Keys
  {
  }

  lemma StepKeepsDoomed(cfg: Config, s: State, actor: Actor, id: int)
    requires Inv(cfg, s) && Doomed(s, id) && Enabled(s, actor)
    ensures Doomed(Step(cfg, s, actor), id)
  {
    match actor
    case MainActor =>
      DoomedIsServing(cfg, s, id);
      MainMovesNobody(cfg, s);
      DoomedFrame(s, MainStep(cfg, s), id);
    case OfficeActor(j) => OfficeKeepsDoomed(cfg, s, j, id);
    case UserActor(u) => DoomedFrame(s, UserStep(s, u), id);
  }

  /** An office that waits for a doomed mutex is not moved by anybody's step. */
  lemma WaiterStays(cfg: Config, s: State, actor: Actor, i: nat)
    requires Inv(cfg, s) && i < |s.offices| && Awaits(s.offices[i]).Some? && Doomed(s, Awaits(s.offices[i]).value)
    requires Enabled(s, actor)
    ensures var t := Step(cfg, s, actor); |t.offices| == |s.offices| && t.offices[i] == s.offices[i]
  {
    match actor
    case MainActor =>
      DoomedIsServing(cfg, s, Awaits(s.offices[i]).value);
      MainMovesNobody(cfg, s);
    case OfficeActor(j) => OthersMoveOthers(cfg, s, j, i);
    case UserActor(u) =>
      assert UserStep(s, u).offices == s.offices;
  }

  lemma MainMovesNobody(cfg: Config, s: State)
    requires !Starting(s.main)
    ensures MainStep(cfg, s).offices == s.offices && MainStep(cfg, s).vault == s.vault
  {
  }

  lemma OthersMoveOthers(cfg: Config, s: State, j: nat, i: nat)
    requires i < |s.offices| && Awaits(s.offices[i]).Some? && Awaits(s.offices[i]).value in s.vault.holder
    requires j < |s.offices| && OfficeEnabled(s, j)
    ensures var t := OfficeStep(cfg, s, j); |t.offices| == |s.offices| && t.offices[i] == s.offices[i]
  {
    assert j != i;
  }

  lemma {:induction false} DoomedStaysDoomed(cfg: Config, s: State, schedule: seq<Actor>, t: State, i: nat)
    requires Inv(cfg, s) && i < |s.offices| && Awaits(s.offices[i]).Some? && Doomed(s, Awaits(s.offices[i]).value)
    requires Runs(cfg, s, schedule, t)
    ensures i < |t.offices| && t.offices[i] == s.offices[i] && Doomed(t, Awaits(s.offices[i]).value)
    decreases |schedule|
  {
    if schedule != [] {
      WaiterStays(cfg, s, schedule[0], i);
      StepKeepsDoomed(cfg, s, schedule[0], Awaits(s.offices[i]).value);
      StepKeepsInv(cfg, s, schedule[0]);
      DoomedStaysDoomed(cfg, Step(cfg, s, schedule[0]), schedule[1..], t, i);
    }
  }

  // ----- Any other mutex can be unlocked -----

  /** The office holds the mutex and nothing stands between it and the unlock. */
  predicate CanRelease(s: State, j: nat, id: int) {
    && j < |s.offices| && Holds(s.offices[j], id)
    && s.offices[j].pc != Handle(TransferSecond) && !AboutToLeak(s.offices[j], s.vault.accounts)
  }

  /** What the search for a run keeps: a server that has not crashed, that is serving, and that `s` can lead to. */
  ghost predicate OnTheWay(cfg: Config, requests: seq<Request>, s: State, t: State) {
    Reachable(cfg, requests, t) && !t.crashed && !Starting(t.main) && Leads(cfg, s, t) && |t.offices| == |s.offices|
  }

  lemma StepOnTheWay(cfg: Config, requests: seq<Request>, s: State, m: State, j: nat) returns (t: State)
    requires OnTheWay(cfg, requests, s, m) && j < |m.offices| && m.offices[j].pc.Handle? && OfficeEnabled(m, j)
    ensures OnTheWay(cfg, requests, s, t) && t == OfficeStep(cfg, m, j)
  {
    t := Step(cfg, m, OfficeActor(j));
    StaysReachable(cfg, requests, m, OfficeActor(j));
    LeadsOn(cfg, s, m, OfficeActor(j));
  }

  /** Office `j` is the only one that may have moved. */
  predicate OnlyMoved(s: State, t: State, j: nat) {
    |t.offices| == |s.offices| && forall k :: 0 <= k < |s.offices| && k != j ==> t.offices[k] == s.offices[k]
  }

  /** The step of such an office unlocks the mutex, or brings it nearer to that. */
  lemma ReleaseStep(cfg: Config, requests: seq<Request>, s: State, j: nat, id: int)
    requires Reachable(cfg, requests, s) && CanRelease(s, j, id)
    ensures OfficeEnabled(s, j) && s.offices[j].pc.Handle?
    ensures
      var t := OfficeStep(cfg, s, j);
      && OnlyMoved(s, t, j)
      && (if Unlocks(s.offices[j]) == Some(id) then id !in t.vault.holder
          else CanRelease(t, j, id) && Rank(cfg.fused, t.offices[j].pc) < Rank(cfg.fused, s.offices[j].pc))
  {
    ReachableInv(cfg, requests, s);
    HoldsChange(cfg, s.offices[j], s);
    HandlingFalls(cfg, s.offices[j], s.vault.accounts, s.tally.active);
  }

  lemma {:induction false} Release(cfg: Config, requests: seq<Request>, s: State, m: State, j: nat, id: int)
    returns (t: State)
    requires OnTheWay(cfg, requests, s, m) && CanRelease(m, j, id)
    ensures OnTheWay(cfg, requests, s, t) && id !in t.vault.holder && OnlyMoved(m, t, j)
    decreases Rank(cfg.fused, m.offices[j].pc)
  {
    ReleaseStep(cfg, requests, m, j, id);
    t := StepOnTheWay(cfg, requests, s, m, j);
    if Unlocks(m.offices[j]) != Some(id) {
      t := Release(cfg, requests, s, t, j, id);
    }
  }

  ghost predicate HoldsNoneUpTo(office: Office, id: int) {
    forall x :: x <= id ==> !Holds(office, x)
  }

  /** Offices that hold no mutex up to `id` are where they were. */
  ghost predicate OthersStay(s: State, t: State, id: int) {
    && |t.offices| == |s.offices|
    && forall k :: 0 <= k < |s.offices| && HoldsNoneUpTo(s.offices[k], id) ==> t.offices[k] == s.offices[k]
  }

  lemma LiveHolder(cfg: Config, requests: seq<Request>, s: State, id: int) returns (j: nat)
    requires Reachable(cfg, requests, s) && !Starting(s.main) && id in s.vault.holder && !Doomed(s, id)
    ensures j < |s.offices| && Holds(s.offices[j], id) && s.vault.holder[id] == OfficeThread(j)
    ensures !AboutToLeak(s.offices[j], s.vault.accounts)
    ensures s.offices[j].pc == Handle(TransferSecond) ==>
      var lower := SecondLock(s.offices[j].req);
      FirstLock(s.offices[j].req) == id && lower < id && !Doomed(s, lower)
  {
    ReachableInv(cfg, requests, s);
    assert id in Live(s.vault);
    j := s.vault.holder[id].index;
    HolderHolds(s, id);
  }

  lemma OneMoreMoved(s: State, m: State, t: State, lower: int, j: nat, id: int)
    requires OthersStay(s, m, lower) && lower <= id
    requires OnlyMoved(m, t, j) && j < |s.offices| && Holds(s.offices[j], id)
    ensures OthersStay(s, t, id)
  {
    forall k | 0 <= k < |s.offices| && HoldsNoneUpTo(s.offices[k], id) ensures t.offices[k] == s.offices[k] {
      assert HoldsNoneUpTo(s.offices[k], lower);
    }
  }

  /** An office takes a free mutex that it waits for; a transfer that takes its second one can release both. */
  lemma Acquire(cfg: Config, requests: seq<Request>, s: State, m: State, j: nat) returns (t: State)
    requires OnTheWay(cfg, requests, s, m) && j < |m.offices|
    requires Awaits(m.offices[j]).Some? && Awaits(m.offices[j]).value !in m.vault.holder
    ensures OnTheWay(cfg, requests, s, t) && OnlyMoved(m, t, j) && t.offices[j] != m.offices[j]
    ensures m.offices[j].pc == Handle(TransferSecond) ==> CanRelease(t, j, FirstLock(m.offices[j].req))
  {
    AcquireStep(cfg, m, j);
    t := StepOnTheWay(cfg, requests, s, m, j);
  }

  lemma AcquireStep(cfg: Config, s: State, j: nat)
    requires j < |s.offices| && Awaits(s.offices[j]).Some? && Awaits(s.offices[j]).value !in s.vault.holder
    ensures s.offices[j].pc.Handle? && OfficeEnabled(s, j)
    ensures var t := OfficeStep(cfg, s, j);
      && OnlyMoved(s, t, j) && t.offices[j] != s.offices[j]
      && (s.offices[j].pc == Handle(TransferSecond) ==> CanRelease(t, j, FirstLock(s.offices[j].req)))
  {
  }

  lemma AcquireAndRelease(cfg: Config, requests: seq<Request>, s: State, m: State, j: nat, id: int) returns (t: State)
    requires OnTheWay(cfg, requests, s, m) && j < |m.offices|
    requires m.offices[j].pc == Handle(TransferSecond) && FirstLock(m.offices[j].req) == id
    requires SecondLock(m.offices[j].req) !in m.vault.holder
    ensures OnTheWay(cfg, requests, s, t) && id !in t.vault.holder && OnlyMoved(m, t, j)
  {
    var taken := Acquire(cfg, requests, s, m, j);
    t := Release(cfg, requests, s, taken, j, id);
  }

  /** A locked mutex that is not doomed is unlocked by some run that moves only holders of mutexes up to it. */
  lemma {:induction false} FreeUp(cfg: Config, requests: seq<Request>, s: State, id: int) returns (t: State)
    requires OnTheWay(cfg, requests, s, s) && id in s.vault.holder && !Doomed(s, id)
    ensures OnTheWay(cfg, requests, s, t) && id !in t.vault.holder && OthersStay(s, t, id)
    decreases id, 1
  {
    var j := LiveHolder(cfg, requests, s, id);
    if s.offices[j].pc == Handle(TransferSecond) {
      t := FreeSecond(cfg, requests, s, j, id);
    } else {
      t := Release(cfg, requests, s, s, j, id);
      OneMoreMoved(s, s, t, id, j, id);
    }
  }

  lemma {:induction false} FreeSecond(cfg: Config, requests: seq<Request>, s: State, j: nat, id: int) returns (t: State)
    requires OnTheWay(cfg, requests, s, s) && j < |s.offices| && Holds(s.offices[j], id)
    requires s.offices[j].pc == Handle(TransferSecond) && FirstLock(s.offices[j].req) == id
    requires SecondLock(s.offices[j].req) < id && !Doomed(s, SecondLock(s.offices[j].req))
    ensures OnTheWay(cfg, requests, s, t) && id !in t.vault.holder && OthersStay(s, t, id)
    decreases id, 0
  {
    var lower := SecondLock(s.offices[j].req);
    var m := s;
    if lower in s.vault.holder {
      m := FreeUp(cfg, requests, s, lower);
    }
    assert HoldsNoneUpTo(s.offices[j], lower);
    t := AcquireAndRelease(cfg, requests, s, m, j, id);
    OneMoreMoved(s, m, t, lower, j, id);
  }

  // ----- Exactly who is blocked -----

  lemma CanMove(cfg: Config, requests: seq<Request>, s: State, i: nat)
    requires Reachable(cfg, requests, s) && !s.crashed && i < |s.offices| && Awaits(s.offices[i]).Some?
    requires !Doomed(s, Awaits(s.offices[i]).value)
    ensures !BlockedForever(cfg, s, i)
  {
    var id, m := Awaits(s.offices[i]).value, s;
    StartsOnTheWay(cfg, requests, s, i);
    if id in s.vault.holder {
      m := FreeUp(cfg, requests, s, id);
      WaiterHoldsHigher(cfg, requests, s, i);
    }
    var t := Acquire(cfg, requests, s, m, i);
    var schedule :| Runs(cfg, s, schedule, t);
    assert t.offices[i] != s.offices[i];
  }

  lemma StartsOnTheWay(cfg: Config, requests: seq<Request>, s: State, i: nat)
    requires Reachable(cfg, requests, s) && !s.crashed && i < |s.offices| && s.offices[i].pc.Handle?
    ensures OnTheWay(cfg, requests, s, s)
  {
    ReachableInv(cfg, requests, s);
    LeadsToItself(cfg, s);
  }

  /** An office holds no mutex up to the one that it waits for, unless it waits for itself. */
  lemma WaiterHoldsHigher(cfg: Config, requests: seq<Request>, s: State, i: nat)
    requires Reachable(cfg, requests, s) && i < |s.offices| && Awaits(s.offices[i]).Some?
    requires Awaits(s.offices[i]).value in s.vault.holder && !Doomed(s, Awaits(s.offices[i]).value)
    ensures HoldsNoneUpTo(s.offices[i], Awaits(s.offices[i]).value)
  {
    ReachableInv(cfg, requests, s);
    HolderExactly(s, i, Awaits(s.offices[i]).value);
  }

  /**
   Exactly when an office is blocked for ever: when it waits for a doomed account mutex.  Whether one
   is doomed can be read off the state, by following the holders down to a leak or to a transfer to
   the paying account.
   */
  lemma BlockedExactlyWhen(cfg: Config, requests: seq<Request>, s: State, i: nat)
    requires Reachable(cfg, requests, s) && !s.crashed && i < |s.offices|
    ensures BlockedForever(cfg, s, i) <==> Awaits(s.offices[i]).Some? && Doomed(s, Awaits(s.offices[i]).value)
  {
    ReachableInv(cfg, requests, s);
    if Awaits(s.offices[i]).Some? {
      if Doomed(s, Awaits(s.offices[i]).value) {
        forall schedule, t | Runs(cfg, s, schedule, t) ensures i < |t.offices| && t.offices[i] == s.offices[i] {
          DoomedStaysDoomed(cfg, s, schedule, t, i);
        }
      } else {
        CanMove(cfg, requests, s, i);
      }
    }
  }

  /**
   Deadlock, exactly: a stuck state is neither finished nor idle if and only if
   some office is blocked for ever.
   */
  lemma StuckExactlyWhenBlocked(cfg: Config, quitters: set<nat>, requests: seq<Request>, s: State)
    requires ValidConfig(cfg) && Reachable(cfg, requests, s) && Stuck(quitters, s) && !s.crashed
    ensures !Finished(s) && !WaitingForUsers(s) <==> exists i: nat :: BlockedForever(cfg, s, i)
  {
    ReachableInv(cfg, requests, s);
    StuckExactlyWhenCornered(cfg, quitters, requests, s);
    if i: nat :| Cornered(s, i) {
      CorneredIsDoomed(s, i);
      BlockedExactlyWhen(cfg, requests, s, i);
    }
    if i: nat :| BlockedForever(cfg, s, i) {
      assert s.offices[i].pc.Handle?;
    }
  }

  lemma CorneredIsDoomed(s: State, i: nat)
    requires LockInv(s) && Cornered(s, i)
    ensures Doomed(s, Awaits(s.offices[i]).value)
  {
    if Awaits(s.offices[i]).value !in s.vault.leaked {
      HoldsWhatItAwaits(s.offices[i]);
      HolderExactly(s, i, Awaits(s.offices[i]).value);
    }
  }

  // ----- What dooms a mutex -----

  /** A creation that is about to be refused has an earlier twin. */
  lemma LeakerHasATwin(cfg: Config, s: State, j: nat)
    requires Inv(cfg, s) && j < |s.offices| && AboutToLeak(s.offices[j], s.vault.accounts)
    ensures !GoodTraffic(s.hall.pushed)
  {
    var office, log := s.offices[j], s.vault.log;
    var id := Target(office.req);
    assert Facts(cfg, office, s.vault.accounts, Replay(cfg, log).accounts);
    assert office.ticket < |s.hall.pushed| && s.hall.pushed[office.ticket] == office.req;
    AccountsComeFromTheLog(cfg, log, id);
    if id == ADMIN_ACCOUNT_ID {
      TwinsAreNotGood(s.hall.pushed, office.ticket, office.ticket);
    } else {
      var k :| 0 <= k < |log| && log[k].req.op.CreateAccount? && log[k].req.op.id == id;
      LogIsReceived(s, k);
      assert !Logged(log, office.ticket);
      TwinsAreNotGood(s.hall.pushed, log[k].ticket, office.ticket);
    }
  }

  lemma SelfTransferIsNotGood(cfg: Config, s: State, j: nat)
    requires Inv(cfg, s) && j < |s.offices| && s.offices[j].pc == Handle(TransferSecond)
    requires Target(s.offices[j].req) == s.offices[j].req.account
    ensures !GoodTraffic(s.hall.pushed)
  {
    WaitingCarries(cfg, s, j);
    var req := s.offices[j].req;
    assert req.op.Transfer? && req == s.hall.pushed[s.offices[j].ticket];
  }

  /** Every doomed mutex goes back to a repeated creation or to a transfer to the paying account. */
  lemma {:induction false} DoomedHasACause(cfg: Config, s: State, id: int)
    requires Inv(cfg, s) && Doomed(s, id)
    ensures !GoodTraffic(s.hall.pushed)
    decreases id
  {
    if id in s.vault.leaked {
      LeakNeedsATwin(cfg, s, id);
    } else {
      HolderHolds(s, id);
      var j := s.vault.holder[id].index;
      if AboutToLeak(s.offices[j], s.vault.accounts) {
        LeakerHasATwin(cfg, s, j);
      } else if SecondLock(s.offices[j].req) == id {
        SelfTransferIsNotGood(cfg, s, j);
      } else {
        DoomedHasACause(cfg, s, SecondLock(s.offices[j].req));
      }
    }
  }

  /** Good traffic blocks nobody: every office that waits for an account mutex can still get it. */
  lemma GoodTrafficBlocksNobody(cfg: Config, requests: seq<Request>, s: State, i: nat)
    requires Reachable(cfg, requests, s) && !s.crashed && GoodTraffic(s.hall.pushed) && i < |s.offices|
    ensures !BlockedForever(cfg, s, i)
  {
    ReachableInv(cfg, requests, s);
    BlockedExactlyWhen(cfg, requests, s, i);
    if BlockedForever(cfg, s, i) {
      DoomedHasACause(cfg, s, Awaits(s.offices[i]).value);
    }
  }
}
