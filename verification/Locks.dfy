/**
 The account mutexes: who holds which, and which one is left locked for ever.
 */
module Locks {
  import opened Bank
  import opened Server

  /** The account mutexes an office holds, by where it is. */
  predicate Holds(office: Office, id: int) {
    var req := office.req;
    match office.pc
    case Handle(CreateTest) | Handle(CreateWrite) | Handle(CreateUnlock) => id == Target(req)
    case Handle(BalanceRead) | Handle(BalanceUnlock) => id == req.account
    case Handle(TransferSecond) => id == FirstLock(req)
    case Handle(TransferTest) | Handle(Credit) | Handle(Debit) => id == Target(req) || id == req.account
    case Handle(TransferRead) | Handle(TransferUnlockFirst) => id == Target(req) || id == req.account
    case Handle(TransferUnlockSecond) => id == SecondLock(req)
    case _ => false
  }

  /** The stages of a transfer in which both mutexes are held. */
  predicate HoldsBoth(pc: Pc) {
    match pc
    case Handle(TransferTest) | Handle(Credit) | Handle(Debit) => true
    case Handle(TransferRead) | Handle(TransferUnlockFirst) => true
    case _ => false
  }

  predicate AdminHolds(main: MainPc) {
    main.AdminTest? || main.AdminWrite? || main.AdminUnlock?
  }

  /** The locked mutexes that somebody is going to unlock. */
  function Live(vault: Vault): map<int, Thread> {
    vault.holder - vault.leaked
  }

  /** A live mutex is held by exactly the thread whose program counter is inside its critical section. */
  ghost predicate Placed(main: MainPc, offices: seq<Office>, live: map<int, Thread>) {
    && (forall j, id :: 0 <= j < |offices| ==> (Holds(offices[j], id) <==> id in live && live[id] == OfficeThread(j)))
    && (forall id :: id in live && live[id].OfficeThread? ==> live[id].index < |offices|)
    && (forall id :: id in live && live[id].MainThread? ==>
          id == ADMIN_ACCOUNT_ID && (AdminHolds(main) || main.Aborted?))
    && (AdminHolds(main) || main.Aborted? ==> ADMIN_ACCOUNT_ID in live && live[ADMIN_ACCOUNT_ID] == MainThread)
  }

  /** The identifiers whose creation was refused because they were in use. */
  function RefusedIds(log: seq<Entry>): set<int> {
    if log == [] then {}
    else
      var last := log[|log| - 1];
      RefusedIds(log[..|log| - 1]) + (if last.reply.code == RC_ID_IN_USE then {Target(last.req)} else {})
  }

  ghost predicate LockInv(s: State) {
    && Placed(s.main, s.offices, Live(s.vault))
    && s.vault.leaked <= s.vault.holder.Keys
    && (forall j :: 0 <= j < |s.offices| && HoldsBoth(s.offices[j].pc) ==>
          Target(s.offices[j].req) != s.offices[j].req.account)
  }

  /** An office holds exactly the unleaked mutexes that are locked in its name. */
  lemma HolderExactly(s: State, i: nat, id: int)
    requires LockInv(s) && i < |s.offices|
    ensures Holds(s.offices[i], id) <==>
            id in s.vault.holder && id !in s.vault.leaked && s.vault.holder[id] == OfficeThread(i)
  {
    assert Holds(s.offices[i], id) <==> id in Live(s.vault) && Live(s.vault)[id] == OfficeThread(i);
  }

  lemma InitialLocks(cfg: Config, requests: seq<Request>)
    ensures LockInv(Initial(cfg, requests))
  {
  }

  lemma UnlocksHeld(office: Office)
    requires Unlocks(office).Some?
    ensures Holds(office, Unlocks(office).value)
  {
  }

  lemma BothMeansTransfer(cfg: Config, office: Office, s: State)
    requires HoldsBoth(office.pc) ==> Target(office.req) != office.req.account
    requires office.pc == Handle(TransferSecond) ==> SecondLock(office.req) != FirstLock(office.req)
    requires HoldsBoth(NextOffice(cfg, office, s).pc)
    ensures NextOffice(cfg, office, s).req == office.req && Target(office.req) != office.req.account
  {
  }

  /** What an office holds after its step, at one mutex. */
  lemma HoldsAfter(cfg: Config, office: Office, s: State, id: int)
    requires HoldsBoth(office.pc) ==> Target(office.req) != office.req.account
    requires office.pc == Handle(TransferSecond) ==> SecondLock(office.req) != FirstLock(office.req)
    ensures Holds(NextOffice(cfg, office, s), id) <==>
        || Awaits(office) == Some(id)
        || (Holds(office, id) && Unlocks(office) != Some(id)
            && !(office.pc == Handle(CreateTest) && id == Target(office.req) && id in s.vault.accounts))
  {
  }

  /** How one office step changes the mutexes its office holds. */
  lemma HoldsChange(cfg: Config, office: Office, s: State)
    requires HoldsBoth(office.pc) ==> Target(office.req) != office.req.account
    requires office.pc == Handle(TransferSecond) ==> SecondLock(office.req) != FirstLock(office.req)
    ensures var next := NextOffice(cfg, office, s);
      forall id :: Holds(next, id) <==>
        || Awaits(office) == Some(id)
        || (Holds(office, id) && Unlocks(office) != Some(id)
            && !(office.pc == Handle(CreateTest) && id == Target(office.req) && id in s.vault.accounts))
    ensures Unlocks(office).Some? ==> Holds(office, Unlocks(office).value)
    ensures HoldsBoth(NextOffice(cfg, office, s).pc) ==>
      NextOffice(cfg, office, s).req == office.req && Target(office.req) != office.req.account
  {
    var next := NextOffice(cfg, office, s);
    forall id
      ensures Holds(next, id) <==>
        || Awaits(office) == Some(id)
        || (Holds(office, id) && Unlocks(office) != Some(id)
            && !(office.pc == Handle(CreateTest) && id == Target(office.req) && id in s.vault.accounts))
    {
      HoldsAfter(cfg, office, s, id);
    }
    if Unlocks(office).Some? {
      UnlocksHeld(office);
    }
    if HoldsBoth(next.pc) {
      BothMeansTransfer(cfg, office, s);
    }
  }

  lemma AcquirePlaced(main: MainPc, offices: seq<Office>, live: map<int, Thread>, i: nat, next: Office, id: int)
    requires Placed(main, offices, live)
    requires i < |offices| && id !in live
    requires forall x :: Holds(next, x) <==> Holds(offices[i], x) || x == id
    ensures Placed(main, offices[i := next], live[id := OfficeThread(i)])
  {
  }

  lemma ReleasePlaced(main: MainPc, offices: seq<Office>, live: map<int, Thread>, i: nat, next: Office, id: int)
    requires Placed(main, offices, live)
    requires i < |offices| && Holds(offices[i], id)
    requires forall x :: Holds(next, x) <==> Holds(offices[i], x) && x != id
    ensures Placed(main, offices[i := next], live - {id})
  {
    assert live[id] == OfficeThread(i);
  }

  /** The live mutex, if any, that an office step gives up: by unlocking it, or by leaking it. */
  function GivesUp(office: Office, accounts: Accounts): Option<int> {
    if office.pc == Handle(CreateTest) && Target(office.req) in accounts then Some(Target(office.req))
    else Unlocks(office)
  }

  lemma LiveChange(cfg: Config, s: State, i: nat)
    requires i < |s.offices| && OfficeEnabled(s, i) && s.vault.leaked <= s.vault.holder.Keys
    requires forall id :: id in s.vault.leaked ==> Unlocks(s.offices[i]) != Some(id)
    requires s.offices[i].pc == Handle(CreateTest) ==> Target(s.offices[i].req) in s.vault.holder
    ensures
      var office, t := s.offices[i], OfficeStep(cfg, s, i);
      && t.vault.leaked <= t.vault.holder.Keys
      && Live(t.vault) ==
          if Awaits(office).Some? then Live(s.vault)[Awaits(office).value := OfficeThread(i)]
          else if GivesUp(office, s.vault.accounts).Some? then Live(s.vault) - {GivesUp(office, s.vault.accounts).value}
          else Live(s.vault)
  {
  }

  /** What an office about to unlock, leak or take a second mutex holds. */
  lemma HeldForNext(s: State, i: nat)
    requires LockInv(s) && i < |s.offices|
    ensures var office := s.offices[i];
      && (office.pc == Handle(TransferSecond) ==> FirstLock(office.req) in s.vault.holder)
      && (office.pc == Handle(CreateTest) ==> Target(office.req) in s.vault.holder)
      && (forall id :: id in s.vault.leaked ==> Unlocks(office) != Some(id))
  {
    var office := s.offices[i];
    if office.pc == Handle(TransferSecond) {
      HolderExactly(s, i, FirstLock(office.req));
    } else if office.pc == Handle(CreateTest) {
      HolderExactly(s, i, Target(office.req));
    } else if Unlocks(office).Some? {
      HolderExactly(s, i, Unlocks(office).value);
    }
  }

  lemma OfficeKeepsLocks(cfg: Config, s: State, i: nat)
    requires LockInv(s)
    requires i < |s.offices| && OfficeEnabled(s, i)
    ensures LockInv(OfficeStep(cfg, s, i))
  {
    var office, next := s.offices[i], NextOffice(cfg, s.offices[i], s);
    var live := Live(s.vault);
    HeldForNext(s, i);
    HoldsChange(cfg, office, s);
    LiveChange(cfg, s, i);
    if Awaits(office).Some? {
      AcquirePlaced(s.main, s.offices, live, i, next, Awaits(office).value);
    } else if GivesUp(office, s.vault.accounts).Some? {
      ReleasePlaced(s.main, s.offices, live, i, next, GivesUp(office, s.vault.accounts).value);
    } else {
      KeepPlaced(s.main, s.offices, live, i, next);
    }
  }

  lemma KeepPlaced(main: MainPc, offices: seq<Office>, live: map<int, Thread>, i: nat, next: Office)
    requires Placed(main, offices, live)
    requires i < |offices|
    requires forall x :: Holds(next, x) <==> Holds(offices[i], x)
    ensures Placed(main, offices[i := next], live)
  {
  }

  lemma IdleHoldsNothing(office: Office)
    requires !office.pc.Handle?
    ensures forall id :: !Holds(office, id)
  {
  }

  lemma LaunchPlaced(s: State)
    requires LockInv(s) && s.main.Launch? && s.main.next < |s.offices| && !s.offices[s.main.next].pc.Handle?
    ensures Placed(Launch(s.main.next + 1), MainOffices(s.main, s.offices), Live(s.vault))
  {
    IdleHoldsNothing(s.offices[s.main.next]);
    IdleHoldsNothing(s.offices[s.main.next].(pc := WaitFull));
  }

  /** Every other step of the main thread leaves the live mutexes, and what it holds of them, alone. */
  lemma OtherMainPlaced(cfg: Config, s: State)
    requires LockInv(s) && MainEnabled(s)
    requires !s.main.AdminLock? && !s.main.AdminTest? && !s.main.AdminWrite? && !s.main.AdminUnlock?
    requires s.main.Launch? ==> s.main.next >= |s.offices|
    ensures Placed(NextMain(cfg, s), MainOffices(s.main, s.offices), Live(MainVault(cfg, s.main, s.vault)))
  {
    assert MainOffices(s.main, s.offices) == s.offices && Live(MainVault(cfg, s.main, s.vault)) == Live(s.vault);
    assert AdminHolds(NextMain(cfg, s)) == AdminHolds(s.main) && NextMain(cfg, s).Aborted? == s.main.Aborted?;
  }

  lemma AdminLockPlaced(cfg: Config, s: State)
    requires LockInv(s) && MainEnabled(s) && s.main.AdminLock?
    ensures Placed(NextMain(cfg, s), MainOffices(s.main, s.offices), Live(MainVault(cfg, s.main, s.vault)))
  {
    assert Live(MainVault(cfg, s.main, s.vault)) == Live(s.vault)[ADMIN_ACCOUNT_ID := MainThread];
  }

  lemma AdminUnlockPlaced(cfg: Config, s: State)
    requires LockInv(s) && MainEnabled(s) && s.main.AdminUnlock?
    ensures Placed(NextMain(cfg, s), MainOffices(s.main, s.offices), Live(MainVault(cfg, s.main, s.vault)))
  {
    assert Live(MainVault(cfg, s.main, s.vault)) == Live(s.vault) - {ADMIN_ACCOUNT_ID};
  }

  lemma AdminHoldPlaced(cfg: Config, s: State)
    requires LockInv(s) && (s.main.AdminTest? || s.main.AdminWrite?)
    ensures Placed(NextMain(cfg, s), MainOffices(s.main, s.offices), Live(MainVault(cfg, s.main, s.vault)))
  {
    assert Live(MainVault(cfg, s.main, s.vault)) == Live(s.vault) && MainOffices(s.main, s.offices) == s.offices;
  }

  lemma MainPlaced(cfg: Config, s: State)
    requires LockInv(s) && MainEnabled(s)
    requires s.main.Launch? && s.main.next < |s.offices| ==> !s.offices[s.main.next].pc.Handle?
    ensures Placed(NextMain(cfg, s), MainOffices(s.main, s.offices), Live(MainVault(cfg, s.main, s.vault)))
  {
    if s.main.Launch? && s.main.next < |s.offices| {
      LaunchPlaced(s);
    } else if s.main.AdminLock? {
      AdminLockPlaced(cfg, s);
    } else if s.main.AdminUnlock? {
      AdminUnlockPlaced(cfg, s);
    } else if s.main.AdminTest? || s.main.AdminWrite? {
      AdminHoldPlaced(cfg, s);
    } else {
      OtherMainPlaced(cfg, s);
    }
  }

  lemma MainKeepsLocks(cfg: Config, s: State)
    requires LockInv(s) && MainEnabled(s)
    requires s.main.Launch? && s.main.next < |s.offices| ==> !s.offices[s.main.next].pc.Handle?
    ensures LockInv(MainStep(cfg, s))
  {
    MainPlaced(cfg, s);
  }

  // ----- A mutex left locked -----

  lemma RefusedAppend(log: seq<Entry>, entry: Entry)
    ensures RefusedIds(log + [entry]) ==
            RefusedIds(log) + (if entry.reply.code == RC_ID_IN_USE then {Target(entry.req)} else {})
  {
    assert (log + [entry])[..|log|] == log;
  }

  lemma OfficeKeepsLeaks(cfg: Config, s: State, i: nat)
    requires i < |s.offices|
    requires s.offices[i].pc == Handle(TransferRead) ==> s.offices[i].reply.code != RC_ID_IN_USE
    requires s.vault.leaked == RefusedIds(s.vault.log)
    ensures var t := OfficeStep(cfg, s, i); t.vault.leaked == RefusedIds(t.vault.log)
  {
    var office := s.offices[i];
    var next := NextOffice(cfg, office, s);
    if Commits(cfg, office, s.vault.accounts) {
      RefusedAppend(s.vault.log, Entry(office.ticket, office.req, next.reply));
      CommitCode(cfg, office, s);
    } else {
      assert NextLeaked(office, s.vault.accounts, s.vault.leaked) == s.vault.leaked;
    }
  }

  /** The only commit that answers RC_ID_IN_USE is the one that leaves its mutex locked. */
  lemma CommitCode(cfg: Config, office: Office, s: State)
    requires Commits(cfg, office, s.vault.accounts)
    requires office.pc == Handle(TransferRead) ==> office.reply.code != RC_ID_IN_USE
    ensures NextOffice(cfg, office, s).reply.code == RC_ID_IN_USE <==>
            office.pc == Handle(CreateTest) && Target(office.req) in s.vault.accounts
  {
  }
}
