/**
 Money: no balance leaves its range, no 32-bit operation wraps, and the total is what the
 creations brought in, in every state of every run.
 */
module Money {
  import opened Bank
  import opened Server
  import opened Gauges
  import opened HallSafety
  import opened Locks
  import opened Books
  import opened Invariant

  /** What the client lets through: no account is created with more than MAX_BALANCE. */
  predicate BoundedCreates(reqs: seq<Request>) {
    forall t :: 0 <= t < |reqs| && reqs[t].op.CreateAccount? ==> reqs[t].op.balance <= MAX_BALANCE
  }

  predicate Bounded(accounts: Accounts) {
    forall id :: id in accounts ==> accounts[id].balance <= MAX_BALANCE
  }

  // ----- Ranges -----

  lemma ExecuteKeepsBounded(sha: string -> string, salt: string, ledger: Ledger, req: Request)
    requires Bounded(ledger.accounts)
    requires req.op.CreateAccount? ==> req.op.balance <= MAX_BALANCE
    ensures Bounded(Execute(sha, salt, ledger, req).ledger.accounts)
  {
  }

  lemma {:induction false} BooksAreBounded(cfg: Config, log: seq<Entry>)
    requires forall k :: 0 <= k < |log| && log[k].req.op.CreateAccount? ==> log[k].req.op.balance <= MAX_BALANCE
    ensures Bounded(Replay(cfg, log).accounts)
  {
    if log != [] {
      var rest, last := log[..|log| - 1], log[|log| - 1];
      BooksAreBounded(cfg, rest);
      ExecuteKeepsBounded(cfg.sha, cfg.salt(last.ticket), Replay(cfg, rest), last.req);
    }
  }

  lemma LogIsBounded(cfg: Config, s: State)
    requires Inv(cfg, s) && BoundedCreates(s.hall.popped)
    ensures Bounded(Replay(cfg, s.vault.log).accounts)
  {
    BooksAreBounded(cfg, s.vault.log);
  }

  /** The table agrees, up to the office's own drift, with the books at the accounts an office holds. */
  lemma HeldBalances(cfg: Config, s: State, i: nat)
    requires Inv(cfg, s) && i < |s.offices| && HoldsBoth(s.offices[i].pc)
    ensures
      var office, books := s.offices[i], Replay(cfg, s.vault.log).accounts;
      && AgreesAt(office, office.req.account, s.vault.accounts, books)
      && AgreesAt(office, Target(office.req), s.vault.accounts, books)
      && Target(office.req) != office.req.account
      && office.req.account in s.vault.accounts
  {
    HeldAgree(s, i, Replay(cfg, s.vault.log).accounts);
    assert Holds(s.offices[i], s.offices[i].req.account) && Holds(s.offices[i], Target(s.offices[i].req));
    assert Facts(cfg, s.offices[i], s.vault.accounts, Replay(cfg, s.vault.log).accounts);
  }

  /** The ranges of a transfer in hand, from what the books say about the two accounts it holds. */
  lemma HandRanges(cfg: Config, office: Office, accounts: Accounts, books: Accounts)
    requires Bounded(books) && SameCredentials(accounts, books) && Facts(cfg, office, accounts, books)
    requires HoldsBoth(office.pc) && Target(office.req) != office.req.account && office.req.account in accounts
    requires AgreesAt(office, office.req.account, accounts, books)
    requires AgreesAt(office, Target(office.req), accounts, books)
    ensures
      var source, dest := BalanceOf(accounts, office.req.account), BalanceOf(accounts, Target(office.req));
      var amount := Amount(office.req);
      && source <= MAX_BALANCE && dest <= MAX_BALANCE
      && (office.pc == Handle(Credit) ==> Target(office.req) in accounts && dest + amount <= MAX_BALANCE)
      && (office.pc == Handle(Debit) ==> source - amount >= 0)
  {
  }

  /** No transfer in hand wraps. */
  lemma HandsDoNotWrap(cfg: Config, s: State, i: nat)
    requires Inv(cfg, s) && BoundedCreates(s.hall.popped) && i < |s.offices| && HoldsBoth(s.offices[i].pc)
    ensures
      var office, accounts := s.offices[i], s.vault.accounts;
      var source, dest := BalanceOf(accounts, office.req.account), BalanceOf(accounts, Target(office.req));
      var amount := Amount(office.req);
      && office.req.account in accounts && source <= MAX_BALANCE && dest <= MAX_BALANCE
      && (source >= amount ==> dest + amount < TWO_TO_THE_32)
      && (office.pc == Handle(Credit) ==> Target(office.req) in accounts && dest + amount <= MAX_BALANCE)
      && (office.pc == Handle(Debit) ==> source - amount >= 0)
  {
    LogIsBounded(cfg, s);
    HeldBalances(cfg, s, i);
    HandRanges(cfg, s.offices[i], s.vault.accounts, Replay(cfg, s.vault.log).accounts);
  }

  /**
   The arithmetic of a transfer never wraps: not the sum in the ceiling test once the funds test has
   passed, not the credit, not the debit -- whatever 32-bit amount the request asks for.
   */
  lemma TransfersDoNotWrap(cfg: Config, requests: seq<Request>, s: State, i: nat)
    requires Reachable(cfg, requests, s) && BoundedCreates(s.hall.popped)
    requires i < |s.offices| && HoldsBoth(s.offices[i].pc)
    ensures
      var office, accounts := s.offices[i], s.vault.accounts;
      var source, dest := BalanceOf(accounts, office.req.account), BalanceOf(accounts, Target(office.req));
      var amount := Amount(office.req);
      && office.req.account in accounts && source <= MAX_BALANCE && dest <= MAX_BALANCE
      && (source >= amount ==> dest + amount < TWO_TO_THE_32)
      && (office.pc == Handle(Credit) ==> Target(office.req) in accounts && dest + amount <= MAX_BALANCE)
      && (office.pc == Handle(Debit) ==> source - amount >= 0)
  {
    ReachableInv(cfg, requests, s);
    HandsDoNotWrap(cfg, s, i);
  }

  /** Every balance is within 0..MAX_BALANCE, including those that a half-done transfer shows. */
  lemma BalancesAreBounded(cfg: Config, s: State)
    requires Inv(cfg, s) && BoundedCreates(s.hall.popped)
    ensures Bounded(s.vault.accounts)
  {
    LogIsBounded(cfg, s);
    forall id | id in s.vault.accounts ensures s.vault.accounts[id].balance <= MAX_BALANCE {
      BalanceIsBounded(cfg, s, id);
    }
  }

  lemma BalanceIsBounded(cfg: Config, s: State, id: int)
    requires Inv(cfg, s) && BoundedCreates(s.hall.popped) && Bounded(Replay(cfg, s.vault.log).accounts)
    requires id in s.vault.accounts
    ensures s.vault.accounts[id].balance <= MAX_BALANCE
  {
    var live := Live(s.vault);
    if id in live && live[id].OfficeThread? {
      var i := live[id].index;
      assert Holds(s.offices[i], id);
      if HoldsBoth(s.offices[i].pc) {
        HandsDoNotWrap(cfg, s, i);
      } else {
        assert Drift(s.offices[i], id, Replay(cfg, s.vault.log).accounts[id].balance)
            == Replay(cfg, s.vault.log).accounts[id].balance;
      }
    }
  }

  // ----- The total -----

  /** The initial balances of the accounts that the log created. */
  function Minted(log: seq<Entry>): int {
    if log == [] then 0
    else
      var last := log[|log| - 1];
      Minted(log[..|log| - 1])
      + (if last.req.op.CreateAccount? && last.reply.code == RC_OK then Amount(last.req) else 0)
  }

  lemma MintedAppend(log: seq<Entry>, entry: Entry)
    ensures Minted(log + [entry]) ==
            Minted(log) + (if entry.req.op.CreateAccount? && entry.reply.code == RC_OK then Amount(entry.req) else 0)
  {
    assert (log + [entry])[..|log|] == log;
  }

  /** The balances, less what has been credited and not yet debited, are the initial balances of the creations. */
  predicate MoneyLaw(cfg: Config, s: State) {
    Total(s.vault.accounts, MAX_BANK_ACCOUNTS) - Sum(MidTransfer, cfg.fused, s.offices) == Minted(s.vault.log)
  }

  lemma {:induction false} TotalOfNothing(bound: nat)
    ensures Total(map[], bound) == 0
  {
    if bound > 0 {
      TotalOfNothing(bound - 1);
    }
  }

  lemma InitialMoney(cfg: Config, requests: seq<Request>)
    ensures MoneyLaw(cfg, Initial(cfg, requests))
  {
    TotalOfNothing(MAX_BANK_ACCOUNTS);
    SumUniform(MidTransfer, cfg.fused, Initial(cfg, requests).offices, 0);
  }

  /** The one write to the table, if any, that an office's step makes: what it adds to the total. */
  function Added(office: Office): int {
    var amount: int := Amount(office.req);
    match office.pc
    case Handle(CreateWrite) => amount
    case Handle(Credit) => amount
    case Handle(Debit) => 0 - amount
    case _ => 0
  }

  lemma CreateAdds(cfg: Config, s: State, i: nat)
    requires Inv(cfg, s) && i < |s.offices| && s.offices[i].pc == Handle(CreateWrite)
    ensures Total(NextAccounts(cfg, s.offices[i], s.vault.accounts), MAX_BANK_ACCOUNTS) ==
            Total(s.vault.accounts, MAX_BANK_ACCOUNTS) + Amount(s.offices[i].req)
  {
    var office, accounts := s.offices[i], s.vault.accounts;
    assert Facts(cfg, office, accounts, Replay(cfg, s.vault.log).accounts);
    var account := NewAccount(cfg.sha, cfg.salt(office.ticket), office.req);
    TotalUpdate(accounts, Target(office.req), account, MAX_BANK_ACCOUNTS);
  }

  lemma WriteAdds(cfg: Config, s: State, i: nat)
    requires Inv(cfg, s) && BoundedCreates(s.hall.popped) && i < |s.offices|
    ensures Total(NextAccounts(cfg, s.offices[i], s.vault.accounts), MAX_BANK_ACCOUNTS) ==
            Total(s.vault.accounts, MAX_BANK_ACCOUNTS) + Added(s.offices[i])
  {
    var office, accounts := s.offices[i], s.vault.accounts;
    var req := office.req;
    if office.pc == Handle(CreateWrite) {
      CreateAdds(cfg, s, i);
    } else if office.pc == Handle(Credit) {
      PayeeIsCovered(cfg, s, i);
      CreditTotal(accounts, Target(req), Amount(req));
    } else if office.pc == Handle(Debit) {
      PayerIsCovered(cfg, s, i);
      DebitTotal(accounts, req.account, Amount(req));
    }
  }

  lemma PayeeIsCovered(cfg: Config, s: State, i: nat)
    requires Inv(cfg, s) && BoundedCreates(s.hall.popped) && i < |s.offices| && s.offices[i].pc == Handle(Credit)
    ensures
      var id := Target(s.offices[i].req);
      && id in s.vault.accounts && 0 <= id < MAX_BANK_ACCOUNTS
      && BalanceOf(s.vault.accounts, id) + Amount(s.offices[i].req) < TWO_TO_THE_32
  {
    HandsDoNotWrap(cfg, s, i);
    IdsAreSmall(cfg, s, Target(s.offices[i].req));
  }

  lemma PayerIsCovered(cfg: Config, s: State, i: nat)
    requires Inv(cfg, s) && BoundedCreates(s.hall.popped) && i < |s.offices| && s.offices[i].pc == Handle(Debit)
    ensures
      var id := s.offices[i].req.account;
      && id in s.vault.accounts && 0 <= id < MAX_BANK_ACCOUNTS
      && BalanceOf(s.vault.accounts, id) >= Amount(s.offices[i].req)
  {
    HandsDoNotWrap(cfg, s, i);
    IdsAreSmall(cfg, s, s.offices[i].req.account);
  }

  /** What is in transit changes by what the step adds, except for a creation. */
  lemma TransitChange(cfg: Config, s: State, i: nat)
    requires i < |s.offices|
    ensures
      var office := s.offices[i];
      Weight(MidTransfer, cfg.fused, NextOffice(cfg, office, s)) ==
      Weight(MidTransfer, cfg.fused, office) + (if office.pc == Handle(CreateWrite) then 0 else Added(office))
  {
    if s.offices[i].pc.Handle? {
      HandleMoves(cfg, s.offices[i], s.vault.accounts, s.tally.active);
    }
  }

  lemma {:induction false} BookIdsAreSmall(cfg: Config, log: seq<Entry>, id: int)
    requires id in Replay(cfg, log).accounts
    ensures 0 <= id < MAX_BANK_ACCOUNTS
  {
    if log != [] && id in Replay(cfg, log[..|log| - 1]).accounts {
      BookIdsAreSmall(cfg, log[..|log| - 1], id);
    }
  }

  lemma IdsAreSmall(cfg: Config, s: State, id: int)
    requires Inv(cfg, s) && id in s.vault.accounts
    ensures 0 <= id < MAX_BANK_ACCOUNTS
  {
    BookIdsAreSmall(cfg, s.vault.log, id);
  }

  /** Only a creation's write logs money. */
  lemma MintedStep(cfg: Config, s: State, i: nat)
    requires Inv(cfg, s) && i < |s.offices|
    ensures
      var office := s.offices[i];
      Minted(OfficeStep(cfg, s, i).vault.log) ==
        Minted(s.vault.log) + (if office.pc == Handle(CreateWrite) then Amount(office.req) else 0)
  {
    var office, next := s.offices[i], NextOffice(cfg, s.offices[i], s);
    assert Facts(cfg, office, s.vault.accounts, Replay(cfg, s.vault.log).accounts);
    if Commits(cfg, office, s.vault.accounts) {
      MintedAppend(s.vault.log, Entry(office.ticket, office.req, next.reply));
    }
  }

  lemma OfficeKeepsMoney(cfg: Config, s: State, i: nat)
    requires Inv(cfg, s) && BoundedCreates(s.hall.popped) && MoneyLaw(cfg, s) && i < |s.offices|
    ensures MoneyLaw(cfg, OfficeStep(cfg, s, i))
  {
    WriteAdds(cfg, s, i);
    TransitChange(cfg, s, i);
    MintedStep(cfg, s, i);
    SumUpdate(MidTransfer, cfg.fused, s.offices, i, NextOffice(cfg, s.offices[i], s));
  }

  lemma MainKeepsMoney(cfg: Config, s: State)
    requires Inv(cfg, s) && MoneyLaw(cfg, s) && MainEnabled(s)
    ensures MoneyLaw(cfg, MainStep(cfg, s))
  {
    LaunchKeepsSums(cfg, s);
    TotalUpdate(s.vault.accounts, ADMIN_ACCOUNT_ID, AdminAccount(cfg), MAX_BANK_ACCOUNTS);
  }

  lemma StepKeepsMoney(cfg: Config, s: State, actor: Actor)
    requires Inv(cfg, s) && BoundedCreates(s.hall.popped) && MoneyLaw(cfg, s) && Enabled(s, actor)
    ensures MoneyLaw(cfg, Step(cfg, s, actor))
  {
    match actor
    case MainActor => MainKeepsMoney(cfg, s);
    case OfficeActor(i) => OfficeKeepsMoney(cfg, s, i);
    case UserActor(u) =>
      var t := UserStep(s, u);
      assert t.offices == s.offices && t.vault == s.vault;
  }

  lemma {:induction false} RunKeepsMoney(cfg: Config, s: State, schedule: seq<Actor>, t: State)
    requires Inv(cfg, s) && MoneyLaw(cfg, s)
    requires Runs(cfg, s, schedule, t) && BoundedCreates(t.hall.popped)
    ensures MoneyLaw(cfg, t)
    decreases |schedule|
  {
    if schedule != [] {
      var m := Step(cfg, s, schedule[0]);
      PopsOnlyGrow(cfg, s, schedule, t);
      StepKeepsInv(cfg, s, schedule[0]);
      StepKeepsMoney(cfg, s, schedule[0]);
      RunKeepsMoney(cfg, m, schedule[1..], t);
    }
  }

  lemma StepOnlyPops(cfg: Config, s: State, actor: Actor)
    requires Enabled(s, actor)
    ensures s.hall.popped <= Step(cfg, s, actor).hall.popped
  {
  }

  lemma {:induction false} PopsOnlyGrow(cfg: Config, s: State, schedule: seq<Actor>, t: State)
    requires Runs(cfg, s, schedule, t)
    ensures s.hall.popped <= t.hall.popped
    decreases |schedule|
  {
    if schedule != [] {
      StepOnlyPops(cfg, s, schedule[0]);
      PopsOnlyGrow(cfg, Step(cfg, s, schedule[0]), schedule[1..], t);
    }
  }

  /** Conservation of money, in every reachable state, for any number of transfers in progress. */
  lemma MoneyIsConserved(cfg: Config, requests: seq<Request>, t: State)
    requires Reachable(cfg, requests, t) && BoundedCreates(t.hall.popped)
    ensures Total(t.vault.accounts, MAX_BANK_ACCOUNTS) - Sum(MidTransfer, cfg.fused, t.offices) == Minted(t.vault.log)
    ensures Bounded(t.vault.accounts)
  {
    var schedule :| Runs(cfg, Initial(cfg, requests), schedule, t);
    InitialInv(cfg, requests);
    InitialMoney(cfg, requests);
    RunKeepsMoney(cfg, Initial(cfg, requests), schedule, t);
    ReachableInv(cfg, requests, t);
    BalancesAreBounded(cfg, t);
  }
}
