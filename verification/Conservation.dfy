/**
 Conservation of money, exactly: what the 32-bit arithmetic loses when creations ask for more than a
 client lets through, in every state of every run.
 */
module Conservation {
  import opened Bank
  import opened Server
  import opened Locks
  import opened Books
  import opened Lifecycle
  import opened Invariant
  import opened Money

  // ----- The books -----

  /** The request at `k` was an accepted transfer that lost a carry. */
  predicate Lost(cfg: Config, log: seq<Entry>, k: nat)
    requires k < |log|
  {
    log[k].reply.code == RC_OK && Wraps(Replay(cfg, log[..k]).accounts, log[k].req)
  }

  /** How many accepted transfers of the log lost a carry. */
  function Losses(cfg: Config, log: seq<Entry>): nat {
    if log == [] then 0
    else
      Losses(cfg, log[..|log| - 1]) + (if Lost(cfg, log, |log| - 1) then 1 else 0)
  }

  lemma EntryTotal(cfg: Config, log: seq<Entry>, entry: Entry)
    requires entry.reply == Execute(cfg.sha, cfg.salt(entry.ticket), Replay(cfg, log), entry.req).reply
    ensures
      var before := Replay(cfg, log).accounts;
      Total(Execute(cfg.sha, cfg.salt(entry.ticket), Replay(cfg, log), entry.req).ledger.accounts, MAX_BANK_ACCOUNTS)
      == Total(before, MAX_BANK_ACCOUNTS)
         + (if entry.req.op.CreateAccount? && entry.reply.code == RC_OK then Amount(entry.req) else 0)
         - (if entry.reply.code == RC_OK && Wraps(before, entry.req) then TWO_TO_THE_32 else 0)
  {
    var ledger, req := Replay(cfg, log), entry.req;
    if entry.reply.code == RC_OK {
      if req.op.CreateAccount? {
        TotalUpdate(ledger.accounts, Target(req), NewAccount(cfg.sha, cfg.salt(entry.ticket), req), MAX_BANK_ACCOUNTS);
      } else if req.op.Transfer? {
        BookIdsAreSmall(cfg, log, req.account);
        TransferTotal(cfg.sha, cfg.salt(entry.ticket), ledger, req);
      }
    }
  }

  lemma FaithfulPrefix(cfg: Config, log: seq<Entry>)
    requires Faithful(cfg, log) && log != []
    ensures Faithful(cfg, log[..|log| - 1])
  {
    var rest := log[..|log| - 1];
    forall k | 0 <= k < |rest|
      ensures rest[k].reply == Execute(cfg.sha, cfg.salt(rest[k].ticket), Replay(cfg, rest[..k]), rest[k].req).reply
    {
      assert rest[..k] == log[..k] && rest[k] == log[k];
    }
  }

  lemma OpenedTotal(cfg: Config)
    ensures Total(Opened(cfg).accounts, MAX_BANK_ACCOUNTS) == 0
  {
    TotalOfNothing(MAX_BANK_ACCOUNTS);
    TotalUpdate(map[], ADMIN_ACCOUNT_ID, AdminAccount(cfg), MAX_BANK_ACCOUNTS);
    assert Opened(cfg).accounts == map[][ADMIN_ACCOUNT_ID := AdminAccount(cfg)];
  }

  /** The books hold what the creations brought in, less 2^32 for each accepted transfer that lost a carry. */
  lemma {:induction false} BooksTotal(cfg: Config, log: seq<Entry>)
    requires Faithful(cfg, log)
    ensures Total(Replay(cfg, log).accounts, MAX_BANK_ACCOUNTS) == Minted(log) - TWO_TO_THE_32 * Losses(cfg, log)
  {
    if log == [] {
      OpenedTotal(cfg);
    } else {
      FaithfulPrefix(cfg, log);
      BooksTotal(cfg, log[..|log| - 1]);
      EntryTotal(cfg, log[..|log| - 1], log[|log| - 1]);
    }
  }

  // ----- Half-done transfers -----

  predicate HalfDone(office: Office) {
    office.pc == Handle(Debit) || (office.pc == Handle(TransferRead) && office.reply.code == RC_OK)
  }

  /** What a half-done transfer has changed in the table and not yet in the books: its credit as it was stored. */
  function Half(office: Office, books: Accounts): int {
    var balance, amount := BalanceOf(books, Target(office.req)), Amount(office.req);
    var credit := Wrap(balance + amount) - balance;
    match office.pc
    case Handle(Debit) => credit
    case Handle(TransferRead) => if office.reply.code == RC_OK then credit - amount else 0
    case _ => 0
  }

  function Halves(offices: seq<Office>, books: Accounts, n: nat): int
    requires n <= |offices|
  {
    if n == 0 then 0 else Halves(offices, books, n - 1) + Half(offices[n - 1], books)
  }

  /** The balance at `id` with only the half-done transfers of the first `n` offices. */
  function SeenUpTo(offices: seq<Office>, live: map<int, Thread>, n: nat, id: int, balance: uint32): uint32
    requires n <= |offices|
  {
    if id in live && live[id].OfficeThread? && live[id].index < n then Drift(offices[live[id].index], id, balance)
    else balance
  }

  function Partly(books: Accounts, offices: seq<Office>, live: map<int, Thread>, n: nat): Accounts
    requires n <= |offices|
  {
    map id | id in books :: books[id].(balance := SeenUpTo(offices, live, n, id, books[id].balance))
  }

  lemma NobodySeen(books: Accounts, offices: seq<Office>, live: map<int, Thread>)
    ensures Partly(books, offices, live, 0) == books
  {
  }

  lemma EverybodySeen(accounts: Accounts, books: Accounts, main: MainPc, offices: seq<Office>, live: map<int, Thread>)
    requires Mirrors(accounts, books, offices, live) && Placed(main, offices, live)
    ensures Partly(books, offices, live, |offices|) == accounts
  {
    forall id | id in books ensures Partly(books, offices, live, |offices|)[id] == accounts[id] {
      assert accounts[id].balance == Seen(offices, live, id, books[id].balance);
    }
  }

  /** The two accounts of a half-done transfer, as the books have them. */
  predicate Covered(office: Office, books: Accounts) {
    var req := office.req;
    && Target(req) != req.account && Target(req) in books && req.account in books
    && BalanceOf(books, req.account) >= Amount(req)
    && 0 <= Target(req) < MAX_BANK_ACCOUNTS && 0 <= req.account < MAX_BANK_ACCOUNTS
  }

  /** What a half-done transfer has decided holds of the books. */
  lemma DecisionHolds(cfg: Config, office: Office, accounts: Accounts, books: Accounts)
    requires Facts(cfg, office, accounts, books) && SameCredentials(accounts, books) && HalfDone(office)
    ensures office.req.account in books && Target(office.req) in books
    ensures BalanceOf(books, office.req.account) >= Amount(office.req)
  {
  }

  lemma DecidedTransfer(cfg: Config, s: State, i: nat)
    requires Inv(cfg, s) && Installed(s.main) && i < |s.offices|
    requires HalfDone(s.offices[i])
    ensures Covered(s.offices[i], Replay(cfg, s.vault.log).accounts)
  {
    var office, books := s.offices[i], Replay(cfg, s.vault.log).accounts;
    DecisionHolds(cfg, office, s.vault.accounts, books);
    BookIdsAreSmall(cfg, s.vault.log, Target(office.req));
    BookIdsAreSmall(cfg, s.vault.log, office.req.account);
  }

  /** One more office makes a difference at the accounts that it holds, and there it makes its own drift. */
  lemma OneMoreAt(main: MainPc, offices: seq<Office>, live: map<int, Thread>, books: Accounts, n: nat, id: int)
    requires Placed(main, offices, live) && n < |offices| && id in books
    ensures
      var before, after := Partly(books, offices, live, n), Partly(books, offices, live, n + 1);
      if Holds(offices[n], id)
      then before[id] == books[id] && after[id] == books[id].(balance := Drift(offices[n], id, books[id].balance))
      else after[id] == before[id]
  {
    assert Holds(offices[n], id) <==> id in live && live[id] == OfficeThread(n);
  }

  lemma OneMoreIdle(main: MainPc, offices: seq<Office>, live: map<int, Thread>, books: Accounts, n: nat)
    requires Placed(main, offices, live) && n < |offices|
    requires !HalfDone(offices[n])
    ensures Partly(books, offices, live, n + 1) == Partly(books, offices, live, n)
  {
    forall id | id in books ensures Partly(books, offices, live, n + 1)[id] == Partly(books, offices, live, n)[id] {
      OneMoreAt(main, offices, live, books, n, id);
    }
  }

  lemma {:induction false} TotalOfTwo(before: Accounts, after: Accounts, dest: int, source: int, bound: nat)
    requires dest != source && 0 <= dest && 0 <= source
    requires forall id :: id != dest && id != source ==> BalanceOf(after, id) == BalanceOf(before, id)
    ensures Total(after, bound) == Total(before, bound)
      + (if dest < bound then BalanceOf(after, dest) - BalanceOf(before, dest) else 0)
      + (if source < bound then BalanceOf(after, source) - BalanceOf(before, source) else 0)
  {
    if bound > 0 {
      TotalOfTwo(before, after, dest, source, bound - 1);
    }
  }

  /** A half-done transfer drifts from the books by its half, over its two accounts. */
  lemma DriftIsHalf(office: Office, books: Accounts)
    requires Covered(office, books)
    requires HalfDone(office)
    ensures
      var dest, source := Target(office.req), office.req.account;
      Half(office, books) == (Drift(office, dest, books[dest].balance) - books[dest].balance)
                             + (Drift(office, source, books[source].balance) - books[source].balance)
  {
  }

  lemma HeldAddsHalf(main: MainPc, offices: seq<Office>, live: map<int, Thread>, books: Accounts, n: nat)
    requires Placed(main, offices, live) && n < |offices| && Covered(offices[n], books)
    requires HalfDone(offices[n])
    ensures Total(Partly(books, offices, live, n + 1), MAX_BANK_ACCOUNTS)
         == Total(Partly(books, offices, live, n), MAX_BANK_ACCOUNTS) + Half(offices[n], books)
  {
    var before, after := Partly(books, offices, live, n), Partly(books, offices, live, n + 1);
    var dest, source := Target(offices[n].req), offices[n].req.account;
    forall id | id != dest && id != source ensures BalanceOf(after, id) == BalanceOf(before, id) {
      if id in books {
        OneMoreAt(main, offices, live, books, n, id);
      }
    }
    OneMoreAt(main, offices, live, books, n, dest);
    OneMoreAt(main, offices, live, books, n, source);
    TotalOfTwo(before, after, dest, source, MAX_BANK_ACCOUNTS);
    DriftIsHalf(offices[n], books);
  }

  /** The total with one more office's half-done transfer is the total plus that office's half. */
  predicate AddsHalf(offices: seq<Office>, live: map<int, Thread>, books: Accounts, n: nat)
    requires n < |offices|
  {
    Total(Partly(books, offices, live, n + 1), MAX_BANK_ACCOUNTS)
    == Total(Partly(books, offices, live, n), MAX_BANK_ACCOUNTS) + Half(offices[n], books)
  }

  lemma OneMoreHalf(main: MainPc, offices: seq<Office>, live: map<int, Thread>, books: Accounts, n: nat)
    requires Placed(main, offices, live) && n < |offices| && (HalfDone(offices[n]) ==> Covered(offices[n], books))
    ensures AddsHalf(offices, live, books, n)
  {
    if HalfDone(offices[n]) {
      HeldAddsHalf(main, offices, live, books, n);
    } else {
      OneMoreIdle(main, offices, live, books, n);
    }
  }

  lemma {:induction false} HalvesAddUp(offices: seq<Office>, live: map<int, Thread>, books: Accounts, n: nat)
    requires n <= |offices| && forall k :: 0 <= k < n ==> AddsHalf(offices, live, books, k)
    ensures Total(Partly(books, offices, live, n), MAX_BANK_ACCOUNTS)
         == Total(books, MAX_BANK_ACCOUNTS) + Halves(offices, books, n)
  {
    if n == 0 {
      NobodySeen(books, offices, live);
    } else {
      HalvesAddUp(offices, live, books, n - 1);
      assert AddsHalf(offices, live, books, n - 1);
    }
  }

  /** The table is the books and the half-done transfers. */
  lemma TableTotal(cfg: Config, requests: seq<Request>, t: State)
    requires Reachable(cfg, requests, t) && Installed(t.main)
    ensures
      var books := Replay(cfg, t.vault.log).accounts;
      Total(t.vault.accounts, MAX_BANK_ACCOUNTS)
      == Total(books, MAX_BANK_ACCOUNTS) + Halves(t.offices, books, |t.offices|)
  {
    ReachableInv(cfg, requests, t);
    var books := Replay(cfg, t.vault.log).accounts;
    EverybodySeen(t.vault.accounts, books, t.main, t.offices, Live(t.vault));
    forall j | 0 <= j < |t.offices| ensures AddsHalf(t.offices, Live(t.vault), books, j) {
      if HalfDone(t.offices[j]) {
        DecidedTransfer(cfg, t, j);
      }
      OneMoreHalf(t.main, t.offices, Live(t.vault), books, j);
    }
    HalvesAddUp(t.offices, Live(t.vault), books, |t.offices|);
  }

  /**
   Whatever balances the creations ask for, in every reachable state: the table holds what the creations
   brought in, less 2^32 for each accepted transfer that lost a carry, and half-done transfers with their
   credit as it was stored.  So the money is conserved exactly when no accepted transfer has lost a carry.
   */
  lemma MoneyIsConservedExactlyWhen(cfg: Config, requests: seq<Request>, t: State)
    requires Reachable(cfg, requests, t) && Installed(t.main)
    ensures
      var halves := Halves(t.offices, Replay(cfg, t.vault.log).accounts, |t.offices|);
      && Total(t.vault.accounts, MAX_BANK_ACCOUNTS) - halves
         == Minted(t.vault.log) - TWO_TO_THE_32 * Losses(cfg, t.vault.log)
      && (Total(t.vault.accounts, MAX_BANK_ACCOUNTS) - halves == Minted(t.vault.log) <==>
            forall k :: 0 <= k < |t.vault.log| ==> !Lost(cfg, t.vault.log, k))
  {
    TableTotal(cfg, requests, t);
    LogIsFaithful(cfg, requests, t);
    BooksTotal(cfg, t.vault.log);
    NoLosses(cfg, t.vault.log);
  }

  lemma {:induction false} NoLosses(cfg: Config, log: seq<Entry>)
    ensures Losses(cfg, log) == 0 <==> forall k :: 0 <= k < |log| ==> !Lost(cfg, log, k)
  {
    if log != [] {
      var last := |log| - 1;
      var rest := log[..last];
      NoLosses(cfg, rest);
      forall k | 0 <= k < last ensures Lost(cfg, rest, k) == Lost(cfg, log, k) {
        assert rest[k] == log[k] && rest[..k] == log[..k];
      }
    }
  }

  lemma LogIsFaithful(cfg: Config, requests: seq<Request>, t: State)
    requires Reachable(cfg, requests, t)
    ensures Faithful(cfg, t.vault.log)
  {
    ReachableInv(cfg, requests, t);
  }

  // ----- A loss -----

  lemma LossesAppend(cfg: Config, log: seq<Entry>, entry: Entry)
    ensures Losses(cfg, log + [entry]) ==
      Losses(cfg, log) + (if entry.reply.code == RC_OK && Wraps(Replay(cfg, log).accounts, entry.req) then 1 else 0)
  {
    assert (log + [entry])[..|log|] == log;
  }

  /** The log extended by a request, with the reply that it gets. */
  lemma Extend(cfg: Config, log: seq<Entry>, req: Request) returns (next: seq<Entry>)
    requires Faithful(cfg, log)
    ensures
      var outcome := Execute(cfg.sha, cfg.salt(|log|), Replay(cfg, log), req);
      && next == log + [Entry(|log|, req, outcome.reply)]
      && Faithful(cfg, next) && Replay(cfg, next) == outcome.ledger
      && Minted(next) == Minted(log) + (if req.op.CreateAccount? && outcome.reply.code == RC_OK then Amount(req) else 0)
      && Losses(cfg, next) ==
         Losses(cfg, log) + (if outcome.reply.code == RC_OK && Wraps(Replay(cfg, log).accounts, req) then 1 else 0)
  {
    var entry := Entry(|log|, req, Execute(cfg.sha, cfg.salt(|log|), Replay(cfg, log), req).reply);
    FaithfulAppend(cfg, log, entry);
    ReplayAppend(cfg, log, entry);
    MintedAppend(log, entry);
    LossesAppend(cfg, log, entry);
    next := log + [entry];
  }

  /** An account that its owner can log in to. */
  predicate Owned(cfg: Config, accounts: Accounts, id: int, balance: uint32) {
    id in accounts && accounts[id].balance == balance && PasswordIsCorrect(cfg.sha, accounts[id], "password")
  }

  /** The administrator opens an account, with any balance: the server does not check it. */
  lemma Open(cfg: Config, log: seq<Entry>, id: AccountId, balance: uint32) returns (next: seq<Entry>)
    requires Faithful(cfg, log) && id !in Replay(cfg, log).accounts
    ensures Faithful(cfg, next) && |next| == |log| + 1 && next[..|log|] == log && next[|log|].reply.code == RC_OK
    ensures Minted(next) == Minted(log) + balance && Losses(cfg, next) == Losses(cfg, log)
    ensures Owned(cfg, Replay(cfg, next).accounts, id, balance)
    ensures forall other :: other != id ==>
      && (other in Replay(cfg, next).accounts <==> other in Replay(cfg, log).accounts)
      && (other in Replay(cfg, log).accounts ==> Replay(cfg, next).accounts[other] == Replay(cfg, log).accounts[other])
  {
    AdminIsFixed(cfg, log);
    var creation := CreateAccount(id, "password", balance);
    next := Extend(cfg, log, Request(1, ADMIN_ACCOUNT_ID, cfg.adminPassword, 0, creation));
  }

  /**
   Three requests that the server accepts: account 1 opened with 1, account 2 with 2^32 - 1 (more than a
   client lets through), and 1 paid from the one to the other.  Then both hold nothing.
   */
  lemma TransferCanLoseMoney(cfg: Config) returns (log: seq<Entry>)
    ensures Faithful(cfg, log) && |log| == 3 && forall k :: 0 <= k < 3 ==> log[k].reply.code == RC_OK
    ensures Minted(log) == TWO_TO_THE_32 && Total(Replay(cfg, log).accounts, MAX_BANK_ACCOUNTS) == 0
    ensures BalanceOf(Replay(cfg, log).accounts, 1) == BalanceOf(Replay(cfg, log).accounts, 2) == 0
  {
    var second := TwoAccounts(cfg);
    log := PayAll(cfg, second);
    BooksTotal(cfg, log);
    assert second == log[..2] && log[0] == second[0] && log[1] == second[1];
  }

  lemma TwoAccounts(cfg: Config) returns (log: seq<Entry>)
    ensures Faithful(cfg, log) && |log| == 2 && log[0].reply.code == log[1].reply.code == RC_OK
    ensures Minted(log) == TWO_TO_THE_32 && Losses(cfg, log) == 0
    ensures Owned(cfg, Replay(cfg, log).accounts, 1, 1) && Owned(cfg, Replay(cfg, log).accounts, 2, 0xFFFF_FFFF)
  {
    var first := Open(cfg, [], 1, 1);
    log := Open(cfg, first, 2, 0xFFFF_FFFF);
    assert log[0] == log[..1][0] && log[..1] == first;
  }

  lemma PayAll(cfg: Config, log: seq<Entry>) returns (next: seq<Entry>)
    requires Faithful(cfg, log)
    requires Owned(cfg, Replay(cfg, log).accounts, 1, 1) && Owned(cfg, Replay(cfg, log).accounts, 2, 0xFFFF_FFFF)
    ensures Faithful(cfg, next) && |next| == |log| + 1 && next[..|log|] == log && next[|log|].reply.code == RC_OK
    ensures Minted(next) == Minted(log) && Losses(cfg, next) == Losses(cfg, log) + 1
    ensures BalanceOf(Replay(cfg, next).accounts, 1) == BalanceOf(Replay(cfg, next).accounts, 2) == 0
  {
    PaymentWraps(cfg, Replay(cfg, log), cfg.salt(|log|));
    next := Extend(cfg, log, Payment());
  }

  function Payment(): Request {
    Request(2, 1, "password", 0, Transfer(2, 1))
  }

  lemma PaymentWraps(cfg: Config, ledger: Ledger, salt: string)
    requires Owned(cfg, ledger.accounts, 1, 1) && Owned(cfg, ledger.accounts, 2, 0xFFFF_FFFF)
    ensures
      var outcome := Execute(cfg.sha, salt, ledger, Payment());
      && outcome.reply.code == RC_OK && Wraps(ledger.accounts, Payment())
      && BalanceOf(outcome.ledger.accounts, 1) == BalanceOf(outcome.ledger.accounts, 2) == 0
  {
    assert HeaderVerdict(cfg.sha, ledger.accounts, Payment()) == RC_OK;
    assert TransferVerdict(ledger.accounts, 1, 2, 1) == RC_OK;
  }
}
