/**
 The concurrent account table against the requests run one at a time in commit order.
 */
module Books {
  import opened Bank
  import opened Server
  import opened HallSafety
  import opened Locks

  // ----- Running the log one request at a time -----

  function Opened(cfg: Config): Ledger {
    Ledger(map[ADMIN_ACCOUNT_ID := AdminAccount(cfg)], false)
  }

  function Replay(cfg: Config, log: seq<Entry>): Ledger {
    if log == [] then Opened(cfg)
    else
      var last := log[|log| - 1];
      Execute(cfg.sha, cfg.salt(last.ticket), Replay(cfg, log[..|log| - 1]), last.req).ledger
  }

  /** Every logged reply is the reply that the request gets when it runs alone, in log order. */
  predicate Faithful(cfg: Config, log: seq<Entry>) {
    forall k :: 0 <= k < |log| ==>
      log[k].reply == Execute(cfg.sha, cfg.salt(log[k].ticket), Replay(cfg, log[..k]), log[k].req).reply
  }

  lemma ReplayAppend(cfg: Config, log: seq<Entry>, entry: Entry)
    ensures Replay(cfg, log + [entry]) == Execute(cfg.sha, cfg.salt(entry.ticket), Replay(cfg, log), entry.req).ledger
  {
    assert (log + [entry])[..|log|] == log;
  }

  lemma FaithfulAppend(cfg: Config, log: seq<Entry>, entry: Entry)
    requires Faithful(cfg, log)
    requires entry.reply == Execute(cfg.sha, cfg.salt(entry.ticket), Replay(cfg, log), entry.req).reply
    ensures Faithful(cfg, log + [entry])
  {
    var longer := log + [entry];
    forall k | 0 <= k < |longer|
      ensures longer[k].reply
           == Execute(cfg.sha, cfg.salt(longer[k].ticket), Replay(cfg, longer[..k]), longer[k].req).reply
    {
      assert longer[..k] == log[..k] || k == |log|;
      assert k == |log| ==> longer[..k] == log;
    }
  }

  // ----- How the table differs from the books -----

  /** The balance the table shows for `id` when the books say `balance`, because of a half-done transfer. */
  function Drift(office: Office, id: int, balance: uint32): uint32 {
    var req := office.req;
    match office.pc
    case Handle(Debit) => if id == Target(req) then Wrap(balance + Amount(req)) else balance
    case Handle(TransferRead) =>
      if office.reply.code != RC_OK then balance
      else if id == Target(req) then Wrap(balance + Amount(req))
      else if id == req.account then Wrap(balance - Amount(req))
      else balance
    case _ => balance
  }

  /** Which office's half-done transfer shows at `id`: the one that holds its mutex. */
  function Seen(offices: seq<Office>, live: map<int, Thread>, id: int, balance: uint32): uint32 {
    if id in live && live[id].OfficeThread? && live[id].index < |offices|
    then Drift(offices[live[id].index], id, balance)
    else balance
  }

  predicate SameCredentials(a: Accounts, b: Accounts) {
    && a.Keys == b.Keys
    && forall id :: id in a ==> a[id].salt == b[id].salt && a[id].hash == b[id].hash
  }

  predicate Mirrors(accounts: Accounts, books: Accounts, offices: seq<Office>, live: map<int, Thread>) {
    && SameCredentials(accounts, books)
    && forall id :: id in accounts ==> accounts[id].balance == Seen(offices, live, id, books[id].balance)
  }

  // ----- What an office relies on -----

  predicate Vetted(at: Handling) {
    !at.Exists? && !at.Login? && !at.Send?
  }

  predicate Fits(at: Handling, op: Operation) {
    match at
    case CreateLock | CreateTest | CreateWrite | CreateUnlock => op.CreateAccount?
    case BalanceLock | BalanceRead | BalanceUnlock => op.CheckBalance?
    case TransferFirst | TransferSecond | TransferTest | Credit | Debit | TransferRead => op.Transfer?
    case TransferUnlockFirst | TransferUnlockSecond => op.Transfer?
    case SetShutdown | ChangeMode | CloseDummy | CountActive => op.Shutdown?
    case _ => true
  }

  predicate Decided(at: Handling) {
    at.Credit? || at.Debit? || at.TransferRead?
  }

  predicate Facts(cfg: Config, office: Office, accounts: Accounts, books: Accounts) {
    office.pc.Handle? ==>
      var at, req := office.pc.at, office.req;
      && Fits(at, req.op)
      && (at.Login? ==> req.account in accounts)
      && (Vetted(at) ==> HeaderVerdict(cfg.sha, accounts, req) == RC_OK)
      && (at.CreateWrite? ==> Target(req) !in accounts)
      && (Decided(at) ==> office.reply.code == TransferVerdict(books, req.account, Target(req), Amount(req)))
      && (at.Credit? || at.Debit? ==> office.reply.code == RC_OK)
  }

  predicate Installed(main: MainPc) {
    match main
    case InitSync | Launch(_) | InitAccounts | AdminLock | AdminTest | AdminWrite | Aborted => false
    case _ => true
  }

  ghost predicate BooksInv(cfg: Config, s: State) {
    var ledger := Replay(cfg, s.vault.log);
    && !s.main.Aborted?
    && (Starting(s.main) ==> s.vault.log == [])
    && (!Installed(s.main) ==> s.vault.accounts == map[])
    && (Installed(s.main) ==> Mirrors(s.vault.accounts, ledger.accounts, s.offices, Live(s.vault)))
    && s.vault.shutdown == ledger.shutdown
    && Faithful(cfg, s.vault.log)
    && (forall j :: 0 <= j < |s.offices| ==> Facts(cfg, s.offices[j], s.vault.accounts, ledger.accounts))
  }

  lemma InitialBooks(cfg: Config, requests: seq<Request>)
    ensures BooksInv(cfg, Initial(cfg, requests))
  {
  }

  // ----- One step, seen from its own office -----

  /** The outcome of an office's request against the books. */
  function Alone(cfg: Config, office: Office, ledger: Ledger): Outcome {
    Execute(cfg.sha, cfg.salt(office.ticket), ledger, office.req)
  }

  function BooksAfter(cfg: Config, office: Office, accounts: Accounts, ledger: Ledger): Ledger {
    if Commits(cfg, office, accounts) then Alone(cfg, office, ledger).ledger else ledger
  }

  /** The table agrees with the books at the accounts an office holds or is about to lock, up to its own drift. */
  predicate AgreesAt(office: Office, id: int, accounts: Accounts, books: Accounts) {
    && (id in accounts <==> id in books)
    && (id in accounts ==> accounts[id].balance == Drift(office, id, books[id].balance))
  }

  /** A commit gives exactly the reply that the request gets when it runs alone on the books. */
  lemma CommitReplies(cfg: Config, office: Office, s: State, ledger: Ledger)
    requires office.pc.Handle? && Commits(cfg, office, s.vault.accounts)
    requires SameCredentials(s.vault.accounts, ledger.accounts)
    requires Facts(cfg, office, s.vault.accounts, ledger.accounts)
    requires forall id :: Holds(office, id) ==> AgreesAt(office, id, s.vault.accounts, ledger.accounts)
    requires HoldsBoth(office.pc) ==> Target(office.req) != office.req.account
    ensures NextOffice(cfg, office, s).reply == Alone(cfg, office, ledger).reply
  {
    var req := office.req;
    assert HeaderVerdict(cfg.sha, ledger.accounts, req) == HeaderVerdict(cfg.sha, s.vault.accounts, req);
    match office.pc.at
    case BalanceRead =>
      assert AgreesAt(office, req.account, s.vault.accounts, ledger.accounts);
    case TransferRead =>
      assert AgreesAt(office, req.account, s.vault.accounts, ledger.accounts);
    case _ =>
  }

  /** Neither a write nor a commit touches an account whose mutex the office does not hold. */
  lemma StepIsLocal(cfg: Config, office: Office, accounts: Accounts, ledger: Ledger, id: int)
    requires office.pc.Handle?
    requires Facts(cfg, office, accounts, ledger.accounts)
    requires SameCredentials(accounts, ledger.accounts)
    requires !Holds(office, id)
    ensures var next := NextAccounts(cfg, office, accounts);
      (id in next <==> id in accounts) && (id in next ==> next[id] == accounts[id])
    ensures var after := BooksAfter(cfg, office, accounts, ledger).accounts;
      (id in after <==> id in ledger.accounts) && (id in after ==> after[id] == ledger.accounts[id])
  {
  }

  /** Credit and debit move the table away from the books by the drift of their stages, and by nothing else. */
  lemma WritesDrift(office: Office, accounts: Accounts, books: Accounts, id: int)
    requires Target(office.req) != office.req.account && AgreesAt(office, id, accounts, books)
    requires office.pc == Handle(Debit) ==> office.reply.code == RC_OK
    ensures office.pc == Handle(Credit) ==>
      AgreesAt(office.(pc := Handle(Debit)), id, Credited(accounts, Target(office.req), Amount(office.req)), books)
    ensures office.pc == Handle(Debit) ==>
      AgreesAt(office.(pc := Handle(TransferRead)), id,
               Debited(accounts, office.req.account, Amount(office.req)), books)
  {
  }

  /** The commit of a transfer moves the books to where its drift has brought the table. */
  lemma CommitCatchesUp(cfg: Config, office: Office, s: State, ledger: Ledger, id: int)
    requires office.pc == Handle(TransferRead)
    requires Facts(cfg, office, s.vault.accounts, ledger.accounts)
    requires SameCredentials(s.vault.accounts, ledger.accounts)
    requires Target(office.req) != office.req.account
    requires AgreesAt(office, id, s.vault.accounts, ledger.accounts)
    ensures AgreesAt(NextOffice(cfg, office, s), id, s.vault.accounts,
                     BooksAfter(cfg, office, s.vault.accounts, ledger).accounts)
  {
    assert HeaderVerdict(cfg.sha, ledger.accounts, office.req) == HeaderVerdict(cfg.sha, s.vault.accounts, office.req);
  }

  /** The step keeps the table and the books in agreement at the accounts it holds or locks. */
  lemma StepAgrees(cfg: Config, office: Office, s: State, ledger: Ledger, id: int)
    requires office.pc.Handle?
    requires Facts(cfg, office, s.vault.accounts, ledger.accounts)
    requires SameCredentials(s.vault.accounts, ledger.accounts)
    requires HoldsBoth(office.pc) ==> Target(office.req) != office.req.account
    requires AgreesAt(office, id, s.vault.accounts, ledger.accounts)
    requires Holds(office, id) || Awaits(office) == Some(id)
    ensures AgreesAt(NextOffice(cfg, office, s), id, NextAccounts(cfg, office, s.vault.accounts),
                     BooksAfter(cfg, office, s.vault.accounts, ledger).accounts)
  {
    if office.pc.at.Credit? || office.pc.at.Debit? {
      WritesDrift(office, s.vault.accounts, ledger.accounts, id);
    } else if office.pc.at.TransferRead? {
      CommitCatchesUp(cfg, office, s, ledger, id);
    }
  }

  lemma StepKeepsCredentials(cfg: Config, office: Office, accounts: Accounts, ledger: Ledger)
    requires office.pc.Handle?
    requires Facts(cfg, office, accounts, ledger.accounts)
    requires SameCredentials(accounts, ledger.accounts)
    ensures SameCredentials(NextAccounts(cfg, office, accounts), BooksAfter(cfg, office, accounts, ledger).accounts)
    ensures Extends(accounts, NextAccounts(cfg, office, accounts))
  {
  }

  predicate InTransfer(at: Handling) {
    match at
    case TransferFirst | TransferSecond | TransferTest | Credit | Debit | TransferRead => true
    case TransferUnlockFirst | TransferUnlockSecond => true
    case _ => false
  }

  lemma TransferFacts(cfg: Config, office: Office, s: State, books: Accounts)
    requires office.pc.Handle? && InTransfer(office.pc.at)
    requires Facts(cfg, office, s.vault.accounts, books)
    requires office.pc != Handle(TransferRead) && office.pc != Handle(TransferTest)
    ensures Facts(cfg, NextOffice(cfg, office, s), s.vault.accounts, books)
  {
  }

  lemma HeaderFacts(cfg: Config, office: Office, s: State, books: Accounts)
    requires office.pc == Handle(Exists) || office.pc == Handle(Login)
    requires Facts(cfg, office, s.vault.accounts, books)
    ensures Facts(cfg, NextOffice(cfg, office, s), s.vault.accounts, books)
  {
  }

  lemma OtherFacts(cfg: Config, office: Office, s: State, books: Accounts)
    requires office.pc.Handle? && !InTransfer(office.pc.at) && !office.pc.at.Exists? && !office.pc.at.Login?
    requires Facts(cfg, office, s.vault.accounts, books)
    ensures Facts(cfg, NextOffice(cfg, office, s), s.vault.accounts, books)
  {
  }

  /** The next stage of an office has what it relies on, judged by the table before the step. */
  lemma NextFacts(cfg: Config, office: Office, s: State, books: Accounts)
    requires office.pc.Handle?
    requires Facts(cfg, office, s.vault.accounts, books)
    requires office.pc != Handle(TransferRead) && office.pc != Handle(TransferTest)
    ensures Facts(cfg, NextOffice(cfg, office, s), s.vault.accounts, books)
  {
    if InTransfer(office.pc.at) {
      TransferFacts(cfg, office, s, books);
    } else if office.pc.at.Exists? || office.pc.at.Login? {
      HeaderFacts(cfg, office, s, books);
    } else {
      OtherFacts(cfg, office, s, books);
    }
  }

  /** The decision of a transfer, taken on the table under both mutexes, is the decision on the books. */
  lemma DecisionFacts(cfg: Config, office: Office, s: State, books: Accounts)
    requires office.pc == Handle(TransferTest)
    requires Facts(cfg, office, s.vault.accounts, books)
    requires forall id :: Holds(office, id) ==> AgreesAt(office, id, s.vault.accounts, books)
    ensures Facts(cfg, NextOffice(cfg, office, s), s.vault.accounts, books)
  {
    assert AgreesAt(office, office.req.account, s.vault.accounts, books);
    assert AgreesAt(office, Target(office.req), s.vault.accounts, books);
  }

  lemma OwnFacts(cfg: Config, office: Office, s: State, ledger: Ledger)
    requires office.pc.Handle?
    requires Facts(cfg, office, s.vault.accounts, ledger.accounts)
    requires SameCredentials(s.vault.accounts, ledger.accounts)
    requires forall id :: Holds(office, id) ==> AgreesAt(office, id, s.vault.accounts, ledger.accounts)
    ensures Facts(cfg, NextOffice(cfg, office, s), NextAccounts(cfg, office, s.vault.accounts),
                  BooksAfter(cfg, office, s.vault.accounts, ledger).accounts)
  {
    var next, accounts := NextOffice(cfg, office, s), NextAccounts(cfg, office, s.vault.accounts);
    var books := BooksAfter(cfg, office, s.vault.accounts, ledger).accounts;
    StepKeepsCredentials(cfg, office, s.vault.accounts, ledger);
    if office.pc == Handle(TransferTest) {
      DecisionFacts(cfg, office, s, ledger.accounts);
    } else if office.pc == Handle(TransferRead) {
      UnlockFacts(cfg, office, s, ledger.accounts);
    } else {
      NextFacts(cfg, office, s, ledger.accounts);
    }
    OwnMove(cfg, office, s, ledger);
    FactsMove(cfg, next, s.vault.accounts, ledger.accounts, accounts, books);
  }

  lemma UnlockFacts(cfg: Config, office: Office, s: State, books: Accounts)
    requires office.pc == Handle(TransferRead) && Facts(cfg, office, s.vault.accounts, books)
    ensures Facts(cfg, NextOffice(cfg, office, s), s.vault.accounts, books)
  {
  }

  /** A step into a write leaves the table alone, and a step into a decided transfer the books. */
  lemma OwnMove(cfg: Config, office: Office, s: State, ledger: Ledger)
    requires office.pc.Handle?
    ensures NextOffice(cfg, office, s).pc == Handle(CreateWrite) ==>
      NextAccounts(cfg, office, s.vault.accounts) == s.vault.accounts
    ensures NextOffice(cfg, office, s).pc.Handle? && Decided(NextOffice(cfg, office, s).pc.at) ==>
      BooksAfter(cfg, office, s.vault.accounts, ledger) == ledger
  {
  }

  /** Facts about an office carry over to a table with more accounts, as far as the office's own step allows. */
  lemma FactsMove(cfg: Config, office: Office, accounts: Accounts, books: Accounts,
                  accounts': Accounts, books': Accounts)
    requires Facts(cfg, office, accounts, books) && Extends(accounts, accounts')
    requires office.pc == Handle(CreateWrite) ==> accounts' == accounts
    requires office.pc.Handle? && Decided(office.pc.at) ==> books' == books
    ensures Facts(cfg, office, accounts', books')
  {
    if office.req.account in accounts {
      LoginIsStable(cfg.sha, accounts, accounts', office.req);
    }
  }

  /** What an office relies on survives any step of another one: it holds the mutexes that matter. */
  lemma OthersFacts(cfg: Config, other: Office, accounts: Accounts, books: Accounts,
                    accounts': Accounts, books': Accounts)
    requires Facts(cfg, other, accounts, books)
    requires Extends(accounts, accounts')
    requires forall id :: Holds(other, id) ==>
      && (id in accounts' <==> id in accounts)
      && (id in books' <==> id in books) && (id in books ==> books'[id] == books[id])
    ensures Facts(cfg, other, accounts', books')
  {
    if other.pc.Handle? {
      var req := other.req;
      if req.account in accounts {
        LoginIsStable(cfg.sha, accounts, accounts', req);
      }
      if other.pc.at.CreateWrite? || Decided(other.pc.at) {
        assert Holds(other, Target(req));
      }
      if Decided(other.pc.at) {
        assert Holds(other, req.account);
      }
    }
  }

  lemma DriftNeedsHold(office: Office, id: int, balance: uint32)
    requires !Holds(office, id)
    ensures Drift(office, id, balance) == balance
  {
  }

  lemma SeenByHolder(main: MainPc, offices: seq<Office>, live: map<int, Thread>, i: nat, id: int, balance: uint32)
    requires Placed(main, offices, live)
    requires i < |offices| && Holds(offices[i], id)
    ensures Seen(offices, live, id, balance) == Drift(offices[i], id, balance)
  {
  }

  lemma SeenUnlocked(offices: seq<Office>, live: map<int, Thread>, id: int, balance: uint32)
    requires id !in live
    ensures Seen(offices, live, id, balance) == balance
  {
  }

  /** Moving office `i` does not change what is seen at an account it holds neither before nor after. */
  lemma SeenElsewhere(main: MainPc, offices: seq<Office>, live: map<int, Thread>, i: nat, next: Office,
                      live': map<int, Thread>, id: int, balance: uint32)
    requires i < |offices| && Placed(main, offices, live) && Placed(main, offices[i := next], live')
    requires !Holds(offices[i], id) && !Holds(next, id)
    ensures Seen(offices[i := next], live', id, balance) == Seen(offices, live, id, balance)
  {
    if id in live && live[id].OfficeThread? {
      assert Holds(offices[live[id].index], id);
      assert offices[i := next][live[id].index] == offices[live[id].index];
    }
    if id in live' && live'[id].OfficeThread? {
      assert Holds(offices[i := next][live'[id].index], id);
    }
  }

  lemma SeenReleased(main: MainPc, offices: seq<Office>, live: map<int, Thread>, i: nat, next: Office,
                     live': map<int, Thread>, id: int, balance: uint32)
    requires i < |offices| && Placed(main, offices, live) && Placed(main, offices[i := next], live')
    requires Holds(offices[i], id) && !Holds(next, id)
    ensures Seen(offices[i := next], live', id, balance) == balance
  {
    assert live[id] == OfficeThread(i);
    var moved := offices[i := next];
    assert forall j :: 0 <= j < |moved| ==> !Holds(moved[j], id);
  }

  /** The mirror at one account, after office `i` has moved to `next`. */
  lemma MirrorAt(cfg: Config, s: State, i: nat, live': map<int, Thread>, ledger: Ledger, id: int)
    requires i < |s.offices| && s.offices[i].pc.Handle? && OfficeEnabled(s, i)
    requires LockInv(s) && Placed(s.main, s.offices[i := NextOffice(cfg, s.offices[i], s)], live')
    requires Mirrors(s.vault.accounts, ledger.accounts, s.offices, Live(s.vault))
    requires Facts(cfg, s.offices[i], s.vault.accounts, ledger.accounts)
    requires Awaits(s.offices[i]) == Some(id) ==> Holds(NextOffice(cfg, s.offices[i], s), id)
    requires Holds(NextOffice(cfg, s.offices[i], s), id) ==> Holds(s.offices[i], id) || Awaits(s.offices[i]) == Some(id)
    ensures
      var office, next := s.offices[i], NextOffice(cfg, s.offices[i], s);
      var accounts := NextAccounts(cfg, office, s.vault.accounts);
      var books := BooksAfter(cfg, office, s.vault.accounts, ledger).accounts;
      id in accounts ==> id in books && accounts[id].balance == Seen(s.offices[i := next], live', id, books[id].balance)
  {
    var office, next := s.offices[i], NextOffice(cfg, s.offices[i], s);
    var accounts := NextAccounts(cfg, office, s.vault.accounts);
    var books := BooksAfter(cfg, office, s.vault.accounts, ledger).accounts;
    if id !in accounts {
      return;
    }
    if Holds(office, id) || Awaits(office) == Some(id) {
      if id in s.vault.accounts {
        if Holds(office, id) {
          SeenByHolder(s.main, s.offices, Live(s.vault), i, id, ledger.accounts[id].balance);
        } else {
          SeenUnlocked(s.offices, Live(s.vault), id, ledger.accounts[id].balance);
          DriftNeedsHold(office, id, ledger.accounts[id].balance);
        }
      }
      StepAgrees(cfg, office, s, ledger, id);
      if Holds(next, id) {
        SeenByHolder(s.main, s.offices[i := next], live', i, id, books[id].balance);
      } else {
        SeenReleased(s.main, s.offices, Live(s.vault), i, next, live', id, books[id].balance);
        DriftNeedsHold(next, id, books[id].balance);
      }
    } else {
      StepIsLocal(cfg, office, s.vault.accounts, ledger, id);
      SeenElsewhere(s.main, s.offices, Live(s.vault), i, next, live', id, books[id].balance);
    }
  }

  /** The books after an office step are the replay of the log after it, and the log stays faithful. */
  lemma LogFollows(cfg: Config, s: State, i: nat)
    requires LockInv(s) && BooksInv(cfg, s) && Installed(s.main)
    requires i < |s.offices| && s.offices[i].pc.Handle?
    ensures
      var t := OfficeStep(cfg, s, i);
      && Replay(cfg, t.vault.log) == BooksAfter(cfg, s.offices[i], s.vault.accounts, Replay(cfg, s.vault.log))
      && Faithful(cfg, t.vault.log)
  {
    var office, ledger := s.offices[i], Replay(cfg, s.vault.log);
    if Commits(cfg, office, s.vault.accounts) {
      var entry := Entry(office.ticket, office.req, NextOffice(cfg, office, s).reply);
      HeldAgree(s, i, ledger.accounts);
      CommitReplies(cfg, office, s, ledger);
      ReplayAppend(cfg, s.vault.log, entry);
      FaithfulAppend(cfg, s.vault.log, entry);
    }
  }

  lemma HeldAgree(s: State, i: nat, books: Accounts)
    requires LockInv(s) && Mirrors(s.vault.accounts, books, s.offices, Live(s.vault))
    requires i < |s.offices|
    ensures forall id :: Holds(s.offices[i], id) ==> AgreesAt(s.offices[i], id, s.vault.accounts, books)
  {
    forall id | Holds(s.offices[i], id) ensures AgreesAt(s.offices[i], id, s.vault.accounts, books) {
      if id in books {
        SeenByHolder(s.main, s.offices, Live(s.vault), i, id, books[id].balance);
      }
    }
  }

  lemma ShutdownFollows(cfg: Config, office: Office, accounts: Accounts, ledger: Ledger)
    requires office.pc.Handle?
    requires Facts(cfg, office, accounts, ledger.accounts) && SameCredentials(accounts, ledger.accounts)
    ensures BooksAfter(cfg, office, accounts, ledger).shutdown == (ledger.shutdown || office.pc == Handle(SetShutdown))
  {
    if Commits(cfg, office, accounts) {
      assert HeaderVerdict(cfg.sha, ledger.accounts, office.req) == HeaderVerdict(cfg.sha, accounts, office.req);
    }
  }

  /** An office holds no mutex that another one holds, so its step leaves what the other one holds alone. */
  lemma LeavesHeldAlone(cfg: Config, s: State, i: nat, j: nat, ledger: Ledger, id: int)
    requires i < |s.offices| && j < |s.offices| && j != i && s.offices[i].pc.Handle? && LockInv(s)
    requires SameCredentials(s.vault.accounts, ledger.accounts)
    requires Facts(cfg, s.offices[i], s.vault.accounts, ledger.accounts)
    requires Holds(s.offices[j], id)
    ensures id in NextAccounts(cfg, s.offices[i], s.vault.accounts) <==> id in s.vault.accounts
    ensures
      var books := BooksAfter(cfg, s.offices[i], s.vault.accounts, ledger).accounts;
      (id in books <==> id in ledger.accounts) && (id in books ==> books[id] == ledger.accounts[id])
  {
    HolderExactly(s, i, id);
    HolderExactly(s, j, id);
    StepIsLocal(cfg, s.offices[i], s.vault.accounts, ledger, id);
  }

  lemma HandleKeepsFacts(cfg: Config, s: State, i: nat, ledger: Ledger)
    requires i < |s.offices| && s.offices[i].pc.Handle?
    requires LockInv(s) && Mirrors(s.vault.accounts, ledger.accounts, s.offices, Live(s.vault))
    requires forall j :: 0 <= j < |s.offices| ==> Facts(cfg, s.offices[j], s.vault.accounts, ledger.accounts)
    ensures
      var accounts := NextAccounts(cfg, s.offices[i], s.vault.accounts);
      var books := BooksAfter(cfg, s.offices[i], s.vault.accounts, ledger).accounts;
      && Facts(cfg, NextOffice(cfg, s.offices[i], s), accounts, books)
      && forall j :: 0 <= j < |s.offices| && j != i ==> Facts(cfg, s.offices[j], accounts, books)
  {
    var office := s.offices[i];
    var accounts := NextAccounts(cfg, office, s.vault.accounts);
    var books := BooksAfter(cfg, office, s.vault.accounts, ledger).accounts;
    HeldAgree(s, i, ledger.accounts);
    OwnFacts(cfg, office, s, ledger);
    StepKeepsCredentials(cfg, office, s.vault.accounts, ledger);
    forall j | 0 <= j < |s.offices| && j != i ensures Facts(cfg, s.offices[j], accounts, books) {
      forall id | Holds(s.offices[j], id)
        ensures (id in accounts <==> id in s.vault.accounts) && (id in books <==> id in ledger.accounts)
        ensures id in books ==> books[id] == ledger.accounts[id]
      {
        LeavesHeldAlone(cfg, s, i, j, ledger, id);
      }
      OthersFacts(cfg, s.offices[j], s.vault.accounts, ledger.accounts, accounts, books);
    }
  }

  lemma HandleKeepsBooks(cfg: Config, s: State, i: nat)
    requires HallInv(cfg, s) && LockInv(s) && BooksInv(cfg, s)
    requires i < |s.offices| && OfficeEnabled(s, i) && s.offices[i].pc.Handle?
    ensures BooksInv(cfg, OfficeStep(cfg, s, i))
  {
    var office, t := s.offices[i], OfficeStep(cfg, s, i);
    var next, ledger := NextOffice(cfg, office, s), Replay(cfg, s.vault.log);
    assert Installed(s.main) && !Starting(s.main);
    OfficeKeepsLocks(cfg, s, i);
    LogFollows(cfg, s, i);
    ShutdownFollows(cfg, office, s.vault.accounts, ledger);
    HandleKeepsFacts(cfg, s, i, ledger);
    StepKeepsCredentials(cfg, office, s.vault.accounts, ledger);
    forall id | id in t.vault.accounts
      ensures id in Replay(cfg, t.vault.log).accounts
      ensures t.vault.accounts[id].balance
           == Seen(t.offices, Live(t.vault), id, Replay(cfg, t.vault.log).accounts[id].balance)
    {
      HoldsSource(cfg, s, i, id);
      MirrorAt(cfg, s, i, Live(t.vault), ledger, id);
    }
  }

  lemma HoldsSource(cfg: Config, s: State, i: nat, id: int)
    requires LockInv(s) && i < |s.offices| && OfficeEnabled(s, i)
    ensures Awaits(s.offices[i]) == Some(id) ==> Holds(NextOffice(cfg, s.offices[i], s), id)
    ensures Holds(NextOffice(cfg, s.offices[i], s), id) ==> Holds(s.offices[i], id) || Awaits(s.offices[i]) == Some(id)
  {
    HeldForNext(s, i);
    HoldsChange(cfg, s.offices[i], s);
  }

  /** Steps outside `handleRequest` touch neither the table nor the log, and hold no account mutex. */
  lemma RoutineKeepsBooks(cfg: Config, s: State, i: nat)
    requires LockInv(s) && BooksInv(cfg, s)
    requires i < |s.offices| && OfficeEnabled(s, i) && !s.offices[i].pc.Handle?
    ensures BooksInv(cfg, OfficeStep(cfg, s, i))
  {
    var office, t := s.offices[i], OfficeStep(cfg, s, i);
    var next := NextOffice(cfg, office, s);
    OfficeKeepsLocks(cfg, s, i);
    assert t.vault.accounts == s.vault.accounts && t.vault.log == s.vault.log && Live(t.vault) == Live(s.vault);
    var books := Replay(cfg, s.vault.log).accounts;
    if Installed(s.main) {
      forall id | id in s.vault.accounts
        ensures Seen(t.offices, Live(t.vault), id, books[id].balance)
             == Seen(s.offices, Live(s.vault), id, books[id].balance)
      {
        SeenElsewhere(s.main, s.offices, Live(s.vault), i, next, Live(t.vault), id, books[id].balance);
      }
    }
  }

  lemma AdminKeepsBooks(cfg: Config, s: State)
    requires HallInv(cfg, s) && LockInv(s) && BooksInv(cfg, s)
    requires s.main.InitAccounts? || s.main.AdminWrite? || s.main.AdminUnlock?
    ensures BooksInv(cfg, MainStep(cfg, s))
  {
    var t := MainStep(cfg, s);
    assert t.vault.log == s.vault.log == [] && t.offices == s.offices;
  }

  /** Before the administrator is installed the only thing to keep is that nothing has happened. */
  lemma EarlyKeepsBooks(cfg: Config, s: State)
    requires StartingInv(s) && LockInv(s) && BooksInv(cfg, s)
    requires !Installed(s.main) && !s.main.AdminWrite? && !s.main.InitAccounts?
    ensures BooksInv(cfg, MainStep(cfg, s))
  {
    var t := MainStep(cfg, s);
    assert t.vault.log == s.vault.log && t.vault.accounts == s.vault.accounts == map[];
    assert forall j :: 0 <= j < |t.offices| ==> !t.offices[j].pc.Handle?;
  }

  lemma MainKeepsBooks(cfg: Config, s: State)
    requires BooksInv(cfg, s)
    requires Installed(s.main) && !s.main.AdminUnlock?
    ensures BooksInv(cfg, MainStep(cfg, s))
  {
    var t := MainStep(cfg, s);
    assert t.vault == s.vault && t.offices == s.offices;
  }

  lemma StepKeepsBooks(cfg: Config, s: State, actor: Actor)
    requires HallInv(cfg, s) && LockInv(s) && BooksInv(cfg, s) && Enabled(s, actor)
    ensures BooksInv(cfg, Step(cfg, s, actor))
  {
    match actor
    case MainActor =>
      if s.main.InitAccounts? || s.main.AdminWrite? || s.main.AdminUnlock? {
        AdminKeepsBooks(cfg, s);
      } else if Installed(s.main) {
        MainKeepsBooks(cfg, s);
      } else {
        EarlyKeepsBooks(cfg, s);
      }
    case OfficeActor(i) =>
      if s.offices[i].pc.Handle? { HandleKeepsBooks(cfg, s, i); } else { RoutineKeepsBooks(cfg, s, i); }
    case UserActor(u) =>
      var t := UserStep(s, u);
      assert t.main == s.main && t.vault == s.vault && t.offices == s.offices;
  }
}
