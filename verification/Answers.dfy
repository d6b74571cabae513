/**
 What every answer of every run is worth: who it was given to, and what a shutdown counted.
 */
module Answers {
  import opened Bank
  import opened Server
  import opened Gauges
  import opened HallSafety
  import opened Tickets
  import opened Books
  import opened Lifecycle
  import opened Invariant
  import opened Meaning

  // ----- Passwords -----

  predicate HasPassword(cfg: Config, accounts: Accounts, req: Request) {
    && req.account in accounts
    && cfg.sha(req.password + accounts[req.account].salt) == accounts[req.account].hash
  }

  lemma ExecuteExtends(sha: string -> string, salt: string, ledger: Ledger, req: Request)
    ensures Extends(ledger.accounts, Execute(sha, salt, ledger, req).ledger.accounts)
  {
  }

  lemma {:induction false} ReplayExtends(cfg: Config, log: seq<Entry>, k: nat)
    requires k <= |log|
    ensures Extends(Replay(cfg, log[..k]).accounts, Replay(cfg, log).accounts)
  {
    if k == |log| {
      assert log[..k] == log;
    } else {
      var rest, last := log[..|log| - 1], log[|log| - 1];
      assert log[..k] == rest[..k];
      ReplayExtends(cfg, rest, k);
      ExecuteExtends(cfg.sha, cfg.salt(last.ticket), Replay(cfg, rest), last.req);
    }
  }

  /**
   In every run, a login is refused exactly when, at its place in the log, the account does not exist or the
   password is not the account's.  A request with any other reply has the password of an account that the
   table still holds, with the hash that it had then.
   */
  lemma LoginsNeedThePassword(cfg: Config, requests: seq<Request>, t: State, k: nat)
    requires Reachable(cfg, requests, t) && k < |t.vault.log|
    ensures
      var entry, books := t.vault.log[k], Replay(cfg, t.vault.log[..k]).accounts;
      && (entry.reply.code == RC_LOGIN_FAIL <==> !HasPassword(cfg, books, entry.req))
      && (entry.reply.code != RC_LOGIN_FAIL ==> HasPassword(cfg, t.vault.accounts, entry.req))
  {
    ReachableInv(cfg, requests, t);
    LoginsInLog(cfg, t.vault.log, k);
    if t.vault.log[k].reply.code != RC_LOGIN_FAIL {
      KeepsThePassword(cfg, t, Replay(cfg, t.vault.log[..k]).accounts, t.vault.log[k].req);
    }
  }

  lemma LoginsInLog(cfg: Config, log: seq<Entry>, k: nat)
    requires Faithful(cfg, log) && k < |log|
    ensures log[k].reply.code == RC_LOGIN_FAIL <==> !HasPassword(cfg, Replay(cfg, log[..k]).accounts, log[k].req)
    ensures Extends(Replay(cfg, log[..k]).accounts, Replay(cfg, log).accounts)
  {
    LoginFailsExactlyWhen(cfg.sha, cfg.salt(log[k].ticket), Replay(cfg, log[..k]), log[k].req);
    ReplayExtends(cfg, log, k);
  }

  /** The table holds the credentials of every account that the books have ever held. */
  lemma KeepsThePassword(cfg: Config, t: State, books: Accounts, req: Request)
    requires BooksInv(cfg, t) && t.vault.log != [] && Extends(books, Replay(cfg, t.vault.log).accounts)
    requires HasPassword(cfg, books, req)
    ensures HasPassword(cfg, t.vault.accounts, req)
  {
  }

  /** Entry `k` of the log opened the account with the salt and the hash that it has now. */
  predicate Opened(cfg: Config, log: seq<Entry>, k: int, id: int, account: Account) {
    && 0 <= k < |log| && log[k].req.op.CreateAccount? && log[k].req.op.id == id
    && account.salt == cfg.salt(log[k].ticket) && account.hash == cfg.sha(log[k].req.op.newPassword + account.salt)
  }

  /** Every account but the administrator's was opened by an entry of the log. */
  lemma {:induction false} AccountsWereOpened(cfg: Config, log: seq<Entry>, id: int)
    requires id in Replay(cfg, log).accounts && id != ADMIN_ACCOUNT_ID
    ensures exists k :: Opened(cfg, log, k, id, Replay(cfg, log).accounts[id])
  {
    var rest, last := log[..|log| - 1], log[|log| - 1];
    ExecuteExtends(cfg.sha, cfg.salt(last.ticket), Replay(cfg, rest), last.req);
    if id in Replay(cfg, rest).accounts {
      AccountsWereOpened(cfg, rest, id);
      var k :| Opened(cfg, rest, k, id, Replay(cfg, rest).accounts[id]);
      assert Opened(cfg, log, k, id, Replay(cfg, log).accounts[id]);
    } else {
      assert Opened(cfg, log, |log| - 1, id, Replay(cfg, log).accounts[id]);
    }
  }

  /** The password opens the account: the administrator's, or the one given as the account was created. */
  predicate IsTheGivenPassword(cfg: Config, log: seq<Entry>, req: Request) {
    if req.account == ADMIN_ACCOUNT_ID then
      cfg.sha(req.password + cfg.adminSalt) == cfg.sha(cfg.adminPassword + cfg.adminSalt)
    else
      exists k :: 0 <= k < |log| && log[k].req.op.CreateAccount? && log[k].req.op.id == req.account &&
        var salt := cfg.salt(log[k].ticket);
        cfg.sha(req.password + salt) == cfg.sha(log[k].req.op.newPassword + salt)
  }

  lemma PasswordWasGiven(cfg: Config, log: seq<Entry>, req: Request)
    requires HasPassword(cfg, Replay(cfg, log).accounts, req)
    ensures IsTheGivenPassword(cfg, log, req)
  {
    AdminIsFixed(cfg, log);
    if req.account != ADMIN_ACCOUNT_ID {
      AccountsWereOpened(cfg, log, req.account);
      var k :| Opened(cfg, log, k, req.account, Replay(cfg, log).accounts[req.account]);
      assert log[k].req.op.id == req.account;
    }
  }

  /**
   Whoever gets an answer other than a refused login gave, up to a collision of hashes, the password with
   which the account was opened earlier in the log.
   */
  lemma AnswersNeedThePassword(cfg: Config, requests: seq<Request>, t: State, a: nat)
    requires Reachable(cfg, requests, t) && a < |t.vault.answers|
    requires t.vault.answers[a].reply.code != RC_LOGIN_FAIL
    ensures
      var ticket, log := t.vault.answers[a].ticket, t.vault.log;
      && ticket < |t.hall.popped| && Logged(log, ticket)
      && HasPassword(cfg, t.vault.accounts, t.hall.popped[ticket])
      && IsTheGivenPassword(cfg, log[..Position(log, ticket)], t.hall.popped[ticket])
  {
    ReachableInv(cfg, requests, t);
    var log := t.vault.log;
    var k := Position(log, t.vault.answers[a].ticket);
    assert log[k].reply == Mask(t.vault.answers[a].reply);
    LoginsNeedThePassword(cfg, requests, t, k);
    PasswordWasGiven(cfg, log[..k], log[k].req);
  }

  /** The step of an office that lowers a balance debits the amount of a transfer, or wraps its credit. */
  lemma LoweringSteps(cfg: Config, office: Office, accounts: Accounts, books: Accounts, id: int)
    requires Facts(cfg, office, accounts, books)
    requires id in accounts && id in NextAccounts(cfg, office, accounts)
    requires NextAccounts(cfg, office, accounts)[id].balance < accounts[id].balance
    ensures office.req.op.Transfer? && HasPassword(cfg, accounts, office.req)
    ensures
      || (office.req.account == id
          && NextAccounts(cfg, office, accounts)[id].balance == accounts[id].balance - office.req.op.amount)
      || (office.req.op.dest == id && accounts[id].balance + office.req.op.amount >= TWO_TO_THE_32)
  {
  }

  /**
   Nobody's money goes without the password: an office that lowers a balance is at a transfer that came with
   the password of the account it pays from, and takes its amount from that account or wraps its credit.
   */
  lemma PayersGaveThePassword(cfg: Config, requests: seq<Request>, s: State, i: nat, id: int)
    requires Reachable(cfg, requests, s) && i < |s.offices| && id in s.vault.accounts
    requires
      var accounts := OfficeStep(cfg, s, i).vault.accounts;
      id in accounts && accounts[id].balance < s.vault.accounts[id].balance
    ensures
      var req, balance := s.offices[i].req, OfficeStep(cfg, s, i).vault.accounts[id].balance;
      && req.op.Transfer? && HasPassword(cfg, s.vault.accounts, req)
      && (   (req.account == id && balance == s.vault.accounts[id].balance - req.op.amount)
          || (req.op.dest == id && s.vault.accounts[id].balance + req.op.amount >= TWO_TO_THE_32))
  {
    ReachableInv(cfg, requests, s);
    LoweringSteps(cfg, s.offices[i], s.vault.accounts, Replay(cfg, s.vault.log).accounts, id);
  }

  // ----- What is not masked -----

  lemma OnlyShutdownsCount(sha: string -> string, salt: string, ledger: Ledger, req: Request, reply: Reply)
    requires Mask(reply) == Execute(sha, salt, ledger, req).reply
    ensures reply.account == req.account && reply.code == Execute(sha, salt, ledger, req).reply.code
    ensures req.op.Shutdown? && reply.code == RC_OK <==> reply.body.ActiveBody?
    ensures !reply.body.ActiveBody? ==> reply == Execute(sha, salt, ledger, req).reply
  {
  }

  /**
   The answer to a request is the whole reply that the request gets when it runs alone at its place in the
   log, unless it is an accepted shutdown, whose office count `ShutdownAnswersCount` gives.
   */
  lemma AnswersAreExact(cfg: Config, requests: seq<Request>, t: State, a: nat)
    requires Reachable(cfg, requests, t) && a < |t.vault.answers|
    ensures
      var log, answer := t.vault.log, t.vault.answers[a];
      && answer.ticket < |t.hall.popped| && Logged(log, answer.ticket)
      && var req, books := t.hall.popped[answer.ticket], Replay(cfg, log[..Position(log, answer.ticket)]);
         var reply := Execute(cfg.sha, cfg.salt(answer.ticket), books, req).reply;
         if req.op.Shutdown? && reply.code == RC_OK
         then answer.reply.account == req.account && answer.reply.code == RC_OK && answer.reply.body.ActiveBody?
         else answer.reply == reply
  {
    ReachableInv(cfg, requests, t);
    var log, answer := t.vault.log, t.vault.answers[a];
    var k := Position(log, answer.ticket);
    assert log[k].reply == Mask(answer.reply) && log[k].req == t.hall.popped[answer.ticket];
    OnlyShutdownsCount(cfg.sha, cfg.salt(answer.ticket), Replay(cfg, log[..k]), log[k].req, answer.reply);
  }

  // ----- The office count of a shutdown -----

  /** Office `i` reads the counter for its request, and the body holds the number of other offices counted in. */
  predicate CountsOthers(cfg: Config, s: State, i: int, ticket: nat, body: Body) {
    && 0 <= i < |s.offices| && s.offices[i].pc == Handle(CountActive) && s.offices[i].ticket == ticket
    && body.ActiveBody? && body.offices == Sum(Actives, cfg.fused, s.offices[..i] + s.offices[i + 1..])
  }

  /** The step that reads the counter puts the number of other offices counted in into the reply it holds. */
  lemma ShutdownCountsTheOthers(cfg: Config, requests: seq<Request>, s: State, i: nat)
    requires ValidConfig(cfg) && Reachable(cfg, requests, s)
    requires i < |s.offices| && s.offices[i].pc == Handle(CountActive)
    ensures
      var next := OfficeStep(cfg, s, i).offices[i];
      && next.pc == Handle(Send) && next.ticket == s.offices[i].ticket && next.req == s.offices[i].req
      && next.reply.body.ActiveBody? && 0 <= next.reply.body.offices < cfg.offices
      && next.reply.body.offices == Sum(Actives, cfg.fused, s.offices[..i] + s.offices[i + 1..])
  {
    ReachableInv(cfg, requests, s);
    OthersCounted(cfg, s, i);
    CounterReplies(cfg, s.offices[i], s);
  }

  lemma CounterReplies(cfg: Config, office: Office, s: State)
    requires office.pc == Handle(CountActive)
    ensures
      var next := NextOffice(cfg, office, s);
      && next.pc == Handle(Send) && next.ticket == office.ticket && next.req == office.req
      && next.reply.body == ActiveBody(Wrap(s.tally.active - 1))
  {
  }

  lemma OthersCounted(cfg: Config, s: State, i: nat)
    requires ActiveLaw(cfg, s) && |s.offices| == cfg.offices < TWO_TO_THE_32
    requires i < |s.offices| && s.offices[i].pc == Handle(CountActive)
    ensures
      var others := Sum(Actives, cfg.fused, s.offices[..i] + s.offices[i + 1..]);
      others == s.tally.active - 1 == Wrap(s.tally.active - 1) && 0 <= others < cfg.offices
  {
    SumWithout(Actives, cfg.fused, s.offices, i);
    SumFull(Actives, cfg.fused, s.offices);
  }

  /** The office count was read in some state on the way, by the office that handled the request. */
  ghost predicate Counted(cfg: Config, requests: seq<Request>, t: State, ticket: nat, body: Body) {
    exists s, i :: Reachable(cfg, requests, s) && Leads(cfg, s, t) && CountsOthers(cfg, s, i, ticket, body)
  }

  /** An accepted shutdown whose reply is ready. */
  predicate ShutdownDone(req: Request, reply: Reply) {
    req.op.Shutdown? && reply.code == RC_OK
  }

  ghost predicate RepliesCounted(cfg: Config, requests: seq<Request>, t: State) {
    forall j ::
      0 <= j < |t.offices| && t.offices[j].pc == Handle(Send) && ShutdownDone(t.offices[j].req, t.offices[j].reply)
      ==> Counted(cfg, requests, t, t.offices[j].ticket, t.offices[j].reply.body)
  }

  ghost predicate AnswersCounted(cfg: Config, requests: seq<Request>, t: State) {
    forall a :: 0 <= a < |t.vault.answers| && t.vault.answers[a].ticket < |t.hall.popped|
      && ShutdownDone(t.hall.popped[t.vault.answers[a].ticket], t.vault.answers[a].reply)
      ==> Counted(cfg, requests, t, t.vault.answers[a].ticket, t.vault.answers[a].reply.body)
  }

  lemma CountedStays(cfg: Config, requests: seq<Request>, t: State, actor: Actor, ticket: nat, body: Body)
    requires Enabled(t, actor) && Counted(cfg, requests, t, ticket, body)
    ensures Counted(cfg, requests, Step(cfg, t, actor), ticket, body)
  {
    var s, i :| Reachable(cfg, requests, s) && Leads(cfg, s, t) && CountsOthers(cfg, s, i, ticket, body);
    LeadsOn(cfg, s, t, actor);
  }

  lemma CountedNow(cfg: Config, requests: seq<Request>, s: State, i: nat)
    requires ValidConfig(cfg) && Reachable(cfg, requests, s) && Enabled(s, OfficeActor(i))
    requires s.offices[i].pc == Handle(CountActive)
    ensures
      var t := OfficeStep(cfg, s, i);
      Counted(cfg, requests, t, t.offices[i].ticket, t.offices[i].reply.body)
  {
    var t := OfficeStep(cfg, s, i);
    ShutdownCountsTheOthers(cfg, requests, s, i);
    LeadsToItself(cfg, s);
    LeadsOn(cfg, s, s, OfficeActor(i));
    assert CountsOthers(cfg, s, i, t.offices[i].ticket, t.offices[i].reply.body);
  }

  /** An office comes to an accepted shutdown's reply only from the counter. */
  lemma OnlyCountersFinish(cfg: Config, office: Office, s: State, books: Accounts)
    requires Facts(cfg, office, s.vault.accounts, books)
    requires
      var next := NextOffice(cfg, office, s);
      next.pc == Handle(Send) && ShutdownDone(next.req, next.reply)
    ensures office.pc == Handle(CountActive)
  {
  }

  lemma StepKeepsReplies(cfg: Config, requests: seq<Request>, s: State, i: nat)
    requires ValidConfig(cfg) && Reachable(cfg, requests, s) && Enabled(s, OfficeActor(i))
    requires RepliesCounted(cfg, requests, s)
    ensures RepliesCounted(cfg, requests, OfficeStep(cfg, s, i))
  {
    var t := OfficeStep(cfg, s, i);
    forall j | 0 <= j < |t.offices| && t.offices[j].pc == Handle(Send)
      && ShutdownDone(t.offices[j].req, t.offices[j].reply)
      ensures Counted(cfg, requests, t, t.offices[j].ticket, t.offices[j].reply.body)
    {
      if j == i {
        ReachableInv(cfg, requests, s);
        OnlyCountersFinish(cfg, s.offices[i], s, Replay(cfg, s.vault.log).accounts);
        CountedNow(cfg, requests, s, i);
      } else {
        CountedStays(cfg, requests, s, OfficeActor(i), t.offices[j].ticket, t.offices[j].reply.body);
      }
    }
  }

  lemma StepKeepsAnswers(cfg: Config, requests: seq<Request>, s: State, i: nat)
    requires Reachable(cfg, requests, s) && Enabled(s, OfficeActor(i))
    requires RepliesCounted(cfg, requests, s) && AnswersCounted(cfg, requests, s)
    ensures AnswersCounted(cfg, requests, OfficeStep(cfg, s, i))
  {
    var t := OfficeStep(cfg, s, i);
    ReachableInv(cfg, requests, s);
    forall a | 0 <= a < |t.vault.answers| && t.vault.answers[a].ticket < |t.hall.popped|
      && ShutdownDone(t.hall.popped[t.vault.answers[a].ticket], t.vault.answers[a].reply)
      ensures Counted(cfg, requests, t, t.vault.answers[a].ticket, t.vault.answers[a].reply.body)
    {
      AnswersWereHeld(cfg, s, i, a);
      CountedStays(cfg, requests, s, OfficeActor(i), t.vault.answers[a].ticket, t.vault.answers[a].reply.body);
    }
  }

  /** An answer is an earlier one, or the reply that its office was about to send. */
  lemma AnswersWereHeld(cfg: Config, s: State, i: nat, a: nat)
    requires CarriedInv(cfg, s) && AnswersInv(s) && i < |s.offices| && a < |OfficeStep(cfg, s, i).vault.answers|
    ensures
      var t, office := OfficeStep(cfg, s, i), s.offices[i];
      var answer := t.vault.answers[a];
      && answer.ticket < |s.hall.popped| && t.hall.popped[answer.ticket] == s.hall.popped[answer.ticket]
      && if a < |s.vault.answers| then answer == s.vault.answers[a]
         else office.pc == Handle(Send) && answer == Answer(office.ticket, office.reply)
              && s.hall.popped[answer.ticket] == office.req
  {
  }

  lemma OthersKeepCounts(cfg: Config, requests: seq<Request>, s: State, actor: Actor)
    requires Enabled(s, actor) && !actor.OfficeActor?
    requires RepliesCounted(cfg, requests, s) && AnswersCounted(cfg, requests, s)
    ensures RepliesCounted(cfg, requests, Step(cfg, s, actor)) && AnswersCounted(cfg, requests, Step(cfg, s, actor))
  {
    var t := Step(cfg, s, actor);
    forall ticket: nat, body | Counted(cfg, requests, s, ticket, body) ensures Counted(cfg, requests, t, ticket, body) {
      CountedStays(cfg, requests, s, actor, ticket, body);
    }
  }

  lemma {:induction false} RunKeepsCounts(cfg: Config, requests: seq<Request>, s: State, schedule: seq<Actor>, t: State)
    requires ValidConfig(cfg) && Reachable(cfg, requests, s) && Runs(cfg, s, schedule, t)
    requires RepliesCounted(cfg, requests, s) && AnswersCounted(cfg, requests, s)
    ensures RepliesCounted(cfg, requests, t) && AnswersCounted(cfg, requests, t)
    decreases |schedule|
  {
    if schedule != [] {
      match schedule[0] {
        case OfficeActor(i) =>
          StepKeepsReplies(cfg, requests, s, i);
          StepKeepsAnswers(cfg, requests, s, i);
        case _ =>
          OthersKeepCounts(cfg, requests, s, schedule[0]);
      }
      StaysReachable(cfg, requests, s, schedule[0]);
      RunKeepsCounts(cfg, requests, Step(cfg, s, schedule[0]), schedule[1..], t);
    }
  }

  /**
   Along every run each answer to an accepted shutdown carries the number of other offices that were counted
   in when its office read the counter, in a state between start-up and now.
   */
  lemma ShutdownAnswersCount(cfg: Config, requests: seq<Request>, t: State, a: nat)
    requires ValidConfig(cfg) && Reachable(cfg, requests, t) && a < |t.vault.answers|
    requires t.vault.answers[a].ticket < |t.hall.popped| && t.hall.popped[t.vault.answers[a].ticket].op.Shutdown?
    requires t.vault.answers[a].reply.code == RC_OK
    ensures
      var answer := t.vault.answers[a];
      && answer.reply.body.ActiveBody? && 0 <= answer.reply.body.offices < cfg.offices
      && exists s, i ::
           && Reachable(cfg, requests, s) && Leads(cfg, s, t) && 0 <= i < |s.offices|
           && s.offices[i].pc == Handle(CountActive) && s.offices[i].ticket == answer.ticket
           && answer.reply.body.offices == Sum(Actives, cfg.fused, s.offices[..i] + s.offices[i + 1..])
  {
    var schedule :| Runs(cfg, Initial(cfg, requests), schedule, t);
    assert Runs(cfg, Initial(cfg, requests), [], Initial(cfg, requests));
    RunKeepsCounts(cfg, requests, Initial(cfg, requests), schedule, t);
    var answer := t.vault.answers[a];
    var s, i :|
      Reachable(cfg, requests, s) && Leads(cfg, s, t) && CountsOthers(cfg, s, i, answer.ticket, answer.reply.body);
    ReachableInv(cfg, requests, s);
    OthersCounted(cfg, s, i);
  }

  // ----- After the answer to a shutdown -----

  /** The request FIFO is closed to writers for good. */
  predicate Closed(s: State) {
    Serving(s.main) && !s.pipe.writable
  }

  /** The user has not sent its request. */
  predicate Unsent(user: User) {
    user.Idle? || (user.Gone? && !user.sent)
  }

  /** Nobody that had not sent its request yet has sent it since. */
  predicate NothingNew(s: State, t: State) {
    |t.users| == |s.users| && forall u :: 0 <= u < |s.users| && Unsent(s.users[u]) ==> Unsent(t.users[u])
  }

  lemma StepKeepsClosed(cfg: Config, s: State, actor: Actor)
    requires Enabled(s, actor) && Closed(s)
    ensures var t := Step(cfg, s, actor); Closed(t) && NothingNew(s, t)
  {
    match actor
    case MainActor =>
      assert MainStep(cfg, s).users == s.users;
    case OfficeActor(i) =>
      assert OfficeStep(cfg, s, i).users == s.users;
    case UserActor(v) =>
  }

  lemma {:induction false} RunKeepsClosed(cfg: Config, s: State, schedule: seq<Actor>, t: State)
    requires Runs(cfg, s, schedule, t) && Closed(s)
    ensures Closed(t) && NothingNew(s, t)
    decreases |schedule|
  {
    if schedule != [] {
      StepKeepsClosed(cfg, s, schedule[0]);
      RunKeepsClosed(cfg, Step(cfg, s, schedule[0]), schedule[1..], t);
    }
  }

  lemma CountersAreClosed(s: State, i: nat)
    requires LifeInv(s) && i < |s.offices| && s.offices[i].pc == Handle(CountActive)
    ensures Closed(s)
  {
  }

  lemma AnsweredMeansClosed(cfg: Config, requests: seq<Request>, s: State, a: nat)
    requires ValidConfig(cfg) && Reachable(cfg, requests, s)
    requires a < |s.vault.answers| && s.vault.answers[a].ticket < |s.hall.popped|
    requires ShutdownDone(s.hall.popped[s.vault.answers[a].ticket], s.vault.answers[a].reply)
    ensures Closed(s)
  {
    ShutdownAnswersCount(cfg, requests, s, a);
    var m, i :|
      && Reachable(cfg, requests, m) && Leads(cfg, m, s) && 0 <= i < |m.offices|
      && m.offices[i].pc == Handle(CountActive);
    ReachableInv(cfg, requests, m);
    CountersAreClosed(m, i);
    var between :| Runs(cfg, m, between, s);
    RunKeepsClosed(cfg, m, between, s);
  }

  /**
   Once an accepted shutdown is answered, a user that has not opened the request FIFO yet never sends its
   request, whatever happens next.
   */
  lemma LateUsersAreTurnedAway(cfg: Config, requests: seq<Request>, s: State, a: nat, schedule: seq<Actor>, t: State,
                               u: nat)
    requires ValidConfig(cfg) && Reachable(cfg, requests, s) && Runs(cfg, s, schedule, t)
    requires a < |s.vault.answers| && s.vault.answers[a].ticket < |s.hall.popped|
    requires s.hall.popped[s.vault.answers[a].ticket].op.Shutdown? && s.vault.answers[a].reply.code == RC_OK
    requires u < |s.users| && s.users[u].Idle?
    ensures u < |t.users| && (t.users[u].Idle? || (t.users[u].Gone? && !t.users[u].sent))
  {
    AnsweredMeansClosed(cfg, requests, s, a);
    RunKeepsClosed(cfg, s, schedule, t);
    assert Unsent(s.users[u]);
  }
}
