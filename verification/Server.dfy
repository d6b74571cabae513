/**
 The bank server as a state machine.  Every lock, unlock, semaphore operation, read and write of
 shared data is one step of one actor: an office thread, the main thread (the producer) or a user
 process.  The number of offices, the user processes and their requests are arbitrary.
 */
module Server {
  import opened Bank

  // ----- Parameters of a run -----

  /**
   `sha` stands for the hash program and `salt(t)` for the salt drawn while request number `t` is
   handled; both are arbitrary.  `fused` selects the variant of the office routine that pops in the
   critical section of its emptiness test; the code as written is `fused == false`.
   */
  datatype Config = Config(
    offices: nat, fused: bool,
    sha: string -> string, salt: nat -> string,
    adminPassword: string, adminSalt: string)

  predicate ValidConfig(cfg: Config) {
    1 <= cfg.offices <= MAX_BANK_OFFICES
  }

  function AdminAccount(cfg: Config): Account {
    Account(cfg.adminSalt, cfg.sha(cfg.adminPassword + cfg.adminSalt), 0)
  }

  // ----- Threads -----

  datatype Thread = MainThread | OfficeThread(index: nat)

  datatype Mutex = Free | Taken(owner: Thread)

  /** Where an office is inside `handleRequest`. */
  datatype Handling =
    | Exists | Login
    | CreateLock | CreateTest | CreateWrite | CreateUnlock
    | BalanceLock | BalanceRead | BalanceUnlock
    | TransferFirst | TransferSecond | TransferTest | Credit | Debit | TransferRead
    | TransferUnlockFirst | TransferUnlockSecond
    | SetShutdown | ChangeMode | CloseDummy | CountActive
    | Send

  /** Where an office is in its service routine. */
  datatype Pc =
    | Unborn
    | WaitFull | LockTest | Test | UnlockQuit | Exited | UnlockTest
    | LockUp | CountUp | UnlockUp
    | LockPop | Pop | UnlockPop | PostEmpty
    | Handle(at: Handling)
    | LockDown | CountDown | UnlockDown

  /** `ticket` is the position of the office's request in the history of pops. */
  datatype Office = Office(pc: Pc, ticket: nat, req: Request, reply: Reply)

  datatype MainPc =
    | InitSync | Launch(next: nat) | InitAccounts
    | AdminLock | AdminTest | AdminWrite | AdminUnlock
    | CreateQueue | MakeFifo | OpenReader | OpenDummy
    | Read | WaitEmpty(hand: Request) | LockPush(hand: Request) | Push(hand: Request) | UnlockPush | PostFull
    | CloseFifo | Wake(next: nat) | Join(next: nat) | Done | Aborted

  /**
   A user process: about to open the request FIFO, about to write, holding the FIFO open after its write,
   finished.  It has sent its request unless the FIFO was missing or closed to writers when it came.
   It may leave at any time after its write; `Users` tells those that have their reply from those that
   give up.
   */
  datatype User = Idle(req: Request) | Open(req: Request) | Written(req: Request) | Gone(req: Request, sent: bool)

  // ----- Shared data -----

  /** The request queue, its mutex, the two semaphores, and the histories of pushes, pops and popping offices. */
  datatype Hall = Hall(
    queue: seq<Request>, ready: bool, mutex: Mutex, empty: nat, full: nat,
    pushed: seq<Request>, popped: seq<Request>, poppers: seq<nat>)

  /** The active-office counter and its mutex. */
  datatype Tally = Tally(mutex: Mutex, active: int)

  datatype Entry = Entry(ticket: nat, req: Request, reply: Reply)

  datatype Answer = Answer(ticket: nat, reply: Reply)

  /**
   The accounts, their mutexes (`holder` maps the locked ones to their holders), the shutdown flag,
   and three histories: mutexes left locked by a refused creation, commits in order, replies in order.
   */
  datatype Vault = Vault(
    accounts: Accounts, ready: bool, holder: map<int, Thread>, shutdown: bool,
    leaked: set<int>, log: seq<Entry>, answers: seq<Answer>)

  /** The request FIFO, with two histories: the requests written to it, and the users that wrote them. */
  datatype Pipe = Pipe(
    made: bool, writable: bool, reader: bool, dummy: bool, data: seq<Request>,
    written: seq<Request>, writers: seq<nat>)

  datatype State = State(
    main: MainPc, offices: seq<Office>, hall: Hall, tally: Tally, vault: Vault, pipe: Pipe,
    users: seq<User>, crashed: bool)

  function NoRequest(): Request {
    Request(0, 0, "", 0, CheckBalance)
  }

  function NewOffice(): Office {
    Office(Unborn, 0, NoRequest(), Reply(0, RC_OTHER, NoBody))
  }

  function Initial(cfg: Config, requests: seq<Request>): State {
    State(InitSync,
          seq(cfg.offices, _ => NewOffice()),
          Hall([], false, Free, 0, 0, [], [], []),
          Tally(Free, 0),
          Vault(map[], false, map[], false, {}, [], []),
          Pipe(false, false, false, false, [], [], []),
          seq(|requests|, k requires 0 <= k < |requests| => Idle(requests[k])),
          false)
  }

  // ----- handleRequest -----

  function FirstLock(req: Request): uint32 {
    if Target(req) > req.account then Target(req) else req.account
  }

  function SecondLock(req: Request): uint32 {
    if Target(req) > req.account then req.account else Target(req)
  }

  /** The account mutex an office waits for, if its next step is a lock. */
  function Awaits(office: Office): Option<int> {
    match office.pc
    case Handle(CreateLock) => Some(Target(office.req))
    case Handle(BalanceLock) => Some(office.req.account)
    case Handle(TransferFirst) => Some(FirstLock(office.req))
    case Handle(TransferSecond) => Some(SecondLock(office.req))
    case _ => None
  }

  function Opening(op: Operation): Handling {
    match op
    case CreateAccount(_, _, _) => CreateLock
    case CheckBalance => BalanceLock
    case Transfer(_, _) => TransferFirst
    case Shutdown => SetShutdown
  }

  function Goto(office: Office, at: Handling): Office {
    office.(pc := Handle(at))
  }

  function Replying(office: Office, at: Handling, reply: Reply): Office {
    office.(pc := Handle(at), reply := reply)
  }

  /** The office after one step inside `handleRequest`. */
  function Handled(cfg: Config, office: Office, accounts: Accounts, active: int): Office
    requires office.pc.Handle?
  {
    var req := office.req;
    match office.pc.at
    case Exists =>
      if req.account in accounts then Goto(office, Login)
      else Replying(office, Send, Refusal(req, RC_LOGIN_FAIL))
    case Login =>
      var verdict := HeaderVerdict(cfg.sha, accounts, req);
      if verdict == RC_OK then Goto(office, Opening(req.op))
      else Replying(office, Send, Refusal(req, verdict))

    case CreateLock => Goto(office, CreateTest)
    case CreateTest =>
      if Target(req) in accounts then Replying(office, Send, Refusal(req, RC_ID_IN_USE))
      else Goto(office, CreateWrite)
    case CreateWrite => Replying(office, CreateUnlock, Refusal(req, RC_OK))
    case CreateUnlock => Goto(office, Send)

    case BalanceLock => Goto(office, BalanceRead)
    case BalanceRead =>
      Replying(office, BalanceUnlock, Reply(req.account, RC_OK, BalanceBody(BalanceOf(accounts, req.account))))
    case BalanceUnlock => Goto(office, Send)

    case TransferFirst => Goto(office, TransferSecond)
    case TransferSecond => Goto(office, TransferTest)
    case TransferTest =>
      var code := TransferVerdict(accounts, req.account, Target(req), Amount(req));
      Replying(office, if code == RC_OK then Credit else TransferRead, Refusal(req, code))
    case Credit => Goto(office, Debit)
    case Debit => Goto(office, TransferRead)
    case TransferRead =>
      Replying(office, TransferUnlockFirst,
               Reply(req.account, office.reply.code, BalanceBody(BalanceOf(accounts, req.account))))
    case TransferUnlockFirst => Goto(office, TransferUnlockSecond)
    case TransferUnlockSecond => Goto(office, Send)

    case SetShutdown => Replying(office, ChangeMode, Reply(req.account, RC_OK, ActiveBody(0)))
    case ChangeMode => Goto(office, CloseDummy)
    case CloseDummy => Goto(office, CountActive)
    case CountActive => Replying(office, Send, office.reply.(body := ActiveBody(Wrap(active - 1))))

    case Send => office.(pc := LockDown)
  }

  /** The writes to the account table: a new slot, a credit, a debit. */
  function NextAccounts(cfg: Config, office: Office, accounts: Accounts): Accounts {
    var req := office.req;
    match office.pc
    case Handle(CreateWrite) => accounts[Target(req) := NewAccount(cfg.sha, cfg.salt(office.ticket), req)]
    case Handle(Credit) => Credited(accounts, Target(req), Amount(req))
    case Handle(Debit) => Debited(accounts, req.account, Amount(req))
    case _ => accounts
  }

  /** The account mutex that the next step unlocks. */
  function Unlocks(office: Office): Option<int> {
    match office.pc
    case Handle(CreateUnlock) => Some(Target(office.req))
    case Handle(BalanceUnlock) => Some(office.req.account)
    case Handle(TransferUnlockFirst) => Some(FirstLock(office.req))
    case Handle(TransferUnlockSecond) => Some(SecondLock(office.req))
    case _ => None
  }

  function NextHolder(i: nat, office: Office, holder: map<int, Thread>): map<int, Thread> {
    if Awaits(office).Some? then holder[Awaits(office).value := OfficeThread(i)]
    else if Unlocks(office).Some? then holder - {Unlocks(office).value}
    else holder
  }

  /** The return taken with the mutex still locked. */
  function NextLeaked(office: Office, accounts: Accounts, leaked: set<int>): set<int> {
    if office.pc == Handle(CreateTest) && Target(office.req) in accounts then leaked + {Target(office.req)}
    else leaked
  }

  /** The steps at which a request takes effect (or is refused for good): its commit points. */
  predicate Commits(cfg: Config, office: Office, accounts: Accounts) {
    match office.pc
    case Handle(Exists) => office.req.account !in accounts
    case Handle(Login) => HeaderVerdict(cfg.sha, accounts, office.req) != RC_OK
    case Handle(CreateTest) => Target(office.req) in accounts
    case Handle(CreateWrite) => true
    case Handle(BalanceRead) => true
    case Handle(TransferRead) => true
    case Handle(SetShutdown) => true
    case _ => false
  }

  function NextLog(cfg: Config, office: Office, next: Office, accounts: Accounts, log: seq<Entry>): seq<Entry> {
    if Commits(cfg, office, accounts) then log + [Entry(office.ticket, office.req, next.reply)] else log
  }

  function NextAnswers(office: Office, answers: seq<Answer>): seq<Answer> {
    if office.pc == Handle(Send) then answers + [Answer(office.ticket, office.reply)] else answers
  }

  function NextVault(cfg: Config, i: nat, office: Office, next: Office, vault: Vault): Vault {
    Vault(NextAccounts(cfg, office, vault.accounts), vault.ready, NextHolder(i, office, vault.holder),
          vault.shutdown || office.pc == Handle(SetShutdown), NextLeaked(office, vault.accounts, vault.leaked),
          NextLog(cfg, office, next, vault.accounts, vault.log), NextAnswers(office, vault.answers))
  }

  /** What the two FIFO steps of a shutdown do to the request FIFO. */
  function NextPipe(pc: Pc, pipe: Pipe): Pipe {
    match pc
    case Handle(ChangeMode) => pipe.(writable := false)
    case Handle(CloseDummy) => pipe.(dummy := false)
    case _ => pipe
  }

  // ----- The office service routine -----

  predicate OfficeEnabled(s: State, i: nat)
    requires i < |s.offices|
  {
    var office := s.offices[i];
    match office.pc
    case Unborn => false
    case Exited => false
    case WaitFull => s.hall.full > 0
    case LockTest => s.hall.mutex.Free?
    case LockPop => s.hall.mutex.Free?
    case LockUp => s.tally.mutex.Free?
    case LockDown => s.tally.mutex.Free?
    case Handle(_) => Awaits(office).Some? ==> Awaits(office).value !in s.vault.holder
    case _ => true
  }

  /** The office after its next step. */
  function NextOffice(cfg: Config, office: Office, s: State): Office {
    match office.pc
    case Unborn => office
    case WaitFull => office.(pc := LockTest)
    case LockTest => office.(pc := Test)
    case Test =>
      if s.vault.shutdown && s.hall.queue == [] then office.(pc := UnlockQuit)
      else office.(pc := if cfg.fused then Pop else UnlockTest)
    case UnlockQuit => office.(pc := Exited)
    case Exited => office
    case UnlockTest => office.(pc := LockUp)
    case LockUp => office.(pc := CountUp)
    case CountUp => office.(pc := UnlockUp)
    case UnlockUp => office.(pc := if cfg.fused then PostEmpty else LockPop)
    case LockPop => office.(pc := Pop)
    case Pop =>
      if s.hall.queue == [] then office
      else office.(pc := UnlockPop, ticket := |s.hall.popped|, req := s.hall.queue[0])
    case UnlockPop => office.(pc := if cfg.fused then LockUp else PostEmpty)
    case PostEmpty => office.(pc := Handle(Exists))
    case Handle(_) => Handled(cfg, office, s.vault.accounts, s.tally.active)
    case LockDown => office.(pc := CountDown)
    case CountDown => office.(pc := UnlockDown)
    case UnlockDown => office.(pc := WaitFull)
  }

  /** The queue, its mutex and the two semaphores. */
  function NextHall(i: nat, pc: Pc, hall: Hall): Hall {
    match pc
    case WaitFull => hall.(full := if hall.full > 0 then hall.full - 1 else 0)
    case LockTest | LockPop => hall.(mutex := Taken(OfficeThread(i)))
    case UnlockQuit | UnlockTest | UnlockPop => hall.(mutex := Free)
    case Pop =>
      if hall.queue == [] then hall
      else hall.(queue := hall.queue[1..], popped := hall.popped + [hall.queue[0]], poppers := hall.poppers + [i])
    case PostEmpty => hall.(empty := hall.empty + 1)
    case _ => hall
  }

  /** The active-office counter and its mutex. */
  function NextTally(i: nat, pc: Pc, tally: Tally): Tally {
    match pc
    case LockUp | LockDown => tally.(mutex := Taken(OfficeThread(i)))
    case CountUp => tally.(active := tally.active + 1)
    case CountDown => tally.(active := tally.active - 1)
    case UnlockUp | UnlockDown => tally.(mutex := Free)
    case _ => tally
  }

  function OfficeStep(cfg: Config, s: State, i: nat): State
    requires i < |s.offices|
  {
    var office := s.offices[i];
    var next := NextOffice(cfg, office, s);
    State(s.main, s.offices[i := next], NextHall(i, office.pc, s.hall), NextTally(i, office.pc, s.tally),
          NextVault(cfg, i, office, next, s.vault), NextPipe(office.pc, s.pipe), s.users,
          s.crashed || (office.pc == Pop && s.hall.queue == []))
  }

  // ----- The main thread -----

  predicate HasWriter(user: User) {
    user.Open? || user.Written?
  }

  predicate NoWriters(s: State) {
    !s.pipe.dummy && forall u :: 0 <= u < |s.users| ==> !HasWriter(s.users[u])
  }

  predicate MainEnabled(s: State) {
    match s.main
    case AdminLock => ADMIN_ACCOUNT_ID !in s.vault.holder
    case OpenReader => exists u :: 0 <= u < |s.users| && s.users[u].Open?
    case Read => s.pipe.data != [] || NoWriters(s)
    case WaitEmpty(_) => s.hall.empty > 0
    case LockPush(_) => s.hall.mutex.Free?
    case Join(k) => k < |s.offices| ==> s.offices[k].pc == Exited
    case Done => false
    case Aborted => false
    case _ => true
  }

  function NextMain(cfg: Config, s: State): MainPc {
    match s.main
    case InitSync => Launch(0)
    case Launch(k) => if k < |s.offices| then Launch(k + 1) else InitAccounts
    case InitAccounts => AdminLock
    case AdminLock => AdminTest
    case AdminTest => if ADMIN_ACCOUNT_ID in s.vault.accounts then Aborted else AdminWrite
    case AdminWrite => AdminUnlock
    case AdminUnlock => CreateQueue
    case CreateQueue => MakeFifo
    case MakeFifo => OpenReader
    case OpenReader => OpenDummy
    case OpenDummy => Read
    case Read => if s.pipe.data == [] then CloseFifo else WaitEmpty(s.pipe.data[0])
    case WaitEmpty(req) => LockPush(req)
    case LockPush(req) => Push(req)
    case Push(_) => UnlockPush
    case UnlockPush => PostFull
    case PostFull => Read
    case CloseFifo => Wake(0)
    case Wake(k) => if k < cfg.offices then Wake(k + 1) else Join(0)
    case Join(k) => if k < |s.offices| then Join(k + 1) else Done
    case Done => Done
    case Aborted => Aborted
  }

  function MainHall(cfg: Config, main: MainPc, hall: Hall): Hall {
    match main
    case InitSync => hall.(empty := cfg.offices, full := 0)
    case CreateQueue => hall.(queue := [], ready := true)
    case WaitEmpty(_) => hall.(empty := if hall.empty > 0 then hall.empty - 1 else 0)
    case LockPush(_) => hall.(mutex := Taken(MainThread))
    case Push(req) => hall.(queue := hall.queue + [req], pushed := hall.pushed + [req])
    case UnlockPush => hall.(mutex := Free)
    case PostFull => hall.(full := hall.full + 1)
    case Wake(k) => if k < cfg.offices then hall.(full := hall.full + 1) else hall
    case _ => hall
  }

  function MainVault(cfg: Config, main: MainPc, vault: Vault): Vault {
    match main
    case InitAccounts => vault.(accounts := map[], ready := true)
    case AdminLock => vault.(holder := vault.holder[ADMIN_ACCOUNT_ID := MainThread])
    case AdminWrite => vault.(accounts := vault.accounts[ADMIN_ACCOUNT_ID := AdminAccount(cfg)])
    case AdminUnlock => vault.(holder := vault.holder - {ADMIN_ACCOUNT_ID})
    case _ => vault
  }

  function MainPipe(main: MainPc, pipe: Pipe): Pipe {
    match main
    case MakeFifo => pipe.(made := true, writable := true)
    case OpenReader => pipe.(reader := true)
    case OpenDummy => pipe.(dummy := true)
    case Read => if pipe.data == [] then pipe else pipe.(data := pipe.data[1..])
    case CloseFifo => pipe.(reader := false, made := false)
    case _ => pipe
  }

  function MainOffices(main: MainPc, offices: seq<Office>): seq<Office> {
    if main.Launch? && main.next < |offices| then offices[main.next := offices[main.next].(pc := WaitFull)]
    else offices
  }

  function MainStep(cfg: Config, s: State): State {
    State(NextMain(cfg, s), MainOffices(s.main, s.offices), MainHall(cfg, s.main, s.hall), s.tally,
          MainVault(cfg, s.main, s.vault), MainPipe(s.main, s.pipe), s.users, s.crashed)
  }

  // ----- User processes -----

  predicate UserEnabled(s: State, u: nat)
    requires u < |s.users|
  {
    match s.users[u]
    case Idle(_) => true
    case Open(_) => s.pipe.reader
    case Written(_) => true
    case Gone(_, _) => false
  }

  function UserStep(s: State, u: nat): State
    requires u < |s.users|
  {
    match s.users[u]
    case Idle(req) => s.(users := s.users[u := if s.pipe.made && s.pipe.writable then Open(req) else Gone(req, false)])
    case Open(req) =>
      s.(users := s.users[u := Written(req)],
         pipe := s.pipe.(data := s.pipe.data + [req],
                         written := s.pipe.written + [req], writers := s.pipe.writers + [u]))
    case Written(req) => s.(users := s.users[u := Gone(req, true)])
    case Gone(_, _) => s
  }

  // ----- Runs -----

  datatype Actor = MainActor | OfficeActor(i: nat) | UserActor(u: nat)

  /** A popped empty queue dereferences a null pointer: the process is gone and nothing is enabled. */
  predicate Enabled(s: State, actor: Actor) {
    !s.crashed &&
    match actor
    case MainActor => MainEnabled(s)
    case OfficeActor(i) => i < |s.offices| && OfficeEnabled(s, i)
    case UserActor(u) => u < |s.users| && UserEnabled(s, u)
  }

  function Step(cfg: Config, s: State, actor: Actor): State
    requires Enabled(s, actor)
  {
    match actor
    case MainActor => MainStep(cfg, s)
    case OfficeActor(i) => OfficeStep(cfg, s, i)
    case UserActor(u) => UserStep(s, u)
  }

  /** The schedule is possible from `s` and ends in `t`. */
  predicate Runs(cfg: Config, s: State, schedule: seq<Actor>, t: State)
    decreases |schedule|
  {
    if schedule == [] then s == t
    else Enabled(s, schedule[0]) && Runs(cfg, Step(cfg, s, schedule[0]), schedule[1..], t)
  }
}
