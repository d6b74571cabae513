/**
 The vocabulary shared by every layer (requests, replies, accounts) and the meaning of a
 request when it runs alone: `Execute`.  The concurrent server, the in-place account store
 and the client are all related to this one definition.
 */
module Bank {

  const MAX_BANK_ACCOUNTS := 4096
  const MAX_BANK_OFFICES := 99
  const ADMIN_ACCOUNT_ID := 0
  const MIN_BALANCE := 1
  const MAX_BALANCE := 1_000_000_000
  const MIN_PASSWORD_LEN := 8
  const MAX_PASSWORD_LEN := 20
  const TWO_TO_THE_32 := 0x1_0000_0000

  type uint32 = x: int | 0 <= x < TWO_TO_THE_32

  // Identifiers that index the account array: what the client lets through.
  type AccountId = x: int | 0 <= x < MAX_BANK_ACCOUNTS

  /** Unsigned 32-bit arithmetic drops the carry. */
  function Wrap(x: int): uint32 {
    x % TWO_TO_THE_32
  }

  datatype Option<+T> = None | Some(value: T)

  datatype Operation =
    | CreateAccount(id: AccountId, newPassword: string, balance: uint32)
    | CheckBalance
    | Transfer(dest: AccountId, amount: uint32)
    | Shutdown

  datatype Request = Request(pid: int, account: uint32, password: string, delay: uint32, op: Operation)

  datatype ReturnCode =
    | RC_OK | RC_SRV_DOWN | RC_SRV_TIMEOUT | RC_USR_DOWN | RC_LOGIN_FAIL | RC_OP_NALLOW
    | RC_ID_IN_USE | RC_ID_NOT_FOUND | RC_SAME_ID | RC_NO_FUNDS | RC_TOO_HIGH | RC_OTHER

  datatype Body = NoBody | BalanceBody(balance: uint32) | ActiveBody(offices: uint32)

  datatype Reply = Reply(account: uint32, code: ReturnCode, body: Body)

  datatype Account = Account(salt: string, hash: string, balance: uint32)

  type Accounts = map<int, Account>

  datatype Ledger = Ledger(accounts: Accounts, shutdown: bool)

  datatype Outcome = Outcome(ledger: Ledger, reply: Reply)

  // ----- What a request refers to -----

  /** The account a request creates or pays into; the caller's own account otherwise. */
  function Target(req: Request): uint32 {
    match req.op
    case CreateAccount(id, _, _) => id
    case Transfer(dest, _) => dest
    case _ => req.account
  }

  function Amount(req: Request): uint32 {
    match req.op
    case CreateAccount(_, _, balance) => balance
    case Transfer(_, amount) => amount
    case _ => 0
  }

  function NewAccount(sha: string -> string, salt: string, req: Request): Account {
    var password := if req.op.CreateAccount? then req.op.newPassword else "";
    Account(salt, sha(password + salt), Amount(req))
  }

  // ----- Account table accessors -----

  function BalanceOf(accounts: Accounts, id: int): uint32 {
    if id in accounts then accounts[id].balance else 0
  }

  function SetBalance(accounts: Accounts, id: int, balance: uint32): Accounts {
    if id in accounts then accounts[id := accounts[id].(balance := balance)] else accounts
  }

  // ----- Verdicts -----

  predicate Allowed(req: Request) {
    match req.op
    case CreateAccount(_, _, _) => req.account == ADMIN_ACCOUNT_ID
    case CheckBalance => req.account != ADMIN_ACCOUNT_ID
    case Transfer(dest, _) => req.account != ADMIN_ACCOUNT_ID && dest != ADMIN_ACCOUNT_ID
    case Shutdown => req.account == ADMIN_ACCOUNT_ID
  }

  predicate PasswordIsCorrect(sha: string -> string, account: Account, password: string) {
    sha(password + account.salt) == account.hash
  }

  /** RC_OK when the header is accepted, the refusal otherwise. */
  function HeaderVerdict(sha: string -> string, accounts: Accounts, req: Request): ReturnCode {
    if req.account !in accounts then RC_LOGIN_FAIL
    else if !PasswordIsCorrect(sha, accounts[req.account], req.password) then RC_LOGIN_FAIL
    else if !Allowed(req) then RC_OP_NALLOW
    else RC_OK
  }

  function TransferVerdict(accounts: Accounts, source: int, dest: int, amount: uint32): ReturnCode {
    if dest !in accounts then RC_ID_NOT_FOUND
    else if BalanceOf(accounts, source) < amount then RC_NO_FUNDS
    else if Wrap(BalanceOf(accounts, dest) + amount) > MAX_BALANCE then RC_TOO_HIGH
    else RC_OK
  }

  // ----- A request running alone -----

  function Credited(accounts: Accounts, dest: int, amount: uint32): Accounts {
    SetBalance(accounts, dest, Wrap(BalanceOf(accounts, dest) + amount))
  }

  function Debited(accounts: Accounts, source: int, amount: uint32): Accounts {
    SetBalance(accounts, source, Wrap(BalanceOf(accounts, source) - amount))
  }

  function Refusal(req: Request, code: ReturnCode): Reply {
    Reply(req.account, code, NoBody)
  }

  /**
   The whole effect of one request, header check included.  The number of active offices in a
   shutdown reply depends on the other threads; it is masked to 0 here (see `Mask`).
   */
  function Execute(sha: string -> string, salt: string, ledger: Ledger, req: Request): Outcome {
    var verdict := HeaderVerdict(sha, ledger.accounts, req);
    if verdict != RC_OK then Outcome(ledger, Refusal(req, verdict))
    else
      match req.op
      case CreateAccount(id, _, _) =>
        if id in ledger.accounts then Outcome(ledger, Refusal(req, RC_ID_IN_USE))
        else Outcome(ledger.(accounts := ledger.accounts[id := NewAccount(sha, salt, req)]), Refusal(req, RC_OK))
      case CheckBalance =>
        Outcome(ledger, Reply(req.account, RC_OK, BalanceBody(BalanceOf(ledger.accounts, req.account))))
      case Transfer(dest, amount) =>
        var code := TransferVerdict(ledger.accounts, req.account, dest, amount);
        var accounts :=
          if code == RC_OK then Debited(Credited(ledger.accounts, dest, amount), req.account, amount)
          else ledger.accounts;
        Outcome(ledger.(accounts := accounts), Reply(req.account, code, BalanceBody(BalanceOf(accounts, req.account))))
      case Shutdown =>
        Outcome(ledger.(shutdown := true), Reply(req.account, RC_OK, ActiveBody(0)))
  }

  /** A reply without the office count that a shutdown reply carries. */
  function Mask(reply: Reply): Reply {
    if reply.body.ActiveBody? then reply.(body := ActiveBody(0)) else reply
  }

  // ----- Properties of a request running alone -----

  /** Accounts are only ever added, and neither the salt nor the hash of an account changes. */
  predicate Extends(before: Accounts, after: Accounts) {
    forall id :: id in before ==>
      id in after && after[id].salt == before[id].salt && after[id].hash == before[id].hash
  }

  lemma ExtendsTransitive(a: Accounts, b: Accounts, c: Accounts)
    requires Extends(a, b) && Extends(b, c)
    ensures Extends(a, c)
  {
  }

  /** A login that succeeded keeps succeeding, and so does the permission check. */
  lemma LoginIsStable(sha: string -> string, before: Accounts, after: Accounts, req: Request)
    requires Extends(before, after)
    requires req.account in before
    ensures HeaderVerdict(sha, after, req) == HeaderVerdict(sha, before, req)
  {
  }

  /** The sum of the balances of the accounts with identifiers below `bound`. */
  function Total(accounts: Accounts, bound: nat): int {
    if bound == 0 then 0 else Total(accounts, bound - 1) + BalanceOf(accounts, bound - 1)
  }

  lemma {:induction false} TotalUpdate(accounts: Accounts, id: int, account: Account, bound: nat)
    requires 0 <= id
    ensures Total(accounts[id := account], bound) ==
            Total(accounts, bound) + (if id < bound then account.balance - BalanceOf(accounts, id) else 0)
  {
    if bound > 0 {
      TotalUpdate(accounts, id, account, bound - 1);
    }
  }

  lemma TotalSetBalance(accounts: Accounts, id: int, balance: uint32, bound: nat)
    requires 0 <= id < bound && id in accounts
    ensures Total(SetBalance(accounts, id, balance), bound) == Total(accounts, bound) + balance - accounts[id].balance
  {
    TotalUpdate(accounts, id, accounts[id].(balance := balance), bound);
  }

  /** The 32-bit credit of an accepted transfer drops its carry; paying oneself undoes that. */
  predicate Wraps(accounts: Accounts, req: Request) {
    && req.op.Transfer? && req.account != req.op.dest
    && BalanceOf(accounts, req.op.dest) + req.op.amount >= TWO_TO_THE_32
  }

  lemma CreditTotal(accounts: Accounts, dest: int, amount: uint32)
    requires 0 <= dest < MAX_BANK_ACCOUNTS && dest in accounts
    ensures Total(Credited(accounts, dest, amount), MAX_BANK_ACCOUNTS)
         == Total(accounts, MAX_BANK_ACCOUNTS) + amount
            - (if BalanceOf(accounts, dest) + amount >= TWO_TO_THE_32 then TWO_TO_THE_32 else 0)
  {
    TotalSetBalance(accounts, dest, Wrap(BalanceOf(accounts, dest) + amount), MAX_BANK_ACCOUNTS);
  }

  lemma DebitTotal(accounts: Accounts, source: int, amount: uint32)
    requires 0 <= source < MAX_BANK_ACCOUNTS && source in accounts
    ensures Total(Debited(accounts, source, amount), MAX_BANK_ACCOUNTS)
         == Total(accounts, MAX_BANK_ACCOUNTS) - amount
            + (if BalanceOf(accounts, source) < amount then TWO_TO_THE_32 else 0)
  {
    TotalSetBalance(accounts, source, Wrap(BalanceOf(accounts, source) - amount), MAX_BANK_ACCOUNTS);
  }

  /** The two writes of a covered transfer: an account that pays itself gets back the carry that it lost. */
  lemma PaymentTotal(accounts: Accounts, source: int, dest: int, amount: uint32)
    requires 0 <= source < MAX_BANK_ACCOUNTS && 0 <= dest < MAX_BANK_ACCOUNTS && source in accounts && dest in accounts
    requires BalanceOf(accounts, source) >= amount
    ensures Total(Debited(Credited(accounts, dest, amount), source, amount), MAX_BANK_ACCOUNTS)
         == Total(accounts, MAX_BANK_ACCOUNTS)
            - (if source != dest && BalanceOf(accounts, dest) + amount >= TWO_TO_THE_32 then TWO_TO_THE_32 else 0)
  {
    CreditTotal(accounts, dest, amount);
    DebitTotal(Credited(accounts, dest, amount), source, amount);
  }

  /** An accepted transfer moves money, and loses 2^32 of it when its credit wraps. */
  lemma TransferTotal(sha: string -> string, salt: string, ledger: Ledger, req: Request)
    requires req.op.Transfer? && req.account < MAX_BANK_ACCOUNTS
    requires Execute(sha, salt, ledger, req).reply.code == RC_OK
    ensures Total(Execute(sha, salt, ledger, req).ledger.accounts, MAX_BANK_ACCOUNTS)
         == Total(ledger.accounts, MAX_BANK_ACCOUNTS) - (if Wraps(ledger.accounts, req) then TWO_TO_THE_32 else 0)
  {
    PaymentTotal(ledger.accounts, req.account, req.op.dest, req.op.amount);
  }

  /**
   Exactly when an accepted transfer keeps the bank's money: when the 32-bit credit did not wrap.
   The funds test bounds the amount by the payer's balance, the ceiling test does not bound the sum.
   */
  lemma TransferConservesIff(sha: string -> string, salt: string, ledger: Ledger, req: Request)
    requires req.op.Transfer? && req.account < MAX_BANK_ACCOUNTS
    requires Execute(sha, salt, ledger, req).reply.code == RC_OK
    ensures Total(Execute(sha, salt, ledger, req).ledger.accounts, MAX_BANK_ACCOUNTS)
         == Total(ledger.accounts, MAX_BANK_ACCOUNTS)
       <==> (req.account == req.op.dest || BalanceOf(ledger.accounts, req.op.dest) + req.op.amount < TWO_TO_THE_32)
  {
    TransferTotal(sha, salt, ledger, req);
  }

  /**
   When the payer of an accepted transfer is left with at least MIN_BALANCE: exactly when it pays less than
   it has, or when it had that much and pays itself.
   */
  lemma TransferKeepsMinimumIff(sha: string -> string, salt: string, ledger: Ledger, req: Request)
    requires req.op.Transfer? && Execute(sha, salt, ledger, req).reply.code == RC_OK
    ensures BalanceOf(Execute(sha, salt, ledger, req).ledger.accounts, req.account) >= MIN_BALANCE
       <==> if req.account == req.op.dest then BalanceOf(ledger.accounts, req.account) >= MIN_BALANCE
            else req.op.amount < BalanceOf(ledger.accounts, req.account)
  {
    var credited := Credited(ledger.accounts, req.op.dest, req.op.amount);
    assert req.account in credited;
  }
}
