/**
 The account store as the server keeps it: an array of slots updated in place, a mutex per slot, and
 the operations of one request over them.  Run alone, they do what `Bank.Execute` says.
 */
module Accounts {
  import opened Bank

  const ERROR_ACCOUNT_ID := MAX_BANK_ACCOUNTS + 1

  /** One element of the account array; an empty slot carries the error identifier. */
  datatype Slot = Slot(id: int, account: Account)

  /** Which account mutexes an accepted request locks. */
  predicate Needs(req: Request, id: int) {
    match req.op
    case CreateAccount(target, _, _) => id == target
    case CheckBalance => id == req.account
    case Transfer(dest, _) => id == dest || id == req.account
    case Shutdown => false
  }

  class Store {
    const sha: string -> string
    const slots: array<Slot>
    const locked: array<bool>
    var shutdown: bool

    ghost predicate Valid()
      reads this, slots
    {
      && slots.Length == MAX_BANK_ACCOUNTS && locked.Length == MAX_BANK_ACCOUNTS
      && forall k :: 0 <= k < slots.Length ==> slots[k].id == k || slots[k].id == ERROR_ACCOUNT_ID
    }

    /** The accounts that exist. */
    ghost function Table(): Accounts
      reads this, slots
    {
      map k: int | 0 <= k < slots.Length && slots[k].id != ERROR_ACCOUNT_ID :: slots[k].account
    }

    ghost function Books(): Ledger
      reads this, slots
    {
      Ledger(Table(), shutdown)
    }

    /** Static storage: every slot reads as account 0 until `Init` has run. */
    constructor (sha: string -> string)
      ensures fresh(slots) && fresh(locked) && this.sha == sha && !shutdown
      ensures slots.Length == MAX_BANK_ACCOUNTS && locked.Length == MAX_BANK_ACCOUNTS
      ensures forall k :: 0 <= k < slots.Length ==> slots[k].id == 0
    {
      this.sha := sha;
      slots := new Slot[MAX_BANK_ACCOUNTS](_ => Slot(0, Account("", "", 0)));
      locked := new bool[MAX_BANK_ACCOUNTS](_ => false);
      shutdown := false;
    }

    /** Empties every slot and resets every mutex. */
    method Init()
      requires slots.Length == MAX_BANK_ACCOUNTS && locked.Length == MAX_BANK_ACCOUNTS
      modifies slots, locked
      ensures Valid() && Table() == map[]
      ensures forall k :: 0 <= k < locked.Length ==> !locked[k]
    {
      for i := 0 to MAX_BANK_ACCOUNTS
        invariant forall k :: 0 <= k < i ==> slots[k].id == ERROR_ACCOUNT_ID && !locked[k]
      {
        locked[i] := false;
        slots[i] := Slot(ERROR_ACCOUNT_ID, Account("", "", 0));
      }
    }

    method Exists(id: uint32) returns (exists_: bool)
      requires Valid()
      ensures exists_ <==> id in Table()
    {
      if id >= MAX_BANK_ACCOUNTS {
        return false;
      }
      return slots[id].id != ERROR_ACCOUNT_ID;
    }

    /** Overwrites one balance in place. */
    method StoreBalance(id: AccountId, balance: uint32)
      requires Valid() && id in Table()
      modifies slots
      ensures Valid() && Table() == SetBalance(old(Table()), id, balance)
    {
      slots[id] := slots[id].(account := slots[id].account.(balance := balance));
    }

    /** Adds an account under its mutex; an identifier in use is refused with the mutex left locked. */
    method Insert(id: AccountId, account: Account) returns (code: ReturnCode)
      requires Valid() && !locked[id]
      modifies slots, locked
      ensures Valid()
      ensures if id in old(Table())
        then code == RC_ID_IN_USE && Table() == old(Table()) && locked[..] == old(locked[..])[id := true]
        else code == RC_OK && Table() == old(Table())[id := account] && locked[..] == old(locked[..])
    {
      locked[id] := true;
      var inUse := Exists(id);
      if inUse {
        return RC_ID_IN_USE;
      }
      slots[id] := Slot(id, account);
      locked[id] := false;
      assert locked[..] == old(locked[..]);
      return RC_OK;
    }

    method CheckRequestHeader(req: Request) returns (code: ReturnCode)
      requires Valid()
      ensures code == HeaderVerdict(sha, Table(), req)
    {
      var known := Exists(req.account);
      if !known {
        return RC_LOGIN_FAIL;
      }
      if !PasswordIsCorrect(sha, slots[req.account].account, req.password) {
        return RC_LOGIN_FAIL;
      }
      if (req.op.CreateAccount? && req.account != ADMIN_ACCOUNT_ID) ||
         (req.op.CheckBalance? && req.account == ADMIN_ACCOUNT_ID) ||
         (req.op.Transfer? && (req.account == ADMIN_ACCOUNT_ID || req.op.dest == ADMIN_ACCOUNT_ID)) ||
         (req.op.Shutdown? && req.account != ADMIN_ACCOUNT_ID) {
        return RC_OP_NALLOW;
      }
      return RC_OK;
    }

    method OpCreateAccount(req: Request, salt: string) returns (reply: Reply)
      requires Valid() && req.op.CreateAccount? && !locked[req.op.id]
      requires HeaderVerdict(sha, Table(), req) == RC_OK
      modifies slots, locked
      ensures Valid()
      ensures Outcome(Books(), reply) == Execute(sha, salt, old(Books()), req)
      ensures locked[..] == if reply.code == RC_ID_IN_USE then old(locked[..])[req.op.id := true] else old(locked[..])
    {
      var newAccount := Account(salt, sha(req.op.newPassword + salt), req.op.balance);
      var code := Insert(req.op.id, newAccount);
      reply := Reply(req.account, code, NoBody);
    }

    method OpCheckBalance(req: Request, ghost salt: string) returns (reply: Reply)
      requires Valid() && req.op.CheckBalance?
      requires HeaderVerdict(sha, Table(), req) == RC_OK
      requires !locked[req.account]
      modifies locked
      ensures Valid()
      ensures Outcome(Books(), reply) == Execute(sha, salt, old(Books()), req)
      ensures locked[..] == old(locked[..])
    {
      locked[req.account] := true;
      reply := Reply(req.account, RC_OK, BalanceBody(slots[req.account].account.balance));
      locked[req.account] := false;
      assert locked[..] == old(locked[..]);
    }

    /** The critical section of a transfer: decide, then credit before debit. */
    method Decide(source: AccountId, dest: AccountId, amount: uint32) returns (code: ReturnCode)
      requires Valid() && source in Table() && source != dest
      modifies slots
      ensures Valid() && source in Table()
      ensures code == TransferVerdict(old(Table()), source, dest, amount)
      ensures Table() ==
        if code == RC_OK then Debited(Credited(old(Table()), dest, amount), source, amount) else old(Table())
    {
      var known := Exists(dest);
      if !known {
        return RC_ID_NOT_FOUND;
      }
      if slots[source].account.balance < amount {
        return RC_NO_FUNDS;
      }
      if Wrap(slots[dest].account.balance + amount) > MAX_BALANCE {
        return RC_TOO_HIGH;
      }
      StoreBalance(dest, Wrap(slots[dest].account.balance + amount));
      assert slots[source].account.balance == BalanceOf(Table(), source);
      StoreBalance(source, Wrap(slots[source].account.balance - amount));
      return RC_OK;
    }

    /** The ordered two-mutex transfer. */
    method OpTransfer(req: Request, ghost salt: string) returns (reply: Reply)
      requires Valid() && req.op.Transfer? && req.op.dest != req.account
      requires HeaderVerdict(sha, Table(), req) == RC_OK
      requires !locked[req.op.dest] && !locked[req.account]
      modifies slots, locked
      ensures Valid()
      ensures Outcome(Books(), reply) == Execute(sha, salt, old(Books()), req)
      ensures locked[..] == old(locked[..])
    {
      var dest, source := req.op.dest, req.account;
      var first, second;
      if dest > source {
        first, second := dest, source;
      } else {
        first, second := source, dest;
      }
      locked[first] := true;
      locked[second] := true;

      var code := Decide(source, dest, req.op.amount);
      reply := Reply(source, code, BalanceBody(slots[source].account.balance));

      locked[first] := false;
      locked[second] := false;
      assert locked[..] == old(locked[..]);
    }

    /**
     One request from header check to reply.  The mutexes that an accepted request locks must be free and
     distinct, since a lock of a locked mutex would not return.
     */
    method HandleRequest(req: Request, salt: string) returns (reply: Reply)
      requires Valid()
      requires HeaderVerdict(sha, Table(), req) == RC_OK ==>
        && (forall id :: 0 <= id < MAX_BANK_ACCOUNTS && Needs(req, id) ==> !locked[id])
        && (req.op.Transfer? ==> req.op.dest != req.account)
      modifies this`shutdown, slots, locked
      ensures Valid()
      ensures Outcome(Books(), reply) == Execute(sha, salt, old(Books()), req)
      ensures locked[..] ==
        if reply.code == RC_ID_IN_USE then old(locked[..])[Target(req) := true] else old(locked[..])
    {
      var verdict := CheckRequestHeader(req);
      if verdict != RC_OK {
        return Reply(req.account, verdict, NoBody);
      }
      match req.op
      case CreateAccount(_, _, _) => reply := OpCreateAccount(req, salt);
      case CheckBalance => reply := OpCheckBalance(req, salt);
      case Transfer(_, _) => reply := OpTransfer(req, salt);
      case Shutdown =>
        shutdown := true;
        reply := Reply(req.account, RC_OK, ActiveBody(0));
    }
  }
}
