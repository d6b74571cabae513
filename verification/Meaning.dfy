/**
 What `Bank.Execute` answers and does, operation by operation, in terms of stored hashes and balances.
 */
module Meaning {
  import opened Bank

  /** The request got past the header check. */
  predicate Accepted(reply: Reply) {
    reply.code != RC_LOGIN_FAIL && reply.code != RC_OP_NALLOW
  }

  // ----- The header -----

  /** A login fails exactly without an account or without its password, whoever asks and for whatever. */
  lemma LoginFailsExactlyWhen(sha: string -> string, salt: string, ledger: Ledger, req: Request)
    ensures Execute(sha, salt, ledger, req).reply.code == RC_LOGIN_FAIL <==>
      req.account !in ledger.accounts ||
      sha(req.password + ledger.accounts[req.account].salt) != ledger.accounts[req.account].hash
  {
  }

  /**
   Behind a login, account 0 may not ask for balances and transfers, only account 0 may ask for creations
   and shutdowns, and nobody may pay account 0.
   */
  lemma NotAllowedExactlyWhen(sha: string -> string, salt: string, ledger: Ledger, req: Request)
    ensures Execute(sha, salt, ledger, req).reply.code == RC_OP_NALLOW <==>
      && req.account in ledger.accounts
      && sha(req.password + ledger.accounts[req.account].salt) == ledger.accounts[req.account].hash
      && (   (req.op.CreateAccount? && req.account != 0)
          || (req.op.CheckBalance? && req.account == 0)
          || (req.op.Transfer? && (req.account == 0 || req.op.dest == 0))
          || (req.op.Shutdown? && req.account != 0))
  {
  }

  /** A request that is refused at the header has no effect, and its reply has no body. */
  lemma RefusedAtTheHeader(sha: string -> string, salt: string, ledger: Ledger, req: Request)
    requires !Accepted(Execute(sha, salt, ledger, req).reply)
    ensures
      var outcome := Execute(sha, salt, ledger, req);
      outcome.ledger == ledger && outcome.reply.account == req.account && outcome.reply.body == NoBody
  {
  }

  // ----- Transfers -----

  /** When a transfer to another account is accepted, and each of its refusals. */
  lemma TransferExactlyWhen(sha: string -> string, salt: string, ledger: Ledger, req: Request)
    requires req.op.Transfer? && req.op.dest != req.account && Accepted(Execute(sha, salt, ledger, req).reply)
    ensures
      var code, accounts, amount := Execute(sha, salt, ledger, req).reply.code, ledger.accounts, req.op.amount;
      && req.account in accounts
      && (code == RC_ID_NOT_FOUND <==> req.op.dest !in accounts)
      && (code == RC_NO_FUNDS <==> req.op.dest in accounts && accounts[req.account].balance < amount)
      && (code == RC_TOO_HIGH <==>
            && req.op.dest in accounts && amount <= accounts[req.account].balance
            && (accounts[req.op.dest].balance + amount) % 0x1_0000_0000 > 1_000_000_000)
      && (code == RC_OK <==>
            && req.op.dest in accounts && amount <= accounts[req.account].balance
            && (accounts[req.op.dest].balance + amount) % 0x1_0000_0000 <= 1_000_000_000)
  {
  }

  /** What an accepted transfer does: it moves the amount between two balances and touches nothing else. */
  lemma TransferMoves(sha: string -> string, salt: string, ledger: Ledger, req: Request)
    requires req.op.Transfer? && req.op.dest != req.account
    requires Execute(sha, salt, ledger, req).reply.code == RC_OK
    ensures
      var outcome, before, dest := Execute(sha, salt, ledger, req), ledger.accounts, req.op.dest;
      var after := outcome.ledger.accounts;
      && req.account in before && dest in before && after.Keys == before.Keys
      && after[req.account].balance == before[req.account].balance - req.op.amount
      && after[dest].balance == (before[dest].balance + req.op.amount) % 0x1_0000_0000
      && (forall id :: id in before ==> after[id].salt == before[id].salt && after[id].hash == before[id].hash)
      && (forall id :: id in before && id != req.account && id != dest ==> after[id] == before[id])
      && outcome.ledger.shutdown == ledger.shutdown
      && outcome.reply == Reply(req.account, RC_OK, BalanceBody(before[req.account].balance - req.op.amount))
  {
  }

  /** A refused transfer leaves everything as it was and tells the payer its balance. */
  lemma RefusedTransferStays(sha: string -> string, salt: string, ledger: Ledger, req: Request)
    requires req.op.Transfer? && Accepted(Execute(sha, salt, ledger, req).reply)
    requires Execute(sha, salt, ledger, req).reply.code != RC_OK
    ensures
      var outcome := Execute(sha, salt, ledger, req);
      && req.account in ledger.accounts && outcome.ledger == ledger && outcome.reply.account == req.account
      && outcome.reply.body == BalanceBody(ledger.accounts[req.account].balance)
  {
  }

  /** A transfer to the paying account, could it run, would be judged alike and change nothing. */
  lemma SelfTransferStays(sha: string -> string, salt: string, ledger: Ledger, req: Request)
    requires req.op.Transfer? && req.op.dest == req.account && Accepted(Execute(sha, salt, ledger, req).reply)
    ensures
      var outcome, balance := Execute(sha, salt, ledger, req), BalanceOf(ledger.accounts, req.account);
      && outcome.ledger == ledger && outcome.reply.body == BalanceBody(balance)
      && (outcome.reply.code == RC_NO_FUNDS <==> balance < req.op.amount)
      && (outcome.reply.code == RC_OK <==>
            req.op.amount <= balance && (balance + req.op.amount) % 0x1_0000_0000 <= 1_000_000_000)
  {
    if Execute(sha, salt, ledger, req).reply.code == RC_OK {
      var id, account := req.account, ledger.accounts[req.account];
      var credited := ledger.accounts[id := account.(balance := Wrap(account.balance + req.op.amount))];
      assert Debited(credited, id, req.op.amount) == credited[id := account] == ledger.accounts;
    }
  }

  // ----- Creations, balances, shutdowns -----

  /** A creation succeeds exactly when its identifier is free, and stores what it was asked to store. */
  lemma CreationExactlyWhen(sha: string -> string, salt: string, ledger: Ledger, req: Request)
    requires req.op.CreateAccount? && Accepted(Execute(sha, salt, ledger, req).reply)
    ensures
      var outcome, id := Execute(sha, salt, ledger, req), req.op.id;
      && outcome.reply == Reply(req.account, if id in ledger.accounts then RC_ID_IN_USE else RC_OK, NoBody)
      && (id in ledger.accounts ==> outcome.ledger == ledger)
      && (id !in ledger.accounts ==>
            && outcome.ledger.accounts
               == ledger.accounts[id := Account(salt, sha(req.op.newPassword + salt), req.op.balance)]
            && outcome.ledger.shutdown == ledger.shutdown)
  {
  }

  /** The owner of a new account can log in with the password of the creation, and reads its balance. */
  lemma NewOwnersLogIn(sha: string -> string, salt: string, ledger: Ledger, creation: Request, salt': string,
                       check: Request)
    requires creation.op.CreateAccount? && Execute(sha, salt, ledger, creation).reply.code == RC_OK
    requires creation.op.id != 0 && check.op.CheckBalance?
    requires check.account == creation.op.id && check.password == creation.op.newPassword
    ensures Execute(sha, salt', Execute(sha, salt, ledger, creation).ledger, check).reply
         == Reply(check.account, RC_OK, BalanceBody(creation.op.balance))
  {
  }

  /** An accepted check answers the stored balance and changes nothing. */
  lemma CheckReadsTheBalance(sha: string -> string, salt: string, ledger: Ledger, req: Request)
    requires req.op.CheckBalance? && Accepted(Execute(sha, salt, ledger, req).reply)
    ensures
      var outcome := Execute(sha, salt, ledger, req);
      && req.account in ledger.accounts && outcome.ledger == ledger
      && outcome.reply == Reply(req.account, RC_OK, BalanceBody(ledger.accounts[req.account].balance))
  {
  }

  /** An accepted shutdown raises the flag and leaves the accounts alone; nothing else raises or lowers it. */
  lemma ShutdownRaisesTheFlag(sha: string -> string, salt: string, ledger: Ledger, req: Request)
    ensures
      var outcome := Execute(sha, salt, ledger, req);
      && (outcome.ledger.shutdown <==> ledger.shutdown || (req.op.Shutdown? && Accepted(outcome.reply)))
      && (req.op.Shutdown? ==> outcome.ledger.accounts == ledger.accounts)
      && (req.op.Shutdown? && Accepted(outcome.reply) ==>
            outcome.reply.account == req.account && outcome.reply.code == RC_OK && outcome.reply.body.ActiveBody?)
  {
  }
}
