/**
 Where client, wire and server meet: what the client lets through is what the server relies on, every
 request is framed so that the server reads it back, and every answer so that the client does.
 */
module Boundary {
  import opened Bank
  import opened Server
  import opened Gauges
  import opened Tickets
  import opened Books
  import opened Invariant
  import opened Money
  import opened Users
  import opened CString
  import Client
  import Wire

  // ----- From the command line to the queue -----

  /** A creation that the client sends holds a password that its field can carry. */
  lemma CreationFits(arguments: string)
    requires Client.Accepted(0, arguments)
    ensures Wire.FitsField(Client.CreationMeant(arguments).newPassword)
  {
    var password := Client.CreationMeant(arguments).newPassword;
    forall k | 0 <= k < |password| ensures 0 < password[k] as int < 256 {
      TokensComeFromTheText(arguments, 2, password[k]);
    }
  }

  /** What the client sends can be framed, and is within the ranges that the server does not check. */
  lemma SentRequestsAreInRange(req: Request)
    requires Client.Sendable(req)
    ensures Wire.IsInt32(req.pid) ==> Wire.WellFormed(req)
    ensures req.account < MAX_BANK_ACCOUNTS
    ensures req.op.CreateAccount? || req.op.Transfer? ==> MIN_BALANCE <= Amount(req) <= MAX_BALANCE
  {
    var operation, arguments :| Client.Accepted(operation, arguments) && req.op == Client.Meant(operation, arguments);
    if operation == 0 {
      CreationFits(arguments);
    }
  }

  /**
   Behind the client the bank's arithmetic is exact: whatever commands its users give, in every
   reachable state every balance is at most MAX_BALANCE and the money is what the creations brought in.
   */
  lemma ClientsKeepTheMoneySafe(cfg: Config, requests: seq<Request>, t: State)
    requires Reachable(cfg, requests, t)
    requires forall k :: 0 <= k < |requests| ==> Client.Sendable(requests[k])
    ensures Bounded(t.vault.accounts)
    ensures Total(t.vault.accounts, MAX_BANK_ACCOUNTS) - Sum(MidTransfer, cfg.fused, t.offices) == Minted(t.vault.log)
  {
    ReachableInv(cfg, requests, t);
    WrittenAreUsers(cfg, requests, t);
    forall k | 0 <= k < |t.hall.popped| && t.hall.popped[k].op.CreateAccount?
      ensures t.hall.popped[k].op.balance <= MAX_BALANCE
    {
      assert t.hall.popped[k] == t.hall.pushed[k];
      PushedAreUsers(requests, t, k);
      SentRequestsAreInRange(t.hall.popped[k]);
    }
    MoneyIsConserved(cfg, requests, t);
  }

  // ----- From the office to the user -----

  /** Every answer is framed for the type of the request it answers, so that the client reads it back whole. */
  lemma AnswersAreReadable(cfg: Config, requests: seq<Request>, t: State, a: nat)
    requires Reachable(cfg, requests, t) && a < |t.vault.answers|
    ensures
      var answer := t.vault.answers[a];
      && answer.ticket < |t.hall.pushed|
      && var message := Wire.Message(Wire.TypeCode(t.hall.pushed[answer.ticket].op), answer.reply);
         && Wire.WellFormedReply(message)
         && var value := Wire.ReplyValue(answer.reply);
            && (|value| == Wire.REPLY_HEADER_SIZE || |value| == Wire.REPLY_HEADER_SIZE + 4)
            && Wire.DecodeReply(message.op, value) == answer.reply
  {
    var req := AnswerFits(cfg, requests, t, a);
    Wire.DecodeReplyRoundTrip(Wire.Message(Wire.TypeCode(req.op), t.vault.answers[a].reply));
  }

  lemma ExecutedFits(sha: string -> string, salt: string, ledger: Ledger, req: Request, reply: Reply)
    requires Execute(sha, salt, ledger, req).reply == Mask(reply)
    ensures Wire.WellFormedReply(Wire.Message(Wire.TypeCode(req.op), reply))
  {
  }

  /** An answer has the form that goes with its request's type. */
  lemma AnswerFits(cfg: Config, requests: seq<Request>, t: State, a: nat) returns (req: Request)
    requires Reachable(cfg, requests, t) && a < |t.vault.answers|
    ensures t.vault.answers[a].ticket < |t.hall.pushed| && req == t.hall.pushed[t.vault.answers[a].ticket]
    ensures Wire.WellFormedReply(Wire.Message(Wire.TypeCode(req.op), t.vault.answers[a].reply))
  {
    ReachableInv(cfg, requests, t);
    var answer, log := t.vault.answers[a], t.vault.log;
    var k := Position(log, answer.ticket);
    req := log[k].req;
    assert log[k].reply == Mask(answer.reply) && req == t.hall.popped[answer.ticket] == t.hall.pushed[answer.ticket];
    ExecutedFits(cfg.sha, cfg.salt(log[k].ticket), Replay(cfg, log[..k]), req, answer.reply);
  }
}
