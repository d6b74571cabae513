/**
 Who handles which request: every popped request is carried by the office that popped it until
 that office replies, takes effect once in between, and is answered once.
 */
module Tickets {
  import opened Bank
  import opened Server
  import opened HallSafety

  // ----- Where a request is -----

  predicate Carries(fused: bool, pc: Pc) {
    match pc
    case UnlockPop | PostEmpty | Handle(_) => true
    case LockUp | CountUp | UnlockUp => fused
    case _ => false
  }

  /** Past its commit point and not yet answered. */
  predicate Committed(pc: Pc) {
    match pc
    case Handle(CreateUnlock) | Handle(BalanceUnlock) => true
    case Handle(TransferUnlockFirst) | Handle(TransferUnlockSecond) => true
    case Handle(ChangeMode) | Handle(CloseDummy) | Handle(CountActive) | Handle(Send) => true
    case _ => false
  }

  predicate Closing(pc: Pc) {
    pc == Handle(ChangeMode) || pc == Handle(CloseDummy) || pc == Handle(CountActive)
  }

  /** The position in `log` of the entry for `ticket`, or the length of `log`. */
  function Position(log: seq<Entry>, ticket: nat): (p: nat)
    ensures p <= |log|
    ensures p < |log| ==> log[p].ticket == ticket
    ensures p == |log| ==> forall k :: 0 <= k < |log| ==> log[k].ticket != ticket
  {
    if log == [] then 0
    else
      var last := |log| - 1;
      var p := Position(log[..last], ticket);
      if p < last then p else if log[last].ticket == ticket then last else |log|
  }

  predicate Logged(log: seq<Entry>, ticket: nat) {
    Position(log, ticket) < |log|
  }

  function LoggedReply(log: seq<Entry>, ticket: nat): Reply
    requires Logged(log, ticket)
  {
    log[Position(log, ticket)].reply
  }

  predicate Answered(answers: seq<Answer>, ticket: nat) {
    exists k :: 0 <= k < |answers| && answers[k].ticket == ticket
  }

  lemma PositionAppend(log: seq<Entry>, entry: Entry, ticket: nat)
    ensures Position(log + [entry], ticket) ==
            if Logged(log, ticket) then Position(log, ticket) else if entry.ticket == ticket then |log| else |log| + 1
  {
    assert (log + [entry])[..|log|] == log;
  }

  lemma AnsweredAppend(answers: seq<Answer>, answer: Answer, ticket: nat)
    ensures Answered(answers + [answer], ticket) <==> Answered(answers, ticket) || answer.ticket == ticket
  {
    var longer := answers + [answer];
    assert longer[|answers|] == answer;
    if Answered(answers, ticket) {
      var k :| 0 <= k < |answers| && answers[k].ticket == ticket;
      assert longer[k].ticket == ticket;
    }
  }

  // ----- The invariant -----

  /** What an office carries is what it popped, and it is not answered yet. */
  predicate CarriedInv(cfg: Config, s: State) {
    && |s.hall.poppers| == |s.hall.popped|
    && forall j :: 0 <= j < |s.offices| && Carries(cfg.fused, s.offices[j].pc) ==>
      var office := s.offices[j];
      && office.ticket < |s.hall.popped|
      && office.req == s.hall.popped[office.ticket]
      && s.hall.poppers[office.ticket] == j
      && !Answered(s.vault.answers, office.ticket)
  }

  /** No popped request is lost: an unanswered one is still with the office that popped it. */
  predicate NothingLost(cfg: Config, s: State) {
    && |s.hall.poppers| == |s.hall.popped|
    && forall t :: 0 <= t < |s.hall.popped| ==>
      && s.hall.poppers[t] < |s.offices|
      && (!Answered(s.vault.answers, t) ==>
            var office := s.offices[s.hall.poppers[t]]; Carries(cfg.fused, office.pc) && office.ticket == t)
  }

  predicate LogInv(s: State) {
    && (forall k :: 0 <= k < |s.vault.log| ==>
          s.vault.log[k].ticket < |s.hall.popped| && s.vault.log[k].req == s.hall.popped[s.vault.log[k].ticket])
    && (forall k, l :: 0 <= k < l < |s.vault.log| ==> s.vault.log[k].ticket != s.vault.log[l].ticket)
  }

  /** A carried request is in the log exactly when its office is past the commit point, with the reply held. */
  predicate CommitInv(cfg: Config, s: State) {
    forall j :: 0 <= j < |s.offices| && Carries(cfg.fused, s.offices[j].pc) ==>
      var office := s.offices[j];
      && (Committed(office.pc) <==> Logged(s.vault.log, office.ticket))
      && (Committed(office.pc) ==> LoggedReply(s.vault.log, office.ticket) == Mask(office.reply))
      && (Closing(office.pc) ==> office.reply.body.ActiveBody?)
  }

  predicate AnswersInv(s: State) {
    && (forall k :: 0 <= k < |s.vault.answers| ==>
          var answer := s.vault.answers[k];
          && answer.ticket < |s.hall.popped|
          && Logged(s.vault.log, answer.ticket)
          && LoggedReply(s.vault.log, answer.ticket) == Mask(answer.reply))
    && (forall k, l :: 0 <= k < l < |s.vault.answers| ==> s.vault.answers[k].ticket != s.vault.answers[l].ticket)
  }

  predicate TicketInv(cfg: Config, s: State) {
    && CarriedInv(cfg, s)
    && NothingLost(cfg, s)
    && LogInv(s)
    && CommitInv(cfg, s)
    && AnswersInv(s)
  }

  lemma InitialTickets(cfg: Config, requests: seq<Request>)
    ensures TicketInv(cfg, Initial(cfg, requests))
  {
  }

  // ----- Every step keeps it -----

  /** Two versions of an office that carry the same request in the same stage. */
  predicate SameLoad(fused: bool, a: Office, b: Office) {
    && Carries(fused, a.pc) == Carries(fused, b.pc)
    && (Carries(fused, a.pc) ==>
      && a.ticket == b.ticket && a.req == b.req && a.reply == b.reply
      && Committed(a.pc) == Committed(b.pc) && Closing(a.pc) == Closing(b.pc))
  }

  /** A step that leaves the histories and every load alone. */
  lemma QuietStep(cfg: Config, s: State, t: State)
    requires TicketInv(cfg, s)
    requires |t.offices| == |s.offices|
    requires forall j :: 0 <= j < |s.offices| ==> SameLoad(cfg.fused, s.offices[j], t.offices[j])
    requires t.hall.popped == s.hall.popped && t.hall.poppers == s.hall.poppers
    requires t.vault.log == s.vault.log && t.vault.answers == s.vault.answers
    ensures TicketInv(cfg, t)
  {
  }

  /** An office step that neither pops nor handles leaves what the office carries alone. */
  lemma PassiveStep(cfg: Config, s: State, i: nat)
    requires i < |s.offices| && !s.offices[i].pc.Handle?
    requires s.offices[i].pc != Pop || s.hall.queue == []
    requires s.offices[i].pc.UnlockTest? || s.offices[i].pc.LockPop? ==> !cfg.fused
    ensures SameLoad(cfg.fused, s.offices[i], NextOffice(cfg, s.offices[i], s))
  {
  }

  lemma PopStep(cfg: Config, s: State, i: nat)
    requires TicketInv(cfg, s)
    requires i < |s.offices| && s.offices[i].pc == Pop && s.hall.queue != []
    ensures TicketInv(cfg, OfficeStep(cfg, s, i))
  {
    var t := OfficeStep(cfg, s, i);
    assert t.vault == s.vault;
  }

  /** A reply takes one request off its office and adds one answer. */
  lemma SendChanges(cfg: Config, s: State, i: nat)
    requires i < |s.offices| && s.offices[i].pc == Handle(Send)
    ensures
      var office, t := s.offices[i], OfficeStep(cfg, s, i);
      && t.offices == s.offices[i := office.(pc := LockDown)] && t.hall == s.hall && t.vault.log == s.vault.log
      && t.vault.answers == s.vault.answers + [Answer(office.ticket, office.reply)]
      && forall x: nat :: Answered(t.vault.answers, x) <==> Answered(s.vault.answers, x) || x == office.ticket
  {
    var office, t := s.offices[i], OfficeStep(cfg, s, i);
    forall x: nat ensures Answered(t.vault.answers, x) <==> Answered(s.vault.answers, x) || x == office.ticket {
      AnsweredAppend(s.vault.answers, Answer(office.ticket, office.reply), x);
    }
  }

  lemma SendKeepsCarried(cfg: Config, s: State, i: nat)
    requires CarriedInv(cfg, s) && NothingLost(cfg, s) && CommitInv(cfg, s)
    requires i < |s.offices| && s.offices[i].pc == Handle(Send)
    ensures var t := OfficeStep(cfg, s, i); CarriedInv(cfg, t) && NothingLost(cfg, t) && CommitInv(cfg, t)
  {
    SendChanges(cfg, s, i);
    SendTakesOneOff(cfg, s, OfficeStep(cfg, s, i), i);
  }

  lemma SendTakesOneOff(cfg: Config, s: State, t: State, i: nat)
    requires CarriedInv(cfg, s) && NothingLost(cfg, s) && CommitInv(cfg, s)
    requires i < |s.offices| && s.offices[i].pc == Handle(Send)
    requires t.offices == s.offices[i := s.offices[i].(pc := LockDown)]
    requires t.hall == s.hall && t.vault.log == s.vault.log
    requires forall x: nat :: Answered(t.vault.answers, x) <==> Answered(s.vault.answers, x) || x == s.offices[i].ticket
    ensures CarriedInv(cfg, t) && NothingLost(cfg, t) && CommitInv(cfg, t)
  {
  }

  lemma SendKeepsAnswers(cfg: Config, s: State, i: nat)
    requires TicketInv(cfg, s)
    requires i < |s.offices| && s.offices[i].pc == Handle(Send)
    ensures AnswersInv(OfficeStep(cfg, s, i))
  {
    var office, t := s.offices[i], OfficeStep(cfg, s, i);
    assert t.vault.answers == s.vault.answers + [Answer(office.ticket, office.reply)];
    assert t.vault.log == s.vault.log && t.hall == s.hall;
    assert forall k :: 0 <= k < |s.vault.answers| ==> s.vault.answers[k].ticket != office.ticket;
  }

  lemma SendStep(cfg: Config, s: State, i: nat)
    requires TicketInv(cfg, s)
    requires i < |s.offices| && s.offices[i].pc == Handle(Send)
    ensures TicketInv(cfg, OfficeStep(cfg, s, i))
  {
    SendKeepsCarried(cfg, s, i);
    SendKeepsAnswers(cfg, s, i);
  }

  /** A step commits exactly when it crosses the commit point, with the reply it will send. */
  lemma CommitCrosses(cfg: Config, office: Office, s: State)
    requires office.pc.Handle? && office.pc != Handle(Send)
    requires Closing(office.pc) ==> office.reply.body.ActiveBody?
    ensures var next := NextOffice(cfg, office, s);
      && next.pc.Handle? && next.ticket == office.ticket && next.req == office.req
      && (Committed(next.pc) <==> Committed(office.pc) || Commits(cfg, office, s.vault.accounts))
      && !(Committed(office.pc) && Commits(cfg, office, s.vault.accounts))
      && (Commits(cfg, office, s.vault.accounts) ==> Mask(next.reply) == next.reply)
      && (Committed(office.pc) ==> Mask(next.reply) == Mask(office.reply))
      && (Closing(next.pc) ==> next.reply.body.ActiveBody?)
  {
  }

  lemma LogAppend(log: seq<Entry>, entry: Entry)
    requires !Logged(log, entry.ticket)
    ensures forall x: nat :: Logged(log + [entry], x) <==> Logged(log, x) || x == entry.ticket
    ensures forall x: nat | Logged(log, x) :: LoggedReply(log + [entry], x) == LoggedReply(log, x)
    ensures LoggedReply(log + [entry], entry.ticket) == entry.reply
  {
    forall x: nat
      ensures Logged(log + [entry], x) <==> Logged(log, x) || x == entry.ticket
      ensures Logged(log, x) ==> LoggedReply(log + [entry], x) == LoggedReply(log, x)
    {
      PositionAppend(log, entry, x);
    }
    PositionAppend(log, entry, entry.ticket);
  }

  lemma CommitStep(cfg: Config, s: State, i: nat)
    requires TicketInv(cfg, s)
    requires i < |s.offices| && s.offices[i].pc.Handle? && s.offices[i].pc != Handle(Send)
    requires Commits(cfg, s.offices[i], s.vault.accounts)
    ensures TicketInv(cfg, OfficeStep(cfg, s, i))
  {
    var office, t := s.offices[i], OfficeStep(cfg, s, i);
    CommitCrosses(cfg, office, s);
    LogAppend(s.vault.log, Entry(office.ticket, office.req, NextOffice(cfg, office, s).reply));
    LogOne(cfg, s, t, i);
  }

  /** One more entry in the log, for the request of an office that crosses its commit point. */
  lemma LogOne(cfg: Config, s: State, t: State, i: nat)
    requires TicketInv(cfg, s) && i < |s.offices| && |t.offices| == |s.offices|
    requires t.offices == s.offices[i := t.offices[i]] && t.hall == s.hall && t.vault.answers == s.vault.answers
    requires s.offices[i].pc.Handle? && t.offices[i].pc.Handle?
    requires t.offices[i].ticket == s.offices[i].ticket && t.offices[i].req == s.offices[i].req
    requires !Committed(s.offices[i].pc) && Committed(t.offices[i].pc)
    requires Closing(t.offices[i].pc) ==> t.offices[i].reply.body.ActiveBody?
    requires Mask(t.offices[i].reply) == t.offices[i].reply
    requires t.vault.log == s.vault.log + [Entry(s.offices[i].ticket, s.offices[i].req, t.offices[i].reply)]
    requires forall x: nat :: Logged(t.vault.log, x) <==> Logged(s.vault.log, x) || x == s.offices[i].ticket
    requires forall x: nat | Logged(s.vault.log, x) ::
      Logged(t.vault.log, x) && LoggedReply(t.vault.log, x) == LoggedReply(s.vault.log, x)
    requires Logged(t.vault.log, s.offices[i].ticket)
    requires LoggedReply(t.vault.log, s.offices[i].ticket) == t.offices[i].reply
    ensures TicketInv(cfg, t)
  {
  }

  lemma WorkStep(cfg: Config, s: State, i: nat)
    requires TicketInv(cfg, s)
    requires i < |s.offices| && s.offices[i].pc.Handle? && s.offices[i].pc != Handle(Send)
    requires !Commits(cfg, s.offices[i], s.vault.accounts)
    ensures TicketInv(cfg, OfficeStep(cfg, s, i))
  {
    var office, t := s.offices[i], OfficeStep(cfg, s, i);
    CommitCrosses(cfg, office, s);
    assert t.offices == s.offices[i := NextOffice(cfg, office, s)];
    assert t.hall == s.hall && t.vault.answers == s.vault.answers && t.vault.log == s.vault.log;
  }

  lemma OfficeKeepsTickets(cfg: Config, s: State, i: nat)
    requires NoGap(cfg, s) && TicketInv(cfg, s)
    requires i < |s.offices|
    ensures TicketInv(cfg, OfficeStep(cfg, s, i))
  {
    if s.offices[i].pc == Handle(Send) {
      SendStep(cfg, s, i);
    } else if s.offices[i].pc.Handle? {
      if Commits(cfg, s.offices[i], s.vault.accounts) {
        CommitStep(cfg, s, i);
      } else {
        WorkStep(cfg, s, i);
      }
    } else if s.offices[i].pc == Pop && s.hall.queue != [] {
      PopStep(cfg, s, i);
    } else {
      PassiveStep(cfg, s, i);
      QuietStep(cfg, s, OfficeStep(cfg, s, i));
    }
  }

  lemma StepKeepsTickets(cfg: Config, s: State, actor: Actor)
    requires HallInv(cfg, s) && TicketInv(cfg, s)
    requires Enabled(s, actor)
    ensures TicketInv(cfg, Step(cfg, s, actor))
  {
    match actor
    case OfficeActor(i) => OfficeKeepsTickets(cfg, s, i);
    case MainActor => MainKeepsTickets(cfg, s);
    case UserActor(u) =>
      UserLeavesOffices(s, u);
      QuietStep(cfg, s, UserStep(s, u));
  }

  lemma UserLeavesOffices(s: State, u: nat)
    requires u < |s.users|
    ensures var t := UserStep(s, u); t.offices == s.offices && t.hall == s.hall && t.vault == s.vault
  {
  }

  lemma MainLeavesHistories(cfg: Config, s: State)
    ensures
      var t := MainStep(cfg, s);
      && t.hall.popped == s.hall.popped && t.hall.poppers == s.hall.poppers
      && t.vault.log == s.vault.log && t.vault.answers == s.vault.answers
  {
  }

  lemma MainKeepsTickets(cfg: Config, s: State)
    requires StartingInv(s) && TicketInv(cfg, s)
    ensures TicketInv(cfg, MainStep(cfg, s))
  {
    LaunchKeepsLoads(cfg, s);
    MainLeavesHistories(cfg, s);
    QuietStep(cfg, s, MainStep(cfg, s));
  }

  lemma LaunchKeepsLoads(cfg: Config, s: State)
    requires StartingInv(s)
    ensures
      var offices := MainOffices(s.main, s.offices);
      |offices| == |s.offices| && forall j :: 0 <= j < |offices| ==> SameLoad(cfg.fused, s.offices[j], offices[j])
  {
  }
}
