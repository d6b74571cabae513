/**
 Everything the server keeps, and that every run keeps it.
 */
module Invariant {
  import opened Bank
  import opened Server
  import opened HallSafety
  import opened Tickets
  import opened Locks
  import opened Books
  import opened Lifecycle

  ghost predicate Inv(cfg: Config, s: State) {
    && HallInv(cfg, s)
    && TicketInv(cfg, s)
    && LockInv(s)
    && BooksInv(cfg, s)
    && LifeInv(s)
    && s.vault.leaked == RefusedIds(s.vault.log)
  }

  lemma InitialInv(cfg: Config, requests: seq<Request>)
    ensures Inv(cfg, Initial(cfg, requests))
  {
    InitialHall(cfg, requests);
    InitialTickets(cfg, requests);
    InitialLocks(cfg, requests);
    InitialBooks(cfg, requests);
    InitialLife(cfg, requests);
  }

  lemma StepKeepsLocks(cfg: Config, s: State, actor: Actor)
    requires StartingInv(s) && LockInv(s) && Enabled(s, actor)
    ensures LockInv(Step(cfg, s, actor))
  {
    match actor
    case MainActor =>
      MainKeepsLocks(cfg, s);
    case OfficeActor(i) => OfficeKeepsLocks(cfg, s, i);
    case UserActor(u) =>
      var t := UserStep(s, u);
      assert t.main == s.main && t.offices == s.offices && t.vault == s.vault;
  }

  lemma OthersLeakNothing(cfg: Config, s: State, actor: Actor)
    requires Enabled(s, actor) && !actor.OfficeActor?
    ensures var t := Step(cfg, s, actor); t.vault.leaked == s.vault.leaked && t.vault.log == s.vault.log
  {
  }

  /** A transfer's code is a transfer's verdict, never that of a refused creation. */
  lemma ReadersCode(cfg: Config, s: State, i: nat)
    requires BooksInv(cfg, s) && i < |s.offices| && s.offices[i].pc == Handle(TransferRead)
    ensures s.offices[i].reply.code != RC_ID_IN_USE
  {
    assert Facts(cfg, s.offices[i], s.vault.accounts, Replay(cfg, s.vault.log).accounts);
  }

  lemma StepKeepsLeaks(cfg: Config, s: State, actor: Actor)
    requires BooksInv(cfg, s) && s.vault.leaked == RefusedIds(s.vault.log) && Enabled(s, actor)
    ensures var t := Step(cfg, s, actor); t.vault.leaked == RefusedIds(t.vault.log)
  {
    match actor
    case OfficeActor(i) =>
      if s.offices[i].pc == Handle(TransferRead) {
        ReadersCode(cfg, s, i);
      }
      OfficeKeepsLeaks(cfg, s, i);
    case _ =>
      OthersLeakNothing(cfg, s, actor);
  }

  lemma StepKeepsInv(cfg: Config, s: State, actor: Actor)
    requires Inv(cfg, s) && Enabled(s, actor)
    ensures Inv(cfg, Step(cfg, s, actor))
  {
    StepKeepsHall(cfg, s, actor);
    StepKeepsTickets(cfg, s, actor);
    StepKeepsLocks(cfg, s, actor);
    StepKeepsBooks(cfg, s, actor);
    StepKeepsLife(cfg, s, actor);
    StepKeepsLeaks(cfg, s, actor);
  }

  lemma {:induction false} RunKeepsInv(cfg: Config, s: State, schedule: seq<Actor>, t: State)
    requires Inv(cfg, s) && Runs(cfg, s, schedule, t)
    ensures Inv(cfg, t)
    decreases |schedule|
  {
    if schedule != [] {
      StepKeepsInv(cfg, s, schedule[0]);
      RunKeepsInv(cfg, Step(cfg, s, schedule[0]), schedule[1..], t);
    }
  }

  /** `t` is a state of some run of the server with these user requests. */
  ghost predicate Reachable(cfg: Config, requests: seq<Request>, t: State) {
    exists schedule :: Runs(cfg, Initial(cfg, requests), schedule, t)
  }

  lemma ReachableInv(cfg: Config, requests: seq<Request>, t: State)
    requires Reachable(cfg, requests, t)
    ensures Inv(cfg, t)
  {
    var schedule :| Runs(cfg, Initial(cfg, requests), schedule, t);
    InitialInv(cfg, requests);
    RunKeepsInv(cfg, Initial(cfg, requests), schedule, t);
  }

  lemma {:induction false} RunsAppend(cfg: Config, s: State, schedule: seq<Actor>, m: State, actor: Actor)
    requires Runs(cfg, s, schedule, m) && Enabled(m, actor)
    ensures Runs(cfg, s, schedule + [actor], Step(cfg, m, actor))
    decreases |schedule|
  {
    if schedule == [] {
      assert (schedule + [actor])[1..] == [];
    } else {
      RunsAppend(cfg, Step(cfg, s, schedule[0]), schedule[1..], m, actor);
      assert (schedule + [actor])[1..] == schedule[1..] + [actor];
    }
  }

  lemma StaysReachable(cfg: Config, requests: seq<Request>, s: State, actor: Actor)
    requires Reachable(cfg, requests, s) && Enabled(s, actor)
    ensures Reachable(cfg, requests, Step(cfg, s, actor))
  {
    var schedule :| Runs(cfg, Initial(cfg, requests), schedule, s);
    RunsAppend(cfg, Initial(cfg, requests), schedule, s, actor);
    assert Runs(cfg, Initial(cfg, requests), schedule + [actor], Step(cfg, s, actor));
  }

  /** Some run goes from `s` to `t`. */
  ghost predicate Leads(cfg: Config, s: State, t: State) {
    exists schedule :: Runs(cfg, s, schedule, t)
  }

  lemma LeadsToItself(cfg: Config, s: State)
    ensures Leads(cfg, s, s)
  {
    assert Runs(cfg, s, [], s);
  }

  lemma LeadsOn(cfg: Config, s: State, m: State, actor: Actor)
    requires Leads(cfg, s, m) && Enabled(m, actor)
    ensures Leads(cfg, s, Step(cfg, m, actor))
  {
    var schedule :| Runs(cfg, s, schedule, m);
    RunsAppend(cfg, s, schedule, m, actor);
    assert Runs(cfg, s, schedule + [actor], Step(cfg, m, actor));
  }
}
