/**
 Progress: a natural number that falls on every step, so that every run is finite, and what a state
 with nothing left to do looks like.
 */
module Progress {
  import opened Bank
  import opened Server
  import opened Gauges
  import opened HallSafety
  import opened Invariant

  // ----- The measure -----

  const PERMIT_WORTH: nat := 25
  const MESSAGE_WORTH: nat := 31

  function UserRank(user: User): nat {
    match user
    case Idle(_) => MESSAGE_WORTH + 3
    case Open(_) => MESSAGE_WORTH + 2
    case Written(_) => 1
    case Gone(_, _) => 0
  }

  function UserWork(users: seq<User>): nat {
    if users == [] then 0 else UserWork(users[..|users| - 1]) + UserRank(users[|users| - 1])
  }

  /** The steps of `closeOffices` and after, each wake-up carrying the worth of its permit. */
  function ClosingRank(offices: nat, next: nat): nat {
    (if next < offices then (offices - next) * (PERMIT_WORTH + 1) else 0) + offices + 3
  }

  function Left(offices: nat, next: nat): nat {
    if next < offices then offices - next else 0
  }

  function MainRank(cfg: Config, main: MainPc): nat {
    var base := ClosingRank(cfg.offices, 0) + 2;
    match main
    case Done | Aborted => 0
    case Join(k) => Left(cfg.offices, k) + 1
    case Wake(k) => ClosingRank(cfg.offices, k)
    case CloseFifo => base - 1
    case Read => base
    case PostFull => base + PERMIT_WORTH + 1
    case UnlockPush => base + PERMIT_WORTH + 2
    case Push(_) => base + PERMIT_WORTH + 3
    case LockPush(_) => base + PERMIT_WORTH + 4
    case WaitEmpty(_) => base + PERMIT_WORTH + 5
    case OpenDummy => base + 1
    case OpenReader => base + 2
    case MakeFifo => base + 3
    case CreateQueue => base + 4
    case AdminUnlock => base + 5
    case AdminWrite => base + 6
    case AdminTest => base + 7
    case AdminLock => base + 8
    case InitAccounts => base + 9
    case Launch(k) => base + 10 + Left(cfg.offices, k)
    case InitSync => base + 11 + cfg.offices
  }

  function Measure(cfg: Config, s: State): nat {
    Sum(Work, cfg.fused, s.offices) + PERMIT_WORTH * s.hall.full + MESSAGE_WORTH * |s.pipe.data|
    + UserWork(s.users) + MainRank(cfg, s.main) + (if s.crashed then 0 else 1)
  }

  lemma {:induction false} UserWorkUpdate(users: seq<User>, u: nat, user: User)
    requires u < |users|
    ensures UserWork(users[u := user]) + UserRank(users[u]) == UserWork(users) + UserRank(user)
  {
    var last := |users| - 1;
    if u == last {
      assert users[u := user][..last] == users[..last];
    } else {
      assert users[u := user][..last] == users[..last][u := user];
      UserWorkUpdate(users[..last], u, user);
    }
  }

  lemma HandlingFalls(cfg: Config, office: Office, accounts: Accounts, active: int)
    requires office.pc.Handle?
    ensures Rank(cfg.fused, Handled(cfg, office, accounts, active).pc) < Rank(cfg.fused, office.pc)
  {
  }

  /** An office step lowers the office's rank, except that taking a permit turns it into work. */
  lemma RankFalls(cfg: Config, s: State, i: nat)
    requires NoGap(cfg, s)
    requires i < |s.offices| && OfficeEnabled(s, i)
    requires s.offices[i].pc != Pop || s.hall.queue != []
    ensures
      var next := NextOffice(cfg, s.offices[i], s);
      var full := NextHall(i, s.offices[i].pc, s.hall).full;
      Rank(cfg.fused, next.pc) + PERMIT_WORTH * full < Rank(cfg.fused, s.offices[i].pc) + PERMIT_WORTH * s.hall.full
  {
    if s.offices[i].pc.Handle? {
      HandlingFalls(cfg, s.offices[i], s.vault.accounts, s.tally.active);
    }
  }

  lemma OfficeFalls(cfg: Config, s: State, i: nat)
    requires NoGap(cfg, s) && !s.crashed
    requires i < |s.offices| && OfficeEnabled(s, i)
    ensures Measure(cfg, OfficeStep(cfg, s, i)) < Measure(cfg, s)
  {
    if s.offices[i].pc == Pop && s.hall.queue == [] {
      assert OfficeStep(cfg, s, i).offices == s.offices;
    } else {
      RankFalls(cfg, s, i);
      SumUpdate(Work, cfg.fused, s.offices, i, NextOffice(cfg, s.offices[i], s));
    }
  }

  lemma ClosingFalls(cfg: Config, s: State)
    requires |s.offices| == cfg.offices && (s.main.CloseFifo? || s.main.Wake? || s.main.Join?)
    ensures
      var t := MainStep(cfg, s);
      PERMIT_WORTH * t.hall.full + MainRank(cfg, t.main) < PERMIT_WORTH * s.hall.full + MainRank(cfg, s.main)
    ensures MainStep(cfg, s).pipe.data == s.pipe.data
  {
  }

  /** Where the producer's loop is. */
  predicate Producing(main: MainPc) {
    main.Read? || main.WaitEmpty? || main.LockPush? || main.Push? || main.UnlockPush? || main.PostFull?
  }

  lemma ProducingFalls(cfg: Config, s: State)
    requires MainEnabled(s) && Producing(s.main)
    ensures
      var t := MainStep(cfg, s);
      PERMIT_WORTH * t.hall.full + MESSAGE_WORTH * |t.pipe.data| + MainRank(cfg, t.main)
      < PERMIT_WORTH * s.hall.full + MESSAGE_WORTH * |s.pipe.data| + MainRank(cfg, s.main)
  {
  }

  lemma StartingFalls(cfg: Config, s: State)
    requires MainEnabled(s) && |s.offices| == cfg.offices && Starting(s.main)
    ensures
      var t := MainStep(cfg, s);
      && PERMIT_WORTH * t.hall.full + MainRank(cfg, t.main) < PERMIT_WORTH * s.hall.full + MainRank(cfg, s.main)
      && t.pipe.data == s.pipe.data
  {
  }

  lemma MainFalls(cfg: Config, s: State)
    requires HallInv(cfg, s) && MainEnabled(s)
    ensures Measure(cfg, MainStep(cfg, s)) < Measure(cfg, s)
  {
    LaunchKeepsSums(cfg, s);
    if s.main.CloseFifo? || s.main.Wake? || s.main.Join? {
      ClosingFalls(cfg, s);
    } else if Producing(s.main) {
      ProducingFalls(cfg, s);
    } else {
      StartingFalls(cfg, s);
    }
  }

  lemma UserFalls(cfg: Config, s: State, u: nat)
    requires u < |s.users| && UserEnabled(s, u)
    ensures Measure(cfg, UserStep(s, u)) < Measure(cfg, s)
  {
    UserWorkUpdate(s.users, u, UserStep(s, u).users[u]);
  }

  lemma StepFalls(cfg: Config, s: State, actor: Actor)
    requires Inv(cfg, s) && Enabled(s, actor)
    ensures Measure(cfg, Step(cfg, s, actor)) < Measure(cfg, s)
  {
    match actor
    case MainActor => MainFalls(cfg, s);
    case OfficeActor(i) => OfficeFalls(cfg, s, i);
    case UserActor(u) => UserFalls(cfg, s, u);
  }

  /** Every run is finite: no schedule is longer than the measure of the state it starts from. */
  lemma {:induction false} RunsAreFinite(cfg: Config, s: State, schedule: seq<Actor>, t: State)
    requires Inv(cfg, s) && Runs(cfg, s, schedule, t)
    ensures |schedule| + Measure(cfg, t) <= Measure(cfg, s)
    decreases |schedule|
  {
    if schedule != [] {
      StepFalls(cfg, s, schedule[0]);
      StepKeepsInv(cfg, s, schedule[0]);
      RunsAreFinite(cfg, Step(cfg, s, schedule[0]), schedule[1..], t);
    }
  }
}
