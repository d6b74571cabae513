/**
 Safety of the request queue protocol: mutual exclusion, the two semaphore laws, FIFO order,
 and the active-office counter, in every state of every run.
 */
module HallSafety {
  import opened Bank
  import opened Server
  import opened Gauges

  // ----- What the invariant says -----

  predicate InQueueSection(pc: Pc) {
    pc.Test? || pc.UnlockQuit? || pc.UnlockTest? || pc.Pop? || pc.UnlockPop?
  }

  predicate InTallySection(pc: Pc) {
    pc.CountUp? || pc.UnlockUp? || pc.CountDown? || pc.UnlockDown?
  }

  predicate Starting(main: MainPc) {
    match main
    case InitSync | Launch(_) | InitAccounts | AdminLock | AdminTest | AdminWrite | AdminUnlock => true
    case CreateQueue | MakeFifo | OpenReader | OpenDummy | Aborted => true
    case _ => false
  }

  /** The wake-ups that `closeOffices` has posted so far. */
  function Wakes(cfg: Config, main: MainPc): nat {
    match main
    case Wake(k) => k
    case Join(_) => cfg.offices
    case Done => cfg.offices
    case _ => 0
  }

  /** The producer has pushed and not yet posted `full`. */
  function Posting(main: MainPc): nat {
    One(main.UnlockPush? || main.PostFull?)
  }

  /** The producer has taken an `empty` permit and not yet pushed. */
  function Taking(main: MainPc): nat {
    One(main.LockPush? || main.Push?)
  }

  predicate QueueMutexInv(s: State) {
    && (s.hall.mutex == Taken(MainThread) <==> s.main.Push? || s.main.UnlockPush?)
    && (forall j :: 0 <= j < |s.offices| ==>
          (s.hall.mutex == Taken(OfficeThread(j)) <==> InQueueSection(s.offices[j].pc)))
    && (s.hall.mutex.Taken? && s.hall.mutex.owner.OfficeThread? ==> s.hall.mutex.owner.index < |s.offices|)
  }

  predicate TallyMutexInv(s: State) {
    && s.tally.mutex != Taken(MainThread)
    && (forall j :: 0 <= j < |s.offices| ==>
          (s.tally.mutex == Taken(OfficeThread(j)) <==> InTallySection(s.offices[j].pc)))
    && (s.tally.mutex.Taken? && s.tally.mutex.owner.OfficeThread? ==> s.tally.mutex.owner.index < |s.offices|)
  }

  predicate ActiveLaw(cfg: Config, s: State) {
    s.tally.active == Sum(Actives, cfg.fused, s.offices)
  }

  predicate PermitLaw(cfg: Config, s: State) {
    s.hall.full + Sum(Permits, cfg.fused, s.offices) + Posting(s.main) + Sum(Exits, cfg.fused, s.offices)
    == |s.hall.queue| + Wakes(cfg, s.main)
  }

  predicate SlotLaw(cfg: Config, s: State) {
    s.hall.empty + |s.hall.queue| + Taking(s.main) + Sum(Slots, cfg.fused, s.offices) == cfg.offices
  }

  predicate QuitsAreWoken(cfg: Config, s: State) {
    Wakes(cfg, s.main) == 0 ==>
      forall j :: 0 <= j < |s.offices| ==> !s.offices[j].pc.UnlockQuit? && !s.offices[j].pc.Exited?
  }

  predicate StartingInv(s: State) {
    && (Starting(s.main) ==>
      && s.hall.pushed == [] && s.hall.full == 0
      && forall j :: 0 <= j < |s.offices| ==> s.offices[j].pc.Unborn? || s.offices[j].pc.WaitFull?)
    && (forall j :: 0 <= j < |s.offices| && s.offices[j].pc.Unborn? ==>
          s.main.InitSync? || (s.main.Launch? && s.main.next <= j))
  }

  /** The fused routine has no gap between its test and its pop. */
  predicate NoGap(cfg: Config, s: State) {
    cfg.fused ==> forall j :: 0 <= j < |s.offices| ==> !s.offices[j].pc.UnlockTest? && !s.offices[j].pc.LockPop?
  }

  predicate HallInv(cfg: Config, s: State) {
    && |s.offices| == cfg.offices
    && (s.main.Wake? ==> s.main.next <= cfg.offices)
    && (s.main.Join? ==> s.main.next <= cfg.offices)
    && QueueMutexInv(s)
    && TallyMutexInv(s)
    && ActiveLaw(cfg, s)
    && PermitLaw(cfg, s)
    && (!s.main.InitSync? ==> SlotLaw(cfg, s))
    && QuitsAreWoken(cfg, s)
    && StartingInv(s)
    && NoGap(cfg, s)
    && s.hall.popped + s.hall.queue == s.hall.pushed
  }

  // ----- Every step keeps it -----

  lemma InitialHall(cfg: Config, requests: seq<Request>)
    ensures HallInv(cfg, Initial(cfg, requests))
  {
    var offices := Initial(cfg, requests).offices;
    SumUniform(Permits, cfg.fused, offices, 0);
    SumUniform(Exits, cfg.fused, offices, 0);
    SumUniform(Actives, cfg.fused, offices, 0);
  }

  /** Inside `handleRequest` an office stays there, or leaves it for the counter; its request is fixed. */
  lemma HandleMoves(cfg: Config, office: Office, accounts: Accounts, active: int)
    requires office.pc.Handle?
    ensures var next := Handled(cfg, office, accounts, active);
      && next.ticket == office.ticket && next.req == office.req
      && (if office.pc.at == Send then next.pc == LockDown else next.pc.Handle?)
  {
  }

  lemma OfficeKeepsQueueMutex(cfg: Config, s: State, i: nat)
    requires i < |s.offices| && OfficeEnabled(s, i) && QueueMutexInv(s)
    ensures QueueMutexInv(OfficeStep(cfg, s, i))
  {
    QueueMutexMoves(cfg, s, i);
  }

  /** An office is in the queue's critical section after its step exactly when it then owns the queue's mutex. */
  lemma QueueMutexMoves(cfg: Config, s: State, i: nat)
    requires i < |s.offices| && OfficeEnabled(s, i)
    requires s.hall.mutex == Taken(OfficeThread(i)) <==> InQueueSection(s.offices[i].pc)
    ensures
      var mutex := NextHall(i, s.offices[i].pc, s.hall).mutex;
      && (mutex == Taken(OfficeThread(i)) <==> InQueueSection(NextOffice(cfg, s.offices[i], s).pc))
      && (mutex == s.hall.mutex || (s.hall.mutex.Free? && mutex == Taken(OfficeThread(i)))
          || (s.hall.mutex == Taken(OfficeThread(i)) && mutex.Free?))
  {
    if s.offices[i].pc.Handle? {
      HandleMoves(cfg, s.offices[i], s.vault.accounts, s.tally.active);
    }
  }

  lemma OfficeKeepsTallyMutex(cfg: Config, s: State, i: nat)
    requires i < |s.offices| && OfficeEnabled(s, i) && TallyMutexInv(s)
    ensures TallyMutexInv(OfficeStep(cfg, s, i))
  {
    if s.offices[i].pc.Handle? {
      HandleMoves(cfg, s.offices[i], s.vault.accounts, s.tally.active);
    }
  }

  /** One office step changes the counter by the office's own weight, and slots go back to `empty` or the queue. */
  lemma CountBalance(cfg: Config, s: State, i: nat)
    requires i < |s.offices|
    ensures
      var office, next := s.offices[i], NextOffice(cfg, s.offices[i], s);
      NextTally(i, office.pc, s.tally).active - s.tally.active
      == Weight(Actives, cfg.fused, next) - Weight(Actives, cfg.fused, office)
  {
    if s.offices[i].pc.Handle? {
      HandleMoves(cfg, s.offices[i], s.vault.accounts, s.tally.active);
    }
  }

  lemma SlotBalance(cfg: Config, s: State, i: nat)
    requires i < |s.offices|
    ensures
      var office, next := s.offices[i], NextOffice(cfg, s.offices[i], s);
      var hall := NextHall(i, office.pc, s.hall);
      hall.empty + |hall.queue| + Weight(Slots, cfg.fused, next)
      == s.hall.empty + |s.hall.queue| + Weight(Slots, cfg.fused, office)
  {
    if s.offices[i].pc.Handle? {
      HandleMoves(cfg, s.offices[i], s.vault.accounts, s.tally.active);
    }
  }

  lemma OfficeKeepsCount(cfg: Config, s: State, i: nat)
    requires i < |s.offices| && ActiveLaw(cfg, s)
    ensures ActiveLaw(cfg, OfficeStep(cfg, s, i))
  {
    CountBalance(cfg, s, i);
    SumUpdate(Actives, cfg.fused, s.offices, i, NextOffice(cfg, s.offices[i], s));
  }

  /** One office step moves permits between the semaphore, the office and the queue; none is lost. */
  lemma PermitBalance(cfg: Config, s: State, i: nat)
    requires i < |s.offices| && OfficeEnabled(s, i)
    ensures
      var office, next := s.offices[i], NextOffice(cfg, s.offices[i], s);
      var hall := NextHall(i, office.pc, s.hall);
      hall.full + Weight(Permits, cfg.fused, next) + Weight(Exits, cfg.fused, next) + |s.hall.queue|
      == s.hall.full + Weight(Permits, cfg.fused, office) + Weight(Exits, cfg.fused, office) + |hall.queue|
  {
    if s.offices[i].pc.Handle? {
      HandleMoves(cfg, s.offices[i], s.vault.accounts, s.tally.active);
    }
  }

  lemma OfficeKeepsPermits(cfg: Config, s: State, i: nat)
    requires i < |s.offices| && OfficeEnabled(s, i)
    requires PermitLaw(cfg, s)
    ensures PermitLaw(cfg, OfficeStep(cfg, s, i))
  {
    PermitBalance(cfg, s, i);
    SumUpdate(Permits, cfg.fused, s.offices, i, NextOffice(cfg, s.offices[i], s));
    SumUpdate(Exits, cfg.fused, s.offices, i, NextOffice(cfg, s.offices[i], s));
  }

  lemma OfficeKeepsSlots(cfg: Config, s: State, i: nat)
    requires i < |s.offices| && SlotLaw(cfg, s)
    ensures SlotLaw(cfg, OfficeStep(cfg, s, i))
  {
    SlotBalance(cfg, s, i);
    SumUpdate(Slots, cfg.fused, s.offices, i, NextOffice(cfg, s.offices[i], s));
  }

  lemma OfficeKeepsPhases(cfg: Config, s: State, i: nat)
    requires HallInv(cfg, s)
    requires i < |s.offices| && OfficeEnabled(s, i)
    ensures QuitsAreWoken(cfg, OfficeStep(cfg, s, i))
    ensures StartingInv(OfficeStep(cfg, s, i))
    ensures NoGap(cfg, OfficeStep(cfg, s, i))
  {
    if s.offices[i].pc.Handle? {
      HandleMoves(cfg, s.offices[i], s.vault.accounts, s.tally.active);
    }
    SumAtLeast(Permits, cfg.fused, s.offices, i);
  }

  lemma OfficeKeepsHall(cfg: Config, s: State, i: nat)
    requires HallInv(cfg, s)
    requires i < |s.offices| && OfficeEnabled(s, i)
    ensures HallInv(cfg, OfficeStep(cfg, s, i))
  {
    OfficeKeepsQueueMutex(cfg, s, i);
    OfficeKeepsTallyMutex(cfg, s, i);
    OfficeKeepsCount(cfg, s, i);
    OfficeKeepsPermits(cfg, s, i);
    if !s.main.InitSync? {
      OfficeKeepsSlots(cfg, s, i);
    }
    OfficeKeepsPhases(cfg, s, i);
  }

  /** Starting an office changes no gauge: neither an unborn nor a waiting office weighs anything. */
  lemma LaunchKeepsSums(cfg: Config, s: State)
    requires StartingInv(s)
    ensures forall g :: Sum(g, cfg.fused, MainOffices(s.main, s.offices)) == Sum(g, cfg.fused, s.offices)
  {
    if s.main.Launch? && s.main.next < |s.offices| {
      var k := s.main.next;
      forall g ensures Sum(g, cfg.fused, MainOffices(s.main, s.offices)) == Sum(g, cfg.fused, s.offices) {
        SumUpdate(g, cfg.fused, s.offices, k, s.offices[k].(pc := WaitFull));
      }
    }
  }

  lemma MainKeepsPermits(cfg: Config, s: State)
    requires StartingInv(s) && PermitLaw(cfg, s) && MainEnabled(s)
    requires s.hall.popped + s.hall.queue == s.hall.pushed && (s.main.Wake? ==> s.main.next <= cfg.offices)
    ensures PermitLaw(cfg, MainStep(cfg, s))
  {
    LaunchKeepsSums(cfg, s);
  }

  lemma MainKeepsSlots(cfg: Config, s: State)
    requires StartingInv(s) && (!s.main.InitSync? ==> SlotLaw(cfg, s)) && MainEnabled(s)
    requires s.hall.popped + s.hall.queue == s.hall.pushed
    ensures SlotLaw(cfg, MainStep(cfg, s))
  {
    LaunchKeepsSums(cfg, s);
    if s.main.InitSync? {
      SumUniform(Slots, cfg.fused, s.offices, 0);
    }
  }

  lemma MainKeepsMutexes(cfg: Config, s: State)
    requires HallInv(cfg, s) && MainEnabled(s)
    ensures QueueMutexInv(MainStep(cfg, s)) && TallyMutexInv(MainStep(cfg, s))
  {
  }

  lemma MainKeepsPhases(cfg: Config, s: State)
    requires HallInv(cfg, s) && MainEnabled(s)
    ensures QuitsAreWoken(cfg, MainStep(cfg, s)) && StartingInv(MainStep(cfg, s))
  {
  }

  lemma MainKeepsHistory(s: State, cfg: Config)
    requires HallInv(cfg, s) && MainEnabled(s)
    ensures var hall := MainStep(cfg, s).hall; hall.popped + hall.queue == hall.pushed
  {
    if s.main.Push? {
      assert s.hall.popped + (s.hall.queue + [s.main.hand]) == s.hall.popped + s.hall.queue + [s.main.hand];
    }
  }

  lemma MainKeepsHall(cfg: Config, s: State)
    requires HallInv(cfg, s) && MainEnabled(s)
    ensures HallInv(cfg, MainStep(cfg, s))
  {
    LaunchKeepsSums(cfg, s);
    MainKeepsPermits(cfg, s);
    MainKeepsSlots(cfg, s);
    MainKeepsMutexes(cfg, s);
    MainKeepsPhases(cfg, s);
    MainKeepsHistory(s, cfg);
  }

  lemma UserKeepsHall(cfg: Config, s: State, u: nat)
    requires HallInv(cfg, s) && u < |s.users|
    ensures HallInv(cfg, UserStep(s, u))
  {
    var t := UserStep(s, u);
    assert t.main == s.main && t.offices == s.offices && t.hall == s.hall && t.tally == s.tally;
  }

  lemma StepKeepsHall(cfg: Config, s: State, actor: Actor)
    requires HallInv(cfg, s) && Enabled(s, actor)
    ensures HallInv(cfg, Step(cfg, s, actor))
  {
    match actor
    case MainActor => MainKeepsHall(cfg, s);
    case OfficeActor(i) => OfficeKeepsHall(cfg, s, i);
    case UserActor(u) => UserKeepsHall(cfg, s, u);
  }
}
