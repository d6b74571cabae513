/**
 States in which neither the offices nor the main thread can go on: why an office can be stuck, and
 that otherwise the server is either finished or at rest.
 */
module Deadlock {
  import opened Bank
  import opened Server
  import opened Gauges
  import opened HallSafety
  import opened Locks
  import opened Invariant

  /** Neither an office nor the main thread can take a step. */
  predicate Still(s: State) {
    !MainEnabled(s) && forall i :: 0 <= i < |s.offices| ==> !OfficeEnabled(s, i)
  }

  /**
   The office waits for an account mutex that a refused creation left locked, or that it holds itself
   (a transfer to the paying account).
   */
  predicate Cornered(s: State, i: nat) {
    && i < |s.offices| && s.offices[i].pc.Handle?
    && Awaits(s.offices[i]).Some?
    && var id := Awaits(s.offices[i]).value;
       id in s.vault.holder && (id in s.vault.leaked || s.vault.holder[id] == OfficeThread(i))
  }

  /** All users have gone, nothing is in flight, and every office waits for work that cannot come. */
  predicate WaitingForUsers(s: State) {
    && (s.main.OpenReader? || (s.main.Read? && s.pipe.dummy))
    && s.pipe.data == [] && s.hall.queue == [] && s.hall.full == 0
    && (forall u :: 0 <= u < |s.users| ==> s.users[u].Gone?)
    && (forall j :: 0 <= j < |s.offices| ==> s.offices[j].pc.WaitFull?)
  }

  /** Every office has left, every wake-up has been used, and the queue is empty. */
  predicate Finished(s: State) {
    && s.main.Done? && s.hall.queue == [] && s.hall.full == 0
    && (forall j :: 0 <= j < |s.offices| ==> s.offices[j].pc.Exited?)
  }

  /** The server waits for a user to open or to write, with nothing in flight. */
  predicate Resting(s: State) {
    && (s.main.OpenReader? || s.main.Read?)
    && s.pipe.data == [] && s.hall.queue == [] && s.hall.full == 0
    && (forall j :: 0 <= j < |s.offices| ==> s.offices[j].pc.WaitFull?)
  }

  // ----- Why nothing is enabled -----

  lemma StillOffice(s: State, i: nat)
    requires Still(s) && i < |s.offices|
    ensures !OfficeEnabled(s, i)
    ensures !InQueueSection(s.offices[i].pc) && !InTallySection(s.offices[i].pc)
  {
    assert !OfficeEnabled(s, i);
  }

  /** The queue mutex and the counter mutex are free: whoever holds one can always go on. */
  lemma ShortMutexesAreFree(cfg: Config, s: State)
    requires HallInv(cfg, s) && Still(s)
    ensures s.hall.mutex.Free? && s.tally.mutex.Free?
  {
    if s.hall.mutex.Taken? && s.hall.mutex.owner.OfficeThread? {
      StillOffice(s, s.hall.mutex.owner.index);
    }
    if s.tally.mutex.Taken? && s.tally.mutex.owner.OfficeThread? {
      StillOffice(s, s.tally.mutex.owner.index);
    }
  }

  /**
   Account mutexes are taken in descending order of identifier, so a chain of waiting offices goes
   down and must end: at one that is cornered.
   */
  lemma {:induction false} WaitChain(cfg: Config, s: State, i: nat, id: nat) returns (blocked: nat)
    requires Inv(cfg, s) && Still(s)
    requires i < |s.offices| && Awaits(s.offices[i]) == Some(id)
    ensures Cornered(s, blocked)
    decreases id
  {
    StillOffice(s, i);
    assert s.offices[i].pc.Handle?;
    if id in s.vault.leaked || s.vault.holder[id] == OfficeThread(i) {
      return i;
    }
    assert id in Live(s.vault);
    var j := s.vault.holder[id].index;
    assert Holds(s.offices[j], id);
    StillOffice(s, j);
    var lower := SecondLock(s.offices[j].req);
    assert Awaits(s.offices[j]) == Some(lower);
    if lower == id {
      assert s.vault.holder[lower] == OfficeThread(j);
      return j;
    }
    blocked := WaitChain(cfg, s, j, lower);
  }

  /** An office that cannot move waits for work, has left, or is in a chain of account mutexes. */
  lemma IdleOffice(cfg: Config, s: State, i: nat)
    requires Inv(cfg, s) && Still(s)
    requires i < |s.offices|
    requires forall j: nat :: !Cornered(s, j)
    ensures (s.offices[i].pc.WaitFull? && s.hall.full == 0) || s.offices[i].pc.Exited? || s.offices[i].pc.Unborn?
  {
    StillOffice(s, i);
    ShortMutexesAreFree(cfg, s);
    if Awaits(s.offices[i]).Some? {
      var blocked := WaitChain(cfg, s, i, Awaits(s.offices[i]).value);
      assert false;
    }
  }

  /** With no office cornered, the offices that have not left are all waiting, and none holds a permit. */
  lemma IdleOffices(cfg: Config, s: State)
    requires ValidConfig(cfg) && Inv(cfg, s) && Still(s)
    requires forall j: nat :: !Cornered(s, j)
    requires !s.main.InitSync? && !s.main.Launch?
    ensures forall j :: 0 <= j < |s.offices| ==>
      (s.offices[j].pc.WaitFull? && s.hall.full == 0) || s.offices[j].pc.Exited?
    ensures Sum(Permits, cfg.fused, s.offices) == 0 && Sum(Slots, cfg.fused, s.offices) == 0
  {
    forall j | 0 <= j < |s.offices|
      ensures (s.offices[j].pc.WaitFull? && s.hall.full == 0) || s.offices[j].pc.Exited?
    {
      IdleOffice(cfg, s, j);
    }
    SumUniform(Permits, cfg.fused, s.offices, 0);
    SumUniform(Slots, cfg.fused, s.offices, 0);
  }

  lemma AdminLockIsFree(cfg: Config, s: State)
    requires Inv(cfg, s) && s.main.AdminLock?
    ensures ADMIN_ACCOUNT_ID !in s.vault.holder
  {
    var live := Live(s.vault);
    assert s.vault.leaked == {} && live == s.vault.holder;
    assert forall j :: 0 <= j < |s.offices| ==> !s.offices[j].pc.Handle?;
    assert forall j :: 0 <= j < |s.offices| ==> !Holds(s.offices[j], ADMIN_ACCOUNT_ID);
  }

  lemma NotStarved(cfg: Config, s: State)
    requires ValidConfig(cfg) && Inv(cfg, s) && Still(s)
    requires forall j: nat :: !Cornered(s, j)
    ensures !s.main.WaitEmpty? && !s.main.Join?
  {
    if s.main.WaitEmpty? || s.main.Join? {
      IdleOffices(cfg, s);
      if s.main.WaitEmpty? {
        SumUniform(Exits, cfg.fused, s.offices, 0);
      } else {
        SumFull(Exits, cfg.fused, s.offices);
      }
    }
  }

  lemma DoneIsFinished(cfg: Config, s: State)
    requires ValidConfig(cfg) && Inv(cfg, s) && s.main.Done?
    ensures Finished(s)
  {
    SumUniform(Permits, cfg.fused, s.offices, 0);
    SumUniform(Exits, cfg.fused, s.offices, 1);
    assert s.offices[0].pc.Exited?;
  }

  lemma StoppedIsResting(cfg: Config, s: State)
    requires ValidConfig(cfg) && Inv(cfg, s) && Still(s)
    requires forall j: nat :: !Cornered(s, j)
    requires s.main.Read? || s.main.OpenReader?
    ensures Resting(s)
  {
    IdleOffices(cfg, s);
    SumUniform(Exits, cfg.fused, s.offices, 0);
    assert s.offices[0].pc.WaitFull?;
  }

  /** Every other step of the main thread is always possible in the end. */
  lemma StoppedOrDone(cfg: Config, s: State)
    requires ValidConfig(cfg) && Inv(cfg, s) && Still(s)
    requires forall j: nat :: !Cornered(s, j)
    ensures s.main.Read? || s.main.OpenReader? || s.main.Done?
  {
    NotStarved(cfg, s);
    ShortMutexesAreFree(cfg, s);
    if s.main.AdminLock? { AdminLockIsFree(cfg, s); }
  }

  /** With no office cornered, a still server has finished, or rests. */
  lemma StillMeansOver(cfg: Config, s: State)
    requires ValidConfig(cfg) && Inv(cfg, s) && Still(s)
    requires forall j: nat :: !Cornered(s, j)
    ensures Finished(s) || Resting(s)
  {
    StoppedOrDone(cfg, s);
    if s.main.Done? { DoneIsFinished(cfg, s); } else { StoppedIsResting(cfg, s); }
  }
}
