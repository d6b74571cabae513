/**
 Start-up and shutdown: what is initialised before any office touches it, what keeps the request
 FIFO from end-of-file, and what an end-of-file implies.
 */
module Lifecycle {
  import opened Bank
  import opened Server
  import opened HallSafety
  import opened Books

  /** The producer has ended its loop. */
  predicate Ended(main: MainPc) {
    main.CloseFifo? || main.Wake? || main.Join? || main.Done?
  }

  /** The main thread is past opening its own writing end of the request FIFO. */
  predicate Serving(main: MainPc) {
    !Starting(main)
  }

  predicate PipeInv(s: State) {
    var pipe := s.pipe;
    && (pipe.reader <==> s.main.OpenDummy? || s.main.CloseFifo? || (Serving(s.main) && !Ended(s.main)))
    && (pipe.made <==> s.main.OpenReader? || pipe.reader)
    && (pipe.dummy ==> Serving(s.main))
    && (s.vault.shutdown ==> Serving(s.main))
    && (pipe.data != [] ==> pipe.reader)
    && (Serving(s.main) && !pipe.dummy ==> s.vault.shutdown && !pipe.writable)
    && (Ended(s.main) ==> !pipe.dummy && pipe.data == [] && forall u :: 0 <= u < |s.users| ==> !HasWriter(s.users[u]))
  }

  /** How far an office that handles a shutdown has got, and that only a shutdown lets an office leave. */
  predicate ShuttingInv(s: State) {
    forall j :: 0 <= j < |s.offices| ==>
      match s.offices[j].pc
      case Handle(ChangeMode) => s.vault.shutdown
      case Handle(CloseDummy) => s.vault.shutdown && !s.pipe.writable
      case Handle(CountActive) => s.vault.shutdown && !s.pipe.dummy
      case UnlockQuit => s.vault.shutdown
      case Exited => s.vault.shutdown
      case _ => true
  }

  /** A shutdown that has begun and not yet closed the dummy writer is in some office's hands. */
  predicate Closer(office: Office) {
    office.pc == Handle(ChangeMode) || office.pc == Handle(CloseDummy)
  }

  predicate CloserInv(s: State) {
    Serving(s.main) && s.vault.shutdown && s.pipe.dummy ==>
      exists j :: 0 <= j < |s.offices| && Closer(s.offices[j])
  }

  /** Offices are joined in order, and the queue is empty once an office has found it so after the last push. */
  predicate LeavingInv(s: State) {
    && (forall j :: 0 <= j < |s.offices| && (s.offices[j].pc.UnlockQuit? || s.offices[j].pc.Exited?) ==>
          s.hall.queue == [])
    && (s.main.Join? ==> forall j :: 0 <= j < |s.offices| && j < s.main.next ==> s.offices[j].pc.Exited?)
    && (s.main.Done? ==> forall j :: 0 <= j < |s.offices| ==> s.offices[j].pc.Exited?)
  }

  predicate ReadyInv(s: State) {
    && (s.vault.ready <==> !s.main.InitSync? && !s.main.Launch? && !s.main.InitAccounts?)
    && (s.hall.ready <==> s.main.MakeFifo? || s.main.OpenReader? || s.main.OpenDummy? || Serving(s.main))
  }

  predicate LifeInv(s: State) {
    PipeInv(s) && ShuttingInv(s) && ReadyInv(s) && CloserInv(s) && LeavingInv(s)
  }

  lemma InitialLife(cfg: Config, requests: seq<Request>)
    ensures LifeInv(Initial(cfg, requests))
  {
  }

  lemma OfficeKeepsLife(cfg: Config, s: State, i: nat)
    requires HallInv(cfg, s) && LifeInv(s)
    requires i < |s.offices| && OfficeEnabled(s, i)
    ensures LifeInv(OfficeStep(cfg, s, i))
  {
    var t := OfficeStep(cfg, s, i);
    assert t.main == s.main && t.users == s.users && t.hall.ready == s.hall.ready && t.vault.ready == s.vault.ready;
    assert s.offices[i].pc.Handle? ==> Serving(s.main);
    OfficeKeepsShutting(cfg, s, i);
    OfficeKeepsCloser(cfg, s, i);
    OfficeKeepsLeaving(cfg, s, i);
  }

  lemma OfficeKeepsCloser(cfg: Config, s: State, i: nat)
    requires CloserInv(s)
    requires i < |s.offices|
    ensures CloserInv(OfficeStep(cfg, s, i))
  {
    var office, t := s.offices[i], OfficeStep(cfg, s, i);
    if office.pc == Handle(SetShutdown) {
      assert Closer(t.offices[i]);
    } else if Serving(s.main) && s.vault.shutdown && s.pipe.dummy {
      var j :| 0 <= j < |s.offices| && Closer(s.offices[j]);
      assert j == i || t.offices[j] == s.offices[j];
      assert office.pc == Handle(ChangeMode) ==> Closer(t.offices[i]);
    }
  }

  lemma OfficeKeepsLeaving(cfg: Config, s: State, i: nat)
    requires LeavingInv(s)
    requires i < |s.offices| && OfficeEnabled(s, i)
    ensures LeavingInv(OfficeStep(cfg, s, i))
  {
    var t := OfficeStep(cfg, s, i);
    assert s.hall.queue == [] ==> t.hall.queue == [];
  }

  lemma OfficeKeepsShutting(cfg: Config, s: State, i: nat)
    requires ShuttingInv(s)
    requires i < |s.offices| && OfficeEnabled(s, i)
    ensures ShuttingInv(OfficeStep(cfg, s, i))
  {
    var office, t := s.offices[i], OfficeStep(cfg, s, i);
    assert s.vault.shutdown ==> t.vault.shutdown;
    assert t.pipe.writable ==> s.pipe.writable;
  }

  lemma MainKeepsPipe(cfg: Config, s: State)
    requires PipeInv(s) && MainEnabled(s)
    ensures PipeInv(MainStep(cfg, s))
  {
  }

  lemma MainKeepsOffices(cfg: Config, s: State)
    requires HallInv(cfg, s) && LifeInv(s) && MainEnabled(s)
    ensures ShuttingInv(MainStep(cfg, s)) && CloserInv(MainStep(cfg, s)) && LeavingInv(MainStep(cfg, s))
  {
    var t := MainStep(cfg, s);
    if s.main.Launch? {
      assert forall j :: 0 <= j < |s.offices| ==> s.offices[j].pc.Unborn? || s.offices[j].pc.WaitFull?;
    } else {
      assert t.offices == s.offices && t.vault.shutdown == s.vault.shutdown;
    }
  }

  lemma MainKeepsLife(cfg: Config, s: State)
    requires HallInv(cfg, s) && LifeInv(s) && MainEnabled(s)
    ensures LifeInv(MainStep(cfg, s))
  {
    MainKeepsPipe(cfg, s);
    MainKeepsOffices(cfg, s);
  }

  lemma UserKeepsLife(s: State, u: nat)
    requires LifeInv(s) && u < |s.users| && UserEnabled(s, u)
    ensures LifeInv(UserStep(s, u))
  {
    var t := UserStep(s, u);
    assert t.main == s.main && t.offices == s.offices && t.hall == s.hall && t.vault == s.vault;
  }

  lemma StepKeepsLife(cfg: Config, s: State, actor: Actor)
    requires HallInv(cfg, s) && LifeInv(s) && Enabled(s, actor)
    ensures LifeInv(Step(cfg, s, actor))
  {
    match actor
    case MainActor => MainKeepsLife(cfg, s);
    case OfficeActor(i) => OfficeKeepsLife(cfg, s, i);
    case UserActor(u) => UserKeepsLife(s, u);
  }

  // ----- The administrator and the shutdown flag, read off the log -----

  /** A shutdown request that the header check lets through whatever else the bank holds. */
  predicate AuthorisedShutdown(cfg: Config, req: Request) {
    && req.op.Shutdown? && req.account == ADMIN_ACCOUNT_ID
    && PasswordIsCorrect(cfg.sha, AdminAccount(cfg), req.password)
  }

  /** No sequence of requests changes the administrator's account. */
  lemma {:induction false} AdminIsFixed(cfg: Config, log: seq<Entry>)
    ensures
      var accounts := Replay(cfg, log).accounts;
      && ADMIN_ACCOUNT_ID in accounts
      && accounts[ADMIN_ACCOUNT_ID] == Account(cfg.adminSalt, cfg.sha(cfg.adminPassword + cfg.adminSalt), 0)
  {
    if log != [] {
      AdminIsFixed(cfg, log[..|log| - 1]);
    }
  }

  /** The shutdown flag is up exactly when an authorised shutdown is in the log. */
  lemma {:induction false} ShutdownIsAuthorised(cfg: Config, log: seq<Entry>)
    ensures Replay(cfg, log).shutdown <==> exists k :: 0 <= k < |log| && AuthorisedShutdown(cfg, log[k].req)
  {
    if log != [] {
      var last := |log| - 1;
      var rest := log[..last];
      ShutdownIsAuthorised(cfg, rest);
      AdminIsFixed(cfg, rest);
      assert forall k :: 0 <= k < last ==> rest[k] == log[k];
      if exists k :: 0 <= k < |rest| && AuthorisedShutdown(cfg, rest[k].req) {
        var k :| 0 <= k < |rest| && AuthorisedShutdown(cfg, rest[k].req);
        assert AuthorisedShutdown(cfg, log[k].req);
      }
    }
  }
}
