/**
 From user processes to the queue: every request that a user has written is in the FIFO, in the
 producer's hands or in the queue, in the order of the writes, and nothing else is.
 */
module Users {
  import opened Bank
  import opened Server
  import opened Tickets
  import opened Invariant

  /** The user has written its request. */
  predicate Sent(user: User) {
    user.Written? || (user.Gone? && user.sent)
  }

  /** What the producer has read and not pushed. */
  function InHand(main: MainPc): seq<Request> {
    if main.WaitEmpty? || main.LockPush? || main.Push? then [main.hand] else []
  }

  /** The writes are those of the users that have sent their requests, one each. */
  predicate WritersInv(requests: seq<Request>, s: State) {
    var written, writers := s.pipe.written, s.pipe.writers;
    && |s.users| == |requests| && |writers| == |written|
    && (forall u :: 0 <= u < |requests| ==> s.users[u].req == requests[u])
    && (forall k :: 0 <= k < |writers| ==> writers[k] < |requests| && written[k] == requests[writers[k]])
    && (forall k, l :: 0 <= k < l < |writers| ==> writers[k] != writers[l])
    && (forall u :: 0 <= u < |requests| ==> (Sent(s.users[u]) <==> u in writers))
  }

  /** No message is lost, made up or reordered between the users' writes and the queue. */
  predicate NothingLeaks(s: State) {
    s.pipe.written == s.hall.pushed + InHand(s.main) + s.pipe.data
  }

  predicate UsersInv(requests: seq<Request>, s: State) {
    WritersInv(requests, s) && NothingLeaks(s)
  }

  lemma WriteKeepsWriters(requests: seq<Request>, s: State, u: nat)
    requires WritersInv(requests, s) && u < |s.users| && s.users[u].Open?
    ensures WritersInv(requests, UserStep(s, u))
  {
    var t := UserStep(s, u);
    assert t.pipe.writers == s.pipe.writers + [u] && u !in s.pipe.writers;
    assert t.pipe.written == s.pipe.written + [requests[u]];
    forall v | 0 <= v < |requests| ensures Sent(t.users[v]) <==> v in t.pipe.writers {
      assert v in t.pipe.writers <==> v in s.pipe.writers || v == u;
    }
  }

  lemma UserKeepsWriters(requests: seq<Request>, s: State, u: nat)
    requires WritersInv(requests, s) && u < |s.users|
    ensures WritersInv(requests, UserStep(s, u))
  {
    if s.users[u].Open? {
      WriteKeepsWriters(requests, s, u);
    } else {
      var t := UserStep(s, u);
      assert t.pipe == s.pipe && t.users == s.users[u := t.users[u]];
    }
  }

  lemma UserLeaksNothing(s: State, u: nat)
    requires NothingLeaks(s) && u < |s.users|
    ensures NothingLeaks(UserStep(s, u))
  {
    var t := UserStep(s, u);
    assert t.hall == s.hall && t.main == s.main;
    if s.users[u].Open? {
      assert t.pipe.written == s.hall.pushed + InHand(s.main) + (s.pipe.data + [s.users[u].req]);
    }
  }

  lemma MainLeaksNothing(cfg: Config, s: State)
    requires NothingLeaks(s)
    ensures NothingLeaks(MainStep(cfg, s))
  {
    if s.main.Read? && s.pipe.data != [] {
      assert s.pipe.data == [s.pipe.data[0]] + s.pipe.data[1..];
    } else if s.main.Push? {
      assert s.hall.pushed + [s.main.hand] + s.pipe.data == s.hall.pushed + [s.main.hand] + [] + s.pipe.data;
    } else {
      OtherMainSteps(cfg, s);
    }
  }

  lemma OtherMainSteps(cfg: Config, s: State)
    requires !s.main.Push? && (s.main.Read? ==> s.pipe.data == [])
    ensures
      var t := MainStep(cfg, s);
      && t.hall.pushed == s.hall.pushed && t.pipe.data == s.pipe.data && InHand(t.main) == InHand(s.main)
      && t.pipe.written == s.pipe.written
  {
  }

  lemma StepKeepsUsers(cfg: Config, requests: seq<Request>, s: State, actor: Actor)
    requires UsersInv(requests, s) && Enabled(s, actor)
    ensures UsersInv(requests, Step(cfg, s, actor))
  {
    var t := Step(cfg, s, actor);
    match actor
    case MainActor =>
      assert t.users == s.users && t.pipe.written == s.pipe.written && t.pipe.writers == s.pipe.writers;
      MainLeaksNothing(cfg, s);
    case OfficeActor(i) =>
      assert t.users == s.users && t.main == s.main && t.hall.pushed == s.hall.pushed;
      assert t.pipe.data == s.pipe.data && t.pipe.written == s.pipe.written && t.pipe.writers == s.pipe.writers;
    case UserActor(u) =>
      UserKeepsWriters(requests, s, u);
      UserLeaksNothing(s, u);
  }

  lemma {:induction false} RunKeepsUsers(cfg: Config, requests: seq<Request>, s: State, schedule: seq<Actor>, t: State)
    requires UsersInv(requests, s) && Runs(cfg, s, schedule, t)
    ensures UsersInv(requests, t)
    decreases |schedule|
  {
    if schedule != [] {
      StepKeepsUsers(cfg, requests, s, schedule[0]);
      RunKeepsUsers(cfg, requests, Step(cfg, s, schedule[0]), schedule[1..], t);
    }
  }

  /** In every reachable state the requests written are exactly those of the users that have sent, and none is lost. */
  lemma WrittenAreUsers(cfg: Config, requests: seq<Request>, t: State)
    requires Reachable(cfg, requests, t)
    ensures UsersInv(requests, t)
  {
    var schedule :| Runs(cfg, Initial(cfg, requests), schedule, t);
    RunKeepsUsers(cfg, requests, Initial(cfg, requests), schedule, t);
  }

  /** Each pushed request is that of a user of its own. */
  lemma PushedAreUsers(requests: seq<Request>, s: State, k: nat)
    requires UsersInv(requests, s) && k < |s.hall.pushed|
    ensures k < |s.pipe.written| && s.hall.pushed[k] == s.pipe.written[k] == requests[s.pipe.writers[k]]
    ensures s.hall.pushed[k] in requests
  {
  }

  // ----- Users that wait, and users that give up -----

  /** The request that user `u` wrote has been answered. */
  predicate HasReply(s: State, u: nat) {
    exists k :: 0 <= k < |s.pipe.writers| && s.pipe.writers[k] == u && Answered(s.vault.answers, k)
  }

  /** A user that leaves without its reply: its alarm went off, or a signal ended it. */
  predicate GivesUp(s: State, actor: Actor) {
    actor.UserActor? && actor.u < |s.users| && s.users[actor.u].Written? && !HasReply(s, actor.u)
  }

  predicate MayAct(quitters: set<nat>, s: State, actor: Actor) {
    Enabled(s, actor) && (GivesUp(s, actor) ==> actor.u in quitters)
  }

  /** A run in which only users among `quitters` give up. */
  predicate RunsWithin(cfg: Config, quitters: set<nat>, s: State, schedule: seq<Actor>, t: State)
    decreases |schedule|
  {
    if schedule == [] then s == t
    else
      && MayAct(quitters, s, schedule[0])
      && RunsWithin(cfg, quitters, Step(cfg, s, schedule[0]), schedule[1..], t)
  }

  ghost predicate ReachableWithin(cfg: Config, quitters: set<nat>, requests: seq<Request>, t: State) {
    exists schedule :: RunsWithin(cfg, quitters, Initial(cfg, requests), schedule, t)
  }

  function AllUsers(n: nat): (users: set<nat>)
    ensures forall u :: u in users <==> 0 <= u < n
  {
    if n == 0 then {} else AllUsers(n - 1) + {n - 1}
  }

  /** A user that has left and is not among the quitters has its reply. */
  predicate PatienceInv(quitters: set<nat>, s: State) {
    forall u :: 0 <= u < |s.users| && s.users[u].Gone? && s.users[u].sent && u !in quitters ==> HasReply(s, u)
  }

  lemma {:induction false} RunsWithinRuns(cfg: Config, quitters: set<nat>, s: State, schedule: seq<Actor>, t: State)
    requires RunsWithin(cfg, quitters, s, schedule, t)
    ensures Runs(cfg, s, schedule, t)
    decreases |schedule|
  {
    if schedule != [] {
      RunsWithinRuns(cfg, quitters, Step(cfg, s, schedule[0]), schedule[1..], t);
    }
  }

  lemma {:induction false} RunsAreWithinAll(cfg: Config, requests: seq<Request>, s: State, schedule: seq<Actor>,
                                            t: State)
    requires Runs(cfg, s, schedule, t) && |s.users| == |requests|
    ensures RunsWithin(cfg, AllUsers(|requests|), s, schedule, t)
    decreases |schedule|
  {
    if schedule != [] {
      assert |Step(cfg, s, schedule[0]).users| == |s.users|;
      RunsAreWithinAll(cfg, requests, Step(cfg, s, schedule[0]), schedule[1..], t);
    }
  }

  lemma {:induction false} RunsWithinAppend(cfg: Config, quitters: set<nat>, s: State, schedule: seq<Actor>, m: State,
                                            actor: Actor)
    requires RunsWithin(cfg, quitters, s, schedule, m) && MayAct(quitters, m, actor)
    ensures RunsWithin(cfg, quitters, s, schedule + [actor], Step(cfg, m, actor))
    decreases |schedule|
  {
    if schedule == [] {
      assert (schedule + [actor])[1..] == [];
    } else {
      RunsWithinAppend(cfg, quitters, Step(cfg, s, schedule[0]), schedule[1..], m, actor);
      assert (schedule + [actor])[1..] == schedule[1..] + [actor];
    }
  }

  lemma StaysReachableWithin(cfg: Config, quitters: set<nat>, requests: seq<Request>, s: State, actor: Actor)
    requires ReachableWithin(cfg, quitters, requests, s) && MayAct(quitters, s, actor)
    ensures ReachableWithin(cfg, quitters, requests, Step(cfg, s, actor))
  {
    var schedule :| RunsWithin(cfg, quitters, Initial(cfg, requests), schedule, s);
    RunsWithinAppend(cfg, quitters, Initial(cfg, requests), schedule, s, actor);
    assert RunsWithin(cfg, quitters, Initial(cfg, requests), schedule + [actor], Step(cfg, s, actor));
  }

  lemma ReplyStays(cfg: Config, s: State, actor: Actor, u: nat)
    requires HasReply(s, u) && Enabled(s, actor)
    ensures HasReply(Step(cfg, s, actor), u)
  {
    var t := Step(cfg, s, actor);
    var k :| 0 <= k < |s.pipe.writers| && s.pipe.writers[k] == u && Answered(s.vault.answers, k);
    AnswersOnlyGrow(cfg, s, actor);
    var a :| 0 <= a < |s.vault.answers| && s.vault.answers[a].ticket == k;
    assert t.vault.answers[a].ticket == k && t.pipe.writers[k] == u;
  }

  lemma AnswersOnlyGrow(cfg: Config, s: State, actor: Actor)
    requires Enabled(s, actor)
    ensures s.vault.answers <= Step(cfg, s, actor).vault.answers && s.pipe.writers <= Step(cfg, s, actor).pipe.writers
  {
  }

  lemma StepKeepsPatience(cfg: Config, quitters: set<nat>, s: State, actor: Actor)
    requires PatienceInv(quitters, s) && MayAct(quitters, s, actor)
    ensures PatienceInv(quitters, Step(cfg, s, actor))
  {
    var t := Step(cfg, s, actor);
    forall u | 0 <= u < |t.users| && t.users[u].Gone? && t.users[u].sent && u !in quitters ensures HasReply(t, u) {
      LeaversHaveReplies(cfg, quitters, s, actor, u);
      ReplyStays(cfg, s, actor, u);
    }
  }

  lemma LeaversHaveReplies(cfg: Config, quitters: set<nat>, s: State, actor: Actor, u: nat)
    requires PatienceInv(quitters, s) && MayAct(quitters, s, actor)
    requires
      var users := Step(cfg, s, actor).users;
      u < |users| && users[u].Gone? && users[u].sent && u !in quitters
    ensures HasReply(s, u)
  {
    if actor.UserActor? {
      assert s.users[u].Written? || (s.users[u].Gone? && s.users[u].sent);
    } else {
      assert Step(cfg, s, actor).users == s.users;
    }
  }

  lemma {:induction false} RunKeepsPatience(cfg: Config, quitters: set<nat>, s: State, schedule: seq<Actor>, t: State)
    requires PatienceInv(quitters, s) && RunsWithin(cfg, quitters, s, schedule, t)
    ensures PatienceInv(quitters, t)
    decreases |schedule|
  {
    if schedule != [] {
      StepKeepsPatience(cfg, quitters, s, schedule[0]);
      RunKeepsPatience(cfg, quitters, Step(cfg, s, schedule[0]), schedule[1..], t);
    }
  }

  lemma LeaversWereAnswered(cfg: Config, quitters: set<nat>, requests: seq<Request>, t: State)
    requires ReachableWithin(cfg, quitters, requests, t)
    ensures Reachable(cfg, requests, t) && PatienceInv(quitters, t)
  {
    var schedule :| RunsWithin(cfg, quitters, Initial(cfg, requests), schedule, t);
    RunsWithinRuns(cfg, quitters, Initial(cfg, requests), schedule, t);
    RunKeepsPatience(cfg, quitters, Initial(cfg, requests), schedule, t);
  }
}
