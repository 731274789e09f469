/**
 Theorems about every run of the loop: any number of events, any callbacks, any nesting.
 */
module Runs {
  import opened Wrappers
  import opened EventLoop
  import opened Invariants
  import opened Steps

  /** Every state that a run reaches satisfies the invariant. */
  lemma {:induction false} RunKeepsInv(s: LoopState, acts: seq<Action>)
    requires Inv(s) && Exec(s, acts).Some?
    ensures Inv(Exec(s, acts).value)
  {
    hide Inv;
    if acts != [] {
      var before := acts[..|acts| - 1];
      RunKeepsInv(s, before);
      StepKeepsInv(Exec(s, before).value, acts[|acts| - 1]);
    }
  }

  /** Some run of some fresh loop leads here. */
  ghost predicate Reachable(s: LoopState) {
    exists signals: nat, sigchld: nat, now: Instant, acts: seq<Action> ::
      Exec(Start(s.policy, signals, sigchld, now), acts) == Some(s)
  }

  lemma ReachableInv(s: LoopState)
    requires Reachable(s)
    ensures Inv(s)
  {
    hide Inv, Exec;
    var signals: nat, sigchld: nat, now: Instant, acts: seq<Action> :|
      Exec(Start(s.policy, signals, sigchld, now), acts) == Some(s);
    InvStart(s.policy, signals, sigchld, now);
    RunKeepsInv(Start(s.policy, signals, sigchld, now), acts);
  }

  lemma {:induction false} ExecSplit(s: LoopState, acts: seq<Action>, n: nat)
    requires n <= |acts|
    ensures Exec(s, acts).Some? ==>
              Exec(s, acts[..n]).Some? && Exec(Exec(s, acts[..n]).value, acts[n..]) == Exec(s, acts)
  {
    hide Step, Apply;
    if n == |acts| {
      assert acts[..n] == acts && acts[n..] == [];
    } else {
      var m := |acts| - 1;
      ExecSplit(s, acts[..m], n);
      assert acts[..m][..n] == acts[..n];
      assert acts[..m][n..] == acts[n..][..m - n];
    }
  }

  // ----- No assertion of the source fails -----

  lemma OwnedAreStored(s: LoopState)
    requires IoOk(s)
    ensures forall h, k | Alive(s.events, h) && k in s.events[h.id].ios :: k in s.ios
  {
    forall h, k | Alive(s.events, h) && k in s.events[h.id].ios ensures k in s.ios {
      assert Owns(s.events, h, k);
    }
  }

  lemma PopCounts(s: LoopState)
    requires TimersOk(s) && s.scheduled != []
    ensures var t := s.scheduled[0];
            t.param.Timeout? && Alive(s.events, t.recipient) ==> s.events[t.recipient.id].timeouts >= 1
  {
    var t := s.scheduled[0];
    if t.param.Timeout? && Alive(s.events, t.recipient) {
      assert At(s.events, t.recipient.id) == t.recipient;
      assert HolderOf(t) in TimersOf(Outstanding(s), t.recipient);
    }
  }

  /**
   With the intended, deferred release the loop fails one of the modelled assertions (or underflows a
   counter) exactly when a callback watches a child that is already watched.
   */
  lemma OnlyDoubleChildPanics(s: LoopState, a: Action)
    requires Inv(s) && s.policy.Deferred? && Can(s, a)
    ensures Asserts(s, a) <==> !(a.WatchChild? && a.pid in s.children)
  {
    AssertsHold(s, a);
    OwnedAreStored(s);
  }

  /** Whatever `io_remove` does, no other assertion fails. */
  lemma AssertsHold(s: LoopState, a: Action)
    requires Inv(s) && Can(s, a)
    ensures a.WatchChild? && a.pid in s.children ==> !Asserts(s, a)
    ensures a.WatchChild? && a.pid !in s.children ==> Asserts(s, a)
    ensures !a.WatchChild? && !a.Drain? && !a.Ready? && (a.IoRemove? ==> s.policy.Deferred?) ==> Asserts(s, a)
  {
    if s.stack != [] { TopAlive(s); }
    if a.Pop? { PopCounts(s); }
    if a.Cleanup? { StatsExact(s); }
  }

  ghost predicate Queues(a: Action) {
    a.Receive? || a.Broadcast? || a.Ready? || a.Due? || a.PickIdle?
  }

  // What the steps without a callback leave alone

  ghost predicate OnlyQueued(s: LoopState, s': LoopState) {
    s' == s.(scheduled := s'.scheduled, pushed := s'.pushed, timeouts := s'.timeouts, wantIdle := s'.wantIdle,
             inbox := s'.inbox)
  }

  ghost predicate OnlyTimers(s: LoopState, s': LoopState) {
    s' == s.(timeouts := s'.timeouts, timeoutsDead := s'.timeoutsDead, timeoutsFired := s'.timeoutsFired,
             timeoutsInserted := s'.timeoutsInserted, now := s'.now, dropped := s'.dropped, spent := s'.spent)
  }

  ghost predicate OnlyConfigured(s: LoopState, s': LoopState) {
    s' == s.(scheduled := s'.scheduled, pushed := s'.pushed, active := s'.active, pending := s'.pending,
             enabled := s'.enabled, recipients := s'.recipients, wantIdle := s'.wantIdle, inbox := s'.inbox)
  }

  lemma QueueFrame(s: LoopState, a: Action)
    requires Step(s, a) && Queues(a)
    ensures OnlyQueued(s, Apply(s, a))
  {
    hide Step, Apply, OnlyQueued;
    if a.Receive? || a.Broadcast? || a.Ready? { TaskFrame(s, a); } else { OwnFrame(s, a); }
  }

  lemma TaskFrame(s: LoopState, a: Action)
    requires Step(s, a) && (a.Receive? || a.Broadcast? || a.Ready?)
    ensures OnlyQueued(s, Apply(s, a))
  {}

  lemma OwnFrame(s: LoopState, a: Action)
    requires Step(s, a) && (a.Due? || a.PickIdle?)
    ensures OnlyQueued(s, Apply(s, a))
  {}

  lemma TimerFrame(s: LoopState, a: Action)
    requires Step(s, a) && (a.DropDead? || a.Tick? || a.Cleanup?)
    ensures OnlyTimers(s, Apply(s, a))
  {}

  lemma ConfigFrame(s: LoopState, a: Action)
    requires Step(s, a) && Config(a)
    ensures OnlyConfigured(s, Apply(s, a))
  {
    hide Step, Apply, OnlyConfigured;
    if a.PostTo? || a.SendTo? || a.SetActive? { AskedFrame(s, a); } else { ScopeFrame(s, a); }
  }

  lemma AskedFrame(s: LoopState, a: Action)
    requires Step(s, a) && (a.PostTo? || a.SendTo? || a.SetActive?)
    ensures OnlyConfigured(s, Apply(s, a))
  {}

  lemma ScopeFrame(s: LoopState, a: Action)
    requires Step(s, a) && (a.EnableSignal? || a.AskIdle? || a.WatchSignal? || a.Arrive?)
    ensures OnlyConfigured(s, Apply(s, a))
  {}

  lemma DrainFrame(s: LoopState)
    requires Step(s, Drain)
    ensures Apply(s, Drain) == s.(ios := s.ios - s.iosReleased, iosReleased := {})
  {}

  // What calls and the requests of a scope leave alone

  ghost predicate OnlyCalled(s: LoopState, s': LoopState) {
    s' == s.(scheduled := s'.scheduled, events := s'.events, generation := s'.generation, stack := s'.stack,
             timeoutsFired := s'.timeoutsFired, spent := s'.spent, dropped := s'.dropped, log := s'.log,
             pending := s'.pending)
  }

  ghost predicate OnlyScoped(s: LoopState, s': LoopState) {
    s' == s.(events := s'.events, timeouts := s'.timeouts, timeoutGeneration := s'.timeoutGeneration,
             timeoutsInserted := s'.timeoutsInserted, ios := s'.ios, iosReleased := s'.iosReleased,
             registrations := s'.registrations, enabled := s'.enabled, children := s'.children)
  }

  ghost predicate OnlyReaped(s: LoopState, s': LoopState) {
    s' == s.(events := s'.events, children := s'.children, scheduled := s'.scheduled, pushed := s'.pushed)
  }

  lemma CallFrame(s: LoopState, a: Action)
    requires Step(s, a) && (a.Pop? || a.Enter? || a.Insert?)
    ensures OnlyCalled(s, Apply(s, a))
    ensures a.Pop? || Apply(s, a).scheduled == s.scheduled
    ensures a.Enter? || Apply(s, a).stack == s.stack
    ensures a.Insert? || Apply(s, a).generation == s.generation
  {
    hide Step, Apply, OnlyCalled;
    if a.Pop? { PopFrame(s); } else { EnterFrame(s, a); }
  }

  lemma PopFrame(s: LoopState)
    requires Step(s, Pop)
    ensures OnlyCalled(s, Apply(s, Pop))
    ensures Apply(s, Pop).stack == s.stack && Apply(s, Pop).generation == s.generation
    ensures s.scheduled != [] && Apply(s, Pop).scheduled == s.scheduled[1..]
  {}

  lemma EnterFrame(s: LoopState, a: Action)
    requires Step(s, a) && (a.Enter? || a.Insert?)
    ensures OnlyCalled(s, Apply(s, a)) && Apply(s, a).scheduled == s.scheduled
    ensures a.Enter? || Apply(s, a).stack == s.stack
    ensures a.Insert? || Apply(s, a).generation == s.generation
  {}

  lemma OwnScopeFrame(s: LoopState, a: Action)
    requires Step(s, a) && (a.TimeoutAt? || a.Expect? || a.IoRegister? || a.IoRemove? || a.WatchChild?)
    ensures OnlyScoped(s, Apply(s, a))
    ensures a.WatchChild? || (Apply(s, a).enabled == s.enabled && Apply(s, a).children == s.children)
  {}

  lemma ReapFrame(s: LoopState, a: Action)
    requires Step(s, a) && a.Reap?
    ensures OnlyReaped(s, Apply(s, a))
  {}

  // ----- What only grows -----

  /** The loop has handed out the generation of this handle. */
  ghost predicate Known(s: LoopState, h: Handle) {
    h.generation < s.generation
  }

  /** What a later state of the same loop has in common with an earlier one. */
  ghost predicate Later(s: LoopState, s': LoopState) {
    && s'.policy == s.policy
    && s.generation <= s'.generation
    && s.registrations <= s'.registrations
    && s.now <= s'.now
    && s.spent <= s'.spent
    && s.pushed <= s'.pushed
    && s.log <= s'.log
    && (forall h | Known(s, h) && Alive(s'.events, h) ::
          Alive(s.events, h) && s.events[h.id].expected <= s'.events[h.id].expected)
  }

  lemma LaterScope(s: LoopState, a: Action)
    requires Step(s, a)
    requires a.TimeoutAt? || a.Expect? || a.IoRegister? || a.IoRemove? || a.WatchChild?
    ensures Later(s, Apply(s, a))
  {}

  lemma LaterPop(s: LoopState)
    requires s.scheduled != []
    ensures Later(s, PopTask(s))
  {}

  lemma LaterTable(s: LoopState, a: Action)
    requires Step(s, a) && (a.Insert? || a.Reap?)
    ensures Later(s, Apply(s, a))
  {}

  lemma LaterEnter(s: LoopState)
    requires Step(s, Enter)
    ensures Later(s, Apply(s, Enter))
  {}

  lemma LaterLeave(s: LoopState, a: Action)
    requires Step(s, a) && a.Leave?
    ensures Later(s, Apply(s, a))
  {}

  lemma LaterConfig(s: LoopState, a: Action)
    requires Step(s, a) && Config(a)
    ensures Later(s, Apply(s, a))
  {}

  lemma LaterGather(s: LoopState, a: Action)
    requires Step(s, a) && Gather(a) && !Queues(a)
    ensures Later(s, Apply(s, a))
  {}

  lemma LaterQueues(s: LoopState, a: Action)
    requires Step(s, a) && Queues(a)
    ensures Later(s, Apply(s, a))
  {}

  lemma StepLater(s: LoopState, a: Action)
    requires Step(s, a)
    ensures Later(s, Apply(s, a))
  {
    hide Asserts, PopTask, Later;
    if Config(a) { LaterConfig(s, a); }
    else if Queues(a) { LaterQueues(s, a); }
    else if Gather(a) { LaterGather(s, a); }
    else if a.Pop? { LaterPop(s); }
    else if a.Insert? || a.Reap? { LaterTable(s, a); }
    else if a.Enter? { LaterEnter(s); }
    else if a.Leave? { LaterLeave(s, a); }
    else { LaterScope(s, a); }
  }

  lemma {:induction false} RunLater(s: LoopState, acts: seq<Action>)
    requires Exec(s, acts).Some?
    ensures Later(s, Exec(s, acts).value)
  {
    hide Step, Apply;
    if acts != [] {
      var before := acts[..|acts| - 1];
      RunLater(s, before);
      StepLater(Exec(s, before).value, acts[|acts| - 1]);
    }
  }

  /**
   A handle that was handed out and is not alive never becomes alive again, whatever happens to its
   slot.
   */
  lemma DeadStaysDead(s: LoopState, acts: seq<Action>, h: Handle)
    requires Exec(s, acts).Some?
    requires Known(s, h) && !Alive(s.events, h)
    ensures !Alive(Exec(s, acts).value.events, h)
  {
    RunLater(s, acts);
  }

  /** The generation alone tells the live events apart, and the next one is fresh. */
  lemma LiveHandlesUnique(s: LoopState)
    requires Reachable(s)
    ensures forall h | Alive(s.events, h) :: Known(s, h)
    ensures forall h, g | Alive(s.events, h) && Alive(s.events, g) && h.generation == g.generation :: h == g
  {
    hide Reachable, StackOk, TimersOk, IoOk, RegistrationsOk, ChildrenOk, IdleOk, SignalsOk, MessagesOk,
      RecipientsKnown, HistoryOk;
    ReachableInv(s);
  }

  /** Of two states on one run, the one that the longer list of actions leads to is the later. */
  lemma LaterOnRun(first: LoopState, t: seq<Action>, acts: seq<Action>, s: LoopState, s': LoopState)
    requires t <= acts && Exec(first, t) == Some(s) && Exec(first, acts) == Some(s')
    ensures Later(s, s')
  {
    hide Exec, Later;
    ExecSplit(first, acts, |t|);
    assert acts[..|t|] == t;
    RunLater(s, acts[|t|..]);
  }

  /** The state in which the `i`-th action of a run happens. */
  ghost function Before(start: LoopState, acts: seq<Action>, i: nat): (s: LoopState)
    requires i <= |acts| && Exec(start, acts).Some?
    ensures Exec(start, acts[..i]) == Some(s)
  {
    ExecSplit(start, acts, i);
    Exec(start, acts[..i]).value
  }

  lemma BeforeNext(start: LoopState, acts: seq<Action>, i: nat)
    requires i < |acts| && Exec(start, acts).Some?
    ensures Step(Before(start, acts, i), acts[i])
    ensures Before(start, acts, i + 1) == Apply(Before(start, acts, i), acts[i])
  {
    hide Step, Apply;
    ExecSplit(start, acts, i + 1);
    assert acts[..i + 1][..i] == acts[..i];
  }

  lemma BeforeLater(start: LoopState, acts: seq<Action>, i: nat, j: nat)
    requires i <= j <= |acts| && Exec(start, acts).Some?
    ensures Later(Before(start, acts, i), Before(start, acts, j))
  {
    hide Step, Apply, Later;
    ExecSplit(start, acts, j);
    ExecSplit(start, acts[..j], i);
    assert acts[..j][..i] == acts[..i];
    RunLater(Before(start, acts, i), acts[..j][i..]);
  }

  lemma ReachedBy(signals: nat, sigchld: nat, now: Instant, acts: seq<Action>, s: LoopState)
    requires Exec(Start(s.policy, signals, sigchld, now), acts) == Some(s)
    ensures Reachable(s)
  {}

  // ----- Stopping -----

  /** What the last start or stop among the actions left behind. */
  ghost function LastSet(acts: seq<Action>, initially: bool): bool {
    if acts == [] then initially
    else
      var last := acts[|acts| - 1];
      if last.SetActive? then last.on else LastSet(acts[..|acts| - 1], initially)
  }

  /**
   There is one flag for all nested `run`s, and nothing but starting and stopping changes it. So a stop
   ends every `run` that is in progress, not the innermost alone, unless another one is started before
   the outer ones look at the flag.
   */
  lemma {:induction false} OneFlagForAllRuns(s: LoopState, acts: seq<Action>)
    requires Exec(s, acts).Some?
    ensures Exec(s, acts).value.active <==> LastSet(acts, s.active)
  {
    hide Step, Apply;
    if acts != [] {
      OneFlagForAllRuns(s, acts[..|acts| - 1]);
      ActiveStep(Exec(s, acts[..|acts| - 1]).value, acts[|acts| - 1]);
    }
  }

  lemma ActiveStep(s: LoopState, a: Action)
    requires Step(s, a)
    ensures Apply(s, a).active == if a.SetActive? then a.on else s.active
  {
    if Config(a) { ActiveConfig(s, a); }
    else if Gather(a) { ActiveGather(s, a); }
    else if a.Pop? { ActivePop(s); }
    else if a.Enter? || a.Leave? || a.Insert? || a.Reap? { ActiveDispatch(s, a); }
    else { ActiveScope(s, a); }
  }

  lemma ActiveConfig(s: LoopState, a: Action)
    requires Step(s, a) && Config(a)
    ensures Apply(s, a).active == if a.SetActive? then a.on else s.active
  {}

  lemma ActiveGather(s: LoopState, a: Action)
    requires Step(s, a) && Gather(a)
    ensures Apply(s, a).active == s.active
  {
    hide Step, Apply;
    if Queues(a) { QueueFrame(s, a); } else if a.Drain? { DrainFrame(s); } else { TimerFrame(s, a); }
  }

  lemma ActivePop(s: LoopState)
    requires Step(s, Pop)
    ensures Apply(s, Pop).active == s.active
  {}

  lemma ActiveDispatch(s: LoopState, a: Action)
    requires Step(s, a) && (a.Enter? || a.Leave? || a.Insert? || a.Reap?)
    ensures Apply(s, a).active == s.active
  {}

  lemma ActiveScope(s: LoopState, a: Action)
    requires Step(s, a)
    requires a.TimeoutAt? || a.Expect? || a.IoRegister? || a.IoRemove? || a.WatchChild?
    ensures Apply(s, a).active == s.active
  {}
}
