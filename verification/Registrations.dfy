/**
 What becomes of one index of the slab of IOs over a run: whether it still belongs to the registration
 that it belonged to, and whether the next gathering may release it. The conditions are about what
 callbacks did, that is, about the removals and registrations in the run.
 */
module Registrations {
  import opened Wrappers
  import opened EventLoop
  import opened Invariants
  import opened Preservation
  import opened Steps
  import opened Runs
  import opened IoRelease

  /** The callback `h` removes the IO with this index, which is its own. */
  ghost predicate Removes(s: LoopState, a: Action, h: Handle, k: nat) {
    a == IoRemove(k + TOKEN_SHIFT) && s.stack != [] && Top(s) == h && Owns(s.events, h, k)
  }

  ghost predicate Registers(s: LoopState, a: Action, h: Handle, k: nat) {
    a == IoRegister(k) && s.stack != [] && Top(s) == h
  }

  /** Any callback does. */
  ghost predicate Frees(s: LoopState, a: Action, k: nat) {
    s.stack != [] && Removes(s, a, Top(s), k)
  }

  /** The occupant of the slot and what waits for release. */
  ghost predicate SlotStep(s: LoopState, a: Action, s': LoopState, k: nat) {
    && (a == IoRegister(k) ==> k !in s.ios && s.stack != [] && k in s'.ios && s'.ios[k] == Top(s))
    && (a != IoRegister(k) && k in s'.ios ==> k in s.ios && s'.ios[k] == s.ios[k])
    && (k in s.ios && !Frees(s, a, k) && !a.Drain? ==> k in s'.ios)
    && (k in s.iosReleased && !a.Drain? ==> k in s'.iosReleased)
    && (a.Drain? ==> k !in s'.iosReleased)
    && (Frees(s, a, k) && s.policy.AsWritten? ==> k !in s'.ios && k in s'.iosReleased)
    && (k in s'.iosReleased && k !in s.iosReleased && !Frees(s, a, k) ==>
          a.Leave? && s.stack != [] && Owns(s.events, Top(s), k) && !Alive(s'.events, Top(s)))
  }

  /** The ownership of the slot by one event. */
  ghost predicate OwnerStep(s: LoopState, a: Action, s': LoopState, h: Handle, k: nat) {
    && (Registers(s, a, h, k) ==> Owns(s'.events, h, k) && s'.events[h.id].ios[k] == s.registrations)
    && (!Registers(s, a, h, k) && Owns(s'.events, h, k) ==>
          Owns(s.events, h, k) && s'.events[h.id].ios[k] == s.events[h.id].ios[k])
    && (Removes(s, a, h, k) ==> !Owns(s'.events, h, k))
    && (!Removes(s, a, h, k) && Owns(s.events, h, k) && Alive(s'.events, h) ==> Owns(s'.events, h, k))
  }

  ghost predicate Untouched(a: Action) {
    !a.IoRegister? && !a.IoRemove? && !a.Drain? && !a.Leave? && !a.Insert?
  }

  ghost predicate SameTable(s: LoopState, s': LoopState) {
    s'.ios == s.ios && s'.iosReleased == s.iosReleased && Edited(s.events, s'.events) && SameIos(s.events, s'.events)
  }

  lemma PutSame(s: LoopState, s': LoopState, i: nat)
    requires i in s.events && i in s'.events && s'.events == s.events[i := s'.events[i]]
    requires s'.events[i].generation == s.events[i].generation && s'.events[i].ios == s.events[i].ios
    requires s'.ios == s.ios && s'.iosReleased == s.iosReleased
    ensures SameTable(s, s')
  {}

  lemma NothingSame(s: LoopState, s': LoopState)
    requires s'.events == s.events && s'.ios == s.ios && s'.iosReleased == s.iosReleased
    ensures SameTable(s, s')
  {}

  lemma PopSame(s: LoopState)
    requires Step(s, Pop)
    ensures SameTable(s, Apply(s, Pop))
  {
    hide SameTable;
    var s' := Apply(s, Pop);
    if s'.events == s.events { NothingSame(s, s'); } else { PutSame(s, s', s.scheduled[0].recipient.id); }
  }

  lemma EnterSame(s: LoopState)
    requires Step(s, Enter)
    ensures SameTable(s, Apply(s, Enter))
  {
    hide SameTable;
    var s' := Apply(s, Enter);
    if s'.events == s.events { NothingSame(s, s'); } else { PutSame(s, s', s.pending.value.target.id); }
  }

  lemma ScopeSame(s: LoopState, a: Action)
    requires Step(s, a) && (a.TimeoutAt? || a.Expect? || a.WatchChild? || a.Reap?)
    ensures SameTable(s, Apply(s, a))
  {
    hide SameTable;
    var s' := Apply(s, a);
    if a.Reap? {
      if a.pid in s.children { PutSame(s, s', s.children[a.pid].id); } else { NothingSame(s, s'); }
    } else {
      PutSame(s, s', Top(s).id);
    }
  }

  lemma UntouchedSame(s: LoopState, a: Action)
    requires Step(s, a) && Untouched(a)
    ensures SameTable(s, Apply(s, a))
  {
    hide SameTable, Step, Apply;
    if Config(a) { ConfigIoSame(s, a); NothingSame(s, Apply(s, a)); }
    else if Gather(a) { GatherIoSame(s, a); NothingSame(s, Apply(s, a)); }
    else if a.Pop? { PopSame(s); }
    else if a.Enter? { EnterSame(s); }
    else { ScopeSame(s, a); }
  }

  lemma SameTableSteps(s: LoopState, a: Action, s': LoopState, h: Handle, k: nat)
    requires Untouched(a) && SameTable(s, s')
    ensures SlotStep(s, a, s', k) && OwnerStep(s, a, s', h, k)
  {}

  lemma RegisterSteps(s: LoopState, a: Action, h: Handle, k: nat)
    requires Step(s, a) && a.IoRegister? && Alive(s.events, Top(s))
    ensures SlotStep(s, a, RegisterIo(s, a.idx), k) && OwnerStep(s, a, RegisterIo(s, a.idx), h, k)
  {}

  lemma RemoveSteps(s: LoopState, a: Action, h: Handle, k: nat)
    requires Step(s, a) && a.IoRemove? && Alive(s.events, Top(s))
    ensures SlotStep(s, a, RemoveIo(s, a.id), k) && OwnerStep(s, a, RemoveIo(s, a.id), h, k)
  {}

  lemma InsertSteps(s: LoopState, a: Action, h: Handle, k: nat)
    requires Step(s, a) && a.Insert?
    ensures SlotStep(s, a, InsertEvent(s, a.idx), k)
    ensures Known(s, h) ==> OwnerStep(s, a, InsertEvent(s, a.idx), h, k)
  {}

  lemma LeaveSteps(s: LoopState, a: Action, h: Handle, k: nat)
    requires Step(s, a) && a.Leave? && Alive(s.events, Top(s))
    ensures SlotStep(s, a, LeaveCall(s, a.response), k) && OwnerStep(s, a, LeaveCall(s, a.response), h, k)
  {}

  lemma DrainSteps(s: LoopState, a: Action, h: Handle, k: nat)
    requires Step(s, a) && a.Drain?
    ensures SlotStep(s, a, DrainReleased(s), k) && OwnerStep(s, a, DrainReleased(s), h, k)
  {}

  /** All that a step can do to one index. */
  lemma StepSteps(s: LoopState, a: Action, h: Handle, k: nat)
    requires Inv(s) && Step(s, a)
    ensures SlotStep(s, a, Apply(s, a), k)
    ensures Known(s, h) ==> OwnerStep(s, a, Apply(s, a), h, k)
  {
    hide SlotStep, OwnerStep, SameTable, GenerationsOk, TimersOk, IoOk, RegistrationsOk, ChildrenOk, IdleOk, SignalsOk,
      MessagesOk, RecipientsKnown, HistoryOk, Asserts, RegisterIo, RemoveIo, InsertEvent, LeaveCall, DrainReleased;
    if s.stack != [] { TopAlive(s); }
    if Untouched(a) { UntouchedSame(s, a); SameTableSteps(s, a, Apply(s, a), h, k); }
    else if a.IoRegister? { RegisterSteps(s, a, h, k); }
    else if a.IoRemove? { RemoveSteps(s, a, h, k); }
    else if a.Insert? { InsertSteps(s, a, h, k); }
    else if a.Leave? { LeaveSteps(s, a, h, k); }
    else { DrainSteps(s, a, h, k); }
  }

  // ----- Moments of a run -----

  ghost predicate RemovesAt(s: LoopState, acts: seq<Action>, i: nat, h: Handle, k: nat) {
    i < |acts| && Exec(s, acts[..i]).Some? && Removes(Exec(s, acts[..i]).value, acts[i], h, k)
  }

  ghost predicate FreesAt(s: LoopState, acts: seq<Action>, i: nat, k: nat) {
    i < |acts| && Exec(s, acts[..i]).Some? && Frees(Exec(s, acts[..i]).value, acts[i], k)
  }

  ghost predicate RegistersAt(s: LoopState, acts: seq<Action>, i: nat, h: Handle, k: nat) {
    i < |acts| && Exec(s, acts[..i]).Some? && Registers(Exec(s, acts[..i]).value, acts[i], h, k)
  }

  ghost predicate EverRemoves(s: LoopState, acts: seq<Action>, h: Handle, k: nat) {
    exists i :: RemovesAt(s, acts, i, h, k)
  }

  ghost predicate EverRegisters(s: LoopState, acts: seq<Action>, h: Handle, k: nat) {
    exists i :: RegistersAt(s, acts, i, h, k)
  }

  /** What happens in a run is what happens before its last step, and what its last step does. */
  lemma EverLast(s: LoopState, acts: seq<Action>, h: Handle, k: nat)
    requires acts != [] && Exec(s, acts).Some?
    ensures var n := |acts| - 1;
            var b := Exec(s, acts[..n]).value;
            && (EverRemoves(s, acts, h, k) <==> EverRemoves(s, acts[..n], h, k) || Removes(b, acts[n], h, k))
            && (EverRegisters(s, acts, h, k) <==> EverRegisters(s, acts[..n], h, k) || Registers(b, acts[n], h, k))
  {
    hide EverRemoves, EverRegisters, Removes, Registers;
    EverRemovesLast(s, acts, h, k);
    EverRegistersLast(s, acts, h, k);
  }

  lemma EverRemovesLast(s: LoopState, acts: seq<Action>, h: Handle, k: nat)
    requires acts != [] && Exec(s, acts).Some?
    ensures var n := |acts| - 1;
            EverRemoves(s, acts, h, k) <==>
            EverRemoves(s, acts[..n], h, k) || Removes(Exec(s, acts[..n]).value, acts[n], h, k)
  {
    hide Removes, Exec;
    var n := |acts| - 1;
    ExecSplit(s, acts, n);
    AtLast(s, acts);
    forall i: nat | i < n ensures RemovesAt(s, acts[..n], i, h, k) <==> RemovesAt(s, acts, i, h, k) {
      assert acts[..n][..i] == acts[..i];
    }
    assert RemovesAt(s, acts, n, h, k) <==> Removes(Exec(s, acts[..n]).value, acts[n], h, k);
  }

  lemma EverRegistersLast(s: LoopState, acts: seq<Action>, h: Handle, k: nat)
    requires acts != [] && Exec(s, acts).Some?
    ensures var n := |acts| - 1;
            EverRegisters(s, acts, h, k) <==>
            EverRegisters(s, acts[..n], h, k) || Registers(Exec(s, acts[..n]).value, acts[n], h, k)
  {
    hide Registers, Exec;
    var n := |acts| - 1;
    ExecSplit(s, acts, n);
    AtLast(s, acts);
    forall i: nat | i < n ensures RegistersAt(s, acts[..n], i, h, k) <==> RegistersAt(s, acts, i, h, k) {
      assert acts[..n][..i] == acts[..i];
    }
    assert RegistersAt(s, acts, n, h, k) <==> Registers(Exec(s, acts[..n]).value, acts[n], h, k);
  }

  lemma AtLast(s: LoopState, acts: seq<Action>)
    requires acts != []
    ensures forall i | 0 <= i < |acts| :: acts[..|acts| - 1][..i] == acts[..i]
  {}

  // ----- The same registration -----

  /**
   Over any run, whatever is released when: an event that owns an index at the end holds a registration
   made in the run if it registered that index in the run, and otherwise the one it had before.
   */
  lemma {:induction false} RegisteredAnew(s: LoopState, acts: seq<Action>, h: Handle, k: nat)
    requires Inv(s) && Known(s, h) && Exec(s, acts).Some? && Owns(Exec(s, acts).value.events, h, k)
    ensures var reg := Exec(s, acts).value.events[h.id].ios[k];
            if EverRegisters(s, acts, h, k) then reg >= s.registrations
            else Owns(s.events, h, k) && reg == s.events[h.id].ios[k]
  {
    hide Inv, Step, Apply, EverRegisters, EverRemoves, Registers, Removes, SlotStep;
    if acts == [] {
      NeverInNothing(s, h, k);
    } else {
      var n := |acts| - 1;
      var b := Exec(s, acts[..n]).value;
      RunKeepsInv(s, acts[..n]);
      RunLater(s, acts[..n]);
      StepSteps(b, acts[n], h, k);
      EverLast(s, acts, h, k);
      if !Registers(b, acts[n], h, k) { RegisteredAnew(s, acts[..n], h, k); }
    }
  }

  lemma NeverInNothing(s: LoopState, h: Handle, k: nat)
    ensures !EverRegisters(s, [], h, k) && !EverRemoves(s, [], h, k)
  {}

  /** What the loop has to keep for its owners; with the deferred release it always does. */
  ghost predicate Stored(s: LoopState) {
    forall h, k | Owns(s.events, h, k) :: k in s.ios && s.ios[k] == h
  }

  ghost predicate OwnersKept(s: LoopState, acts: seq<Action>) {
    Inv(s) && (s.policy.AsWritten? ==> OwnersStored(s.events, s.ios, s.iosReleased) && SafeDrains(s, acts))
  }

  lemma KeptStored(s: LoopState, acts: seq<Action>)
    requires OwnersKept(s, acts) && Exec(s, acts).Some?
    ensures Stored(Exec(s, acts).value) && Inv(Exec(s, acts).value) && Later(s, Exec(s, acts).value)
  {
    hide Exec, SafeDrains, Later, GenerationsOk, StackOk, TimersOk, RegistrationsOk, ChildrenOk, IdleOk, SignalsOk,
      MessagesOk, RecipientsKnown, HistoryOk;
    RunKeepsInv(s, acts);
    RunLater(s, acts);
    RunKeepsPolicy(s, acts);
    if s.policy.AsWritten? { SafeDrainsKeepOwners(s, acts); }
  }

  lemma RunKeepsPolicy(s: LoopState, acts: seq<Action>)
    requires Exec(s, acts).Some?
    ensures Exec(s, acts).value.policy == s.policy
  {
    hide Exec;
    RunLater(s, acts);
  }

  /** An event that keeps an index never removed it, or registered it again. */
  lemma {:induction false} RemovedThenRegistered(s: LoopState, acts: seq<Action>, h: Handle, k: nat)
    requires OwnersKept(s, acts) && Owns(s.events, h, k) && Known(s, h)
    requires Exec(s, acts).Some? && Alive(Exec(s, acts).value.events, h)
    ensures !EverRemoves(s, acts, h, k) ==> Owns(Exec(s, acts).value.events, h, k) && !EverRegisters(s, acts, h, k)
    ensures Owns(Exec(s, acts).value.events, h, k) && EverRemoves(s, acts, h, k) ==> EverRegisters(s, acts, h, k)
  {
    hide Inv, Step, Apply, EverRegisters, EverRemoves, Removes, OwnersStored, OwnersKept, SafeDrain;
    if acts == [] {
      NeverInNothing(s, h, k);
    } else {
      var n := |acts| - 1;
      var b := Exec(s, acts[..n]).value;
      KeptPrefix(s, acts);
      KeptStored(s, acts[..n]);
      StepSteps(b, acts[n], h, k);
      StepLater(b, acts[n]);
      EverLast(s, acts, h, k);
      RemovedThenRegistered(s, acts[..n], h, k);
    }
  }

  lemma KeptPrefix(s: LoopState, acts: seq<Action>)
    requires OwnersKept(s, acts) && acts != []
    ensures OwnersKept(s, acts[..|acts| - 1])
  {
    hide Inv, OwnersStored, SafeDrain;
  }

  /**
   Over any run, whatever is released when: an owner still holds the registration that it held before
   exactly if it did not register the index again.
   */
  lemma SameRegistrationExactly(s: LoopState, acts: seq<Action>, h: Handle, k: nat)
    requires Inv(s) && Owns(s.events, h, k) && Exec(s, acts).Some? && Owns(Exec(s, acts).value.events, h, k)
    ensures Exec(s, acts).value.events[h.id].ios[k] == s.events[h.id].ios[k] <==> !EverRegisters(s, acts, h, k)
  {
    hide Exec, EverRegisters, TimersOk, StackOk, IoOk, ChildrenOk, IdleOk, SignalsOk, MessagesOk, RecipientsKnown, HistoryOk;
    assert Known(s, h);
    RegisteredAnew(s, acts, h, k);
  }

  /**
   As long as no gathering takes a slot from its owner (see GatheringsSafeExactly), an index can only be
   registered again by an owner that removed it before.
   */
  lemma SameUnlessRemoved(s: LoopState, acts: seq<Action>, h: Handle, k: nat)
    requires OwnersKept(s, acts) && Owns(s.events, h, k) && Exec(s, acts).Some?
    requires Owns(Exec(s, acts).value.events, h, k)
    ensures Exec(s, acts).value.events[h.id].ios[k] == s.events[h.id].ios[k] <==> !EverRemoves(s, acts, h, k)
  {
    hide Exec, EverRemoves, EverRegisters, OwnersStored, SafeDrains, TimersOk, StackOk, IoOk, ChildrenOk, IdleOk, SignalsOk,
      MessagesOk, RecipientsKnown, HistoryOk;
    assert Known(s, h);
    SameRegistrationExactly(s, acts, h, k);
    RemovedThenRegistered(s, acts, h, k);
  }

  /** No two registrations that are held have the same number. */
  ghost predicate DistinctRegistrations(events: map<nat, EvHolder>) {
    forall h, k, g, l | Owns(events, h, k) && Owns(events, g, l) && events[h.id].ios[k] == events[g.id].ios[l] ::
      h == g && k == l
  }

  lemma DistinctStep(s: LoopState, a: Action)
    requires Inv(s) && DistinctRegistrations(s.events) && Step(s, a)
    ensures DistinctRegistrations(Apply(s, a).events)
  {
    hide Inv, Step, Apply;
    var s' := Apply(s, a);
    forall h, k, g, l | Owns(s'.events, h, k) && Owns(s'.events, g, l) && s'.events[h.id].ios[k] == s'.events[g.id].ios[l]
      ensures h == g && k == l
    {
      OwnedBefore(s, a, h, k);
      OwnedBefore(s, a, g, l);
    }
  }

  /** An index that is owned after a step was registered in it, or was owned before. */
  lemma OwnedBefore(s: LoopState, a: Action, h: Handle, k: nat)
    requires Inv(s) && Step(s, a) && Owns(Apply(s, a).events, h, k)
    ensures var reg := Apply(s, a).events[h.id].ios[k];
            if Registers(s, a, h, k) then reg == s.registrations
            else Owns(s.events, h, k) && reg == s.events[h.id].ios[k] && reg < s.registrations
  {
    hide Step, Apply, SlotStep, GenerationsOk, TimersOk, StackOk, IoOk, ChildrenOk, IdleOk, SignalsOk, MessagesOk,
      RecipientsKnown, HistoryOk;
    if a.Insert? { NewOwnsNothing(s, a, h, k); }
    StepLater(s, a);
    StepSteps(s, a, h, k);
    if !a.Insert? { SameGeneration(s, a, h); }
  }

  lemma NewOwnsNothing(s: LoopState, a: Action, h: Handle, k: nat)
    requires Step(s, a) && a.Insert? && GenerationsOk(s.events, s.generation) && Owns(Apply(s, a).events, h, k)
    ensures Known(s, h)
  {}

  lemma SameGeneration(s: LoopState, a: Action, h: Handle)
    requires Inv(s) && Step(s, a) && !a.Insert? && Alive(Apply(s, a).events, h)
    ensures Known(s, h)
  {
    hide Step, Apply, Inv;
    StepKeepsInv(s, a);
    AliveKnown(Apply(s, a), h);
    CounterKept(s, a);
  }

  lemma AliveKnown(s: LoopState, h: Handle)
    requires Inv(s) && Alive(s.events, h)
    ensures Known(s, h)
  {
    hide TimersOk, StackOk, IoOk, ChildrenOk, IdleOk, SignalsOk, MessagesOk, RecipientsKnown, HistoryOk;
  }

  lemma CounterKept(s: LoopState, a: Action)
    requires Step(s, a) && !a.Insert?
    ensures Apply(s, a).generation == s.generation
  {
    hide Step, Apply;
    if Config(a) { ConfigFrame(s, a); }
    else if Queues(a) { QueueFrame(s, a); }
    else if a.Drain? { DrainFrame(s); }
    else if Gather(a) { TimerFrame(s, a); }
    else { CallCounter(s, a); }
  }

  lemma CallCounter(s: LoopState, a: Action)
    requires Step(s, a) && !Config(a) && !Gather(a) && !a.Insert?
    ensures Apply(s, a).generation == s.generation
  {}

  lemma {:induction false} DistinctInRun(s: LoopState, acts: seq<Action>)
    requires Inv(s) && DistinctRegistrations(s.events) && Exec(s, acts).Some?
    ensures DistinctRegistrations(Exec(s, acts).value.events)
  {
    hide Inv, Step, Apply, DistinctRegistrations;
    if acts != [] {
      var before := acts[..|acts| - 1];
      DistinctInRun(s, before);
      RunKeepsInv(s, before);
      DistinctStep(Exec(s, before).value, acts[|acts| - 1]);
    }
  }

  lemma ReachableDistinct(s: LoopState)
    requires Reachable(s)
    ensures Inv(s) && DistinctRegistrations(s.events)
  {
    hide Inv, Exec;
    var signals: nat, sigchld: nat, now: Instant, acts: seq<Action> :|
      Exec(Start(s.policy, signals, sigchld, now), acts) == Some(s);
    InvStart(s.policy, signals, sigchld, now);
    DistinctInRun(Start(s.policy, signals, sigchld, now), acts);
    RunKeepsInv(Start(s.policy, signals, sigchld, now), acts);
  }

  /**
   From the readiness of an IO until its task is at the head of the queue, in any run of the code as
   written or of the deferred release. The slab says whom the task is for. Its callback is prepared
   exactly if that event owns the index by then; and then it is for the registration that was ready
   exactly if the slab named the owner of the IO and the owner did not register the index again.
   */
  lemma ReadinessReachesItsRegistration(s: LoopState, owner: Handle, k: nat, ready: nat, s1: LoopState,
                                        acts: seq<Action>, s2: LoopState)
    requires Reachable(s) && Step(s, Ready(owner, k, ready)) && s1 == Apply(s, Ready(owner, k, ready))
    requires Exec(s1, acts) == Some(s2)
    requires s2.pending.None? && s2.scheduled != [] && |s2.log| == |s.pushed|
    ensures Owns(s.events, owner, k) && k in s.ios
    ensures var g, reg := s.ios[k], s.events[owner.id].ios[k];
            && s2.scheduled[0] == Task(g, Io(k + TOKEN_SHIFT, ready, reg))
            && (PopTask(s2).pending.Some? <==> Owns(s2.events, g, k))
            && (Owns(s2.events, g, k) ==>
                  (s2.events[g.id].ios[k] == reg <==> g == owner && !EverRegisters(s1, acts, owner, k)))
  {
    hide Exec, EverRegisters, Inv, Later, Reachable, DistinctRegistrations;
    ReachableDistinct(s);
    assert Owns(s.events, owner, k);
    var g, reg := s.ios[k], s.events[owner.id].ios[k];
    var t := Task(g, Io(k + TOKEN_SHIFT, ready, reg));
    assert s1 == Push(s, t);
    StepKeepsInv(s, Ready(owner, k, ready));
    RunKeepsInv(s1, acts);
    RunLater(s1, acts);
    HeadIs(s1, s2, t, |s.pushed|);
    if Owns(s2.events, g, k) { WhichRegistration(s, s1, acts, owner, g, k); }
  }

  lemma WhichRegistration(s: LoopState, s1: LoopState, acts: seq<Action>, owner: Handle, g: Handle, k: nat)
    requires Inv(s) && Inv(s1) && DistinctRegistrations(s.events) && Owns(s.events, owner, k)
    requires s1.events == s.events && s1.registrations == s.registrations && s1.generation == s.generation
    requires k in s.ios && s.ios[k] == g
    requires Exec(s1, acts).Some? && Owns(Exec(s1, acts).value.events, g, k)
    ensures Exec(s1, acts).value.events[g.id].ios[k] == s.events[owner.id].ios[k] <==>
            g == owner && !EverRegisters(s1, acts, owner, k)
  {
    hide Exec, EverRegisters, GenerationsOk, TimersOk, StackOk, IoOk, ChildrenOk, IdleOk, SignalsOk, MessagesOk, HistoryOk;
    assert Known(s1, g);
    RegisteredAnew(s1, acts, g, k);
  }

  /** Tasks leave the queue in the order in which they were pushed. */
  lemma HeadIs(s: LoopState, s': LoopState, t: Task, n: nat)
    requires Inv(s') && Later(s, s') && n < |s.pushed| && s.pushed[n] == t
    requires s'.pending.None? && s'.scheduled != [] && |s'.log| == n
    ensures s'.scheduled[0] == t
  {
    hide GenerationsOk, StackOk, TimersOk, IoOk, RegistrationsOk, ChildrenOk, IdleOk, SignalsOk, MessagesOk,
      RecipientsKnown;
    assert s'.pushed[n] == t;
    assert s'.pushed == Tasks(s'.log) + s'.scheduled;
  }

  // ----- Safe gatherings -----

  /** If the index waits for release, then its slot is still occupied, by an event that died. */
  ghost predicate Held(s: LoopState, k: nat) {
    k in s.iosReleased ==> k in s.ios && !Alive(s.events, s.ios[k])
  }

  /** An index stays safe until a callback removes it. */
  lemma HeldStep(s: LoopState, a: Action, k: nat)
    requires Inv(s) && Step(s, a) && OwnersStored(s.events, s.ios, s.iosReleased)
    requires Held(s, k) && !Frees(s, a, k)
    ensures Held(Apply(s, a), k)
  {
    hide Step, Apply, GenerationsOk, TimersOk, IoOk, StackOk, RegistrationsOk, ChildrenOk, IdleOk, SignalsOk, MessagesOk,
      HistoryOk, Frees;
    var s' := Apply(s, a);
    StepLater(s, a);
    StepSteps(s, a, Handle(0, 0), k);
  }

  /** Since the `i`-th step, which freed the index, the loop has not gathered. */
  ghost predicate FreedAt(s: LoopState, acts: seq<Action>, i: nat, k: nat) {
    FreesAt(s, acts, i, k) && Drain !in acts[i..]
  }

  /** After the `i`-th step the index was registered again, by an event that is dead at the end. */
  ghost predicate ReplacedAfter(s: LoopState, acts: seq<Action>, i: nat, k: nat) {
    exists j, g :: i < j && RegistersAt(s, acts, j, g, k)
                   && Exec(s, acts).Some? && !Alive(Exec(s, acts).value.events, g)
  }

  /**
   What the callbacks did: each index that was freed since the last gathering has been registered again
   by an event that is dead by now.
   */
  ghost predicate Replaced(s: LoopState, acts: seq<Action>) {
    forall i: nat, k: nat | FreedAt(s, acts, i, k) :: ReplacedAfter(s, acts, i, k)
  }

  /** Since the `i`-th step only the event that is in the slot at the end registered the index. */
  ghost predicate OnlyOccupantRegistered(s: LoopState, acts: seq<Action>, i: nat, k: nat)
    requires Exec(s, acts).Some?
  {
    forall j, g | i < j && RegistersAt(s, acts, j, g, k) ::
      k in Exec(s, acts).value.ios && Exec(s, acts).value.ios[k] == g
  }

  /** The code as written, in the states where nothing has gone wrong so far. */
  ghost predicate Sound(s: LoopState, acts: seq<Action>) {
    && Inv(s) && s.policy.AsWritten? && OwnersStored(s.events, s.ios, s.iosReleased)
    && Exec(s, acts).Some? && SafeDrains(s, acts)
  }

  lemma SoundPrefix(s: LoopState, acts: seq<Action>)
    requires Sound(s, acts) && acts != []
    ensures Sound(s, acts[..|acts| - 1]) && Exec(s, acts[..|acts| - 1]).Some?
    ensures var b, a := Exec(s, acts[..|acts| - 1]).value, acts[|acts| - 1];
            && Inv(b) && b.policy.AsWritten? && OwnersStored(b.events, b.ios, b.iosReleased)
            && Step(b, a) && Exec(s, acts).value == Apply(b, a) && SafeDrain(b, a)
  {
    hide Inv, OwnersStored, SafeDrain, Step, Apply, IoPartition, OnlyDeadWait;
    var before := acts[..|acts| - 1];
    RunKeepsInv(s, before);
    RunKeepsPolicy(s, before);
    SafeDrainsKeepOwners(s, before);
  }

  /** An index becomes unsafe only when it is freed; who registers it afterwards occupies its slot. */
  lemma {:induction false} UnheldWasFreed(s: LoopState, acts: seq<Action>, k: nat) returns (i: nat)
    requires Sound(s, acts) && Held(s, k) && !Held(Exec(s, acts).value, k)
    ensures FreedAt(s, acts, i, k) && OnlyOccupantRegistered(s, acts, i, k)
  {
    hide Inv, OwnersStored, SafeDrains, SafeDrain, Step, Apply, Held, Frees, Registers, OnlyOccupantRegistered, FreedAt;
    assert acts != [];
    var n := |acts| - 1;
    SoundPrefix(s, acts);
    var b := Exec(s, acts[..n]).value;
    if Frees(b, acts[n], k) {
      i := n;
      FreedNow(s, acts, k);
    } else {
      if Held(b, k) { HeldStep(b, acts[n], k); }
      i := UnheldWasFreed(s, acts[..n], k);
      StillFreed(s, acts, i, k);
    }
  }

  lemma FreedNow(s: LoopState, acts: seq<Action>, k: nat)
    requires acts != [] && Exec(s, acts).Some? && Exec(s, acts[..|acts| - 1]).Some?
    requires Frees(Exec(s, acts[..|acts| - 1]).value, acts[|acts| - 1], k)
    ensures FreedAt(s, acts, |acts| - 1, k) && OnlyOccupantRegistered(s, acts, |acts| - 1, k)
  {
    hide Exec;
    assert acts[|acts| - 1..] == [acts[|acts| - 1]];
  }

  lemma StillFreed(s: LoopState, acts: seq<Action>, i: nat, k: nat)
    requires Sound(s, acts) && acts != []
    requires FreedAt(s, acts[..|acts| - 1], i, k) && OnlyOccupantRegistered(s, acts[..|acts| - 1], i, k)
    requires !Frees(Exec(s, acts[..|acts| - 1]).value, acts[|acts| - 1], k) && !Held(Exec(s, acts).value, k)
    ensures FreedAt(s, acts, i, k) && OnlyOccupantRegistered(s, acts, i, k)
  {
    hide Inv, OwnersStored, SafeDrains, SafeDrain, Step, Apply, Frees, Exec;
    var n := |acts| - 1;
    SoundPrefix(s, acts);
    var b := Exec(s, acts[..n]).value;
    StepSteps(b, acts[n], Handle(0, 0), k);
    AtLast(s, acts);
    assert acts[i..] == acts[..n][i..] + [acts[n]];
    forall j: nat, g | i < j && RegistersAt(s, acts, j, g, k)
      ensures k in Exec(s, acts).value.ios && Exec(s, acts).value.ios[k] == g
    {
      if j < n { assert RegistersAt(s, acts[..n], j, g, k); }
    }
  }

  /** An index that was freed waits until the loop gathers. */
  lemma {:induction false} FreedWaits(s: LoopState, acts: seq<Action>, i: nat, k: nat)
    requires Sound(s, acts) && FreedAt(s, acts, i, k)
    ensures var s' := Exec(s, acts).value;
            && k in s'.iosReleased
            && (k in s'.ios ==> exists j :: i < j && RegistersAt(s, acts, j, s'.ios[k], k))
  {
    hide Inv, OwnersStored, SafeDrains, SafeDrain, Step, Apply, Frees, Exec, Registers;
    var n := |acts| - 1;
    SoundPrefix(s, acts);
    var b := Exec(s, acts[..n]).value;
    StepSteps(b, acts[n], Handle(0, 0), k);
    AtLast(s, acts);
    assert acts[n] in acts[i..];
    var s' := Exec(s, acts).value;
    if i < n {
      assert acts[..n][i..] == acts[i..][..n - i];
      assert FreedAt(s, acts[..n], i, k);
      FreedWaits(s, acts[..n], i, k);
      if k in s'.ios {
        if acts[n] == IoRegister(k) {
          RegisteredNow(s, acts, k);
          assert RegistersAt(s, acts, n, s'.ios[k], k);
        } else {
          var j :| i < j && RegistersAt(s, acts[..n], j, b.ios[k], k);
          assert RegistersAt(s, acts, j, s'.ios[k], k);
        }
      }
    }
  }

  lemma RegisteredNow(s: LoopState, acts: seq<Action>, k: nat)
    requires Sound(s, acts) && acts != [] && acts[|acts| - 1] == IoRegister(k)
    ensures k in Exec(s, acts).value.ios
    ensures Registers(Exec(s, acts[..|acts| - 1]).value, IoRegister(k), Exec(s, acts).value.ios[k], k)
  {
    hide Inv, OwnersStored, SafeDrains, SafeDrain, Step, Apply, Exec;
    SoundPrefix(s, acts);
    StepSteps(Exec(s, acts[..|acts| - 1]).value, acts[|acts| - 1], Handle(0, 0), k);
  }

  /**
   For the code as written, as long as the gatherings so far were safe: the next one is safe, and the
   occupied slots are the disjoint union of what live events own and what waits for release, exactly if
   each index that a callback removed since the last gathering was registered again by an event that
   has died.
   */
  lemma GatheringSafeExactly(s: LoopState, acts: seq<Action>)
    requires Sound(s, acts) && OnlyDeadWait(s)
    ensures var s' := Exec(s, acts).value;
            && (OnlyDeadWait(s') <==> Replaced(s, acts))
            && (IoPartition(s'.events, s'.ios, s'.iosReleased) <==> Replaced(s, acts))
  {
    hide Exec, Inv, SafeDrains, FreedAt, RegistersAt, OwnersStored, IoPartition;
    var s' := Exec(s, acts).value;
    SafeDrainsKeepOwners(s, acts);
    PartitionExactly(s');
    if OnlyDeadWait(s') {
      forall i: nat, k: nat | FreedAt(s, acts, i, k) ensures ReplacedAfter(s, acts, i, k) {
        FreedWaits(s, acts, i, k);
        assert k in s'.ios && !Alive(s'.events, s'.ios[k]);
      }
    } else {
      var k :| k in s'.iosReleased && !Held(s', k);
      assert Held(s, k);
      var i := UnheldWasFreed(s, acts, k);
      assert !ReplacedAfter(s, acts, i, k);
    }
  }

  /** After the `i`-th step somebody registered the index again. */
  ghost predicate RegisteredAfter(s: LoopState, acts: seq<Action>, i: nat, k: nat) {
    exists j, g :: i < j && RegistersAt(s, acts, j, g, k)
  }

  /**
   For the code as written, as long as the gatherings so far were safe: the next one fails the assertion
   of the slab exactly if some index that a callback removed since the last gathering was not registered
   again.
   */
  lemma GatheringFailsExactly(s: LoopState, acts: seq<Action>)
    requires Sound(s, acts) && OnlyDeadWait(s) && Can(Exec(s, acts).value, Drain)
    ensures Asserts(Exec(s, acts).value, Drain) <==>
            forall i: nat, k: nat | FreedAt(s, acts, i, k) :: RegisteredAfter(s, acts, i, k)
  {
    hide Exec, Inv, SafeDrains, FreedAt, RegistersAt, OwnersStored;
    var s' := Exec(s, acts).value;
    if Asserts(s', Drain) {
      forall i: nat, k: nat | FreedAt(s, acts, i, k) ensures RegisteredAfter(s, acts, i, k) {
        FreedWaits(s, acts, i, k);
      }
    } else {
      var k :| k in s'.iosReleased && k !in s'.ios;
      assert Held(s, k) && !Held(s', k);
      var i := UnheldWasFreed(s, acts, k);
      assert !RegisteredAfter(s, acts, i, k);
    }
  }

  lemma PartitionExactly(s: LoopState)
    requires OwnersStored(s.events, s.ios, s.iosReleased)
    ensures IoPartition(s.events, s.ios, s.iosReleased) <==> OnlyDeadWait(s)
  {}

  /** The same for all gatherings of a run, in terms of what the callbacks did before each of them. */
  lemma {:induction false} GatheringsSafeExactly(s: LoopState, acts: seq<Action>)
    requires Inv(s) && s.policy.AsWritten? && OwnersStored(s.events, s.ios, s.iosReleased) && OnlyDeadWait(s)
    requires Exec(s, acts).Some?
    ensures SafeDrains(s, acts) <==> forall n | 0 <= n < |acts| && acts[n].Drain? :: Replaced(s, acts[..n])
  {
    hide Inv, OwnersStored, OnlyDeadWait, Step, Apply, Replaced;
    if acts != [] {
      var n := |acts| - 1;
      GatheringsSafeExactly(s, acts[..n]);
      AtLast(s, acts);
      if SafeDrains(s, acts[..n]) { GatheringSafeExactly(s, acts[..n]); }
      assert SafeDrains(s, acts) <==>
        SafeDrains(s, acts[..n]) && (acts[n].Drain? ==> OnlyDeadWait(Exec(s, acts[..n]).value));
      assert forall m | 0 <= m < n :: acts[..n][m] == acts[m];
    }
  }

  /** In particular callbacks that never remove an IO are safe. */
  lemma NoRemovalsSafe(s: LoopState, acts: seq<Action>)
    requires Inv(s) && s.policy.AsWritten? && OwnersStored(s.events, s.ios, s.iosReleased) && OnlyDeadWait(s)
    requires Exec(s, acts).Some? && forall i: nat, k: nat :: !FreesAt(s, acts, i, k)
    ensures SafeDrains(s, acts) && OnlyDeadWait(Exec(s, acts).value)
  {
    hide Inv, OwnersStored, OnlyDeadWait, Exec, SafeDrains, FreesAt;
    forall n | 0 <= n < |acts| && acts[n].Drain? ensures Replaced(s, acts[..n]) {
      forall i: nat, k: nat ensures !FreedAt(s, acts[..n], i, k) {
        FreesPrefix(s, acts, n, i, k);
      }
    }
    GatheringsSafeExactly(s, acts);
    assert Replaced(s, acts);
    GatheringSafeExactly(s, acts);
  }

  lemma FreesPrefix(s: LoopState, acts: seq<Action>, n: nat, i: nat, k: nat)
    requires n <= |acts|
    ensures FreesAt(s, acts[..n], i, k) ==> FreesAt(s, acts, i, k)
  {
    if i < n { assert acts[..n][..i] == acts[..i]; }
  }

  /**
   Over any run of a fresh loop: with the deferred release the occupied slots are always the disjoint
   union of what live events own and what waits for release. For the code as written, if the gatherings so
   far were safe, they are exactly if the next one would be.
   */
  lemma SlotsPartitionedExactly(policy: RemovePolicy, signals: nat, sigchld: nat, now: Instant, acts: seq<Action>,
                                s: LoopState)
    requires Exec(Start(policy, signals, sigchld, now), acts) == Some(s)
    requires policy.AsWritten? ==>
               forall n | 0 <= n < |acts| && acts[n].Drain? :: Replaced(Start(policy, signals, sigchld, now), acts[..n])
    ensures IoPartition(s.events, s.ios, s.iosReleased) <==>
            policy.Deferred? || Replaced(Start(policy, signals, sigchld, now), acts)
  {
    hide Exec, Start, Replaced, OwnersStored, OnlyDeadWait, IoPartition, SafeDrains, GenerationsOk, StackOk, TimersOk,
      RegistrationsOk, ChildrenOk, IdleOk, SignalsOk, MessagesOk, RecipientsKnown, HistoryOk;
    var first := Start(policy, signals, sigchld, now);
    InvStart(policy, signals, sigchld, now);
    RunKeepsInv(first, acts);
    RunKeepsPolicy(first, acts);
    StartPolicy(policy, signals, sigchld, now);
    if policy.AsWritten? {
      FreshSound(signals, sigchld, now);
      GatheringsSafeExactly(first, acts);
      GatheringSafeExactly(first, acts);
    }
  }

  lemma StartPolicy(policy: RemovePolicy, signals: nat, sigchld: nat, now: Instant)
    ensures Start(policy, signals, sigchld, now).policy == policy
  {}

  lemma FreshSound(signals: nat, sigchld: nat, now: Instant)
    ensures var s := Start(AsWritten, signals, sigchld, now);
            Inv(s) && OwnersStored(s.events, s.ios, s.iosReleased) && OnlyDeadWait(s)
  {
    InvStart(AsWritten, signals, sigchld, now);
  }
}
