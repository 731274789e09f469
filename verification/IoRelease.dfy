/**
 `io_remove` as src/core.rs:1591-1603 has it: the index is released at once and queued for release as
 well. When the next gathering survives that, when it does not, and what goes wrong in between.
 */
module IoRelease {
  import opened Wrappers
  import opened EventLoop
  import opened Invariants
  import opened Preservation
  import opened Steps
  import opened Runs

  /**
   What the code as written keeps between two gatherings: an owner always has its slot, and a slot is
   owned, or its event has died and it waits for release.
   */
  ghost predicate OwnersStored(events: map<nat, EvHolder>, ios: map<nat, Handle>, released: set<nat>) {
    && (forall h, k | Owns(events, h, k) :: k in ios && ios[k] == h)
    && (forall k | k in ios :: Owns(events, ios[k], k) || (k in released && !Alive(events, ios[k])))
  }

  /** Every index that waits for release is still occupied, by an event that has died. */
  ghost predicate OnlyDeadWait(s: LoopState) {
    forall k | k in s.iosReleased :: k in s.ios && !Alive(s.events, s.ios[k])
  }

  /**
   The exact condition. Gathering neither fails an assertion nor takes a slot from under its owner if
   and only if every index waiting for release is still occupied by a dead event. An index that
   `io_remove` freed breaks this, unless it was registered again and its new owner died since.
   */
  lemma DrainSafeExactly(s: LoopState)
    requires s.policy.AsWritten? && Can(s, Drain) && OwnersStored(s.events, s.ios, s.iosReleased)
    ensures Asserts(s, Drain) && IoPartition(s.events, DrainReleased(s).ios, DrainReleased(s).iosReleased)
            <==> OnlyDeadWait(s)
  {
    var ios' := DrainReleased(s).ios;
    if OnlyDeadWait(s) {
      forall h, k | Owns(s.events, h, k) ensures k in ios' && ios'[k] == h {
        assert s.ios[k] == h;
      }
    } else if Asserts(s, Drain) {
      var k :| k in s.iosReleased && (k !in s.ios || Alive(s.events, s.ios[k]));
      assert Owns(s.events, s.ios[k], k) && k !in ios';
    }
  }

  /** Drains of a run that meet the condition. */
  ghost predicate SafeDrain(s: LoopState, a: Action) {
    a.Drain? ==> OnlyDeadWait(s)
  }

  lemma OwnersEdit(e: map<nat, EvHolder>, e': map<nat, EvHolder>, ios: map<nat, Handle>, released: set<nat>)
    requires Edited(e, e') && SameIos(e, e') && OwnersStored(e, ios, released)
    ensures OwnersStored(e', ios, released)
  {
    forall h, k ensures Owns(e', h, k) <==> Owns(e, h, k) {}
  }

  lemma OwnersKill(s: LoopState, h: Handle)
    requires OwnersStored(s.events, s.ios, s.iosReleased) && Alive(s.events, h)
    ensures OwnersStored(Kill(s, h).events, Kill(s, h).ios, Kill(s, h).iosReleased)
  {
    var s' := Kill(s, h);
    forall g, k ensures Owns(s'.events, g, k) <==> Owns(s.events, g, k) && g != h {}
    forall k | k in s'.ios
      ensures Owns(s'.events, s'.ios[k], k) || (k in s'.iosReleased && !Alive(s'.events, s'.ios[k]))
    {
      assert Owns(s.events, s.ios[k], k) || (k in s.iosReleased && !Alive(s.events, s.ios[k]));
    }
  }

  lemma OwnersInsert(s: LoopState, idx: nat)
    requires OwnersStored(s.events, s.ios, s.iosReleased) && idx !in s.events
    requires RecipientsKnown(s.scheduled, s.inbox, s.ios, s.generation)
    ensures OwnersStored(InsertEvent(s, idx).events, s.ios, s.iosReleased)
  {
    var s' := InsertEvent(s, idx);
    forall g, k ensures Owns(s'.events, g, k) <==> Owns(s.events, g, k) {}
  }

  lemma OwnersRegister(s: LoopState, idx: nat)
    requires OwnersStored(s.events, s.ios, s.iosReleased) && s.stack != [] && Alive(s.events, Top(s)) && idx !in s.ios
    ensures OwnersStored(RegisterIo(s, idx).events, RegisterIo(s, idx).ios, s.iosReleased)
  {
    var s' := RegisterIo(s, idx);
    forall g, k ensures Owns(s'.events, g, k) <==> Owns(s.events, g, k) || (g == Top(s) && k == idx) {}
    forall k | k in s'.ios
      ensures Owns(s'.events, s'.ios[k], k) || (k in s'.iosReleased && !Alive(s'.events, s'.ios[k]))
    {
      if k != idx { assert k in s.ios; }
    }
  }

  lemma OwnersRemove(s: LoopState, id: IoToken)
    requires OwnersStored(s.events, s.ios, s.iosReleased) && s.stack != [] && Alive(s.events, Top(s))
    requires s.policy.AsWritten?
    ensures var s' := RemoveIo(s, id); OwnersStored(s'.events, s'.ios, s'.iosReleased)
  {
    var s', idx := RemoveIo(s, id), id - TOKEN_SHIFT;
    if Owns(s.events, Top(s), idx) {
      forall g, k ensures Owns(s'.events, g, k) <==> Owns(s.events, g, k) && k != idx {}
      forall k | k in s'.ios
        ensures Owns(s'.events, s'.ios[k], k) || (k in s'.iosReleased && !Alive(s'.events, s'.ios[k]))
      {
        assert k in s.ios && k != idx;
      }
    }
  }

  lemma OwnersDrain(s: LoopState)
    requires OwnersStored(s.events, s.ios, s.iosReleased) && OnlyDeadWait(s)
    ensures OwnersStored(s.events, s.ios - s.iosReleased, {})
  {
    var ios' := s.ios - s.iosReleased;
    forall h, k | Owns(s.events, h, k) ensures k in ios' && ios'[k] == h {
      assert s.ios[k] == h;
    }
    forall k | k in ios' ensures Owns(s.events, ios'[k], k) {
      assert k in s.ios;
    }
  }

  lemma ConfigIoSame(s: LoopState, a: Action)
    requires Step(s, a) && Config(a)
    ensures var s' := Apply(s, a); s'.events == s.events && s'.ios == s.ios && s'.iosReleased == s.iosReleased
  {
    hide Step, Apply;
    ConfigFrame(s, a);
  }

  lemma GatherIoSame(s: LoopState, a: Action)
    requires Step(s, a) && Gather(a) && !a.Drain?
    ensures var s' := Apply(s, a); s'.events == s.events && s'.ios == s.ios && s'.iosReleased == s.iosReleased
  {
    hide Step, Apply;
    if Queues(a) { QueueFrame(s, a); } else { TimerFrame(s, a); }
  }

  lemma OwnersPut(s: LoopState, i: nat, ev: EvHolder)
    requires OwnersStored(s.events, s.ios, s.iosReleased)
    requires i in s.events && ev.generation == s.events[i].generation && ev.ios == s.events[i].ios
    ensures OwnersStored(s.events[i := ev], s.ios, s.iosReleased)
  {
    OwnersEdit(s.events, s.events[i := ev], s.ios, s.iosReleased);
  }

  lemma OwnersScope(s: LoopState, a: Action)
    requires Step(s, a) && (a.TimeoutAt? || a.Expect? || a.WatchChild?)
    requires OwnersStored(s.events, s.ios, s.iosReleased)
    ensures var s' := Apply(s, a); OwnersStored(s'.events, s'.ios, s'.iosReleased)
  {
    hide OwnersStored;
    OwnersPut(s, Top(s).id, Apply(s, a).events[Top(s).id]);
  }

  lemma OwnersEnter(s: LoopState)
    requires s.pending.Some? && OwnersStored(s.events, s.ios, s.iosReleased)
    ensures var s' := EnterCall(s); OwnersStored(s'.events, s'.ios, s'.iosReleased)
  {
    hide OwnersStored;
    var h := s.pending.value.target;
    if Alive(s.events, h) { OwnersPut(s, h.id, s.events[h.id].(stolen := true)); }
  }

  lemma OwnersPop(s: LoopState)
    requires s.scheduled != [] && OwnersStored(s.events, s.ios, s.iosReleased)
    ensures var s' := PopTask(s); OwnersStored(s'.events, s'.ios, s'.iosReleased)
  {
    hide OwnersStored;
    var h := s.scheduled[0].recipient;
    if Alive(s.events, h) {
      OwnersPut(s, h.id, s.events[h.id].(timeouts := s.events[h.id].timeouts - 1));
    }
  }

  lemma OwnersReap(s: LoopState, pid: Pid, exit: int)
    requires pid in s.children ==> s.children[pid].id in s.events
    requires OwnersStored(s.events, s.ios, s.iosReleased)
    ensures var s' := ReapChild(s, pid, exit); OwnersStored(s'.events, s'.ios, s'.iosReleased)
  {
    hide OwnersStored;
    if pid in s.children {
      var i := s.children[pid].id;
      OwnersPut(s, i, s.events[i].(children := s.events[i].children - {pid}));
    }
  }

  lemma OwnersStep(s: LoopState, a: Action)
    requires Inv(s) && s.policy.AsWritten? && Step(s, a) && SafeDrain(s, a)
    requires OwnersStored(s.events, s.ios, s.iosReleased)
    ensures var s' := Apply(s, a); OwnersStored(s'.events, s'.ios, s'.iosReleased)
  {
    hide GenerationsOk, TimersOk, IoOk, RegistrationsOk, ChildrenOk, IdleOk, SignalsOk, MessagesOk, HistoryOk,
      OwnersStored, OnlyDeadWait, StackOk, RecipientsKnown, PopTask, EnterCall, ReapChild, Kill, ReceiveMessage, CleanupTimers;
    if s.stack != [] { TopAlive(s); }
    if Config(a) { ConfigIoSame(s, a); }
    else if a.Drain? { OwnersDrain(s); }
    else if Gather(a) { GatherIoSame(s, a); }
    else if a.Insert? { OwnersInsert(s, a.idx); }
    else if a.IoRegister? { OwnersRegister(s, a.idx); }
    else if a.IoRemove? { OwnersRemove(s, a.id); }
    else if a.Leave? {
      OwnersPut(s, Top(s).id, s.events[Top(s).id].(stolen := false));
      StackLeave(s);
      if !a.response.Keep? { OwnersKill(Unstolen(s), Top(s)); }
    }
    else if a.Enter? { OwnersEnter(s); }
    else if a.Pop? { OwnersPop(s); }
    else if a.Reap? { OwnersReap(s, a.pid, a.exit); }
    else { OwnersScope(s, a); }
  }

  /** All the gatherings of the run meet the condition. */
  ghost predicate SafeDrains(s: LoopState, acts: seq<Action>) {
    acts != [] ==>
      var before := acts[..|acts| - 1];
      && SafeDrains(s, before)
      && (Exec(s, before).Some? ==> SafeDrain(Exec(s, before).value, acts[|acts| - 1]))
  }

  /**
   As long as every gathering meets the condition, the owners of a run keep their slots, and so each
   gathering again leaves a clean partition exactly when it meets the condition.
   */
  lemma {:induction false} SafeDrainsKeepOwners(s: LoopState, acts: seq<Action>)
    requires Inv(s) && s.policy.AsWritten? && OwnersStored(s.events, s.ios, s.iosReleased)
    requires Exec(s, acts).Some? && SafeDrains(s, acts)
    ensures var s' := Exec(s, acts).value;
            && OwnersStored(s'.events, s'.ios, s'.iosReleased)
            && (Can(s', Drain) ==>
                  (Asserts(s', Drain) && IoPartition(s'.events, DrainReleased(s').ios, DrainReleased(s').iosReleased)
                   <==> OnlyDeadWait(s')))
  {
    hide Inv, OwnersStored, Step, Apply, SafeDrain, OnlyDeadWait, IoPartition;
    RunLater(s, acts);
    if acts != [] {
      var before := acts[..|acts| - 1];
      SafeDrainsKeepOwners(s, before);
      RunKeepsInv(s, before);
      RunLater(s, before);
      OwnersStep(Exec(s, before).value, acts[|acts| - 1]);
    }
    if Can(Exec(s, acts).value, Drain) { DrainSafeExactly(Exec(s, acts).value); }
  }

  // ----- What the code as written does -----

  ghost predicate Freed(s: LoopState, idx: nat) {
    idx in s.iosReleased && idx !in s.ios
  }

  lemma FreedStays(s: LoopState, a: Action, idx: nat)
    requires Freed(s, idx) && Step(s, a) && a != IoRegister(idx)
    ensures Freed(Apply(s, a), idx)
  {
    if Config(a) { ConfigIoSame(s, a); }
    else if Gather(a) { if !a.Drain? { GatherIoSame(s, a); } }
    else { DispatchKeepsFreed(s, a, idx); }
  }

  lemma DispatchKeepsFreed(s: LoopState, a: Action, idx: nat)
    requires Freed(s, idx) && Step(s, a) && a != IoRegister(idx) && !Config(a) && !Gather(a)
    ensures Freed(Apply(s, a), idx)
  {}

  lemma {:induction false} FreedBreaksGathering(s: LoopState, idx: nat, acts: seq<Action>)
    requires Freed(s, idx) && Exec(s, acts).Some? && IoRegister(idx) !in acts
    ensures var s' := Exec(s, acts).value;
            Freed(s', idx) && (Can(s', Drain) ==> !Asserts(s', Drain))
  {
    hide Step, Apply;
    if acts != [] {
      var before := acts[..|acts| - 1];
      FreedBreaksGathering(s, idx, before);
      FreedStays(Exec(s, before).value, acts[|acts| - 1], idx);
    }
  }

  /**
   After `io_remove` of an owned index, the next gathering fails an assertion of the slab, whatever
   happens in between, unless that very index is registered again first.
   */
  lemma RemoveBreaksGathering(s: LoopState, id: IoToken, acts: seq<Action>)
    requires s.policy.AsWritten? && Step(s, IoRemove(id)) && Owns(s.events, Top(s), id - TOKEN_SHIFT)
    requires Exec(RemoveIo(s, id), acts).Some? && IoRegister(id - TOKEN_SHIFT) !in acts
    ensures var s' := Exec(RemoveIo(s, id), acts).value;
            Can(s', Drain) ==> !Asserts(s', Drain)
  {
    FreedByRemoval(s, id);
    hide Exec, Step, RemoveIo, Can, Asserts;
    FreedBreaksGathering(RemoveIo(s, id), id - TOKEN_SHIFT, acts);
  }

  lemma FreedByRemoval(s: LoopState, id: IoToken)
    requires s.policy.AsWritten? && s.stack != [] && Owns(s.events, Top(s), id - TOKEN_SHIFT)
    ensures Freed(RemoveIo(s, id), id - TOKEN_SHIFT)
  {}

  /** A run of a fresh loop: one event registers an IO, removes it, and the loop wants to gather. */
  const SHORTEST_FAILURE: seq<Action> := [Insert(0), Enter, IoRegister(0), IoRemove(2), Leave(Keep)]

  lemma ShortestFailure(policy: RemovePolicy)
    ensures var r := Exec(Start(policy, 1, 0, 0), SHORTEST_FAILURE);
            && r.Some?
            && Can(r.value, Drain)
            && (Asserts(r.value, Drain) <==> policy.Deferred?)
  {
    hide Exec, Start, Step, Apply, HoldsOneIo, InInit, Asserts, Can;
    var s0 := Start(policy, 1, 0, 0);
    var s2 := FirstInit(policy);
    FirstIo(s2);
    ExecOneMore(s0, [Insert(0), Enter], IoRegister(0));
    var s3 := Apply(s2, IoRegister(0));
    LastSteps(s3);
    OnTwo(s0, [Insert(0), Enter] + [IoRegister(0)], s3, IoRemove(2), Leave(Keep));
    assert [Insert(0), Enter] + [IoRegister(0)] + [IoRemove(2), Leave(Keep)] == SHORTEST_FAILURE;
  }

  lemma FirstInit(policy: RemovePolicy) returns (s: LoopState)
    ensures Exec(Start(policy, 1, 0, 0), [Insert(0), Enter]) == Some(s) && InInit(s) && s.policy == policy
  {
    FirstCall(policy);
    var s0 := Start(policy, 1, 0, 0);
    s := EnterCall(InsertEvent(s0, 0));
    hide Start, Can, Asserts, InsertEvent, EnterCall, InInit;
    OnTwo(s0, [], s0, Insert(0), Enter);
    assert [] + [Insert(0), Enter] == [Insert(0), Enter];
  }

  lemma OnTwo(first: LoopState, acts: seq<Action>, s: LoopState, a: Action, b: Action)
    requires Exec(first, acts) == Some(s) && Step(s, a) && Step(Apply(s, a), b)
    ensures Exec(first, acts + [a, b]) == Some(Apply(Apply(s, a), b))
  {
    hide Exec, Step, Apply;
    ExecOneMore(first, acts, a);
    ExecOneMore(first, acts + [a], b);
    assert acts + [a] + [b] == acts + [a, b];
  }

  ghost predicate HoldsOneIo(s: LoopState) {
    var h := Handle(0, 0);
    && s.scheduled == [] && s.pending.None? && s.stack == [h]
    && Alive(s.events, h) && s.events[0].ios == map[0 := 0]
    && s.ios == map[0 := h] && s.iosReleased == {}
  }

  /** The event in its first callback, before it registers anything. */
  ghost predicate InInit(s: LoopState) {
    var h := Handle(0, 0);
    && s.scheduled == [] && s.pending.None? && s.stack == [h] && s.registrations == 0
    && s.generation == 1 && s.events.Keys == {0}
    && Alive(s.events, h) && s.events[0].stolen && s.events[0].ios == map[] && s.ios == map[] && s.iosReleased == {}
  }

  lemma FirstCall(policy: RemovePolicy)
    ensures var s0 := Start(policy, 1, 0, 0);
            && Step(s0, Insert(0)) && Step(InsertEvent(s0, 0), Enter)
            && var s2 := EnterCall(InsertEvent(s0, 0)); InInit(s2) && s2.policy == policy
  {
    var s1 := InsertEvent(Start(policy, 1, 0, 0), 0);
    assert s1.events[0] == Fresh(0);
  }

  lemma FirstIo(s: LoopState)
    requires InInit(s)
    ensures Step(s, IoRegister(0)) && HoldsOneIo(Apply(s, IoRegister(0))) && Apply(s, IoRegister(0)).policy == s.policy
  {
    assert Top(s) == Handle(0, 0);
    var s' := RegisterIo(s, 0);
    assert s'.ios == map[0 := Handle(0, 0)] && s'.events[0].ios == map[0 := 0];
  }

  lemma LastSteps(s: LoopState)
    requires HoldsOneIo(s)
    ensures Step(s, IoRemove(2))
    ensures Step(Apply(s, IoRemove(2)), Leave(Keep))
    ensures var s' := Apply(Apply(s, IoRemove(2)), Leave(Keep));
            Can(s', Drain) && (Asserts(s', Drain) <==> s.policy.Deferred?)
  {
    RemovedOnly(s);
    hide RemoveIo;
    assert Apply(s, IoRemove(2)) == RemoveIo(s, 2);
    hide Step, Apply;
    LeftWith(RemoveIo(s, 2), 0);
  }

  /** A callback returns while one index waits for release. */
  lemma LeftWith(s: LoopState, k: nat)
    requires s.pending.None? && s.scheduled == [] && s.stack == [Handle(0, 0)] && 0 in s.events && s.iosReleased == {k}
    ensures Step(s, Leave(Keep)) && Can(Apply(s, Leave(Keep)), Drain)
    ensures Asserts(Apply(s, Leave(Keep)), Drain) <==> k in s.ios
  {
    assert Top(s) == Handle(0, 0);
  }

  lemma RemovedOnly(s: LoopState)
    requires HoldsOneIo(s)
    ensures Step(s, IoRemove(2))
    ensures var s' := RemoveIo(s, 2);
            && s'.scheduled == [] && s'.pending.None? && s'.stack == [Handle(0, 0)] && 0 in s'.events
            && s'.iosReleased == {0} && s'.ios == if s.policy.AsWritten? then map[] else map[0 := Handle(0, 0)]
  {
    assert Top(s) == Handle(0, 0);
  }
}
