/** One lemma for each action: the step keeps the invariant of the loop. */
module Steps {
  import opened Wrappers
  import opened EventLoop
  import opened Invariants
  import opened Preservation

  lemma TopAlive(s: LoopState)
    requires StackOk(s.events, s.stack, s.pending) && s.stack != []
    ensures Alive(s.events, Top(s)) && s.events[Top(s).id].stolen
  {
    assert Top(s) in s.stack;
    assert At(s.events, Top(s).id) == Top(s);
  }

  // ----- Steps that leave the events alone -----

  lemma PostQueues(s: LoopState, to: Handle, data: int, tp: MsgType)
    requires MsgTypeCheck(s.events, to, tp).None?
    requires StackOk(s.events, s.stack, None) && MessagesOk(s.events, s.scheduled, None)
    ensures StackOk(s.events, s.stack, PostMessage(s, to, data, tp).pending)
    ensures MessagesOk(s.events, s.scheduled, PostMessage(s, to, data, tp).pending)
  {}

  lemma PostKeeps(s: LoopState, to: Handle, data: int, tp: MsgType)
    requires Inv(s) && s.pending.None?
    ensures Inv(PostMessage(s, to, data, tp))
  {
    hide GenerationsOk, StackOk, QueueTimersOk, TimersUnique, Accounts, IoPartition, IoQueueOk, RegistrationsOk,
      ChildrenOk, IdleOk, SignalsOk, MessagesOk, RecipientsKnown, HistoryOk;
    if MsgTypeCheck(s.events, to, tp).None? {
      PostQueues(s, to, data, tp);
      NothingInHand(s, PostMessage(s, to, data, tp));
    }
  }

  lemma SendKeeps(s: LoopState, to: Handle, data: int, tp: MsgType)
    requires Inv(s) && s.pending.None?
    ensures Inv(SendMessage(s, to, data, tp))
  {
    if MsgTypeCheck(s.events, to, tp).None? {
      PushKeeps(s, Task(to, Msg(Message(data, tp, Sent(Owner(s))))));
    }
  }

  lemma SignalsEnable(s: LoopState, sig: nat)
    requires SignalsOk(s.events, s.recipients, s.enabled) && sig < |s.enabled|
    ensures SignalsOk(s.events, s.recipients, s.enabled[sig := true])
  {}

  lemma SignalsWatch(s: LoopState, sig: nat, h: Handle)
    requires SignalsOk(s.events, s.recipients, s.enabled) && sig < |s.enabled| && Alive(s.events, h)
    ensures SignalsOk(s.events, s.recipients[sig := s.recipients[sig] + {h}], s.enabled[sig := true])
  {}

  lemma IdleAsk(events: map<nat, EvHolder>, wantIdle: seq<Handle>, h: Handle)
    requires IdleOk(events, wantIdle) && Alive(events, h)
    ensures IdleOk(events, Without(wantIdle, h) + [h])
  {
    WithoutDistinct(wantIdle, h);
    var rest := Without(wantIdle, h);
    assert forall k | 0 <= k < |rest| :: rest[k] in rest;
  }

  lemma ActiveKeeps(s: LoopState, on: bool)
    requires Inv(s)
    ensures Inv(s.(active := on))
  {
    hide GenerationsOk, StackOk, QueueTimersOk, TimersUnique, Accounts, IoPartition, IoQueueOk, RegistrationsOk,
      ChildrenOk, IdleOk, SignalsOk, MessagesOk, RecipientsKnown, HistoryOk;
  }

  lemma EnableKeeps(s: LoopState, sig: nat)
    requires Inv(s) && sig < |s.enabled|
    ensures Inv(s.(enabled := s.enabled[sig := true]))
  {
    hide GenerationsOk, StackOk, QueueTimersOk, TimersUnique, Accounts, IoPartition, IoQueueOk, RegistrationsOk,
      ChildrenOk, IdleOk, SignalsOk, MessagesOk, RecipientsKnown, HistoryOk;
    SignalsEnable(s, sig);
  }

  lemma SubscribeKeeps(s: LoopState, sig: nat)
    requires Inv(s) && s.stack != [] && sig < |s.enabled| && sig < |s.recipients|
    ensures Inv(SubscribeSignal(s, sig))
  {
    hide GenerationsOk, StackOk, QueueTimersOk, TimersUnique, Accounts, IoPartition, IoQueueOk, RegistrationsOk,
      ChildrenOk, IdleOk, SignalsOk, MessagesOk, RecipientsKnown, HistoryOk;
    TopAlive(s);
    SignalsWatch(s, sig, Top(s));
  }

  lemma AskIdleKeeps(s: LoopState, toBack: bool)
    requires Inv(s) && s.stack != []
    ensures Inv(RequestIdle(s, toBack))
  {
    hide GenerationsOk, StackOk, QueueTimersOk, TimersUnique, Accounts, IoPartition, IoQueueOk, RegistrationsOk,
      ChildrenOk, IdleOk, SignalsOk, MessagesOk, RecipientsKnown, HistoryOk;
    TopAlive(s);
    IdleAsk(s.events, s.wantIdle, Top(s));
  }

  lemma QueueTick(s: LoopState, now: Instant)
    requires QueueTimersOk(s.scheduled, s.timeouts, s.now) && s.now <= now
    ensures QueueTimersOk(s.scheduled, s.timeouts, now)
  {}

  lemma TickKeeps(s: LoopState, now: Instant)
    requires Inv(s) && s.now <= now
    ensures Inv(s.(now := now))
  {
    hide GenerationsOk, StackOk, QueueTimersOk, TimersUnique, Accounts, IoPartition, IoQueueOk, RegistrationsOk,
      ChildrenOk, IdleOk, SignalsOk, MessagesOk, RecipientsKnown, HistoryOk;
    QueueTick(s, now);
  }

  lemma InboxArrive(s: LoopState, m: RemoteMessage)
    requires m.message.mode.Background? ==> m.recipient.generation < s.generation
    requires RecipientsKnown(s.scheduled, s.inbox, s.ios, s.generation)
    ensures RecipientsKnown(s.scheduled, s.inbox + [m], s.ios, s.generation)
  {}

  lemma ArriveKeeps(s: LoopState, m: RemoteMessage)
    requires Inv(s) && (m.message.mode.Background? ==> m.recipient.generation < s.generation)
    ensures Inv(s.(inbox := s.inbox + [m]))
  {
    hide GenerationsOk, StackOk, QueueTimersOk, TimersUnique, Accounts, IoPartition, IoQueueOk, RegistrationsOk,
      ChildrenOk, IdleOk, SignalsOk, MessagesOk, RecipientsKnown, HistoryOk;
    InboxArrive(s, m);
  }

  lemma InboxTail(s: LoopState)
    requires RecipientsKnown(s.scheduled, s.inbox, s.ios, s.generation) && s.inbox != []
    ensures RecipientsKnown(s.scheduled, s.inbox[1..], s.ios, s.generation)
    ensures s.inbox[0].message.mode.Background? ==> s.inbox[0].recipient.generation < s.generation
  {}

  lemma ReceiveQueueable(s: LoopState)
    requires GenerationsOk(s.events, s.generation) && s.inbox != []
    requires RecipientsKnown(s.scheduled, s.inbox, s.ios, s.generation)
    ensures var m := s.inbox[0];
            m.message.mode.Background? || MsgTypeCheck(s.events, m.recipient, m.message.realType).None?
            ==> Queueable(s, Task(m.recipient, Msg(m.message)))
  {}

  lemma ReceiveKeeps(s: LoopState)
    requires Inv(s) && s.pending.None? && s.inbox != []
    ensures Inv(ReceiveMessage(s))
  {
    hide GenerationsOk, StackOk, QueueTimersOk, TimersUnique, Accounts, IoPartition, IoQueueOk, RegistrationsOk,
      ChildrenOk, IdleOk, SignalsOk, MessagesOk, RecipientsKnown, HistoryOk;
    hide Queueable;
    var m, s0 := s.inbox[0], s.(inbox := s.inbox[1..]);
    InboxTail(s);
    ReceiveQueueable(s);
    if m.message.mode.Background? || MsgTypeCheck(s.events, m.recipient, m.message.realType).None? {
      QueueableStays(s, s0, Task(m.recipient, Msg(m.message)));
      PushKeeps(s0, Task(m.recipient, Msg(m.message)));
    }
  }

  lemma QueueableStays(s: LoopState, s0: LoopState, t: Task)
    requires Queueable(s, t) && !t.param.Io? && s0.events == s.events && s0.generation == s.generation
    ensures Queueable(s0, t)
  {}

  lemma IdleTail(s: LoopState)
    requires GenerationsOk(s.events, s.generation) && IdleOk(s.events, s.wantIdle) && s.wantIdle != []
    ensures IdleOk(s.events, s.wantIdle[1..])
    ensures s.wantIdle[0].generation < s.generation
  {
    assert s.wantIdle[0] in s.wantIdle;
  }

  lemma PickIdleKeeps(s: LoopState)
    requires Inv(s) && s.pending.None? && s.wantIdle != []
    ensures Inv(QueueIdle(s))
  {
    hide GenerationsOk, StackOk, QueueTimersOk, TimersUnique, Accounts, IoPartition, IoQueueOk, RegistrationsOk,
      ChildrenOk, IdleOk, SignalsOk, MessagesOk, RecipientsKnown, HistoryOk;
    IdleTail(s);
    PushKeeps(s.(wantIdle := s.wantIdle[1..]), Task(s.wantIdle[0], Idle));
  }

  lemma BroadcastKeeps(s: LoopState, sig: nat, order: seq<Handle>)
    requires Inv(s) && s.pending.None? && sig < |s.recipients| && (set h | h in order) == s.recipients[sig]
    ensures Inv(BroadcastSignal(s, sig, order))
  {
    forall t | t in SignalTasks(sig, order) ensures !t.param.Timeout? && Queueable(s, t) {
      var k :| 0 <= k < |order| && SignalTasks(sig, order)[k] == t;
      assert order[k] in set h | h in order;
      assert Alive(s.events, t.recipient);
    }
    hide Inv;
    PushAllKeeps(s, SignalTasks(sig, order));
  }

  lemma ReadyQueueable(s: LoopState, owner: Handle, idx: nat)
    requires Alive(s.events, owner) && idx in s.events[owner.id].ios && idx in s.ios
    requires (s.policy.Deferred? ==> IoPartition(s.events, s.ios, s.iosReleased))
    requires RecipientsKnown(s.scheduled, s.inbox, s.ios, s.generation)
    ensures s.policy.Deferred? ==> s.ios[idx] == owner
    ensures s.ios[idx].generation < s.generation
  {
    assert Owns(s.events, owner, idx);
  }

  lemma ReadyKeeps(s: LoopState, owner: Handle, idx: nat, ready: nat)
    requires Inv(s) && s.pending.None?
    requires Alive(s.events, owner) && idx in s.events[owner.id].ios && idx in s.ios
    ensures Inv(QueueReady(s, owner, idx, ready))
  {
    hide GenerationsOk, StackOk, QueueTimersOk, TimersUnique, Accounts, IoPartition, IoQueueOk, RegistrationsOk,
      ChildrenOk, IdleOk, SignalsOk, MessagesOk, RecipientsKnown, HistoryOk;
    ReadyQueueable(s, owner, idx);
    PushKeeps(s, Task(s.ios[idx], Io(idx + TOKEN_SHIFT, ready, s.events[owner.id].ios[idx])));
  }

  // ----- Timers -----

  lemma AccountsStart(e: Table, h: Handle, ts: set<TimeoutHolder>, t: TimeoutHolder, inserted: int, fired: int, dead: int, dropped: nat)
    requires Accounts(ts, e, inserted, fired, dead, dropped)
    requires t !in ts && t.recipient == h && Alive(e, h)
    ensures Accounts(ts + {t}, e[h.id := e[h.id].(timeouts := e[h.id].timeouts + 1)], inserted + 1, fired, dead, dropped)
  {
    var e' := e[h.id := e[h.id].(timeouts := e[h.id].timeouts + 1)];
    assert DeadTimers(ts + {t}, e') == DeadTimers(ts, e);
    forall i | i in e' ensures e'[i].timeouts == |TimersOf(ts + {t}, At(e', i))| {
      assert At(e', i) == At(e, i);
      assert TimersOf(ts + {t}, At(e, i)) == TimersOf(ts, At(e, i)) + if i == h.id then {t} else {};
    }
  }

  /** A timer is fired: it leaves the store and the count of its event goes down. */
  lemma AccountsFire(e: Table, h: Handle, ts: set<TimeoutHolder>, t: TimeoutHolder, inserted: int, fired: int, dead: int, dropped: nat)
    requires Accounts(ts, e, inserted, fired, dead, dropped)
    requires t in ts && t.recipient == h && Alive(e, h)
    ensures e[h.id].timeouts >= 1
    ensures Accounts(ts - {t}, e[h.id := e[h.id].(timeouts := e[h.id].timeouts - 1)], inserted, fired + 1, dead, dropped)
  {
    var e' := e[h.id := e[h.id].(timeouts := e[h.id].timeouts - 1)];
    assert At(e, h.id) == h && t in TimersOf(ts, h);
    assert DeadTimers(ts - {t}, e') == DeadTimers(ts, e);
    forall i | i in e' ensures e'[i].timeouts == |TimersOf(ts - {t}, At(e', i))| {
      assert At(e', i) == At(e, i);
      assert TimersOf(ts - {t}, At(e, i)) == TimersOf(ts, At(e, i)) - if i == h.id then {t} else {};
    }
  }

  /** A timer of a dead event is thrown away. */
  lemma AccountsDrop(e: Table, ts: set<TimeoutHolder>, t: TimeoutHolder, inserted: int, fired: int, dead: int, dropped: nat)
    requires Accounts(ts, e, inserted, fired, dead, dropped)
    requires t in ts && !Alive(e, t.recipient)
    ensures Accounts(ts - {t}, e, inserted, fired, dead, dropped + 1)
  {
    assert DeadTimers(ts - {t}, e) == DeadTimers(ts, e) - {t};
    forall i | i in e ensures e[i].timeouts == |TimersOf(ts - {t}, At(e, i))| {
      assert TimersOf(ts - {t}, At(e, i)) == TimersOf(ts, At(e, i));
    }
  }

  lemma UniqueWithout(ts: set<TimeoutHolder>, t: TimeoutHolder, timeoutGeneration: nat, generation: nat, spent: set<nat>)
    requires TimersUnique(ts, timeoutGeneration, generation, spent) && t in ts
    ensures TimersUnique(ts - {t}, timeoutGeneration, generation, spent + {t.id})
  {}

  lemma StoreStart(s: LoopState, t: TimeoutHolder)
    requires TimersUnique(Outstanding(s), s.timeoutGeneration, s.generation, s.spent)
    requires QueueTimersOk(s.scheduled, s.timeouts, s.now)
    requires t.id == s.timeoutGeneration && t.recipient.generation < s.generation
    ensures t !in Outstanding(s)
    ensures (s.timeouts + {t}) + QueuedTimers(s.scheduled) == Outstanding(s) + {t}
    ensures TimersUnique(Outstanding(s) + {t}, s.timeoutGeneration + 1, s.generation, s.spent)
    ensures QueueTimersOk(s.scheduled, s.timeouts + {t}, s.now)
  {}

  lemma TimeoutAtKeeps(s: LoopState, when: Instant)
    requires Inv(s) && s.pending.None? && s.stack != [] && Top(s).id in s.events
    ensures Inv(StartTimeout(s, when))
  {
    hide GenerationsOk, StackOk, QueueTimersOk, TimersUnique, Accounts, IoPartition, IoQueueOk, RegistrationsOk,
      ChildrenOk, IdleOk, SignalsOk, MessagesOk, RecipientsKnown, HistoryOk;
    var s' := StartTimeout(s, when);
    var h := Top(s);
    var t := TimeoutHolder(s.timeoutGeneration, h, when);
    TopKnown(s);
    EditKeeps(s, s'.events);
    StoreStart(s, t);
    AccountsStart(s.events, h, Outstanding(s), t, s.timeoutsInserted, s.timeoutsFired, s.timeoutsDead, s.dropped);
  }

  lemma TopKnown(s: LoopState)
    requires GenerationsOk(s.events, s.generation) && StackOk(s.events, s.stack, s.pending) && s.stack != []
    ensures Alive(s.events, Top(s)) && Top(s).generation < s.generation
  {
    TopAlive(s);
  }

  lemma StoreDrop(s: LoopState, t: TimeoutHolder)
    requires QueueTimersOk(s.scheduled, s.timeouts, s.now) && t in s.timeouts
    ensures QueueTimersOk(s.scheduled, s.timeouts - {t}, s.now)
    ensures (s.timeouts - {t}) + QueuedTimers(s.scheduled) == Outstanding(s) - {t}
  {}

  lemma DropDeadKeeps(s: LoopState, t: TimeoutHolder)
    requires Inv(s) && t in s.timeouts && !Alive(s.events, t.recipient)
    ensures Inv(DropTimer(s, t))
  {
    hide GenerationsOk, StackOk, QueueTimersOk, TimersUnique, Accounts, IoPartition, IoQueueOk, RegistrationsOk,
      ChildrenOk, IdleOk, SignalsOk, MessagesOk, RecipientsKnown, HistoryOk;
    StoreDrop(s, t);
    UniqueWithout(Outstanding(s), t, s.timeoutGeneration, s.generation, s.spent);
    AccountsDrop(s.events, Outstanding(s), t, s.timeoutsInserted, s.timeoutsFired, s.timeoutsDead, s.dropped);
  }

  lemma StoreDue(s: LoopState, t: TimeoutHolder)
    requires QueueTimersOk(s.scheduled, s.timeouts, s.now) && t in s.timeouts && t.when <= s.now
    ensures var q := s.scheduled + [Task(t.recipient, Timeout(t.id, t.when))];
            && QueueTimersOk(q, s.timeouts - {t}, s.now)
            && (s.timeouts - {t}) + QueuedTimers(q) == Outstanding(s)
  {
    QueuedAppend(s.scheduled, Task(t.recipient, Timeout(t.id, t.when)));
  }

  lemma DueKnown(s: LoopState, t: TimeoutHolder)
    requires TimersUnique(Outstanding(s), s.timeoutGeneration, s.generation, s.spent) && t in s.timeouts
    ensures t.recipient.generation < s.generation
  {}

  lemma DueKeeps(s: LoopState, t: TimeoutHolder)
    requires Inv(s) && s.pending.None? && t in s.timeouts && t.when <= s.now
    ensures Inv(QueueDue(s, t))
  {
    hide GenerationsOk, StackOk, QueueTimersOk, TimersUnique, Accounts, IoPartition, IoQueueOk, RegistrationsOk,
      ChildrenOk, IdleOk, SignalsOk, MessagesOk, RecipientsKnown, HistoryOk;
    StoreDue(s, t);
    DueKnown(s, t);
    PushQueues(s, Task(t.recipient, Timeout(t.id, t.when)));
  }

  lemma {:induction false} NoneQueued(q: seq<Task>)
    requires NoTimersQueued(q)
    ensures QueuedTimers(q) == {}
  {
    if q != [] {
      NoneQueued(q[1..]);
    }
  }

  /** When no timer is queued, the statistics tell exactly how many dead timers the heap holds. */
  lemma StatsExact(s: LoopState)
    requires NoTimersQueued(s.scheduled)
    requires Accounts(Outstanding(s), s.events, s.timeoutsInserted, s.timeoutsFired, s.timeoutsDead, s.dropped)
    ensures Outstanding(s) == s.timeouts
    ensures s.timeoutsInserted >= |s.timeouts|
    ensures HandledDead(s) == s.dropped
    ensures StillDead(s) == |DeadTimers(s.timeouts, s.events)|
    ensures |s.timeouts| - StillDead(s) == |LiveTimers(s.timeouts, s.events)|
  {
    NoneQueued(s.scheduled);
    assert Outstanding(s) == s.timeouts;
    var dead, live := DeadTimers(s.timeouts, s.events), LiveTimers(s.timeouts, s.events);
    assert s.timeouts == dead + live && dead !! live;
  }

  lemma AccountsReset(s: LoopState)
    requires NoTimersQueued(s.scheduled)
    requires Accounts(Outstanding(s), s.events, s.timeoutsInserted, s.timeoutsFired, s.timeoutsDead, s.dropped)
    ensures Accounts(s.timeouts, s.events, |s.timeouts|, 0, StillDead(s), 0)
    ensures var pruned := LiveTimers(s.timeouts, s.events); Accounts(pruned, s.events, |pruned|, 0, 0, 0)
  {
    StatsExact(s);
    var pruned := LiveTimers(s.timeouts, s.events);
    assert DeadTimers(pruned, s.events) == {};
    forall i | i in s.events ensures s.events[i].timeouts == |TimersOf(pruned, At(s.events, i))| {
      assert TimersOf(pruned, At(s.events, i)) == TimersOf(s.timeouts, At(s.events, i));
    }
  }

  lemma StorePruned(s: LoopState)
    requires NoTimersQueued(s.scheduled)
    requires QueueTimersOk(s.scheduled, s.timeouts, s.now)
    requires TimersUnique(Outstanding(s), s.timeoutGeneration, s.generation, s.spent)
    ensures var pruned := LiveTimers(s.timeouts, s.events);
            && QueueTimersOk(s.scheduled, pruned, s.now)
            && pruned + QueuedTimers(s.scheduled) == pruned
            && TimersUnique(pruned, s.timeoutGeneration, s.generation,
                            s.spent + IdsOf(s.timeouts - pruned))
  {
    NoneQueued(s.scheduled);
  }

  lemma ResetKeeps(s: LoopState)
    requires Inv(s) && NoTimersQueued(s.scheduled)
    ensures Inv(ResetStatistics(s))
  {
    hide GenerationsOk, StackOk, QueueTimersOk, TimersUnique, Accounts, IoPartition, IoQueueOk, RegistrationsOk,
      ChildrenOk, IdleOk, SignalsOk, MessagesOk, RecipientsKnown, HistoryOk;
    NoneQueued(s.scheduled);
    AccountsReset(s);
  }

  lemma PruneKeeps(s: LoopState)
    requires Inv(s) && NoTimersQueued(s.scheduled)
    ensures Inv(PruneDead(ResetStatistics(s)))
  {
    hide GenerationsOk, StackOk, QueueTimersOk, TimersUnique, Accounts, IoPartition, IoQueueOk, RegistrationsOk,
      ChildrenOk, IdleOk, SignalsOk, MessagesOk, RecipientsKnown, HistoryOk;
    AccountsReset(s);
    StorePruned(s);
  }

  lemma CleanupKeeps(s: LoopState)
    requires Inv(s) && NoTimersQueued(s.scheduled)
    ensures Inv(CleanupTimers(s))
  {
    hide Inv;
    ResetKeeps(s);
    PruneKeeps(s);
  }

  // ----- IO -----

  lemma IoRegisterIo(s: LoopState, idx: nat)
    requires s.stack != [] && idx !in s.ios && Alive(s.events, Top(s)) && IoOk(s)
    ensures IoOk(RegisterIo(s, idx))
  {
    var s' := RegisterIo(s, idx);
    forall h, k ensures Owns(s'.events, h, k) <==> Owns(s.events, h, k) || (h == Top(s) && k == idx) {}
    forall k | k in s'.ios ensures k in s'.iosReleased || Owns(s'.events, s'.ios[k], k) {
      assert k != idx ==> k in s.ios;
    }
  }

  lemma IoRegisterKnown(s: LoopState, idx: nat)
    requires s.stack != [] && idx !in s.ios && Alive(s.events, Top(s)) && Top(s).generation < s.generation
    requires RegistrationsOk(s.events, s.registrations) && RecipientsKnown(s.scheduled, s.inbox, s.ios, s.generation)
    ensures var s' := RegisterIo(s, idx);
            && RegistrationsOk(s'.events, s'.registrations)
            && RecipientsKnown(s'.scheduled, s'.inbox, s'.ios, s'.generation)
  {
    var s' := RegisterIo(s, idx);
    forall h, k | Owns(s'.events, h, k) ensures s'.events[h.id].ios[k] < s'.registrations {
      assert Owns(s.events, h, k) || (h == Top(s) && k == idx);
    }
  }

  lemma IoRegisterKeeps(s: LoopState, idx: nat)
    requires Inv(s) && s.pending.None? && s.stack != [] && Top(s).id in s.events && idx !in s.ios
    ensures Inv(RegisterIo(s, idx))
  {
    hide GenerationsOk, StackOk, QueueTimersOk, TimersUnique, Accounts, IoPartition, IoQueueOk, RegistrationsOk,
      ChildrenOk, IdleOk, SignalsOk, MessagesOk, RecipientsKnown, HistoryOk;
    TopKnown(s);
    EditKeeps(s, RegisterIo(s, idx).events);
    IoRegisterKnown(s, idx);
    if s.policy.Deferred? { IoRegisterIo(s, idx); }
  }

  lemma IoRemoveIo(s: LoopState, id: IoToken)
    requires s.stack != [] && Alive(s.events, Top(s)) && s.policy.Deferred? && IoOk(s)
    ensures IoOk(RemoveIo(s, id))
  {
    var s', idx := RemoveIo(s, id), id - TOKEN_SHIFT;
    if idx in s.events[Top(s).id].ios {
      assert Owns(s.events, Top(s), idx);
      forall h, k ensures Owns(s'.events, h, k) <==> Owns(s.events, h, k) && !(h == Top(s) && k == idx) {}
      forall k | k in s'.ios ensures k in s'.iosReleased || Owns(s'.events, s'.ios[k], k) {
        assert k in s.iosReleased || Owns(s.events, s.ios[k], k);
      }
    }
  }

  lemma IoRemoveKnown(s: LoopState, id: IoToken)
    requires s.stack != [] && Alive(s.events, Top(s))
    requires RegistrationsOk(s.events, s.registrations) && RecipientsKnown(s.scheduled, s.inbox, s.ios, s.generation)
    ensures var s' := RemoveIo(s, id);
            && RegistrationsOk(s'.events, s'.registrations)
            && RecipientsKnown(s'.scheduled, s'.inbox, s'.ios, s'.generation)
  {
    var s' := RemoveIo(s, id);
    forall h, k | Owns(s'.events, h, k) ensures s'.events[h.id].ios[k] < s'.registrations {
      assert Owns(s.events, h, k);
    }
  }

  lemma IoRemoveKeeps(s: LoopState, id: IoToken)
    requires Inv(s) && s.pending.None? && s.stack != [] && Top(s).id in s.events
    ensures Inv(RemoveIo(s, id))
  {
    hide GenerationsOk, StackOk, QueueTimersOk, TimersUnique, Accounts, IoPartition, IoQueueOk, RegistrationsOk,
      ChildrenOk, IdleOk, SignalsOk, MessagesOk, RecipientsKnown, HistoryOk;
    TopKnown(s);
    EditKeeps(s, RemoveIo(s, id).events);
    IoRemoveKnown(s, id);
    if s.policy.Deferred? { IoRemoveIo(s, id); }
  }

  lemma DrainIo(s: LoopState)
    requires s.scheduled == [] && s.pending.None? && IoOk(s)
    ensures IoOk(DrainReleased(s))
  {
    var s' := DrainReleased(s);
    forall k | k in s'.ios ensures Owns(s'.events, s'.ios[k], k) {
      assert k in s.ios && k !in s.iosReleased;
    }
  }

  lemma DrainKnown(s: LoopState)
    requires RecipientsKnown(s.scheduled, s.inbox, s.ios, s.generation)
    ensures RecipientsKnown(s.scheduled, s.inbox, s.ios - s.iosReleased, s.generation)
  {}

  lemma DrainKeeps(s: LoopState)
    requires Inv(s) && s.pending.None? && s.scheduled == []
    ensures Inv(DrainReleased(s))
  {
    hide GenerationsOk, StackOk, QueueTimersOk, TimersUnique, Accounts, IoPartition, IoQueueOk, RegistrationsOk,
      ChildrenOk, IdleOk, SignalsOk, MessagesOk, RecipientsKnown, HistoryOk;
    DrainKnown(s);
    if s.policy.Deferred? { DrainIo(s); }
  }

  // ----- Children and expectations -----

  lemma ExpectKeeps(s: LoopState, tp: MsgType)
    requires Inv(s) && s.pending.None? && s.stack != [] && Top(s).id in s.events
    ensures Inv(ExpectType(s, tp))
  {
    hide GenerationsOk, StackOk, QueueTimersOk, TimersUnique, Accounts, IoPartition, IoQueueOk, RegistrationsOk,
      ChildrenOk, IdleOk, SignalsOk, MessagesOk, RecipientsKnown, HistoryOk;
    TopKnown(s);
    EditKeeps(s, ExpectType(s, tp).events);
  }

  lemma ChildrenWatch(s: LoopState, pid: Pid)
    requires s.stack != [] && s.sigchld < |s.enabled| && pid !in s.children
    requires Alive(s.events, Top(s)) && ChildrenOk(s.events, s.children)
    ensures ChildrenOk(TrackChild(s, pid).events, TrackChild(s, pid).children)
  {
    var s' := TrackChild(s, pid);
    forall i, p | i in s'.events && p in s'.events[i].children
      ensures p in s'.children && s'.children[p] == At(s'.events, i)
    {
      assert At(s'.events, i) == At(s.events, i);
      if !(i == Top(s).id && p == pid) {
        assert p in s.events[i].children;
      }
    }
  }

  lemma WatchChildKeeps(s: LoopState, pid: Pid)
    requires Inv(s) && s.pending.None? && s.stack != [] && Top(s).id in s.events
    requires s.sigchld < |s.enabled| && pid !in s.children
    ensures Inv(TrackChild(s, pid))
  {
    hide GenerationsOk, StackOk, QueueTimersOk, TimersUnique, Accounts, IoPartition, IoQueueOk, RegistrationsOk,
      ChildrenOk, IdleOk, SignalsOk, MessagesOk, RecipientsKnown, HistoryOk;
    TopKnown(s);
    EditKeeps(s, TrackChild(s, pid).events);
    ChildrenWatch(s, pid);
    SignalsEnable(s.(events := TrackChild(s, pid).events), s.sigchld);
  }

  ghost function Orphaned(s: LoopState, pid: Pid): LoopState
    requires pid in s.children && s.children[pid].id in s.events
  {
    var h := s.children[pid];
    var ev := s.events[h.id];
    PutEvent(s, h, ev.(children := ev.children - {pid})).(children := s.children - {pid})
  }

  lemma ChildrenReap(s: LoopState, pid: Pid)
    requires ChildrenOk(s.events, s.children) && pid in s.children
    requires GenerationsOk(s.events, s.generation)
    ensures Alive(s.events, s.children[pid]) && s.children[pid].generation < s.generation
    ensures ChildrenOk(Orphaned(s, pid).events, Orphaned(s, pid).children)
  {
    var s', h := Orphaned(s, pid), s.children[pid];
    forall p | p in s'.children
      ensures Alive(s'.events, s'.children[p]) && p in s'.events[s'.children[p].id].children
    {
      assert p in s.children && p != pid;
    }
    forall i, p | i in s'.events && p in s'.events[i].children
      ensures p in s'.children && s'.children[p] == At(s'.events, i)
    {
      assert At(s'.events, i) == At(s.events, i) && p in s.events[i].children;
    }
  }

  lemma ReapKeeps(s: LoopState, pid: Pid, exit: int)
    requires Inv(s) && s.pending.None? && (pid in s.children ==> s.children[pid].id in s.events)
    ensures Inv(ReapChild(s, pid, exit))
  {
    hide GenerationsOk, StackOk, QueueTimersOk, TimersUnique, Accounts, IoPartition, IoQueueOk, RegistrationsOk,
      ChildrenOk, IdleOk, SignalsOk, MessagesOk, RecipientsKnown, HistoryOk;
    if pid in s.children {
      ChildrenReap(s, pid);
      EditKeeps(s, Orphaned(s, pid).events);
      PushKeeps(Orphaned(s, pid), Task(s.children[pid], Child(pid, exit)));
    }
  }

  // ----- Dispatch -----

  lemma PopQueues(s: LoopState)
    requires s.scheduled != [] && s.pending.None?
    requires QueueTimersOk(s.scheduled, s.timeouts, s.now)
    requires MessagesOk(s.events, s.scheduled, None)
    requires RecipientsKnown(s.scheduled, s.inbox, s.ios, s.generation)
    requires s.policy.Deferred? ==> IoQueueOk(s.scheduled, s.events, s.ios)
    ensures var t, q := s.scheduled[0], s.scheduled[1..];
            && QueueTimersOk(q, s.timeouts, s.now)
            && (!t.param.Timeout? ==> s.timeouts + QueuedTimers(q) == Outstanding(s))
            && (t.param.Timeout? ==>
                  && s.timeouts + QueuedTimers(q) == Outstanding(s) - {HolderOf(t)}
                  && HolderOf(t) in Outstanding(s)
                  && t.param.when <= s.now)
            && MessagesOk(s.events, q, None)
            && (Alive(s.events, t.recipient) ==> MessagesOk(s.events, q, Some(Call(t.recipient, Dispatched(t)))))
            && RecipientsKnown(q, s.inbox, s.ios, s.generation)
            && (s.policy.Deferred? ==> IoQueueOk(q, s.events, s.ios) && IoQueueOk([t], s.events, s.ios))
  {}

  lemma PopHistory(s: LoopState)
    requires s.scheduled != [] && HistoryOk(s.pushed, s.log, None, s.scheduled)
    ensures var t, q := s.scheduled[0], s.scheduled[1..];
            && HistoryOk(s.pushed, s.log, Some(Call(t.recipient, Dispatched(t))), q)
            && HistoryOk(s.pushed, s.log + [Handled(t, RecipientDead)], None, q)
            && HistoryOk(s.pushed, s.log + [Handled(t, IoGone)], None, q)
  {
    var t, q := s.scheduled[0], s.scheduled[1..];
    assert s.scheduled == [t] + q;
    assert Tasks(s.log + [Handled(t, RecipientDead)]) == Tasks(s.log) + [t];
    assert Tasks(s.log + [Handled(t, IoGone)]) == Tasks(s.log) + [t];
  }

  lemma PopStack(s: LoopState, c: Call)
    requires StackOk(s.events, s.stack, None) && Alive(s.events, c.target)
    ensures StackOk(s.events, s.stack, Some(c))
  {}

  lemma PopDeadTimerKeeps(s: LoopState)
    requires Inv(s) && s.pending.None? && s.scheduled != []
    requires s.scheduled[0].param.Timeout? && !Alive(s.events, s.scheduled[0].recipient)
    ensures Inv(PopTask(s))
  {
    hide GenerationsOk, StackOk, QueueTimersOk, TimersUnique, Accounts, IoPartition, IoQueueOk, RegistrationsOk,
      ChildrenOk, IdleOk, SignalsOk, MessagesOk, RecipientsKnown, HistoryOk;
    var t := HolderOf(s.scheduled[0]);
    PopQueues(s);
    PopHistory(s);
    UniqueWithout(Outstanding(s), t, s.timeoutGeneration, s.generation, s.spent);
    AccountsDrop(s.events, Outstanding(s), t, s.timeoutsInserted, s.timeoutsFired, s.timeoutsDead, s.dropped);
  }

  lemma PopOtherKeeps(s: LoopState)
    requires Inv(s) && s.pending.None? && s.scheduled != [] && !s.scheduled[0].param.Timeout?
    ensures Inv(PopTask(s))
  {
    hide GenerationsOk, StackOk, QueueTimersOk, TimersUnique, Accounts, IoPartition, IoQueueOk, RegistrationsOk,
      ChildrenOk, IdleOk, SignalsOk, MessagesOk, RecipientsKnown, HistoryOk;
    var t := s.scheduled[0];
    PopQueues(s);
    PopHistory(s);
    if Alive(s.events, t.recipient) {
      PopStack(s, Call(t.recipient, Dispatched(t)));
    }
  }

  lemma PopTimeoutTimers(s: LoopState)
    requires TimersOk(s) && s.scheduled != []
    requires s.scheduled[0].param.Timeout? && Alive(s.events, s.scheduled[0].recipient)
    requires QueueTimersOk(s.scheduled[1..], s.timeouts, s.now) && HolderOf(s.scheduled[0]) in Outstanding(s)
    requires s.timeouts + QueuedTimers(s.scheduled[1..]) == Outstanding(s) - {HolderOf(s.scheduled[0])}
    ensures TimersOk(PopTask(s))
  {
    hide QueueTimersOk, TimersUnique, Accounts;
    var t, ts := s.scheduled[0], Outstanding(s);
    UniqueWithout(ts, HolderOf(t), s.timeoutGeneration, s.generation, s.spent);
    AccountsFire(s.events, t.recipient, ts, HolderOf(t), s.timeoutsInserted, s.timeoutsFired, s.timeoutsDead, s.dropped);
  }

  lemma PopTimeoutIs(s: LoopState)
    requires s.scheduled != [] && s.scheduled[0].param.Timeout? && Alive(s.events, s.scheduled[0].recipient)
    ensures var t, ev := s.scheduled[0], s.events[s.scheduled[0].recipient.id];
            PopTask(s) == s.(scheduled := s.scheduled[1..], events := s.events[t.recipient.id := ev.(timeouts := ev.timeouts - 1)],
                             timeoutsFired := s.timeoutsFired + 1, spent := s.spent + {t.param.id},
                             pending := Some(Call(t.recipient, Dispatched(t))))
  {}

  lemma PopTimeoutKeeps(s: LoopState)
    requires Inv(s) && s.pending.None? && s.scheduled != []
    requires s.scheduled[0].param.Timeout? && Alive(s.events, s.scheduled[0].recipient)
    ensures Inv(PopTask(s))
  {
    hide GenerationsOk, StackOk, QueueTimersOk, TimersUnique, Accounts, IoPartition, IoQueueOk, RegistrationsOk,
      ChildrenOk, IdleOk, SignalsOk, MessagesOk, RecipientsKnown, HistoryOk;
    var t, s' := s.scheduled[0], PopTask(s);
    PopHistory(s);
    PopTimeoutIs(s);
    hide PopTask;
    EditKeeps(s, s'.events);
    PopQueues(s);
    PopStack(s.(events := s'.events), Call(t.recipient, Dispatched(t)));
    MessagesEdit(s.events, s'.events, s'.scheduled, s'.pending);
    PopTimeoutTimers(s);
    hide TimersOk;
    if s.policy.Deferred? { IoEdit(s.(scheduled := s'.scheduled, pending := s'.pending), s'.events); }
  }

  lemma StackEnter(s: LoopState)
    requires s.pending.Some? && StackOk(s.events, s.stack, s.pending)
    ensures StackOk(EnterCall(s).events, EnterCall(s).stack, None)
  {
    var h, s' := s.pending.value.target, EnterCall(s);
    assert At(s.events, h.id) == h;
    forall i | i in s'.events ensures s'.events[i].stolen <==> At(s'.events, i) in s'.stack {
      assert At(s'.events, i) == At(s.events, i);
    }
  }

  lemma EnterHistory(s: LoopState)
    requires s.pending.Some? && HistoryOk(s.pushed, s.log, s.pending, s.scheduled)
    ensures HistoryOk(s.pushed, EnterCall(s).log, None, s.scheduled)
  {
    assert Tasks(EnterCall(s).log) == Tasks(s.log) + InHand(s.pending);
  }

  lemma EnterQueues(s: LoopState)
    requires s.pending.Some? && MessagesOk(s.events, s.scheduled, s.pending)
    ensures MessagesOk(EnterCall(s).events, s.scheduled, None)
    ensures IoQueueOk(InHand(None), EnterCall(s).events, s.ios)
  {}

  lemma EnterKeeps(s: LoopState)
    requires Inv(s) && s.pending.Some?
    ensures Inv(EnterCall(s))
  {
    hide GenerationsOk, StackOk, QueueTimersOk, TimersUnique, Accounts, IoPartition, IoQueueOk, RegistrationsOk,
      ChildrenOk, IdleOk, SignalsOk, MessagesOk, RecipientsKnown, HistoryOk;
    var s' := EnterCall(s);
    EditKeeps(s, s'.events);
    EnterQueues(s);
    StackEnter(s);
    EnterHistory(s);
  }

  ghost function Unstolen(s: LoopState): LoopState
    requires s.stack != [] && Top(s).id in s.events
  {
    PutEvent(s, Top(s), s.events[Top(s).id].(stolen := false)).(stack := s.stack[..|s.stack| - 1])
  }

  /** When a callback returns, its event is still in its slot, with its generation, and stolen. */
  lemma StackLeave(s: LoopState)
    requires s.stack != [] && StackOk(s.events, s.stack, s.pending)
    ensures Alive(s.events, Top(s)) && s.events[Top(s).id].stolen
    ensures StackOk(Unstolen(s).events, Unstolen(s).stack, None)
    ensures Alive(Unstolen(s).events, Top(s)) && Top(s) !in Unstolen(s).stack
  {
    var h := Top(s);
    TopAlive(s);
    var s1 := Unstolen(s);
    assert forall g | g in s1.stack :: g in s.stack;
    assert forall g | g in s.stack :: g == h || g in s1.stack;
    forall i | i in s1.events ensures s1.events[i].stolen <==> At(s1.events, i) in s1.stack {
      assert At(s1.events, i) == At(s.events, i);
    }
  }

  lemma LeaveKeeps(s: LoopState, response: Response)
    requires Inv(s) && s.pending.None? && s.stack != [] && Top(s).id in s.events
    ensures Inv(LeaveCall(s, response))
  {
    hide GenerationsOk, StackOk, QueueTimersOk, TimersUnique, Accounts, IoPartition, IoQueueOk, RegistrationsOk,
      ChildrenOk, IdleOk, SignalsOk, MessagesOk, RecipientsKnown, HistoryOk;
    StackLeave(s);
    EditKeeps(s, Unstolen(s).events);
    if !response.Keep? { KillKeeps(Unstolen(s), Top(s)); }
  }

  /** Requests that touch no event. */
  ghost predicate Config(a: Action) {
    a.PostTo? || a.SendTo? || a.SetActive? || a.EnableSignal? || a.AskIdle? || a.WatchSignal? || a.Arrive?
  }

  /** The steps of gathering that touch no event. */
  ghost predicate Gather(a: Action) {
    a.Drain? || a.DropDead? || a.Tick? || a.Receive? || a.Broadcast? || a.Ready? || a.Cleanup? || a.Due?
    || a.PickIdle?
  }

  lemma ConfigKeeps(s: LoopState, a: Action)
    requires Inv(s) && Step(s, a) && Config(a)
    ensures Inv(Apply(s, a))
  {
    hide Inv, InsertEvent, PostMessage, SendMessage, StartTimeout, RequestIdle, SubscribeSignal, ExpectType,
      RegisterIo, RemoveIo, TrackChild, PopTask, EnterCall, LeaveCall, DrainReleased, DropTimer, ReceiveMessage,
      ReapChild, BroadcastSignal, QueueReady, CleanupTimers, QueueDue, QueueIdle;
    match a {
      case PostTo(to, data, tp) => PostKeeps(s, to, data, tp);
      case SendTo(to, data, tp) => SendKeeps(s, to, data, tp);
      case SetActive(on) => ActiveKeeps(s, on);
      case EnableSignal(sig) => EnableKeeps(s, sig);
      case WatchSignal(sig) => SubscribeKeeps(s, sig);
      case AskIdle(toBack) => AskIdleKeeps(s, toBack);
      case Arrive(m) => ArriveKeeps(s, m);
    }
  }

  lemma GatherKeeps(s: LoopState, a: Action)
    requires Inv(s) && Step(s, a) && Gather(a)
    ensures Inv(Apply(s, a))
  {
    hide Inv, InsertEvent, PostMessage, SendMessage, StartTimeout, RequestIdle, SubscribeSignal, ExpectType,
      RegisterIo, RemoveIo, TrackChild, PopTask, EnterCall, LeaveCall, DrainReleased, DropTimer, ReceiveMessage,
      ReapChild, BroadcastSignal, QueueReady, CleanupTimers, QueueDue, QueueIdle;
    match a {
      case Drain => DrainKeeps(s);
      case DropDead(t) => DropDeadKeeps(s, t);
      case Tick(now) => TickKeeps(s, now);
      case Receive => ReceiveKeeps(s);
      case Broadcast(sig, order) => BroadcastKeeps(s, sig, order);
      case Ready(owner, idx, ready) => ReadyKeeps(s, owner, idx, ready);
      case Cleanup => CleanupKeeps(s);
      case Due(t) => DueKeeps(s, t);
      case PickIdle => PickIdleKeeps(s);
    }
  }

  /** Every step keeps the invariant. */
  lemma StepKeepsInv(s: LoopState, a: Action)
    requires Inv(s) && Step(s, a)
    ensures Inv(Apply(s, a))
  {
    hide Inv, InsertEvent, PostMessage, SendMessage, StartTimeout, RequestIdle, SubscribeSignal, ExpectType,
      RegisterIo, RemoveIo, TrackChild, PopTask, EnterCall, LeaveCall, DrainReleased, DropTimer, ReceiveMessage,
      ReapChild, BroadcastSignal, QueueReady, CleanupTimers, QueueDue, QueueIdle;
    match a {
      case Insert(idx) => InsertKeeps(s, idx);
      case TimeoutAt(when) => TimeoutAtKeeps(s, when);
      case Expect(tp) => ExpectKeeps(s, tp);
      case IoRegister(idx) => IoRegisterKeeps(s, idx);
      case IoRemove(id) => IoRemoveKeeps(s, id);
      case WatchChild(pid) => WatchChildKeeps(s, pid);
      case Reap(pid, exit) => ReapKeeps(s, pid, exit);
      case Pop =>
        if !s.scheduled[0].param.Timeout? { PopOtherKeeps(s); }
        else if Alive(s.events, s.scheduled[0].recipient) { PopTimeoutKeeps(s); }
        else { PopDeadTimerKeeps(s); }
      case Enter => EnterKeeps(s);
      case Leave(response) => LeaveKeeps(s, response);
      case _ => if Config(a) { ConfigKeeps(s, a); } else { GatherKeeps(s, a); }
    }
  }
}
