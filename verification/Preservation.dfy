/**
 Every step keeps the invariants. First what each concern needs of a change of the event table, then
 one lemma for each action in Steps.dfy. `hide` keeps definitions that a proof does not need away from the
 solver: what a step does not touch is then unchanged by name alone.
 */
module Preservation {
  import opened Wrappers
  import opened EventLoop
  import opened Invariants

  type Table = map<nat, EvHolder>

  // ----- Editing events in place -----

  /** The same events with the same generations. */
  ghost predicate Edited(e: Table, e': Table) {
    && e'.Keys == e.Keys
    && (forall i | i in e :: e'[i].generation == e[i].generation)
  }

  lemma GenerationsEdit(e: Table, e': Table, generation: nat)
    requires Edited(e, e') && GenerationsOk(e, generation)
    ensures GenerationsOk(e', generation)
  {}

  lemma StackEdit(e: Table, e': Table, stack: seq<Handle>, pending: Option<Call>)
    requires Edited(e, e') && StackOk(e, stack, pending)
    requires forall i | i in e :: e'[i].stolen == e[i].stolen
    ensures StackOk(e', stack, None)
  {
    forall i | i in e' ensures e'[i].stolen <==> At(e', i) in stack {
      assert At(e', i) == At(e, i);
    }
  }

  lemma AccountsEdit(e: Table, e': Table, ts: set<TimeoutHolder>, inserted: int, fired: int, dead: int, dropped: nat)
    requires Edited(e, e') && Accounts(ts, e, inserted, fired, dead, dropped)
    requires forall i | i in e :: e'[i].timeouts == e[i].timeouts
    ensures Accounts(ts, e', inserted, fired, dead, dropped)
  {
    assert DeadTimers(ts, e') == DeadTimers(ts, e);
    forall i | i in e' ensures e'[i].timeouts == |TimersOf(ts, At(e', i))| {
      assert At(e', i) == At(e, i);
    }
  }

  lemma IoEdit(s: LoopState, e': Table)
    requires Edited(s.events, e') && IoOk(s)
    requires forall i | i in s.events :: e'[i].ios == s.events[i].ios
    ensures IoOk(s.(events := e'))
  {
    assert forall h, k :: Owns(e', h, k) <==> Owns(s.events, h, k);
  }

  lemma RegistrationsEdit(e: Table, e': Table, registrations: nat)
    requires Edited(e, e') && RegistrationsOk(e, registrations)
    requires forall i | i in e :: e'[i].ios == e[i].ios
    ensures RegistrationsOk(e', registrations)
  {
    forall h, k | Owns(e', h, k) ensures e'[h.id].ios[k] < registrations {
      assert Owns(e, h, k);
    }
  }

  lemma ChildrenEdit(e: Table, e': Table, children: map<Pid, Handle>)
    requires Edited(e, e') && ChildrenOk(e, children)
    requires forall i | i in e :: e'[i].children == e[i].children
    ensures ChildrenOk(e', children)
  {
    forall i, pid | i in e' && pid in e'[i].children
      ensures pid in children && children[pid] == At(e', i)
    {
      assert pid in e[i].children && At(e', i) == At(e, i);
    }
  }

  lemma IdleEdit(e: Table, e': Table, wantIdle: seq<Handle>)
    requires Edited(e, e') && IdleOk(e, wantIdle)
    ensures IdleOk(e', wantIdle)
  {}

  lemma SignalsEdit(e: Table, e': Table, recipients: seq<set<Handle>>, enabled: seq<bool>)
    requires Edited(e, e') && SignalsOk(e, recipients, enabled)
    ensures SignalsOk(e', recipients, enabled)
  {}

  /** Expected sets only grow, so a message that was checked stays deliverable. */
  lemma MessagesEdit(e: Table, e': Table, scheduled: seq<Task>, pending: Option<Call>)
    requires Edited(e, e') && MessagesOk(e, scheduled, pending)
    requires forall i | i in e :: e[i].expected <= e'[i].expected
    ensures MessagesOk(e', scheduled, pending)
  {}

  // ----- A new event -----

  ghost predicate Added(e: Table, e': Table, h: Handle) {
    h.id !in e && e' == e[h.id := Fresh(h.generation)]
  }

  lemma StackAdd(e: Table, e': Table, h: Handle, stack: seq<Handle>)
    requires Added(e, e', h) && StackOk(e, stack, None)
    ensures StackOk(e', stack, Some(Call(h, Init)))
  {
    forall i | i in e' ensures e'[i].stolen <==> At(e', i) in stack {
      if i != h.id { assert At(e', i) == At(e, i); } else { assert h.id !in e; }
    }
  }

  lemma AccountsAdd(s: LoopState, e': Table, h: Handle, ts: set<TimeoutHolder>, inserted: int, fired: int, dead: int, dropped: nat)
    requires Added(s.events, e', h) && Accounts(ts, s.events, inserted, fired, dead, dropped)
    requires TimersUnique(ts, s.timeoutGeneration, h.generation, s.spent)
    ensures Accounts(ts, e', inserted, fired, dead, dropped)
  {
    var e := s.events;
    assert DeadTimers(ts, e') == DeadTimers(ts, e);
    forall i | i in e' ensures e'[i].timeouts == |TimersOf(ts, At(e', i))| {
      if i == h.id {
        assert At(e', i) == h;
        assert TimersOf(ts, h) == {};
      } else {
        assert At(e', i) == At(e, i);
      }
    }
  }

  lemma IoAdd(s: LoopState, e': Table, h: Handle)
    requires Added(s.events, e', h) && IoOk(s)
    ensures IoPartition(e', s.ios, s.iosReleased) && IoQueueOk(s.scheduled, e', s.ios)
  {
    assert forall g, k :: Owns(e', g, k) <==> Owns(s.events, g, k);
  }

  lemma RegistrationsAdd(e: Table, e': Table, h: Handle, registrations: nat)
    requires Added(e, e', h) && RegistrationsOk(e, registrations)
    ensures RegistrationsOk(e', registrations)
  {
    forall g, k | Owns(e', g, k) ensures e'[g.id].ios[k] < registrations { assert Owns(e, g, k); }
  }

  lemma ChildrenAdd(e: Table, e': Table, h: Handle, children: map<Pid, Handle>)
    requires Added(e, e', h) && ChildrenOk(e, children)
    ensures ChildrenOk(e', children)
  {
    forall i, pid | i in e' && pid in e'[i].children
      ensures pid in children && children[pid] == At(e', i)
    {
      assert pid in e[i].children && At(e', i) == At(e, i);
    }
  }

  lemma MessagesAdd(e: Table, e': Table, h: Handle, scheduled: seq<Task>, inbox: seq<RemoteMessage>, ios: map<nat, Handle>)
    requires Added(e, e', h) && MessagesOk(e, scheduled, None)
    requires RecipientsKnown(scheduled, inbox, ios, h.generation)
    ensures MessagesOk(e', scheduled, Some(Call(h, Init)))
  {}

  lemma IndexesAdd(s: LoopState, e': Table, h: Handle)
    requires Added(s.events, e', h) && h.generation == s.generation
    requires GenerationsOk(s.events, s.generation)
    requires IdleOk(s.events, s.wantIdle) && SignalsOk(s.events, s.recipients, s.enabled)
    requires RecipientsKnown(s.scheduled, s.inbox, s.ios, s.generation)
    requires TimersUnique(Outstanding(s), s.timeoutGeneration, s.generation, s.spent)
    ensures GenerationsOk(e', s.generation + 1)
    ensures IdleOk(e', s.wantIdle) && SignalsOk(e', s.recipients, s.enabled)
    ensures RecipientsKnown(s.scheduled, s.inbox, s.ios, s.generation + 1)
    ensures TimersUnique(Outstanding(s), s.timeoutGeneration, s.generation + 1, s.spent)
  {}

  lemma InsertKeeps(s: LoopState, idx: nat)
    requires Inv(s) && s.pending.None? && idx !in s.events
    ensures Inv(InsertEvent(s, idx))
  {
    hide GenerationsOk, StackOk, QueueTimersOk, TimersUnique, Accounts, IoPartition, IoQueueOk, RegistrationsOk,
      ChildrenOk, IdleOk, SignalsOk, MessagesOk, RecipientsKnown, HistoryOk;
    var s' := InsertEvent(s, idx);
    var h := Handle(idx, s.generation);
    StackAdd(s.events, s'.events, h, s.stack);
    AccountsAdd(s, s'.events, h, Outstanding(s), s.timeoutsInserted, s.timeoutsFired, s.timeoutsDead, s.dropped);
    if s.policy.Deferred? { IoAdd(s, s'.events, h); }
    RegistrationsAdd(s.events, s'.events, h, s.registrations);
    ChildrenAdd(s.events, s'.events, h, s.children);
    IndexesAdd(s, s'.events, h);
    MessagesAdd(s.events, s'.events, h, s.scheduled, s.inbox, s.ios);
    NothingInHand(s, s');
  }

  lemma NothingInHand(s: LoopState, s': LoopState)
    requires InHand(s.pending) == InHand(s'.pending) == []
    requires s'.pushed == s.pushed && s'.log == s.log && s'.scheduled == s.scheduled
    requires HistoryOk(s.pushed, s.log, s.pending, s.scheduled)
    ensures HistoryOk(s'.pushed, s'.log, s'.pending, s'.scheduled)
    ensures IoQueueOk(InHand(s'.pending), s'.events, s'.ios)
  {}

  // ----- The end of an event -----

  ghost predicate Removed(e: Table, e': Table, h: Handle) {
    Alive(e, h) && e' == e - {h.id}
  }

  /** The timers of the dying event, all its entries in heap and queue, become dead. */
  lemma AccountsRemove(e: Table, e': Table, h: Handle, ts: set<TimeoutHolder>, inserted: int, fired: int, dead: int, dropped: nat)
    requires Removed(e, e', h) && Accounts(ts, e, inserted, fired, dead, dropped)
    ensures Accounts(ts, e', inserted, fired, dead + e[h.id].timeouts, dropped)
  {
    assert At(e, h.id) == h;
    assert DeadTimers(ts, e') == DeadTimers(ts, e) + TimersOf(ts, h);
    assert DeadTimers(ts, e) !! TimersOf(ts, h);
    forall i | i in e' ensures e'[i].timeouts == |TimersOf(ts, At(e', i))| {
      assert At(e', i) == At(e, i);
    }
  }

  lemma IoRemoveEvent(s: LoopState, h: Handle)
    requires Alive(s.events, h) && IoOk(s)
    ensures IoOk(Kill(s, h))
  {
    var s' := Kill(s, h);
    var e, e' := s.events, s'.events;
    forall g, k ensures Owns(e', g, k) <==> Owns(e, g, k) && g != h {}
    forall k | k in s.ios ensures k in s'.iosReleased || Owns(e', s.ios[k], k) {
      assert k in s.iosReleased || Owns(e, s.ios[k], k);
    }
    forall k | k in e[h.id].ios ensures k in s.ios && s.ios[k] == h && Owns(e, h, k) {
      assert Owns(e, h, k);
    }
  }

  lemma ChildrenRemove(e: Table, e': Table, h: Handle, children: map<Pid, Handle>)
    requires Removed(e, e', h) && ChildrenOk(e, children)
    ensures ChildrenOk(e', children - e[h.id].children)
  {
    var children' := children - e[h.id].children;
    forall pid | pid in e[h.id].children ensures pid in children && children[pid] == h {
      assert At(e, h.id) == h;
    }
    forall pid | pid in children'
      ensures Alive(e', children'[pid]) && pid in e'[children'[pid].id].children
    {
      assert children[pid] != h;
    }
    forall i, pid | i in e' && pid in e'[i].children
      ensures pid in children' && children'[pid] == At(e', i)
    {
      assert At(e', i) == At(e, i) && children[pid] == At(e, i);
    }
  }

  lemma {:induction false} WithoutDistinct(xs: seq<Handle>, h: Handle)
    requires forall k, l | 0 <= k < l < |xs| :: xs[k] != xs[l]
    ensures forall k, l | 0 <= k < l < |Without(xs, h)| :: Without(xs, h)[k] != Without(xs, h)[l]
  {
    if xs != [] {
      WithoutDistinct(xs[1..], h);
      var rest := Without(xs[1..], h);
      assert xs[0] !in rest;
      assert forall k | 0 <= k < |rest| :: rest[k] in rest;
    }
  }

  lemma StackRemove(e: Table, e': Table, h: Handle, stack: seq<Handle>)
    requires Removed(e, e', h) && StackOk(e, stack, None) && h !in stack
    ensures StackOk(e', stack, None)
  {
    forall i | i in e' ensures e'[i].stolen <==> At(e', i) in stack {
      assert At(e', i) == At(e, i);
    }
  }

  lemma RegistrationsRemove(e: Table, e': Table, h: Handle, registrations: nat)
    requires Removed(e, e', h) && RegistrationsOk(e, registrations)
    ensures RegistrationsOk(e', registrations)
  {
    forall g, k | Owns(e', g, k) ensures e'[g.id].ios[k] < registrations { assert Owns(e, g, k); }
  }

  lemma IndexesRemove(s: LoopState, e': Table, h: Handle)
    requires Removed(s.events, e', h)
    requires GenerationsOk(s.events, s.generation)
    requires IdleOk(s.events, s.wantIdle) && SignalsOk(s.events, s.recipients, s.enabled)
    requires MessagesOk(s.events, s.scheduled, None)
    ensures GenerationsOk(e', s.generation)
    ensures IdleOk(e', Without(s.wantIdle, h)) && SignalsOk(e', Forget(s.recipients, h), s.enabled)
    ensures MessagesOk(e', s.scheduled, None)
  {
    WithoutDistinct(s.wantIdle, h);
    var recipients := Forget(s.recipients, h);
    assert forall k | 0 <= k < |recipients| && recipients[k] != {} :: s.recipients[k] != {};
  }

  lemma KillKeeps(s: LoopState, h: Handle)
    requires Inv(s) && s.pending.None? && Alive(s.events, h) && h !in s.stack
    ensures Inv(Kill(s, h))
  {
    hide GenerationsOk, StackOk, QueueTimersOk, TimersUnique, Accounts, IoPartition, IoQueueOk, RegistrationsOk,
      ChildrenOk, IdleOk, SignalsOk, MessagesOk, RecipientsKnown, HistoryOk;
    var s' := Kill(s, h);
    StackRemove(s.events, s'.events, h, s.stack);
    AccountsRemove(s.events, s'.events, h, Outstanding(s), s.timeoutsInserted, s.timeoutsFired, s.timeoutsDead, s.dropped);
    if s.policy.Deferred? { IoRemoveEvent(s, h); }
    RegistrationsRemove(s.events, s'.events, h, s.registrations);
    ChildrenRemove(s.events, s'.events, h, s.children);
    IndexesRemove(s, s'.events, h);
  }

  // ----- The queue -----

  lemma {:induction false} QueuedAppend(q: seq<Task>, t: Task)
    ensures QueuedTimers(q + [t]) == QueuedTimers(q) + if t.param.Timeout? then {HolderOf(t)} else {}
    ensures QueuedOnce(q) && (t.param.Timeout? ==> HolderOf(t) !in QueuedTimers(q)) ==> QueuedOnce(q + [t])
  {
    if q == [] {
      assert (q + [t])[1..] == [];
    } else {
      assert (q + [t])[1..] == q[1..] + [t];
      QueuedAppend(q[1..], t);
    }
  }

  /** A task that may be queued: for a known event, and what it carries is in order. */
  ghost predicate Queueable(s: LoopState, t: Task) {
    && t.recipient.generation < s.generation
    && (t.param.Msg? ==> Deliverable(s.events, t.recipient, t.param.message))
    && (s.policy.Deferred? ==> IoTaskOk(t, s.events, s.ios))
  }

  lemma PushKeeps(s: LoopState, t: Task)
    requires Inv(s) && s.pending.None? && !t.param.Timeout? && Queueable(s, t)
    ensures Inv(Push(s, t))
  {
    hide GenerationsOk, StackOk, QueueTimersOk, TimersUnique, Accounts, IoPartition, IoQueueOk, RegistrationsOk,
      ChildrenOk, IdleOk, SignalsOk, MessagesOk, RecipientsKnown, HistoryOk, Queueable;
    PushTimers(s, t);
    PushQueues(s, t);
  }

  lemma PushTimers(s: LoopState, t: Task)
    requires !t.param.Timeout?
    ensures QueuedTimers(s.scheduled + [t]) == QueuedTimers(s.scheduled)
    ensures Outstanding(Push(s, t)) == Outstanding(s)
    ensures QueueTimersOk(s.scheduled, s.timeouts, s.now) ==> QueueTimersOk(s.scheduled + [t], s.timeouts, s.now)
  {
    QueuedAppend(s.scheduled, t);
  }

  lemma PushQueues(s: LoopState, t: Task)
    requires s.pending.None? && Queueable(s, t)
    requires MessagesOk(s.events, s.scheduled, None) && RecipientsKnown(s.scheduled, s.inbox, s.ios, s.generation)
    requires HistoryOk(s.pushed, s.log, s.pending, s.scheduled)
    ensures MessagesOk(s.events, s.scheduled + [t], None)
    ensures RecipientsKnown(s.scheduled + [t], s.inbox, s.ios, s.generation)
    ensures HistoryOk(s.pushed + [t], s.log, s.pending, s.scheduled + [t])
    ensures s.policy.Deferred? && IoQueueOk(s.scheduled, s.events, s.ios) ==>
              IoQueueOk(s.scheduled + [t], s.events, s.ios)
  {}

  lemma {:induction false} PushAllKeeps(s: LoopState, ts: seq<Task>)
    requires Inv(s) && s.pending.None?
    requires forall t | t in ts :: !t.param.Timeout? && Queueable(s, t)
    ensures Inv(s.(scheduled := s.scheduled + ts, pushed := s.pushed + ts))
    decreases |ts|
  {
    hide Inv;
    if ts == [] {
      assert s.scheduled + ts == s.scheduled && s.pushed + ts == s.pushed;
    } else {
      PushKeeps(s, ts[0]);
      var s1 := Push(s, ts[0]);
      forall t | t in ts[1..] ensures !t.param.Timeout? && Queueable(s1, t) {
        assert t in ts;
      }
      PushAllKeeps(s1, ts[1..]);
      assert s1.scheduled + ts[1..] == s.scheduled + ts;
      assert s1.pushed + ts[1..] == s.pushed + ts;
    }
  }

  // ----- Any edit of the table at once -----

  ghost predicate SameStolen(e: Table, e': Table)
    requires Edited(e, e')
  {
    forall i | i in e :: e'[i].stolen == e[i].stolen
  }

  ghost predicate SameTimeouts(e: Table, e': Table)
    requires Edited(e, e')
  {
    forall i | i in e :: e'[i].timeouts == e[i].timeouts
  }

  ghost predicate SameIos(e: Table, e': Table)
    requires Edited(e, e')
  {
    forall i | i in e :: e'[i].ios == e[i].ios
  }

  ghost predicate SameChildren(e: Table, e': Table)
    requires Edited(e, e')
  {
    forall i | i in e :: e'[i].children == e[i].children
  }

  ghost predicate ExpectsMore(e: Table, e': Table)
    requires Edited(e, e')
  {
    forall i | i in e :: e[i].expected <= e'[i].expected
  }

  lemma EditKeeps(s: LoopState, e': Table)
    requires Inv(s) && Edited(s.events, e')
    ensures GenerationsOk(e', s.generation) && IdleOk(e', s.wantIdle) && SignalsOk(e', s.recipients, s.enabled)
    ensures SameStolen(s.events, e') ==> StackOk(e', s.stack, None)
    ensures SameTimeouts(s.events, e') ==>
              Accounts(Outstanding(s), e', s.timeoutsInserted, s.timeoutsFired, s.timeoutsDead, s.dropped)
    ensures SameIos(s.events, e') ==>
              && RegistrationsOk(e', s.registrations)
              && (s.policy.Deferred? ==>
                    && IoPartition(e', s.ios, s.iosReleased)
                    && IoQueueOk(s.scheduled, e', s.ios) && IoQueueOk(InHand(s.pending), e', s.ios))
    ensures SameChildren(s.events, e') ==> ChildrenOk(e', s.children)
    ensures ExpectsMore(s.events, e') ==> MessagesOk(e', s.scheduled, s.pending)
  {
    hide GenerationsOk, StackOk, QueueTimersOk, TimersUnique, Accounts, IoPartition, IoQueueOk, RegistrationsOk,
      ChildrenOk, IdleOk, SignalsOk, MessagesOk, RecipientsKnown, HistoryOk;
    GenerationsEdit(s.events, e', s.generation);
    IdleEdit(s.events, e', s.wantIdle);
    SignalsEdit(s.events, e', s.recipients, s.enabled);
    if SameStolen(s.events, e') { StackEdit(s.events, e', s.stack, s.pending); }
    if SameTimeouts(s.events, e') {
      AccountsEdit(s.events, e', Outstanding(s), s.timeoutsInserted, s.timeoutsFired, s.timeoutsDead, s.dropped);
    }
    if SameIos(s.events, e') {
      RegistrationsEdit(s.events, e', s.registrations);
      if s.policy.Deferred? { IoEdit(s, e'); }
    }
    if SameChildren(s.events, e') { ChildrenEdit(s.events, e', s.children); }
    if ExpectsMore(s.events, e') { MessagesEdit(s.events, e', s.scheduled, s.pending); }
  }
}
