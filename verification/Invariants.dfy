/** What holds in every reachable state of the loop, one predicate for each concern. */
module Invariants {
  import opened Wrappers
  import opened EventLoop

  /** Live events have distinct generations below the counter. */
  ghost predicate GenerationsOk(events: map<nat, EvHolder>, generation: nat) {
    && (forall i | i in events :: events[i].generation < generation)
    && (forall i, j | i in events && j in events && i != j :: events[i].generation != events[j].generation)
  }

  /** The stolen events are exactly the active frames; frames are distinct and alive. */
  ghost predicate StackOk(events: map<nat, EvHolder>, stack: seq<Handle>, pending: Option<Call>) {
    && (forall h | h in stack :: Alive(events, h))
    && (forall k, l | 0 <= k < l < |stack| :: stack[k] != stack[l])
    && (forall i | i in events :: events[i].stolen <==> At(events, i) in stack)
    && (pending.Some? ==> Alive(events, pending.value.target))
  }

  // ----- Timers -----

  ghost function QueuedTimers(q: seq<Task>): set<TimeoutHolder> {
    if q == [] then {}
    else QueuedTimers(q[1..]) + if q[0].param.Timeout? then {HolderOf(q[0])} else {}
  }

  /** No timer is queued twice. */
  ghost predicate QueuedOnce(q: seq<Task>) {
    q != [] ==>
      && QueuedOnce(q[1..])
      && (q[0].param.Timeout? ==> HolderOf(q[0]) !in QueuedTimers(q[1..]))
  }

  ghost function TimersOf(ts: set<TimeoutHolder>, h: Handle): set<TimeoutHolder> {
    set t | t in ts && t.recipient == h
  }

  ghost function DeadTimers(ts: set<TimeoutHolder>, events: map<nat, EvHolder>): set<TimeoutHolder> {
    set t | t in ts && !Alive(events, t.recipient)
  }

  /** The statistics are exact for the outstanding timers `ts` (those in the heap or the queue). */
  ghost predicate Accounts(ts: set<TimeoutHolder>, events: map<nat, EvHolder>,
                           inserted: int, fired: int, dead: int, dropped: nat) {
    && fired >= 0
    && inserted == |ts| + fired + dropped
    && dead == |DeadTimers(ts, events)| + dropped
    && (forall i | i in events :: events[i].timeouts == |TimersOf(ts, At(events, i))|)
  }

  /** Outstanding timers are recognised by their id, which never leaves the store twice. */
  ghost predicate TimersUnique(ts: set<TimeoutHolder>, timeoutGeneration: nat, generation: nat, spent: set<nat>) {
    && (forall t | t in ts :: t.id < timeoutGeneration && t.id !in spent && t.recipient.generation < generation)
    && (forall t, u | t in ts && u in ts && t.id == u.id :: t == u)
    && (forall x | x in spent :: x < timeoutGeneration)
  }

  ghost predicate QueueTimersOk(scheduled: seq<Task>, timeouts: set<TimeoutHolder>, now: Instant) {
    && QueuedOnce(scheduled)
    && timeouts !! QueuedTimers(scheduled)
    && (forall t | t in QueuedTimers(scheduled) :: t.when <= now)
  }

  ghost function Outstanding(s: LoopState): set<TimeoutHolder> {
    s.timeouts + QueuedTimers(s.scheduled)
  }

  ghost predicate TimersOk(s: LoopState) {
    && QueueTimersOk(s.scheduled, s.timeouts, s.now)
    && TimersUnique(Outstanding(s), s.timeoutGeneration, s.generation, s.spent)
    && Accounts(Outstanding(s), s.events, s.timeoutsInserted, s.timeoutsFired, s.timeoutsDead, s.dropped)
  }

  /** The task that is being handed to its callback right now. */
  ghost function InHand(pending: Option<Call>): seq<Task> {
    if pending.Some? && pending.value.cause.Dispatched? then [pending.value.cause.task] else []
  }

  // ----- IO -----

  /** `h` is alive and owns the index `k`. */
  ghost predicate Owns(events: map<nat, EvHolder>, h: Handle, k: nat) {
    Alive(events, h) && k in events[h.id].ios
  }

  /**
   The occupied slots are the disjoint union of what the live events own and of what waits for
   release, and an owned slot names its owner.
   */
  ghost predicate IoPartition(events: map<nat, EvHolder>, ios: map<nat, Handle>, released: set<nat>) {
    && (forall h, k | Owns(events, h, k) :: k in ios && ios[k] == h && k !in released)
    && released <= ios.Keys
    && (forall k | k in ios :: k in released || Owns(events, ios[k], k))
  }

  ghost predicate IoTaskOk(t: Task, events: map<nat, EvHolder>, ios: map<nat, Handle>) {
    t.param.Io? ==>
      var k := t.param.token - TOKEN_SHIFT;
      && k in ios
      && ios[k] == t.recipient
      && (Owns(events, t.recipient, k) ==> events[t.recipient.id].ios[k] == t.param.reg)
  }

  /** Registration numbers are given out once. */
  ghost predicate RegistrationsOk(events: map<nat, EvHolder>, registrations: nat) {
    forall h, k | Owns(events, h, k) :: events[h.id].ios[k] < registrations
  }

  ghost predicate IoQueueOk(scheduled: seq<Task>, events: map<nat, EvHolder>, ios: map<nat, Handle>) {
    forall t | t in scheduled :: IoTaskOk(t, events, ios)
  }

  ghost predicate IoOk(s: LoopState) {
    && IoPartition(s.events, s.ios, s.iosReleased)
    && IoQueueOk(s.scheduled, s.events, s.ios)
    && IoQueueOk(InHand(s.pending), s.events, s.ios)
  }

  // ----- The other indexes -----

  ghost predicate ChildrenOk(events: map<nat, EvHolder>, children: map<Pid, Handle>) {
    && (forall pid | pid in children ::
          Alive(events, children[pid]) && pid in events[children[pid].id].children)
    && (forall i, pid | i in events && pid in events[i].children ::
          pid in children && children[pid] == At(events, i))
  }

  ghost predicate IdleOk(events: map<nat, EvHolder>, wantIdle: seq<Handle>) {
    && (forall h | h in wantIdle :: Alive(events, h))
    && (forall k, l | 0 <= k < l < |wantIdle| :: wantIdle[k] != wantIdle[l])
  }

  ghost predicate SignalsOk(events: map<nat, EvHolder>, recipients: seq<set<Handle>>, enabled: seq<bool>) {
    && |recipients| == |enabled|
    && (forall k | 0 <= k < |recipients| && recipients[k] != {} :: enabled[k])
    && (forall k | 0 <= k < |recipients| :: forall h | h in recipients[k] :: Alive(events, h))
  }

  // ----- Messages -----

  /** A message may be delivered: it is a background result, or its type is one the event expects. */
  ghost predicate Deliverable(events: map<nat, EvHolder>, h: Handle, m: Message) {
    m.mode.Background? || (Alive(events, h) ==> m.realType in events[h.id].expected)
  }

  ghost predicate CallOk(events: map<nat, EvHolder>, c: Call) {
    match c.cause
    case Init => true
    case Post(m) => Deliverable(events, c.target, m)
    case Dispatched(t) => c.target == t.recipient && (t.param.Msg? ==> Deliverable(events, c.target, t.param.message))
  }

  ghost predicate MessagesOk(events: map<nat, EvHolder>, scheduled: seq<Task>, pending: Option<Call>) {
    && (forall t | t in scheduled && t.param.Msg? :: Deliverable(events, t.recipient, t.param.message))
    && (pending.Some? ==> CallOk(events, pending.value))
  }

  /** Whatever waits in the loop waits for an event that exists or existed. */
  ghost predicate RecipientsKnown(scheduled: seq<Task>, inbox: seq<RemoteMessage>, ios: map<nat, Handle>, generation: nat) {
    && (forall k | k in ios :: ios[k].generation < generation)
    && (forall t | t in scheduled :: t.recipient.generation < generation)
    && (forall m | m in inbox && m.message.mode.Background? :: m.recipient.generation < generation)
  }

  // ----- History -----

  ghost function Tasks(log: seq<Handled>): (r: seq<Task>)
    ensures |r| == |log| && forall k | 0 <= k < |log| :: r[k] == log[k].task
  {
    seq(|log|, k requires 0 <= k < |log| => log[k].task)
  }

  /** No task is lost, invented, repeated or reordered. */
  ghost predicate HistoryOk(pushed: seq<Task>, log: seq<Handled>, pending: Option<Call>, scheduled: seq<Task>) {
    pushed == Tasks(log) + InHand(pending) + scheduled
  }

  // ----- All of it -----

  ghost predicate Inv(s: LoopState) {
    && GenerationsOk(s.events, s.generation)
    && StackOk(s.events, s.stack, s.pending)
    && TimersOk(s)
    && (s.policy.Deferred? ==> IoOk(s))
    && RegistrationsOk(s.events, s.registrations)
    && ChildrenOk(s.events, s.children)
    && IdleOk(s.events, s.wantIdle)
    && SignalsOk(s.events, s.recipients, s.enabled)
    && MessagesOk(s.events, s.scheduled, s.pending)
    && RecipientsKnown(s.scheduled, s.inbox, s.ios, s.generation)
    && HistoryOk(s.pushed, s.log, s.pending, s.scheduled)
  }

  lemma InvStart(policy: RemovePolicy, signals: nat, sigchld: nat, now: Instant)
    ensures Inv(Start(policy, signals, sigchld, now))
  {
    hide TimersOk, IoOk, HistoryOk, SignalsOk;
    var s := Start(policy, signals, sigchld, now);
    NothingOwned(s.events);
    StartTimers(s);
    StartIo(s);
    StartHistory(s);
    StartSignals(s);
    assert s.pending.None? && s.stack == [] && s.events == map[] && s.scheduled == [] && s.wantIdle == [] && s.inbox == [];
    hide Start;
  }

  lemma NothingOwned(events: map<nat, EvHolder>)
    requires events == map[]
    ensures forall h, k :: !Owns(events, h, k)
  {}

  lemma StartTimers(s: LoopState)
    requires s.scheduled == [] && s.timeouts == {} && s.events == map[] && s.spent == {}
    requires s.timeoutsInserted == 0 && s.timeoutsFired == 0 && s.timeoutsDead == 0 && s.dropped == 0
    ensures TimersOk(s)
  {
    assert Outstanding(s) == {};
    assert DeadTimers({}, s.events) == {};
  }

  lemma StartIo(s: LoopState)
    requires s.events == map[] && s.ios == map[] && s.iosReleased == {} && s.scheduled == [] && s.pending.None?
    ensures IoOk(s)
  {
    NothingOwned(s.events);
  }

  lemma StartHistory(s: LoopState)
    requires s.pushed == [] && s.log == [] && s.pending.None? && s.scheduled == []
    ensures HistoryOk(s.pushed, s.log, s.pending, s.scheduled)
  {
    assert Tasks(s.log) + InHand(s.pending) + s.scheduled == [];
  }

  lemma StartSignals(s: LoopState)
    requires |s.recipients| == |s.enabled| && forall k | 0 <= k < |s.recipients| :: s.recipients[k] == {}
    ensures SignalsOk(s.events, s.recipients, s.enabled)
  {}
}
