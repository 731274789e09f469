/**
 The loop of src/core.rs as a state machine.

 A `LoopState` is everything the loop owns between two primitive steps. Nested callbacks are not
 recursion here but a stack of frames, so one run of the machine is a flat list of actions and
 "over every run" includes runs that never end and callbacks that decide what to do next from what
 they saw. `Can` is the control and environment guard of an action, `Asserts` collects the
 assertions, indexings and unsigned subtractions that the source executes in that step (without the
 comparison of addresses in src/stolen_cell.rs:35 and without the results of system calls), `Apply`
 is what the step does. The imperative form of the same code is in Loop.dfy.
 */
module EventLoop {
  import opened Wrappers

  const TOKEN_SHIFT: nat := 2

  type Pid = int
  type MsgType = nat
  type Instant = int
  type IoToken = t: nat | t >= TOKEN_SHIFT witness TOKEN_SHIFT

  datatype Handle = Handle(id: nat, generation: nat)

  datatype Error =
    | IoError | NixError | DefaultImpl | DeadLock | Missing | MissingIo | Busy | Empty
    | MsgUnexpected | User(code: int)

  /** Ok(true), Ok(false) and Err(..) of a callback. */
  datatype Response = Keep | Finish | Failed(error: Error)

  datatype DeliveryMode =
    | Posted(from: Option<Handle>)
    | Sent(from: Option<Handle>)
    | Background(job: nat)
    | Remote

  datatype Message = Message(data: int, realType: MsgType, mode: DeliveryMode)

  datatype RemoteMessage = RemoteMessage(recipient: Handle, message: Message)

  /**
   `reg` (which registration raised the readiness) and `when` (the deadline) are history: the source
   does not store them in the task and no step decides anything from them.
   */
  datatype TaskParam =
    | Io(token: IoToken, ready: nat, reg: nat)
    | Timeout(id: nat, when: Instant)
    | Signal(sig: nat)
    | Msg(message: Message)
    | Child(pid: Pid, exit: int)
    | Idle

  datatype Task = Task(recipient: Handle, param: TaskParam)

  datatype TimeoutHolder = TimeoutHolder(id: nat, recipient: Handle, when: Instant)

  /** `ios` maps the index to the number of the registration that made it. */
  datatype EvHolder = EvHolder(
    stolen: bool,
    generation: nat,
    timeouts: int,
    ios: map<nat, nat>,
    expected: set<MsgType>,
    children: set<Pid>)

  /** When `io_remove` gives the index back: as src/core.rs:1595 does, or as its comment intends. */
  datatype RemovePolicy = AsWritten | Deferred

  datatype Cause = Init | Post(message: Message) | Dispatched(task: Task)

  datatype Call = Call(target: Handle, cause: Cause)

  /** What became of a task taken from the queue. */
  datatype Fate = Called | WasBusy | RecipientDead | IoGone

  datatype Handled = Handled(task: Task, fate: Fate)

  datatype LoopState = LoopState(
    policy: RemovePolicy,
    active: bool,
    events: map<nat, EvHolder>,
    generation: nat,
    scheduled: seq<Task>,
    timeouts: set<TimeoutHolder>,
    timeoutsDead: int,
    timeoutsFired: int,
    timeoutsInserted: int,
    timeoutGeneration: nat,
    now: Instant,
    ios: map<nat, Handle>,
    iosReleased: set<nat>,
    wantIdle: seq<Handle>,
    inbox: seq<RemoteMessage>,
    recipients: seq<set<Handle>>,
    enabled: seq<bool>,
    sigchld: nat,
    children: map<Pid, Handle>,
    // Control: the callbacks being executed, innermost last, and a call about to be made
    stack: seq<Handle>,
    pending: Option<Call>,
    // History
    registrations: nat,       // IO registrations made so far
    dropped: nat,             // dead timers thrown away since the last reset of the statistics
    spent: set<nat>,          // ids of timers that left both the heap and the queue
    pushed: seq<Task>,        // every task ever queued
    log: seq<Handled>)        // every task that was taken from the queue and settled

  ghost function Start(policy: RemovePolicy, signals: nat, sigchld: nat, now: Instant): LoopState {
    LoopState(policy, false, map[], 0, [], {}, 0, 0, 0, 0, now, map[], {}, [], [],
              seq(signals, _ => {}), seq(signals, _ => false), sigchld, map[],
              [], None, 0, 0, {}, [], [])
  }

  datatype Action =
    // The owner of the loop, or the innermost callback
    | Insert(idx: nat)
    | PostTo(to: Handle, data: int, tp: MsgType)
    | SendTo(to: Handle, data: int, tp: MsgType)
    | SetActive(on: bool)
    | EnableSignal(sig: nat)
    // Only the innermost callback, through its scope
    | TimeoutAt(when: Instant)
    | AskIdle(toBack: bool)
    | WatchSignal(sig: nat)
    | Expect(tp: MsgType)
    | IoRegister(idx: nat)
    | IoRemove(id: IoToken)
    | WatchChild(pid: Pid)
    // Dispatch
    | Pop
    | Enter
    | Leave(response: Response)
    // Gathering
    | Drain
    | DropDead(timer: TimeoutHolder)
    | Tick(now: Instant)
    | Receive
    | Reap(pid: Pid, exit: int)
    | Broadcast(sig: nat, order: seq<Handle>)
    | Ready(owner: Handle, idx: nat, ready: nat)
    | Cleanup
    | Due(timer: TimeoutHolder)
    | PickIdle
    // Another thread puts a message to the channel
    | Arrive(msg: RemoteMessage)

  // ----- Pieces of the state -----

  predicate Alive(events: map<nat, EvHolder>, h: Handle) {
    h.id in events && events[h.id].generation == h.generation
  }

  /** The handle of the event at an index. */
  function At(events: map<nat, EvHolder>, i: nat): (h: Handle)
    requires i in events
    ensures Alive(events, h)
  {
    Handle(i, events[i].generation)
  }

  function MsgTypeCheck(events: map<nat, EvHolder>, to: Handle, tp: MsgType): (r: Option<Error>) {
    if !Alive(events, to) then Some(Missing)
    else if tp !in events[to.id].expected then Some(MsgUnexpected)
    else None
  }

  /** The entry that BinaryHeap::peek shows; equal deadlines may show in any order. */
  ghost predicate OnTop(timeouts: set<TimeoutHolder>, t: TimeoutHolder) {
    t in timeouts && forall u | u in timeouts :: t.when <= u.when
  }

  function HolderOf(t: Task): TimeoutHolder
    requires t.param.Timeout?
  {
    TimeoutHolder(t.param.id, t.recipient, t.param.when)
  }

  ghost predicate NoTimersQueued(q: seq<Task>) {
    forall t | t in q :: !t.param.Timeout?
  }

  function Without(xs: seq<Handle>, h: Handle): (r: seq<Handle>)
    ensures forall x :: x in r <==> x in xs && x != h
    ensures h !in xs ==> r == xs
  {
    if xs == [] then []
    else if xs[0] == h then Without(xs[1..], h)
    else [xs[0]] + Without(xs[1..], h)
  }

  ghost function Owner(s: LoopState): Option<Handle> {
    if s.stack == [] then None else Some(s.stack[|s.stack| - 1])
  }

  ghost function Push(s: LoopState, t: Task): LoopState {
    s.(scheduled := s.scheduled + [t], pushed := s.pushed + [t])
  }

  ghost function PutEvent(s: LoopState, h: Handle, ev: EvHolder): LoopState {
    s.(events := s.events[h.id := ev])
  }

  function Fresh(generation: nat): EvHolder {
    EvHolder(false, generation, 0, map[], {}, {})
  }

  function SignalTasks(sig: nat, order: seq<Handle>): (r: seq<Task>)
    ensures |r| == |order|
    ensures forall k | 0 <= k < |r| :: r[k] == Task(order[k], Signal(sig))
  {
    seq(|order|, k requires 0 <= k < |order| => Task(order[k], Signal(sig)))
  }

  ghost function Forget(recipients: seq<set<Handle>>, h: Handle): (r: seq<set<Handle>>)
    ensures |r| == |recipients|
    ensures forall k | 0 <= k < |r| :: r[k] == recipients[k] - {h}
  {
    seq(|recipients|, k requires 0 <= k < |recipients| => recipients[k] - {h})
  }

  ghost function LiveTimers(timeouts: set<TimeoutHolder>, events: map<nat, EvHolder>): set<TimeoutHolder> {
    set t | t in timeouts && Alive(events, t.recipient)
  }

  ghost function IdsOf(ts: set<TimeoutHolder>): set<nat> {
    set t | t in ts :: t.id
  }

  // ----- Guards -----

  ghost predicate ScopeOnly(a: Action) {
    a.TimeoutAt? || a.AskIdle? || a.WatchSignal? || a.Expect? || a.IoRegister? || a.IoRemove?
    || a.WatchChild? || a.Leave?
  }

  ghost predicate Can(s: LoopState, a: Action) {
    && (s.pending.Some? <==> a.Enter?)
    && (ScopeOnly(a) ==> s.stack != [])
    && match a
       case Insert(idx) => idx !in s.events
       case EnableSignal(sig) => sig < |s.enabled|
       case WatchSignal(sig) => sig < |s.enabled| && sig < |s.recipients|
       case IoRegister(idx) => idx !in s.ios
       case WatchChild(_) => s.sigchld < |s.enabled|
       case Pop => s.scheduled != []
       case Drain => s.scheduled == []
       case DropDead(t) => OnTop(s.timeouts, t) && !Alive(s.events, t.recipient)
       case Tick(now) => s.now <= now
       case Receive => s.inbox != []
       case Broadcast(sig, order) =>
         && sig < |s.recipients|
         && (forall k, l | 0 <= k < l < |order| :: order[k] != order[l])
         && (set h | h in order) == s.recipients[sig]
       case Ready(owner, idx, _) => Alive(s.events, owner) && idx in s.events[owner.id].ios
       case Cleanup => NoTimersQueued(s.scheduled)
       case Due(t) => OnTop(s.timeouts, t) && t.when <= s.now
       case PickIdle => s.scheduled == [] && s.wantIdle != []
       case Arrive(m) => m.message.mode.Background? ==> m.recipient.generation < s.generation
       case _ => true
  }

  /** The statistics of `timers_cleanup`, before the subtractions are known not to underflow. */
  ghost function HandledDead(s: LoopState): int {
    s.timeoutsInserted - |s.timeouts| - s.timeoutsFired
  }

  ghost function StillDead(s: LoopState): int {
    s.timeoutsDead - HandledDead(s)
  }

  ghost predicate Asserts(s: LoopState, a: Action)
    requires Can(s, a)
  {
    && (ScopeOnly(a) && !a.AskIdle? && !a.WatchSignal? ==> s.stack[|s.stack| - 1].id in s.events)
    && match a
       case WatchChild(pid) => pid !in s.children
       case IoRemove(id) =>
         s.policy.AsWritten? && id - TOKEN_SHIFT in s.events[s.stack[|s.stack| - 1].id].ios
         ==> id - TOKEN_SHIFT in s.ios
       case Pop =>
         var t := s.scheduled[0];
         t.param.Timeout? && Alive(s.events, t.recipient) ==> s.events[t.recipient.id].timeouts >= 1
       case Drain => s.iosReleased <= s.ios.Keys
       case Reap(pid, _) =>
         pid in s.children ==>
           s.children[pid].id in s.events && pid in s.events[s.children[pid].id].children
       case Ready(_, idx, _) => idx in s.ios
       case Cleanup =>
         && s.timeoutsInserted >= |s.timeouts|
         && HandledDead(s) >= 0
         && 0 <= StillDead(s) <= |s.timeouts|
       case _ => true
  }

  ghost predicate Step(s: LoopState, a: Action) {
    Can(s, a) && Asserts(s, a)
  }

  // ----- Effects -----

  /** `event_kill`. */
  ghost function Kill(s: LoopState, h: Handle): LoopState
    requires h.id in s.events
  {
    var ev := s.events[h.id];
    s.(events := s.events - {h.id},
       timeoutsDead := s.timeoutsDead + ev.timeouts,
       iosReleased := s.iosReleased + ev.ios.Keys,
       wantIdle := Without(s.wantIdle, h),
       recipients := Forget(s.recipients, h),
       children := s.children - ev.children)
  }

  /** Entering `event_call` with the call that was prepared. */
  ghost function EnterCall(s: LoopState): LoopState
    requires s.pending.Some?
  {
    var Call(h, cause) := s.pending.value;
    var fate := if !Alive(s.events, h) then RecipientDead
                else if s.events[h.id].stolen then WasBusy
                else Called;
    var s1 := s.(pending := None,
                 log := if cause.Dispatched? then s.log + [Handled(cause.task, fate)] else s.log);
    if fate.Called? then
      PutEvent(s1, h, s.events[h.id].(stolen := true)).(stack := s.stack + [h])
    else s1
  }

  /** The callback returned: unsteal, then act on the response. */
  ghost function LeaveCall(s: LoopState, response: Response): LoopState
    requires s.stack != [] && s.stack[|s.stack| - 1].id in s.events
  {
    var h := s.stack[|s.stack| - 1];
    var s1 := PutEvent(s, h, s.events[h.id].(stolen := false)).(stack := s.stack[..|s.stack| - 1]);
    if response.Keep? then s1 else Kill(s1, h)
  }

  /** Taking a task from the queue and deciding whether there is a callback to call. */
  ghost function PopTask(s: LoopState): LoopState
    requires s.scheduled != []
  {
    var t := s.scheduled[0];
    var s0 := s.(scheduled := s.scheduled[1..]);
    var spent := if t.param.Timeout? then s.spent + {t.param.id} else s.spent;
    var call := Some(Call(t.recipient, Dispatched(t)));
    if !Alive(s.events, t.recipient) then
      s0.(log := s.log + [Handled(t, RecipientDead)], spent := spent,
          dropped := if t.param.Timeout? then s.dropped + 1 else s.dropped)
    else
      var ev := s.events[t.recipient.id];
      match t.param
      case Io(token, _, _) =>
        if token - TOKEN_SHIFT in ev.ios then s0.(pending := call)
        else s0.(log := s.log + [Handled(t, IoGone)])
      case Timeout(_, _) =>
        PutEvent(s0, t.recipient, ev.(timeouts := ev.timeouts - 1))
          .(timeoutsFired := s.timeoutsFired + 1, spent := spent, pending := call)
      case _ => s0.(pending := call)
  }

  ghost function ReceiveMessage(s: LoopState): LoopState
    requires s.inbox != []
  {
    var m := s.inbox[0];
    var s0 := s.(inbox := s.inbox[1..]);
    if m.message.mode.Background? || MsgTypeCheck(s.events, m.recipient, m.message.realType).None? then
      Push(s0, Task(m.recipient, Msg(m.message)))
    else s0
  }

  ghost function ReapChild(s: LoopState, pid: Pid, exit: int): LoopState
    requires pid in s.children ==> s.children[pid].id in s.events
  {
    if pid in s.children then
      var h := s.children[pid];
      var ev := s.events[h.id];
      Push(PutEvent(s, h, ev.(children := ev.children - {pid})).(children := s.children - {pid}),
           Task(h, Child(pid, exit)))
    else s
  }

  ghost function ResetStatistics(s: LoopState): LoopState {
    s.(timeoutsDead := StillDead(s), timeoutsFired := 0, timeoutsInserted := |s.timeouts|, dropped := 0)
  }

  ghost function PruneDead(s: LoopState): LoopState {
    var pruned := LiveTimers(s.timeouts, s.events);
    s.(timeouts := pruned, timeoutsDead := 0, timeoutsInserted := |pruned|,
       spent := s.spent + IdsOf(s.timeouts - pruned))
  }

  /** `timers_cleanup`. */
  ghost function CleanupTimers(s: LoopState): LoopState {
    var stillAlive := |s.timeouts| - StillDead(s);
    if StillDead(s) > 5 && stillAlive * 3 < StillDead(s) then PruneDead(ResetStatistics(s))
    else ResetStatistics(s)
  }

  ghost function Top(s: LoopState): Handle
    requires s.stack != []
  {
    s.stack[|s.stack| - 1]
  }

  ghost function InsertEvent(s: LoopState, idx: nat): LoopState {
    s.(generation := s.generation + 1,
       events := s.events[idx := Fresh(s.generation)],
       pending := Some(Call(Handle(idx, s.generation), Init)))
  }

  ghost function PostMessage(s: LoopState, to: Handle, data: int, tp: MsgType): LoopState {
    if MsgTypeCheck(s.events, to, tp).Some? then s
    else s.(pending := Some(Call(to, Post(Message(data, tp, Posted(Owner(s)))))))
  }

  ghost function SendMessage(s: LoopState, to: Handle, data: int, tp: MsgType): LoopState {
    if MsgTypeCheck(s.events, to, tp).Some? then s
    else Push(s, Task(to, Msg(Message(data, tp, Sent(Owner(s))))))
  }

  ghost function StartTimeout(s: LoopState, when: Instant): LoopState
    requires s.stack != [] && Top(s).id in s.events
  {
    var h := Top(s);
    var ev := s.events[h.id];
    PutEvent(s, h, ev.(timeouts := ev.timeouts + 1))
      .(timeoutGeneration := s.timeoutGeneration + 1,
        timeoutsInserted := s.timeoutsInserted + 1,
        timeouts := s.timeouts + {TimeoutHolder(s.timeoutGeneration, h, when)})
  }

  ghost function RequestIdle(s: LoopState, toBack: bool): LoopState
    requires s.stack != []
  {
    var h := Top(s);
    if h in s.wantIdle && !toBack then s
    else s.(wantIdle := Without(s.wantIdle, h) + [h])
  }

  ghost function SubscribeSignal(s: LoopState, sig: nat): LoopState
    requires s.stack != [] && sig < |s.enabled| && sig < |s.recipients|
  {
    s.(enabled := s.enabled[sig := true],
       recipients := s.recipients[sig := s.recipients[sig] + {Top(s)}])
  }

  ghost function ExpectType(s: LoopState, tp: MsgType): LoopState
    requires s.stack != [] && Top(s).id in s.events
  {
    var ev := s.events[Top(s).id];
    PutEvent(s, Top(s), ev.(expected := ev.expected + {tp}))
  }

  ghost function RegisterIo(s: LoopState, idx: nat): LoopState
    requires s.stack != [] && Top(s).id in s.events
  {
    var h := Top(s);
    var ev := s.events[h.id];
    PutEvent(s, h, ev.(ios := ev.ios[idx := s.registrations]))
      .(ios := s.ios[idx := h], registrations := s.registrations + 1)
  }

  ghost function RemoveIo(s: LoopState, id: IoToken): LoopState
    requires s.stack != [] && Top(s).id in s.events
  {
    var h := Top(s);
    var ev := s.events[h.id];
    var idx := id - TOKEN_SHIFT;
    if idx !in ev.ios then s
    else
      PutEvent(s, h, ev.(ios := ev.ios - {idx}))
        .(ios := if s.policy.AsWritten? then s.ios - {idx} else s.ios,
          iosReleased := s.iosReleased + {idx})
  }

  ghost function TrackChild(s: LoopState, pid: Pid): LoopState
    requires s.stack != [] && Top(s).id in s.events && s.sigchld < |s.enabled|
  {
    var h := Top(s);
    var ev := s.events[h.id];
    PutEvent(s, h, ev.(children := ev.children + {pid}))
      .(enabled := s.enabled[s.sigchld := true], children := s.children[pid := h])
  }

  ghost function DrainReleased(s: LoopState): LoopState {
    s.(ios := s.ios - s.iosReleased, iosReleased := {})
  }

  ghost function DropTimer(s: LoopState, t: TimeoutHolder): LoopState {
    s.(timeouts := s.timeouts - {t}, dropped := s.dropped + 1, spent := s.spent + {t.id})
  }

  ghost function BroadcastSignal(s: LoopState, sig: nat, order: seq<Handle>): LoopState {
    s.(scheduled := s.scheduled + SignalTasks(sig, order), pushed := s.pushed + SignalTasks(sig, order))
  }

  ghost function QueueReady(s: LoopState, owner: Handle, idx: nat, ready: nat): LoopState
    requires owner.id in s.events && idx in s.events[owner.id].ios && idx in s.ios
  {
    Push(s, Task(s.ios[idx], Io(idx + TOKEN_SHIFT, ready, s.events[owner.id].ios[idx])))
  }

  ghost function QueueDue(s: LoopState, t: TimeoutHolder): LoopState {
    Push(s.(timeouts := s.timeouts - {t}), Task(t.recipient, Timeout(t.id, t.when)))
  }

  ghost function QueueIdle(s: LoopState): LoopState
    requires s.wantIdle != []
  {
    Push(s.(wantIdle := s.wantIdle[1..]), Task(s.wantIdle[0], Idle))
  }

  ghost function Apply(s: LoopState, a: Action): LoopState
    requires Step(s, a)
  {
    match a
    case Insert(idx) => InsertEvent(s, idx)
    case PostTo(to, data, tp) => PostMessage(s, to, data, tp)
    case SendTo(to, data, tp) => SendMessage(s, to, data, tp)
    case SetActive(on) => s.(active := on)
    case EnableSignal(sig) => s.(enabled := s.enabled[sig := true])
    case TimeoutAt(when) => StartTimeout(s, when)
    case AskIdle(toBack) => RequestIdle(s, toBack)
    case WatchSignal(sig) => SubscribeSignal(s, sig)
    case Expect(tp) => ExpectType(s, tp)
    case IoRegister(idx) => RegisterIo(s, idx)
    case IoRemove(id) => RemoveIo(s, id)
    case WatchChild(pid) => TrackChild(s, pid)
    case Pop => PopTask(s)
    case Enter => EnterCall(s)
    case Leave(response) => LeaveCall(s, response)
    case Drain => DrainReleased(s)
    case DropDead(t) => DropTimer(s, t)
    case Tick(now) => s.(now := now)
    case Receive => ReceiveMessage(s)
    case Reap(pid, exit) => ReapChild(s, pid, exit)
    case Broadcast(sig, order) => BroadcastSignal(s, sig, order)
    case Ready(owner, idx, ready) => QueueReady(s, owner, idx, ready)
    case Cleanup => CleanupTimers(s)
    case Due(t) => QueueDue(s, t)
    case PickIdle => QueueIdle(s)
    case Arrive(m) => s.(inbox := s.inbox + [m])
  }

  /** The state after a list of actions, or None where a guard or an assertion stops the run. */
  ghost function Exec(s: LoopState, acts: seq<Action>): Option<LoopState> {
    if acts == [] then Some(s)
    else
      match Exec(s, acts[..|acts| - 1])
      case None => None
      case Some(before) =>
        var last := acts[|acts| - 1];
        if Step(before, last) then Some(Apply(before, last)) else None
  }

  lemma ExecOneMore(s: LoopState, acts: seq<Action>, a: Action)
    requires Exec(s, acts).Some? && Step(Exec(s, acts).value, a)
    ensures Exec(s, acts + [a]) == Some(Apply(Exec(s, acts).value, a))
  {
    assert (acts + [a])[..|acts|] == acts;
  }
}
