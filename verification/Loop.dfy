/**
 The loop in the form of src/core.rs: an object whose methods change its fields in place, calling
 each other recursively through the callbacks.

 What is not part of the library is read from `moves`: what the owner of the loop and the callbacks
 ask for, what the callbacks return, what the error handler says and what `poll` reports. A method
 may be called with any list of moves, so nothing is assumed about callbacks; where the list ends,
 observation ends (`Halt`).

 Every method also records the actions it performs in `trace`. `Valid` says that the trace is a run
 of the machine of EventLoop.dfy and that the fields are the state it leads to, so what is proved of
 every run holds for this code, with any nesting of callbacks.
 */
module LoopObject {
  import opened Wrappers
  import opened EventLoop
  import opened Invariants
  import opened Steps
  import opened Runs
  import opened StepFacts
  import opened LoopFacts
  import opened Moves
  import opened Control
  import opened Queueing
  import opened Timers
  import Slabs = Recycler

  class Loop {
    const policy: RemovePolicy
    const sigchld: nat
    const events: Slabs.Recycler<EvHolder>
    const ios: Slabs.Recycler<Handle>
    var active: bool
    var generation: nat
    var scheduled: seq<Task>
    var timeouts: set<TimeoutHolder>
    var timeoutsDead: int
    var timeoutsFired: int
    var timeoutsInserted: int
    var timeoutGeneration: nat
    var now: Instant
    var iosReleased: set<nat>
    var wantIdle: seq<Handle>
    var inbox: seq<RemoteMessage>
    var recipients: seq<set<Handle>>
    var enabled: seq<bool>
    var children: map<Pid, Handle>
    /** Numbers the IO registrations; stands for the identity of the registered object. */
    var registrations: nat
    /** The moves that are still to be made. */
    var moves: seq<Move>

    /** The moves that were made, and all that there ever will be. */
    ghost var taken: seq<Move>
    ghost const input: seq<Move>
    /** The points of the control flow that the loop came through. */
    ghost var path: seq<Point>
    ghost var stack: seq<Handle>
    ghost var pending: Option<Call>
    ghost var dropped: nat
    ghost var spent: set<nat>
    ghost var pushed: seq<Task>
    ghost var log: seq<Handled>
    const signals: nat
    ghost const startNow: Instant
    ghost var trace: seq<Action>

    ghost function State(): LoopState
      reads this, events, ios
    {
      LoopState(policy, active, events.contents, generation, scheduled, timeouts, timeoutsDead, timeoutsFired,
                timeoutsInserted, timeoutGeneration, now, ios.contents, iosReleased, wantIdle, inbox, recipients,
                enabled, sigchld, children, stack, pending, registrations, dropped, spent, pushed, log)
    }

    /** The loop as it was created. */
    ghost function First(): LoopState {
      Start(policy, signals, sigchld, startNow)
    }

    ghost predicate Stored()
      reads this, events, ios
    {
      events.Valid() && ios.Valid() && (events as object) != (ios as object)
    }

    ghost predicate Valid()
      reads this, events, ios
      ensures Valid() ==> Stored()
    {
      && Stored()
      && Exec(First(), trace) == Some(State())
    }

    // ----- Following the control flow -----

    /** The points so far are those of a loop with these moves. */
    ghost predicate OnPath()
      reads this`path, this`moves, this`taken
    {
      path != [] && Path(First(), path) && taken + moves == input
    }

    /** The point that the loop came to last. */
    ghost function Here(): Point
      requires path != []
      reads this`path
    {
      path[|path| - 1]
    }

    /** Nothing has happened since that point, where these calls are in progress. */
    ghost predicate Following(control: seq<Frame>)
      reads this`path, this`moves, this`taken, this`trace
    {
      OnPath() && Here().control == control && Here().trace == trace && Here().taken == taken
    }

    /** The same, and the call that returned last did so with `o`. */
    ghost predicate Arrived(control: seq<Frame>, o: Outcome)
      reads this`path, this`moves, this`taken, this`trace
    {
      Following(control) && Here().result == o
    }

    /** A call that `below` made has just returned with `o`. */
    ghost predicate Returned(below: seq<Frame>, o: Outcome)
      reads this, events, ios
    {
      Arrived(Resume(below, o, State()), o)
    }

    /** Nothing has happened since that point except that this move was read. */
    ghost predicate Reading(control: seq<Frame>, m: Move)
      reads this`path, this`moves, this`taken, this`trace
    {
      OnPath() && Here().control == control && Here().trace == trace && taken == Here().taken + [m]
    }

    /** The loop came to a stop, for one of the reasons that there are after that point. */
    ghost predicate Halted(reason: Reason)
      reads this, events, ios
    {
      OnPath() && Stops(reason, Here(), trace, taken, moves, State())
    }

    /** The next point. */
    ghost method Advance(control: seq<Frame>, o: Outcome)
      requires Valid() && OnPath() && Follows(First(), Here(), Point(control, trace, taken, o))
      modifies this`path
      ensures Valid() && State() == old(State()) && Following(control) && Arrived(control, o) && old(path) <= path
    {
      hide Path, Follows, Exec, Start, Slabs.Recycler.Valid;
      PathOneMore(First(), path, Point(control, trace, taken, o));
      path := path + [Point(control, trace, taken, o)];
    }

    /** A request has had its effect. */
    ghost method Fulfilled(control: seq<Frame>, m: Move, scoped: bool, t: seq<Action>, before: LoopState,
                           after: seq<Frame>, o: Outcome)
      requires Valid() && OnPath() && Here().control == control && Here().trace == t && taken == Here().taken + [m]
      requires Exec(First(), t) == Some(before)
      requires control != [] && Last(control) == Body(scoped) && FitsIn(Body(scoped), before, m)
      requires Carried(t, trace, Wanted(m)) && (after, o) == AfterRequest(control, before, State(), m)
      modifies this`path
      ensures Valid() && State() == old(State()) && Following(after) && Arrived(after, o) && old(path) <= path
    {
      hide Path, Follows, Exec, Start, AfterRequest, FitsIn, Carried, Wanted, Slabs.Recycler.Valid;
      RequestFollows(First(), Here(), Point(after, trace, taken, o), m, scoped, before, State());
      Advance(after, o);
    }

    /** A simple request, once its action is done. */
    ghost method Carry(control: seq<Frame>, m: Move, scoped: bool, t: seq<Action>, before: LoopState, o: Outcome)
      requires Valid() && OnPath() && Here().control == control && Here().trace == t && taken == Here().taken + [m]
      requires Exec(First(), t) == Some(before)
      requires control != [] && Last(control) == Body(scoped) && FitsIn(Body(scoped), before, m)
      requires Simple(m) && trace == t + [ActionOf(m)] && o == ResultOf(before, m)
      modifies this`path
      ensures Valid() && State() == old(State()) && Arrived(control, o) && old(path) <= path
    {
      hide Path, Exec, Start, FitsIn, Carried, Wanted, ActionOf, ResultOf, Valid, OnPath;
      CarriedSimple(t, m);
      Fulfilled(control, m, scoped, t, before, control, o);
    }

    lemma Invariant()
      requires Valid()
      ensures Inv(State())
    {
      hide Inv, Exec, Start;
      InvStart(policy, signals, sigchld, startNow);
      RunKeepsInv(First(), trace);
    }

    /** Adds the action that was just performed to the trace. */
    ghost method Record(before: LoopState, a: Action)
      requires Stored() && Exec(First(), trace) == Some(before)
      requires Step(before, a) && State() == Apply(before, a)
      modifies this`trace
      ensures State() == old(State()) && Valid()
      ensures trace == old(trace) + [a]
    {
      hide Step, Apply, Start;
      ExecOneMore(First(), trace, a);
      trace := trace + [a];
    }

    /** `push_back` on the queue of tasks. */
    method Schedule(task: Task)
      requires Stored()
      modifies this`scheduled, this`pushed
      ensures Stored() && State() == Push(old(State()), task)
    {
      hide Slabs.Recycler.Valid;
      scheduled := scheduled + [task];
      pushed := pushed + [task];
    }

    constructor (policy: RemovePolicy, signals: nat, sigchld: nat, now: Instant, moves: seq<Move>)
      ensures Valid() && State() == Start(policy, signals, sigchld, now) && this.moves == moves
      ensures Following([Body(false)]) && input == moves
      ensures fresh(events) && fresh(ios)
    {
      this.policy, this.signals, this.sigchld, this.startNow := policy, signals, sigchld, now;
      this.now, this.moves := now, moves;
      events := new Slabs.Recycler();
      ios := new Slabs.Recycler();
      active, generation, scheduled, timeouts := false, 0, [], {};
      timeoutsDead, timeoutsFired, timeoutsInserted, timeoutGeneration := 0, 0, 0, 0;
      iosReleased, wantIdle, inbox, children, registrations := {}, [], [], map[], 0;
      recipients, enabled := seq(signals, _ => {}), seq(signals, _ => false);
      stack, pending, dropped, spent, pushed, log := [], None, 0, {}, [], [];
      trace, taken, path, input := [], [], [Point([Body(false)], [], [], Done)], moves;
      new;
      assert Exec(First(), []) == Some(First());
    }

    predicate EventAlive(h: Handle)
      requires Stored()
      reads this, events, ios
      ensures EventAlive(h) <==> Alive(State().events, h)
    {
      events.Occupied(h.id) && events.Get(h.id).generation == h.generation
    }

    /** `handle` is the event whose callback is the innermost one: the scope of LoopScope. */
    ghost predicate InCallback(handle: Handle)
      reads this, events, ios
    {
      Valid() && pending.None? && stack != [] && stack[|stack| - 1] == handle
    }

    lemma ScopeAlive(handle: Handle)
      requires InCallback(handle)
      ensures Alive(State().events, handle)
    {
      Invariant();
      TopAlive(State());
    }

    // ----- Scope of a callback -----

    method TimeoutAt(handle: Handle, when: Instant) returns (id: nat)
      requires InCallback(handle)
      modifies this, events
      ensures stack == old(stack) && pending.None?
      ensures Valid() && unchanged(this`moves, this`taken, this`path) && trace == old(trace) + [Action.TimeoutAt(when)]
      ensures State() == StartTimeout(old(State()), when) && id == old(timeoutGeneration)
      ensures timeouts == old(timeouts) + {TimeoutHolder(id, handle, when)}
    {
      hide Exec, Start, Step, Apply, Inv, Slabs.Recycler.Valid;
      ScopeAlive(handle);
      TimeoutAtIs(State(), when);
      ghost var before := State();
      hide StartTimeout;
      id := AddTimer(handle, when);
      Record(before, Action.TimeoutAt(when));
    }

    method CountTimer(idx: nat)
      requires Stored() && idx in events.contents
      modifies events
      ensures Stored()
      ensures var ev := old(events.contents)[idx];
              State() == old(State()).(events := old(events.contents)[idx := ev.(timeouts := ev.timeouts + 1)])
    {
      hide Exec, Start, Step, Apply, Inv, Slabs.Recycler.Valid, Valid;
      var ev := events.Get(idx);
      events.Put(idx, ev.(timeouts := ev.timeouts + 1));
    }

    method NextTimeoutId() returns (id: nat)
      modifies this`timeoutGeneration
      ensures State() == old(State()).(timeoutGeneration := old(timeoutGeneration) + 1) && id == old(timeoutGeneration)
    {
      id := timeoutGeneration;
      timeoutGeneration := timeoutGeneration + 1;
    }

    method AddTimer(handle: Handle, when: Instant) returns (id: nat)
      requires Stored() && stack != [] && handle == Top(State()) && handle.id in events.contents
      modifies this, events
      ensures Stored() && unchanged(this`moves, this`taken, this`path) && trace == old(trace)
      ensures State() == StartTimeout(old(State()), when) && id == old(timeoutGeneration)
      ensures timeouts == old(timeouts) + {TimeoutHolder(id, handle, when)}
    {
      hide Exec, Start, Step, Apply, Inv, Slabs.Recycler.Valid, Valid;
      CountTimer(handle.id);
      id := NextTimeoutId();
      ghost var counted := State();
      assert StartTimeout(old(State()), when) == counted.(
          timeoutsInserted := counted.timeoutsInserted + 1,
          timeouts := counted.timeouts + {TimeoutHolder(id, handle, when)});
      hide StartTimeout, Stored;
      timeoutsInserted := timeoutsInserted + 1;
      timeouts := timeouts + {TimeoutHolder(id, handle, when)};
    }

    method Idle(handle: Handle, toBack: bool)
      requires InCallback(handle)
      modifies this
      ensures stack == old(stack) && pending.None?
      ensures Valid() && unchanged(this`moves, this`taken, this`path) && trace == old(trace) + [AskIdle(toBack)]
      ensures State() == RequestIdle(old(State()), toBack)
      ensures handle in wantIdle && forall h | h != handle :: h in wantIdle <==> h in old(wantIdle)
    {
      hide Exec, Start, Step, Apply, Inv, Slabs.Recycler.Valid;
      ScopeAlive(handle);
      AskIdleIs(State(), toBack);
      ghost var before := State();
      if handle !in wantIdle || toBack {
        wantIdle := Without(wantIdle, handle) + [handle];
      }
      Record(before, AskIdle(toBack));
    }

    /** `signal_enable`: registering with the dispatcher of the process is in SignalDispatch.dfy. */
    method SignalEnable(sig: nat)
      requires Valid() && pending.None? && sig < |enabled|
      modifies this
      ensures Valid() && unchanged(this`moves, this`taken, this`path) && trace == old(trace) + [EnableSignal(sig)]
      ensures State() == old(State()).(enabled := old(enabled)[sig := true])
    {
      hide Exec, Start, Step, Apply, Inv, Slabs.Recycler.Valid;
      EnableIs(State(), sig);
      ghost var before := State();
      if !enabled[sig] {
        enabled := enabled[sig := true];
      }
      assert enabled == old(enabled)[sig := true];
      Record(before, EnableSignal(sig));
    }

    method Signal(handle: Handle, sig: nat)
      requires InCallback(handle) && sig < |enabled|
      modifies this
      ensures stack == old(stack) && pending.None?
      ensures Valid() && unchanged(this`moves, this`taken, this`path)
      ensures trace == old(trace) + [EnableSignal(sig)] + [WatchSignal(sig)]
      ensures sig < |old(recipients)| && State() == SubscribeSignal(old(State()), sig)
      ensures |enabled| == |old(enabled)| && enabled[sig] && |recipients| == |old(recipients)| && sig < |recipients|
      ensures forall k, h | 0 <= k < |recipients| ::
                h in recipients[k] <==> h in old(recipients)[k] || (k == sig && h == handle)
    {
      hide Exec, Start, Step, Apply, Inv, Slabs.Recycler.Valid;
      ScopeAlive(handle);
      SignalCount();
      SignalEnable(sig);
      ScopeAlive(handle);
      WatchSignalIs(State(), sig);
      ghost var before := State();
      recipients := recipients[sig := recipients[sig] + {handle}];
      Record(before, WatchSignal(sig));
    }

    lemma SignalCount()
      requires Valid()
      ensures |recipients| == |enabled|
    {
      Invariant();
    }

    method ExpectMessage(handle: Handle, tp: MsgType)
      requires InCallback(handle)
      modifies this, events
      ensures stack == old(stack) && pending.None?
      ensures Valid() && unchanged(this`moves, this`taken, this`path) && trace == old(trace) + [Expect(tp)]
      ensures State() == ExpectType(old(State()), tp)
      ensures Alive(old(State()).events, handle) && Alive(State().events, handle)
      ensures State().events[handle.id].expected == old(State()).events[handle.id].expected + {tp}
    {
      hide Exec, Start, Step, Apply, Inv, Slabs.Recycler.Valid;
      ScopeAlive(handle);
      ExpectIs(State(), tp);
      ghost var before := State();
      var ev := events.Get(handle.id);
      events.Put(handle.id, ev.(expected := ev.expected + {tp}));
      Record(before, Expect(tp));
    }

    /** `io_register_any`; `accepted` is the answer of the poller. */
    method IoRegister(handle: Handle, accepted: bool) returns (id: Option<IoToken>)
      requires InCallback(handle)
      modifies this, events, ios
      ensures stack == old(stack) && pending.None?
      ensures Valid() && unchanged(this`moves, this`taken, this`path)
      ensures handle.id in old(State()).events
      ensures id.Some? <==> accepted
      ensures id.None? ==> State() == old(State()) && trace == old(trace)
      ensures id.Some? ==> trace == old(trace) + [Action.IoRegister(id.value - TOKEN_SHIFT)]
      ensures id.Some? ==> id.value - TOKEN_SHIFT !in old(State()).ios
                           && State() == RegisterIo(old(State()), id.value - TOKEN_SHIFT)
      ensures id.Some? ==> Owns(State().events, handle, id.value - TOKEN_SHIFT)
                           && ios.contents == old(ios.contents)[id.value - TOKEN_SHIFT := handle]
    {
      hide Exec, Start, Step, Apply, Inv, Slabs.Recycler.Valid;
      ScopeAlive(handle);
      ghost var before := State();
      var idx := ios.Store(handle);
      if !accepted {
        var _ := ios.Release(idx);
        assert ios.contents == old(ios.contents);
        return None;
      }
      IoRegisterIs(before, idx);
      var ev := events.Get(handle.id);
      events.Put(handle.id, ev.(ios := ev.ios[idx := registrations]));
      registrations := registrations + 1;
      Record(before, Action.IoRegister(idx));
      id := Some(idx + TOKEN_SHIFT);
    }

    /** `io_idx`: only the owner may use an IO. */
    function IoIdx(handle: Handle, id: IoToken): (r: Option<nat>)
      requires Stored() && handle.id in events.contents
      reads this, events, ios
      ensures r.Some? <==> id - TOKEN_SHIFT in State().events[handle.id].ios
      ensures r.Some? ==> r.value == id - TOKEN_SHIFT
    {
      if id - TOKEN_SHIFT in events.Get(handle.id).ios then Some(id - TOKEN_SHIFT) else None
    }

    /** Fails with MissingIo when the IO is not the caller's; `deregistered` is the answer of the poller. */
    method IoRemove(handle: Handle, id: IoToken, deregistered: bool) returns (o: Outcome)
      requires InCallback(handle)
      modifies this, events, ios
      ensures stack == old(stack) && pending.None?
      ensures Valid() && unchanged(this`moves, this`taken, this`path)
      ensures trace == if o.Halt? then old(trace) else old(trace) + [Action.IoRemove(id)]
      ensures handle.id in old(State()).events
      ensures !o.Halt? ==> o == if id - TOKEN_SHIFT !in old(State()).events[handle.id].ios then Fail(MissingIo)
                               else if deregistered then Done else Fail(IoError)
      ensures o.Halt? ==> policy.AsWritten? && State() == old(State()) && id - TOKEN_SHIFT !in ios.contents
                          && id - TOKEN_SHIFT in old(State()).events[handle.id].ios
      ensures !o.Halt? ==> State() == RemoveIo(old(State()), id)
      ensures o.Halt? ==> o == Halt(SlabPanic)
      ensures !o.Halt? ==> Alive(State().events, handle) && id - TOKEN_SHIFT !in State().events[handle.id].ios
      ensures o.Done? || o == Fail(IoError) ==> iosReleased == old(iosReleased) + {id - TOKEN_SHIFT}
    {
      hide Exec, Start, Step, Apply, Inv, Slabs.Recycler.Valid;
      ScopeAlive(handle);
      ghost var before := State();
      var r := IoIdx(handle, id);
      if r.None? {
        IoRemoveIs(before, id);
        Record(before, Action.IoRemove(id));
        return Fail(MissingIo);
      }
      var idx := r.value;
      if policy.AsWritten? {
        if !ios.Occupied(idx) {
          return Halt(SlabPanic);
        }
      }
      IoRemoveIs(before, id);
      var ev := events.Get(handle.id);
      events.Put(handle.id, ev.(ios := ev.ios - {idx}));
      if policy.AsWritten? {
        var _ := ios.Release(idx);
      }
      iosReleased := iosReleased + {idx};
      Record(before, Action.IoRemove(id));
      o := if deregistered then Done else Fail(IoError);
    }

    /** It is an error of the caller, checked by an assertion, to watch the same child twice. */
    method Child(handle: Handle, pid: Pid) returns (o: Outcome)
      requires InCallback(handle) && sigchld < |enabled|
      modifies this, events
      ensures stack == old(stack) && pending.None?
      ensures Valid() && unchanged(this`moves, this`taken, this`path) && old(trace) <= trace
      ensures o == if pid in old(children) then Halt(DoubleChild) else Done
      ensures o.Halt? ==> trace == old(trace) + [EnableSignal(sigchld)] && children == old(children)
      ensures o.Done? ==> handle.id in old(State()).events && State() == TrackChild(old(State()), pid)
      ensures o.Done? ==> trace == old(trace) + [WatchChild(pid)]
      ensures o.Done? ==> |enabled| == |old(enabled)| && enabled[sigchld] && children == old(children)[pid := handle]
    {
      hide Exec, Start, Step, Apply, Inv, Slabs.Recycler.Valid, TrackChild, Stored;
      ScopeAlive(handle);
      if pid in children {
        SignalEnable(sigchld);
        return Halt(DoubleChild);
      }
      AddChild(handle, pid);
      o := Done;
    }

    method AddChild(handle: Handle, pid: Pid)
      requires InCallback(handle) && sigchld < |enabled| && pid !in children
      modifies this, events
      ensures stack == old(stack) && pending.None?
      ensures Valid() && unchanged(this`moves, this`taken, this`path) && trace == old(trace) + [WatchChild(pid)]
      ensures handle.id in old(State()).events && State() == TrackChild(old(State()), pid)
      ensures |enabled| == |old(enabled)| && enabled[sigchld] && children == old(children)[pid := handle]
    {
      hide Exec, Start, Step, Apply, Inv, Slabs.Recycler.Valid;
      ScopeAlive(handle);
      WatchChildIs(State(), pid);
      ghost var before := State();
      if !enabled[sigchld] {
        enabled := enabled[sigchld := true];
      }
      assert enabled == old(enabled)[sigchld := true];
      children := children[pid := handle];
      var ev := events.Get(handle.id);
      events.Put(handle.id, ev.(children := ev.children + {pid}));
      Record(before, WatchChild(pid));
    }

    method Stop()
      requires Valid() && pending.None?
      modifies this
      ensures Valid() && unchanged(this`moves, this`taken, this`path) && trace == old(trace) + [SetActive(false)]
      ensures State() == old(State()).(active := false)
    {
      hide Exec, Start, Step, Apply, Inv, Slabs.Recycler.Valid;
      SetActiveIs(State(), false);
      ghost var before := State();
      active := false;
      Record(before, SetActive(false));
    }

    /** `send_impl_sender`; `from` is the innermost callback, if any. */
    method SendImpl(from: Option<Handle>, to: Handle, data: int, tp: MsgType) returns (o: Outcome)
      requires Valid() && pending.None? && from == Owner(State())
      modifies this
      ensures Valid() && unchanged(this`moves, this`taken, this`path) && trace == old(trace) + [SendTo(to, data, tp)]
      ensures State() == SendMessage(old(State()), to, data, tp)
      ensures o.Done? ==> scheduled == old(scheduled) + [Task(to, Msg(Message(data, tp, Sent(from))))]
      ensures match MsgTypeCheck(old(State()).events, to, tp) case None => o.Done? case Some(e) => o == Fail(e)
      ensures !Alive(old(State()).events, to) ==> o == Fail(Missing)
      ensures Alive(old(State()).events, to) && tp !in old(State()).events[to.id].expected ==> o == Fail(MsgUnexpected)
      ensures Accepts(old(State()).events, to, tp) ==> o == Done
      ensures !Accepts(old(State()).events, to, tp) ==> State() == old(State())
    {
      hide Exec, Start, Step, Apply, Inv, Slabs.Recycler.Valid;
      SendIs(State(), to, data, tp);
      ghost var before := State();
      var refused := TypeCheck(to, tp);
      if refused.Some? {
        Record(before, SendTo(to, data, tp));
        return Fail(refused.value);
      }
      var task := Task(to, Msg(Message(data, tp, Sent(from))));
      Schedule(task);
      Record(before, SendTo(to, data, tp));
      o := Done;
    }

    /** `msg_type_check` */
    function TypeCheck(to: Handle, tp: MsgType): (r: Option<Error>)
      requires Stored()
      reads this, events, ios
      ensures r == None <==> Accepts(State().events, to, tp)
      ensures r == Some(Missing) <==> !Alive(State().events, to)
      ensures r == Some(MsgUnexpected) <==> Alive(State().events, to) && tp !in State().events[to.id].expected
      ensures r == MsgTypeCheck(State().events, to, tp)
    {
      if !EventAlive(to) then Some(Missing)
      else if tp !in events.Get(to.id).expected then Some(MsgUnexpected)
      else None
    }

    // ----- Gathering -----

    /** `pop` of a timer whose event is dead. */
    method DropTop(t: TimeoutHolder)
      requires Valid() && pending.None? && OnTop(timeouts, t) && !Alive(State().events, t.recipient)
      modifies this
      ensures Valid() && unchanged(this`moves, this`taken, this`path) && trace == old(trace) + [DropDead(t)]
      ensures State() == DropTimer(old(State()), t)
    {
      hide Exec, Start, Step, Apply, Inv, Slabs.Recycler.Valid;
      ghost var before := State();
      DropDeadIs(before, t);
      timeouts := timeouts - {t};
      dropped := dropped + 1;
      spent := spent + {t.id};
      Record(before, DropDead(t));
    }

    method TimeoutMin(clock: Instant) returns (r: Option<int>, ghost drops: seq<TimeoutHolder>)
      requires Valid() && pending.None?
      modifies this
      ensures Valid() && unchanged(this`moves, this`taken, this`path)
      ensures trace == old(trace) + DropDeads(drops)
      ensures forall v :: WakeUp(State(), clock, v) <==> v == r
      ensures forall v :: WakeUp(old(State()), clock, v) <==> v == r
      ensures PrunedOnly(old(State()), State())
      ensures TopIsLive(State())
    {
      hide Exec, Start, Step, Apply, Inv, Slabs.Recycler.Valid;
      hide Valid, PrunedOnly, OnTop, Alive;
      PrunedNothing(State());
      drops := [];
      var top := Peek(timeouts);
      while top.Some? && !EventAlive(top.value.recipient)
        invariant Valid() && pending.None? && unchanged(this`moves, this`taken, this`path)
        invariant trace == old(trace) + DropDeads(drops)
        invariant top.None? <==> timeouts == {}
        invariant top.Some? ==> OnTop(timeouts, top.value)
        invariant PrunedOnly(old(State()), State())
        decreases |timeouts|
      {
        PrunedOneMore(old(State()), State(), top.value);
        DropTop(top.value);
        drops := drops + [top.value];
        top := Peek(timeouts);
      }
      TopGivesWakeUp(State(), clock, top);
      SameWakeUp(old(State()), State());
      OneWakeUp(State(), clock);
      if |wantIdle| > 0 {
        return Some(0), drops;
      }
      if top.None? {
        return None, drops;
      }
      r := Some(if top.value.when < clock then 0 else top.value.when - clock);
    }

    /** The filter over the heap. */
    function Surviving(): (r: set<TimeoutHolder>)
      requires Stored()
      reads this, events, ios
      ensures r == LiveTimers(State().timeouts, State().events)
    {
      set t | t in timeouts && EventAlive(t.recipient)
    }

    method ResetCounters(stillDead: int)
      requires Stored() && stillDead == StillDead(State())
      modifies this
      ensures Stored() && State() == ResetStatistics(old(State())) && unchanged(this`moves, this`taken, this`path) && trace == old(trace)
    {
      hide Exec, Start, Step, Apply, Inv, Slabs.Recycler.Valid, Valid;
      ghost var s := State();
      ghost var after := ResetStatistics(s);
      assert after == s.(timeoutsDead := stillDead, timeoutsFired := 0, timeoutsInserted := |s.timeouts|, dropped := 0);
      hide ResetStatistics, StillDead, Stored;
      timeoutsDead := stillDead;
      timeoutsFired := 0;
      timeoutsInserted := |timeouts|;
      dropped := 0;
    }

    method Prune()
      requires Stored()
      modifies this
      ensures Stored() && State() == PruneDead(old(State())) && unchanged(this`moves, this`taken, this`path) && trace == old(trace)
    {
      hide Exec, Start, Step, Apply, Inv, Slabs.Recycler.Valid, Valid;
      var pruned := Surviving();
      spent := spent + IdsOf(timeouts - pruned);
      timeouts := pruned;
      timeoutsDead := 0;
      timeoutsInserted := |timeouts|;
    }

    method TimersCleanup()
      requires Valid() && pending.None? && NoTimersQueued(scheduled)
      modifies this
      ensures Valid() && unchanged(this`moves, this`taken, this`path) && trace == old(trace) + [Cleanup]
      ensures State() == CleanupTimers(old(State()))
    {
      hide Exec, Start, Step, Apply, Inv, Slabs.Recycler.Valid;
      hide ResetStatistics, PruneDead;
      ghost var before := State();
      StatisticsHold();
      CleanupIs(before);
      var handled := timeoutsInserted - |timeouts|;
      var handledDead := handled - timeoutsFired;
      var stillDead := timeoutsDead - handledDead;
      var stillAlive := |timeouts| - stillDead;
      ResetCounters(stillDead);
      if stillDead > 5 && stillAlive * 3 < stillDead {
        Prune();
      }
      Record(before, Cleanup);
    }

    /** None of the subtractions of `timers_cleanup` underflows. */
    lemma StatisticsHold()
      requires Valid() && NoTimersQueued(scheduled)
      ensures timeoutsInserted >= |timeouts| && HandledDead(State()) >= 0 && 0 <= StillDead(State()) <= |timeouts|
    {
      Invariant();
      StatsExact(State());
    }

    method QueueTop(t: TimeoutHolder)
      requires Valid() && pending.None? && OnTop(timeouts, t) && t.when <= now
      modifies this
      ensures Valid() && unchanged(this`moves, this`taken, this`path) && trace == old(trace) + [Due(t)]
      ensures State() == QueueDue(old(State()), t)
    {
      hide Exec, Start, Step, Apply, Inv, Slabs.Recycler.Valid;
      ghost var before := State();
      DueIs(before, t);
      timeouts := timeouts - {t};
      Schedule(Task(t.recipient, Timeout(t.id, t.when)));
      Record(before, Due(t));
    }

    /** The next timer, after those that have gone from the state `s` to the queue. */
    method Fire(timer: TimeoutHolder, ghost s: LoopState, ghost t: seq<Action>, ghost fired: seq<TimeoutHolder>)
      requires Valid() && pending.None? && OnTop(timeouts, timer) && timer.when <= now
      requires trace == t + Dues(fired) && QueuedInOrder(s, State(), fired)
      modifies this
      ensures Valid() && pending.None? && unchanged(this`moves, this`taken, this`path) && now == old(now)
      ensures trace == t + Dues(fired + [timer]) && QueuedInOrder(s, State(), fired + [timer])
      ensures |timeouts| < |old(timeouts)|
    {
      hide Exec, Start, Step, Apply, Inv, Slabs.Recycler.Valid;
      hide Valid, Stored, QueuedInOrder, Dues, QueueDue, OnTop;
      QueuedOneMore(s, State(), fired, timer);
      DuesOneMore(fired, timer);
      QueueTop(timer);
      assert trace == t + (Dues(fired) + [Due(timer)]);
    }

    /** All timers that are due, and no others, go to the queue in the order of their deadlines. */
    method TasksGatherTimers() returns (ghost fired: seq<TimeoutHolder>)
      requires Valid() && pending.None?
      modifies this
      ensures Valid() && unchanged(this`moves, this`taken, this`path)
      ensures trace == old(trace) + Dues(fired)
      ensures QueuedInOrder(old(State()), State(), fired)
      ensures forall t :: t in fired <==> t in old(timeouts) && t.when <= old(now)
    {
      hide Exec, Start, Step, Apply, Inv, Slabs.Recycler.Valid;
      hide Valid, Stored, QueuedInOrder, Dues, OnTop;
      ghost var s, t := State(), trace;
      fired := [];
      DuesOneMore([], TimeoutHolder(0, Handle(0, 0), 0));
      NothingQueued(State());
      var top := Peek(timeouts);
      while top.Some? && top.value.when <= now
        invariant Valid() && pending.None? && unchanged(this`moves, this`taken, this`path) && now == old(now)
        invariant top.None? <==> timeouts == {}
        invariant top.Some? ==> OnTop(timeouts, top.value)
        invariant trace == t + Dues(fired)
        invariant QueuedInOrder(s, State(), fired)
        decreases |timeouts|
      {
        Fire(top.value, s, t, fired);
        fired := fired + [top.value];
        top := Peek(timeouts);
      }
      AllDueQueued(s, State(), fired, top);
    }

    /** `try_recv` on the channel of messages, and the check that remote senders do not make. */
    method ReceiveOne()
      requires Valid() && pending.None? && inbox != []
      modifies this
      ensures Valid() && unchanged(this`moves, this`taken, this`path) && trace == old(trace) + [Receive]
      ensures State() == ReceiveMessage(old(State()))
      ensures scheduled == old(scheduled)
                           + if Passes(old(State()).events, old(inbox)[0])
                             then [Task(old(inbox)[0].recipient, Msg(old(inbox)[0].message))] else []
      ensures inbox == old(inbox)[1..] && State().events == old(State()).events
    {
      hide Exec, Start, Step, Apply, Inv, Slabs.Recycler.Valid, ReceiveMessage, Passes;
      ghost var before := State();
      ReceiveIs(before);
      TakeMessage();
      Record(before, Receive);
    }

    method TakeMessage()
      requires Stored() && inbox != []
      modifies this`inbox, this`scheduled, this`pushed
      ensures Stored() && State() == ReceiveMessage(old(State()))
      ensures scheduled == old(scheduled)
                           + if Passes(old(State()).events, old(inbox)[0])
                             then [Task(old(inbox)[0].recipient, Msg(old(inbox)[0].message))] else []
      ensures inbox == old(inbox)[1..] && State().events == old(State()).events
    {
      hide Exec, Start, Step, Apply, Inv, Slabs.Recycler.Valid, Valid;
      var remote := inbox[0];
      inbox := inbox[1..];
      var passed := remote.message.mode.Background? || TypeCheck(remote.recipient, remote.message.realType).None?;
      if passed {
        Schedule(Task(remote.recipient, Msg(remote.message)));
      }
    }

    method DrainChannel()
      requires Valid() && pending.None?
      modifies this
      ensures Valid() && unchanged(this`moves, this`taken, this`path)
      ensures trace == old(trace) + Repeat(Receive, |old(inbox)|)
      ensures inbox == [] && OnlyGathered(old(State()), State())
      ensures scheduled == old(scheduled) + Passing(old(State()).events, old(inbox))
    {
      hide Exec, Start, Step, Apply, Inv, Slabs.Recycler.Valid;
      hide Valid, OnlyGathered, ReceiveMessage, Passing, Passes, Stored, Repeat;
      ghost var q, t, e, msgs, k := scheduled, trace, State().events, inbox, 0;
      NoTasks(e, map[]);
      NoRepeat(Receive);
      GatheredNothing(State());
      while |inbox| > 0
        invariant Valid() && pending.None? && unchanged(this`moves, this`taken, this`path)
        invariant k <= |msgs| && inbox == msgs[k..] && State().events == e
        invariant trace == t + Repeat(Receive, k) && scheduled == q + Passing(e, msgs[..k])
        invariant OnlyGathered(old(State()), State())
        decreases |inbox|
      {
        ghost var more := if Passes(e, msgs[k]) then [Task(msgs[k].recipient, Msg(msgs[k].message))] else [];
        RepeatOneMore(Receive, k);
        GatheredMessage(old(State()), State());
        PassingOneMore(e, msgs, k);
        ReceiveOne();
        assert scheduled == q + (Passing(e, msgs[..k]) + more);
        k := k + 1;
      }
      assert msgs[..|msgs|] == msgs;
    }

    /** A dead child is reported to whoever watches it. The source asserts that the event knows it. */
    method ReapOne(pid: Pid, exit: int)
      requires Valid() && pending.None?
      modifies this, events
      ensures Valid() && unchanged(this`moves, this`taken, this`path) && trace == old(trace) + [Reap(pid, exit)]
      ensures pid in old(State()).children ==> old(State()).children[pid].id in old(State()).events
      ensures State() == ReapChild(old(State()), pid, exit)
      ensures scheduled == old(scheduled)
                           + if pid in old(children) then [Task(old(children)[pid], TaskParam.Child(pid, exit))] else []
      ensures children == old(children) - {pid}
    {
      hide Exec, Start, Step, Apply, Inv, Slabs.Recycler.Valid;
      ghost var before := State();
      WatchersKnow(pid);
      ReapIs(before, pid, exit);
      if pid in children {
        var handle := children[pid];
        children := children - {pid};
        var ev := events.Get(handle.id);
        events.Put(handle.id, ev.(children := ev.children - {pid}));
        Schedule(Task(handle, TaskParam.Child(pid, exit)));
      }
      Record(before, Reap(pid, exit));
    }

    lemma WatchersKnow(pid: Pid)
      requires Valid()
      ensures pid in children ==>
                Alive(State().events, children[pid]) && pid in State().events[children[pid].id].children
    {
      Invariant();
    }

    /** `children_gather`: the answers of waitpid, and whether it failed after them. */
    method ChildrenGather(deaths: seq<(Pid, int)>, waitFails: bool) returns (o: Outcome)
      requires Valid() && pending.None?
      modifies this, events
      ensures Valid() && unchanged(this`moves, this`taken, this`path)
      ensures trace == old(trace) + Reaps(deaths)
      ensures OnlyGathered(old(State()), State()) && inbox == old(inbox)
      ensures o == if waitFails then Fail(NixError) else Done
      ensures scheduled == old(scheduled) + ChildTasks(deaths, old(children))
      ensures children == old(children) - Dead(deaths)
    {
      hide Exec, Start, Step, Apply, Inv, Slabs.Recycler.Valid;
      hide Valid, OnlyGathered, ReapChild, ChildTasks, Dead, Stored;
      NoTasks(map[], children);
      GatheredNothing(State());
      for k := 0 to |deaths|
        invariant scheduled == old(scheduled) + ChildTasks(deaths[..k], old(children))
        invariant children == old(children) - Dead(deaths[..k])
        invariant Valid() && pending.None? && unchanged(this`moves, this`taken, this`path)
        invariant trace == old(trace) + Reaps(deaths[..k])
        invariant OnlyGathered(old(State()), State()) && inbox == old(inbox)
      {
        WatchersKnow(deaths[k].0);
        GatheredChild(old(State()), State(), deaths[k].0, deaths[k].1);
        ReapOne(deaths[k].0, deaths[k].1);
        ChildTasksOneMore(deaths, k, old(children));
      }
      assert deaths[..|deaths|] == deaths;
      o := if waitFails then Fail(NixError) else Done;
    }

    /** One Signal task to each recipient, in the order in which the set is iterated. */
    method BroadcastOne(sig: nat) returns (ghost order: seq<Handle>)
      requires Valid() && pending.None? && sig < |recipients|
      modifies this
      ensures Valid() && unchanged(this`moves, this`taken, this`path) && trace == old(trace) + [Broadcast(sig, order)]
      ensures forall k, l | 0 <= k < l < |order| :: order[k] != order[l]
      ensures forall h :: h in order <==> h in old(recipients)[sig]
      ensures State() == BroadcastSignal(old(State()), sig, order)
      ensures recipients == old(recipients) && children == old(children) && old(scheduled) <= scheduled
      ensures TellsAll(scheduled[|old(scheduled)|..], sig, old(recipients)[sig])
    {
      hide Exec, Start, Step, Apply, Inv, Slabs.Recycler.Valid;
      ghost var before := State();
      var listed := Listed(recipients[sig]);
      order := listed;
      assert (set h | h in order) == recipients[sig];
      BroadcastIs(before, sig, order);
      TellThem(sig, listed);
      hide BroadcastSignal, TellsAll;
      Record(before, Broadcast(sig, order));
    }

    method TellThem(sig: nat, listed: seq<Handle>)
      requires Stored() && forall k, l | 0 <= k < l < |listed| :: listed[k] != listed[l]
      modifies this`scheduled, this`pushed
      ensures Stored() && State() == BroadcastSignal(old(State()), sig, listed)
      ensures old(scheduled) <= scheduled
      ensures TellsAll(scheduled[|old(scheduled)|..], sig, set h | h in listed)
    {
      hide Exec, Start, Step, Apply, Inv, Slabs.Recycler.Valid, Valid, TellsAll;
      scheduled := scheduled + SignalTasks(sig, listed);
      pushed := pushed + SignalTasks(sig, listed);
      TasksTellAll(sig, listed, set h | h in listed);
      assert scheduled[|old(scheduled)|..] == seq(|listed|, k requires 0 <= k < |listed| => Task(listed[k], TaskParam.Signal(sig)));
    }

    /** A signal that is raised: dead children first if it is SIGCHLD, then the broadcast. */
    method SweepOne(sig: nat, deaths: seq<(Pid, int)>, waitFails: bool)
      returns (o: Outcome, ghost order: seq<Handle>, ghost acts: seq<Action>)
      requires Valid() && pending.None? && sig < |recipients|
      modifies this, events
      ensures Valid() && unchanged(this`moves, this`taken, this`path) && pending.None?
      ensures OnlyGathered(old(State()), State()) && inbox == old(inbox) && |recipients| == |old(recipients)|
      ensures o == if sig == sigchld && waitFails then Fail(NixError) else Done
      ensures trace == old(trace) + acts
      ensures IsSwept(acts, sig, deaths, sigchld, order, o.Done?)
      ensures recipients == old(recipients) && children == old(children) - (if sig == sigchld then Dead(deaths) else {})
      ensures SweptBy(scheduled, old(scheduled), sig, o.Done?, old(recipients)[sig],
                      if sig == sigchld then ChildTasks(deaths, old(children)) else [])
    {
      hide Exec, Start, Step, Apply, Inv, Slabs.Recycler.Valid;
      hide Valid, OnlyGathered, BroadcastSignal, TellsAll, ChildTasks, Dead;
      ghost var s := State();
      GatheredNothing(s);
      acts, order := [], [];
      if sig == sigchld {
        o := ChildrenGather(deaths, waitFails);
        acts := Reaps(deaths);
        GatheredSame(s, State());
        assert o.Fail? ==> scheduled == old(scheduled) + ChildTasks(deaths, old(children)) + [];
        if o.Fail? {
          return;
        }
      }
      assert old(children) - {} == old(children) && old(scheduled) + [] == old(scheduled);
      ghost var s1 := State();
      ghost var reaped := scheduled;
      order := BroadcastOne(sig);
      assert scheduled == reaped + scheduled[|reaped|..];
      acts := acts + [Broadcast(sig, order)];
      GatheredSignal(s, s1, sig, State(), order);
      o := Done;
    }

    /** The flags are swept from the first signal to the last; an error cuts the sweep short. */
    method SweepSignals(raised: set<nat>, deaths: seq<(Pid, int)>, waitFails: bool)
      returns (o: Outcome, ghost acts: seq<Action>)
      requires Valid() && pending.None?
      modifies this, events
      ensures Valid() && unchanged(this`moves, this`taken, this`path)
      ensures OnlyGathered(old(State()), State()) && inbox == old(inbox) && trace == old(trace) + acts
      ensures o == if sigchld in raised && sigchld < |old(recipients)| && waitFails then Fail(NixError) else Done
      ensures if o.Done? then IsSweep(acts, |old(recipients)|, raised, deaths, sigchld)
              else IsReapedSweep(acts, sigchld, raised, deaths, sigchld)
      ensures old(scheduled) <= scheduled
      ensures SweptTasks(scheduled[|old(scheduled)|..], if o.Done? then |old(recipients)| else sigchld,
                         sigchld in raised && sigchld < |old(recipients)|, raised, old(recipients),
                         ChildTasks(deaths, old(children)))
    {
      hide Exec, Start, Step, Apply, Inv, Slabs.Recycler.Valid;
      hide Valid, OnlyGathered, IsSweep, IsReapedSweep, IsSwept, Stored, SweptTasks, SweptBy, ChildTasks, Dead;
      ghost var q, recs, kids := scheduled, recipients, children;
      ghost var tasks: seq<Task> := [];
      NothingSwept(raised, recs, ChildTasks(deaths, kids));
      GatheredNothing(State());
      SweepNothing(raised, deaths, sigchld);
      acts := [];
      for sig := 0 to |recipients|
        invariant Valid() && pending.None? && unchanged(this`moves, this`taken, this`path)
        invariant |recipients| == |old(recipients)|
        invariant OnlyGathered(old(State()), State()) && inbox == old(inbox)
        invariant trace == old(trace) + acts && recipients == recs && scheduled == q + tasks
        invariant !(sigchld in raised && sigchld < sig) ==> children == kids
        invariant SweptTasks(tasks, sig, sigchld in raised && sigchld < sig, raised, recs, ChildTasks(deaths, kids))
        invariant IsSweep(acts, sig, raised, deaths, sigchld)
        invariant !(sigchld in raised && sigchld < sig && waitFails)
      {
        if sig in raised {
          ghost var s, order, more := State(), [], [];
          o, order, more := SweepOne(sig, deaths, waitFails);
          GatheredTrans(old(State()), s, State());
          SweptOne(acts, sig, raised, deaths, sigchld, order, more, o.Done?);
          acts := acts + more;
          tasks := SweptMore(tasks, s.scheduled, scheduled, q, sig, o.Done?, raised, recs, deaths, kids, sigchld);
          if o.Fail? {
            return;
          }
        } else {
          SweepSkip(acts, sig, raised, deaths, sigchld);
          SweptSkip(tasks, sig, sigchld in raised && sigchld < sig, raised, recs, ChildTasks(deaths, kids));
        }
      }
      o := Done;
    }

    /** Readiness of a registered IO; the slab tells whose it is. */
    method QueueIo(owner: Handle, idx: nat, ready: nat)
      requires Valid() && pending.None? && Alive(State().events, owner) && idx in State().events[owner.id].ios
      requires idx in ios.contents
      modifies this
      ensures Valid() && unchanged(this`moves, this`taken, this`path) && trace == old(trace) + [Ready(owner, idx, ready)]
      ensures State() == QueueReady(old(State()), owner, idx, ready)
    {
      hide Exec, Start, Step, Apply, Inv, Slabs.Recycler.Valid;
      ghost var before := State();
      ReadyIs(before, owner, idx, ready);
      var task := Task(ios.Get(idx), Io(idx + TOKEN_SHIFT, ready, events.Get(owner.id).ios[idx]));
      Schedule(task);
      Record(before, Ready(owner, idx, ready));
    }

    lemma OwnedStored(owner: Handle, idx: nat)
      requires Valid() && Alive(State().events, owner) && idx in State().events[owner.id].ios
      ensures policy.Deferred? ==> idx in ios.contents
    {
      Invariant();
      if policy.Deferred? { OwnedAreStored(State()); }
    }

    method GatherOneIo(owner: Handle, idx: nat, kind: nat) returns (o: Outcome, ghost acts: seq<Action>)
      requires Valid() && pending.None?
      modifies this
      ensures Valid() && unchanged(this`moves, this`taken, this`path)
      ensures OnlyGathered(old(State()), State()) && inbox == old(inbox) && pending.None? && trace == old(trace) + acts
      ensures o.Done? ==> acts == if Owns(old(State()).events, owner, idx) then [Ready(owner, idx, kind)] else []
      ensures !o.Done? ==> o == Halt(SlabPanic) && policy.AsWritten? && acts == []
                           && Owns(State().events, owner, idx) && idx !in ios.contents
    {
      hide Exec, Start, Step, Apply, Inv, Slabs.Recycler.Valid;
      hide Valid, OnlyGathered, QueueReady;
      ghost var s := State();
      GatheredNothing(s);
      acts := [];
      if EventAlive(owner) && idx in events.Get(owner.id).ios {
        OwnedStored(owner, idx);
        if !ios.Occupied(idx) {
          return Halt(SlabPanic), acts;
        }
        acts := [Ready(owner, idx, kind)];
        QueueIo(owner, idx, kind);
        GatheredIo(s, s, owner, idx, kind);
      }
      o := Done;
    }

    /** One readiness. */
    method GatherOne(r: Readiness) returns (o: Outcome, ghost acts: seq<Action>)
      requires Valid() && pending.None?
      modifies this, events
      ensures Valid() && unchanged(this`moves, this`taken, this`path) && pending.None?
      ensures OnlyGathered(old(State()), State()) && trace == old(trace) + acts
      ensures o.Done? ==> IsOne(old(State()), [], r, acts)
      ensures inbox == if r.ChannelReady? then [] else old(inbox)
      ensures o.Fail? ==> o == Fail(NixError) && Fails(old(State()), r)
                          && IsReapedSweep(acts, sigchld, r.raised, r.deaths, sigchld)
      ensures o.Halt? ==> o == Halt(SlabPanic) && policy.AsWritten? && r.IoReady?
                          && Owns(State().events, r.owner, r.idx) && r.idx !in ios.contents
    {
      hide Exec, Start, Step, Apply, Inv, Slabs.Recycler.Valid;
      hide Valid, OnlyGathered, IsSweep, IsReapedSweep;
      ghost var s := State();
      o := Done;
      match r {
        case ChannelReady =>
          acts := Repeat(Receive, |inbox|);
          DrainChannel();
        case SignalsReady(raised, deaths, waitFails) =>
          SignalCount();
          o, acts := SweepSignals(raised, deaths, waitFails);
        case IoReady(owner, idx, kind) =>
          o, acts := GatherOneIo(owner, idx, kind);
      }
      GatheredSame(s, State());
    }

    /** The poller reports only what is registered with it. An error ends the gathering at once. */
    method TasksGatherIo(ready: seq<Readiness>) returns (o: Outcome, ghost acts: seq<Action>)
      requires Valid() && pending.None?
      modifies this, events
      ensures Valid() && unchanged(this`moves, this`taken, this`path)
      ensures OnlyGathered(old(State()), State()) && trace == old(trace) + acts
      ensures o.Done? ==> IsGather(old(State()), ready, acts)
      ensures o.Fail? ==> o == Fail(NixError) && exists k, n :: IsCutGather(old(State()), ready, acts, k, n)
      ensures o.Halt? ==> o == Halt(SlabPanic) && policy.AsWritten?
                          && exists k, owner, idx, kind :: ReadyOf(ready, k, owner, idx, kind)
                               && Owns(State().events, owner, idx) && idx !in ios.contents
      ensures scheduled == old(scheduled) + AllQueued(old(State()), acts)
    {
      hide Exec, Start, Inv, Slabs.Recycler.Valid, Stored, OnlyGathered, IsGather, IsCutGather, AllQueued;
      ghost var s, t := State(), trace;
      RunSoFar();
      Invariant();
      o, acts := GatherAll(ready);
      RunSoFar();
      Invariant();
      hide Valid;
      GatheredLog(s, State());
      QueueOfStretch(First(), t, acts, s, State());
    }

    method GatherAll(ready: seq<Readiness>) returns (o: Outcome, ghost acts: seq<Action>)
      requires Valid() && pending.None?
      modifies this, events
      ensures Valid() && unchanged(this`moves, this`taken, this`path)
      ensures OnlyGathered(old(State()), State()) && trace == old(trace) + acts
      ensures o.Done? ==> IsGather(old(State()), ready, acts)
      ensures o.Fail? ==> o == Fail(NixError) && exists k, n :: IsCutGather(old(State()), ready, acts, k, n)
      ensures o.Halt? ==> o == Halt(SlabPanic) && policy.AsWritten?
                          && exists k, owner, idx, kind :: ReadyOf(ready, k, owner, idx, kind)
                               && Owns(State().events, owner, idx) && idx !in ios.contents
    {
      hide Exec, Start, Step, Apply, Inv, Slabs.Recycler.Valid;
      hide Valid, Stored, OnlyGathered, IsGather, IsReapedSweep, IsOne, Fails, IsCutGather;
      GatheredNothing(State());
      NoGather(State());
      acts := [];
      for k := 0 to |ready|
        invariant Valid() && pending.None? && unchanged(this`moves, this`taken, this`path)
        invariant OnlyGathered(old(State()), State())
        invariant |inbox| == if ChannelReady in ready[..k] then 0 else |old(inbox)|
        invariant trace == old(trace) + acts
        invariant IsGather(old(State()), ready[..k], acts)
      {
        ghost var s := State();
        ghost var more;
        o, more := GatherOne(ready[k]);
        GatheredTrans(old(State()), s, State());
        OneOfMany(old(State()), s, ready, k, acts, more, o.Done?, o.Fail?);
        acts := acts + more;
        if !o.Done? {
          if o.Halt? { assert ReadyOf(ready, k, ready[k].owner, ready[k].idx, ready[k].ready); }
          return;
        }
      }
      assert ready[..|ready|] == ready;
      o := Done;
    }

    method DrainSlab() returns (o: Outcome)
      requires Valid() && pending.None? && scheduled == []
      modifies this, ios
      ensures Valid() && unchanged(this`moves, this`taken, this`path)
      ensures o.Done? ==> State() == DrainReleased(old(State())) && trace == old(trace) + [Drain]
      ensures !o.Done? ==> o == Halt(SlabPanic) && policy.AsWritten? && !(iosReleased <= ios.contents.Keys)
                           && State() == old(State()) && trace == old(trace)
    {
      hide Exec, Start, Step, Apply, Inv, Slabs.Recycler.Valid;
      ghost var before := State();
      ReleasedStored();
      // Releasing an index that is not stored would fail the assertion of the slab
      if !forall id | id in iosReleased :: ios.Occupied(id) {
        return Halt(SlabPanic);
      }
      DrainIs(before);
      ReleaseAll(ios, iosReleased);
      iosReleased := {};
      Record(before, Drain);
      o := Done;
    }

    method DrainReleasedIds(ghost below: seq<Frame>) returns (o: Outcome)
      requires Valid() && pending.None? && scheduled == [] && Following(below + [One])
      modifies this, ios
      ensures Valid() && unchanged(this`moves, this`taken) && old(path) <= path
      ensures o.Done? ==> State() == DrainReleased(old(State())) && trace == old(trace) + [Drain]
      ensures o.Done? ==> Arrived(AfterDrain(below, old(State()), State()).0, AfterDrain(below, old(State()), State()).1)
      ensures !o.Done? ==> o == Halt(SlabPanic) && Halted(SlabPanic) && State() == old(State()) && trace == old(trace)
    {
      hide Exec, Start, Path, Follows, AfterDrain, DrainReleased, Slabs.Recycler.Valid;
      ghost var before := State();
      Tops(below, One);
      o := DrainSlab();
      if !o.Done? {
        return;
      }
      ghost var (after, r) := AfterDrain(below, before, State());
      DrainFollows(First(), below, Here(), Point(after, trace, taken, r), before, State());
      Advance(after, r);
      o := Done;
    }

    lemma ReleasedStored()
      requires Valid()
      ensures policy.Deferred? ==> iosReleased <= ios.contents.Keys
    {
      Invariant();
    }

    method TakeMove(ghost control: seq<Frame>) returns (m: Move)
      requires Valid() && moves != [] && Following(control)
      modifies this`moves, this`taken
      ensures Valid() && State() == old(State()) && trace == old(trace)
      ensures m == old(moves)[0] && moves == old(moves)[1..] && taken == old(taken) + [m]
      ensures Reading(control, m)
    {
      hide Exec, Start, Slabs.Recycler.Valid, Path;
      m := moves[0];
      moves := moves[1..];
      taken := taken + [m];
    }

    /** There is no next move, or it is no answer. */
    lemma NoAnswerHere(control: seq<Frame>, f: Frame)
      requires Following(control) && control != [] && Last(control) == f && Asks(f)
      requires moves == [] || !FitsIn(f, State(), moves[0])
      ensures Halted(NoAnswer)
    {}

    /** Other threads send at any time; background results come from callbacks of this loop. */
    method Arrivals(msgs: seq<RemoteMessage>)
      requires Valid() && pending.None?
      modifies this
      ensures Valid() && unchanged(this`moves, this`taken, this`path)
      ensures trace == old(trace) + Arrives(Arriving(msgs, old(generation)))
      ensures State() == old(State()).(inbox := old(inbox) + Arriving(msgs, old(generation)))
    {
      hide Exec, Start, Valid, Stored, Arriving, Arrives;
      NoArrivals(old(generation));
      for k := 0 to |msgs|
        invariant Valid() && unchanged(this`moves, this`taken, this`path)
        invariant trace == old(trace) + Arrives(Arriving(msgs[..k], old(generation)))
        invariant State() == old(State()).(inbox := old(inbox) + Arriving(msgs[..k], old(generation)))
      {
        ArrivingOneMore(msgs, k, old(generation));
        ArrivesOneMore(Arriving(msgs[..k], old(generation)), msgs[k]);
        if msgs[k].message.mode.Background? ==> msgs[k].recipient.generation < generation {
          ArriveOne(msgs[k]);
        }
      }
      assert msgs[..|msgs|] == msgs;
    }

    method ArriveOne(m: RemoteMessage)
      requires Valid() && pending.None? && (m.message.mode.Background? ==> m.recipient.generation < generation)
      modifies this
      ensures Valid() && unchanged(this`moves, this`taken, this`path) && trace == old(trace) + [Arrive(m)]
      ensures State() == old(State()).(inbox := old(inbox) + [m])
    {
      hide Exec, Start, Step, Apply, Inv, Slabs.Recycler.Valid;
      ghost var before := State();
      ArriveIs(before, m);
      inbox := inbox + [m];
      Record(before, Arrive(m));
    }

    method UpdateNow(t: Instant)
      requires Valid() && pending.None? && now <= t
      modifies this
      ensures Valid() && unchanged(this`moves, this`taken, this`path) && trace == old(trace) + [Tick(t)]
      ensures State() == old(State()).(now := t)
    {
      hide Exec, Start, Step, Apply, Inv, Slabs.Recycler.Valid;
      ghost var before := State();
      TickIs(before, t);
      now := t;
      Record(before, Tick(t));
    }

    /** At most one idle task, and only when there is nothing else to do. */
    method AddIdleTask()
      requires Valid() && pending.None? && scheduled == []
      modifies this
      ensures Valid() && unchanged(this`moves, this`taken, this`path)
      ensures trace == old(trace) + if old(wantIdle) == [] then [] else [PickIdle]
      ensures State() == if old(wantIdle) == [] then old(State()) else QueueIdle(old(State()))
    {
      hide Exec, Start, Step, Apply, Inv, Slabs.Recycler.Valid;
      if |wantIdle| > 0 {
        ghost var before := State();
        PickIdleIs(before);
        Schedule(Task(wantIdle[0], TaskParam.Idle));
        wantIdle := wantIdle[1..];
        Record(before, PickIdle);
      }
    }

    /** What the end of a wait brings, once `poll` has returned. */
    method TasksGatherWoken(t: Instant, arrivals: seq<RemoteMessage>, ready: seq<Readiness>) returns (o: Outcome)
      requires Valid() && pending.None? && now <= t && NoTimersQueued(scheduled) && TopIsLive(State())
      modifies this, events
      ensures Valid() && old(trace) <= trace && unchanged(this`moves, this`taken, this`path)
      ensures stack == old(stack) && pending.None?
      ensures now == t
      ensures o.Done? ==> exists io, fired, idle :: WokeBy(First(), old(trace), trace, t, arrivals, ready, io, fired, idle)
      ensures o.Done? ==> SomeTimerLive(State()) && forall u | u in timeouts :: u.when > t
      ensures o.Fail? ==> o == Fail(NixError)
                          && exists io, k, n :: CutBy(First(), old(trace), trace, t, arrivals, ready, io, k, n)
      ensures o.Halt? ==> o == Halt(SlabPanic) && policy.AsWritten?
                          && exists k, owner, idx, kind :: ReadyOf(ready, k, owner, idx, kind)
                               && Owns(State().events, owner, idx) && idx !in ios.contents
    {
      hide Exec, Start, Step, Apply, Inv, Slabs.Recycler.Valid;
      hide Valid, TopIsLive, OnlyGathered, QueuedInOrder, NoTimersQueued, SomeTimerLive, IsGather, IsReapedSweep, Fails;
      ghost var s0, t0 := State(), trace;
      RunSoFar();
      Arrivals(arrivals);
      UpdateNow(t);
      assert trace == Ticked(First(), t0, t, arrivals);
      RunSoFar();
      TopStays(s0, State());
      ghost var s1, t1 := State(), trace;
      ghost var io;
      o, io := TasksGatherIo(ready);
      GatheredKeeps(s1, State());
      if o.Fail? {
        ghost var k, n :| IsCutGather(s1, ready, io, k, n);
        assert CutBy(First(), t0, trace, t, arrivals, ready, io, k, n);
      }
      if o.Done? {
        ghost var fired, idle := GatherRest();
        RunSoFar();
        assert WokeBy(First(), t0, trace, t, arrivals, ready, io, fired, idle);
      }
    }

    /** What is gathered after the IO: timers, and an idle task if there is nothing else. */
    method GatherRest() returns (ghost fired: seq<TimeoutHolder>, ghost idle: seq<Action>)
      requires Valid() && pending.None? && NoTimersQueued(scheduled) && TopIsLive(State())
      modifies this
      ensures Valid() && unchanged(this`moves, this`taken, this`path)
      ensures stack == old(stack) && pending.None? && now == old(now)
      ensures trace == old(trace) + [Cleanup] + Dues(fired) + idle
      ensures SomeTimerLive(State()) && forall u | u in timeouts :: u.when > now
      ensures idle == [PickIdle] || (idle == [] && (scheduled != [] || wantIdle == []))
    {
      hide Exec, Start, Step, Apply, Inv, Slabs.Recycler.Valid;
      hide Valid, TopIsLive, QueuedInOrder, NoTimersQueued, SomeTimerLive;
      ghost var s1 := State();
      TimersCleanup();
      CleanupKeepsTop(s1);
      ghost var s2 := State();
      fired := TasksGatherTimers();
      FiredHasLive(s2, State(), fired);
      idle := [];
      if |scheduled| == 0 {
        ghost var s3 := State();
        idle := if wantIdle == [] then [] else [PickIdle];
        AddIdleTask();
        IdleKeepsLive(s3, State());
      }
    }

    lemma RunSoFar()
      requires Valid()
      ensures Exec(First(), trace) == Some(State())
    {}

    /**
     `tasks_gather`. An interrupted wait gathers nothing; an error of the poller or of `waitpid` is an
     error. What exactly happens during the wait is in PollIs.
     */
    method TasksGather(ghost below: seq<Frame>) returns (o: Outcome)
      requires Valid() && pending.None? && scheduled == [] && Following(below + [One])
      modifies this, events, ios
      ensures Valid() && old(trace) <= trace && |moves| <= |old(moves)| && old(path) <= path
      ensures !o.Halt? ==> stack == old(stack) && pending.None?
      ensures o.Done? ==> Following(below + [One])
      ensures o.Fail? ==> Returned(below, o)
      ensures o.Halt? ==> Halted(o.reason)
      ensures o.Done? ==> |moves| < |old(moves)|
      ensures !o.Halt? ==> old(trace) + [Drain] <= trace
      ensures old(State()).events == map[] && !o.Halt? ==> o == Fail(Empty) && State() == DrainReleased(old(State()))
      ensures old(State()).events != map[] && !o.Halt? ==>
                && old(moves) != [] && old(moves)[0].Poll? && moves == old(moves)[1..]
                && PollIs(First(), old(trace) + [Drain], trace, old(moves)[0].result, o)
      ensures o.Done? ==> SomeTimerLive(State())
      ensures o.Done? && scheduled != [] ==> forall u | u in timeouts :: u.when > now
    {
      hide Exec, Start, Step, Apply, Inv, Slabs.Recycler.Valid, Path, Follows, Stops, Resume, PollIs;
      hide Valid, SomeTimerLive, Following, Halted, Returned, Reading;
      o := DrainReleasedIds(below);
      if !o.Done? {
        return;
      }
      if events.Len() == 0 {
        EmptyHere(below);
        return Fail(Empty);
      }
      if moves == [] || !moves[0].Poll? || (moves[0].result.Woken? && moves[0].result.now < now) {
        Tops(below, Polling);
        NoAnswerHere(below + [Polling], Polling);
        return Halt(NoAnswer);
      }
      NothingScheduled(State());
      o := Wait(below);
    }

    /** Nothing to wait for. */
    lemma EmptyHere(below: seq<Frame>)
      requires Arrived(Resume(below, Fail(Empty), State()), Fail(Empty))
      ensures Returned(below, Fail(Empty))
    {}

    /** The call of `poll`, and what follows it. The clock of the system is monotonic. */
    method Wait(ghost below: seq<Frame>) returns (o: Outcome)
      requires Valid() && pending.None? && scheduled == [] && Following(below + [Polling])
      requires moves != [] && FitsIn(Polling, State(), moves[0])
      modifies this, events
      ensures Valid() && old(trace) <= trace && moves == old(moves)[1..] && old(path) <= path
      ensures stack == old(stack) && pending.None?
      ensures o.Done? ==> Following(below + [One])
      ensures o.Fail? ==> Returned(below, o)
      ensures o.Halt? ==> Halted(o.reason)
      ensures !o.Halt? ==> PollIs(First(), old(trace), trace, old(moves)[0].result, o)
      ensures o.Done? ==> SomeTimerLive(State())
      ensures o.Done? && scheduled != [] ==> forall u | u in timeouts :: u.when > now
    {
      hide Exec, Start, Step, Apply, Inv, Slabs.Recycler.Valid, Path, Follows, Stops, Resume;
      hide Valid, SomeTimerLive, WakeUp, PrunedOnly, TopIsLive, Following, Halted, Returned, WokeBy, CutBy;
      ghost var before, t0 := State(), trace;
      RunSoFar();
      var poll := TakeMove(below + [Polling]);
      var wakeup, drops := TimeoutMin(poll.clock);
      PrunedKeeps(before, State());
      NothingScheduled(State());
      RunSoFar();
      assert LiveOnTop(First(), t0, drops);
      match poll.result {
        case Interrupted =>
          o := Done;
        case PollFailed =>
          o := Fail(IoError);
        case Woken(t, arrivals, ready) =>
          o := TasksGatherWoken(t, arrivals, ready);
      }
      if o.Halt? {
        BrokeInWait(below, poll);
      } else {
        Polled(below, poll, t0, before, o);
      }
    }

    /** A readiness of an IO that the slab does not have fails an assertion. */
    lemma BrokeInWait(below: seq<Frame>, poll: Move)
      requires OnPath() && Here().control == below + [Polling] && taken == Here().taken + [poll]
      requires poll.Poll? && poll.result.Woken? && policy.AsWritten?
      requires exists k, owner, idx, kind :: ReadyOf(poll.result.ready, k, owner, idx, kind)
                 && Owns(State().events, owner, idx) && idx !in ios.contents
      ensures Halted(SlabPanic)
    {
      hide Path;
      Tops(below, Polling);
    }

    ghost method Polled(below: seq<Frame>, poll: Move, t: seq<Action>, before: LoopState, o: Outcome)
      requires Valid() && OnPath() && Here().control == below + [Polling] && Here().trace == t
      requires taken == Here().taken + [poll] && Exec(First(), t) == Some(before) && FitsIn(Polling, before, poll)
      requires PollIs(First(), t, trace, poll.result, o) && !o.Halt?
      modifies this`path
      ensures Valid() && State() == old(State()) && old(path) <= path
      ensures o.Done? ==> Following(below + [One])
      ensures o.Fail? ==> Returned(below, o)
    {
      hide Exec, Start, Path, Follows, Resume, PollIs, FitsIn, Slabs.Recycler.Valid;
      ghost var (after, r) := AfterPoll(below, o, State());
      PollFollows(First(), below, Here(), Point(after, trace, taken, r), poll, o, before, State());
      Advance(after, r);
    }

    // ----- Dispatch -----

    /** `event_kill`: the event leaves every index it is in. */
    method EventKill(idx: nat) returns (ev: EvHolder)
      requires Stored() && idx in events.contents
      modifies this, events
      ensures Stored() && unchanged(this`moves, this`taken, this`path) && trace == old(trace)
      ensures ev == old(events.contents)[idx]
      ensures State() == Kill(old(State()), Handle(idx, ev.generation))
      ensures ChildrenOk(old(State()).events, old(children)) && IdleOk(old(State()).events, old(wantIdle)) ==>
                OnlyItsOwn(old(State()), State(), Handle(idx, ev.generation))
    {
      ghost var s := State();
      hide Exec, Start, Step, Apply, Inv, Slabs.Recycler.Valid, Valid;
      ev := events.Release(idx);
      timeoutsDead := timeoutsDead + ev.timeouts;
      iosReleased := iosReleased + ev.ios.Keys;
      ForgetEvent(Handle(idx, ev.generation), ev.children);
      KillEffect(s, Handle(idx, ev.generation));
    }

    /** The indexes of handles. */
    method ForgetEvent(handle: Handle, pids: set<Pid>)
      requires Stored()
      modifies this`wantIdle, this`recipients, this`children
      ensures Stored()
      ensures State() == old(State()).(wantIdle := Without(old(wantIdle), handle),
                                       recipients := Forget(old(recipients), handle), children := old(children) - pids)
    {
      hide Exec, Start, Step, Apply, Inv, Slabs.Recycler.Valid, Valid, Forget, Without;
      wantIdle := Without(wantIdle, handle);
      recipients := ForgetAll(recipients, handle);
      children := children - pids;
    }

    lemma KillEffect(s: LoopState, h: Handle)
      requires h.id in s.events && h == At(s.events, h.id) && State() == Kill(s, h)
      ensures ChildrenOk(s.events, s.children) && IdleOk(s.events, s.wantIdle) ==> OnlyItsOwn(s, State(), h)
    {
      if ChildrenOk(s.events, s.children) && IdleOk(s.events, s.wantIdle) { KillTakesOnlyItsOwn(s, h); }
    }

    lemma DeathEffect(response: Response)
      requires Valid() && stack != [] && pending.None?
      ensures !response.Keep? ==>
                && Alive(State().events, Top(State()))
                && OnlyItsOwn(State().(stack := stack[..|stack| - 1]), LeaveCall(State(), response), Top(State()))
    {
      Invariant();
      TopAlive(State());
      if !response.Keep? { DeathTakesOnly(State(), response); }
    }

    /** `steal`, or nothing when there is no such event or it is busy. */
    method Steal(handle: Handle) returns (r: Outcome)
      requires Valid() && pending.Some? && pending.value.target == handle
      modifies this, events
      ensures Valid() && unchanged(this`moves, this`taken, this`path) && trace == old(trace) + [Enter]
      ensures State() == EnterCall(old(State()))
      ensures r == if !Alive(old(State()).events, handle) then Fail(Missing)
                   else if old(State()).events[handle.id].stolen then Fail(Busy) else Done
    {
      hide Exec, Start, Step, Apply, Inv, Slabs.Recycler.Valid;
      ghost var before := State();
      EnterIs(before);
      r := Done;
      if !events.Occupied(handle.id) {
        r := Fail(Missing);
      } else if events.Get(handle.id).generation != handle.generation {
        r := Fail(Missing);
      } else if events.Get(handle.id).stolen {
        r := Fail(Busy);
      } else {
        events.Put(handle.id, events.Get(handle.id).(stolen := true));
      }
      ghost var after := EnterCall(before);
      hide EnterCall;
      Adopt(after);
      Record(before, Enter);
    }

    /** The callback returned: unsteal, and kill the event unless it goes on. */
    method Finish(handle: Handle, response: Response)
      requires InCallback(handle)
      modifies this, events
      ensures Valid() && unchanged(this`moves, this`taken, this`path) && trace == old(trace) + [Leave(response)]
      ensures handle.id in old(State()).events && State() == LeaveCall(old(State()), response)
      ensures !response.Keep? ==>
                Alive(old(State()).events, handle)
                && OnlyItsOwn(old(State()).(stack := old(stack)[..|old(stack)| - 1]), State(), handle)
    {
      hide Exec, Start, Step, Apply, Inv, Slabs.Recycler.Valid;
      ScopeAlive(handle);
      DeathEffect(response);
      ghost var before := State();
      LeaveIs(before, response);
      events.Put(handle.id, events.Get(handle.id).(stolen := false));
      stack := stack[..|stack| - 1];
      if !response.Keep? {
        hide Kill;
        var _ := EventKill(handle.id);
      }
      Record(before, Leave(response));
    }

    /** `event_call` has looked for its event. */
    method Begin(handle: Handle, ghost below: seq<Frame>) returns (r: Outcome)
      requires Valid() && pending.Some? && pending.value.target == handle && Following(below + [Calling])
      modifies this, events
      ensures Valid() && unchanged(this`moves, this`taken) && trace == old(trace) + [Enter] && old(path) <= path
      ensures State() == EnterCall(old(State()))
      ensures r == if !Alive(old(State()).events, handle) then Fail(Missing)
                   else if old(State()).events[handle.id].stolen then Fail(Busy) else Done
      ensures pending.None? && stack == if r.Done? then old(stack) + [handle] else old(stack)
      ensures if r.Done? then Following(below + [Body(true)]) else Returned(below, r)
    {
      hide Exec, Start, Path, Follows, Resume, Alive, EnterCall, Slabs.Recycler.Valid;
      ghost var before := State();
      r := Steal(handle);
      EnterStack(before);
      ghost var (after, result) := AfterEnter(below, before, State());
      EnterFollows(First(), below, Here(), Point(after, trace, taken, result), before, State());
      Advance(after, result);
    }

    /** The callback is over; the error handler is still to be asked about an error. */
    method End(handle: Handle, response: Response, ghost below: seq<Frame>)
      requires InCallback(handle) && Reading(below + [Body(true)], Return(response))
      modifies this, events
      ensures Valid() && unchanged(this`moves, this`taken) && trace == old(trace) + [Leave(response)] && old(path) <= path
      ensures handle.id in old(State()).events && State() == LeaveCall(old(State()), response)
      ensures if response.Failed? then Following(below + [Handling]) else Returned(below, Done)
    {
      hide Exec, Start, Path, Resume, LeaveCall, Carried, Wanted, Slabs.Recycler.Valid;
      ghost var before, t, control := State(), trace, below + [Body(true)];
      Finish(handle, response);
      Tops(below, Body(true));
      ReturnCarried(t, response);
      ghost var (after, result) := AfterRequest(control, before, State(), Return(response));
      Fulfilled(control, Return(response), true, t, before, after, result);
    }

    lemma ReturnCarried(t: seq<Action>, response: Response)
      ensures Carried(t, t + [Leave(response)], Wanted(Return(response)))
    {
      CarriedOne(t, Leave(response), Return(response));
    }

    /**
     `event_call`. It answers Missing or Busy without calling anything exactly when the event is gone
     or in the middle of a callback. Otherwise the callback runs between entering and leaving; the event
     lives on exactly if the response says so, and an error is what the error handler makes of the one
     in the response. On return the frames are the ones that were there before.
     */
    method EventCall(handle: Handle, ghost cause: Cause, ghost below: seq<Frame>) returns (o: Outcome)
      requires Valid() && pending == Some(Call(handle, cause)) && Following(below + [Calling])
      modifies this, events, ios
      ensures Valid() && old(trace) <= trace && |moves| <= |old(moves)| && old(path) <= path
      ensures !o.Halt? ==> stack == old(stack) && pending.None? && Returned(below, o)
      ensures o.Halt? ==> Halted(o.reason)
      ensures !Alive(old(State()).events, handle) ==> o == Fail(Missing) && State() == EnterCall(old(State()))
      ensures Alive(old(State()).events, handle) && old(State()).events[handle.id].stolen ==>
                o == Fail(Busy) && State() == EnterCall(old(State())) && trace == old(trace) + [Enter]
      ensures Alive(old(State()).events, handle) && !old(State()).events[handle.id].stolen && !o.Halt? ==>
                && |moves| < |old(moves)| && CallIs(old(trace), trace, o)
                && (Alive(State().events, handle) <==> trace[|trace| - 1].response.Keep?)
                && (trace[|trace| - 1].response.Failed? ==>
                      taken != [] && taken[|taken| - 1].Handler? && o == Verdict(taken[|taken| - 1].verdict)
                      && (match taken[|taken| - 1].verdict case None => o == Done case Some(e) => o == Fail(e)))
      decreases |moves|, 2
    {
      hide Exec, Start, Step, Apply, Inv, Slabs.Recycler.Valid;
      hide Valid, Following, Returned, Reading, Halted, Alive, EnterCall, Stored;
      o := Begin(handle, below);
      if !o.Done? {
        return;
      }
      var response;
      o, response := Callback(handle, below);
      if o.Halt? {
        return;
      }
      InCallbackIs(handle);
      ScopeAlive(handle);
      LeaveAlive(State(), response);
      hide LeaveCall;
      End(handle, response, below);
      if response.Failed? {
        o := ErrorHandler(below);
      }
    }

    lemma EnterStack(before: LoopState)
      requires before.pending.Some? && State() == EnterCall(before)
      ensures var h := before.pending.value.target;
              && pending.None?
              && stack == if Alive(before.events, h) && !before.events[h.id].stolen then before.stack + [h] else before.stack
    {}

    lemma InCallbackIs(handle: Handle)
      requires Valid() && pending.None? && stack != [] && stack[|stack| - 1] == handle
      ensures InCallback(handle)
    {}

    /** The error handler may swallow the error, or end the current call with this or another one. */
    method ErrorHandler(ghost below: seq<Frame>) returns (o: Outcome)
      requires Valid() && Following(below + [Handling])
      modifies this`moves, this`taken, this`path
      ensures Valid() && State() == old(State()) && trace == old(trace) && |moves| <= |old(moves)| && old(path) <= path
      ensures !o.Halt? ==> Returned(below, o) && taken != [] && taken[|taken| - 1].Handler?
                           && o == Verdict(taken[|taken| - 1].verdict)
                           && (match taken[|taken| - 1].verdict case None => o == Done case Some(e) => o == Fail(e))
      ensures o.Halt? ==> o == Halt(NoAnswer) && Halted(NoAnswer)
    {
      hide Exec, Start, Path, Follows, Resume, Halted, Stops, Slabs.Recycler.Valid;
      if moves == [] || !moves[0].Handler? {
        Tops(below, Handling);
        NoAnswerHere(below + [Handling], Handling);
        return Halt(NoAnswer);
      }
      var m := TakeMove(below + [Handling]);
      o := Verdict(m.verdict);
      ghost var after := Resume(below, o, State());
      HandlerFollows(First(), below, Here(), Point(after, trace, taken, o), m, State());
      Advance(after, o);
    }

    /** The body of a callback: whatever it asks for, then its response. */
    method Callback(handle: Handle, ghost below: seq<Frame>) returns (o: Outcome, response: Response)
      requires Valid() && pending.None? && stack != [] && stack[|stack| - 1] == handle && Following(below + [Body(true)])
      modifies this, events, ios
      ensures Valid() && old(trace) <= trace && |moves| <= |old(moves)| && old(path) <= path
      ensures o.Halt? || (o.Done? && |moves| < |old(moves)| && stack == old(stack) && pending.None?)
      ensures o.Done? ==> Reading(below + [Body(true)], Return(response))
      ensures o.Halt? ==> Halted(o.reason)
      decreases |moves|, 1
    {
      hide Valid, InCallback, Following, Reading, Halted;
      Tops(below, Body(true));
      response := Keep;
      while true
        invariant Valid() && pending.None? && stack == old(stack) && old(trace) <= trace && old(path) <= path
        invariant Following(below + [Body(true)])
        invariant |moves| <= |old(moves)|
        decreases |moves|
      {
        if moves == [] || !IsRequest(true, |enabled|, sigchld, moves[0]) {
          NoAnswerHere(below + [Body(true)], Body(true));
          return Halt(NoAnswer), response;
        }
        var m := TakeMove(below + [Body(true)]);
        if m.Return? {
          return Done, m.response;
        }
        var r := Perform(Some(handle), m, below + [Body(true)]);
        if r.Halt? {
          return r, response;
        }
      }
    }

    /** One request of the innermost callback, or of the owner of the loop. */
    method Perform(owner: Option<Handle>, m: Move, ghost control: seq<Frame>) returns (o: Outcome)
      requires Valid() && pending.None? && owner == Owner(State())
      requires Reading(control, m) && control != [] && Last(control) == Body(owner.Some?)
      requires IsRequest(owner.Some?, |enabled|, sigchld, m) && !m.Return?
      modifies this, events, ios
      ensures Valid() && old(trace) <= trace && |moves| <= |old(moves)| && old(path) <= path
      ensures !o.Halt? ==> stack == old(stack) && pending.None? && Arrived(control, o)
      ensures o.Halt? ==> Halted(o.reason)
      ensures m.DoRunOne? && !o.Halt? ==> old(trace) < trace
      ensures m.DoRunUntilComplete? && o.Done? ==> !Alive(State().events, m.handle)
      ensures m.DoRunUntilComplete? && !o.Halt? && Alive(old(State()).events, m.handle) ==>
                if m.handle in old(stack) then o == Fail(DeadLock) && State() == old(State()) else old(trace) < trace
      ensures m.DoRun? && o.Done? ==> !active
      decreases |moves|, 6
    {
      hide Valid, Following, Reading, Halted, Returned, Arrived, CallIs, Alive;
      if m.DoInsert? {
        var h;
        o, h := InsertExact(owner.Some?, control);
      } else if m.DoPost? {
        o := PostImpl(owner, m.to, m.data, m.tp, control);
      } else if m.DoRunOne? {
        o := RunOnce(owner.Some?, control);
      } else if m.DoRunUntilComplete? {
        o := RunUntilComplete(m.handle, owner.Some?, control);
      } else if m.DoRun? {
        o := Run(owner.Some?, control);
      } else if owner.None? || m.DoSend? || m.DoStop? || m.DoSignalEnable? {
        o := PerformSimple(owner, m, control);
      } else if m.DoIoRemove? || m.DoChild? {
        o := PerformAsserted(owner.value, m, control);
      } else if Simple(m) {
        o := PerformOwn(owner.value, m, control);
      } else {
        o := PerformScoped(owner.value, m, control);
      }
    }

    /** `run_one` as somebody asked for it. */
    method RunOnce(ghost scoped: bool, ghost control: seq<Frame>) returns (o: Outcome)
      requires Valid() && pending.None? && Reading(control, DoRunOne) && control != [] && Last(control) == Body(scoped)
      modifies this, events, ios
      ensures Valid() && old(trace) <= trace && |moves| <= |old(moves)| && old(path) <= path
      ensures !o.Halt? ==> stack == old(stack) && pending.None? && Arrived(control, o)
      ensures o.Halt? ==> Halted(o.reason)
      ensures !o.Halt? ==> old(trace) < trace
      decreases |moves|, 5
    {
      hide Valid, Following, Reading, Halted, Returned, Arrived, Resume;
      Requested(control, DoRunOne, scoped, control + [One], Done);
      o := RunOne(control);
      if !o.Halt? { Back(control, o); }
    }

    /** A request that only makes a call, without an action. */
    ghost method Requested(control: seq<Frame>, m: Move, scoped: bool, after: seq<Frame>, o: Outcome)
      requires Valid() && Reading(control, m) && control != [] && Last(control) == Body(scoped)
      requires m.DoRunOne? || m.DoRunUntilComplete?
      requires (after, o) == AfterRequest(control, State(), State(), m)
      modifies this`path
      ensures Valid() && State() == old(State()) && Following(after) && Arrived(after, o) && old(path) <= path
    {
      hide Exec, Start, Path, AfterRequest, Carried, Slabs.Recycler.Valid;
      CarriedNone(trace, m);
      Fulfilled(control, m, scoped, trace, State(), after, o);
    }

    /** The call that a request made has returned. */
    lemma Back(control: seq<Frame>, o: Outcome)
      requires Returned(control, o) && control != [] && Last(control).Body?
      ensures Arrived(control, o)
    {
      ResumeBody(control, o, State());
    }

    /** The requests that anybody can make and that are done at once. */
    method PerformSimple(owner: Option<Handle>, m: Move, ghost control: seq<Frame>) returns (o: Outcome)
      requires Valid() && pending.None? && owner == Owner(State()) && (m.DoSend? || m.DoStop? || m.DoSignalEnable?)
      requires Reading(control, m) && control != [] && Last(control) == Body(owner.Some?)
      requires IsRequest(owner.Some?, |enabled|, sigchld, m)
      modifies this
      ensures Valid() && old(trace) <= trace && unchanged(this`moves, this`taken) && old(path) <= path
      ensures !o.Halt? && stack == old(stack) && pending.None? && Arrived(control, o)
    {
      hide Exec, Start, Step, Apply, Inv, Slabs.Recycler.Valid, Path, Valid, MsgTypeCheck;
      ghost var t, before := trace, State();
      RunSoFar();
      o := Done;
      if m.DoSend? {
        o := SendImpl(owner, m.to, m.data, m.tp);
      } else if m.DoStop? {
        Stop();
      } else {
        SignalEnable(m.sig);
      }
      Carry(control, m, owner.Some?, t, before, o);
    }

    /** The requests that only a callback can make and that are one action. */
    method PerformOwn(handle: Handle, m: Move, ghost control: seq<Frame>) returns (o: Outcome)
      requires Valid() && pending.None? && stack != [] && stack[|stack| - 1] == handle
      requires m.DoTimeoutAt? || m.DoIdle? || m.DoExpect?
      requires Reading(control, m) && control != [] && Last(control) == Body(true)
      requires IsRequest(true, |enabled|, sigchld, m)
      modifies this, events
      ensures Valid() && old(trace) <= trace && unchanged(this`moves, this`taken) && old(path) <= path
      ensures o.Done? && stack == old(stack) && pending.None? && Arrived(control, o)
    {
      hide Exec, Start, Step, Apply, Inv, Slabs.Recycler.Valid, Path, Valid, InCallback, Halted, ResultOf, Stored, Following;
      hide StartTimeout, RequestIdle, ExpectType;
      ghost var t, before := trace, State();
      RunSoFar();
      InCallbackIs(handle);
      ScopeAlive(handle);
      o := Done;
      if m.DoTimeoutAt? {
        var id := TimeoutAt(handle, m.when);
      } else if m.DoIdle? {
        Idle(handle, m.toBack);
      } else {
        ExpectMessage(handle, m.tp);
      }
      OwnResult(before, m, o);
      Carry(control, m, true, t, before, o);
    }

    /** The same, where an assertion can fail. */
    method PerformAsserted(handle: Handle, m: Move, ghost control: seq<Frame>) returns (o: Outcome)
      requires Valid() && pending.None? && stack != [] && stack[|stack| - 1] == handle
      requires m.DoIoRemove? || m.DoChild?
      requires Reading(control, m) && control != [] && Last(control) == Body(true)
      requires IsRequest(true, |enabled|, sigchld, m)
      modifies this, events, ios
      ensures Valid() && old(trace) <= trace && unchanged(this`moves, this`taken) && old(path) <= path
      ensures !o.Halt? ==> stack == old(stack) && pending.None? && Arrived(control, o)
      ensures o.Halt? ==> Halted(o.reason)
    {
      hide Exec, Start, Step, Apply, Inv, Slabs.Recycler.Valid, Path, Valid, InCallback, Halted, ResultOf, Stored, Following;
      hide RemoveIo, TrackChild;
      ghost var t, before := trace, State();
      RunSoFar();
      InCallbackIs(handle);
      ScopeAlive(handle);
      o := Done;
      if m.DoIoRemove? {
        o := IoRemove(handle, m.id, m.deregistered);
        if o.Halt? { BrokeInRemoval(control, m); }
      } else {
        o := Child(handle, m.pid);
        if o.Halt? { WatchedTwice(control, m, t); }
      }
      if !o.Halt? {
        OwnResult(before, m, o);
        Carry(control, m, true, t, before, o);
      }
    }

    lemma OwnResult(s: LoopState, m: Move, o: Outcome)
      requires s.stack != [] && Alive(s.events, Top(s))
      requires m.DoTimeoutAt? || m.DoIdle? || m.DoExpect? || m.DoIoRemove? || m.DoChild?
      requires o == if !m.DoIoRemove? then Done
                    else if m.id - TOKEN_SHIFT !in s.events[Top(s).id].ios then Fail(MissingIo)
                    else if m.deregistered then Done else Fail(IoError)
      ensures o == ResultOf(s, m)
    {}

    /** Removing an IO that the slab does not have fails an assertion. */
    lemma BrokeInRemoval(control: seq<Frame>, m: Move)
      requires OnPath() && Here().control == control && taken == Here().taken + [m] && m.DoIoRemove?
      requires control != [] && Last(control).Body? && policy.AsWritten? && NotStored(State(), m.id)
      ensures Halted(SlabPanic)
    {
      hide Path;
    }

    lemma WatchedTwice(control: seq<Frame>, m: Move, t: seq<Action>)
      requires OnPath() && Here().control == control && Here().trace == t && taken == Here().taken + [m] && m.DoChild?
      requires control != [] && Last(control) == Body(true) && trace == t + [EnableSignal(sigchld)] && m.pid in children
      ensures Halted(DoubleChild)
    {
      hide Path;
    }

    /** The other requests that only a callback can make. */
    method PerformScoped(handle: Handle, m: Move, ghost control: seq<Frame>) returns (o: Outcome)
      requires Valid() && pending.None? && stack != [] && stack[|stack| - 1] == handle
      requires Reading(control, m) && control != [] && Last(control) == Body(true)
      requires IsRequest(true, |enabled|, sigchld, m) && (m.DoSignal? || m.DoIoRegister?)
      modifies this, events, ios
      ensures Valid() && old(trace) <= trace && unchanged(this`moves, this`taken) && old(path) <= path
      ensures o.Done? || o.Fail?
      ensures stack == old(stack) && pending.None? && Arrived(control, o)
      ensures o == if m.DoIoRegister? && !m.accepted then Fail(IoError) else Done
    {
      hide Exec, Start, Step, Apply, Inv, Slabs.Recycler.Valid, Path, Valid, InCallback, SubscribeSignal, RegisterIo, Carried;
      ghost var t, before := trace, State();
      RunSoFar();
      InCallbackIs(handle);
      o := Done;
      if m.DoSignal? {
        Signal(handle, m.sig);
        CarriedTwo(t, m.sig);
      } else {
        var id := IoRegister(handle, m.accepted);
        o := if id.None? then Fail(IoError) else Done;
        if id.Some? { CarriedOne(t, Action.IoRegister(id.value - TOKEN_SHIFT), m); } else { CarriedNone(t, m); }
      }
      Fulfilled(control, m, true, t, before, control, o);
    }

    /** `insert_exact`: a fresh generation, a slot, and the `init` callback. */
    method InsertExact(ghost scoped: bool, ghost control: seq<Frame>) returns (o: Outcome, handle: Handle)
      requires Valid() && pending.None? && Reading(control, DoInsert) && control != [] && Last(control) == Body(scoped)
      modifies this, events, ios
      ensures Valid() && old(trace) <= trace && |moves| <= |old(moves)| && old(path) <= path
      ensures !o.Halt? ==> stack == old(stack) && pending.None? && Arrived(control, o)
      ensures o.Halt? ==> Halted(o.reason)
      ensures handle.generation == old(generation) && handle.id !in old(State()).events
      ensures !o.Halt? ==> |moves| < |old(moves)| && CallIs(old(trace) + [Insert(handle.id)], trace, o)
      ensures !o.Halt? ==> (Alive(State().events, handle) <==> trace[|trace| - 1].response.Keep?)
      decreases |moves|, 4
    {
      hide Valid, Following, Reading, OnPath, Halted, Returned, Resume, Arrived, InsertEvent, CallIs, Alive;
      handle := Place(scoped, control);
      o := EventCall(handle, Init, control);
      if !o.Halt? { Back(control, o); }
    }

    method Place(ghost scoped: bool, ghost control: seq<Frame>) returns (handle: Handle)
      requires Valid() && pending.None? && Reading(control, DoInsert) && control != [] && Last(control) == Body(scoped)
      modifies this, events
      ensures Valid() && unchanged(this`moves, this`taken) && trace == old(trace) + [Insert(handle.id)]
      ensures handle.generation == old(generation) && handle.id !in old(State()).events
      ensures State() == InsertEvent(old(State()), handle.id)
      ensures pending == Some(Call(handle, Init)) && stack == old(stack)
      ensures Alive(State().events, handle) && !State().events[handle.id].stolen
      ensures Following(control + [Calling]) && old(path) <= path
    {
      hide Exec, Start, Path, Carried, InsertEvent, Slabs.Recycler.Valid;
      ghost var t, before := trace, State();
      handle := StoreEvent();
      FreshlyStored(handle);
      CarriedOne(t, Insert(handle.id), DoInsert);
      Fulfilled(control, DoInsert, scoped, t, before, control + [Calling], Done);
    }

    method StoreEvent() returns (handle: Handle)
      requires Valid() && pending.None?
      modifies this, events
      ensures Valid() && unchanged(this`moves, this`taken, this`path) && trace == old(trace) + [Insert(handle.id)]
      ensures handle.generation == old(generation) && handle.id !in old(State()).events
      ensures State() == InsertEvent(old(State()), handle.id)
      ensures pending == Some(Call(handle, Init)) && stack == old(stack)
    {
      hide Exec, Start, Step, Apply, Inv, Slabs.Recycler.Valid;
      ghost var before := State();
      var own := NextGeneration();
      var idx := events.Store(Fresh(own));
      InsertIs(before, idx);
      handle := Handle(idx, own);
      pending := Some(Call(handle, Init));
      Record(before, Insert(idx));
    }

    method NextGeneration() returns (own: nat)
      modifies this`generation
      ensures State() == old(State()).(generation := old(generation) + 1) && own == old(generation)
    {
      own := generation;
      generation := generation + 1;
    }

    lemma FreshlyStored(handle: Handle)
      requires exists s :: State() == InsertEvent(s, handle.id) && handle.generation == s.generation
      ensures Alive(State().events, handle) && !State().events[handle.id].stolen
    {}

    /** `post_impl_sender`: the type is checked, then the event is called at once. */
    method PostImpl(from: Option<Handle>, to: Handle, data: int, tp: MsgType, ghost control: seq<Frame>)
      returns (o: Outcome)
      requires Valid() && pending.None? && from == Owner(State()) && Reading(control, DoPost(to, data, tp))
      requires control != [] && Last(control) == Body(from.Some?)
      modifies this, events, ios
      ensures Valid() && old(trace) <= trace && |moves| <= |old(moves)| && old(path) <= path
      ensures !o.Halt? ==> stack == old(stack) && pending.None? && Arrived(control, o)
      ensures o.Halt? ==> Halted(o.reason)
      ensures match MsgTypeCheck(old(State()).events, to, tp)
              case Some(e) => o == Fail(e) && State() == old(State()) && trace == old(trace) + [PostTo(to, data, tp)]
              case None =>
                if to in old(stack) then o == Fail(Busy)
                else o.Halt? || CallIs(old(trace) + [PostTo(to, data, tp)], trace, o)
      decreases |moves|, 4
      ensures !Alive(old(State()).events, to) ==> o == Fail(Missing)
      ensures Alive(old(State()).events, to) && tp !in old(State()).events[to.id].expected ==> o == Fail(MsgUnexpected)
      ensures Accepts(old(State()).events, to, tp) && to in old(stack) ==> o == Fail(Busy)
      ensures Accepts(old(State()).events, to, tp) && to !in old(stack) ==>
                o.Halt? || CallIs(old(trace) + [PostTo(to, data, tp)], trace, o)
      ensures !Accepts(old(State()).events, to, tp) ==> State() == old(State())
    {
      hide Exec, Start, Path, Resume, Halted, Returned, Carried, Slabs.Recycler.Valid;
      ghost var t, before, m := trace, State(), DoPost(to, data, tp);
      ghost var call;
      o, call := PreparePost(from, to, data, tp);
      CarriedOne(t, PostTo(to, data, tp), m);
      ghost var (after, r) := AfterRequest(control, before, State(), m);
      Fulfilled(control, m, from.Some?, t, before, after, r);
      hide Valid, Following, Reading, OnPath;
      if !o.Done? {
        return;
      }
      o := EventCall(to, call.cause, control);
      if !o.Halt? { Back(control, o); }
    }

    method PreparePost(from: Option<Handle>, to: Handle, data: int, tp: MsgType) returns (o: Outcome, ghost call: Call)
      requires Valid() && pending.None? && from == Owner(State())
      modifies this
      ensures Valid() && unchanged(this`moves, this`taken, this`path) && trace == old(trace) + [PostTo(to, data, tp)]
      ensures State() == PostMessage(old(State()), to, data, tp) && stack == old(stack)
      ensures match MsgTypeCheck(old(State()).events, to, tp)
              case Some(e) => o == Fail(e) && pending.None?
              case None =>
                && o.Done? && call.target == to && pending == Some(call)
                && Alive(State().events, to) && (to in stack <==> State().events[to.id].stolen)
      ensures !Alive(old(State()).events, to) ==> o == Fail(Missing)
      ensures Alive(old(State()).events, to) && tp !in old(State()).events[to.id].expected ==> o == Fail(MsgUnexpected)
      ensures Accepts(old(State()).events, to, tp) ==>
                o == Done && pending == Some(Call(to, Post(Message(data, tp, Posted(from)))))
      ensures !Accepts(old(State()).events, to, tp) ==> State() == old(State())
    {
      hide Exec, Start, Step, Apply, Inv, Slabs.Recycler.Valid;
      ghost var before := State();
      PostIs(before, to, data, tp);
      FramesStolen();
      call := Call(to, Init);
      var refused := TypeCheck(to, tp);
      if refused.Some? {
        Record(before, PostTo(to, data, tp));
        return Fail(refused.value), call;
      }
      call := Call(to, Post(Message(data, tp, Posted(from))));
      pending := Some(call);
      Record(before, PostTo(to, data, tp));
      o := Done;
    }

    /** The stolen events are those of the active frames. */
    lemma FramesStolen()
      requires Valid()
      ensures forall h | Alive(State().events, h) :: State().events[h.id].stolen <==> h in stack
    {
      Invariant();
      forall h | Alive(State().events, h) ensures State().events[h.id].stolen <==> h in stack {
        assert At(State().events, h.id) == h;
      }
    }

    /** A Timeout task of a live event counts as fired, whether or not its callback can be called. */
    method PopFront() returns (task: Task)
      requires Stored() && scheduled != []
      modifies this, events
      ensures Stored() && unchanged(this`moves, this`taken, this`path) && trace == old(trace)
      ensures task == old(scheduled)[0]
      ensures var counted := task.param.Timeout? && Alive(old(State()).events, task.recipient);
              State() == old(State()).(
                scheduled := old(scheduled)[1..],
                events := if counted then Counted(old(State()).events, task.recipient.id) else old(State()).events,
                timeoutsFired := if counted then old(timeoutsFired) + 1 else old(timeoutsFired))
    {
      hide Exec, Start, Step, Apply, Inv, Slabs.Recycler.Valid;
      task := scheduled[0];
      scheduled := scheduled[1..];
      if task.param.Timeout? && EventAlive(task.recipient) {
        timeoutsFired := timeoutsFired + 1;
        var ev := events.Get(task.recipient.id);
        events.Put(task.recipient.id, ev.(timeouts := ev.timeouts - 1));
      }
    }

    /** It is all right to lose the IO in the meantime. */
    predicate StillWanted(task: Task)
      requires Stored() && EventAlive(task.recipient)
      reads this, events, ios
      ensures StillWanted(task) <==>
                (task.param.Io? ==> task.param.token - TOKEN_SHIFT in State().events[task.recipient.id].ios)
    {
      task.param.Io? ==> task.param.token - TOKEN_SHIFT in events.Get(task.recipient.id).ios
    }

    /** The head of the queue: dropped when nobody is there for it, else prepared for its callback. */
    method TakeTask(ghost below: seq<Frame>) returns (task: Task, alive: bool, call: bool)
      requires Valid() && pending.None? && scheduled != [] && Following(below + [One])
      modifies this, events
      ensures Valid() && unchanged(this`moves, this`taken) && old(path) <= path && trace == old(trace) + [Pop]
      ensures State() == PopTask(old(State())) && stack == old(stack) && scheduled == old(scheduled)[1..]
      ensures task == old(scheduled)[0] && alive == Alive(old(State()).events, task.recipient)
      ensures !alive ==> State().events == old(State()).events
      ensures alive ==> call == (task.param.Io? ==> Owns(old(State()).events, task.recipient, task.param.token - TOKEN_SHIFT))
      ensures call <==> pending.Some?
      ensures call ==> alive && Alive(State().events, task.recipient)
      ensures call ==> pending == Some(Call(task.recipient, Dispatched(task)))
      ensures call ==> State().events[task.recipient.id].stolen == old(State()).events[task.recipient.id].stolen
      ensures if !alive then Following(below + [One]) else if call then Following(below + [Calling]) else Returned(below, Done)
    {
      hide Exec, Start, Step, Apply, Inv, Slabs.Recycler.Valid, Path, Follows, Resume;
      hide PopTask, Alive, Counted;
      ghost var before := State();
      TimeoutsCounted();
      PopShape(before);
      PopTable(before, scheduled[0].recipient);
      alive := EventAlive(scheduled[0].recipient);
      call := alive && StillWanted(scheduled[0]);
      task := PopFront();
      ghost var t := trace;
      Settle(before);
      WentOn(below, before, t);
    }

    /** `run_one` has taken a task. */
    ghost method WentOn(below: seq<Frame>, before: LoopState, t: seq<Action>)
      requires Valid() && OnPath() && Here().control == below + [One] && Here().trace == t && Here().taken == taken
      requires trace == t + [Pop] && Exec(First(), t) == Some(before) && before.scheduled != []
      modifies this`path
      ensures Valid() && State() == old(State()) && old(path) <= path
      ensures Following(AfterPop(below, before, State()).0)
      ensures Arrived(AfterPop(below, before, State()).0, AfterPop(below, before, State()).1)
    {
      hide Exec, Start, Path, Follows, Resume, AfterPop, Slabs.Recycler.Valid;
      ghost var (after, r) := AfterPop(below, before, State());
      PopFollows(First(), below, Here(), Point(after, trace, taken, r), before, State());
      Advance(after, r);
    }

    /** The ghost fields follow the machine. */
    ghost method Adopt(after: LoopState)
      requires Stored()
      requires State() == after.(stack := stack, pending := pending, log := log, spent := spent, dropped := dropped)
      modifies this`stack, this`pending, this`log, this`spent, this`dropped
      ensures State() == after
    {
      hide Valid, Stored;
      assert after.policy == policy && after.events == events.contents && after.ios == ios.contents;
      stack, pending, log, spent, dropped := after.stack, after.pending, after.log, after.spent, after.dropped;
    }

    /** The bookkeeping of a task that was taken. */
    ghost method Settle(before: LoopState)
      requires Stored() && Exec(First(), trace) == Some(before) && before.pending.None? && before.scheduled != []
      requires var t := before.scheduled[0];
               t.param.Timeout? && Alive(before.events, t.recipient) ==> before.events[t.recipient.id].timeouts >= 1
      requires var after := PopTask(before);
               State() == after.(log := before.log, spent := before.spent, dropped := before.dropped, pending := None)
      modifies this`log, this`spent, this`dropped, this`pending, this`stack, this`trace
      ensures Valid() && trace == old(trace) + [Pop] && State() == PopTask(before)
    {
      hide Exec, Start, Step, Apply, Inv, Slabs.Recycler.Valid, Alive;
      hide PopTask;
      PopIs(before);
      var after := PopTask(before);
      Adopt(after);
      Record(before, Pop);
    }

    /** The count of an event with a queued timer is not zero. */
    lemma TimeoutsCounted()
      requires Valid() && scheduled != []
      ensures scheduled[0].param.Timeout? && Alive(State().events, scheduled[0].recipient) ==>
                State().events[scheduled[0].recipient.id].timeouts >= 1
    {
      Invariant();
      PopCounts(State());
    }

    /**
     `run_one`. Tasks of dead events are dropped, one of a live event is dispatched, and only an empty
     queue makes the loop gather; see AfterPop, AfterDrain and AfterPoll for what follows what. When it
     returns, with success or with an error, exactly the same events are in the middle of a callback as
     before.
     */
    method RunOne(ghost below: seq<Frame>) returns (o: Outcome)
      requires Valid() && pending.None? && Following(below + [One])
      modifies this, events, ios
      ensures Valid() && old(trace) <= trace && |moves| <= |old(moves)| && old(path) <= path
      ensures !o.Halt? ==> stack == old(stack) && pending.None? && Returned(below, o)
      ensures o.Halt? ==> Halted(o.reason)
      ensures o.Done? ==> |moves| < |old(moves)| || (|moves| == |old(moves)| && |scheduled| < |old(scheduled)|)
      ensures !o.Halt? ==> old(trace) < trace
      decreases |moves|, 3
    {
      hide Exec, Start, Valid, Stored, First, Counted, SomeTimerLive, PollIs, PopTask, DrainReleased, Resume, CallIs;
      hide Following, Returned, Halted, Reading;
      while true
        invariant Valid() && pending.None? && stack == old(stack) && old(trace) <= trace && old(path) <= path
        invariant |moves| < |old(moves)| || (|moves| == |old(moves)| && |scheduled| <= |old(scheduled)|)
        invariant Following(below + [One])
        decreases |moves|, |scheduled|
      {
        ghost var m, n := |moves|, |scheduled|;
        while |scheduled| == 0
          invariant Valid() && pending.None? && stack == old(stack) && old(trace) <= trace && old(path) <= path
          invariant |moves| < m || (|moves| == m && |scheduled| == n)
          invariant Following(below + [One])
          decreases |moves|
        {
          o := TasksGather(below);
          if !o.Done? {
            return;
          }
        }
        var task, alive, call := TakeTask(below);
        if alive {
          o := Done;
          if call {
            o := EventCall(task.recipient, Dispatched(task), below);
          }
          return;
        }
      }
    }

    /**
     `run_until_complete`. It looks for a deadlock in the first round only; the invariant of the loop is
     that no later round would find one.
     */
    method RunUntilComplete(handle: Handle, ghost scoped: bool, ghost control: seq<Frame>) returns (o: Outcome)
      requires Valid() && pending.None? && Reading(control, DoRunUntilComplete(handle))
      requires control != [] && Last(control) == Body(scoped)
      modifies this, events, ios
      ensures Valid() && old(trace) <= trace && |moves| <= |old(moves)| && old(path) <= path
      ensures !o.Halt? ==> stack == old(stack) && pending.None? && Arrived(control, o)
      ensures o.Halt? ==> Halted(o.reason)
      ensures o.Done? ==> !Alive(State().events, handle)
      ensures !Alive(old(State()).events, handle) ==> o.Done? && State() == old(State())
      ensures handle in old(stack) && Alive(old(State()).events, handle) ==>
                o == Fail(DeadLock) && State() == old(State())
      ensures handle !in old(stack) && Alive(old(State()).events, handle) && !o.Halt? ==> old(trace) < trace
      decreases |moves|, 5
    {
      hide Valid, Following, Returned, Halted, Reading, Resume, Arrived, AfterRequest, OnPath;
      FramesStolen();
      UntilRequest(control, State(), handle);
      ghost var (after, r) := AfterRequest(control, State(), State(), DoRunUntilComplete(handle));
      Requested(control, DoRunUntilComplete(handle), scoped, after, r);
      var checked := false;
      o := Done;
      while EventAlive(handle)
        invariant Valid() && pending.None? && stack == old(stack) && old(trace) <= trace && old(path) <= path
        invariant |moves| <= |old(moves)|
        invariant !checked ==> State() == old(State()) && Following(after) && Arrived(after, r)
        invariant checked ==> Alive(old(State()).events, handle) && handle !in old(stack) && old(trace) < trace
        invariant checked && Alive(State().events, handle) ==>
                    !State().events[handle.id].stolen && Following(control + [Until(handle)] + [One])
        invariant checked && !Alive(State().events, handle) ==> Arrived(control, Done)
        decreases |moves|, |scheduled|
      {
        if !checked && events.Get(handle.id).stolen {
          return Fail(DeadLock);
        }
        checked := true;
        o := RunUntilRound(handle, control);
        if !o.Done? {
          return;
        }
      }
      o := Done;
    }

    /** One round of it. */
    method RunUntilRound(handle: Handle, ghost control: seq<Frame>) returns (o: Outcome)
      requires Valid() && pending.None? && Following(control + [Until(handle)] + [One])
      modifies this, events, ios
      ensures Valid() && old(trace) <= trace && |moves| <= |old(moves)| && old(path) <= path
      ensures !o.Halt? ==> stack == old(stack) && pending.None? && old(trace) < trace
      ensures o.Halt? ==> Halted(o.reason)
      ensures o.Fail? || (o.Done? && !Alive(State().events, handle)) ==> Arrived(control, o)
      ensures o.Done? && Alive(State().events, handle) ==>
                && Following(control + [Until(handle)] + [One])
                && (State().events[handle.id].stolen <==> handle in stack)
      ensures o.Done? ==> |moves| < |old(moves)| || (|moves| == |old(moves)| && |scheduled| < |old(scheduled)|)
      decreases |moves|, 4
    {
      hide Valid, Following, Returned, Halted, Resume, Arrived, Stored, OnPath;
      o := RunOne(control + [Until(handle)]);
      if !o.Halt? {
        LookedAgain(control, handle, o);
        FramesStolen();
      }
    }

    lemma LookedAgain(control: seq<Frame>, handle: Handle, o: Outcome)
      requires Returned(control + [Until(handle)], o)
      ensures if o.Fail? || !Alive(State().events, handle) then Arrived(control, o)
              else Following(control + [Until(handle)] + [One])
    {
      ResumeUntil(control, handle, o, State());
    }

    /** `run`: until somebody, in this run or in a nested one, asked to stop. */
    method Run(ghost scoped: bool, ghost control: seq<Frame>) returns (o: Outcome)
      requires Valid() && pending.None? && Reading(control, DoRun) && control != [] && Last(control) == Body(scoped)
      modifies this, events, ios
      ensures Valid() && old(trace) <= trace && |moves| <= |old(moves)| && old(path) <= path
      ensures !o.Halt? ==> stack == old(stack) && pending.None? && Arrived(control, o)
      ensures o.Halt? ==> Halted(o.reason)
      ensures o.Done? ==> !active
      ensures !o.Halt? ==> |trace| > |old(trace)| + 1 && trace[|old(trace)|] == SetActive(true)
      decreases |moves|, 5
    {
      hide Valid, Following, Returned, Halted, Reading, Resume, Arrived;
      Activate(scoped, control);
      while active
        invariant Valid() && pending.None? && stack == old(stack) && old(path) <= path
        invariant old(trace) + [SetActive(true)] <= trace
        invariant active || |trace| > |old(trace)| + 1
        invariant |moves| <= |old(moves)|
        invariant if active then Following(control + [Running] + [One]) else Arrived(control, Done)
        decreases |moves|, |scheduled|
      {
        o := RunOne(control + [Running]);
        if o.Halt? {
          return;
        }
        LookedAtFlag(control, o);
        if o.Fail? {
          return;
        }
      }
      o := Done;
    }

    lemma LookedAtFlag(control: seq<Frame>, o: Outcome)
      requires Returned(control + [Running], o)
      ensures if o.Fail? || !active then Arrived(control, o) else Following(control + [Running] + [One])
    {
      ResumeRunning(control, o, State());
    }

    method SetFlag()
      requires Valid() && pending.None?
      modifies this
      ensures Valid() && unchanged(this`moves, this`taken, this`path) && trace == old(trace) + [SetActive(true)]
      ensures State() == old(State()).(active := true)
    {
      hide Exec, Start, Step, Apply, Inv, Slabs.Recycler.Valid;
      SetActiveIs(State(), true);
      ghost var before := State();
      active := true;
      Record(before, SetActive(true));
    }

    method Activate(ghost scoped: bool, ghost control: seq<Frame>)
      requires Valid() && pending.None? && Reading(control, DoRun) && control != [] && Last(control) == Body(scoped)
      modifies this
      ensures Valid() && unchanged(this`moves, this`taken) && old(path) <= path && trace == old(trace) + [SetActive(true)]
      ensures State() == old(State()).(active := true) && Following(control + [Running] + [One])
    {
      hide Exec, Start, Slabs.Recycler.Valid, Path, Resume, Carried;
      ghost var before, t := State(), trace;
      SetFlag();
      CarriedOne(t, SetActive(true), DoRun);
      assert control + [Running, One] == control + [Running] + [One];
      Fulfilled(control, DoRun, scoped, t, before, control + [Running, One], Done);
    }

    /**
     The owner of a loop does whatever the moves say. It stops only at the end of the moves, at a move
     that is no answer to what the loop asks for at that point, or at an assertion that fails; moves that
     always fit are read to the end. Everything that the owner and the callbacks asked for has been done,
     in that order and nothing more of that kind; between two requests of the owner no callback is active;
     and the state is one that the machine reaches, so every theorem about reachable states holds of it.
     */
    method Session() returns (o: Outcome)
      requires Valid() && pending.None? && stack == [] && Following([Body(false)])
      modifies this, events, ios
      ensures Valid() && Reachable(State()) && old(trace) <= trace && old(path) <= path
      ensures Inv(State()) && Later(old(State()), State())
      ensures o.Halt? ==> Halted(o.reason)
      ensures !o.Halt? ==> moves == [] && stack == [] && pending.None? && Following([Body(false)])
      ensures !o.Halt? ==> AskedAll(trace) == WantedAll(input)
      ensures AlwaysFit(First(), input) ==> moves == [] || (o == Halt(SlabPanic) && policy.AsWritten?)
      ensures pushed == AllQueued(First(), trace)
    {
      o := Done;
      while moves != []
        invariant Valid() && pending.None? && stack == [] && old(trace) <= trace && old(path) <= path
        invariant Following([Body(false)])
        invariant !o.Halt?
        decreases |moves|
      {
        hide Valid, Following, Reading, Halted;
        if !IsRequest(false, |enabled|, sigchld, moves[0]) {
          NoAnswerHere([Body(false)], Body(false));
          o := Halt(NoAnswer);
          break;
        }
        var m := TakeMove([Body(false)]);
        o := Perform(None, m, [Body(false)]);
        if o.Halt? {
          break;
        }
      }
      Invariant();
      QueueExact();
      LaterSince(old(trace), old(State()));
      if o.Halt? { StoppedAtTheEnd(o.reason); } else { AllDone(); }
    }

    /** Nothing was ever queued but what the actions queue. */
    lemma QueueExact()
      requires Valid()
      ensures pushed == AllQueued(First(), trace)
    {
      hide Exec, AllQueued;
      EverythingQueued(First(), trace);
      assert First().pushed == [];
    }

    lemma AllDone()
      requires OnPath() && moves == [] && Here().trace == trace && Here().taken == taken
      ensures AskedAll(trace) == WantedAll(input)
    {
      hide Path, AskedAll, WantedAll;
      assert taken == input;
      DoneAsAsked(First(), path);
    }

    lemma StoppedAtTheEnd(reason: Reason)
      requires Valid() && Halted(reason)
      ensures AlwaysFit(First(), input) ==> moves == [] || (reason == SlabPanic && policy.AsWritten?)
    {
      hide Path, NextFits, Exec, Start, Slabs.Recycler.Valid;
      if AlwaysFit(First(), input) {
        StopsAtTheEnd(First(), input, Here(), moves, trace, taken, State(), reason);
      }
    }

    /** A longer trace leads to a later state. */
    lemma LaterSince(t: seq<Action>, s: LoopState)
      requires Valid() && t <= trace && Exec(First(), t) == Some(s)
      ensures Later(s, State()) && Reachable(State())
    {
      hide Start, Later, Exec, Slabs.Recycler.Valid, Reachable;
      LaterOnRun(First(), t, trace, s, State());
      ReachedBy(signals, sigchld, startNow, trace, State());
    }
  }
}
