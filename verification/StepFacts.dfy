/** Each action by itself: when it is a step, and that it does what its own function says. */
module StepFacts {
  import opened Wrappers
  import opened EventLoop

  lemma InsertIs(s: LoopState, idx: nat)
    requires s.pending.None? && idx !in s.events
    ensures Step(s, Insert(idx)) && Apply(s, Insert(idx)) == InsertEvent(s, idx)
  {}

  lemma PostIs(s: LoopState, to: Handle, data: int, tp: MsgType)
    requires s.pending.None?
    ensures Step(s, PostTo(to, data, tp)) && Apply(s, PostTo(to, data, tp)) == PostMessage(s, to, data, tp)
  {}

  lemma SendIs(s: LoopState, to: Handle, data: int, tp: MsgType)
    requires s.pending.None?
    ensures Step(s, SendTo(to, data, tp)) && Apply(s, SendTo(to, data, tp)) == SendMessage(s, to, data, tp)
  {}

  lemma SetActiveIs(s: LoopState, on: bool)
    requires s.pending.None?
    ensures Step(s, SetActive(on)) && Apply(s, SetActive(on)) == s.(active := on)
  {}

  lemma EnableIs(s: LoopState, sig: nat)
    requires s.pending.None? && sig < |s.enabled|
    ensures Step(s, EnableSignal(sig)) && Apply(s, EnableSignal(sig)) == s.(enabled := s.enabled[sig := true])
  {}

  ghost predicate InScope(s: LoopState) {
    s.pending.None? && s.stack != [] && Top(s).id in s.events
  }

  lemma TimeoutAtIs(s: LoopState, when: Instant)
    requires InScope(s)
    ensures Step(s, TimeoutAt(when)) && Apply(s, TimeoutAt(when)) == StartTimeout(s, when)
  {}

  lemma AskIdleIs(s: LoopState, toBack: bool)
    requires InScope(s)
    ensures Step(s, AskIdle(toBack)) && Apply(s, AskIdle(toBack)) == RequestIdle(s, toBack)
  {}

  lemma WatchSignalIs(s: LoopState, sig: nat)
    requires InScope(s) && sig < |s.enabled| && sig < |s.recipients|
    ensures Step(s, WatchSignal(sig)) && Apply(s, WatchSignal(sig)) == SubscribeSignal(s, sig)
  {}

  lemma ExpectIs(s: LoopState, tp: MsgType)
    requires InScope(s)
    ensures Step(s, Expect(tp)) && Apply(s, Expect(tp)) == ExpectType(s, tp)
  {}

  lemma IoRegisterIs(s: LoopState, idx: nat)
    requires InScope(s) && idx !in s.ios
    ensures Step(s, IoRegister(idx)) && Apply(s, IoRegister(idx)) == RegisterIo(s, idx)
  {}

  lemma IoRemoveIs(s: LoopState, id: IoToken)
    requires InScope(s)
    requires s.policy.AsWritten? && id - TOKEN_SHIFT in s.events[Top(s).id].ios ==> id - TOKEN_SHIFT in s.ios
    ensures Step(s, IoRemove(id)) && Apply(s, IoRemove(id)) == RemoveIo(s, id)
  {}

  lemma WatchChildIs(s: LoopState, pid: Pid)
    requires InScope(s) && s.sigchld < |s.enabled| && pid !in s.children
    ensures Step(s, WatchChild(pid)) && Apply(s, WatchChild(pid)) == TrackChild(s, pid)
  {}

  lemma PopIs(s: LoopState)
    requires s.pending.None? && s.scheduled != []
    requires s.scheduled[0].param.Timeout? && Alive(s.events, s.scheduled[0].recipient) ==>
               s.events[s.scheduled[0].recipient.id].timeouts >= 1
    ensures Step(s, Pop) && Apply(s, Pop) == PopTask(s)
  {}

  /** Taking a task changes real fields only when it counts a fired timer. */
  lemma PopShape(s: LoopState)
    requires s.scheduled != []
    ensures var t, s' := s.scheduled[0], PopTask(s);
            var counted := t.param.Timeout? && Alive(s.events, t.recipient);
            && s' == s.(scheduled := s.scheduled[1..],
                        events := if counted then Counted(s.events, t.recipient.id) else s.events,
                        timeoutsFired := if counted then s.timeoutsFired + 1 else s.timeoutsFired,
                        log := s'.log, spent := s'.spent, dropped := s'.dropped, pending := s'.pending)
            && s'.pending == (if Alive(s.events, t.recipient)
                                 && (t.param.Io? ==> t.param.token - TOKEN_SHIFT in s.events[t.recipient.id].ios)
                              then Some(Call(t.recipient, Dispatched(t))) else s.pending)
  {}

  lemma PopTable(s: LoopState, h: Handle)
    requires s.scheduled != []
    ensures Alive(PopTask(s).events, h) <==> Alive(s.events, h)
    ensures Alive(s.events, h) ==> PopTask(s).events[h.id].stolen == s.events[h.id].stolen
    ensures !Alive(s.events, s.scheduled[0].recipient) ==> PopTask(s).events == s.events
  {
    PopShape(s);
    hide PopTask;
  }

  /** The event of a callback lives on exactly if its response says so. */
  lemma LeaveAlive(s: LoopState, response: Response)
    requires s.stack != [] && Alive(s.events, Top(s))
    ensures Alive(LeaveCall(s, response).events, Top(s)) <==> response.Keep?
  {}

  ghost function Counted(events: map<nat, EvHolder>, i: nat): map<nat, EvHolder>
    requires i in events
  {
    events[i := events[i].(timeouts := events[i].timeouts - 1)]
  }

  lemma EnterIs(s: LoopState)
    requires s.pending.Some?
    ensures Step(s, Enter) && Apply(s, Enter) == EnterCall(s)
  {}

  lemma LeaveIs(s: LoopState, response: Response)
    requires InScope(s)
    ensures Step(s, Leave(response)) && Apply(s, Leave(response)) == LeaveCall(s, response)
  {}

  lemma DrainIs(s: LoopState)
    requires s.pending.None? && s.scheduled == [] && s.iosReleased <= s.ios.Keys
    ensures Step(s, Drain) && Apply(s, Drain) == DrainReleased(s)
  {}

  lemma DropDeadIs(s: LoopState, t: TimeoutHolder)
    requires s.pending.None? && OnTop(s.timeouts, t) && !Alive(s.events, t.recipient)
    ensures Step(s, DropDead(t)) && Apply(s, DropDead(t)) == DropTimer(s, t)
  {}

  lemma TickIs(s: LoopState, now: Instant)
    requires s.pending.None? && s.now <= now
    ensures Step(s, Tick(now)) && Apply(s, Tick(now)) == s.(now := now)
  {}

  lemma ReceiveIs(s: LoopState)
    requires s.pending.None? && s.inbox != []
    ensures Step(s, Receive) && Apply(s, Receive) == ReceiveMessage(s)
  {}

  lemma ReapIs(s: LoopState, pid: Pid, exit: int)
    requires s.pending.None?
    requires pid in s.children ==>
               s.children[pid].id in s.events && pid in s.events[s.children[pid].id].children
    ensures Step(s, Reap(pid, exit)) && Apply(s, Reap(pid, exit)) == ReapChild(s, pid, exit)
  {}

  lemma BroadcastIs(s: LoopState, sig: nat, order: seq<Handle>)
    requires s.pending.None? && sig < |s.recipients|
    requires forall k, l | 0 <= k < l < |order| :: order[k] != order[l]
    requires (set h | h in order) == s.recipients[sig]
    ensures Step(s, Broadcast(sig, order)) && Apply(s, Broadcast(sig, order)) == BroadcastSignal(s, sig, order)
  {}

  lemma ReadyIs(s: LoopState, owner: Handle, idx: nat, ready: nat)
    requires s.pending.None? && Alive(s.events, owner) && idx in s.events[owner.id].ios && idx in s.ios
    ensures Step(s, Ready(owner, idx, ready)) && Apply(s, Ready(owner, idx, ready)) == QueueReady(s, owner, idx, ready)
  {}

  lemma CleanupIs(s: LoopState)
    requires s.pending.None? && NoTimersQueued(s.scheduled)
    requires s.timeoutsInserted >= |s.timeouts| && HandledDead(s) >= 0 && 0 <= StillDead(s) <= |s.timeouts|
    ensures Step(s, Cleanup) && Apply(s, Cleanup) == CleanupTimers(s)
  {}

  lemma DueIs(s: LoopState, t: TimeoutHolder)
    requires s.pending.None? && OnTop(s.timeouts, t) && t.when <= s.now
    ensures Step(s, Due(t)) && Apply(s, Due(t)) == QueueDue(s, t)
  {}

  lemma PickIdleIs(s: LoopState)
    requires s.pending.None? && s.scheduled == [] && s.wantIdle != []
    ensures Step(s, PickIdle) && Apply(s, PickIdle) == QueueIdle(s)
  {}

  lemma ArriveIs(s: LoopState, m: RemoteMessage)
    requires s.pending.None? && (m.message.mode.Background? ==> m.recipient.generation < s.generation)
    ensures Step(s, Arrive(m)) && Apply(s, Arrive(m)) == s.(inbox := s.inbox + [m])
  {}
}
