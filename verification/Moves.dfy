/**
 What the world outside of the library decides: the moves that the methods of Loop.dfy read, and what
 each of them asks the loop to do.
 */
module Moves {
  import opened Wrappers
  import opened EventLoop
  import opened Invariants
  import opened LoopFacts

  datatype Readiness =
    | ChannelReady
    | SignalsReady(raised: set<nat>, deaths: seq<(Pid, int)>, waitFails: bool)
    | IoReady(owner: Handle, idx: nat, ready: nat)

  datatype PollResult =
    | Interrupted
    | PollFailed
    | Woken(now: Instant, arrivals: seq<RemoteMessage>, ready: seq<Readiness>)

  datatype Move =
    | DoInsert
    | DoPost(to: Handle, data: int, tp: MsgType)
    | DoSend(to: Handle, data: int, tp: MsgType)
    | DoRunOne
    | DoRunUntilComplete(handle: Handle)
    | DoRun
    | DoStop
    | DoSignalEnable(sig: nat)
    | DoTimeoutAt(when: Instant)
    | DoIdle(toBack: bool)
    | DoSignal(sig: nat)
    | DoExpect(tp: MsgType)
    | DoIoRegister(accepted: bool)
    | DoIoRemove(id: IoToken, deregistered: bool)
    | DoChild(pid: Pid)
    | Return(response: Response)
    | Handler(verdict: Option<Error>)
    | Poll(clock: Instant, result: PollResult)

  /**
   Why a method stopped without returning: the list of moves has no (fitting) answer, or an assertion
   failed. After a failed assertion the source unwinds; the fields are then no longer looked at.
   */
  datatype Reason = NoAnswer | DoubleChild | SlabPanic

  datatype Outcome = Done | Fail(error: Error) | Halt(reason: Reason)

  /** What the owner of the loop, or a callback, can ask for. The scope exists only in callbacks. */
  predicate IsRequest(scoped: bool, signals: nat, sigchld: nat, m: Move) {
    match m
    case DoSignalEnable(sig) => sig < signals
    case DoSignal(sig) => scoped && sig < signals
    case DoChild(_) => scoped && sigchld < signals
    case Return(_) => scoped
    case DoTimeoutAt(_) => scoped
    case DoIdle(_) => scoped
    case DoExpect(_) => scoped
    case DoIoRegister(_) => scoped
    case DoIoRemove(_, _) => scoped
    case Handler(_) => false
    case Poll(_, _) => false
    case _ => true
  }

  /** An action without the choices that the loop makes itself, such as the index of a slot. */
  datatype Request =
    | AnInsert
    | AnIo
    | AnAction(action: Action)

  /** A request that is one action, and that is done at once. */
  predicate Simple(m: Move) {
    m.DoSend? || m.DoStop? || m.DoSignalEnable? || m.DoTimeoutAt? || m.DoIdle? || m.DoExpect? || m.DoIoRemove? || m.DoChild?
  }

  ghost function ActionOf(m: Move): Action
    requires Simple(m)
  {
    match m
    case DoSend(to, data, tp) => SendTo(to, data, tp)
    case DoStop => SetActive(false)
    case DoSignalEnable(sig) => EnableSignal(sig)
    case DoTimeoutAt(when) => TimeoutAt(when)
    case DoIdle(toBack) => AskIdle(toBack)
    case DoExpect(tp) => Expect(tp)
    case DoIoRemove(id, _) => IoRemove(id)
    case DoChild(pid) => WatchChild(pid)
  }

  /** What a move asks for. Running the loop asks for nothing by itself. */
  ghost function Wanted(m: Move): seq<Request> {
    if Simple(m) then [AnAction(ActionOf(m))]
    else
      match m
      case DoInsert => [AnInsert]
      case DoPost(to, data, tp) => [AnAction(PostTo(to, data, tp))]
      case DoRun => [AnAction(SetActive(true))]
      case DoSignal(sig) => [AnAction(EnableSignal(sig)), AnAction(WatchSignal(sig))]
      case DoIoRegister(accepted) => if accepted then [AnIo] else []
      case Return(response) => [AnAction(Leave(response))]
      case Poll(_, result) => if result.Woken? then [AnAction(Tick(result.now))] else []
      case _ => []
  }

  /** The request that an action answers, if it answers one. */
  ghost function Asked(a: Action): seq<Request> {
    if a.Insert? then [AnInsert]
    else if a.IoRegister? then [AnIo]
    else if a.Pop? || a.Enter? || a.Drain? || a.DropDead? || a.Receive? || a.Reap? || a.Broadcast? || a.Ready?
            || a.Cleanup? || a.Due? || a.PickIdle? || a.Arrive? then []
    else [AnAction(a)]
  }

  ghost function WantedAll(ms: seq<Move>): seq<Request> {
    if ms == [] then [] else WantedAll(ms[..|ms| - 1]) + Wanted(ms[|ms| - 1])
  }

  ghost function AskedAll(acts: seq<Action>): seq<Request> {
    if acts == [] then [] else AskedAll(acts[..|acts| - 1]) + Asked(acts[|acts| - 1])
  }

  lemma AskedOneMore(acts: seq<Action>, a: Action)
    ensures AskedAll(acts + [a]) == AskedAll(acts) + Asked(a)
  {
    assert (acts + [a])[..|acts|] == acts;
  }

  lemma WantedOneMore(ms: seq<Move>, m: Move)
    ensures WantedAll(ms + [m]) == WantedAll(ms) + Wanted(m)
  {
    assert (ms + [m])[..|ms|] == ms;
  }

  /** What gathering consists of, apart from reading the clock. Nobody has to ask for it. */
  ghost predicate IsGathered(a: Action) {
    a.DropDead? || a.Arrive? || a.Receive? || a.Reap? || a.Broadcast? || a.Ready? || a.Cleanup? || a.Due? || a.PickIdle?
  }

  ghost predicate NoneAsked(acts: seq<Action>) {
    forall a | a in acts :: IsGathered(a)
  }

  lemma GatheredUnasked(a: Action)
    requires IsGathered(a)
    ensures Asked(a) == []
  {}

  lemma {:induction false} AskedUnchanged(t: seq<Action>, acts: seq<Action>)
    requires NoneAsked(acts)
    ensures AskedAll(t + acts) == AskedAll(t)
    decreases |acts|
  {
    hide Asked;
    if acts == [] {
      assert t + acts == t;
    } else {
      var n := |acts| - 1;
      AskedUnchanged(t, acts[..n]);
      AskedOneMore(t + acts[..n], acts[n]);
      assert t + acts[..n] + [acts[n]] == t + acts;
      assert acts[n] in acts;
      GatheredUnasked(acts[n]);
    }
  }

  // ----- The exact actions of gathering -----

  ghost function Reaps(deaths: seq<(Pid, int)>): (r: seq<Action>)
    ensures |r| == |deaths| && forall k | 0 <= k < |r| :: r[k] == Reap(deaths[k].0, deaths[k].1)
  {
    seq(|deaths|, k requires 0 <= k < |deaths| => Reap(deaths[k].0, deaths[k].1))
  }

  ghost function Repeat(a: Action, n: nat): (r: seq<Action>)
    ensures |r| == n && forall k | 0 <= k < n :: r[k] == a
  {
    seq(n, _ => a)
  }

  lemma NoRepeat(a: Action)
    ensures Repeat(a, 0) == []
  {}

  lemma RepeatOneMore(a: Action, n: nat)
    ensures Repeat(a, n + 1) == Repeat(a, n) + [a]
  {}

  /**
   The sweep over the signals below `k`: one broadcast for each that is raised, in order, the reaped
   children before the broadcast of SIGCHLD.
   */
  ghost predicate IsSweep(acts: seq<Action>, k: nat, raised: set<nat>, deaths: seq<(Pid, int)>, sigchld: nat)
    decreases k, 0
  {
    if k == 0 then acts == []
    else if k - 1 !in raised then IsSweep(acts, k - 1, raised, deaths, sigchld)
    else
      acts != []
      && var n := |acts| - 1;
         acts[n].Broadcast? && acts[n].sig == k - 1
         && if k - 1 == sigchld then IsReapedSweep(acts[..n], k - 1, raised, deaths, sigchld)
            else IsSweep(acts[..n], k - 1, raised, deaths, sigchld)
  }

  /** A sweep below `k`, then the reaping of all dead children. */
  ghost predicate IsReapedSweep(acts: seq<Action>, k: nat, raised: set<nat>, deaths: seq<(Pid, int)>, sigchld: nat)
    decreases k, 1
  {
    |acts| >= |deaths|
    && var n := |acts| - |deaths|;
       acts[n..] == Reaps(deaths) && IsSweep(acts[..n], k, raised, deaths, sigchld)
  }

  lemma SweepNothing(raised: set<nat>, deaths: seq<(Pid, int)>, sigchld: nat)
    ensures IsSweep([], 0, raised, deaths, sigchld)
  {}

  lemma SweepSkip(acts: seq<Action>, k: nat, raised: set<nat>, deaths: seq<(Pid, int)>, sigchld: nat)
    requires IsSweep(acts, k, raised, deaths, sigchld) && k !in raised
    ensures IsSweep(acts, k + 1, raised, deaths, sigchld)
  {}

  /** What a raised signal leads to. */
  ghost predicate IsSwept(acts: seq<Action>, k: nat, deaths: seq<(Pid, int)>, sigchld: nat, order: seq<Handle>,
                          broadcast: bool)
  {
    acts == (if k == sigchld then Reaps(deaths) else []) + if broadcast then [Broadcast(k, order)] else []
  }

  lemma SweptOne(acts: seq<Action>, k: nat, raised: set<nat>, deaths: seq<(Pid, int)>, sigchld: nat,
                 order: seq<Handle>, more: seq<Action>, broadcast: bool)
    requires k in raised && IsSweep(acts, k, raised, deaths, sigchld)
    requires IsSwept(more, k, deaths, sigchld, order, broadcast)
    requires !broadcast ==> k == sigchld
    ensures if broadcast then IsSweep(acts + more, k + 1, raised, deaths, sigchld)
            else IsReapedSweep(acts + more, k, raised, deaths, sigchld)
  {
    var reaped := if k == sigchld then acts + Reaps(deaths) else acts;
    assert reaped[..|acts|] == acts;
    assert acts + more == if broadcast then reaped + [Broadcast(k, order)] else reaped;
    assert (reaped + [Broadcast(k, order)])[..|reaped|] == reaped;
  }

  /** `waitpid` fails when this readiness is handled, which ends the gathering with an error. */
  ghost predicate Fails(s: LoopState, r: Readiness) {
    r.SignalsReady? && s.sigchld in r.raised && s.sigchld < |s.recipients| && r.waitFails
  }

  /**
   What one readiness leads to, after the ones `before` it. The first time that the channel is ready it
   is emptied. The poller only reports IOs that are registered.
   */
  ghost predicate IsOne(s: LoopState, before: seq<Readiness>, r: Readiness, acts: seq<Action>) {
    match r
    case ChannelReady => acts == Repeat(Receive, if ChannelReady in before then 0 else |s.inbox|)
    case SignalsReady(raised, deaths, _) => !Fails(s, r) && IsSweep(acts, |s.recipients|, raised, deaths, s.sigchld)
    case IoReady(owner, idx, kind) => acts == if Owns(s.events, owner, idx) then [Ready(owner, idx, kind)] else []
  }

  /** All that was ready is handled, one after the other; `s` is the state before. */
  ghost predicate IsGather(s: LoopState, ready: seq<Readiness>, acts: seq<Action>)
    decreases |ready|
  {
    if ready == [] then acts == []
    else
      exists n | 0 <= n <= |acts| ::
        && IsGather(s, ready[..|ready| - 1], acts[..n])
        && IsOne(s, ready[..|ready| - 1], ready[|ready| - 1], acts[n..])
  }

  /**
   A failing `waitpid` ends the gathering: what was ready before it is handled, the signals below
   SIGCHLD and the reaped children too, and the rest of what was ready is lost.
   */
  ghost predicate IsCutGather(s: LoopState, ready: seq<Readiness>, acts: seq<Action>, k: nat, n: nat) {
    && k < |ready| && n <= |acts| && Fails(s, ready[k])
    && IsGather(s, ready[..k], acts[..n])
    && IsReapedSweep(acts[n..], s.sigchld, ready[k].raised, ready[k].deaths, s.sigchld)
  }

  lemma GatherOneMore(s: LoopState, ready: seq<Readiness>, acts: seq<Action>, r: Readiness, more: seq<Action>)
    requires IsGather(s, ready, acts) && IsOne(s, ready, r, more)
    ensures IsGather(s, ready + [r], acts + more)
  {
    assert (ready + [r])[..|ready|] == ready;
    assert (acts + more)[..|acts|] == acts && (acts + more)[|acts|..] == more;
  }

  lemma GatherCut(s: LoopState, ready: seq<Readiness>, k: nat, acts: seq<Action>, more: seq<Action>)
    requires k < |ready| && IsGather(s, ready[..k], acts) && Fails(s, ready[k])
    requires IsReapedSweep(more, s.sigchld, ready[k].raised, ready[k].deaths, s.sigchld)
    ensures IsCutGather(s, ready, acts + more, k, |acts|)
  {
    assert (acts + more)[..|acts|] == acts && (acts + more)[|acts|..] == more;
  }

  /** The `k`-th readiness, handled in a state that the gathering led to. */
  lemma OneOfMany(s: LoopState, s': LoopState, ready: seq<Readiness>, k: nat, acts: seq<Action>, more: seq<Action>,
                  done: bool, failed: bool)
    requires OnlyGathered(s, s') && k < |ready| && IsGather(s, ready[..k], acts)
    requires |s'.inbox| == if ChannelReady in ready[..k] then 0 else |s.inbox|
    requires done ==> IsOne(s', [], ready[k], more)
    requires failed ==> Fails(s', ready[k])
                        && IsReapedSweep(more, s.sigchld, ready[k].raised, ready[k].deaths, s.sigchld)
    ensures done ==> IsGather(s, ready[..k + 1], acts + more)
    ensures failed ==> IsCutGather(s, ready, acts + more, k, |acts|)
    ensures ready[..k + 1] == ready[..k] + [ready[k]]
  {
    hide IsGather, IsSweep, IsReapedSweep, OnlyGathered;
    GatheredSame(s, s');
    assert ready[..k + 1] == ready[..k] + [ready[k]];
    if done { GatherOneMore(s, ready[..k], acts, ready[k], more); }
    if failed { GatherCut(s, ready, k, acts, more); }
  }

  lemma NoGather(s: LoopState)
    ensures IsGather(s, [], [])
  {}

  /** Remote messages come from anywhere; background results only from callbacks of this loop. */
  ghost function Arriving(msgs: seq<RemoteMessage>, generation: nat): seq<RemoteMessage> {
    if msgs == [] then []
    else
      var last := msgs[|msgs| - 1];
      Arriving(msgs[..|msgs| - 1], generation)
      + if last.message.mode.Background? ==> last.recipient.generation < generation then [last] else []
  }

  lemma ArrivingOneMore(msgs: seq<RemoteMessage>, k: nat, generation: nat)
    requires k < |msgs|
    ensures Arriving(msgs[..k + 1], generation) ==
            Arriving(msgs[..k], generation)
            + if msgs[k].message.mode.Background? ==> msgs[k].recipient.generation < generation then [msgs[k]] else []
  {
    assert msgs[..k + 1][..k] == msgs[..k];
  }

  lemma NoArrivals(generation: nat)
    ensures Arriving([], generation) == [] && Arrives([]) == []
  {}

  lemma ArrivesOneMore(msgs: seq<RemoteMessage>, m: RemoteMessage)
    ensures Arrives(msgs + [m]) == Arrives(msgs) + [Arrive(m)]
  {}

  ghost function Arrives(msgs: seq<RemoteMessage>): (r: seq<Action>)
    ensures |r| == |msgs| && forall k | 0 <= k < |r| :: r[k] == Arrive(msgs[k])
  {
    seq(|msgs|, k requires 0 <= k < |msgs| => Arrive(msgs[k]))
  }

  ghost function Dues(ts: seq<TimeoutHolder>): (r: seq<Action>)
    ensures |r| == |ts| && forall k | 0 <= k < |r| :: r[k] == Due(ts[k])
  {
    seq(|ts|, k requires 0 <= k < |ts| => Due(ts[k]))
  }

  lemma DuesOneMore(ts: seq<TimeoutHolder>, t: TimeoutHolder)
    ensures Dues([]) == [] && Dues(ts + [t]) == Dues(ts) + [Due(t)]
  {}

  ghost function DropDeads(ts: seq<TimeoutHolder>): (r: seq<Action>)
    ensures |r| == |ts| && forall k | 0 <= k < |r| :: r[k] == DropDead(ts[k])
  {
    seq(|ts|, k requires 0 <= k < |ts| => DropDead(ts[k]))
  }

  /** After `poll` returned: the channel has filled up, and the clock was read. */
  ghost function Ticked(first: LoopState, t0: seq<Action>, now: Instant, arrivals: seq<RemoteMessage>): seq<Action>
    requires Exec(first, t0).Some?
  {
    t0 + Arrives(Arriving(arrivals, Exec(first, t0).value.generation)) + [Tick(now)]
  }

  /**
   A wait that ended well: what is ready was gathered, the timers were cleaned up, all timers that are
   due were queued, and an idle task too if there was nothing else and somebody asked for it.
   */
  ghost predicate WokeBy(first: LoopState, t0: seq<Action>, t: seq<Action>, now: Instant, arrivals: seq<RemoteMessage>,
                         ready: seq<Readiness>, io: seq<Action>, fired: seq<TimeoutHolder>, idle: seq<Action>) {
    && Exec(first, t0).Some? && Exec(first, Ticked(first, t0, now, arrivals)).Some? && Exec(first, t).Some?
    && t == Ticked(first, t0, now, arrivals) + io + [Cleanup] + Dues(fired) + idle
    && IsGather(Exec(first, Ticked(first, t0, now, arrivals)).value, ready, io)
    && (forall u | u in Exec(first, t).value.timeouts :: u.when > now)
    && (idle == [PickIdle]
        || (idle == [] && (Exec(first, t).value.scheduled != [] || Exec(first, t).value.wantIdle == [])))
  }

  /** A wait after which the gathering failed; it did not get to the timers. */
  ghost predicate CutBy(first: LoopState, t0: seq<Action>, t: seq<Action>, now: Instant, arrivals: seq<RemoteMessage>,
                        ready: seq<Readiness>, io: seq<Action>, k: nat, n: nat) {
    && Exec(first, t0).Some? && Exec(first, Ticked(first, t0, now, arrivals)).Some?
    && t == Ticked(first, t0, now, arrivals) + io
    && IsCutGather(Exec(first, Ticked(first, t0, now, arrivals)).value, ready, io, k, n)
  }

  ghost predicate WaitIs(first: LoopState, t0: seq<Action>, t: seq<Action>, result: PollResult, o: Outcome) {
    match result
    case Interrupted => t == t0 && o.Done?
    case PollFailed => t == t0 && o == Fail(IoError)
    case Woken(now, arrivals, ready) =>
      || (o.Done? && exists io, fired, idle :: WokeBy(first, t0, t, now, arrivals, ready, io, fired, idle))
      || (o == Fail(NixError) && exists io, k, n :: CutBy(first, t0, t, now, arrivals, ready, io, k, n))
  }

  /**
   From the call of `poll` on, in the run `t0` of the loop `first`: the dead timers on top of the heap
   are dropped, no others, until a live one is on top; then the loop waits, with this result.
   */
  ghost predicate PollIs(first: LoopState, t0: seq<Action>, t: seq<Action>, result: PollResult, o: Outcome) {
    exists drops :: LiveOnTop(first, t0, drops) && WaitIs(first, t0 + DropDeads(drops), t, result, o)
  }

  ghost predicate LiveOnTop(first: LoopState, t0: seq<Action>, drops: seq<TimeoutHolder>) {
    Exec(first, t0 + DropDeads(drops)).Some? && TopIsLive(Exec(first, t0 + DropDeads(drops)).value)
  }

  // ----- The shape of a call -----

  function Verdict(v: Option<Error>): Outcome {
    match v case None => Done case Some(e) => Fail(e)
  }

  /** A callback was entered and left, and only a failing one can give an error. */
  ghost predicate CallIs(t0: seq<Action>, t: seq<Action>, o: Outcome) {
    && t0 + [Enter] <= t && |t| >= |t0| + 2
    && t[|t| - 1].Leave? && (t[|t| - 1].response.Failed? || o.Done?)
  }
}
