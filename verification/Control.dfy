/**
 The control flow of src/core.rs: which method goes on with what, as steps between the points where a
 method has just been called or has just returned. A stack of frames stands for the calls that are in
 progress, `run`s and callbacks nested in any way. A step reads at most one move, and only the frames
 that ask for one read any, so a list of moves and the frames decide what happens next.
 */
module Control {
  import opened Wrappers
  import opened EventLoop
  import opened Invariants
  import opened Steps
  import opened Runs
  import opened Moves

  datatype Frame =
    | Body(scoped: bool)     // asks for the next request: the owner of the loop, or a callback
    | Calling                // event_call, before it looks for its event
    | Handling               // event_call, asking the error handler
    | One                    // run_one, at the head of its loop
    | Polling                // tasks_gather, before it polls
    | Until(handle: Handle)  // run_until_complete, around run_one
    | Running                // run, around run_one

  /** `result` is the outcome of the call that returned last. */
  datatype Point = Point(control: seq<Frame>, trace: seq<Action>, taken: seq<Move>, result: Outcome)

  predicate Asks(f: Frame) {
    f.Body? || f.Handling? || f.Polling?
  }

  /** The move is an answer to what the frame asks for. The clock of the system is monotonic. */
  predicate Fits(f: Frame, signals: nat, sigchld: nat, now: Instant, m: Move) {
    match f
    case Body(scoped) => IsRequest(scoped, signals, sigchld, m)
    case Handling => m.Handler?
    case Polling => m.Poll? && (m.result.Woken? ==> now <= m.result.now)
    case _ => false
  }

  ghost predicate FitsIn(f: Frame, s: LoopState, m: Move) {
    Fits(f, |s.enabled|, s.sigchld, s.now, m)
  }

  ghost function Last(control: seq<Frame>): Frame
    requires control != []
  {
    control[|control| - 1]
  }

  ghost function Below(control: seq<Frame>): seq<Frame>
    requires control != []
  {
    control[..|control| - 1]
  }

  /** `control` goes on after a call that it made returned with `o`: `run` and `run_until_complete` look again. */
  ghost function Resume(control: seq<Frame>, o: Outcome, s: LoopState): seq<Frame> {
    if control == [] then []
    else
      match Last(control)
      case Until(handle) => if o.Fail? || !Alive(s.events, handle) then Below(control) else control + [One]
      case Running => if o.Fail? || !s.active then Below(control) else control + [One]
      case _ => control
  }

  /** The actions from `t` to `t'` are those that were asked for. */
  ghost predicate Carried(t: seq<Action>, t': seq<Action>, rs: seq<Request>) {
    && t <= t' && |t'| == |t| + |rs|
    && forall k | 0 <= k < |rs| :: Asked(t'[|t| + k]) == [rs[k]]
  }

  /** What a simple request answers in the state `s`. */
  ghost function ResultOf(s: LoopState, m: Move): Outcome
    requires Simple(m)
  {
    match m
    case DoSend(to, _, tp) => (match MsgTypeCheck(s.events, to, tp) case None => Done case Some(e) => Fail(e))
    case DoIoRemove(id, deregistered) =>
      if s.stack == [] || !Owns(s.events, Top(s), id - TOKEN_SHIFT) then Fail(MissingIo)
      else if deregistered then Done
      else Fail(IoError)
    case _ => Done
  }

  /** What a request leads to at once; `s'` is the state after its actions. */
  ghost function AfterRequest(control: seq<Frame>, s: LoopState, s': LoopState, m: Move): (seq<Frame>, Outcome)
    requires control != []
  {
    if Simple(m) then (control, ResultOf(s, m))
    else
      match m
      case DoInsert => (control + [Calling], Done)
      case DoPost(to, _, tp) =>
        (match MsgTypeCheck(s.events, to, tp) case None => (control + [Calling], Done) case Some(e) => (control, Fail(e)))
      case DoRunOne => (control + [One], Done)
      case DoRunUntilComplete(h) =>
        if !Alive(s.events, h) then (control, Done)
        else if s.events[h.id].stolen then (control, Fail(DeadLock))
        else (control + [Until(h), One], Done)
      case DoRun => (control + [Running, One], Done)
      case DoIoRegister(accepted) => (control, if accepted then Done else Fail(IoError))
      case Return(response) =>
        if response.Failed? then (Below(control) + [Handling], Done)
        else (Resume(Below(control), Done, s'), Done)
      case _ => (control, Done)
  }

  /** `event_call` answers at once, or the callback runs. */
  ghost function AfterEnter(below: seq<Frame>, s: LoopState, s': LoopState): (seq<Frame>, Outcome)
    requires s.pending.Some?
  {
    var h := s.pending.value.target;
    if !Alive(s.events, h) then (Resume(below, Fail(Missing), s'), Fail(Missing))
    else if s.events[h.id].stolen then (Resume(below, Fail(Busy), s'), Fail(Busy))
    else (below + [Body(true)], Done)
  }

  /** The task of a dead event is dropped and the next one taken; one for a lost IO is all that `run_one` does. */
  ghost function AfterPop(below: seq<Frame>, s: LoopState, s': LoopState): (seq<Frame>, Outcome)
    requires s.scheduled != []
  {
    var t := s.scheduled[0];
    if !Alive(s.events, t.recipient) then (below + [One], Done)
    else if t.param.Io? && !Owns(s.events, t.recipient, t.param.token - TOKEN_SHIFT) then (Resume(below, Done, s'), Done)
    else (below + [Calling], Done)
  }

  ghost function AfterDrain(below: seq<Frame>, s: LoopState, s': LoopState): (seq<Frame>, Outcome) {
    if s.events == map[] then (Resume(below, Fail(Empty), s'), Fail(Empty)) else (below + [Polling], Done)
  }

  /** After a wait `run_one` looks at its queue again, or ends with the error. */
  ghost function AfterPoll(below: seq<Frame>, o: Outcome, s': LoopState): (seq<Frame>, Outcome) {
    if o.Fail? then (Resume(below, o, s'), o) else (below + [One], Done)
  }

  /** One move was read between the two points. */
  ghost predicate Took(p: Point, q: Point, m: Move) {
    q.taken == p.taken + [m]
  }

  /** One step of the control flow; `s` and `s'` are the states before and after. */
  ghost predicate Goes(first: LoopState, p: Point, q: Point, s: LoopState, s': LoopState)
    requires p.control != []
  {
    var below := Below(p.control);
    match Last(p.control)
    case Body(_) =>
      exists m :: Took(p, q, m) && FitsIn(Last(p.control), s, m) && Carried(p.trace, q.trace, Wanted(m))
                  && (q.control, q.result) == AfterRequest(p.control, s, s', m)
    case Handling =>
      exists m :: Took(p, q, m) && m.Handler? && q.trace == p.trace
                  && (q.control, q.result) == (Resume(below, Verdict(m.verdict), s'), Verdict(m.verdict))
    case Polling =>
      exists m, o :: Took(p, q, m) && FitsIn(Polling, s, m) && PollIs(first, p.trace, q.trace, m.result, o)
                     && (q.control, q.result) == AfterPoll(below, o, s')
    case Calling =>
      && q.taken == p.taken && q.trace == p.trace + [Enter] && s.pending.Some?
      && (q.control, q.result) == AfterEnter(below, s, s')
    case One =>
      && q.taken == p.taken
      && if s.scheduled != [] then q.trace == p.trace + [Pop] && (q.control, q.result) == AfterPop(below, s, s')
         else q.trace == p.trace + [Drain] && (q.control, q.result) == AfterDrain(below, s, s')
    case _ => false
  }

  ghost predicate Follows(first: LoopState, p: Point, q: Point) {
    && p.control != [] && Exec(first, p.trace).Some? && Exec(first, q.trace).Some?
    && Goes(first, p, q, Exec(first, p.trace).value, Exec(first, q.trace).value)
  }

  /** The points that the loop came through, from the first one on. */
  ghost predicate Path(first: LoopState, path: seq<Point>) {
    && path != []
    && if |path| == 1 then path[0] == Point([Body(false)], [], [], Done)
       else Path(first, path[..|path| - 1]) && Follows(first, path[|path| - 2], path[|path| - 1])
  }

  lemma PathOneMore(first: LoopState, path: seq<Point>, q: Point)
    requires Path(first, path) && Follows(first, path[|path| - 1], q)
    ensures Path(first, path + [q])
  {
    assert (path + [q])[..|path|] == path;
  }

  // ----- Each kind of step -----

  lemma Tops(below: seq<Frame>, f: Frame)
    ensures Last(below + [f]) == f && Below(below + [f]) == below
  {}

  lemma RequestFollows(first: LoopState, p: Point, q: Point, m: Move, scoped: bool, s: LoopState, s': LoopState)
    requires p.control != [] && Last(p.control) == Body(scoped)
    requires Exec(first, p.trace) == Some(s) && Exec(first, q.trace) == Some(s')
    requires Took(p, q, m) && FitsIn(Body(scoped), s, m) && Carried(p.trace, q.trace, Wanted(m))
    requires (q.control, q.result) == AfterRequest(p.control, s, s', m)
    ensures Follows(first, p, q)
  {}

  lemma HandlerFollows(first: LoopState, below: seq<Frame>, p: Point, q: Point, m: Move, s: LoopState)
    requires p.control == below + [Handling] && Exec(first, p.trace) == Some(s) && q.trace == p.trace
    requires Took(p, q, m) && m.Handler?
    requires (q.control, q.result) == (Resume(below, Verdict(m.verdict), s), Verdict(m.verdict))
    ensures Follows(first, p, q)
  {
    Tops(below, Handling);
  }

  lemma PollFollows(first: LoopState, below: seq<Frame>, p: Point, q: Point, m: Move, o: Outcome, s: LoopState, s': LoopState)
    requires p.control == below + [Polling]
    requires Exec(first, p.trace) == Some(s) && Exec(first, q.trace) == Some(s')
    requires Took(p, q, m) && FitsIn(Polling, s, m) && PollIs(first, p.trace, q.trace, m.result, o)
    requires (q.control, q.result) == AfterPoll(below, o, s')
    ensures Follows(first, p, q)
  {
    Tops(below, Polling);
  }

  lemma EnterFollows(first: LoopState, below: seq<Frame>, p: Point, q: Point, s: LoopState, s': LoopState)
    requires p.control == below + [Calling] && q.taken == p.taken && q.trace == p.trace + [Enter]
    requires Exec(first, p.trace) == Some(s) && Exec(first, q.trace) == Some(s') && s.pending.Some?
    requires (q.control, q.result) == AfterEnter(below, s, s')
    ensures Follows(first, p, q)
  {
    Tops(below, Calling);
  }

  lemma PopFollows(first: LoopState, below: seq<Frame>, p: Point, q: Point, s: LoopState, s': LoopState)
    requires p.control == below + [One] && q.taken == p.taken && q.trace == p.trace + [Pop]
    requires Exec(first, p.trace) == Some(s) && Exec(first, q.trace) == Some(s') && s.scheduled != []
    requires (q.control, q.result) == AfterPop(below, s, s')
    ensures Follows(first, p, q)
  {
    Tops(below, One);
  }

  lemma DrainFollows(first: LoopState, below: seq<Frame>, p: Point, q: Point, s: LoopState, s': LoopState)
    requires p.control == below + [One] && q.taken == p.taken && q.trace == p.trace + [Drain]
    requires Exec(first, p.trace) == Some(s) && Exec(first, q.trace) == Some(s') && s.scheduled == []
    requires (q.control, q.result) == AfterDrain(below, s, s')
    ensures Follows(first, p, q)
  {
    Tops(below, One);
  }

  lemma CarriedOne(t: seq<Action>, a: Action, m: Move)
    requires Wanted(m) == Asked(a) && |Asked(a)| == 1
    ensures Carried(t, t + [a], Wanted(m))
  {}

  lemma CarriedSimple(t: seq<Action>, m: Move)
    requires Simple(m)
    ensures Carried(t, t + [ActionOf(m)], Wanted(m))
  {
    CarriedOne(t, ActionOf(m), m);
  }

  lemma CarriedTwo(t: seq<Action>, sig: nat)
    ensures Carried(t, t + [EnableSignal(sig)] + [WatchSignal(sig)], Wanted(DoSignal(sig)))
  {}

  lemma CarriedNone(t: seq<Action>, m: Move)
    requires Wanted(m) == []
    ensures Carried(t, t, Wanted(m))
  {}

  lemma ResumeBody(control: seq<Frame>, o: Outcome, s: LoopState)
    requires control != [] && Last(control).Body?
    ensures Resume(control, o, s) == control
  {}

  lemma UntilRequest(control: seq<Frame>, s: LoopState, h: Handle)
    requires control != []
    ensures AfterRequest(control, s, s, DoRunUntilComplete(h)) ==
            if !Alive(s.events, h) then (control, Done)
            else if s.events[h.id].stolen then (control, Fail(DeadLock))
            else (control + [Until(h)] + [One], Done)
  {
    assert control + [Until(h), One] == control + [Until(h)] + [One];
  }

  lemma ResumeUntil(control: seq<Frame>, h: Handle, o: Outcome, s: LoopState)
    ensures Resume(control + [Until(h)], o, s) ==
            if o.Fail? || !Alive(s.events, h) then control else control + [Until(h)] + [One]
  {
    Tops(control, Until(h));
  }

  lemma ResumeRunning(control: seq<Frame>, o: Outcome, s: LoopState)
    ensures Resume(control + [Running], o, s) == if o.Fail? || !s.active then control else control + [Running] + [One]
  {
    Tops(control, Running);
  }

  // ----- Where the source can stop -----

  /**
   Why nothing follows the point `p`, where `taken`, `trace` and `s` are the moves, actions and the state
   up to the very end: the next move, if there is one, is no answer to what is asked; or, within a
   step, a callback watches a child that is already watched, or a released index is not stored.
   */
  ghost predicate Stops(reason: Reason, p: Point, trace: seq<Action>, taken: seq<Move>, moves: seq<Move>, s: LoopState) {
    && p.control != []
    && match reason
       case NoAnswer =>
         && Asks(Last(p.control)) && trace == p.trace && taken == p.taken
         && (moves == [] || !FitsIn(Last(p.control), s, moves[0]))
       case DoubleChild =>
         && Last(p.control) == Body(true) && trace == p.trace + [EnableSignal(s.sigchld)]
         && exists pid :: taken == p.taken + [DoChild(pid)] && pid in s.children
       case SlabPanic =>
         && s.policy.AsWritten?
         && match Last(p.control)
            case One => trace == p.trace && taken == p.taken && s.scheduled == [] && !(s.iosReleased <= s.ios.Keys)
            case Body(_) => exists id, ok :: taken == p.taken + [DoIoRemove(id, ok)] && NotStored(s, id)
            case Polling =>
              exists m, k, owner, idx, kind ::
                && Took(p, Point(p.control, trace, taken, Done), m) && m.Poll? && m.result.Woken?
                && ReadyOf(m.result.ready, k, owner, idx, kind) && Owns(s.events, owner, idx) && idx !in s.ios
            case _ => false
  }

  /** The innermost callback owns the index, but the slab has nothing there. */
  ghost predicate NotStored(s: LoopState, id: IoToken) {
    s.stack != [] && Owns(s.events, Top(s), id - TOKEN_SHIFT) && id - TOKEN_SHIFT !in s.ios
  }

  ghost predicate ReadyOf(ready: seq<Readiness>, k: int, owner: Handle, idx: nat, kind: nat) {
    0 <= k < |ready| && ready[k] == IoReady(owner, idx, kind)
  }

  // ----- Theorems about paths -----

  lemma {:induction false} CarriedAsked(t: seq<Action>, t': seq<Action>, rs: seq<Request>)
    requires Carried(t, t', rs)
    ensures AskedAll(t') == AskedAll(t) + rs
    decreases |rs|
  {
    hide Asked;
    if rs == [] {
      assert t' == t;
    } else {
      var n := |rs| - 1;
      var before := t'[..|t'| - 1];
      CarriedAsked(t, before, rs[..n]);
      AskedOneMore(before, t'[|t'| - 1]);
      assert before + [t'[|t'| - 1]] == t';
      assert rs[..n] + [rs[n]] == rs;
    }
  }

  lemma NoneAskedConcat(xs: seq<Action>, ys: seq<Action>)
    requires NoneAsked(xs) && NoneAsked(ys)
    ensures NoneAsked(xs + ys)
  {}

  lemma {:induction false} SweepAsksNothing(acts: seq<Action>, k: nat, raised: set<nat>, deaths: seq<(Pid, int)>, sigchld: nat)
    requires IsSweep(acts, k, raised, deaths, sigchld)
    ensures NoneAsked(acts)
    decreases k, 0
  {
    if k > 0 && k - 1 !in raised {
      SweepAsksNothing(acts, k - 1, raised, deaths, sigchld);
    } else if k > 0 {
      var n := |acts| - 1;
      if k - 1 == sigchld { ReapsAskNothing(acts[..n], k - 1, raised, deaths, sigchld); }
      else { SweepAsksNothing(acts[..n], k - 1, raised, deaths, sigchld); }
      assert acts == acts[..n] + [acts[n]];
    }
  }

  lemma {:induction false} ReapsAskNothing(acts: seq<Action>, k: nat, raised: set<nat>, deaths: seq<(Pid, int)>, sigchld: nat)
    requires IsReapedSweep(acts, k, raised, deaths, sigchld)
    ensures NoneAsked(acts)
    decreases k, 1
  {
    var n := |acts| - |deaths|;
    SweepAsksNothing(acts[..n], k, raised, deaths, sigchld);
    assert acts == acts[..n] + acts[n..];
    assert NoneAsked(Reaps(deaths));
    NoneAskedConcat(acts[..n], acts[n..]);
  }

  lemma {:induction false} GatherAsksNothing(s: LoopState, ready: seq<Readiness>, acts: seq<Action>)
    requires IsGather(s, ready, acts)
    ensures NoneAsked(acts)
    decreases |ready|
  {
    hide NoneAsked, IsSweep;
    if ready == [] {
      NothingAsked();
    } else {
      var m := |ready| - 1;
      var n :| 0 <= n <= |acts| && IsGather(s, ready[..m], acts[..n]) && IsOne(s, ready[..m], ready[m], acts[n..]);
      GatherAsksNothing(s, ready[..m], acts[..n]);
      OneAsksNothing(s, ready[..m], ready[m], acts[n..]);
      NoneAskedConcat(acts[..n], acts[n..]);
      assert acts == acts[..n] + acts[n..];
    }
  }

  lemma NothingAsked()
    ensures NoneAsked([])
  {}

  lemma OneAsksNothing(s: LoopState, before: seq<Readiness>, r: Readiness, acts: seq<Action>)
    requires IsOne(s, before, r, acts)
    ensures NoneAsked(acts)
  {
    hide IsSweep;
    if r.SignalsReady? { SweepAsksNothing(acts, |s.recipients|, r.raised, r.deaths, s.sigchld); }
  }

  lemma GatheredConcat(xs: seq<Action>, ys: seq<Action>, zs: seq<Action>, vs: seq<Action>)
    requires NoneAsked(xs) && NoneAsked(ys) && NoneAsked(zs) && NoneAsked(vs)
    ensures NoneAsked(xs + ys + zs + vs)
  {
    hide NoneAsked;
    NoneAskedConcat(xs, ys);
    NoneAskedConcat(xs + ys, zs);
    NoneAskedConcat(xs + ys + zs, vs);
  }

  lemma SingleGathered()
    ensures NoneAsked([Cleanup]) && NoneAsked([PickIdle]) && NoneAsked([])
  {}

  lemma WokeShape(first: LoopState, t0: seq<Action>, t: seq<Action>, now: Instant, arrivals: seq<RemoteMessage>,
                  ready: seq<Readiness>, io: seq<Action>, fired: seq<TimeoutHolder>, idle: seq<Action>)
    returns (rest: seq<Action>)
    requires WokeBy(first, t0, t, now, arrivals, ready, io, fired, idle)
    ensures Exec(first, t0).Some? && NoneAsked(rest) && t == Ticked(first, t0, now, arrivals) + rest
  {
    hide Exec, IsGather, Ticked, NoneAsked;
    GatherAsksNothing(Exec(first, Ticked(first, t0, now, arrivals)).value, ready, io);
    SingleGathered();
    DuesGathered(fired);
    rest := io + [Cleanup] + Dues(fired) + idle;
    GatheredConcat(io, [Cleanup], Dues(fired), idle);
  }

  lemma DuesGathered(ts: seq<TimeoutHolder>)
    ensures NoneAsked(Dues(ts)) && NoneAsked(DropDeads(ts))
  {}

  lemma CutShape(first: LoopState, t0: seq<Action>, t: seq<Action>, now: Instant, arrivals: seq<RemoteMessage>,
                 ready: seq<Readiness>, io: seq<Action>, k: nat, n: nat)
    requires CutBy(first, t0, t, now, arrivals, ready, io, k, n)
    ensures Exec(first, t0).Some? && NoneAsked(io) && t == Ticked(first, t0, now, arrivals) + io
  {
    hide Exec, IsGather, Ticked, IsReapedSweep, NoneAsked;
    var s := Exec(first, Ticked(first, t0, now, arrivals)).value;
    GatherAsksNothing(s, ready[..k], io[..n]);
    ReapsAskNothing(io[n..], s.sigchld, ready[k].raised, ready[k].deaths, s.sigchld);
    NoneAskedConcat(io[..n], io[n..]);
    assert io == io[..n] + io[n..];
  }

  /** Of all that happens when the loop waits and wakes up, only the clock was asked for. */
  lemma PollShape(first: LoopState, t0: seq<Action>, t: seq<Action>, m: Move, o: Outcome)
    returns (before: seq<Action>, after: seq<Action>)
    requires m.Poll? && PollIs(first, t0, t, m.result, o)
    ensures NoneAsked(before) && NoneAsked(after)
    ensures t == if m.result.Woken? then t0 + before + [Tick(m.result.now)] + after else t0 + before
  {
    hide WokeBy, CutBy, LiveOnTop, NoneAsked, Exec;
    var drops :| LiveOnTop(first, t0, drops) && WaitIs(first, t0 + DropDeads(drops), t, m.result, o);
    DuesGathered(drops);
    SingleGathered();
    before, after := DropDeads(drops), [];
    if m.result.Woken? {
      var t1 := t0 + before;
      var Woken(now, arrivals, ready) := m.result;
      if o.Done? {
        var io, fired, idle :| WokeBy(first, t1, t, now, arrivals, ready, io, fired, idle);
        after := WokeShape(first, t1, t, now, arrivals, ready, io, fired, idle);
      } else {
        var io, k, n :| CutBy(first, t1, t, now, arrivals, ready, io, k, n);
        CutShape(first, t1, t, now, arrivals, ready, io, k, n);
        after := io;
      }
      var come := Arrives(Arriving(arrivals, Exec(first, t1).value.generation));
      ArrivesGathered(Arriving(arrivals, Exec(first, t1).value.generation));
      NoneAskedConcat(before, come);
      before := before + come;
      assert t0 + DropDeads(drops) + come == t0 + before;
    }
  }

  lemma ArrivesGathered(ms: seq<RemoteMessage>)
    ensures NoneAsked(Arrives(ms))
  {}

  lemma PollAsked(first: LoopState, t0: seq<Action>, t: seq<Action>, m: Move, o: Outcome)
    requires m.Poll? && PollIs(first, t0, t, m.result, o)
    ensures AskedAll(t) == AskedAll(t0) + Wanted(m)
  {
    hide AskedAll, PollIs, NoneAsked;
    var before, after := PollShape(first, t0, t, m, o);
    AskedUnchanged(t0, before);
    if m.result.Woken? {
      AskedOneMore(t0 + before, Tick(m.result.now));
      AskedUnchanged(t0 + before + [Tick(m.result.now)], after);
    }
  }

  lemma FollowingPays(first: LoopState, p: Point, q: Point)
    requires Follows(first, p, q) && AskedAll(p.trace) == WantedAll(p.taken)
    ensures AskedAll(q.trace) == WantedAll(q.taken)
  {
    hide AskedAll, WantedAll, Asked, Wanted, PollIs, Exec, AfterRequest, AfterEnter, AfterPop, AfterDrain, AfterPoll, Resume;
    match Last(p.control) {
      case Body(scoped) =>
        var m :| Took(p, q, m) && Carried(p.trace, q.trace, Wanted(m));
        CarriedAsked(p.trace, q.trace, Wanted(m));
        WantedOneMore(p.taken, m);
      case Handling =>
        var m :| Took(p, q, m) && m.Handler? && q.trace == p.trace;
        WantedOneMore(p.taken, m);
        HandlerWants(m);
      case Polling =>
        var m, o :| Took(p, q, m) && FitsIn(Polling, Exec(first, p.trace).value, m)
                    && PollIs(first, p.trace, q.trace, m.result, o);
        PollAsked(first, p.trace, q.trace, m, o);
        WantedOneMore(p.taken, m);
      case Calling => QuietlyOn(p.trace, Enter);
      case One => QuietlyOn(p.trace, Pop); QuietlyOn(p.trace, Drain);
      case _ =>
    }
  }

  lemma HandlerWants(m: Move)
    requires m.Handler?
    ensures Wanted(m) == []
  {}

  lemma QuietlyOn(t: seq<Action>, a: Action)
    requires a.Enter? || a.Pop? || a.Drain?
    ensures AskedAll(t + [a]) == AskedAll(t)
  {
    AskedOneMore(t, a);
  }

  /**
   At every point of every path: what the loop did is, in this order, all that the moves so far asked
   for, and nothing more of the kind that has to be asked for.
   */
  lemma {:induction false} DoneAsAsked(first: LoopState, path: seq<Point>)
    requires Path(first, path)
    ensures AskedAll(path[|path| - 1].trace) == WantedAll(path[|path| - 1].taken)
  {
    hide Follows, AskedAll, WantedAll;
    if |path| == 1 {
      NothingYet();
    } else {
      DoneAsAsked(first, path[..|path| - 1]);
      FollowingPays(first, path[|path| - 2], path[|path| - 1]);
    }
  }

  lemma NothingYet()
    ensures AskedAll([]) == WantedAll([])
  {}

  // ----- The frames and the callbacks -----

  /** The frames of callbacks. */
  ghost function Scopes(control: seq<Frame>): nat {
    if control == [] then 0
    else Scopes(Below(control)) + if Last(control) == Body(true) then 1 else 0
  }

  /** A frame that can have made a call. */
  predicate Calls(f: Frame) {
    f.Body? || f.Until? || f.Running?
  }

  /** Frames with a call in progress: on top of the owner's frame, and only requests start `run`s. */
  ghost predicate Nested(control: seq<Frame>) {
    && control != [] && control[0] == Body(false)
    && (forall i | 0 <= i < |control| :: Calls(control[i]))
    && (forall i | 0 < i < |control| :: control[i] != Body(false))
    && (forall i | 0 < i < |control| && !control[i].Body? :: control[i - 1].Body?)
  }

  /** A frame that reads a move or performs an action next. */
  ghost predicate Proper(control: seq<Frame>) {
    && control != []
    && if Last(control).Body? then Nested(control) else !Calls(Last(control)) && Nested(Below(control))
  }

  /** As many frames of callbacks as active callbacks, and a call is prepared exactly when one is to be made. */
  ghost predicate Agree(control: seq<Frame>, s: LoopState) {
    && Proper(control)
    && Scopes(control) == |s.stack|
    && (s.pending.Some? <==> Last(control) == Calling)
  }

  lemma ScopesPush(below: seq<Frame>, f: Frame)
    ensures Scopes(below + [f]) == Scopes(below) + if f == Body(true) then 1 else 0
  {
    Tops(below, f);
  }

  lemma ScopesPushTwo(below: seq<Frame>, f: Frame, g: Frame)
    requires f != Body(true) && g != Body(true)
    ensures Scopes(below + [f, g]) == Scopes(below) && Last(below + [f, g]) == g
  {
    ScopesPush(below, f);
    ScopesPush(below + [f], g);
    assert below + [f] + [g] == below + [f, g];
  }

  lemma ProperResume(control: seq<Frame>, o: Outcome, s: LoopState)
    requires Nested(control)
    ensures Proper(Resume(control, o, s)) && Last(Resume(control, o, s)) != Calling
    ensures Scopes(Resume(control, o, s)) == Scopes(control)
  {
    ScopesPush(control, One);
    if !Last(control).Body? { assert Nested(Below(control)); }
  }

  lemma ProperPush(control: seq<Frame>, f: Frame)
    requires Nested(control) && (f == Body(true) || !Calls(f))
    ensures Proper(control + [f]) && Last(control + [f]) == f
    ensures Scopes(control + [f]) == Scopes(control) + if f == Body(true) then 1 else 0
  {
    ScopesPush(control, f);
  }

  lemma ProperPushTwo(control: seq<Frame>, f: Frame)
    requires Nested(control) && Last(control).Body? && (f.Until? || f.Running?)
    ensures Proper(control + [f, One]) && Last(control + [f, One]) == One
    ensures Scopes(control + [f, One]) == Scopes(control)
  {
    ScopesPushTwo(control, f, One);
    assert Below(control + [f, One]) == control + [f];
  }

  // What the actions do to the callbacks

  lemma GatheredCalm(s: LoopState, a: Action)
    requires Step(s, a) && (IsGathered(a) || a.Drain? || a.Tick?)
    ensures Apply(s, a).stack == s.stack && Apply(s, a).pending == s.pending
  {
    hide Step, Apply;
    if Queues(a) { QueueFrame(s, a); }
    else if a.Reap? { ReapCalm(s, a); }
    else if a.Drain? { DrainFrame(s); }
    else if a.Arrive? { ConfigFrame(s, a); ArriveCalm(s, a); }
    else { TimerFrame(s, a); }
  }

  lemma ReapCalm(s: LoopState, a: Action)
    requires Step(s, a) && a.Reap?
    ensures Apply(s, a).stack == s.stack && Apply(s, a).pending == s.pending
  {}

  lemma ArriveCalm(s: LoopState, a: Action)
    requires Step(s, a) && a.Arrive?
    ensures Apply(s, a).pending == s.pending
  {}

  lemma {:induction false} GatheringCalm(first: LoopState, t: seq<Action>, acts: seq<Action>)
    requires Exec(first, t + acts).Some? && forall a | a in acts :: IsGathered(a) || a.Tick?
    ensures Exec(first, t).Some?
    ensures Exec(first, t + acts).value.stack == Exec(first, t).value.stack
    ensures Exec(first, t + acts).value.pending == Exec(first, t).value.pending
    decreases |acts|
  {
    hide Step, Apply, IsGathered;
    if acts == [] {
      assert t + acts == t;
    } else {
      var n := |acts| - 1;
      assert (t + acts)[..|t| + n] == t + acts[..n];
      GatheringCalm(first, t, acts[..n]);
      assert acts[n] in acts;
      GatheredCalm(Exec(first, t + acts[..n]).value, acts[n]);
    }
  }

  lemma OneStep(first: LoopState, t: seq<Action>, a: Action)
    requires Exec(first, t + [a]).Some?
    ensures Exec(first, t).Some? && Step(Exec(first, t).value, a)
    ensures Exec(first, t + [a]).value == Apply(Exec(first, t).value, a)
  {
    assert (t + [a])[..|t|] == t;
  }

  /** Waiting touches no callback. */
  lemma PollCalm(first: LoopState, t0: seq<Action>, t: seq<Action>, m: Move, o: Outcome)
    requires m.Poll? && PollIs(first, t0, t, m.result, o) && Exec(first, t).Some?
    ensures Exec(first, t0).Some?
    ensures Exec(first, t).value.stack == Exec(first, t0).value.stack
    ensures Exec(first, t).value.pending == Exec(first, t0).value.pending
  {
    hide PollIs, Exec;
    var before, after := PollShape(first, t0, t, m, o);
    var acts := if m.result.Woken? then before + [Tick(m.result.now)] + after else before;
    assert t == t0 + acts;
    GatheringCalm(first, t0, acts);
  }

  lemma ScopeCalm(s: LoopState, a: Action)
    requires Step(s, a)
    requires a.SendTo? || a.SetActive? || a.EnableSignal? || a.TimeoutAt? || a.AskIdle? || a.WatchSignal? || a.Expect?
             || a.IoRegister? || a.IoRemove? || a.WatchChild?
    ensures Apply(s, a).stack == s.stack && Apply(s, a).pending == s.pending
  {}

  lemma CallPrepared(s: LoopState, a: Action)
    requires Step(s, a) && (a.Insert? || a.PostTo?)
    ensures Apply(s, a).stack == s.stack && s.pending.None?
    ensures Apply(s, a).pending.Some? <==> (a.PostTo? ==> MsgTypeCheck(s.events, a.to, a.tp).None?)
  {}

  lemma CallLeft(s: LoopState, response: Response)
    requires Step(s, Leave(response))
    ensures |Apply(s, Leave(response)).stack| == |s.stack| - 1 && Apply(s, Leave(response)).pending == s.pending
  {}

  lemma CallEntered(s: LoopState)
    requires Step(s, Enter)
    ensures Apply(s, Enter).pending.None?
    ensures var h := s.pending.value.target;
            |Apply(s, Enter).stack| == |s.stack| + if Alive(s.events, h) && !s.events[h.id].stolen then 1 else 0
  {}

  lemma TaskTaken(s: LoopState)
    requires Step(s, Pop)
    ensures var t := s.scheduled[0];
            && Apply(s, Pop).stack == s.stack && s.pending.None?
            && (Apply(s, Pop).pending.Some? <==>
                  Alive(s.events, t.recipient)
                  && (t.param.Io? ==> Owns(s.events, t.recipient, t.param.token - TOKEN_SHIFT)))
  {}

  lemma RequestAgrees(p: Point, q: Point, s: LoopState, s': LoopState, m: Move)
    requires Agree(p.control, s) && Last(p.control).Body? && IsRequest(Last(p.control).scoped, |s.enabled|, s.sigchld, m)
    requires (q.control, q.result) == AfterRequest(p.control, s, s', m)
    requires |s'.stack| == |s.stack| - if m.Return? then 1 else 0
    requires s'.pending.Some? <==> m.DoInsert? || (m.DoPost? && MsgTypeCheck(s.events, m.to, m.tp).None?)
    ensures Agree(q.control, s')
  {
    hide Proper, Nested, MsgTypeCheck;
    var c := p.control;
    ProperIs(c);
    if m.Return? {
      BelowNested(c);
      ProperPush(Below(c), Handling);
      ProperResume(Below(c), Done, s');
    } else {
      ProperPush(c, Calling);
      ProperPush(c, One);
      ProperPushTwo(c, Running);
      if m.DoRunUntilComplete? { ProperPushTwo(c, Until(m.handle)); }
    }
  }

  lemma ProperIs(control: seq<Frame>)
    requires Proper(control)
    ensures if Last(control).Body? then Nested(control) else !Calls(Last(control)) && Nested(Below(control))
    ensures Scopes(control) == Scopes(Below(control)) + if Last(control) == Body(true) then 1 else 0
  {}

  lemma BelowNested(control: seq<Frame>)
    requires Nested(control) && Last(control) == Body(true)
    ensures Nested(Below(control))
  {}

  /** What the actions of a request do to the callbacks. */
  lemma RequestSteps(first: LoopState, t: seq<Action>, t': seq<Action>, s: LoopState, s': LoopState, m: Move, scoped: bool)
    requires Exec(first, t) == Some(s) && Exec(first, t') == Some(s') && s.pending.None?
    requires IsRequest(scoped, |s.enabled|, s.sigchld, m) && Carried(t, t', Wanted(m))
    ensures |s'.stack| == |s.stack| - if m.Return? then 1 else 0
    ensures s'.pending.Some? <==> m.DoInsert? || (m.DoPost? && MsgTypeCheck(s.events, m.to, m.tp).None?)
  {
    hide Exec, Step, Apply, MsgTypeCheck;
    if Wanted(m) == [] {
      assert t' == t;
    } else if |Wanted(m)| == 1 {
      var a := t'[|t|];
      assert t' == t + [a];
      assert Asked(t'[|t| + 0]) == [Wanted(m)[0]];
      OneStep(first, t, a);
      if m.Return? { CallLeft(s, m.response); }
      else if m.DoInsert? || m.DoPost? { CallPrepared(s, a); }
      else { ScopeCalm(s, a); }
    } else {
      var a, b := t'[|t|], t'[|t| + 1];
      assert t' == t + [a] + [b];
      assert Asked(t'[|t| + 0]) == [Wanted(m)[0]] && Asked(t'[|t| + 1]) == [Wanted(m)[1]];
      OneStep(first, t + [a], b);
      OneStep(first, t, a);
      ScopeCalm(s, a);
      ScopeCalm(Apply(s, a), b);
    }
  }

  lemma EnterAgrees(below: seq<Frame>, s: LoopState, s': LoopState)
    requires Nested(below) && Scopes(below) == |s.stack| && Step(s, Enter) && s' == Apply(s, Enter)
    ensures s.pending.Some? && Agree(AfterEnter(below, s, s').0, s')
  {
    hide Proper, Nested, Resume, Apply;
    CallEntered(s);
    ProperPush(below, Body(true));
    ProperResume(below, AfterEnter(below, s, s').1, s');
  }

  lemma PopAgrees(below: seq<Frame>, s: LoopState, s': LoopState)
    requires Nested(below) && Scopes(below) == |s.stack| && Step(s, Pop) && s' == Apply(s, Pop)
    ensures s.scheduled != [] && Agree(AfterPop(below, s, s').0, s')
  {
    hide Proper, Nested, Resume, Apply;
    TaskTaken(s);
    ProperPush(below, Calling);
    ProperPush(below, One);
    ProperResume(below, Done, s');
  }

  lemma DrainAgrees(below: seq<Frame>, s: LoopState, s': LoopState)
    requires Nested(below) && Scopes(below) == |s.stack| && Step(s, Drain) && s' == Apply(s, Drain)
    ensures Agree(AfterDrain(below, s, s').0, s')
  {
    hide Proper, Nested, Resume, Apply;
    GatheredCalm(s, Drain);
    ProperPush(below, Polling);
    ProperResume(below, Fail(Empty), s');
  }

  lemma FollowingAgrees(first: LoopState, p: Point, q: Point)
    requires Follows(first, p, q) && Agree(p.control, Exec(first, p.trace).value)
    ensures Agree(q.control, Exec(first, q.trace).value)
  {
    hide Exec, Step, Apply, Proper, Nested, PollIs, IsRequest, Wanted, Carried, AfterRequest, Resume, MsgTypeCheck,
      AfterEnter, AfterPop, AfterDrain;
    var c := p.control;
    var s, s', below := Exec(first, p.trace).value, Exec(first, q.trace).value, Below(c);
    ProperIs(c);
    match Last(c) {
      case Body(scoped) =>
        var m :| Took(p, q, m) && FitsIn(Last(c), s, m) && Carried(p.trace, q.trace, Wanted(m))
                 && (q.control, q.result) == AfterRequest(c, s, s', m);
        RequestSteps(first, p.trace, q.trace, s, s', m, scoped);
        RequestAgrees(p, q, s, s', m);
      case Handling =>
        var m :| Took(p, q, m) && m.Handler? && q.trace == p.trace
                 && (q.control, q.result) == (Resume(below, Verdict(m.verdict), s'), Verdict(m.verdict));
        ProperResume(below, Verdict(m.verdict), s');
      case Polling =>
        var m, o :| Took(p, q, m) && FitsIn(Polling, s, m) && PollIs(first, p.trace, q.trace, m.result, o)
                    && (q.control, q.result) == AfterPoll(below, o, s');
        PollCalm(first, p.trace, q.trace, m, o);
        ProperResume(below, o, s');
        ProperPush(below, One);
      case Calling =>
        OneStep(first, p.trace, Enter);
        EnterAgrees(below, s, s');
      case One =>
        if s.scheduled != [] {
          OneStep(first, p.trace, Pop);
          PopAgrees(below, s, s');
        } else {
          OneStep(first, p.trace, Drain);
          DrainAgrees(below, s, s');
        }
      case _ =>
    }
  }

  /**
   The stack discipline: at every point of every path the frames nest properly, there is one frame for
   each callback in progress, and a call is prepared exactly when a frame is about to make it.
   */
  lemma {:induction false} FramesAgree(first: LoopState, path: seq<Point>)
    requires Path(first, path) && first.stack == [] && first.pending.None?
    ensures Exec(first, path[|path| - 1].trace).Some?
    ensures Agree(path[|path| - 1].control, Exec(first, path[|path| - 1].trace).value)
  {
    if |path| == 1 {
      assert path[0].control == [Body(false)];
    } else {
      FramesAgree(first, path[..|path| - 1]);
      hide Agree, Goes, Exec;
      FollowingAgrees(first, path[|path| - 2], path[|path| - 1]);
    }
  }

  // ----- Moves that always fit -----

  /** The move is an answer where the point asks, and no child is watched twice. */
  ghost predicate Answers(p: Point, s: LoopState, m: Move) {
    && p.control != []
    && (Asks(Last(p.control)) ==> FitsIn(Last(p.control), s, m) && (m.DoChild? ==> m.pid !in s.children))
  }

  /** If the loop has read only some of these moves, the next one is an answer. */
  ghost predicate NextFits(first: LoopState, p: Point, moves: seq<Move>) {
    p.taken <= moves && p.taken != moves && Exec(first, p.trace).Some? ==>
      Answers(p, Exec(first, p.trace).value, moves[|p.taken|])
  }

  /** Wherever the loop gets with the first of these moves, the next one is an answer. */
  ghost predicate AlwaysFit(first: LoopState, moves: seq<Move>) {
    forall path: seq<Point> :: Path(first, path) ==> NextFits(first, path[|path| - 1], moves)
  }

  /** With moves that always fit the loop stops for lack of an answer only when it has read them all. */
  lemma StopsAtTheEnd(first: LoopState, input: seq<Move>, p: Point, moves: seq<Move>, trace: seq<Action>,
                      taken: seq<Move>, s: LoopState, reason: Reason)
    requires NextFits(first, p, input) && taken + moves == input && Exec(first, trace) == Some(s)
    requires Stops(reason, p, trace, taken, moves, s)
    ensures reason.NoAnswer? ==> moves == []
    ensures !reason.DoubleChild?
  {
    hide Fits, Exec, Step, Apply;
    if reason.DoubleChild? { BeforeEnabling(first, p.trace, s); }
  }

  lemma BeforeEnabling(first: LoopState, t: seq<Action>, s: LoopState)
    requires Exec(first, t + [EnableSignal(s.sigchld)]) == Some(s)
    ensures Exec(first, t).Some? && Exec(first, t).value.children == s.children
  {
    assert (t + [EnableSignal(s.sigchld)])[..|t|] == t;
  }
}
