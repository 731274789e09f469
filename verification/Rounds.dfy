/**
 What a whole `run_one` and a whole `run` do, on the paths of Control.dfy: a round takes at most one task
 of a live event, Busy comes from a busy recipient or an error handler, and a stop ends every `run`.
 */
module Rounds {
  import opened Wrappers
  import opened EventLoop
  import opened Invariants
  import opened Runs
  import opened Moves
  import opened Control
  import opened Queueing

  // ----- Returning -----

  /** In the step from `p` to `q` the innermost call returns to the frames below it. */
  ghost predicate Returns(p: Point, q: Point, s: LoopState)
    requires p.control != []
  {
    match Last(p.control)
    case Body(_) => exists r :: Took(p, q, Return(r)) && !r.Failed?
    case Handling => true
    case Polling => q.result.Fail?
    case Calling =>
      s.pending.Some? &&
      var h := s.pending.value.target; !Alive(s.events, h) || s.events[h.id].stolen
    case One =>
      if s.scheduled == [] then s.events == map[]
      else
        var t := s.scheduled[0];
        Alive(s.events, t.recipient) && t.param.Io? && !Owns(s.events, t.recipient, t.param.token - TOKEN_SHIFT)
    case _ => false
  }

  lemma TookOnce(p: Point, q: Point, m: Move, n: Move)
    requires Took(p, q, m) && Took(p, q, n)
    ensures m == n
  {
    assert q.taken[|p.taken|] == m;
  }

  /** The move that a request read, and where it led. */
  lemma RequestRead(first: LoopState, p: Point, q: Point, s: LoopState, s': LoopState) returns (m: Move)
    requires Follows(first, p, q) && Exec(first, p.trace) == Some(s) && Exec(first, q.trace) == Some(s')
    requires Last(p.control).Body?
    ensures Took(p, q, m) && Carried(p.trace, q.trace, Wanted(m))
    ensures (q.control, q.result) == AfterRequest(p.control, s, s', m)
  {
    hide Exec, PollIs, IsRequest, Wanted, Carried, Resume, AfterRequest;
    m :| Took(p, q, m) && Carried(p.trace, q.trace, Wanted(m))
         && (q.control, q.result) == AfterRequest(p.control, s, s', m);
  }

  /** Whoever called goes on, and knows the outcome. */
  lemma ReturnsResume(first: LoopState, p: Point, q: Point, s: LoopState, s': LoopState)
    requires Follows(first, p, q) && Exec(first, p.trace) == Some(s) && Exec(first, q.trace) == Some(s')
    requires Returns(p, q, s)
    ensures q.control == Resume(Below(p.control), q.result, s')
  {
    hide Exec, PollIs, IsRequest, Wanted, Carried, Resume;
    if Last(p.control).Body? {
      var m := RequestRead(first, p, q, s, s');
      var r :| Took(p, q, Return(r)) && !r.Failed?;
      TookOnce(p, q, m, Return(r));
    }
  }

  /** What a request answers at once, and whether it calls anybody. */
  ghost predicate Answered(p: Point, q: Point, s: LoopState, m: Move) {
    && p.control != []
    && (m.DoSend? || m.DoPost? ==>
          && (!Alive(s.events, m.to) ==> q.result == Fail(Missing) && q.control == p.control)
          && (Alive(s.events, m.to) && m.tp !in s.events[m.to.id].expected ==>
                q.result == Fail(MsgUnexpected) && q.control == p.control)
          && (Accepts(s.events, m.to, m.tp) ==>
                q.result == Done && q.control == if m.DoPost? then p.control + [Calling] else p.control))
    && (m.DoIoRegister? ==> q.control == p.control && q.result == if m.accepted then Done else Fail(IoError))
    && (m.DoIoRemove? && s.stack != [] ==>
          q.control == p.control
          && q.result == if !Owns(s.events, Top(s), m.id - TOKEN_SHIFT) then Fail(MissingIo)
                         else if m.deregistered then Done else Fail(IoError))
    && (m.DoRunUntilComplete? && !Alive(s.events, m.handle) ==> q.result == Done && q.control == p.control)
    && (m.DoRunUntilComplete? && Alive(s.events, m.handle) && s.events[m.handle.id].stolen ==>
          q.result == Fail(DeadLock) && q.control == p.control)
    && (m.DoRunUntilComplete? && Alive(s.events, m.handle) && !s.events[m.handle.id].stolen ==>
          q.control == p.control + [Until(m.handle), One])
    && (m.DoInsert? ==> q.control == p.control + [Calling])
    && (m.DoRunOne? ==> q.control == p.control + [One])
    && (m.DoRun? ==> q.control == p.control + [Running, One])
  }

  lemma RequestAnswers(first: LoopState, p: Point, q: Point, s: LoopState, m: Move)
    requires Follows(first, p, q) && Exec(first, p.trace) == Some(s) && Last(p.control).Body? && Took(p, q, m)
    ensures Answered(p, q, s, m)
  {
    hide Exec, PollIs, IsRequest, Wanted, Carried, Resume, AfterRequest;
    var n := RequestRead(first, p, q, s, Exec(first, q.trace).value);
    TookOnce(p, q, m, n);
    AnswerIs(p, q, s, Exec(first, q.trace).value, m);
  }

  lemma AnswerIs(p: Point, q: Point, s: LoopState, s': LoopState, m: Move)
    requires p.control != [] && (q.control, q.result) == AfterRequest(p.control, s, s', m)
    ensures Answered(p, q, s, m)
  {}

  /** What the error handler makes of an error is what the call returns. */
  lemma HandlerAnswers(first: LoopState, p: Point, q: Point, v: Option<Error>)
    requires Follows(first, p, q) && Last(p.control).Handling? && Took(p, q, Handler(v))
    ensures v.None? ==> q.result == Done
    ensures v.Some? ==> q.result == Fail(v.value)
  {
    hide Exec, PollIs, Resume;
    var m :| Took(p, q, m) && m.Handler? && q.result == Verdict(m.verdict);
    TookOnce(p, q, m, Handler(v));
  }

  lemma RequestNotBusy(control: seq<Frame>, s: LoopState, s': LoopState, m: Move)
    requires control != []
    ensures AfterRequest(control, s, s', m).1 != Fail(Busy)
  {}

  lemma PollNotBusy(first: LoopState, t: seq<Action>, t': seq<Action>, result: PollResult, o: Outcome)
    requires PollIs(first, t, t', result, o)
    ensures o != Fail(Busy)
  {
    hide LiveOnTop, WokeBy, CutBy;
  }

  /**
   Busy is what a call returns if its event is in the middle of a callback, or if the error handler makes
   that of an error; nothing else is answered with Busy.
   */
  lemma BusyExactly(first: LoopState, p: Point, q: Point, s: LoopState)
    requires Follows(first, p, q) && Exec(first, p.trace) == Some(s)
    ensures q.result == Fail(Busy) <==>
            || (Last(p.control).Calling? && Alive(s.events, s.pending.value.target)
                && s.events[s.pending.value.target.id].stolen)
            || (Last(p.control).Handling? && Took(p, q, Handler(Some(Busy))))
  {
    hide Exec, PollIs, IsRequest, Wanted, Carried, Resume, AfterRequest;
    var s' := Exec(first, q.trace).value;
    if Last(p.control).Body? {
      var m := RequestRead(first, p, q, s, s');
      RequestNotBusy(p.control, s, s', m);
    } else if Last(p.control).Handling? {
      var m :| Took(p, q, m) && m.Handler? && q.result == Verdict(m.verdict);
      if Took(p, q, Handler(Some(Busy))) { TookOnce(p, q, m, Handler(Some(Busy))); }
    } else if Last(p.control).Polling? {
      var m, o :| Took(p, q, m) && FitsIn(Polling, s, m) && PollIs(first, p.trace, q.trace, m.result, o)
                  && (q.control, q.result) == AfterPoll(Below(p.control), o, s');
      PollNotBusy(first, p.trace, q.trace, m.result, o);
    }
  }

  // ----- Points of a path -----

  lemma {:induction false} PathPrefix(first: LoopState, path: seq<Point>, n: nat)
    requires Path(first, path) && 0 < n <= |path|
    ensures Path(first, path[..n])
    decreases |path|
  {
    hide Follows;
    if n == |path| {
      assert path[..n] == path;
    } else {
      PathPrefix(first, path[..|path| - 1], n);
      assert path[..|path| - 1][..n] == path[..n];
    }
  }

  lemma PathStep(first: LoopState, path: seq<Point>, c: nat)
    requires Path(first, path) && c + 1 < |path|
    ensures Follows(first, path[c], path[c + 1]) && path[c].control != []
    ensures Exec(first, path[c].trace).Some? && Exec(first, path[c + 1].trace).Some?
  {
    hide Goes, Exec;
    PathPrefix(first, path, c + 2);
  }

  lemma PointAgrees(first: LoopState, path: seq<Point>, c: nat)
    requires Path(first, path) && c < |path| && first.stack == [] && first.pending.None?
    ensures Exec(first, path[c].trace).Some? && Agree(path[c].control, Exec(first, path[c].trace).value)
  {
    hide Follows, Agree, Exec;
    PathPrefix(first, path, c + 1);
    FramesAgree(first, path[..c + 1]);
  }

  // ----- One round -----

  /** How far the call of `run_one` has got whose frame is on top of the first `n` frames. */
  ghost function Stage(control: seq<Frame>, n: nat): nat
    requires n < |control|
  {
    match control[n]
    case One => 0
    case Polling => 0
    case Calling => 1
    case _ => 2
  }

  /** The frame of the round is there. */
  ghost predicate InRound(control: seq<Frame>, n: nat) {
    n < |control| && (control[n] == Body(true) || !Calls(control[n]))
  }

  /** The round itself goes on or takes a task here, not a call that it made. */
  ghost predicate Takes(p: Point, q: Point, n: nat) {
    |p.control| == n + 1 && p.control[n] == One && |q.control| == n + 1 && q.control[n] == Calling
  }

  /** The round returns here. */
  ghost predicate Ends(p: Point, q: Point, n: nat, s: LoopState)
    requires p.control != []
  {
    |p.control| == n + 1 && Returns(p, q, s)
  }

  /** A step of the round, or of a call that it made. */
  lemma RoundStep(first: LoopState, p: Point, q: Point, n: nat, s: LoopState)
    requires Follows(first, p, q) && Exec(first, p.trace) == Some(s) && Proper(p.control)
    requires InRound(p.control, n) && !Ends(p, q, n, s)
    ensures InRound(q.control, n) && Stage(p.control, n) <= Stage(q.control, n)
    ensures Takes(p, q, n) <==> Stage(p.control, n) == 0 && Stage(q.control, n) > 0
  {
    hide Exec, Goes, PollIs, IsRequest, Wanted, Carried, AfterRequest, MsgTypeCheck, Proper, InRound, Stage, Takes;
    var s' := Exec(first, q.trace).value;
    if Last(p.control).Body? {
      var m := RequestRead(first, p, q, s, s');
      RequestInRound(p, q, n, s, s', m);
      BodyTakesNothing(p, q, n);
    } else if |p.control| == n + 1 {
      OwnStep(first, p, q, n, s);
    } else {
      NestedStep(first, p, q, n, s);
    }
  }

  lemma BodyTakesNothing(p: Point, q: Point, n: nat)
    requires InRound(p.control, n) && InRound(q.control, n) && Last(p.control).Body?
    requires Stage(q.control, n) == Stage(p.control, n)
    ensures !Takes(p, q, n)
  {}

  lemma OwnStep(first: LoopState, p: Point, q: Point, n: nat, s: LoopState)
    requires Follows(first, p, q) && Exec(first, p.trace) == Some(s) && Proper(p.control)
    requires InRound(p.control, n) && !Ends(p, q, n, s) && |p.control| == n + 1 && !Last(p.control).Body?
    ensures InRound(q.control, n) && Stage(p.control, n) <= Stage(q.control, n)
    ensures Takes(p, q, n) <==> Stage(p.control, n) == 0 && Stage(q.control, n) > 0
  {
    hide Exec, PollIs, IsRequest, Wanted, Carried, AfterRequest, MsgTypeCheck;
  }

  lemma NestedStep(first: LoopState, p: Point, q: Point, n: nat, s: LoopState)
    requires Follows(first, p, q) && Exec(first, p.trace) == Some(s) && Proper(p.control)
    requires InRound(p.control, n) && |p.control| != n + 1 && !Last(p.control).Body?
    ensures InRound(q.control, n) && Stage(p.control, n) == Stage(q.control, n) && !Takes(p, q, n)
  {
    hide Exec, PollIs, IsRequest, Wanted, Carried, AfterRequest, MsgTypeCheck;
  }

  lemma RequestInRound(p: Point, q: Point, n: nat, s: LoopState, s': LoopState, m: Move)
    requires Proper(p.control) && Last(p.control).Body? && Took(p, q, m) && InRound(p.control, n)
    requires (q.control, q.result) == AfterRequest(p.control, s, s', m)
    requires !Ends(p, q, n, s)
    ensures InRound(q.control, n) && Stage(q.control, n) == Stage(p.control, n)
  {
    hide MsgTypeCheck;
  }

  ghost predicate EndsAt(first: LoopState, path: seq<Point>, c: nat, n: nat) {
    && c + 1 < |path| && path[c].control != [] && Exec(first, path[c].trace).Some?
    && Ends(path[c], path[c + 1], n, Exec(first, path[c].trace).value)
  }

  /** How many tasks the round takes between two points. */
  ghost function TakenIn(path: seq<Point>, a: nat, b: nat, n: nat): nat
    requires a <= b < |path|
  {
    if a == b then 0
    else TakenIn(path, a, b - 1, n) + if Takes(path[b - 1], path[b], n) then 1 else 0
  }

  /**
   From the beginning of a call of `run_one` and until it returns: it takes a task of a live event for a
   callback at most once, and exactly once if it got as far as that, whatever the callback runs.
   */
  lemma {:induction false} OneTaskPerRound(first: LoopState, path: seq<Point>, a: nat, b: nat, n: nat)
    requires Path(first, path) && first.stack == [] && first.pending.None?
    requires a <= b < |path| && |path[a].control| == n + 1 && path[a].control[n] == One
    requires forall c | a <= c < b :: !EndsAt(first, path, c, n)
    ensures InRound(path[b].control, n)
    ensures TakenIn(path, a, b, n) == if Stage(path[b].control, n) == 0 then 0 else 1
    decreases b
  {
    hide Exec, Path, Follows, Proper, Nested, InRound, Stage, Returns, Takes;
    if a == b {
      Beginning(path[a].control, n);
    } else {
      OneTaskPerRound(first, path, a, b - 1, n);
      PathStep(first, path, b - 1);
      PointAgrees(first, path, b - 1);
      assert !EndsAt(first, path, b - 1, n);
      RoundStep(first, path[b - 1], path[b], n, Exec(first, path[b - 1].trace).value);
    }
  }

  lemma Beginning(control: seq<Frame>, n: nat)
    requires |control| == n + 1 && control[n] == One
    ensures InRound(control, n) && Stage(control, n) == 0
  {}

  /** A round that returns without having made a call: with an error, or after a task for a lost IO. */
  lemma RoundWithoutCall(first: LoopState, p: Point, q: Point, n: nat, s: LoopState)
    requires Follows(first, p, q) && Exec(first, p.trace) == Some(s)
    requires |p.control| == n + 1 && Stage(p.control, n) == 0 && Returns(p, q, s)
    ensures if s.scheduled != [] && p.control[n] == One then q.result == Done
            else if p.control[n] == One then q.result == Fail(Empty)
            else q.result == Fail(IoError) || q.result == Fail(NixError)
  {
    hide Exec, IsRequest, Wanted, Carried, Resume, LiveOnTop, WokeBy, CutBy;
    if Last(p.control).Polling? {
      var m, o :| Took(p, q, m) && FitsIn(Polling, s, m) && PollIs(first, p.trace, q.trace, m.result, o)
                  && (q.control, q.result) == AfterPoll(Below(p.control), o, Exec(first, q.trace).value);
    }
  }

  // ----- Stopping -----

  /** The `run`s in progress. */
  ghost function RunsIn(control: seq<Frame>): nat {
    if control == [] then 0 else RunsIn(Below(control)) + if Last(control).Running? then 1 else 0
  }

  lemma RunsPush(control: seq<Frame>, f: Frame)
    ensures RunsIn(control + [f]) == RunsIn(control) + if f.Running? then 1 else 0
  {
    Tops(control, f);
  }

  lemma RunsPushTwo(control: seq<Frame>, f: Frame, g: Frame)
    requires !f.Running? && !g.Running?
    ensures RunsIn(control + [f, g]) == RunsIn(control)
  {
    RunsPush(control, f);
    RunsPush(control + [f], g);
    assert control + [f] + [g] == control + [f, g];
  }

  lemma RunsResume(control: seq<Frame>, o: Outcome, s: LoopState)
    ensures RunsIn(Resume(control, o, s)) <= RunsIn(control)
    ensures control != [] && Last(control).Running? && !s.active ==> Resume(control, o, s) == Below(control)
  {
    RunsPush(control, One);
  }

  /** No `run` was asked for. */
  ghost predicate NoRun(acts: seq<Action>) {
    SetActive(true) !in acts
  }

  lemma {:induction false} OffStays(t: seq<Action>, acts: seq<Action>, initially: bool)
    requires !LastSet(t, initially) && NoRun(acts)
    ensures !LastSet(t + acts, initially)
    decreases |acts|
  {
    if acts == [] {
      assert t + acts == t;
    } else {
      var n := |acts| - 1;
      OffStays(t, acts[..n], initially);
      assert (t + acts)[..|t| + n] == t + acts[..n];
      assert acts[n] in acts;
    }
  }

  lemma OffAfter(first: LoopState, t: seq<Action>, acts: seq<Action>)
    requires Exec(first, t).Some? && Exec(first, t + acts).Some? && NoRun(acts)
    requires !Exec(first, t).value.active
    ensures !Exec(first, t + acts).value.active
  {
    hide Exec, LastSet;
    OneFlagForAllRuns(first, t);
    OneFlagForAllRuns(first, t + acts);
    OffStays(t, acts, first.active);
  }

  lemma GatheredNoRun(acts: seq<Action>)
    requires NoneAsked(acts)
    ensures NoRun(acts)
  {}

  /** The actions of a step, of which none starts a `run` unless a move asks for it. */
  lemma StepActions(first: LoopState, p: Point, q: Point) returns (acts: seq<Action>)
    requires Follows(first, p, q) && (forall m | Took(p, q, m) :: !m.DoRun?)
    ensures q.trace == p.trace + acts && NoRun(acts)
  {
    hide Exec, PollIs, IsRequest, Wanted, Carried, AfterRequest, AfterEnter, AfterPop, AfterDrain, AfterPoll, Resume;
    match Last(p.control) {
      case Body(scoped) =>
        var m :| Took(p, q, m) && Carried(p.trace, q.trace, Wanted(m));
        acts := RequestActions(p.trace, q.trace, m);
      case Handling => acts := [];
      case Polling =>
        var m, o :| Took(p, q, m) && FitsIn(Polling, Exec(first, p.trace).value, m)
                    && PollIs(first, p.trace, q.trace, m.result, o);
        acts := PollActions(first, p.trace, q.trace, m, o);
      case Calling => acts := [Enter];
      case One => acts := q.trace[|p.trace|..];
      case _ => acts := [];
    }
  }

  lemma RequestActions(t: seq<Action>, t': seq<Action>, m: Move) returns (acts: seq<Action>)
    requires Carried(t, t', Wanted(m)) && !m.DoRun?
    ensures t' == t + acts && NoRun(acts)
  {
    acts := t'[|t|..];
    forall k | 0 <= k < |acts| ensures acts[k] != SetActive(true) {
      assert Asked(t'[|t| + k]) == [Wanted(m)[k]];
    }
  }

  lemma PollActions(first: LoopState, t: seq<Action>, t': seq<Action>, m: Move, o: Outcome) returns (acts: seq<Action>)
    requires m.Poll? && PollIs(first, t, t', m.result, o)
    ensures t' == t + acts && NoRun(acts)
  {
    hide PollIs, NoneAsked;
    var before, after := PollShape(first, t, t', m, o);
    GatheredNoRun(before);
    GatheredNoRun(after);
    acts := if m.result.Woken? then before + [Tick(m.result.now)] + after else before;
    assert t' == t + acts;
  }

  /** The step from `p` to `q` while nobody wants to run. */
  ghost predicate Winding(p: Point, q: Point, s: LoopState, s': LoopState)
    requires p.control != []
  {
    && !s'.active
    && RunsIn(q.control) <= RunsIn(p.control)
    && (Returns(p, q, s) && Below(p.control) != [] && Last(Below(p.control)).Running? ==>
          q.control == Below(Below(p.control)))
  }

  ghost predicate WindsAt(first: LoopState, path: seq<Point>, c: nat) {
    && c + 1 < |path| && path[c].control != []
    && Exec(first, path[c].trace).Some? && Exec(first, path[c + 1].trace).Some?
    && Winding(path[c], path[c + 1], Exec(first, path[c].trace).value, Exec(first, path[c + 1].trace).value)
  }

  lemma StoppedStep(first: LoopState, p: Point, q: Point, s: LoopState, s': LoopState)
    requires Follows(first, p, q) && Exec(first, p.trace) == Some(s) && Exec(first, q.trace) == Some(s')
    requires !s.active && (forall m | Took(p, q, m) :: !m.DoRun?)
    ensures Winding(p, q, s, s')
  {
    hide Exec, Follows, RunsIn, Resume, Returns;
    var acts := StepActions(first, p, q);
    OffAfter(first, p.trace, acts);
    RunsShrink(first, p, q, s, s');
    if Returns(p, q, s) {
      ReturnsResume(first, p, q, s, s');
      RunsResume(Below(p.control), q.result, s');
    }
  }

  lemma RunsShrink(first: LoopState, p: Point, q: Point, s: LoopState, s': LoopState)
    requires Follows(first, p, q) && Exec(first, p.trace) == Some(s) && Exec(first, q.trace) == Some(s')
    requires forall m | Took(p, q, m) :: !m.DoRun?
    ensures p.control != [] && RunsIn(q.control) <= RunsIn(p.control)
  {
    hide Exec, PollIs, IsRequest, Wanted, Carried, Resume, RunsIn, MsgTypeCheck;
    var c := p.control;
    var below := Below(c);
    assert c == below + [Last(c)];
    RunsPush(below, Last(c));
    RunsResume(below, q.result, s');
    RunsPush(c, Calling);
    RunsPush(c, One);
    RunsPush(below, Handling);
    RunsPush(below, Calling);
    RunsPush(below, Polling);
    RunsPush(below, One);
    RunsPush(below, Body(true));
    if Last(c).Body? {
      var m := RequestRead(first, p, q, s, s');
      if m.DoRunUntilComplete? { RunsPushTwo(c, Until(m.handle), One); }
    }
  }

  /**
   A stop ends every `run` in progress, not the innermost alone: from a point on where the flag is off,
   until somebody asks for another `run`, it stays off, no `run` is added, and each `run` ends when its
   round returns, whatever that round returned.
   */
  lemma {:induction false} StopEndsRuns(first: LoopState, path: seq<Point>, a: nat, b: nat)
    requires Path(first, path) && a <= b < |path|
    requires Exec(first, path[a].trace).Some? && !Exec(first, path[a].trace).value.active
    requires forall c, m | a <= c < b && Took(path[c], path[c + 1], m) :: !m.DoRun?
    ensures Exec(first, path[b].trace).Some? && !Exec(first, path[b].trace).value.active
    ensures RunsIn(path[b].control) <= RunsIn(path[a].control)
    ensures forall c | a <= c < b :: WindsAt(first, path, c)
    decreases b
  {
    hide Exec, Path, Follows, RunsIn, Returns;
    if a < b {
      StopEndsRuns(first, path, a, b - 1);
      PathStep(first, path, b - 1);
      StoppedStep(first, path[b - 1], path[b], Exec(first, path[b - 1].trace).value, Exec(first, path[b].trace).value);
    }
  }
}
