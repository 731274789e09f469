/**
 Two paths of a fresh loop: one stop ends two `run`s, the inner and the outer one; and a nested `run_one`
 uses up a task and answers Busy.
 */
module NestedRuns {
  import opened Wrappers
  import opened EventLoop
  import opened Invariants
  import opened Moves
  import opened Control

  // ----- Going along a path, step by step -----

  /** The path leads to these frames and this state. */
  ghost predicate Leads(first: LoopState, path: seq<Point>, control: seq<Frame>, s: LoopState) {
    && path != [] && Path(first, path) && path[|path| - 1].control == control
    && Exec(first, path[|path| - 1].trace) == Some(s)
  }

  /** One more step, in which this move was read, if any. */
  ghost predicate Extends(path: seq<Point>, path': seq<Point>, read: seq<Move>) {
    && path != [] && |path'| == |path| + 1 && path <= path'
    && path'[|path|].taken == path[|path| - 1].taken + read
  }

  lemma Goes1(first: LoopState, path: seq<Point>, q: Point, s': LoopState) returns (path': seq<Point>)
    requires Path(first, path) && Follows(first, path[|path| - 1], q) && Exec(first, q.trace) == Some(s')
    ensures Leads(first, path', q.control, s') && path' == path + [q]
  {
    hide Follows;
    path' := path + [q];
    PathOneMore(first, path, q);
  }

  /** A request of one action. */
  lemma Asked1(first: LoopState, path: seq<Point>, control: seq<Frame>, scoped: bool, s: LoopState, m: Move, a: Action)
    returns (path': seq<Point>)
    requires Leads(first, path, control, s) && control != [] && Last(control) == Body(scoped)
    requires IsRequest(scoped, |s.enabled|, s.sigchld, m) && Step(s, a) && Wanted(m) == Asked(a) && |Asked(a)| == 1
    ensures Leads(first, path', AfterRequest(control, s, Apply(s, a), m).0, Apply(s, a)) && Extends(path, path', [m])
  {
    hide Exec, Path, Follows, Step, Apply, AfterRequest, Wanted, Asked, IsRequest, Carried;
    var p := path[|path| - 1];
    var s' := Apply(s, a);
    ExecOneMore(first, p.trace, a);
    CarriedOne(p.trace, a, m);
    var (after, o) := AfterRequest(control, s, s', m);
    var q := Point(after, p.trace + [a], p.taken + [m], o);
    RequestFollows(first, p, q, m, scoped, s, s');
    path' := Goes1(first, path, q, s');
  }

  lemma Entered1(first: LoopState, path: seq<Point>, below: seq<Frame>, s: LoopState) returns (path': seq<Point>)
    requires Leads(first, path, below + [Calling], s) && Step(s, Enter)
    ensures s.pending.Some?
    ensures Leads(first, path', AfterEnter(below, s, Apply(s, Enter)).0, Apply(s, Enter)) && Extends(path, path', [])
    ensures path'[|path'| - 1].result == AfterEnter(below, s, Apply(s, Enter)).1
  {
    hide Exec, Path, Follows, Apply, AfterEnter;
    var p := path[|path| - 1];
    ExecOneMore(first, p.trace, Enter);
    var (after, o) := AfterEnter(below, s, Apply(s, Enter));
    var q := Point(after, p.trace + [Enter], p.taken, o);
    EnterFollows(first, below, p, q, s, Apply(s, Enter));
    path' := Goes1(first, path, q, Apply(s, Enter));
  }

  lemma Popped1(first: LoopState, path: seq<Point>, below: seq<Frame>, s: LoopState) returns (path': seq<Point>)
    requires Leads(first, path, below + [One], s) && Step(s, Pop)
    ensures s.scheduled != []
    ensures Leads(first, path', AfterPop(below, s, Apply(s, Pop)).0, Apply(s, Pop)) && Extends(path, path', [])
  {
    hide Exec, Path, Follows, Apply, AfterPop;
    var p := path[|path| - 1];
    ExecOneMore(first, p.trace, Pop);
    var (after, o) := AfterPop(below, s, Apply(s, Pop));
    var q := Point(after, p.trace + [Pop], p.taken, o);
    PopFollows(first, below, p, q, s, Apply(s, Pop));
    path' := Goes1(first, path, q, Apply(s, Pop));
  }

  // ----- Two events, each with a message in the queue -----

  const TP: MsgType := 7

  ghost function Idler(i: nat, stolen: bool): EvHolder {
    EvHolder(stolen, i, 0, map[], {TP}, {})
  }

  ghost function Greeting(i: nat): Task {
    Task(Handle(i, i), Msg(Message(0, TP, Sent(None))))
  }

  /** What matters of the state: the events, their messages, the frames and the flag. */
  ghost predicate Looks(s: LoopState, events: map<nat, EvHolder>, n: nat, scheduled: seq<Task>, stack: seq<Handle>, active: bool) {
    && s.pending.None? && s.events == events && s.generation == n && s.scheduled == scheduled && s.stack == stack
    && s.active == active
  }

  // The states

  lemma InsertLooks(s: LoopState, events: map<nat, EvHolder>, i: nat, q: seq<Task>) returns (s': LoopState)
    requires Looks(s, events, i, q, [], false) && i !in events
    ensures Step(s, Insert(i)) && s' == Apply(s, Insert(i)) && s'.pending == Some(Call(Handle(i, i), Init))
    ensures Looks(s'.(pending := None), events[i := Fresh(i)], i + 1, q, [], false)
  {
    s' := InsertEvent(s, i);
  }

  lemma EnterLooks(s: LoopState, events: map<nat, EvHolder>, n: nat, q: seq<Task>, stack: seq<Handle>, active: bool)
    returns (s': LoopState)
    requires s.pending.Some? && Looks(s.(pending := None), events, n, q, stack, active)
    requires var h := s.pending.value.target; Alive(events, h) && !events[h.id].stolen
    ensures Step(s, Enter) && s' == Apply(s, Enter)
    ensures var h := s.pending.value.target;
            Looks(s', events[h.id := events[h.id].(stolen := true)], n, q, stack + [h], active)
  {
    s' := EnterCall(s);
  }

  lemma PopLooks(s: LoopState, events: map<nat, EvHolder>, n: nat, t: Task, rest: seq<Task>, stack: seq<Handle>, active: bool)
    returns (s': LoopState)
    requires Looks(s, events, n, [t] + rest, stack, active) && Alive(events, t.recipient) && t.param.Msg?
    ensures Step(s, Pop) && s' == Apply(s, Pop) && s'.pending == Some(Call(t.recipient, Dispatched(t)))
    ensures Looks(s'.(pending := None), events, n, rest, stack, active)
  {
    assert ([t] + rest)[1..] == rest;
    s' := PopTask(s);
  }

  lemma LeaveLooks(s: LoopState, events: map<nat, EvHolder>, n: nat, q: seq<Task>, stack: seq<Handle>, h: Handle, active: bool)
    returns (s': LoopState)
    requires Looks(s, events, n, q, stack + [h], active) && Alive(events, h)
    ensures Step(s, Leave(Keep)) && s' == Apply(s, Leave(Keep))
    ensures Looks(s', events[h.id := events[h.id].(stolen := false)], n, q, stack, active)
  {
    assert Top(s) == h && (stack + [h])[..|stack|] == stack;
    s' := LeaveCall(s, Keep);
  }

  lemma ExpectLooks(s: LoopState, events: map<nat, EvHolder>, n: nat, q: seq<Task>, h: Handle) returns (s': LoopState)
    requires Looks(s, events, n, q, [h], false) && Alive(events, h)
    ensures Step(s, Expect(TP)) && s' == Apply(s, Expect(TP))
    ensures Looks(s', events[h.id := events[h.id].(expected := events[h.id].expected + {TP})], n, q, [h], false)
  {
    assert Top(s) == h;
    s' := ExpectType(s, TP);
  }

  lemma SendLooks(s: LoopState, events: map<nat, EvHolder>, n: nat, q: seq<Task>, i: nat) returns (s': LoopState)
    requires Looks(s, events, n, q, [], false) && i in events && events[i] == Idler(i, false)
    ensures Step(s, SendTo(Handle(i, i), 0, TP)) && s' == Apply(s, SendTo(Handle(i, i), 0, TP))
    ensures Looks(s', events, n, q + [Greeting(i)], [], false)
  {
    s' := SendMessage(s, Handle(i, i), 0, TP);
  }

  lemma FlagLooks(s: LoopState, events: map<nat, EvHolder>, n: nat, q: seq<Task>, stack: seq<Handle>, active: bool, on: bool)
    returns (s': LoopState)
    requires Looks(s, events, n, q, stack, active)
    ensures Step(s, SetActive(on)) && s' == Apply(s, SetActive(on)) && Looks(s', events, n, q, stack, on)
  {
    s' := s.(active := on);
  }

  // The path

  ghost predicate Free(events: map<nat, EvHolder>, h: Handle) {
    Alive(events, h) && !events[h.id].stolen
  }

  lemma InsertedNew(first: LoopState, path: seq<Point>, s: LoopState, events: map<nat, EvHolder>, i: nat, q: seq<Task>)
    returns (path': seq<Point>, s': LoopState)
    requires Leads(first, path, [Body(false)], s) && Looks(s, events, i, q, [], false) && i !in events
    ensures Leads(first, path', [Body(false)] + [Body(true)], s')
    ensures Looks(s', events[i := Fresh(i).(stolen := true)], i + 1, q, [] + [Handle(i, i)], false)
  {
    hide Exec, Path, Step, Apply, Looks, Leads;
    var b, e := [Body(false)], events[i := Fresh(i)];
    var s1 := InsertLooks(s, events, i, q);
    var path1 := Asked1(first, path, b, false, s, DoInsert, Insert(i));
    s' := EnterLooks(s1, e, i + 1, q, [], false);
    path' := Entered1(first, path1, b, s1);
    Entering(b, s1, s', e, i + 1, q, [], false);
    assert e[i := Fresh(i).(stolen := true)] == events[i := Fresh(i).(stolen := true)];
  }

  lemma Expecting(first: LoopState, path: seq<Point>, s: LoopState, events: map<nat, EvHolder>, i: nat, q: seq<Task>)
    returns (path': seq<Point>, s': LoopState)
    requires Leads(first, path, [Body(false)] + [Body(true)], s)
    requires Looks(s, events[i := Fresh(i).(stolen := true)], i + 1, q, [] + [Handle(i, i)], false)
    ensures Leads(first, path', [Body(false)] + [Body(true)], s')
    ensures Looks(s', events[i := Idler(i, true)], i + 1, q, [] + [Handle(i, i)], false)
  {
    hide Exec, Path, Step, Apply, Looks, Leads;
    var e := events[i := Fresh(i).(stolen := true)];
    assert [] + [Handle(i, i)] == [Handle(i, i)];
    s' := ExpectLooks(s, e, i + 1, q, Handle(i, i));
    path' := Asked1(first, path, [Body(false)] + [Body(true)], true, s, DoExpect(TP), Expect(TP));
    assert {} + {TP} == {TP};
    assert e[i := Idler(i, true)] == events[i := Idler(i, true)];
  }

  /** A callback returns, and its caller goes on. */
  lemma Left(first: LoopState, path: seq<Point>, below: seq<Frame>, s: LoopState, events: map<nat, EvHolder>, n: nat,
             q: seq<Task>, stack: seq<Handle>, h: Handle, active: bool)
    returns (path': seq<Point>, s': LoopState)
    requires Leads(first, path, below + [Body(true)], s) && Looks(s, events, n, q, stack + [h], active) && Alive(events, h)
    ensures Looks(s', events[h.id := events[h.id].(stolen := false)], n, q, stack, active)
    ensures Leads(first, path', Resume(below, Done, s'), s') && Extends(path, path', [Return(Keep)])
  {
    hide Exec, Path, Step, Apply, Looks, Leads, Resume, Extends;
    s' := LeaveLooks(s, events, n, q, stack, h, active);
    Tops(below, Body(true));
    path' := Asked1(first, path, below + [Body(true)], true, s, Return(Keep), Leave(Keep));
  }

  lemma Greeted(first: LoopState, path: seq<Point>, s: LoopState, events: map<nat, EvHolder>, i: nat, q: seq<Task>)
    returns (path': seq<Point>, s': LoopState)
    requires Leads(first, path, [Body(false)], s) && Looks(s, events, i + 1, q, [], false)
    requires i in events && events[i] == Idler(i, false)
    ensures Leads(first, path', [Body(false)], s') && Looks(s', events, i + 1, q + [Greeting(i)], [], false)
  {
    hide Exec, Path, Step, Apply, Looks, Leads, Extends;
    s' := SendLooks(s, events, i + 1, q, i);
    path' := Asked1(first, path, [Body(false)], false, s, DoSend(Handle(i, i), 0, TP), SendTo(Handle(i, i), 0, TP));
  }

  /** Insert an event which expects messages, and send it one. */
  lemma Prepared(first: LoopState, path: seq<Point>, s: LoopState, events: map<nat, EvHolder>, i: nat, q: seq<Task>)
    returns (path': seq<Point>, s': LoopState)
    requires Leads(first, path, [Body(false)], s) && Looks(s, events, i, q, [], false) && i !in events
    ensures Leads(first, path', [Body(false)], s')
    ensures Looks(s', events[i := Idler(i, false)], i + 1, q + [Greeting(i)], [], false)
  {
    hide Exec, Looks, Leads, Extends;
    var s1, s2, s3;
    path', s1 := InsertedNew(first, path, s, events, i, q);
    path', s2 := Expecting(first, path', s1, events, i, q);
    path', s3 := Left(first, path', [Body(false)], s2, events[i := Idler(i, true)], i + 1, q, [], Handle(i, i), false);
    ResumeBody([Body(false)], Done, s3);
    assert events[i := Idler(i, true)][i := Idler(i, false)] == events[i := Idler(i, false)];
    path', s' := Greeted(first, path', s3, events[i := Idler(i, false)], i, q);
  }

  // The two runs

  /** A `run` starts, and its first round gets into the callback of the next message. */
  lemma Running1(first: LoopState, path: seq<Point>, control: seq<Frame>, scoped: bool, s: LoopState,
                 events: map<nat, EvHolder>, n: nat, t: Task, rest: seq<Task>, stack: seq<Handle>, active: bool)
    returns (path': seq<Point>, s': LoopState)
    requires Leads(first, path, control, s) && control != [] && Last(control) == Body(scoped)
    requires Looks(s, events, n, [t] + rest, stack, active) && t.param.Msg? && Free(events, t.recipient)
    ensures Leads(first, path', control + [Running] + [Body(true)], s')
    ensures var i := t.recipient.id;
            Looks(s', events[i := events[i].(stolen := true)], n, rest, stack + [t.recipient], true)
  {
    hide Exec, Path, Step, Apply, Looks, Leads, Extends, Goes;
    var below := control + [Running];
    var s1 := FlagLooks(s, events, n, [t] + rest, stack, active, true);
    var path1 := Asked1(first, path, control, scoped, s, DoRun, SetActive(true));
    assert control + [Running, One] == below + [One];
    var s2 := PopLooks(s1, events, n, t, rest, stack, true);
    var path2 := Popped1(first, path1, below, s1);
    Popping(below, s1, s2, events, n, t, rest, stack, true);
    s' := EnterLooks(s2, events, n, rest, stack, true);
    path' := Entered1(first, path2, below, s2);
    Entering(below, s2, s', events, n, rest, stack, true);
  }

  lemma Popping(below: seq<Frame>, s: LoopState, s': LoopState, events: map<nat, EvHolder>, n: nat, t: Task,
                rest: seq<Task>, stack: seq<Handle>, active: bool)
    requires Looks(s, events, n, [t] + rest, stack, active) && Alive(events, t.recipient) && t.param.Msg?
    ensures AfterPop(below, s, s') == (below + [Calling], Done)
  {}

  ghost predicate StopsBoth(path: seq<Point>, a: nat) {
    && |path| == a + 4
    && path[a].control == [Body(false), Running, Body(true), Running, Body(true)]
    && path[a + 3].taken == path[a].taken + [DoStop, Return(Keep), Return(Keep)]
    && path[a + 3].control == [Body(false)]
  }

  lemma Stopped1(first: LoopState, path: seq<Point>, control: seq<Frame>, s: LoopState, events: map<nat, EvHolder>,
                 n: nat, q: seq<Task>, stack: seq<Handle>)
    returns (path': seq<Point>, s': LoopState)
    requires Leads(first, path, control + [Body(true)], s) && Looks(s, events, n, q, stack, true)
    ensures Leads(first, path', control + [Body(true)], s') && Looks(s', events, n, q, stack, false)
    ensures Extends(path, path', [DoStop])
  {
    hide Exec, Path, Step, Apply, Looks, Leads, Extends;
    Tops(control, Body(true));
    s' := FlagLooks(s, events, n, q, stack, true, false);
    path' := Asked1(first, path, control + [Body(true)], true, s, DoStop, SetActive(false));
  }

  lemma NotActive(control: seq<Frame>, s: LoopState, events: map<nat, EvHolder>, n: nat, q: seq<Task>, stack: seq<Handle>)
    requires Looks(s, events, n, q, stack, false)
    ensures Resume(control + [Running], Done, s) == control
  {
    ResumeRunning(control, Done, s);
  }

  /**
   A path of a fresh loop, with events 0 and 1 that each have a message. The owner runs the loop; the
   callback of event 0 runs it again; the callback of event 1 stops. When the two callbacks have returned,
   without another round of either, both `run`s are over.
   */
  lemma StopEndsTwoRuns(policy: RemovePolicy)
    ensures exists path, a :: Path(Start(policy, 1, 0, 0), path) && StopsBoth(path, a)
  {
    hide Exec, Path, Looks, Leads, Extends, Start;
    var first := Start(policy, 1, 0, 0);
    var h, g := Handle(0, 0), Handle(1, 1);
    var e0 := map[][0 := Idler(0, false)];
    var e := e0[1 := Idler(1, false)];
    var path := Beginning(first, policy);
    var s;
    path, s := Prepared(first, path, first, map[], 0, []);
    path, s := Prepared(first, path, s, e0, 1, [] + [Greeting(0)]);
    assert [] + [Greeting(0)] + [Greeting(1)] == [Greeting(0)] + [Greeting(1)];
    var c0 := [Body(false)];
    path, s := Running1(first, path, c0, false, s, e, 2, Greeting(0), [Greeting(1)], [], false);
    var c1 := c0 + [Running] + [Body(true)];
    var e1 := e[0 := Idler(0, true)];
    assert [Greeting(1)] == [Greeting(1)] + [];
    path, s := Running1(first, path, c1, true, s, e1, 2, Greeting(1), [], [] + [h], true);
    path := Ending(first, path, s, e1[1 := Idler(1, true)]);
  }

  lemma Beginning(first: LoopState, policy: RemovePolicy) returns (path: seq<Point>)
    requires first == Start(policy, 1, 0, 0)
    ensures Leads(first, path, [Body(false)], first) && Looks(first, map[], 0, [], [], false)
  {
    path := [Point([Body(false)], [], [], Done)];
  }

  lemma Ending(first: LoopState, path: seq<Point>, s: LoopState, events: map<nat, EvHolder>) returns (path': seq<Point>)
    requires Leads(first, path, [Body(false)] + [Running] + [Body(true)] + [Running] + [Body(true)], s)
    requires Looks(s, events, 2, [], [] + [Handle(0, 0)] + [Handle(1, 1)], true)
    requires Alive(events, Handle(0, 0)) && Alive(events, Handle(1, 1))
    ensures Path(first, path') && |path'| >= 4 && StopsBoth(path', |path'| - 4)
  {
    hide Exec, Path, Looks, Resume, Start;
    var c0, h, g := [Body(false)], Handle(0, 0), Handle(1, 1);
    var c1 := c0 + [Running] + [Body(true)];
    var path1, s1 := Stopped1(first, path, c1 + [Running], s, events, 2, [], [] + [h] + [g]);
    var path2, s2 := Left(first, path1, c1 + [Running], s1, events, 2, [], [] + [h], g, false);
    var e2 := events[1 := events[1].(stolen := false)];
    NotActive(c1, s2, e2, 2, [], [] + [h]);
    var path3, s3 := Left(first, path2, c0 + [Running], s2, e2, 2, [], [], h, false);
    NotActive(c0, s3, e2[0 := e2[0].(stolen := false)], 2, [], []);
    path' := path3;
    var a := |path| - 1;
    assert path3[a] == path[a];
    assert path[a].control == [Body(false), Running, Body(true), Running, Body(true)];
    assert path3[a + 1] == path1[a + 1] && path3[a + 2] == path2[a + 2];
    assert path3[a + 3].taken == path[a].taken + [DoStop] + [Return(Keep)] + [Return(Keep)];
  }

  lemma Entering(below: seq<Frame>, s: LoopState, s': LoopState, events: map<nat, EvHolder>, n: nat, q: seq<Task>,
                 stack: seq<Handle>, active: bool)
    requires s.pending.Some? && Looks(s.(pending := None), events, n, q, stack, active)
    requires var h := s.pending.value.target; Alive(events, h) && !events[h.id].stolen
    ensures AfterEnter(below, s, s') == (below + [Body(true)], Done)
  {}

  // ----- A busy recipient -----

  /** A callback sends a message to its own event. */
  lemma ToItself(first: LoopState, path: seq<Point>, s: LoopState, events: map<nat, EvHolder>)
    returns (path': seq<Point>, s': LoopState)
    requires Leads(first, path, [Body(false)] + [Body(true)], s)
    requires Looks(s, events, 1, [], [] + [Handle(0, 0)], false) && 0 in events && events[0] == Idler(0, true)
    ensures Leads(first, path', [Body(false)] + [Body(true)], s') && s'.log == s.log
    ensures Looks(s', events, 1, [ToSelf()] + [], [] + [Handle(0, 0)], false)
  {
    s' := SendMessage(s, Handle(0, 0), 0, TP);
    assert Step(s, SendTo(Handle(0, 0), 0, TP)) && s' == Apply(s, SendTo(Handle(0, 0), 0, TP));
    assert s'.scheduled == [] + [ToSelf()];
    hide Exec, Path, Step, Apply, Looks, Leads, Extends;
    path' := Asked1(first, path, [Body(false)] + [Body(true)], true, s, DoSend(Handle(0, 0), 0, TP), SendTo(Handle(0, 0), 0, TP));
  }

  ghost function ToSelf(): Task {
    Task(Handle(0, 0), Msg(Message(0, TP, Sent(Some(Handle(0, 0))))))
  }

  lemma Refused(s: LoopState, events: map<nat, EvHolder>, t: Task, stack: seq<Handle>) returns (s': LoopState)
    requires s.pending == Some(Call(t.recipient, Dispatched(t))) && s.events == events
    requires Alive(events, t.recipient) && events[t.recipient.id].stolen
    ensures Step(s, Enter) && s' == Apply(s, Enter) && s'.log == s.log + [Handled(t, WasBusy)]
    ensures forall below :: AfterEnter(below, s, s') == (Resume(below, Fail(Busy), s'), Fail(Busy))
  {
    s' := EnterCall(s);
  }

  /** A call of `run_one` as a request. */
  lemma AskedOne(first: LoopState, path: seq<Point>, control: seq<Frame>, scoped: bool, s: LoopState)
    returns (path': seq<Point>)
    requires Leads(first, path, control, s) && control != [] && Last(control) == Body(scoped)
    ensures Leads(first, path', control + [One], s) && Extends(path, path', [DoRunOne])
  {
    hide Exec, Path, Follows, Carried;
    var p := path[|path| - 1];
    CarriedNone(p.trace, DoRunOne);
    var q := Point(control + [One], p.trace, p.taken + [DoRunOne], Done);
    RequestFollows(first, p, q, DoRunOne, scoped, s, s);
    path' := Goes1(first, path, q, s);
  }

  /** The end of such a path: the task is settled, without a callback, and `run_one` answered Busy. */
  ghost predicate AnsweredBusy(first: LoopState, path: seq<Point>) {
    && Path(first, path) && path != [] && path[|path| - 1].result == Fail(Busy)
    && path[|path| - 1].control == [Body(false), Body(true)]
    && path[|path| - 1].taken != [] && path[|path| - 1].taken[|path[|path| - 1].taken| - 1] == DoRunOne
    && Exec(first, path[|path| - 1].trace).Some?
    && var log := Exec(first, path[|path| - 1].trace).value.log;
       log != [] && log[|log| - 1] == Handled(ToSelf(), WasBusy)
  }

  /** A callback that sends a message to its own event and lets the loop run loses that message. */
  lemma BusyUsesUpTask(policy: RemovePolicy)
    ensures exists path :: AnsweredBusy(Start(policy, 1, 0, 0), path)
  {
    hide Exec, Path, Looks, Start, Step, Apply, Resume, AfterEnter, Goes, ToSelf;
    var first := Start(policy, 1, 0, 0);
    var h := Handle(0, 0);
    var c := [Body(false)] + [Body(true)];
    var path := Beginning(first, policy);
    var s;
    path, s := InsertedNew(first, path, first, map[], 0, []);
    path, s := Expecting(first, path, s, map[], 0, []);
    var e := map[][0 := Idler(0, true)];
    path, s := ToItself(first, path, s, e);
    path := AskedOne(first, path, c, true, s);
    SelfTask();
    var s1 := PopLooks(s, e, 1, ToSelf(), [], [] + [h], false);
    var path1 := Popped1(first, path, c, s);
    Popping(c, s, s1, e, 1, ToSelf(), [], [] + [h], false);
    SameEvents(s1, e, 1, [], [] + [h], false);
    var s2 := Refused(s1, e, ToSelf(), [] + [h]);
    path := Entered1(first, path1, c, s1);
    Tops([Body(false)], Body(true));
    ResumeBody(c, Fail(Busy), s2);
    assert AnsweredBusy(first, path);
  }

  lemma SelfTask()
    ensures ToSelf().recipient == Handle(0, 0) && ToSelf().param.Msg?
  {}

  lemma SameEvents(s: LoopState, events: map<nat, EvHolder>, n: nat, q: seq<Task>, stack: seq<Handle>, active: bool)
    requires Looks(s.(pending := None), events, n, q, stack, active)
    ensures s.events == events
  {}
}
