/** Two runs of the code as written in which an IO callback is entered for the wrong registration. */
module WrongCallbacks {
  import opened Wrappers
  import opened EventLoop
  import opened Invariants
  import opened Steps
  import opened Runs
  import opened IoRelease

  // ----- A callback for the wrong registration -----

  /**
   A run of a fresh loop. One event registers two IOs and both are reported as ready, the second first.
   In the callback for it the event removes the first IO and registers another one; then the readiness
   of the IO that was removed is dispatched.
   */
  const WRONG_DELIVERY: seq<Action> :=
    [Insert(0), Enter, IoRegister(0), IoRegister(1), Leave(Keep),
     Drain, Ready(Handle(0, 0), 1, 0), Ready(Handle(0, 0), 0, 0),
     Pop, Enter, IoRemove(2), IoRegister(0), Leave(Keep), Pop, Enter]

  /** The event of the run, its IOs, and the frames. */
  ghost predicate TwoIos(s: LoopState, first: nat, stack: seq<Handle>, scheduled: seq<Task>) {
    var h := Handle(0, 0);
    && s.policy.AsWritten? && s.stack == stack && s.scheduled == scheduled && s.pending.None?
    && Alive(s.events, h) && s.events[0].stolen == (stack != []) && s.events[0].ios == map[0 := first, 1 := 1]
    && s.ios == map[0 := h, 1 := h] && s.registrations == if first == 0 then 2 else 3
  }

  ghost function ReadyTask(k: nat): Task {
    Task(Handle(0, 0), Io(k + TOKEN_SHIFT, 0, k))
  }

  lemma TwoRegistered(s: LoopState) returns (s': LoopState)
    requires InInit(s) && s.policy.AsWritten?
    ensures Step(s, IoRegister(0)) && Step(Apply(s, IoRegister(0)), IoRegister(1))
    ensures s' == Apply(Apply(s, IoRegister(0)), IoRegister(1))
    ensures TwoIos(s', 0, [Handle(0, 0)], []) && s'.iosReleased == {}
  {
    assert Top(s) == Handle(0, 0);
    var s1 := RegisterIo(s, 0);
    assert Top(s1) == Handle(0, 0) && s1.ios == map[0 := Handle(0, 0)] && s1.events[0].ios == map[0 := 0];
    s' := RegisterIo(s1, 1);
  }

  lemma Gathering(s: LoopState) returns (s': LoopState)
    requires TwoIos(s, 0, [Handle(0, 0)], []) && s.iosReleased == {}
    ensures Step(s, Leave(Keep)) && Step(Apply(s, Leave(Keep)), Drain)
    ensures s' == Apply(Apply(s, Leave(Keep)), Drain) && TwoIos(s', 0, [], [])
  {
    assert Top(s) == Handle(0, 0);
    s' := DrainReleased(LeaveCall(s, Keep));
    assert s'.stack == [] && s'.ios == s.ios;
  }

  lemma OneReady(s: LoopState, k: nat, scheduled: seq<Task>) returns (s': LoopState)
    requires TwoIos(s, 0, [], scheduled) && k < 2
    ensures Step(s, Ready(Handle(0, 0), k, 0)) && s' == Apply(s, Ready(Handle(0, 0), k, 0))
    ensures TwoIos(s', 0, [], scheduled + [ReadyTask(k)])
  {
    s' := QueueReady(s, Handle(0, 0), k, 0);
  }

  lemma TwoReady(s: LoopState) returns (s': LoopState)
    requires TwoIos(s, 0, [], [])
    ensures Step(s, Ready(Handle(0, 0), 1, 0))
    ensures Step(Apply(s, Ready(Handle(0, 0), 1, 0)), Ready(Handle(0, 0), 0, 0))
    ensures s' == Apply(Apply(s, Ready(Handle(0, 0), 1, 0)), Ready(Handle(0, 0), 0, 0))
    ensures TwoIos(s', 0, [], [ReadyTask(1), ReadyTask(0)])
  {
    hide Step, Apply, TwoIos, ReadyTask;
    var s1 := OneReady(s, 1, []);
    s' := OneReady(s1, 0, [] + [ReadyTask(1)]);
    assert [] + [ReadyTask(1)] + [ReadyTask(0)] == [ReadyTask(1), ReadyTask(0)];
  }

  /** The readiness at the head of the queue is dispatched. */
  lemma IoDispatched(s: LoopState) returns (s': LoopState)
    requires s.pending.None? && s.scheduled != [] && s.scheduled[0].param.Io?
    requires var t := s.scheduled[0]; Owns(s.events, t.recipient, t.param.token - TOKEN_SHIFT) && !s.events[t.recipient.id].stolen
    ensures Step(s, Pop) && Step(Apply(s, Pop), Enter) && s' == Apply(Apply(s, Pop), Enter)
    ensures var t := s.scheduled[0];
            s' == PutEvent(s, t.recipient, s.events[t.recipient.id].(stolen := true))
                  .(scheduled := s.scheduled[1..], stack := s.stack + [t.recipient], log := s.log + [Handled(t, Called)])
  {
    var t := s.scheduled[0];
    Popped(s);
    hide PopTask;
    s' := EnterCall(PopTask(s));
  }

  lemma Popped(s: LoopState)
    requires s.pending.None? && s.scheduled != [] && s.scheduled[0].param.Io?
    requires var t := s.scheduled[0]; Owns(s.events, t.recipient, t.param.token - TOKEN_SHIFT)
    ensures Step(s, Pop)
    ensures var t := s.scheduled[0];
            PopTask(s) == s.(scheduled := s.scheduled[1..], pending := Some(Call(t.recipient, Dispatched(t))))
  {}

  lemma Dispatching(s: LoopState, first: nat, k: nat, rest: seq<Task>) returns (s': LoopState)
    requires TwoIos(s, first, [], [ReadyTask(k)] + rest) && k < 2
    ensures Step(s, Pop) && Step(Apply(s, Pop), Enter) && s' == Apply(Apply(s, Pop), Enter)
    ensures TwoIos(s', first, [Handle(0, 0)], rest) && s'.log == s.log + [Handled(ReadyTask(k), Called)]
  {
    hide Step, Apply;
    assert s.scheduled[0] == ReadyTask(k) && s.scheduled[1..] == rest;
    s' := IoDispatched(s);
    assert s'.stack == [] + [Handle(0, 0)];
  }

  /** Without the first IO. */
  ghost predicate OneLeft(s: LoopState, scheduled: seq<Task>) {
    var h := Handle(0, 0);
    && s.policy.AsWritten? && s.stack == [h] && s.scheduled == scheduled && s.pending.None?
    && Alive(s.events, h) && s.events[0].stolen && s.events[0].ios == map[1 := 1]
    && s.ios == map[1 := h] && s.registrations == 2
  }

  lemma FirstRemoved(s: LoopState, rest: seq<Task>) returns (s': LoopState)
    requires TwoIos(s, 0, [Handle(0, 0)], rest)
    ensures Step(s, IoRemove(2)) && s' == Apply(s, IoRemove(2)) && OneLeft(s', rest)
  {
    assert Top(s) == Handle(0, 0);
    s' := RemoveIo(s, 2);
    assert s'.ios == map[1 := Handle(0, 0)] && s'.events[0].ios == map[1 := 1];
  }

  lemma OtherRegistered(s: LoopState, rest: seq<Task>) returns (s': LoopState)
    requires OneLeft(s, rest)
    ensures Step(s, IoRegister(0)) && s' == Apply(s, IoRegister(0)) && TwoIos(s', 2, [Handle(0, 0)], rest)
  {
    assert Top(s) == Handle(0, 0);
    s' := RegisterIo(s, 0);
    assert s'.ios == map[0 := Handle(0, 0), 1 := Handle(0, 0)] && s'.events[0].ios == map[0 := 2, 1 := 1];
  }

  lemma Replacing(s: LoopState, rest: seq<Task>) returns (s': LoopState)
    requires TwoIos(s, 0, [Handle(0, 0)], rest)
    ensures Step(s, IoRemove(2)) && Step(Apply(s, IoRemove(2)), IoRegister(0))
    ensures s' == Apply(Apply(s, IoRemove(2)), IoRegister(0)) && TwoIos(s', 2, [Handle(0, 0)], rest)
  {
    hide Step, Apply, TwoIos, OneLeft;
    var s1 := FirstRemoved(s, rest);
    s' := OtherRegistered(s1, rest);
  }

  lemma Leaving(s: LoopState, rest: seq<Task>) returns (s': LoopState)
    requires TwoIos(s, 2, [Handle(0, 0)], rest)
    ensures Step(s, Leave(Keep)) && s' == Apply(s, Leave(Keep)) && TwoIos(s', 2, [], rest)
  {
    assert Top(s) == Handle(0, 0);
    s' := LeaveCall(s, Keep);
    assert s'.stack == [];
  }

  /** The callback that is entered last is for a registration that is gone, and passes for the new one. */
  lemma DeliversToWrongRegistration()
    ensures var r := Exec(Start(AsWritten, 1, 0, 0), WRONG_DELIVERY);
            && r.Some? && r.value.stack == [Handle(0, 0)]
            && r.value.log != [] && r.value.log[|r.value.log| - 1] == Handled(ReadyTask(0), Called)
            && Owns(r.value.events, Handle(0, 0), 0)
            && r.value.events[0].ios[0] != ReadyTask(0).param.reg
  {
    hide Exec, Step, Apply, Start, InInit, ReadyTask;
    var h := Handle(0, 0);
    var s0 := Start(AsWritten, 1, 0, 0);
    var s2 := FirstInit(AsWritten);
    var s4 := TwoRegistered(s2);
    var s6 := Gathering(s4);
    var s8 := TwoReady(s6);
    var s10 := Dispatching(s8, 0, 1, [ReadyTask(0)]);
    var s12 := Replacing(s10, [ReadyTask(0)]);
    var s13 := Leaving(s12, [ReadyTask(0)]);
    var s15 := Dispatching(s13, 2, 0, []);
    var run := [Insert(0), Enter];
    OnTwo(s0, run, s2, IoRegister(0), IoRegister(1));
    run := run + [IoRegister(0), IoRegister(1)];
    OnTwo(s0, run, s4, Leave(Keep), Drain);
    run := run + [Leave(Keep), Drain];
    OnTwo(s0, run, s6, Ready(h, 1, 0), Ready(h, 0, 0));
    run := run + [Ready(h, 1, 0), Ready(h, 0, 0)];
    OnTwo(s0, run, s8, Pop, Enter);
    run := run + [Pop, Enter];
    OnTwo(s0, run, s10, IoRemove(2), IoRegister(0));
    run := run + [IoRemove(2), IoRegister(0)];
    ExecOneMore(s0, run, Leave(Keep));
    run := run + [Leave(Keep)];
    OnTwo(s0, run, s13, Pop, Enter);
    assert run + [Pop, Enter] == WRONG_DELIVERY;
    NotZero();
  }

  lemma NotZero()
    ensures ReadyTask(0).param.reg == 0
  {}

  // ----- An event that never removed anything -----

  /**
   A run of a fresh loop. The first event removes an IO and registers another one, so the next gathering
   takes its slot. A second event registers an IO and gets the index. A readiness of the IO of the first
   event is then handed to the second, though nobody removed anything since.
   */
  const WRONG_EVENT: seq<Action> :=
    [Insert(0), Enter, IoRegister(0), IoRemove(2), IoRegister(0), Leave(Keep), Drain,
     Insert(1), Enter, IoRegister(0), Leave(Keep), Drain, Ready(Handle(0, 0), 0, 0), Pop, Enter]

  /** The first event alone: its IOs, the slab, and what waits for release. */
  ghost predicate Alone(s: LoopState, mine: map<nat, nat>, slab: map<nat, Handle>, released: set<nat>, stack: seq<Handle>) {
    && s.policy.AsWritten? && s.generation == 1 && s.pending.None? && s.scheduled == [] && s.stack == stack
    && s.events.Keys == {0} && s.events[0].generation == 0 && s.events[0].ios == mine
    && s.ios == slab && s.iosReleased == released
  }

  /** Both events: the first one owns an index that the slab has for the second, or for nobody. */
  ghost predicate Both(s: LoopState, others: map<nat, nat>, slab: map<nat, Handle>, stack: seq<Handle>) {
    && s.policy.AsWritten? && s.pending.None? && s.stack == stack && s.iosReleased == {}
    && Alive(s.events, Handle(0, 0)) && s.events[0].ios == map[0 := 1]
    && Alive(s.events, Handle(1, 1)) && s.events[1].ios == others && s.events[1].stolen == (stack != [])
    && s.ios == slab
  }

  lemma FirstRegisters(s: LoopState) returns (s': LoopState)
    requires InInit(s) && s.policy.AsWritten?
    ensures Step(s, IoRegister(0)) && s' == Apply(s, IoRegister(0)) && s'.registrations == 1
    ensures Alone(s', map[0 := 0], map[0 := Handle(0, 0)], {}, [Handle(0, 0)])
  {
    assert Top(s) == Handle(0, 0);
    s' := RegisterIo(s, 0);
    assert s'.events.Keys == {0} && s'.ios == map[0 := Handle(0, 0)] && s'.events[0].ios == map[0 := 0];
  }

  lemma FirstReplaces(s: LoopState) returns (s': LoopState)
    requires Alone(s, map[0 := 0], map[0 := Handle(0, 0)], {}, [Handle(0, 0)]) && s.registrations == 1
    ensures Step(s, IoRemove(2)) && Step(Apply(s, IoRemove(2)), IoRegister(0))
    ensures s' == Apply(Apply(s, IoRemove(2)), IoRegister(0)) && s'.registrations == 2
    ensures Alone(s', map[0 := 1], map[0 := Handle(0, 0)], {0}, [Handle(0, 0)])
  {
    assert Top(s) == Handle(0, 0);
    var s1 := RemoveIo(s, 2);
    assert s1.ios == map[] && s1.events[0].ios == map[] && Top(s1) == Top(s) && s1.events.Keys == {0};
    s' := RegisterIo(s1, 0);
    assert s'.ios == map[0 := Handle(0, 0)] && s'.events[0].ios == map[0 := 1] && s'.events.Keys == {0};
  }

  /** The gathering takes the slot of the new IO. */
  lemma SlotTaken(s: LoopState) returns (s': LoopState)
    requires Alone(s, map[0 := 1], map[0 := Handle(0, 0)], {0}, [Handle(0, 0)]) && s.registrations == 2
    ensures Step(s, Leave(Keep)) && Step(Apply(s, Leave(Keep)), Drain)
    ensures s' == Apply(Apply(s, Leave(Keep)), Drain) && s'.registrations == 2
    ensures Alone(s', map[0 := 1], map[], {}, [])
  {
    assert Top(s) == Handle(0, 0);
    var s1 := LeaveCall(s, Keep);
    assert s1.stack == [] && s1.events.Keys == {0};
    s' := DrainReleased(s1);
    assert s'.ios == map[];
  }

  lemma SecondInserted(s: LoopState) returns (s': LoopState)
    requires Alone(s, map[0 := 1], map[], {}, []) && s.registrations == 2
    ensures Step(s, Insert(1)) && Step(Apply(s, Insert(1)), Enter)
    ensures s' == Apply(Apply(s, Insert(1)), Enter) && s'.registrations == 2 && s'.scheduled == []
    ensures Both(s', map[], map[], [Handle(1, 1)])
  {
    var s1 := InsertEvent(s, 1);
    assert s1.events[1] == Fresh(1) && s1.pending == Some(Call(Handle(1, 1), Init));
    s' := EnterCall(s1);
    assert s'.stack == [] + [Handle(1, 1)];
  }

  lemma SecondRegisters(s: LoopState) returns (s': LoopState)
    requires Both(s, map[], map[], [Handle(1, 1)]) && s.registrations == 2 && s.scheduled == []
    ensures Step(s, IoRegister(0)) && Step(Apply(s, IoRegister(0)), Leave(Keep))
    ensures s' == Apply(Apply(s, IoRegister(0)), Leave(Keep)) && s'.scheduled == []
    ensures Both(s', map[0 := 2], map[0 := Handle(1, 1)], [])
  {
    assert Top(s) == Handle(1, 1);
    var s1 := RegisterIo(s, 0);
    assert s1.ios == map[0 := Handle(1, 1)] && s1.events[1].ios == map[0 := 2] && Top(s1) == Top(s);
    s' := LeaveCall(s1, Keep);
    assert s'.stack == [];
  }

  ghost function Misdirected(): Task {
    Task(Handle(1, 1), Io(2, 0, 1))
  }

  lemma FirstIsReady(s: LoopState) returns (s': LoopState)
    requires Both(s, map[0 := 2], map[0 := Handle(1, 1)], []) && s.scheduled == []
    ensures Step(s, Drain) && Step(Apply(s, Drain), Ready(Handle(0, 0), 0, 0))
    ensures s' == Apply(Apply(s, Drain), Ready(Handle(0, 0), 0, 0))
    ensures Both(s', map[0 := 2], map[0 := Handle(1, 1)], []) && s'.scheduled == [Misdirected()]
  {
    var s1 := DrainReleased(s);
    assert s1.ios == s.ios;
    s' := QueueReady(s1, Handle(0, 0), 0, 0);
    assert s'.scheduled == [] + [Misdirected()];
  }

  lemma SecondCalled(s: LoopState) returns (s': LoopState)
    requires Both(s, map[0 := 2], map[0 := Handle(1, 1)], []) && s.scheduled == [Misdirected()]
    ensures Step(s, Pop) && Step(Apply(s, Pop), Enter) && s' == Apply(Apply(s, Pop), Enter)
    ensures Both(s', map[0 := 2], map[0 := Handle(1, 1)], [Handle(1, 1)])
    ensures s'.log == s.log + [Handled(Misdirected(), Called)]
  {
    hide Step, Apply;
    s' := IoDispatched(s);
    assert s'.stack == [] + [Handle(1, 1)];
  }

  /** The second event is called for the registration 1 of the first, while its own is number 2. */
  lemma CallsTheWrongEvent()
    ensures var r := Exec(Start(AsWritten, 1, 0, 0), WRONG_EVENT);
            && r.Some? && r.value.stack == [Handle(1, 1)]
            && r.value.log != [] && r.value.log[|r.value.log| - 1] == Handled(Task(Handle(1, 1), Io(2, 0, 1)), Called)
            && Owns(r.value.events, Handle(0, 0), 0) && r.value.events[0].ios[0] == 1
            && Owns(r.value.events, Handle(1, 1), 0) && r.value.events[1].ios[0] == 2
  {
    hide Exec, Step, Apply, Start, InInit, Alone;
    var h := Handle(0, 0);
    var s0 := Start(AsWritten, 1, 0, 0);
    var s2 := FirstInit(AsWritten);
    var s3 := FirstRegisters(s2);
    var s5 := FirstReplaces(s3);
    var s7 := SlotTaken(s5);
    var s9 := SecondInserted(s7);
    var s11 := SecondRegisters(s9);
    var s13 := FirstIsReady(s11);
    var s15 := SecondCalled(s13);
    var run := [Insert(0), Enter];
    ExecOneMore(s0, run, IoRegister(0));
    run := run + [IoRegister(0)];
    OnTwo(s0, run, s3, IoRemove(2), IoRegister(0));
    run := run + [IoRemove(2), IoRegister(0)];
    OnTwo(s0, run, s5, Leave(Keep), Drain);
    run := run + [Leave(Keep), Drain];
    OnTwo(s0, run, s7, Insert(1), Enter);
    run := run + [Insert(1), Enter];
    OnTwo(s0, run, s9, IoRegister(0), Leave(Keep));
    run := run + [IoRegister(0), Leave(Keep)];
    OnTwo(s0, run, s11, Drain, Ready(h, 0, 0));
    run := run + [Drain, Ready(h, 0, 0)];
    OnTwo(s0, run, s13, Pop, Enter);
    assert run + [Pop, Enter] == WRONG_EVENT;
  }
}
