/**
 What the indexes of the loop say about its past. Each of them is characterised by what callbacks asked
 for and what became of the events, without reference to what the steps of the machine do: something is
 in an index exactly if it was put there and nothing has taken it out since.
 */
module History {
  import opened Wrappers
  import opened EventLoop
  import opened Invariants
  import opened Steps
  import opened Runs
  import opened Registrations

  type Fact = LoopState -> bool

  type Cause = (LoopState, Action) -> bool

  // ----- Since -----

  /** The `i`-th step of the run is one of these. */
  ghost predicate Happens(s: LoopState, acts: seq<Action>, i: nat, c: Cause) {
    i < |acts| && Exec(s, acts[..i]).Some? && c(Exec(s, acts[..i]).value, acts[i])
  }

  ghost predicate NeverAfter(s: LoopState, acts: seq<Action>, i: nat, c: Cause) {
    forall j: nat | i < j :: !Happens(s, acts, j, c)
  }

  /** A step of the run began it, or it held before, and no step has ended it since. */
  ghost predicate Since(s: LoopState, acts: seq<Action>, fact: Fact, begins: Cause, ends: Cause) {
    || (fact(s) && forall j: nat :: !Happens(s, acts, j, ends))
    || exists i: nat :: Happens(s, acts, i, begins) && NeverAfter(s, acts, i, ends)
  }

  /** In this step it holds on or begins exactly like that. */
  ghost predicate Follows(s: LoopState, a: Action, fact: Fact, begins: Cause, ends: Cause)
    requires Step(s, a)
  {
    fact(Apply(s, a)) <==> begins(s, a) || (fact(s) && !ends(s, a))
  }

  /** The steps of a run are those before its last one, and its last one. */
  lemma HappensLast(s: LoopState, before: seq<Action>, acts: seq<Action>, c: Cause)
    requires acts != [] && before == acts[..|acts| - 1] && Exec(s, acts).Some?
    ensures forall i: nat | i < |before| :: Happens(s, before, i, c) <==> Happens(s, acts, i, c)
    ensures forall i: nat :: Happens(s, before, i, c) ==> i < |before|
    ensures forall i: nat :: Happens(s, acts, i, c) ==> i < |acts|
    ensures Exec(s, before).Some?
    ensures Happens(s, acts, |before|, c) <==> c(Exec(s, before).value, acts[|before|])
  {
    hide Exec;
    ExecSplit(s, acts, |before|);
    AtLast(s, acts);
  }

  lemma SinceOneMore(s: LoopState, acts: seq<Action>, fact: Fact, begins: Cause, ends: Cause)
    requires acts != [] && Exec(s, acts).Some?
    ensures var n := |acts| - 1;
            var b := Exec(s, acts[..n]).value;
            Since(s, acts, fact, begins, ends)
            <==> begins(b, acts[n]) || (Since(s, acts[..n], fact, begins, ends) && !ends(b, acts[n]))
  {
    hide Exec, Happens, Since;
    var n := |acts| - 1;
    ExecSplit(s, acts, n);
    var b := Exec(s, acts[..n]).value;
    HappensLast(s, acts[..n], acts, begins);
    HappensLast(s, acts[..n], acts, ends);
    if begins(b, acts[n]) {
      BegunNow(s, acts, fact, begins, ends, n);
    } else if ends(b, acts[n]) {
      EndedNow(s, acts, fact, begins, ends, n);
    } else {
      StillSince(s, acts[..n], acts, fact, begins, ends, n);
    }
  }

  lemma BegunNow(s: LoopState, acts: seq<Action>, fact: Fact, begins: Cause, ends: Cause, n: nat)
    requires Happens(s, acts, n, begins) && forall i: nat | i > n :: !Happens(s, acts, i, ends)
    ensures Since(s, acts, fact, begins, ends)
  {
    hide Happens;
    assert NeverAfter(s, acts, n, ends);
  }

  lemma EndedNow(s: LoopState, acts: seq<Action>, fact: Fact, begins: Cause, ends: Cause, n: nat)
    requires Happens(s, acts, n, ends) && forall i: nat | i >= n :: !Happens(s, acts, i, begins)
    ensures !Since(s, acts, fact, begins, ends)
  {
    hide Happens;
  }

  lemma StillSince(s: LoopState, before: seq<Action>, acts: seq<Action>, fact: Fact, begins: Cause, ends: Cause, n: nat)
    requires forall i: nat :: Happens(s, before, i, begins) <==> Happens(s, acts, i, begins)
    requires forall i: nat :: Happens(s, before, i, ends) <==> Happens(s, acts, i, ends)
    ensures Since(s, acts, fact, begins, ends) <==> Since(s, before, fact, begins, ends)
  {
    hide Happens;
    forall i: nat ensures NeverAfter(s, before, i, ends) <==> NeverAfter(s, acts, i, ends) {}
  }

  lemma {:induction false} Remembered(s: LoopState, acts: seq<Action>, fact: Fact, begins: Cause, ends: Cause)
    requires Inv(s) && Exec(s, acts).Some?
    requires forall b, a | Inv(b) && Step(b, a) :: Follows(b, a, fact, begins, ends)
    ensures fact(Exec(s, acts).value) <==> Since(s, acts, fact, begins, ends)
  {
    hide Inv, Step, Apply, Since;
    if acts == [] {
      SinceNothing(s, fact, begins, ends);
    } else {
      var n := |acts| - 1;
      Remembered(s, acts[..n], fact, begins, ends);
      RunKeepsInv(s, acts[..n]);
      SinceOneMore(s, acts, fact, begins, ends);
      assert Follows(Exec(s, acts[..n]).value, acts[n], fact, begins, ends);
    }
  }

  lemma SinceNothing(s: LoopState, fact: Fact, begins: Cause, ends: Cause)
    ensures Since(s, [], fact, begins, ends) <==> fact(s)
  {}

  // ----- What can happen -----

  /** The innermost callback is that of `h`. */
  ghost predicate By(s: LoopState, h: Handle) {
    s.stack != [] && Top(s) == h
  }

  /** The callback of the event returns, and not in order to go on. */
  ghost predicate Dies(s: LoopState, a: Action, h: Handle) {
    By(s, h) && a.Leave? && !a.response.Keep?
  }

  ghost function Dying(h: Handle): Cause {
    (s: LoopState, a: Action) => Dies(s, a, h)
  }

  ghost function BeingBorn(h: Handle): Cause {
    (s: LoopState, a: Action) => a == Insert(h.id) && s.generation == h.generation
  }

  ghost function Subscribing(h: Handle, sig: nat): Cause {
    (s: LoopState, a: Action) => By(s, h) && a == WatchSignal(sig)
  }

  ghost function Enabling(sig: nat): Cause {
    (s: LoopState, a: Action) =>
      a == EnableSignal(sig) || a == WatchSignal(sig) || (a.WatchChild? && s.sigchld == sig)
  }

  ghost function Never(): Cause {
    (s: LoopState, a: Action) => false
  }

  ghost function AskingIdle(h: Handle): Cause {
    (s: LoopState, a: Action) => By(s, h) && a.AskIdle?
  }

  /** The idle request of the event is served, or the event dies. */
  ghost function EndingIdle(h: Handle): Cause {
    (s: LoopState, a: Action) => Dies(s, a, h) || (a.PickIdle? && s.wantIdle != [] && s.wantIdle[0] == h)
  }

  ghost function Watching(h: Handle, pid: Pid): Cause {
    (s: LoopState, a: Action) => By(s, h) && a == WatchChild(pid)
  }

  /** The child is reaped, or the event that watches it dies. */
  ghost function EndingWatch(h: Handle, pid: Pid): Cause {
    (s: LoopState, a: Action) => Dies(s, a, h) || (a.Reap? && a.pid == pid)
  }

  ghost function Expecting(h: Handle, tp: MsgType): Cause {
    (s: LoopState, a: Action) => By(s, h) && a == Expect(tp)
  }

  ghost function Registering(h: Handle, k: nat): Cause {
    (s: LoopState, a: Action) => By(s, h) && a == IoRegister(k)
  }

  /** The owner removes the IO, or dies. */
  ghost function EndingOwnership(h: Handle, k: nat): Cause {
    (s: LoopState, a: Action) => Dies(s, a, h) || (By(s, h) && a == IoRemove(k + TOKEN_SHIFT))
  }

  ghost function EnteringCallback(h: Handle): Cause {
    (s: LoopState, a: Action) =>
      a.Enter? && s.pending.Some? && s.pending.value.target == h && Alive(s.events, h) && !s.events[h.id].stolen
  }

  ghost function LeavingCallback(h: Handle): Cause {
    (s: LoopState, a: Action) => By(s, h) && a.Leave?
  }

  // ----- What can hold -----

  ghost function IsAlive(h: Handle): Fact {
    (s: LoopState) => Alive(s.events, h)
  }

  ghost function IsRecipient(h: Handle, sig: nat): Fact {
    (s: LoopState) => sig < |s.recipients| && h in s.recipients[sig]
  }

  ghost function IsEnabled(sig: nat): Fact {
    (s: LoopState) => sig < |s.enabled| && s.enabled[sig]
  }

  ghost function WantsIdle(h: Handle): Fact {
    (s: LoopState) => h in s.wantIdle
  }

  ghost function WatchesChild(h: Handle, pid: Pid): Fact {
    (s: LoopState) => pid in s.children && s.children[pid] == h
  }

  ghost function ExpectsType(h: Handle, tp: MsgType): Fact {
    (s: LoopState) => Alive(s.events, h) && tp in s.events[h.id].expected
  }

  ghost function OwnsIo(h: Handle, k: nat): Fact {
    (s: LoopState) => Owns(s.events, h, k)
  }

  ghost function InCallback(h: Handle): Fact {
    (s: LoopState) => h in s.stack
  }

  // ----- Steps that are about something else -----

  /** Neither a request about the tables, nor gathering, nor the end of a callback. */
  ghost predicate Elsewhere(a: Action) {
    !Config(a) && !Gather(a) && !a.Leave?
  }

  lemma ElsewhereFrame(s: LoopState, a: Action)
    requires Step(s, a) && Elsewhere(a)
    ensures var s' := Apply(s, a);
            && s'.recipients == s.recipients && s'.wantIdle == s.wantIdle && s'.inbox == s.inbox
            && (a.WatchChild? || s'.enabled == s.enabled)
            && (a.WatchChild? || a.Reap? || s'.children == s.children)
            && (a.Pop? || a.Reap? || s'.scheduled == s.scheduled) && (a.Reap? || s'.pushed == s.pushed)
            && (a.Enter? || s'.stack == s.stack)
  {
    hide Step, Apply;
    if a.Pop? || a.Enter? || a.Insert? { CallFrame(s, a); }
    else if a.Reap? { ReapFrame(s, a); }
    else { OwnScopeFrame(s, a); }
  }

  lemma GatherFrame(s: LoopState, a: Action)
    requires Step(s, a) && Gather(a)
    ensures var s' := Apply(s, a);
            && s'.recipients == s.recipients && s'.enabled == s.enabled && s'.children == s.children
            && s'.events == s.events && s'.stack == s.stack && s'.generation == s.generation
            && (Queues(a) || (s'.wantIdle == s.wantIdle && s'.inbox == s.inbox && s'.scheduled == s.scheduled
                              && s'.pushed == s.pushed))
  {
    hide Step, Apply;
    if Queues(a) { QueueFrame(s, a); } else if a.Drain? { DrainFrame(s); } else { TimerFrame(s, a); }
  }

  // ----- Signals -----

  lemma RecipientStep(s: LoopState, a: Action, h: Handle, sig: nat)
    requires Inv(s) && Step(s, a)
    ensures Follows(s, a, IsRecipient(h, sig), Subscribing(h, sig), Dying(h))
  {
    hide Inv, Step, Apply, Follows;
    if Config(a) { ConfigRecipients(s, a, h, sig); }
    else if a.Leave? { LeaveRecipients(s, a, h, sig); }
    else { SameRecipients(s, a, h, sig); }
  }

  lemma SameRecipients(s: LoopState, a: Action, h: Handle, sig: nat)
    requires Step(s, a) && !Config(a) && !a.Leave?
    ensures Follows(s, a, IsRecipient(h, sig), Subscribing(h, sig), Dying(h))
  {
    hide Step, Apply;
    if Gather(a) { GatherFrame(s, a); } else { ElsewhereFrame(s, a); }
  }

  lemma ConfigRecipients(s: LoopState, a: Action, h: Handle, sig: nat)
    requires Step(s, a) && Config(a)
    ensures Follows(s, a, IsRecipient(h, sig), Subscribing(h, sig), Dying(h))
  {}

  lemma LeaveRecipients(s: LoopState, a: Action, h: Handle, sig: nat)
    requires Step(s, a) && a.Leave?
    ensures Follows(s, a, IsRecipient(h, sig), Subscribing(h, sig), Dying(h))
  {}

  /** The recipients of a signal are the live events that asked for it. */
  lemma RecipientsAre(s: LoopState, acts: seq<Action>, h: Handle, sig: nat)
    requires Inv(s) && Exec(s, acts).Some?
    ensures IsRecipient(h, sig)(Exec(s, acts).value)
            <==> Since(s, acts, IsRecipient(h, sig), Subscribing(h, sig), Dying(h))
  {
    hide Inv, Step, Apply, Since, Follows, Exec;
    forall b, a | Inv(b) && Step(b, a) ensures Follows(b, a, IsRecipient(h, sig), Subscribing(h, sig), Dying(h)) {
      RecipientStep(b, a, h, sig);
    }
    Remembered(s, acts, IsRecipient(h, sig), Subscribing(h, sig), Dying(h));
  }

  lemma EnabledStep(s: LoopState, a: Action, sig: nat)
    requires Inv(s) && Step(s, a)
    ensures Follows(s, a, IsEnabled(sig), Enabling(sig), Never())
  {
    hide Inv, Step, Apply, Follows;
    if Config(a) || a.WatchChild? || a.Leave? { ConfigEnabled(s, a, sig); } else { SameEnabled(s, a, sig); }
  }

  lemma SameEnabled(s: LoopState, a: Action, sig: nat)
    requires Step(s, a) && !Config(a) && !a.WatchChild? && !a.Leave?
    ensures Follows(s, a, IsEnabled(sig), Enabling(sig), Never())
  {
    hide Step, Apply;
    if Gather(a) { GatherFrame(s, a); } else { ElsewhereFrame(s, a); }
  }

  lemma ConfigEnabled(s: LoopState, a: Action, sig: nat)
    requires Step(s, a) && (Config(a) || a.WatchChild? || a.Leave?)
    ensures Follows(s, a, IsEnabled(sig), Enabling(sig), Never())
  {}

  /** A signal is enabled exactly if somebody asked for it, or watched a child in the case of SIGCHLD. */
  lemma EnabledAre(s: LoopState, acts: seq<Action>, sig: nat)
    requires Inv(s) && Exec(s, acts).Some?
    ensures IsEnabled(sig)(Exec(s, acts).value) <==> Since(s, acts, IsEnabled(sig), Enabling(sig), Never())
  {
    hide Inv, Step, Apply, Since, Follows, Exec;
    forall b, a | Inv(b) && Step(b, a) ensures Follows(b, a, IsEnabled(sig), Enabling(sig), Never()) {
      EnabledStep(b, a, sig);
    }
    Remembered(s, acts, IsEnabled(sig), Enabling(sig), Never());
  }

  // ----- Idle requests -----

  lemma IdleStep(s: LoopState, a: Action, h: Handle)
    requires Inv(s) && Step(s, a)
    ensures Follows(s, a, WantsIdle(h), AskingIdle(h), EndingIdle(h))
  {
    hide Step, Apply, GenerationsOk, StackOk, TimersOk, IoOk, RegistrationsOk, ChildrenOk, SignalsOk, MessagesOk,
      RecipientsKnown, HistoryOk;
    if a.AskIdle? { AskIdleStep(s, a, h); }
    else if a.PickIdle? { PickIdleStep(s, a, h); }
    else if a.Leave? { LeaveIdle(s, a, h); }
    else { SameIdle(s, a); }
  }

  lemma SameIdle(s: LoopState, a: Action)
    requires Step(s, a) && !a.AskIdle? && !a.PickIdle? && !a.Leave?
    ensures Apply(s, a).wantIdle == s.wantIdle
  {
    hide Step, Apply;
    if Config(a) { ConfigIdle(s, a); }
    else if Queues(a) { QueuesIdle(s, a); }
    else if Gather(a) { GatherFrame(s, a); }
    else { ElsewhereFrame(s, a); }
  }

  lemma ConfigIdle(s: LoopState, a: Action)
    requires Step(s, a) && Config(a) && !a.AskIdle?
    ensures Apply(s, a).wantIdle == s.wantIdle
  {}

  lemma QueuesIdle(s: LoopState, a: Action)
    requires Step(s, a) && Queues(a) && !a.PickIdle?
    ensures Apply(s, a).wantIdle == s.wantIdle
  {}

  lemma AskIdleStep(s: LoopState, a: Action, h: Handle)
    requires Step(s, a) && a.AskIdle?
    ensures Follows(s, a, WantsIdle(h), AskingIdle(h), EndingIdle(h))
  {}

  lemma PickIdleStep(s: LoopState, a: Action, h: Handle)
    requires Step(s, a) && a.PickIdle? && IdleOk(s.events, s.wantIdle)
    ensures Follows(s, a, WantsIdle(h), AskingIdle(h), EndingIdle(h))
  {
    assert s.wantIdle == [s.wantIdle[0]] + s.wantIdle[1..];
  }

  lemma LeaveIdle(s: LoopState, a: Action, h: Handle)
    requires Step(s, a) && a.Leave?
    ensures Follows(s, a, WantsIdle(h), AskingIdle(h), EndingIdle(h))
  {}

  /** An idle request is there exactly if the event asked, and neither was served nor died since. */
  lemma IdleRequestsAre(s: LoopState, acts: seq<Action>, h: Handle)
    requires Inv(s) && Exec(s, acts).Some?
    ensures WantsIdle(h)(Exec(s, acts).value) <==> Since(s, acts, WantsIdle(h), AskingIdle(h), EndingIdle(h))
  {
    hide Inv, Step, Apply, Since, Follows, Exec;
    forall b, a | Inv(b) && Step(b, a) ensures Follows(b, a, WantsIdle(h), AskingIdle(h), EndingIdle(h)) {
      IdleStep(b, a, h);
    }
    Remembered(s, acts, WantsIdle(h), AskingIdle(h), EndingIdle(h));
  }

  // ----- Children -----

  lemma ChildStep(s: LoopState, a: Action, h: Handle, pid: Pid)
    requires Inv(s) && Step(s, a)
    ensures Follows(s, a, WatchesChild(h, pid), Watching(h, pid), EndingWatch(h, pid))
  {
    hide Step, Apply, Follows, GenerationsOk, StackOk, TimersOk, IoOk, RegistrationsOk, IdleOk, SignalsOk, MessagesOk,
      RecipientsKnown, HistoryOk, ChildrenOk;
    StackTop(s, a);
    if a.WatchChild? || a.Reap? { TableChild(s, a, h, pid); }
    else if a.Leave? { LeaveChild(s, a, h, pid); }
    else { SameChild(s, a, h, pid); }
  }

  lemma SameChild(s: LoopState, a: Action, h: Handle, pid: Pid)
    requires Step(s, a) && !a.WatchChild? && !a.Reap? && !a.Leave?
    ensures Follows(s, a, WatchesChild(h, pid), Watching(h, pid), EndingWatch(h, pid))
  {
    hide Step, Apply;
    if Config(a) { ConfigFrame(s, a); }
    else if Gather(a) { GatherFrame(s, a); }
    else { ElsewhereFrame(s, a); }
    assert Apply(s, a).children == s.children;
  }

  /** Who asks through the scope is alive. */
  lemma StackTop(s: LoopState, a: Action)
    requires Inv(s) && Step(s, a)
    ensures ScopeOnly(a) ==> s.stack != []
    ensures s.stack != [] ==> Alive(s.events, Top(s)) && At(s.events, Top(s).id) == Top(s)
  {
    hide GenerationsOk, TimersOk, IoOk, RegistrationsOk, IdleOk, ChildrenOk, SignalsOk, MessagesOk, RecipientsKnown,
      HistoryOk;
    if s.stack != [] { TopAlive(s); }
  }

  lemma TableChild(s: LoopState, a: Action, h: Handle, pid: Pid)
    requires Step(s, a) && (a.WatchChild? || a.Reap?)
    ensures Follows(s, a, WatchesChild(h, pid), Watching(h, pid), EndingWatch(h, pid))
  {}

  lemma LeaveChild(s: LoopState, a: Action, h: Handle, pid: Pid)
    requires Step(s, a) && a.Leave? && ChildrenOk(s.events, s.children)
    requires s.stack != [] && Alive(s.events, Top(s)) && At(s.events, Top(s).id) == Top(s)
    ensures Follows(s, a, WatchesChild(h, pid), Watching(h, pid), EndingWatch(h, pid))
  {}

  /** A child is watched exactly by the event that asked, unless it was reaped or the event died since. */
  lemma WatchedChildrenAre(s: LoopState, acts: seq<Action>, h: Handle, pid: Pid)
    requires Inv(s) && Exec(s, acts).Some?
    ensures WatchesChild(h, pid)(Exec(s, acts).value)
            <==> Since(s, acts, WatchesChild(h, pid), Watching(h, pid), EndingWatch(h, pid))
  {
    hide Inv, Step, Apply, Since, Follows, Exec;
    forall b, a | Inv(b) && Step(b, a)
      ensures Follows(b, a, WatchesChild(h, pid), Watching(h, pid), EndingWatch(h, pid))
    {
      ChildStep(b, a, h, pid);
    }
    Remembered(s, acts, WatchesChild(h, pid), Watching(h, pid), EndingWatch(h, pid));
  }

  // ----- Events -----

  /** The holder of a live event, in the parts that only the event itself changes. */
  ghost predicate HolderStep(s: LoopState, a: Action, h: Handle, tp: MsgType)
    requires Step(s, a)
  {
    && Follows(s, a, IsAlive(h), BeingBorn(h), Dying(h))
    && Follows(s, a, ExpectsType(h, tp), Expecting(h, tp), Dying(h))
  }

  lemma EventStep(s: LoopState, a: Action, h: Handle, tp: MsgType)
    requires Inv(s) && Step(s, a)
    ensures HolderStep(s, a, h, tp)
  {
    hide Step, Apply, HolderStep, TimersOk, IoOk, RegistrationsOk, IdleOk, ChildrenOk, SignalsOk, MessagesOk,
      RecipientsKnown, HistoryOk, StackOk;
    StackTop(s, a);
    if a.Insert? { InsertEvents(s, a, h, tp); }
    else if a.Expect? { ExpectEvents(s, a, h, tp); }
    else if a.Leave? { LeaveEvents(s, a, h, tp); }
    else if Config(a) || Gather(a) { SameEvents(s, a, h, tp); }
    else if a.Pop? || a.Enter? || a.Reap? { CalledEvents(s, a, h, tp); }
    else { ScopedEvents(s, a, h, tp); }
  }

  lemma InsertEvents(s: LoopState, a: Action, h: Handle, tp: MsgType)
    requires Step(s, a) && a.Insert?
    ensures HolderStep(s, a, h, tp)
  {}

  lemma ExpectEvents(s: LoopState, a: Action, h: Handle, tp: MsgType)
    requires Step(s, a) && a.Expect? && s.stack != [] && Alive(s.events, Top(s))
    ensures HolderStep(s, a, h, tp)
  {}

  lemma LeaveEvents(s: LoopState, a: Action, h: Handle, tp: MsgType)
    requires Step(s, a) && a.Leave? && s.stack != [] && Alive(s.events, Top(s))
    ensures HolderStep(s, a, h, tp)
  {}

  lemma SameEvents(s: LoopState, a: Action, h: Handle, tp: MsgType)
    requires Step(s, a) && (Config(a) || Gather(a))
    ensures HolderStep(s, a, h, tp)
  {
    hide Step, Apply;
    if Config(a) { ConfigFrame(s, a); } else { GatherFrame(s, a); }
  }

  /** One holder is replaced by one with the same generation and the same expected types, or none is. */
  ghost predicate Retained(s: LoopState, s': LoopState) {
    || s'.events == s.events
    || exists i :: i in s.events && i in s'.events && s'.events == s.events[i := s'.events[i]]
                   && s'.events[i].generation == s.events[i].generation && s'.events[i].expected == s.events[i].expected
  }

  lemma CalledEvents(s: LoopState, a: Action, h: Handle, tp: MsgType)
    requires Step(s, a) && (a.Pop? || a.Enter? || a.Reap?)
    ensures HolderStep(s, a, h, tp)
  {
    hide Step, Apply;
    if a.Pop? { PopRetains(s); } else if a.Enter? { EnterRetains(s); } else { ReapRetains(s, a); }
  }

  lemma PopRetains(s: LoopState)
    requires Step(s, Pop)
    ensures Retained(s, Apply(s, Pop))
  {
    var s', i := Apply(s, Pop), s.scheduled[0].recipient.id;
    assert s'.events == s.events || s'.events == s.events[i := s'.events[i]];
  }

  lemma EnterRetains(s: LoopState)
    requires Step(s, Enter)
    ensures Retained(s, Apply(s, Enter))
  {
    var s', i := Apply(s, Enter), s.pending.value.target.id;
    assert s'.events == s.events || s'.events == s.events[i := s'.events[i]];
  }

  lemma ReapRetains(s: LoopState, a: Action)
    requires Step(s, a) && a.Reap?
    ensures Retained(s, Apply(s, a))
  {
    var s' := Apply(s, a);
    assert a.pid in s.children ==> s'.events == s.events[s.children[a.pid].id := s'.events[s.children[a.pid].id]];
  }

  lemma ScopedEvents(s: LoopState, a: Action, h: Handle, tp: MsgType)
    requires Step(s, a) && (a.TimeoutAt? || a.IoRegister? || a.IoRemove? || a.WatchChild?)
    ensures HolderStep(s, a, h, tp)
  {
    hide Step, Apply;
    ScopeRetains(s, a);
  }

  lemma ScopeRetains(s: LoopState, a: Action)
    requires Step(s, a) && (a.TimeoutAt? || a.IoRegister? || a.IoRemove? || a.WatchChild?)
    ensures Retained(s, Apply(s, a))
  {
    var s', i := Apply(s, a), Top(s).id;
    assert s'.events == s.events || s'.events == s.events[i := s'.events[i]];
  }

  /** An event is alive from its insertion until a callback of it returns and not in order to go on. */
  lemma EventsAre(s: LoopState, acts: seq<Action>, h: Handle)
    requires Inv(s) && Exec(s, acts).Some?
    ensures IsAlive(h)(Exec(s, acts).value) <==> Since(s, acts, IsAlive(h), BeingBorn(h), Dying(h))
  {
    hide Inv, Step, Apply, Since, Follows, Exec;
    forall b, a | Inv(b) && Step(b, a) ensures Follows(b, a, IsAlive(h), BeingBorn(h), Dying(h)) {
      EventStep(b, a, h, 0);
    }
    Remembered(s, acts, IsAlive(h), BeingBorn(h), Dying(h));
  }

  /** It expects the types of messages that it asked for. */
  lemma ExpectedTypesAre(s: LoopState, acts: seq<Action>, h: Handle, tp: MsgType)
    requires Inv(s) && Exec(s, acts).Some?
    ensures ExpectsType(h, tp)(Exec(s, acts).value) <==> Since(s, acts, ExpectsType(h, tp), Expecting(h, tp), Dying(h))
  {
    hide Inv, Step, Apply, Since, Follows, Exec;
    forall b, a | Inv(b) && Step(b, a) ensures Follows(b, a, ExpectsType(h, tp), Expecting(h, tp), Dying(h)) {
      EventStep(b, a, h, tp);
    }
    Remembered(s, acts, ExpectsType(h, tp), Expecting(h, tp), Dying(h));
  }

  // ----- Callbacks -----

  lemma CallbackStep(s: LoopState, a: Action, h: Handle)
    requires Inv(s) && Step(s, a)
    ensures Follows(s, a, InCallback(h), EnteringCallback(h), LeavingCallback(h))
  {
    hide Step, Apply, Follows, StackOk, GenerationsOk, TimersOk, IoOk, RegistrationsOk, IdleOk, ChildrenOk, SignalsOk,
      MessagesOk, RecipientsKnown, HistoryOk;
    if a.Enter? { EnterCallback(s, a, h); }
    else if a.Leave? { LeaveCallback(s, a, h); }
    else { SameCallback(s, a, h); }
  }

  lemma SameCallback(s: LoopState, a: Action, h: Handle)
    requires Step(s, a) && !a.Enter? && !a.Leave?
    ensures Follows(s, a, InCallback(h), EnteringCallback(h), LeavingCallback(h))
  {
    hide Step, Apply;
    if Config(a) { ConfigFrame(s, a); }
    else if Gather(a) { GatherFrame(s, a); }
    else { ElsewhereFrame(s, a); }
    assert Apply(s, a).stack == s.stack;
  }

  lemma EnterCallback(s: LoopState, a: Action, h: Handle)
    requires Step(s, a) && a.Enter?
    ensures Follows(s, a, InCallback(h), EnteringCallback(h), LeavingCallback(h))
  {}

  lemma LeaveCallback(s: LoopState, a: Action, h: Handle)
    requires Step(s, a) && a.Leave? && StackOk(s.events, s.stack, s.pending)
    ensures Follows(s, a, InCallback(h), EnteringCallback(h), LeavingCallback(h))
  {
    assert s.stack == s.stack[..|s.stack| - 1] + [Top(s)];
  }

  /** A callback is in progress from its entry until it returns. */
  lemma CallbacksAre(s: LoopState, acts: seq<Action>, h: Handle)
    requires Inv(s) && Exec(s, acts).Some?
    ensures InCallback(h)(Exec(s, acts).value)
            <==> Since(s, acts, InCallback(h), EnteringCallback(h), LeavingCallback(h))
  {
    hide Inv, Step, Apply, Since, Follows, Exec;
    forall b, a | Inv(b) && Step(b, a) ensures Follows(b, a, InCallback(h), EnteringCallback(h), LeavingCallback(h)) {
      CallbackStep(b, a, h);
    }
    Remembered(s, acts, InCallback(h), EnteringCallback(h), LeavingCallback(h));
  }

  // ----- IOs -----

  lemma OwnerStepFollows(s: LoopState, a: Action, h: Handle, k: nat)
    requires Inv(s) && Step(s, a)
    ensures Follows(s, a, OwnsIo(h, k), Registering(h, k), EndingOwnership(h, k))
  {
    hide Inv, Step, Apply, SlotStep;
    EventStep(s, a, h, 0);
    if Alive(Apply(s, a).events, h) && Known(s, h) {
      StepSteps(s, a, h, k);
    } else if Alive(Apply(s, a).events, h) {
      Newborn(s, a, h, k);
    } else {
      NotRegistering(s, a, h, k);
    }
  }

  lemma Newborn(s: LoopState, a: Action, h: Handle, k: nat)
    requires Inv(s) && Step(s, a) && Alive(Apply(s, a).events, h) && !Known(s, h)
    ensures a.Insert? && !Owns(s.events, h, k) && !Owns(Apply(s, a).events, h, k)
  {
    hide Step, Apply, TimersOk, StackOk, IoOk, ChildrenOk, IdleOk, SignalsOk, MessagesOk, RecipientsKnown, HistoryOk;
    if !a.Insert? { SameGeneration(s, a, h); } else { NewbornOwnsNothing(s, a, h, k); }
  }

  lemma NewbornOwnsNothing(s: LoopState, a: Action, h: Handle, k: nat)
    requires Step(s, a) && a.Insert? && GenerationsOk(s.events, s.generation) && !Known(s, h)
    ensures !Owns(s.events, h, k) && !Owns(Apply(s, a).events, h, k)
  {}

  lemma NotRegistering(s: LoopState, a: Action, h: Handle, k: nat)
    requires Inv(s) && Step(s, a) && !Alive(Apply(s, a).events, h) && HolderStep(s, a, h, 0)
    ensures !Registering(h, k)(s, a)
    ensures Owns(s.events, h, k) ==> EndingOwnership(h, k)(s, a)
  {
    hide Step, Apply, GenerationsOk, TimersOk, StackOk, IoOk, ChildrenOk, IdleOk, SignalsOk, MessagesOk, RecipientsKnown,
      HistoryOk;
    StackTop(s, a);
  }

  /** An event owns the IOs that it registered and has not removed. */
  lemma OwnedIosAre(s: LoopState, acts: seq<Action>, h: Handle, k: nat)
    requires Inv(s) && Exec(s, acts).Some?
    ensures OwnsIo(h, k)(Exec(s, acts).value)
            <==> Since(s, acts, OwnsIo(h, k), Registering(h, k), EndingOwnership(h, k))
  {
    hide Inv, Step, Apply, Since, Follows, Exec;
    forall b, a | Inv(b) && Step(b, a) ensures Follows(b, a, OwnsIo(h, k), Registering(h, k), EndingOwnership(h, k)) {
      OwnerStepFollows(b, a, h, k);
    }
    Remembered(s, acts, OwnsIo(h, k), Registering(h, k), EndingOwnership(h, k));
  }
}
