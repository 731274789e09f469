/**
 The simple timer store that deletes the timers of an event when the event dies, and the proof that
 the lazy store of the loop is indistinguishable from it.
 */
module EagerTimers {
  import opened Wrappers
  import opened EventLoop
  import opened Invariants
  import opened Preservation
  import opened Steps
  import opened Runs

  /** Timers that wait for their deadline, and due ones in the order of dispatch. No dead ones. */
  datatype Eager = Eager(waiting: set<TimeoutHolder>, due: seq<TimeoutHolder>)

  datatype EagerAction =
    | Start(timer: TimeoutHolder)
    | Die(event: Handle)
    | Expire(timer: TimeoutHolder)
    | Fire(timer: TimeoutHolder)
    | Nothing

  ghost function WithoutEvent(due: seq<TimeoutHolder>, h: Handle): seq<TimeoutHolder> {
    if due == [] then []
    else (if due[0].recipient == h then [] else [due[0]]) + WithoutEvent(due[1..], h)
  }

  ghost predicate EagerCan(e: Eager, now: Instant, a: EagerAction) {
    match a
    case Start(t) => t !in e.waiting && t !in e.due
    case Expire(t) => OnTop(e.waiting, t) && t.when <= now
    case Fire(t) => e.due != [] && e.due[0] == t
    case _ => true
  }

  ghost function EagerApply(e: Eager, a: EagerAction): Eager {
    match a
    case Start(t) => e.(waiting := e.waiting + {t})
    case Die(h) => Eager((set t | t in e.waiting && t.recipient != h), WithoutEvent(e.due, h))
    case Expire(t) => Eager(e.waiting - {t}, e.due + [t])
    case Fire(_) => if e.due == [] then e else e.(due := e.due[1..])
    case Nothing => e
  }

  // ----- The lazy store seen as an eager one -----

  ghost function LiveDue(q: seq<Task>, events: map<nat, EvHolder>): seq<TimeoutHolder> {
    if q == [] then []
    else
      (if q[0].param.Timeout? && Alive(events, q[0].recipient) then [HolderOf(q[0])] else [])
      + LiveDue(q[1..], events)
  }

  ghost function View(s: LoopState): Eager {
    Eager(LiveTimers(s.timeouts, s.events), LiveDue(s.scheduled, s.events))
  }

  /** What the eager store gets to see of a step; everything about dead timers is nothing to it. */
  ghost function Seen(s: LoopState, a: Action): EagerAction
    requires Step(s, a)
  {
    match a
    case TimeoutAt(when) => Start(TimeoutHolder(s.timeoutGeneration, Top(s), when))
    case Leave(response) => if response.Keep? then Nothing else Die(Top(s))
    case Due(t) => if Alive(s.events, t.recipient) then Expire(t) else Nothing
    case Pop =>
      var t := s.scheduled[0];
      if t.param.Timeout? && Alive(s.events, t.recipient) then Fire(HolderOf(t)) else Nothing
    case _ => Nothing
  }

  // ----- Changes of the queue and of the events -----

  lemma {:induction false} LiveDueConcat(q: seq<Task>, more: seq<Task>, events: map<nat, EvHolder>)
    ensures LiveDue(q + more, events) == LiveDue(q, events) + LiveDue(more, events)
  {
    if q == [] {
      assert q + more == more;
    } else {
      assert (q + more)[1..] == q[1..] + more;
      LiveDueConcat(q[1..], more, events);
    }
  }

  lemma {:induction false} LiveDueNone(q: seq<Task>, events: map<nat, EvHolder>)
    requires NoTimersQueued(q)
    ensures LiveDue(q, events) == []
  {
    if q != [] { LiveDueNone(q[1..], events); }
  }

  lemma {:induction false} LiveDueSame(q: seq<Task>, e: map<nat, EvHolder>, e': map<nat, EvHolder>)
    requires forall t | t in q :: Alive(e, t.recipient) <==> Alive(e', t.recipient)
    ensures LiveDue(q, e') == LiveDue(q, e)
  {
    if q != [] {
      assert q[0] in q;
      LiveDueSame(q[1..], e, e');
    }
  }

  lemma {:induction false} LiveDueDie(q: seq<Task>, e: map<nat, EvHolder>, h: Handle)
    requires Alive(e, h)
    ensures LiveDue(q, e - {h.id}) == WithoutEvent(LiveDue(q, e), h)
  {
    if q != [] {
      LiveDueDie(q[1..], e, h);
      assert Alive(e - {h.id}, q[0].recipient) <==> Alive(e, q[0].recipient) && q[0].recipient != h;
      var rest := LiveDue(q[1..], e);
      if q[0].param.Timeout? && Alive(e, q[0].recipient) {
        assert ([HolderOf(q[0])] + rest)[1..] == rest;
      } else {
        assert [] + rest == rest;
      }
    }
  }

  lemma {:induction false} LiveDueQueued(q: seq<Task>, events: map<nat, EvHolder>)
    ensures forall t | t in LiveDue(q, events) :: t in QueuedTimers(q)
  {
    if q != [] { LiveDueQueued(q[1..], events); }
  }

  lemma ViewSame(s: LoopState, s': LoopState)
    requires s'.scheduled == s.scheduled
    requires LiveTimers(s'.timeouts, s'.events) == LiveTimers(s.timeouts, s.events)
    requires forall t | t in s.scheduled :: Alive(s.events, t.recipient) <==> Alive(s'.events, t.recipient)
    ensures View(s') == View(s)
  {
    LiveDueSame(s.scheduled, s.events, s'.events);
  }

  lemma ViewPushed(s: LoopState, s': LoopState, more: seq<Task>)
    requires s'.scheduled == s.scheduled + more && NoTimersQueued(more)
    requires Edited(s.events, s'.events) && s'.timeouts == s.timeouts
    ensures View(s') == View(s)
  {
    LiveDueConcat(s.scheduled, more, s'.events);
    LiveDueNone(more, s'.events);
    LiveDueSame(s.scheduled, s.events, s'.events);
  }

  // ----- One step -----

  ghost predicate Simulates(s: LoopState, a: Action)
    requires Step(s, a)
  {
    && EagerCan(View(s), s.now, Seen(s, a))
    && View(Apply(s, a)) == EagerApply(View(s), Seen(s, a))
  }

  lemma SimulateStart(s: LoopState, a: Action)
    requires Inv(s) && Step(s, a) && a.TimeoutAt?
    ensures Simulates(s, a)
  {
    hide GenerationsOk, IoOk, RegistrationsOk, ChildrenOk, IdleOk, SignalsOk, MessagesOk, RecipientsKnown,
      HistoryOk, Accounts;
    var s', t := Apply(s, a), TimeoutHolder(s.timeoutGeneration, Top(s), a.when);
    TopAlive(s);
    LiveDueQueued(s.scheduled, s.events);
    LiveDueSame(s.scheduled, s.events, s'.events);
    assert t !in Outstanding(s);
    assert LiveTimers(s'.timeouts, s'.events) == LiveTimers(s.timeouts, s.events) + {t};
  }

  lemma SimulateDie(s: LoopState, a: Action)
    requires Inv(s) && Step(s, a) && a.Leave?
    ensures Simulates(s, a)
  {
    hide GenerationsOk, IoOk, RegistrationsOk, ChildrenOk, IdleOk, SignalsOk, MessagesOk, RecipientsKnown,
      HistoryOk, TimersOk;
    StackLeave(s);
    var h, u := Top(s), Unstolen(s);
    ViewSame(s, u);
    hide StackOk, View, Asserts;
    if !a.response.Keep? { ViewDie(u, h); }
  }

  lemma ViewDie(s: LoopState, h: Handle)
    requires Alive(s.events, h)
    ensures View(Kill(s, h)) == EagerApply(View(s), Die(h))
  {
    LiveDueDie(s.scheduled, s.events, h);
    assert LiveTimers(s.timeouts, s.events - {h.id}) ==
           set t | t in LiveTimers(s.timeouts, s.events) && t.recipient != h;
  }

  lemma LiveWithout(ts: set<TimeoutHolder>, events: map<nat, EvHolder>, t: TimeoutHolder)
    ensures LiveTimers(ts - {t}, events) == LiveTimers(ts, events) - {t}
    ensures t in ts && Alive(events, t.recipient) ==> t in LiveTimers(ts, events)
    ensures !Alive(events, t.recipient) ==> LiveTimers(ts - {t}, events) == LiveTimers(ts, events)
  {}

  lemma SimulateExpire(s: LoopState, a: Action)
    requires Step(s, a) && a.Due?
    ensures Simulates(s, a)
  {
    var t := a.timer;
    LiveDueConcat(s.scheduled, [Task(t.recipient, Timeout(t.id, t.when))], s.events);
    LiveWithout(s.timeouts, s.events, t);
    hide LiveTimers;
  }

  lemma SameEdited(e: map<nat, EvHolder>)
    ensures Edited(e, e)
  {}

  lemma PutEdited(e: map<nat, EvHolder>, i: nat, ev: EvHolder)
    requires i in e && ev.generation == e[i].generation
    ensures Edited(e, e[i := ev])
  {}

  lemma PopEdits(s: LoopState)
    requires s.scheduled != []
    ensures Edited(s.events, PopTask(s).events)
    ensures PopTask(s).timeouts == s.timeouts && PopTask(s).scheduled == s.scheduled[1..]
  {
    hide Edited;
    var t := s.scheduled[0];
    SameEdited(s.events);
    if t.param.Timeout? && Alive(s.events, t.recipient) {
      var ev := s.events[t.recipient.id];
      PutEdited(s.events, t.recipient.id, ev.(timeouts := ev.timeouts - 1));
    }
  }

  lemma PopViews(s: LoopState)
    requires s.scheduled != []
    ensures View(PopTask(s)) == Eager(LiveTimers(s.timeouts, s.events), LiveDue(s.scheduled[1..], s.events))
  {
    hide PopTask;
    var s' := PopTask(s);
    PopEdits(s);
    LiveDueSame(s'.scheduled, s.events, s'.events);
    assert LiveTimers(s'.timeouts, s'.events) == LiveTimers(s.timeouts, s.events);
  }

  lemma SimulatePop(s: LoopState, a: Action)
    requires Step(s, a) && a.Pop?
    ensures Simulates(s, a)
  {
    hide PopTask, Asserts;
    PopViews(s);
  }

  ghost predicate InPlace(a: Action) {
    a.Expect? || a.IoRegister? || a.IoRemove? || a.WatchChild? || a.Enter?
  }

  lemma StepEdits(s: LoopState, a: Action)
    requires Step(s, a) && InPlace(a)
    ensures Edited(s.events, Apply(s, a).events)
    ensures Apply(s, a).timeouts == s.timeouts && Apply(s, a).scheduled == s.scheduled
  {
    hide Edited;
    SameEdited(s.events);
    var s' := Apply(s, a);
    var h := if a.Enter? then s.pending.value.target else Top(s);
    if h.id in s.events && s'.events == s.events[h.id := s'.events[h.id]] {
      PutEdited(s.events, h.id, s'.events[h.id]);
    }
  }

  lemma SimulateEdit(s: LoopState, a: Action)
    requires Step(s, a) && InPlace(a)
    ensures Simulates(s, a)
  {
    hide Step, Apply;
    StepEdits(s, a);
    ViewSame(s, Apply(s, a));
  }

  lemma SimulateSend(s: LoopState, a: Action)
    requires Step(s, a) && a.SendTo?
    ensures Simulates(s, a)
  {
    if MsgTypeCheck(s.events, a.to, a.tp).None? {
      ViewPushed(s, Apply(s, a), [Task(a.to, Msg(Message(a.data, a.tp, Sent(Owner(s)))))]);
    }
  }

  lemma SimulateReceive(s: LoopState, a: Action)
    requires Step(s, a) && a.Receive?
    ensures Simulates(s, a)
  {
    hide MsgTypeCheck;
    var s', m := Apply(s, a), s.inbox[0];
    ViewPushed(s, s', if s'.scheduled == s.scheduled then [] else [Task(m.recipient, Msg(m.message))]);
  }

  lemma SimulateGathered(s: LoopState, a: Action)
    requires Step(s, a) && (a.Broadcast? || a.Ready? || a.PickIdle? || a.Reap?)
    ensures Simulates(s, a)
  {
    hide Step, Apply, Edited;
    var more;
    if a.Reap? { more := ReapQueues(s, a); } else { more := GatherQueues(s, a); }
    ViewPushed(s, Apply(s, a), more);
  }

  lemma ReapQueues(s: LoopState, a: Action) returns (more: seq<Task>)
    requires Step(s, a) && a.Reap?
    ensures Apply(s, a).scheduled == s.scheduled + more && NoTimersQueued(more)
    ensures Edited(s.events, Apply(s, a).events) && Apply(s, a).timeouts == s.timeouts
  {
    more := Apply(s, a).scheduled[|s.scheduled|..];
  }

  lemma GatherQueues(s: LoopState, a: Action) returns (more: seq<Task>)
    requires Step(s, a) && (a.Broadcast? || a.Ready? || a.PickIdle?)
    ensures Apply(s, a).scheduled == s.scheduled + more && NoTimersQueued(more)
    ensures Edited(s.events, Apply(s, a).events) && Apply(s, a).timeouts == s.timeouts
  {
    more := Apply(s, a).scheduled[|s.scheduled|..];
  }

  lemma SimulateQuiet(s: LoopState, a: Action)
    requires Step(s, a)
    requires a.PostTo? || a.SetActive? || a.EnableSignal? || a.AskIdle? || a.WatchSignal? || a.Drain? || a.DropDead?
             || a.Tick? || a.Cleanup? || a.Arrive?
    ensures Simulates(s, a)
  {
    hide Step, Apply;
    if a.DropDead? || a.Cleanup? { DeadDropped(s, a); } else { TimersUntouched(s, a); }
    ViewSame(s, Apply(s, a));
  }

  lemma TimersUntouched(s: LoopState, a: Action)
    requires Step(s, a)
    requires a.PostTo? || a.SetActive? || a.EnableSignal? || a.AskIdle? || a.WatchSignal? || a.Drain? || a.Tick? || a.Arrive?
    ensures var s' := Apply(s, a);
            s'.events == s.events && s'.scheduled == s.scheduled && s'.timeouts == s.timeouts
  {}

  lemma DeadDropped(s: LoopState, a: Action)
    requires Step(s, a) && (a.DropDead? || a.Cleanup?)
    ensures var s' := Apply(s, a);
            && s'.events == s.events && s'.scheduled == s.scheduled
            && LiveTimers(s'.timeouts, s'.events) == LiveTimers(s.timeouts, s.events)
  {}

  lemma SimulateInsert(s: LoopState, a: Action)
    requires Inv(s) && Step(s, a) && a.Insert?
    ensures Simulates(s, a)
  {
    hide GenerationsOk, StackOk, IoOk, RegistrationsOk, ChildrenOk, IdleOk, SignalsOk, MessagesOk, HistoryOk, Accounts;
    var s' := Apply(s, a);
    assert LiveTimers(s'.timeouts, s'.events) == LiveTimers(s.timeouts, s.events) by {
      forall t | t in s.timeouts ensures Alive(s'.events, t.recipient) <==> Alive(s.events, t.recipient) {
        assert t in Outstanding(s);
      }
    }
    ViewSame(s, s');
  }

  /** Forward simulation of one step, for every action. */
  lemma StepSimulates(s: LoopState, a: Action)
    requires Inv(s) && Step(s, a)
    ensures Simulates(s, a)
  {
    hide Inv, Step, Apply, Simulates;
    match a {
      case TimeoutAt(_) => SimulateStart(s, a);
      case Leave(_) => SimulateDie(s, a);
      case Due(_) => SimulateExpire(s, a);
      case Pop => SimulatePop(s, a);
      case Insert(_) => SimulateInsert(s, a);
      case Expect(_) => SimulateEdit(s, a);
      case IoRegister(_) => SimulateEdit(s, a);
      case IoRemove(_) => SimulateEdit(s, a);
      case WatchChild(_) => SimulateEdit(s, a);
      case Enter => SimulateEdit(s, a);
      case SendTo(_, _, _) => SimulateSend(s, a);
      case Receive => SimulateReceive(s, a);
      case Broadcast(_, _) => SimulateGathered(s, a);
      case Ready(_, _, _) => SimulateGathered(s, a);
      case PickIdle => SimulateGathered(s, a);
      case Reap(_, _) => SimulateGathered(s, a);
      case _ => SimulateQuiet(s, a);
    }
  }

  // ----- Whole runs -----

  ghost function EagerExec(e: Eager, seen: seq<(Instant, EagerAction)>): Option<Eager> {
    if seen == [] then Some(e)
    else
      match EagerExec(e, seen[..|seen| - 1])
      case None => None
      case Some(before) =>
        var (clock, last) := seen[|seen| - 1];
        if EagerCan(before, clock, last) then Some(EagerApply(before, last)) else None
  }

  /** What the eager store sees of a whole run, each step with the clock it happened at. */
  ghost function SeenRun(s: LoopState, acts: seq<Action>): seq<(Instant, EagerAction)>
    requires Exec(s, acts).Some?
  {
    if acts == [] then []
    else
      var before := acts[..|acts| - 1];
      SeenRun(s, before) + [(Exec(s, before).value.now, Seen(Exec(s, before).value, acts[|acts| - 1]))]
  }

  /**
   Lazy deletion refines eager deletion: in every run the eager store can take the same timer steps,
   and then the live timers of the heap and of the queue are exactly its timers.
   */
  lemma {:induction false} LazyRefinesEager(s: LoopState, acts: seq<Action>)
    requires Inv(s) && Exec(s, acts).Some?
    ensures EagerExec(View(s), SeenRun(s, acts)) == Some(View(Exec(s, acts).value))
  {
    hide Inv, Step, Apply, Seen, View, EagerCan, EagerApply;
    if acts != [] {
      var before, last := acts[..|acts| - 1], acts[|acts| - 1];
      LazyRefinesEager(s, before);
      RunKeepsInv(s, before);
      var mid := Exec(s, before).value;
      StepSimulates(mid, last);
      var seen := SeenRun(s, acts);
      assert seen == SeenRun(s, before) + [(mid.now, Seen(mid, last))];
      assert seen[..|seen| - 1] == SeenRun(s, before);
    }
  }
}
