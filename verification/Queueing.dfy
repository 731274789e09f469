/**
 What gets into the queue of tasks, and what a step takes from whom. All of it is spelled out on the state
 before the step, so that none of it depends on how the machine computes the state after it.
 */
module Queueing {
  import opened Wrappers
  import opened EventLoop
  import opened Invariants
  import opened Steps
  import opened Runs
  import opened History

  // ----- The queue -----

  /** The message may be queued: a background result, or of a type that a live event expects. */
  ghost predicate Passes(events: map<nat, EvHolder>, m: RemoteMessage) {
    || m.message.mode.Background?
    || (m.recipient.id in events && events[m.recipient.id].generation == m.recipient.generation
        && m.message.realType in events[m.recipient.id].expected)
  }

  ghost predicate Accepts(events: map<nat, EvHolder>, to: Handle, tp: MsgType) {
    to.id in events && events[to.id].generation == to.generation && tp in events[to.id].expected
  }

  /** The innermost callback, if there is one. */
  ghost function Caller(s: LoopState): Option<Handle> {
    if s.stack == [] then None else Some(Top(s))
  }

  /** The tasks that a step puts at the end of the queue. */
  ghost function Queued(s: LoopState, a: Action): seq<Task> {
    match a
    case SendTo(to, data, tp) =>
      if Accepts(s.events, to, tp) then [Task(to, Msg(Message(data, tp, Sent(Caller(s)))))] else []
    case Receive =>
      if s.inbox != [] && Passes(s.events, s.inbox[0])
      then [Task(s.inbox[0].recipient, Msg(s.inbox[0].message))] else []
    case Reap(pid, exit) => if pid in s.children then [Task(s.children[pid], Child(pid, exit))] else []
    case Broadcast(sig, order) => seq(|order|, k requires 0 <= k < |order| => Task(order[k], Signal(sig)))
    case Ready(owner, idx, kind) =>
      if Owns(s.events, owner, idx) && idx in s.ios
      then [Task(s.ios[idx], Io(idx + TOKEN_SHIFT, kind, s.events[owner.id].ios[idx]))] else []
    case Due(t) => [Task(t.recipient, Timeout(t.id, t.when))]
    case PickIdle => if s.wantIdle != [] then [Task(s.wantIdle[0], Idle)] else []
    case _ => []
  }

  /** The queue after a step: what was there, without the task that was taken, and the new ones. */
  ghost predicate QueueIs(s: LoopState, a: Action, s': LoopState) {
    && s'.pushed == s.pushed + Queued(s, a)
    && (a.Pop? ==> s.scheduled != [])
    && s'.scheduled == (if a.Pop? then s.scheduled[1..] else s.scheduled) + Queued(s, a)
  }

  lemma QueueGrows(s: LoopState, a: Action)
    requires Step(s, a)
    ensures QueueIs(s, a, Apply(s, a))
  {
    hide Step, Apply, QueueIs;
    if a.SendTo? { SendQueues(s, a); }
    else if a.Receive? || a.Broadcast? || a.Ready? { TaskQueues(s, a); }
    else if a.Due? || a.PickIdle? || a.Reap? { OwnQueues(s, a); }
    else if a.Pop? { PopQueues(s); }
    else { NoneQueuedThen(s, a); }
  }

  lemma SendQueues(s: LoopState, a: Action)
    requires Step(s, a) && a.SendTo?
    ensures QueueIs(s, a, Apply(s, a))
  {}

  lemma TaskQueues(s: LoopState, a: Action)
    requires Step(s, a) && (a.Receive? || a.Broadcast? || a.Ready?)
    ensures QueueIs(s, a, Apply(s, a))
  {
    if a.Broadcast? { assert Queued(s, a) == SignalTasks(a.sig, a.order); }
  }

  lemma OwnQueues(s: LoopState, a: Action)
    requires Step(s, a) && (a.Due? || a.PickIdle? || a.Reap?)
    ensures QueueIs(s, a, Apply(s, a))
  {}

  lemma PopQueues(s: LoopState)
    requires Step(s, Pop)
    ensures QueueIs(s, Pop, Apply(s, Pop))
  {}

  lemma NoneQueuedThen(s: LoopState, a: Action)
    requires Step(s, a) && !Queues(a) && !a.SendTo? && !a.Reap? && !a.Pop?
    ensures QueueIs(s, a, Apply(s, a))
  {
    hide Step, Apply;
    if Config(a) { ConfigQueues(s, a); }
    else if Gather(a) { GatherFrame(s, a); }
    else if a.Leave? { LeaveQueues(s, a); }
    else { ElsewhereFrame(s, a); }
  }

  lemma ConfigQueues(s: LoopState, a: Action)
    requires Step(s, a) && Config(a) && !a.SendTo?
    ensures Apply(s, a).scheduled == s.scheduled && Apply(s, a).pushed == s.pushed
  {}

  lemma LeaveQueues(s: LoopState, a: Action)
    requires Step(s, a) && a.Leave?
    ensures Apply(s, a).scheduled == s.scheduled && Apply(s, a).pushed == s.pushed
  {}

  /** All that a run queued, in order. */
  ghost function AllQueued(s: LoopState, acts: seq<Action>): seq<Task> {
    if acts == [] then []
    else
      var before := acts[..|acts| - 1];
      AllQueued(s, before) + match Exec(s, before) case Some(b) => Queued(b, acts[|acts| - 1]) case None => []
  }

  /** Over any run exactly these tasks were queued, in this order, and no others. */
  lemma {:induction false} EverythingQueued(s: LoopState, acts: seq<Action>)
    requires Exec(s, acts).Some?
    ensures Exec(s, acts).value.pushed == s.pushed + AllQueued(s, acts)
  {
    hide Step, Apply, Queued;
    if acts != [] {
      var before := acts[..|acts| - 1];
      EverythingQueued(s, before);
      QueueGrows(Exec(s, before).value, acts[|acts| - 1]);
    }
  }

  /** A broadcast reaches each recipient of the moment exactly once, and nobody else. */
  lemma BroadcastTellsAll(s: LoopState, sig: nat, order: seq<Handle>)
    requires Step(s, Broadcast(sig, order))
    ensures sig < |s.recipients|
    ensures var s' := Apply(s, Broadcast(sig, order));
            exists more :: s'.scheduled == s.scheduled + more && s'.pushed == s.pushed + more
                           && TellsAll(more, sig, s.recipients[sig])
  {
    hide Apply;
    QueueGrows(s, Broadcast(sig, order));
    TasksTellAll(sig, order, s.recipients[sig]);
  }

  /** One Signal task for each of these events, and nothing else. */
  ghost predicate TellsAll(tasks: seq<Task>, sig: nat, who: set<Handle>) {
    forall t :: multiset(tasks)[t] == if t.param == Signal(sig) && t.recipient in who then 1 else 0
  }

  lemma {:induction false} TasksTellAll(sig: nat, order: seq<Handle>, who: set<Handle>)
    requires forall k, l | 0 <= k < l < |order| :: order[k] != order[l]
    requires (set h | h in order) == who
    ensures TellsAll(seq(|order|, k requires 0 <= k < |order| => Task(order[k], Signal(sig))), sig, who)
    decreases |order|
  {
    var tasks := seq(|order|, k requires 0 <= k < |order| => Task(order[k], Signal(sig)));
    if order != [] {
      var n := |order| - 1;
      var h := order[n];
      assert h in order && h !in order[..n];
      assert (set g | g in order[..n]) == who - {h} by {
        forall g ensures g in order[..n] <==> g in who && g != h {
          assert g in order <==> g in order[..n] || g == h by { assert order == order[..n] + [h]; }
        }
      }
      TasksTellAll(sig, order[..n], who - {h});
      var before := seq(n, k requires 0 <= k < n => Task(order[..n][k], Signal(sig)));
      assert tasks == before + [Task(h, Signal(sig))];
    }
  }

  /** The tasks for the messages that may be queued, in order. */
  ghost function Passing(events: map<nat, EvHolder>, msgs: seq<RemoteMessage>): seq<Task> {
    if msgs == [] then []
    else
      var m := msgs[|msgs| - 1];
      Passing(events, msgs[..|msgs| - 1]) + if Passes(events, m) then [Task(m.recipient, Msg(m.message))] else []
  }

  lemma PassingOneMore(events: map<nat, EvHolder>, msgs: seq<RemoteMessage>, k: nat)
    requires k < |msgs|
    ensures Passing(events, msgs[..k + 1]) ==
            Passing(events, msgs[..k]) + if Passes(events, msgs[k]) then [Task(msgs[k].recipient, Msg(msgs[k].message))] else []
  {
    assert msgs[..k + 1][..k] == msgs[..k];
  }

  /** For the first death of each child that is watched, one task for the event that watches it. */
  ghost function ChildTasks(deaths: seq<(Pid, int)>, children: map<Pid, Handle>): seq<Task> {
    if deaths == [] then []
    else
      var n := |deaths| - 1;
      var pid, exit := deaths[n].0, deaths[n].1;
      ChildTasks(deaths[..n], children)
      + if pid in children && (forall k | 0 <= k < n :: deaths[k].0 != pid)
        then [Task(children[pid], Child(pid, exit))] else []
  }

  ghost function Dead(deaths: seq<(Pid, int)>): set<Pid> {
    set k | 0 <= k < |deaths| :: deaths[k].0
  }

  lemma ChildTasksOneMore(deaths: seq<(Pid, int)>, k: nat, children: map<Pid, Handle>)
    requires k < |deaths|
    ensures var pid := deaths[k].0;
            && Dead(deaths[..k + 1]) == Dead(deaths[..k]) + {pid}
            && ChildTasks(deaths[..k + 1], children) ==
               ChildTasks(deaths[..k], children)
               + if pid in children && pid !in Dead(deaths[..k]) then [Task(children[pid], Child(pid, deaths[k].1))] else []
  {
    assert deaths[..k + 1][..k] == deaths[..k];
    assert forall j | 0 <= j < k :: deaths[..k + 1][j] == deaths[..k][j];
    forall p ensures p in Dead(deaths[..k + 1]) <==> p in Dead(deaths[..k]) || p == deaths[k].0 {
      if p in Dead(deaths[..k]) {
        var j :| 0 <= j < k && deaths[..k][j].0 == p;
        assert deaths[..k + 1][j].0 == p;
      }
      assert deaths[..k + 1][k].0 == deaths[k].0;
    }
  }

  lemma {:induction false} ChildTasksOnly(deaths: seq<(Pid, int)>, children: map<Pid, Handle>)
    ensures forall t | t in ChildTasks(deaths, children) :: t.param.Child?
  {
    if deaths != [] { ChildTasksOnly(deaths[..|deaths| - 1], children); }
  }

  /**
   The tasks of a sweep: one for each recipient of each raised signal below `told`, those for the dead
   children if they were reaped, and nothing else.
   */
  ghost predicate SweptTasks(tasks: seq<Task>, told: nat, reaped: bool, raised: set<nat>, recipients: seq<set<Handle>>,
                             forChildren: seq<Task>)
  {
    forall t :: multiset(tasks)[t] ==
                if t.param.Signal? then
                  (if t.param.sig in raised && t.param.sig < told && t.param.sig < |recipients|
                      && t.recipient in recipients[t.param.sig] then 1 else 0)
                else if reaped then multiset(forChildren)[t]
                else 0
  }

  lemma SweptSkip(tasks: seq<Task>, k: nat, reaped: bool, raised: set<nat>, recipients: seq<set<Handle>>, forChildren: seq<Task>)
    requires SweptTasks(tasks, k, reaped, raised, recipients, forChildren) && k !in raised
    ensures SweptTasks(tasks, k + 1, reaped, raised, recipients, forChildren)
  {}

  lemma SweptChildren(tasks: seq<Task>, k: nat, raised: set<nat>, recipients: seq<set<Handle>>, deaths: seq<(Pid, int)>,
                      children: map<Pid, Handle>)
    requires SweptTasks(tasks, k, false, raised, recipients, ChildTasks(deaths, children))
    ensures SweptTasks(tasks + ChildTasks(deaths, children), k, true, raised, recipients, ChildTasks(deaths, children))
  {
    var more := ChildTasks(deaths, children);
    ChildTasksOnly(deaths, children);
    forall t ensures multiset(tasks + more)[t] == multiset(tasks)[t] + multiset(more)[t] {
      assert multiset(tasks + more) == multiset(tasks) + multiset(more);
    }
  }

  lemma SweptTold(tasks: seq<Task>, more: seq<Task>, k: nat, reaped: bool, raised: set<nat>, recipients: seq<set<Handle>>,
                  forChildren: seq<Task>)
    requires SweptTasks(tasks, k, reaped, raised, recipients, forChildren)
    requires k in raised && k < |recipients| && TellsAll(more, k, recipients[k])
    ensures SweptTasks(tasks + more, k + 1, reaped, raised, recipients, forChildren)
  {
    assert multiset(tasks + more) == multiset(tasks) + multiset(more);
  }

  /** What one raised signal puts into the queue. */
  ghost predicate SweptBy(q': seq<Task>, q: seq<Task>, sig: nat, told: bool, who: set<Handle>, forChildren: seq<Task>) {
    exists more :: q' == q + forChildren + more && if told then TellsAll(more, sig, who) else more == []
  }

  lemma SweptMore(tasks: seq<Task>, q1: seq<Task>, q2: seq<Task>, q: seq<Task>, sig: nat, told: bool, raised: set<nat>,
                  recipients: seq<set<Handle>>, deaths: seq<(Pid, int)>, children: map<Pid, Handle>, sigchld: nat)
    returns (tasks': seq<Task>)
    requires q1 == q + tasks && sig in raised && sig < |recipients| && (!told ==> sig == sigchld)
    requires SweptTasks(tasks, sig, sigchld in raised && sigchld < sig, raised, recipients, ChildTasks(deaths, children))
    requires SweptBy(q2, q1, sig, told, recipients[sig], if sig == sigchld then ChildTasks(deaths, children) else [])
    ensures q2 == q + tasks'
    ensures SweptTasks(tasks', if told then sig + 1 else sig, sigchld in raised && (sigchld < sig || sig == sigchld), raised,
                       recipients, ChildTasks(deaths, children))
  {
    hide SweptTasks, TellsAll, ChildTasks;
    var forChildren := if sig == sigchld then ChildTasks(deaths, children) else [];
    var more :| q2 == q1 + forChildren + more && if told then TellsAll(more, sig, recipients[sig]) else more == [];
    var reaped := sigchld in raised && (sigchld < sig || sig == sigchld);
    if sig == sigchld { SweptChildren(tasks, sig, raised, recipients, deaths, children); }
    assert tasks + forChildren == if sig == sigchld then tasks + ChildTasks(deaths, children) else tasks;
    if told { SweptTold(tasks + forChildren, more, sig, reaped, raised, recipients, ChildTasks(deaths, children)); }
    tasks' := tasks + forChildren + more;
    assert q2 == q + tasks';
    assert !told ==> tasks' == tasks + forChildren;
  }

  lemma NothingSwept(raised: set<nat>, recipients: seq<set<Handle>>, forChildren: seq<Task>)
    ensures SweptTasks([], 0, false, raised, recipients, forChildren)
  {}

  /** A stretch of a run that takes no task puts the same into the queue as into the history. */
  lemma QueueOfStretch(first: LoopState, t: seq<Action>, acts: seq<Action>, s: LoopState, s': LoopState)
    requires Exec(first, t) == Some(s) && Exec(first, t + acts) == Some(s') && Inv(s) && Inv(s')
    requires s'.log == s.log && s'.pending == s.pending && s.scheduled <= s'.scheduled
    ensures s'.scheduled == s.scheduled + AllQueued(s, acts)
  {
    hide Exec, GenerationsOk, StackOk, TimersOk, IoOk, RegistrationsOk, ChildrenOk, IdleOk, SignalsOk, MessagesOk,
      RecipientsKnown;
    ExecSplit(first, t + acts, |t|);
    assert (t + acts)[..|t|] == t && (t + acts)[|t|..] == acts;
    EverythingQueued(s, acts);
    var before, more := Tasks(s.log) + InHand(s.pending), AllQueued(s, acts);
    assert before + s'.scheduled == before + s.scheduled + more;
    assert s'.scheduled == (before + s'.scheduled)[|before|..];
    assert s.scheduled + more == (before + s.scheduled + more)[|before|..];
  }

  // ----- The inbox -----

  ghost predicate InboxIs(s: LoopState, a: Action, s': LoopState) {
    && (a.Receive? ==> s.inbox != [])
    && s'.inbox == (if a.Receive? then s.inbox[1..] else s.inbox) + if a.Arrive? then [a.msg] else []
  }

  lemma InboxStep(s: LoopState, a: Action)
    requires Step(s, a)
    ensures InboxIs(s, a, Apply(s, a))
  {
    hide Step, Apply;
    if Config(a) || a.Leave? { ConfigInbox(s, a); }
    else if Queues(a) { QueuesInbox(s, a); }
    else if Gather(a) { GatherFrame(s, a); }
    else { ElsewhereFrame(s, a); }
  }

  lemma ConfigInbox(s: LoopState, a: Action)
    requires Step(s, a) && (Config(a) || a.Leave?)
    ensures InboxIs(s, a, Apply(s, a))
  {}

  lemma QueuesInbox(s: LoopState, a: Action)
    requires Step(s, a) && Queues(a)
    ensures InboxIs(s, a, Apply(s, a))
  {}

  /** The messages that arrived in a run. */
  ghost function Arrived(acts: seq<Action>): seq<RemoteMessage> {
    if acts == [] then []
    else
      var last := acts[|acts| - 1];
      Arrived(acts[..|acts| - 1]) + if last.Arrive? then [last.msg] else []
  }

  /** The messages that a run took from the inbox, whether it queued them or not. */
  ghost function Received(s: LoopState, acts: seq<Action>): seq<RemoteMessage> {
    if acts == [] then []
    else
      var before := acts[..|acts| - 1];
      Received(s, before)
      + match Exec(s, before)
        case Some(b) => if acts[|acts| - 1].Receive? && b.inbox != [] then [b.inbox[0]] else []
        case None => []
  }

  lemma Shifted<T>(xs: seq<T>, arrived: seq<T>, received: seq<T>, mid: seq<T>, come: seq<T>, taken: seq<T>, rest: seq<T>)
    requires xs + arrived == received + mid && mid + come == taken + rest
    ensures xs + (arrived + come) == (received + taken) + rest
  {
    assert xs + (arrived + come) == (xs + arrived) + come;
    assert (received + mid) + come == received + (mid + come);
    assert received + (taken + rest) == (received + taken) + rest;
  }

  /** Over any run no message from other threads is lost or reordered before it is looked at. */
  lemma {:induction false} ReceivedInOrder(s: LoopState, acts: seq<Action>)
    requires Exec(s, acts).Some?
    ensures s.inbox + Arrived(acts) == Received(s, acts) + Exec(s, acts).value.inbox
  {
    hide Step, Apply;
    if acts != [] {
      var before, a := acts[..|acts| - 1], acts[|acts| - 1];
      var b := Exec(s, before).value;
      ReceivedInOrder(s, before);
      InboxStep(b, a);
      var rest := Exec(s, acts).value.inbox;
      var taken, come := if a.Receive? then [b.inbox[0]] else [], if a.Arrive? then [a.msg] else [];
      assert b.inbox + come == taken + rest;
      assert Received(s, acts) == Received(s, before) + taken;
      Shifted(s.inbox, Arrived(before), Received(s, before), b.inbox, come, taken, rest);
    }
  }

  // ----- Calls -----

  /** A message that is posted is handed to the event at once, with who posted it, if it accepts the type. */
  lemma PostCalls(s: LoopState, to: Handle, data: int, tp: MsgType)
    requires Step(s, PostTo(to, data, tp))
    ensures Apply(s, PostTo(to, data, tp)).pending ==
            if Accepts(s.events, to, tp) then Some(Call(to, Post(Message(data, tp, Posted(Caller(s)))))) else None
  {}

  // ----- Death -----

  /** `ys` is `xs` with this element taken out. */
  ghost predicate TakenOut(xs: seq<Handle>, h: Handle, ys: seq<Handle>) {
    if h !in xs then ys == xs
    else exists i :: 0 <= i < |xs| && xs[i] == h && ys == xs[..i] + xs[i + 1..]
  }

  /** What the death of an event takes away: what is its own, and nothing of anybody else. */
  ghost predicate OnlyItsOwn(s: LoopState, s': LoopState, h: Handle)
    requires Alive(s.events, h)
  {
    && h.id !in s'.events
    && (forall i | i != h.id :: i in s'.events <==> i in s.events)
    && (forall i | i in s'.events :: s'.events[i] == s.events[i])
    && TakenOut(s.wantIdle, h, s'.wantIdle)
    && |s'.recipients| == |s.recipients|
    && (forall k, g | 0 <= k < |s.recipients| :: g in s'.recipients[k] <==> g in s.recipients[k] && g != h)
    && (forall pid :: pid in s'.children <==> pid in s.children && s.children[pid] != h)
    && (forall pid | pid in s'.children :: s'.children[pid] == s.children[pid])
    && s'.iosReleased == s.iosReleased + s.events[h.id].ios.Keys && s'.ios == s.ios
    && s'.timeoutsDead == s.timeoutsDead + s.events[h.id].timeouts && s'.timeouts == s.timeouts
    && s'.inbox == s.inbox && s'.scheduled == s.scheduled && s'.enabled == s.enabled && s'.active == s.active
  }

  lemma TakenOutBehind(x: Handle, xs: seq<Handle>, h: Handle, ys: seq<Handle>)
    requires x != h && TakenOut(xs, h, ys)
    ensures TakenOut([x] + xs, h, [x] + ys)
  {
    var all := [x] + xs;
    if h in xs {
      var i :| 0 <= i < |xs| && xs[i] == h && ys == xs[..i] + xs[i + 1..];
      assert all[i + 1] == h;
      assert all[..i + 1] == [x] + xs[..i] && all[i + 2..] == xs[i + 1..];
      assert [x] + ys == all[..i + 1] + all[i + 2..];
    }
  }

  lemma TakenOutFirst(xs: seq<Handle>, h: Handle)
    ensures TakenOut([h] + xs, h, xs)
  {
    var all := [h] + xs;
    assert all[0] == h && xs == all[..0] + all[1..];
  }

  lemma {:induction false} WithoutOne(xs: seq<Handle>, h: Handle)
    requires forall k, l | 0 <= k < l < |xs| :: xs[k] != xs[l]
    ensures TakenOut(xs, h, Without(xs, h))
  {
    hide TakenOut;
    if xs == [] {
      NoneTakenOut(h);
    } else {
      assert xs == [xs[0]] + xs[1..];
      if xs[0] == h {
        assert h !in xs[1..];
        TakenOutFirst(xs[1..], h);
      } else {
        WithoutOne(xs[1..], h);
        TakenOutBehind(xs[0], xs[1..], h, Without(xs[1..], h));
      }
    }
  }

  lemma NoneTakenOut(h: Handle)
    ensures TakenOut([], h, Without([], h))
  {}

  lemma KillTakesOnlyItsOwn(s: LoopState, h: Handle)
    requires Alive(s.events, h) && ChildrenOk(s.events, s.children) && IdleOk(s.events, s.wantIdle)
    ensures OnlyItsOwn(s, Kill(s, h), h)
  {
    WithoutOne(s.wantIdle, h);
    assert At(s.events, h.id) == h;
  }

  lemma DeathTakesOnly(s: LoopState, response: Response)
    requires Inv(s) && s.stack != [] && Alive(s.events, Top(s)) && !response.Keep?
    ensures OnlyItsOwn(s.(stack := s.stack[..|s.stack| - 1]), LeaveCall(s, response), Top(s))
  {
    hide GenerationsOk, TimersOk, IoOk, RegistrationsOk, SignalsOk, MessagesOk, RecipientsKnown, HistoryOk, StackOk,
      ChildrenOk, IdleOk, Kill, OnlyItsOwn;
    assert LeaveCall(s, response) == Kill(Unstolen(s), Top(s));
    UnstolenChildren(s);
    KillTakesOnlyItsOwn(Unstolen(s), Top(s));
    SameOwn(s, Kill(Unstolen(s), Top(s)));
  }

  lemma UnstolenChildren(s: LoopState)
    requires s.stack != [] && Alive(s.events, Top(s)) && ChildrenOk(s.events, s.children) && IdleOk(s.events, s.wantIdle)
    ensures Alive(Unstolen(s).events, Top(s)) && ChildrenOk(Unstolen(s).events, Unstolen(s).children)
    ensures IdleOk(Unstolen(s).events, Unstolen(s).wantIdle)
  {
    forall i | i in s.events ensures At(Unstolen(s).events, i) == At(s.events, i) {}
  }

  /** Of the event that dies, nothing is compared. */
  lemma SameOwn(s: LoopState, s': LoopState)
    requires s.stack != [] && Alive(s.events, Top(s)) && OnlyItsOwn(Unstolen(s), s', Top(s))
    ensures OnlyItsOwn(s.(stack := s.stack[..|s.stack| - 1]), s', Top(s))
  {
    hide TakenOut;
  }

  /** When a callback returns, and not in order to go on. */
  lemma DeathTakesOnlyItsOwn(s: LoopState, response: Response)
    requires Reachable(s) && Step(s, Leave(response)) && !response.Keep?
    ensures s.stack != [] && Alive(s.events, Top(s))
    ensures OnlyItsOwn(s.(stack := s.stack[..|s.stack| - 1]), Apply(s, Leave(response)), Top(s))
  {
    hide Reachable, GenerationsOk, TimersOk, IoOk, RegistrationsOk, SignalsOk, MessagesOk, RecipientsKnown, HistoryOk;
    ReachableInv(s);
    TopAlive(s);
    DeathTakesOnly(s, response);
  }

  /** When a callback returns in order to go on, its event is free again, and nothing else changes. */
  lemma GoingOnChangesNothing(s: LoopState)
    requires Reachable(s) && Step(s, Leave(Keep))
    ensures s.stack != [] && Alive(s.events, Top(s))
    ensures var i := Top(s).id;
            Apply(s, Leave(Keep)) == s.(stack := s.stack[..|s.stack| - 1],
                                        events := s.events[i := s.events[i].(stolen := false)])
  {
    hide Reachable, GenerationsOk, TimersOk, IoOk, RegistrationsOk, SignalsOk, MessagesOk, RecipientsKnown, HistoryOk,
      ChildrenOk, IdleOk;
    ReachableInv(s);
    TopAlive(s);
  }

  /** The requests of other events stay in order when one asks, and its own goes to the end if it moves. */
  lemma IdleRequestsInOrder(s: LoopState, toBack: bool)
    requires Reachable(s) && Step(s, AskIdle(toBack))
    ensures s.stack != []
    ensures var s', h := Apply(s, AskIdle(toBack)), Top(s);
            if h in s.wantIdle && !toBack then s'.wantIdle == s.wantIdle
            else s'.wantIdle != [] && s'.wantIdle[|s'.wantIdle| - 1] == h
                 && TakenOut(s.wantIdle, h, s'.wantIdle[..|s'.wantIdle| - 1])
  {
    hide Reachable, GenerationsOk, TimersOk, IoOk, RegistrationsOk, SignalsOk, MessagesOk, RecipientsKnown, HistoryOk,
      StackOk, ChildrenOk;
    ReachableInv(s);
    WithoutOne(s.wantIdle, Top(s));
    var s' := Apply(s, AskIdle(toBack));
    assert s'.wantIdle != s.wantIdle ==> s'.wantIdle[..|s'.wantIdle| - 1] == Without(s.wantIdle, Top(s));
  }

  lemma NoTasks(events: map<nat, EvHolder>, children: map<Pid, Handle>)
    ensures Passing(events, []) == [] && ChildTasks([], children) == [] && Dead([]) == {}
  {}
}
