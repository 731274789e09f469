/** Relations between loop states that the loops of Loop.dfy keep, and their small helpers. */
module LoopFacts {
  import opened Wrappers
  import opened EventLoop
  import opened Invariants
  import opened Preservation
  import opened Timers
  import Slabs = Recycler

  /**
   What gathering IO, messages, signals and children may do: queue tasks that are not timers, read the
   inbox, and take reaped children from the events.
   */
  ghost predicate OnlyGathered(s: LoopState, s': LoopState) {
    && Edited(s.events, s'.events) && SameStolen(s.events, s'.events) && SameIos(s.events, s'.events)
    && s' == s.(events := s'.events, scheduled := s'.scheduled, pushed := s'.pushed, inbox := s'.inbox,
                children := s'.children)
    && s.scheduled <= s'.scheduled
    && (NoTimersQueued(s.scheduled) ==> NoTimersQueued(s'.scheduled))
  }

  lemma GatheredNothing(s: LoopState)
    ensures OnlyGathered(s, s)
  {}

  /** The parts that the code relies on while it gathers. */
  lemma GatheredSame(s: LoopState, s': LoopState)
    requires OnlyGathered(s, s')
    ensures s'.pending == s.pending && s'.recipients == s.recipients && s'.sigchld == s.sigchld
    ensures forall h, k :: Owns(s'.events, h, k) <==> Owns(s.events, h, k)
  {}

  lemma GatheredLog(s: LoopState, s': LoopState)
    requires OnlyGathered(s, s')
    ensures s'.log == s.log && s'.pending == s.pending && s.scheduled <= s'.scheduled
  {}

  lemma GatheredTrans(s: LoopState, s1: LoopState, s2: LoopState)
    requires OnlyGathered(s, s1) && OnlyGathered(s1, s2)
    ensures OnlyGathered(s, s2)
  {}

  lemma GatheredMessage(s: LoopState, s': LoopState)
    requires OnlyGathered(s, s') && s'.inbox != []
    ensures OnlyGathered(s, ReceiveMessage(s'))
    ensures ReceiveMessage(s').pending == s'.pending && |ReceiveMessage(s').inbox| == |s'.inbox| - 1
  {}

  lemma GatheredChild(s: LoopState, s': LoopState, pid: Pid, exit: int)
    requires OnlyGathered(s, s') && (pid in s'.children ==> s'.children[pid].id in s'.events)
    ensures OnlyGathered(s, ReapChild(s', pid, exit)) && ReapChild(s', pid, exit).pending == s'.pending
            && ReapChild(s', pid, exit).inbox == s'.inbox
  {}

  lemma GatheredSignal(s: LoopState, s': LoopState, sig: nat, s2: LoopState, order: seq<Handle>)
    requires OnlyGathered(s, s') && s2 == BroadcastSignal(s', sig, order)
    ensures OnlyGathered(s, s2) && s2.pending == s'.pending && s2.recipients == s'.recipients
            && s2.inbox == s'.inbox
  {}

  lemma GatheredIo(s: LoopState, s': LoopState, owner: Handle, idx: nat, ready: nat)
    requires OnlyGathered(s, s') && owner.id in s'.events && idx in s'.events[owner.id].ios && idx in s'.ios
    ensures OnlyGathered(s, QueueReady(s', owner, idx, ready)) && QueueReady(s', owner, idx, ready).pending == s'.pending
            && QueueReady(s', owner, idx, ready).inbox == s'.inbox
  {}

  method ReleaseAll(slab: Slabs.Recycler<Handle>, ids: set<nat>)
    requires slab.Valid() && ids <= slab.contents.Keys
    modifies slab
    ensures slab.Valid() && slab.contents == old(slab.contents) - ids
  {
    hide Slabs.Recycler.Valid;
    var todo := ids;
    while todo != {}
      invariant slab.Valid() && todo <= ids && todo <= slab.contents.Keys
      invariant slab.contents == old(slab.contents) - (ids - todo)
      decreases |todo|
    {
      var id :| id in todo;
      var _ := slab.Release(id);
      todo := todo - {id};
    }
  }

  /** The elements of a set in some order. */
  method Listed(hs: set<Handle>) returns (order: seq<Handle>)
    ensures forall h :: h in order <==> h in hs
    ensures forall k, l | 0 <= k < l < |order| :: order[k] != order[l]
  {
    order := [];
    var todo := hs;
    while todo != {}
      invariant todo <= hs
      invariant forall h :: h in order <==> h in hs - todo
      invariant forall k, l | 0 <= k < l < |order| :: order[k] != order[l]
      decreases |todo|
    {
      var h :| h in todo;
      order := order + [h];
      todo := todo - {h};
    }
  }

  ghost function AsTasks(ts: seq<TimeoutHolder>): (r: seq<Task>)
    ensures |r| == |ts|
    ensures forall k | 0 <= k < |r| :: r[k] == Task(ts[k].recipient, Timeout(ts[k].id, ts[k].when))
  {
    seq(|ts|, k requires 0 <= k < |ts| => Task(ts[k].recipient, Timeout(ts[k].id, ts[k].when)))
  }

  /** Between `s` and `s'` exactly the timers `fired` moved from the heap to the queue, earliest first. */
  ghost predicate QueuedInOrder(s: LoopState, s': LoopState, fired: seq<TimeoutHolder>) {
    && s' == s.(scheduled := s.scheduled + AsTasks(fired), pushed := s.pushed + AsTasks(fired), timeouts := s'.timeouts)
    && s'.timeouts <= s.timeouts
    && (forall t :: t in fired <==> t in s.timeouts && t !in s'.timeouts)
    && (forall t | t in fired :: t.when <= s.now && forall u | u in s'.timeouts :: t.when <= u.when)
    && (forall k, l | 0 <= k < l < |fired| :: fired[k].when <= fired[l].when && fired[k] != fired[l])
  }

  lemma NothingQueued(s: LoopState)
    ensures QueuedInOrder(s, s, [])
  {
    assert s.scheduled + AsTasks([]) == s.scheduled && s.pushed + AsTasks([]) == s.pushed;
  }

  lemma QueuedOneMore(s: LoopState, s': LoopState, fired: seq<TimeoutHolder>, t: TimeoutHolder)
    requires QueuedInOrder(s, s', fired) && OnTop(s'.timeouts, t) && t.when <= s'.now
    ensures QueuedInOrder(s, QueueDue(s', t), fired + [t])
    ensures |QueueDue(s', t).timeouts| < |s'.timeouts|
    ensures QueueDue(s', t).pending == s'.pending && QueueDue(s', t).now == s'.now
  {
    var task := Task(t.recipient, Timeout(t.id, t.when));
    assert AsTasks(fired + [t]) == AsTasks(fired) + [task];
    assert s.scheduled + AsTasks(fired + [t]) == s'.scheduled + [task];
    assert s.pushed + AsTasks(fired + [t]) == s'.pushed + [task];
    assert forall k | 0 <= k < |fired| :: fired[k] in fired;
  }

  lemma AllDueQueued(s: LoopState, s': LoopState, fired: seq<TimeoutHolder>, top: Option<TimeoutHolder>)
    requires QueuedInOrder(s, s', fired)
    requires if top.None? then s'.timeouts == {} else OnTop(s'.timeouts, top.value) && top.value.when > s.now
    ensures forall t :: t in fired <==> t in s.timeouts && t.when <= s.now
  {}

  /** Only dead timers were thrown away. */
  ghost predicate PrunedOnly(s: LoopState, s': LoopState) {
    && s' == s.(timeouts := s'.timeouts, dropped := s'.dropped, spent := s'.spent)
    && s'.timeouts <= s.timeouts
    && LiveTimers(s'.timeouts, s'.events) == LiveTimers(s.timeouts, s.events)
  }

  lemma PrunedNothing(s: LoopState)
    ensures PrunedOnly(s, s)
  {}

  lemma PrunedOneMore(s: LoopState, s': LoopState, t: TimeoutHolder)
    requires PrunedOnly(s, s') && OnTop(s'.timeouts, t) && !Alive(s'.events, t.recipient)
    ensures PrunedOnly(s, DropTimer(s', t))
    ensures |DropTimer(s', t).timeouts| < |s'.timeouts|
  {}

  /** Nothing dead would wake the loop up. */
  ghost predicate TopIsLive(s: LoopState) {
    s.timeouts == {} || exists t :: OnTop(s.timeouts, t) && Alive(s.events, t.recipient)
  }

  lemma TopGivesWakeUp(s: LoopState, clock: Instant, top: Option<TimeoutHolder>)
    requires top.None? ==> s.timeouts == {}
    requires top.Some? ==> OnTop(s.timeouts, top.value) && Alive(s.events, top.value.recipient)
    ensures TopIsLive(s)
    ensures s.wantIdle != [] ==> WakeUp(s, clock, Some(0))
    ensures s.wantIdle == [] && top.None? ==> WakeUp(s, clock, None)
    ensures s.wantIdle == [] && top.Some? ==>
              WakeUp(s, clock, Some(if top.value.when < clock then 0 else top.value.when - clock))
  {
    if top.Some? {
      assert EarliestLive(s.timeouts, s.events, top.value);
    }
  }

  /** Dead timers do not matter for the wake-up time. */
  lemma SameWakeUp(s: LoopState, s': LoopState)
    requires PrunedOnly(s, s')
    ensures forall clock, r :: WakeUp(s', clock, r) <==> WakeUp(s, clock, r)
  {}

  /** BinaryHeap::peek: an entry with the smallest deadline. */
  method Peek(ts: set<TimeoutHolder>) returns (t: Option<TimeoutHolder>)
    ensures t.None? <==> ts == {}
    ensures t.Some? ==> OnTop(ts, t.value)
  {
    if ts == {} {
      return None;
    }
    var best :| best in ts;
    var rest := ts - {best};
    while rest != {}
      invariant rest <= ts && best in ts
      invariant forall u | u in ts - rest :: best.when <= u.when
      decreases |rest|
    {
      var u :| u in rest;
      if u.when < best.when {
        best := u;
      }
      rest := rest - {u};
    }
    t := Some(best);
  }

  /** If any timer is queued, one of a live event is. */
  ghost predicate SomeTimerLive(s: LoopState) {
    (exists t :: t in s.scheduled && t.param.Timeout?) ==>
      exists t :: t in s.scheduled && t.param.Timeout? && Alive(s.events, t.recipient)
  }

  lemma NothingScheduled(s: LoopState)
    ensures s.scheduled == [] ==> SomeTimerLive(s) && NoTimersQueued(s.scheduled)
  {}

  lemma TopStays(s: LoopState, s': LoopState)
    requires TopIsLive(s) && s'.timeouts == s.timeouts && s'.events == s.events
    ensures TopIsLive(s')
  {}

  lemma PrunedKeeps(s: LoopState, s': LoopState)
    requires PrunedOnly(s, s')
    ensures s'.scheduled == s.scheduled && s'.stack == s.stack && s'.pending == s.pending && s'.events == s.events
            && s'.now == s.now
  {}

  lemma GatheredKeeps(s: LoopState, s': LoopState)
    requires OnlyGathered(s, s')
    ensures s'.stack == s.stack && s'.pending == s.pending && s'.now == s.now
    ensures TopIsLive(s) ==> TopIsLive(s')
    ensures NoTimersQueued(s.scheduled) ==> NoTimersQueued(s'.scheduled)
  {
    if TopIsLive(s) && s.timeouts != {} {
      var t :| OnTop(s.timeouts, t) && Alive(s.events, t.recipient);
      assert OnTop(s'.timeouts, t) && Alive(s'.events, t.recipient);
    }
  }

  lemma CleanupKeepsTop(s: LoopState)
    requires TopIsLive(s)
    ensures TopIsLive(CleanupTimers(s))
    ensures CleanupTimers(s).scheduled == s.scheduled
    ensures CleanupTimers(s).stack == s.stack && CleanupTimers(s).pending == s.pending && CleanupTimers(s).now == s.now
  {
    if s.timeouts != {} {
      var t :| OnTop(s.timeouts, t) && Alive(s.events, t.recipient);
      assert OnTop(CleanupTimers(s).timeouts, t);
    }
  }

  lemma FiredHasLive(s: LoopState, s': LoopState, fired: seq<TimeoutHolder>)
    requires QueuedInOrder(s, s', fired) && TopIsLive(s) && NoTimersQueued(s.scheduled)
    requires forall t :: t in fired <==> t in s.timeouts && t.when <= s.now
    ensures SomeTimerLive(s')
    ensures s'.stack == s.stack && s'.pending == s.pending && s'.now == s.now
    ensures forall t | t in s'.timeouts :: t.when > s'.now
  {
    if fired != [] {
      assert fired[0] in fired;
      var t :| OnTop(s.timeouts, t) && Alive(s.events, t.recipient);
      var k :| 0 <= k < |fired| && fired[k] == t;
      assert s'.scheduled[|s.scheduled| + k] == AsTasks(fired)[k];
      assert AsTasks(fired)[k] in s'.scheduled;
    }
  }

  lemma IdleKeepsLive(s: LoopState, s': LoopState)
    requires s.scheduled == [] && SomeTimerLive(s)
    requires s' == if s.wantIdle == [] then s else QueueIdle(s)
    ensures SomeTimerLive(s')
    ensures s'.stack == s.stack && s'.pending == s.pending && s'.now == s.now && s'.timeouts == s.timeouts
  {}

  /** The loop over all signals that takes one event out of their recipients. */
  method ForgetAll(recipients: seq<set<Handle>>, h: Handle) returns (r: seq<set<Handle>>)
    ensures r == Forget(recipients, h)
  {
    r := recipients;
    for k := 0 to |recipients|
      invariant |r| == |recipients|
      invariant forall l | 0 <= l < |r| :: r[l] == if l < k then recipients[l] - {h} else recipients[l]
    {
      r := r[k := r[k] - {h}];
    }
  }
}
