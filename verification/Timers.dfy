/** The timer store: lazy deletion, its statistics, pruning, waking up and firing. */
module Timers {
  import opened Wrappers
  import opened EventLoop
  import opened Invariants
  import opened Steps
  import opened Runs

  // ----- Statistics -----

  lemma {:induction false} QueuedSize(q: seq<Task>)
    requires QueuedOnce(q)
    ensures |QueuedTimers(q)| == TimeoutTasks(q)
  {
    if q != [] { QueuedSize(q[1..]); }
  }

  ghost function TimeoutTasks(q: seq<Task>): nat {
    if q == [] then 0 else TimeoutTasks(q[1..]) + if q[0].param.Timeout? then 1 else 0
  }

  /** The entries of one event in the heap and in the queue. */
  ghost function EntriesOf(s: LoopState, h: Handle): nat {
    |TimersOf(s.timeouts, h)| + |TimersOf(QueuedTimers(s.scheduled), h)|
  }

  /**
   The three counters and the count of each event are exact in every reachable state, so the
   subtractions of `timers_cleanup` and of the Timeout arm of `run_one` never underflow.
   */
  lemma StatisticsExact(s: LoopState)
    requires Reachable(s)
    ensures s.timeoutsInserted == |s.timeouts| + s.timeoutsFired + TimeoutTasks(s.scheduled) + s.dropped
    ensures s.timeoutsDead == |DeadTimers(s.timeouts, s.events)|
                              + |DeadTimers(QueuedTimers(s.scheduled), s.events)| + s.dropped
    ensures forall i | i in s.events :: s.events[i].timeouts == EntriesOf(s, At(s.events, i))
    ensures NoTimersQueued(s.scheduled) ==>
              && HandledDead(s) >= 0
              && StillDead(s) == |DeadTimers(s.timeouts, s.events)|
  {
    hide GenerationsOk, StackOk, IoOk, RegistrationsOk, ChildrenOk, IdleOk, SignalsOk, MessagesOk, RecipientsKnown,
      HistoryOk, TimersUnique, Reachable;
    ReachableInv(s);
    QueuedSize(s.scheduled);
    var heap, queue := s.timeouts, QueuedTimers(s.scheduled);
    assert DeadTimers(Outstanding(s), s.events) == DeadTimers(heap, s.events) + DeadTimers(queue, s.events);
    assert DeadTimers(heap, s.events) !! DeadTimers(queue, s.events);
    forall i | i in s.events ensures s.events[i].timeouts == EntriesOf(s, At(s.events, i)) {
      var h := At(s.events, i);
      assert TimersOf(Outstanding(s), h) == TimersOf(heap, h) + TimersOf(queue, h);
      assert TimersOf(heap, h) !! TimersOf(queue, h);
    }
    if NoTimersQueued(s.scheduled) { StatsExact(s); }
  }

  // ----- Pruning -----

  /**
   Right after `timers_cleanup` the heap holds at most five dead timers more than live ones, or four
   times the live ones. It removes nothing or exactly all the timers of dead events.
   */
  lemma CleanupBoundsHeap(s: LoopState)
    requires Reachable(s) && Can(s, Cleanup)
    ensures var s' := CleanupTimers(s);
            var alive := |LiveTimers(s.timeouts, s.events)|;
            && LiveTimers(s'.timeouts, s'.events) == LiveTimers(s.timeouts, s.events)
            && (|s'.timeouts| <= alive + 5 || |s'.timeouts| <= 4 * alive)
            && (if |s.timeouts| - alive > 5 && 3 * alive < |s.timeouts| - alive
                then s'.timeouts == LiveTimers(s.timeouts, s.events)
                else s'.timeouts == s.timeouts)
  {
    hide GenerationsOk, StackOk, IoOk, RegistrationsOk, ChildrenOk, IdleOk, SignalsOk, MessagesOk, RecipientsKnown,
      HistoryOk, TimersUnique, Reachable;
    ReachableInv(s);
    StatsExact(s);
  }

  // ----- Firing -----

  /** A timer that is taken from the queue is due, and it was never taken before. */
  lemma TakenDueAndUnspent(s: LoopState)
    requires Inv(s) && s.scheduled != [] && s.scheduled[0].param.Timeout?
    ensures s.scheduled[0].param.when <= s.now
    ensures s.scheduled[0].param.id !in s.spent && s.scheduled[0].param.id in PopTask(s).spent
  {
    hide GenerationsOk, StackOk, IoOk, RegistrationsOk, ChildrenOk, IdleOk, SignalsOk, MessagesOk, RecipientsKnown,
      HistoryOk, Accounts;
    assert HolderOf(s.scheduled[0]) in Outstanding(s);
  }

  ghost predicate TakesTimer(start: LoopState, acts: seq<Action>, i: nat)
    requires i < |acts| && Exec(start, acts).Some?
  {
    && acts[i].Pop?
    && var s := Before(start, acts, i);
       s.scheduled != [] && s.scheduled[0].param.Timeout?
  }

  /** In any run, a timeout is taken for dispatch only when it is due, and never taken again. */
  lemma FiresOnceAndNotEarly(start: LoopState, acts: seq<Action>, i: nat)
    requires Inv(start) && Exec(start, acts).Some?
    requires i < |acts| && TakesTimer(start, acts, i)
    ensures var si := Before(start, acts, i);
            && si.scheduled != [] && si.scheduled[0].param.Timeout? && si.scheduled[0].param.when <= si.now
            && forall j | i < j < |acts| && TakesTimer(start, acts, j) ::
                 Before(start, acts, j).scheduled[0].param.id != si.scheduled[0].param.id
  {
    hide Inv, Exec, Later, TakesTimer;
    TakenInRun(start, acts, i);
    forall j | i < j < |acts| && TakesTimer(start, acts, j)
      ensures Before(start, acts, j).scheduled != [] && Before(start, acts, j).scheduled[0].param.Timeout?
      ensures Before(start, acts, j).scheduled[0].param.id != Before(start, acts, i).scheduled[0].param.id
    {
      TakenInRun(start, acts, j);
      SpentStays(start, acts, i + 1, j);
    }
  }

  lemma TakenInRun(start: LoopState, acts: seq<Action>, i: nat)
    requires Inv(start) && Exec(start, acts).Some?
    requires i < |acts| && TakesTimer(start, acts, i)
    ensures var s := Before(start, acts, i);
            && s.scheduled != [] && s.scheduled[0].param.Timeout? && s.scheduled[0].param.when <= s.now
            && s.scheduled[0].param.id !in s.spent && s.scheduled[0].param.id in Before(start, acts, i + 1).spent
  {
    hide Inv, Step, PopTask;
    TakesFirst(start, acts, i);
    var s := Before(start, acts, i);
    hide TakesTimer, Exec, Apply;
    RunKeepsInv(start, acts[..i]);
    BeforeNext(start, acts, i);
    TakenDueAndUnspent(s);
    PopsTask(s);
  }

  lemma TakesFirst(start: LoopState, acts: seq<Action>, i: nat)
    requires i < |acts| && Exec(start, acts).Some? && TakesTimer(start, acts, i)
    ensures acts[i] == Pop && Before(start, acts, i).scheduled != [] && Before(start, acts, i).scheduled[0].param.Timeout?
  {}

  lemma PopsTask(s: LoopState)
    requires Step(s, Pop)
    ensures Apply(s, Pop) == PopTask(s)
  {}

  lemma SpentStays(start: LoopState, acts: seq<Action>, i: nat, j: nat)
    requires i <= j <= |acts| && Exec(start, acts).Some?
    ensures Before(start, acts, i).spent <= Before(start, acts, j).spent
  {
    hide Exec;
    BeforeLater(start, acts, i, j);
  }

  // ----- Waking up -----

  ghost predicate EarliestLive(ts: set<TimeoutHolder>, events: map<nat, EvHolder>, t: TimeoutHolder) {
    t in LiveTimers(ts, events) && forall u | u in LiveTimers(ts, events) :: t.when <= u.when
  }

  /**
   The wake-up time that `timeout_min` has to give to `poll`: with idle requests do not block, else
   sleep exactly until the earliest deadline of a live event, for ever if there is none.
   */
  ghost predicate WakeUp(s: LoopState, clock: Instant, r: Option<int>) {
    if s.wantIdle != [] then r == Some(0)
    else
      match r
      case None => LiveTimers(s.timeouts, s.events) == {}
      case Some(d) =>
        exists t :: EarliestLive(s.timeouts, s.events, t) && d == if t.when < clock then 0 else t.when - clock
  }

  /** The wake-up time is determined by the live timers and idle requests alone. */
  lemma WakeUpUnique(s: LoopState, s': LoopState, clock: Instant, r: Option<int>, r': Option<int>)
    requires LiveTimers(s.timeouts, s.events) == LiveTimers(s'.timeouts, s'.events)
    requires s.wantIdle == [] <==> s'.wantIdle == []
    requires WakeUp(s, clock, r) && WakeUp(s', clock, r')
    ensures r == r'
  {
    if s.wantIdle == [] && r.Some? && r'.Some? {
      var t :| EarliestLive(s.timeouts, s.events, t) && r.value == if t.when < clock then 0 else t.when - clock;
      var u :| EarliestLive(s'.timeouts, s'.events, u) && r'.value == if u.when < clock then 0 else u.when - clock;
    }
  }

  lemma OneWakeUp(s: LoopState, clock: Instant)
    ensures forall r, r' :: WakeUp(s, clock, r) && WakeUp(s, clock, r') ==> r == r'
  {
    forall r, r' | WakeUp(s, clock, r) && WakeUp(s, clock, r') ensures r == r' {
      WakeUpUnique(s, s, clock, r, r');
    }
  }
}
