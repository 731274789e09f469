/** Dispatch: the stack of callbacks, the order of tasks, the types of messages, the identity of IOs. */
module Dispatch {
  import opened Wrappers
  import opened EventLoop
  import opened Invariants
  import opened Steps
  import opened Runs

  // ----- Re-entrancy -----

  /** The handles of the events that are in the middle of a callback. */
  ghost function Stolen(s: LoopState): set<Handle> {
    set i | i in s.events && s.events[i].stolen :: At(s.events, i)
  }

  /** In every reachable state the stolen events are exactly the active frames, each of them once. */
  lemma StolenAreFrames(s: LoopState)
    requires Reachable(s)
    ensures Stolen(s) == (set h | h in s.stack)
    ensures |Stolen(s)| == |s.stack|
    ensures forall h | h in s.stack :: Alive(s.events, h)
  {
    ReachableInv(s);
    hide Reachable, TimersOk, IoOk, ChildrenOk, SignalsOk, MessagesOk, RecipientsKnown, HistoryOk;
    forall h ensures h in Stolen(s) <==> h in s.stack {
      if h in s.stack {
        assert Alive(s.events, h) && At(s.events, h.id) == h;
      }
    }
    DistinctFrames(s.stack);
  }

  lemma {:induction false} DistinctFrames(hs: seq<Handle>)
    requires forall k, l | 0 <= k < l < |hs| :: hs[k] != hs[l]
    ensures |set h | h in hs| == |hs|
  {
    if hs != [] {
      var n := |hs| - 1;
      DistinctFrames(hs[..n]);
      assert (set h | h in hs) == (set h | h in hs[..n]) + {hs[n]};
      assert hs[n] !in hs[..n];
    }
  }

  /**
   The call that is about to be made always finds its event, and when the callback returns the event
   is still in its slot, stolen, and no other frame uses it: `event_call` never answers Missing to the
   loop itself, and the event that is destroyed is never one of the remaining frames.
   */
  lemma CallsFindTheirEvent(s: LoopState, response: Response)
    requires Reachable(s)
    ensures s.pending.Some? ==> Alive(s.events, s.pending.value.target)
    ensures s.stack != [] ==> Alive(s.events, Top(s)) && s.events[Top(s).id].stolen
    ensures s.stack != [] ==> Returned(s, LeaveCall(s, response), response)
  {
    ReachableInv(s);
    hide Reachable, GenerationsOk, TimersOk, IoOk, RegistrationsOk, ChildrenOk, IdleOk, SignalsOk, MessagesOk,
      RecipientsKnown, HistoryOk;
    if s.stack != [] {
      StackLeave(s);
      LeaveFrees(s, response);
    }
  }

  /** The callback of the top frame of `s` returned: only its own event changed. */
  ghost predicate Returned(s: LoopState, s': LoopState, response: Response)
    requires s.stack != []
  {
    && Top(s) !in s'.stack
    && Stolen(s') == Stolen(s) - {Top(s)}
    && (Alive(s'.events, Top(s)) <==> response.Keep?)
    && (forall h | h != Top(s) :: Alive(s'.events, h) <==> Alive(s.events, h))
  }

  lemma LeaveFrees(s: LoopState, response: Response)
    requires s.stack != [] && StackOk(s.events, s.stack, s.pending)
    requires Alive(s.events, Top(s))
    ensures Returned(s, LeaveCall(s, response), response)
  {
    StackLeave(s);
    var s' := LeaveCall(s, response);
    forall h ensures h in Stolen(s') <==> h in Stolen(s) && h != Top(s) {
      if h in Stolen(s) && h != Top(s) { assert At(s'.events, h.id) == h; }
    }
  }

  // ----- What becomes of a task -----

  /**
   Each step settles at most one task, and with the fate that fits: dropped only when the recipient
   is dead or no longer owns the IO, refused as busy only when the recipient is one of the active
   frames, and otherwise its callback is entered.
   */
  lemma FateFits(s: LoopState, a: Action)
    requires Reachable(s) && Step(s, a)
    ensures var s' := Apply(s, a);
            s'.log == s.log ||
            exists t, fate :: s'.log == s.log + [Handled(t, fate)] && FateIs(s, s', t, fate)
  {
    hide Inv, Step, Apply, PopTask, EnterCall, Reachable;
    ReachableInv(s);
    if a.Pop? {
      PopFate(s);
    } else if a.Enter? {
      EnterFate(s);
    } else {
      OthersSettleNothing(s, a);
    }
  }

  lemma OthersSettleNothing(s: LoopState, a: Action)
    requires Step(s, a) && !a.Pop? && !a.Enter?
    ensures Apply(s, a).log == s.log
  {
    if Config(a) { ConfigSettlesNothing(s, a); }
    else if Gather(a) { GatherSettlesNothing(s, a); }
  }

  lemma ConfigSettlesNothing(s: LoopState, a: Action)
    requires Step(s, a) && Config(a)
    ensures Apply(s, a).log == s.log
  {
    hide Step, Apply;
    ConfigFrame(s, a);
  }

  lemma GatherSettlesNothing(s: LoopState, a: Action)
    requires Step(s, a) && Gather(a)
    ensures Apply(s, a).log == s.log
  {
    hide Step, Apply;
    if Queues(a) { QueueFrame(s, a); } else if a.Drain? { DrainFrame(s); } else { TimerFrame(s, a); }
  }

  lemma PopFate(s: LoopState)
    requires Step(s, Pop)
    ensures var s' := Apply(s, Pop);
            s'.log == s.log ||
            exists t, fate :: s'.log == s.log + [Handled(t, fate)] && FateIs(s, s', t, fate)
  {
    var t, s' := s.scheduled[0], Apply(s, Pop);
    if !Alive(s.events, t.recipient) {
      assert s'.log == s.log + [Handled(t, RecipientDead)] && FateIs(s, s', t, RecipientDead);
    } else if t.param.Io? && t.param.token - TOKEN_SHIFT !in s.events[t.recipient.id].ios {
      assert s'.log == s.log + [Handled(t, IoGone)] && FateIs(s, s', t, IoGone);
    }
  }

  ghost predicate FateIs(s: LoopState, s': LoopState, t: Task, fate: Fate) {
    match fate
    case RecipientDead => !Alive(s.events, t.recipient) && s'.stack == s.stack
    case IoGone =>
      && Alive(s.events, t.recipient) && t.param.Io?
      && t.param.token - TOKEN_SHIFT !in s.events[t.recipient.id].ios && s'.stack == s.stack
    case WasBusy => t.recipient in s.stack && s'.stack == s.stack
    case Called => Alive(s.events, t.recipient) && t.recipient !in s.stack && s'.stack == s.stack + [t.recipient]
  }

  lemma EnterFate(s: LoopState)
    requires Inv(s) && Step(s, Enter)
    ensures var s' := Apply(s, Enter);
            s'.log == s.log ||
            exists t, fate :: s'.log == s.log + [Handled(t, fate)] && FateIs(s, s', t, fate)
  {
    hide GenerationsOk, TimersOk, IoOk, RegistrationsOk, ChildrenOk, IdleOk, SignalsOk, RecipientsKnown, HistoryOk;
    var Call(h, cause) := s.pending.value;
    var s' := Apply(s, Enter);
    assert At(s.events, h.id) == h;
    if cause.Dispatched? {
      var fate := if s.events[h.id].stolen then WasBusy else Called;
      assert s'.log == s.log + [Handled(cause.task, fate)] && FateIs(s, s', cause.task, fate);
    }
  }

  // ----- Order -----

  ghost function For(h: Handle, ts: seq<Task>): seq<Task> {
    if ts == [] then []
    else (if ts[0].recipient == h then [ts[0]] else []) + For(h, ts[1..])
  }

  lemma {:induction false} ForConcat(h: Handle, xs: seq<Task>, ys: seq<Task>)
    ensures For(h, xs + ys) == For(h, xs) + For(h, ys)
  {
    if xs == [] {
      assert xs + ys == ys;
    } else {
      assert (xs + ys)[1..] == xs[1..] + ys;
      ForConcat(h, xs[1..], ys);
    }
  }

  /**
   Over every run, nested ones included, the tasks of one event are settled in the order in which
   they were queued, each once, and none is skipped.
   */
  lemma SettledInOrder(s: LoopState, h: Handle)
    requires Reachable(s)
    ensures For(h, s.pushed) == For(h, Tasks(s.log)) + For(h, InHand(s.pending)) + For(h, s.scheduled)
  {
    ReachableInv(s);
    ForConcat(h, Tasks(s.log) + InHand(s.pending), s.scheduled);
    ForConcat(h, Tasks(s.log), InHand(s.pending));
  }

  // ----- Messages -----

  /** The message that a call hands to its event. */
  ghost function MessageOf(c: Call): Option<Message> {
    match c.cause
    case Init => None
    case Post(m) => Some(m)
    case Dispatched(t) => if t.param.Msg? then Some(t.param.message) else None
  }

  /**
   Whenever a message callback is about to start, the event expects its type at that moment, or the
   message is a background result. The type was checked when the message was queued.
   */
  lemma DeliveredTypesExpected(s: LoopState)
    requires Reachable(s) && s.pending.Some? && MessageOf(s.pending.value).Some?
    ensures var h, m := s.pending.value.target, MessageOf(s.pending.value).value;
            && Alive(s.events, h)
            && (m.mode.Background? || m.realType in s.events[h.id].expected)
  {
    ReachableInv(s);
    hide Reachable, TimersOk, IoOk, RegistrationsOk, ChildrenOk, IdleOk, SignalsOk, RecipientsKnown, HistoryOk;
  }

  // ----- IO -----

  /**
   An IO callback that is about to start is for the registration that raised the readiness: its index
   was not given to another registration in between. For the deferred release.
   */
  lemma SameRegistration(s: LoopState, t: Task)
    requires Reachable(s) && s.policy.Deferred?
    requires s.pending == Some(Call(t.recipient, Dispatched(t))) && t.param.Io?
    requires Owns(s.events, t.recipient, t.param.token - TOKEN_SHIFT)
    ensures s.events[t.recipient.id].ios[t.param.token - TOKEN_SHIFT] == t.param.reg
  {
    ReachableInv(s);
    hide Reachable, TimersOk, ChildrenOk, IdleOk, SignalsOk, MessagesOk, RecipientsKnown, HistoryOk;
    assert t in InHand(s.pending);
  }

  /** Every slot has one owner, or waits for release, or is empty; never two of these. */
  lemma SlotsPartitioned(s: LoopState, k: nat)
    requires Reachable(s) && s.policy.Deferred?
    ensures k in s.ios <==> k in s.iosReleased || exists h :: Owns(s.events, h, k)
    ensures forall h, g | Owns(s.events, h, k) && Owns(s.events, g, k) :: h == g
    ensures k in s.iosReleased ==> !exists h :: Owns(s.events, h, k)
  {
    ReachableInv(s);
    hide Reachable, TimersOk, ChildrenOk, IdleOk, SignalsOk, MessagesOk, RecipientsKnown, HistoryOk;
  }

  // ----- The other indexes -----

  /**
   The table of children and the sets in the events are inverse to each other, so reaping finds what it
   asserts; idle requests and signal subscriptions are those of live events, each request once; a signal
   with subscribers is enabled.
   */
  lemma IndexesConsistent(s: LoopState)
    requires Reachable(s)
    ensures forall pid, h ::
              (pid in s.children && s.children[pid] == h) <==> (Alive(s.events, h) && pid in s.events[h.id].children)
    ensures forall h | h in s.wantIdle :: Alive(s.events, h)
    ensures forall k, l | 0 <= k < l < |s.wantIdle| :: s.wantIdle[k] != s.wantIdle[l]
    ensures |s.recipients| == |s.enabled|
    ensures forall k | 0 <= k < |s.recipients| ::
              forall h | h in s.recipients[k] :: Alive(s.events, h) && s.enabled[k]
  {
    hide Reachable, GenerationsOk, StackOk, TimersOk, IoOk, RegistrationsOk, MessagesOk, RecipientsKnown, HistoryOk;
    ReachableInv(s);
    forall pid, h ensures (pid in s.children && s.children[pid] == h)
                          <==> (Alive(s.events, h) && pid in s.events[h.id].children)
    {
      if Alive(s.events, h) && pid in s.events[h.id].children { assert At(s.events, h.id) == h; }
    }
    forall k | 0 <= k < |s.recipients|
      ensures forall h | h in s.recipients[k] :: Alive(s.events, h) && s.enabled[k]
    {
      assert s.recipients[k] != {} ==> s.enabled[k];
    }
  }

  /** A dead event is in no index; what is left of it in the slab of IOs waits for release. */
  lemma DeadIsForgotten(s: LoopState, h: Handle)
    requires Reachable(s) && !Alive(s.events, h)
    ensures h !in s.stack && h !in s.wantIdle
    ensures forall k | 0 <= k < |s.recipients| :: h !in s.recipients[k]
    ensures forall pid | pid in s.children :: s.children[pid] != h
    ensures s.policy.Deferred? ==> forall k | k in s.ios && s.ios[k] == h :: k in s.iosReleased
  {
    hide Reachable;
    IndexesConsistent(s);
    hide GenerationsOk, TimersOk, RegistrationsOk, ChildrenOk, IdleOk, SignalsOk, MessagesOk, RecipientsKnown, HistoryOk;
    ReachableInv(s);
  }
}
