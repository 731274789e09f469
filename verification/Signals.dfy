/**
 Waking loops up for signals: handlers run SignalDispatch::dispatch (src/signal_dispatch.rs:52-83)
 while loops empty their one-slot channel and sweep their flags (src/core.rs:1181-1202). Any number of
 loops and signals; every atomic access is a step of its own and steps interleave in any way. The
 mutex admits one dispatcher at a time.

 The order of the two accesses is a parameter on both sides, to show that it matters.
 */
module Signals {
  import opened Wrappers

  datatype Producer = FlagThenSend | SendThenFlag
  datatype Consumer = DrainThenSweep | SweepThenDrain

  /** `half`: the first of the two accesses for the notifier at the head has been made. */
  datatype Dispatch = Dispatch(sig: nat, todo: seq<nat>, half: bool, kept: seq<nat>)

  datatype Delivery = Delivery(loop: nat, sig: nat, recipient: nat)

  /** Loops are numbers; a notifier is known by its loop. */
  datatype World = World(
    producer: Producer,
    consumer: Consumer,
    registered: seq<seq<nat>>,
    dispatch: Option<Dispatch>,
    flags: set<(nat, nat)>,                  // (loop, signal)
    slots: set<nat>,                         // loops whose channel holds a wake-up
    gone: set<nat>,                          // loops whose receiver was dropped
    enabled: set<(nat, nat)>,
    sweeps: map<nat, nat>,                   // loops in the middle of a sweep, and the next signal
    recipients: map<(nat, nat), set<nat>>,
    // History
    delivered: seq<Delivery>,
    raised: map<(nat, nat), nat>)            // flag stores since the flag was last swept

  datatype Step =
    | Register(loop: nat, sig: nat)
    | Recipients(loop: nat, sig: nat, who: set<nat>)
    | Begin(sig: nat)
    | Half
    | Other
    | End
    | Wake(loop: nat)
    | Sweep(loop: nat, order: seq<nat>)
    | Finish(loop: nat)
    | Abort(loop: nat)
    | Leave(loop: nat)

  ghost function Start(producer: Producer, consumer: Consumer, signals: nat): World {
    World(producer, consumer, seq(signals, _ => []), None, {}, {}, {}, {}, map[], map[], [], map[])
  }

  ghost function RecipientsOf(w: World, loop: nat, sig: nat): set<nat> {
    if (loop, sig) in w.recipients then w.recipients[(loop, sig)] else {}
  }

  ghost function RaisedOf(w: World, loop: nat, sig: nat): nat {
    if (loop, sig) in w.raised then w.raised[(loop, sig)] else 0
  }

  ghost predicate Lists(order: seq<nat>, who: set<nat>) {
    && (forall x :: x in order <==> x in who)
    && (forall k, l | 0 <= k < l < |order| :: order[k] != order[l])
  }

  ghost predicate Busy(w: World) {
    w.dispatch.Some? && w.dispatch.value.todo != []
  }

  ghost predicate Can(w: World, a: Step) {
    match a
    // A loop registers, and its events subscribe, between two sweeps
    case Register(l, sig) =>
      w.dispatch.None? && sig < |w.registered| && (l, sig) !in w.enabled && l !in w.sweeps && l !in w.gone
    case Recipients(l, sig, _) => l !in w.sweeps && l !in w.gone
    case Begin(sig) => w.dispatch.None? && sig < |w.registered| && w.registered[sig] != []
    case Half => Busy(w) && !w.dispatch.value.half
    case Other => Busy(w) && w.dispatch.value.half
    case End => w.dispatch.Some? && w.dispatch.value.todo == [] && w.dispatch.value.sig < |w.registered|
    // The channel is reported as ready while it holds a wake-up
    case Wake(l) => l in w.slots && l !in w.sweeps && l !in w.gone
    case Sweep(l, order) =>
      l in w.sweeps && w.sweeps[l] < |w.registered| && Lists(order, RecipientsOf(w, l, w.sweeps[l]))
    case Finish(l) => l in w.sweeps && w.sweeps[l] == |w.registered|
    case Abort(l) => l in w.sweeps && w.sweeps[l] < |w.registered| && (l, w.sweeps[l]) in w.flags
    case Leave(l) => l !in w.sweeps && l !in w.gone
  }

  ghost function StoreFlag(w: World, l: nat, sig: nat): World {
    w.(flags := w.flags + {(l, sig)}, raised := w.raised[(l, sig) := RaisedOf(w, l, sig) + 1])
  }

  /** A full channel already holds a wake-up; a dropped receiver takes none. */
  ghost function TrySend(w: World, l: nat): World {
    if l in w.gone then w else w.(slots := w.slots + {l})
  }

  /** The notifier at the head is done: kept unless its receiver is gone. */
  ghost function Next(w: World, d: Dispatch): Dispatch
    requires d.todo != []
  {
    Dispatch(d.sig, d.todo[1..], false, if d.todo[0] in w.gone then d.kept else d.kept + [d.todo[0]])
  }

  ghost function Deliveries(l: nat, sig: nat, order: seq<nat>): (r: seq<Delivery>)
    ensures |r| == |order| && forall k | 0 <= k < |r| :: r[k] == Delivery(l, sig, order[k])
  {
    seq(|order|, k requires 0 <= k < |order| => Delivery(l, sig, order[k]))
  }

  /** `swap(false)` on one flag. */
  ghost function TakeFlag(w: World, l: nat, sig: nat): World {
    w.(flags := w.flags - {(l, sig)}, raised := w.raised[(l, sig) := 0])
  }

  ghost function Apply(w: World, a: Step): World
    requires Can(w, a)
  {
    match a
    case Register(l, sig) =>
      w.(registered := w.registered[sig := w.registered[sig] + [l]], enabled := w.enabled + {(l, sig)})
    case Recipients(l, sig, who) => w.(recipients := w.recipients[(l, sig) := who])
    case Begin(sig) =>
      w.(dispatch := Some(Dispatch(sig, w.registered[sig], false, [])), registered := w.registered[sig := []])
    case Half =>
      var d := w.dispatch.value;
      (if w.producer.FlagThenSend? then StoreFlag(w, d.todo[0], d.sig) else TrySend(w, d.todo[0]))
        .(dispatch := Some(d.(half := true)))
    case Other =>
      var d := w.dispatch.value;
      (if w.producer.FlagThenSend? then TrySend(w, d.todo[0]) else StoreFlag(w, d.todo[0], d.sig))
        .(dispatch := Some(Next(w, d)))
    case End =>
      var d := w.dispatch.value;
      w.(dispatch := None, registered := w.registered[d.sig := d.kept])
    case Wake(l) =>
      w.(slots := if w.consumer.DrainThenSweep? then w.slots - {l} else w.slots, sweeps := w.sweeps[l := 0])
    case Sweep(l, order) =>
      var sig := w.sweeps[l];
      TakeFlag(w, l, sig)
        .(sweeps := w.sweeps[l := sig + 1],
          delivered := if (l, sig) in w.flags then w.delivered + Deliveries(l, sig, order) else w.delivered)
    case Finish(l) =>
      w.(slots := if w.consumer.SweepThenDrain? then w.slots - {l} else w.slots, sweeps := w.sweeps - {l})
    case Abort(l) => TakeFlag(w, l, w.sweeps[l]).(sweeps := w.sweeps - {l})
    case Leave(l) => w.(gone := w.gone + {l})
  }

  ghost function Exec(w: World, steps: seq<Step>): Option<World> {
    if steps == [] then Some(w)
    else
      match Exec(w, steps[..|steps| - 1])
      case None => None
      case Some(before) =>
        if Can(before, steps[|steps| - 1]) then Some(Apply(before, steps[|steps| - 1])) else None
  }

  // ----- No wake-up is lost -----

  /** The dispatcher has stored this flag and is about to send the wake-up. */
  ghost predicate WakeUpComing(w: World, l: nat) {
    Busy(w) && w.dispatch.value.half && w.dispatch.value.todo[0] == l
  }

  /** Somebody will still look at this flag. */
  ghost predicate Noticed(w: World, l: nat, sig: nat) {
    l in w.slots || WakeUpComing(w, l) || (l in w.sweeps && w.sweeps[l] <= sig)
  }

  ghost predicate NoneLost(w: World) {
    forall l, sig | (l, sig) in w.flags && l !in w.gone :: Noticed(w, l, sig)
  }

  /** The dispatch in progress has yet to send a wake-up to this loop. */
  ghost predicate Ahead(w: World, l: nat) {
    w.dispatch.Some? && l in w.dispatch.value.todo
  }

  /** A flag of a loop is set, the loop sleeps, and nothing is on its way to it. See StuckForGood. */
  ghost predicate Stuck(w: World, l: nat, sig: nat) {
    (l, sig) in w.flags && l !in w.gone && l !in w.slots && l !in w.sweeps && !Ahead(w, l)
  }

  /** The step begins a dispatch that will wake this loop up. */
  ghost predicate Reaches(w: World, a: Step, l: nat) {
    a.Begin? && a.sig < |w.registered| && l in w.registered[a.sig]
  }

  /** A loop is released from being stuck by a further dispatch that reaches it, and by nothing else. */
  lemma StuckLeftExactly(w: World, a: Step, l: nat, sig: nat)
    requires Can(w, a) && Stuck(w, l, sig)
    ensures Stuck(Apply(w, a), l, sig) <==> a != Step.Leave(l) && !Reaches(w, a, l)
  {
    if a.Other? {
      assert forall x | x in w.dispatch.value.todo[1..] :: x in w.dispatch.value.todo;
    }
  }

  /** Over any run: a signal that got stuck is not seen until another dispatch reaches the loop. */
  lemma {:induction false} StuckForGood(w: World, steps: seq<Step>, l: nat, sig: nat)
    requires Stuck(w, l, sig) && Exec(w, steps).Some? && Step.Leave(l) !in steps
    ensures Stuck(Exec(w, steps).value, l, sig)
            || exists i | 0 <= i < |steps| :: Exec(w, steps[..i]).Some? && Reaches(Exec(w, steps[..i]).value, steps[i], l)
  {
    hide Stuck, Can, Apply, Reaches;
    if steps != [] {
      var n := |steps| - 1;
      assert steps[n] in steps;
      StuckForGood(w, steps[..n], l, sig);
      if Stuck(Exec(w, steps[..n]).value, l, sig) {
        StuckLeftExactly(Exec(w, steps[..n]).value, steps[n], l, sig);
      } else {
        var i :| 0 <= i < n && Exec(w, steps[..n][..i]).Some? && Reaches(Exec(w, steps[..n][..i]).value, steps[..n][i], l);
        assert steps[..n][..i] == steps[..i];
      }
    }
  }

  ghost predicate FlagsInRange(w: World) {
    && (forall l, sig | (l, sig) in w.flags :: sig < |w.registered|)
    && (w.dispatch.Some? ==> w.dispatch.value.sig < |w.registered|)
  }

  lemma StepLosesNone(w: World, a: Step)
    requires w.producer.FlagThenSend? && w.consumer.DrainThenSweep?
    requires Can(w, a) && !a.Abort? && FlagsInRange(w) && NoneLost(w)
    ensures FlagsInRange(Apply(w, a)) && NoneLost(Apply(w, a))
  {
    var w' := Apply(w, a);
    forall l, sig | (l, sig) in w'.flags && l !in w'.gone ensures Noticed(w', l, sig) {
      if (l, sig) in w.flags { assert Noticed(w, l, sig); }
    }
  }

  /**
   In every interleaving of handlers and loops, as long as no sweep is cut short by an error, each flag
   that is set is still going to be noticed; in particular no loop is ever stuck.
   */
  lemma {:induction false} NoLostWakeUp(w: World, steps: seq<Step>)
    requires w.producer.FlagThenSend? && w.consumer.DrainThenSweep? && FlagsInRange(w) && NoneLost(w)
    requires Exec(w, steps).Some? && forall l: nat :: Abort(l) !in steps
    ensures var w' := Exec(w, steps).value;
            && w'.producer == w.producer && w'.consumer == w.consumer
            && FlagsInRange(w') && NoneLost(w')
            && forall l, sig :: !Stuck(w', l, sig)
  {
    if steps != [] {
      var before, last := steps[..|steps| - 1], steps[|steps| - 1];
      NoLostWakeUp(w, before);
      assert last in steps;
      StepLosesNone(Exec(w, before).value, last);
    }
  }

  /**
   The exact harm of an error in the middle of a sweep. The signal at that point is used up although
   nobody is told; no other one is lost if and only if every flag behind that point has a wake-up of its
   own on the way; and the loop is stuck with exactly the flags behind that point, unless a wake-up is
   waiting or the dispatch in progress has yet to reach it.
   */
  lemma AbortLosesExactly(w: World, l: nat)
    requires w.producer.FlagThenSend? && w.consumer.DrainThenSweep?
    requires Can(w, Abort(l)) && NoneLost(w) && l !in w.gone
    ensures var w' := Apply(w, Abort(l));
            && (l, w.sweeps[l]) !in w'.flags && w'.delivered == w.delivered
            && (NoneLost(w') <==>
                  forall sig | sig > w.sweeps[l] && (l, sig) in w.flags :: l in w.slots || WakeUpComing(w, l))
            && (forall sig :: Stuck(w', l, sig) <==>
                  sig > w.sweeps[l] && (l, sig) in w.flags && l !in w.slots && !Ahead(w, l))
  {
    var w' := Apply(w, Abort(l));
    if NoneLost(w') {
      forall sig | sig > w.sweeps[l] && (l, sig) in w.flags ensures l in w.slots || WakeUpComing(w, l) {
        assert (l, sig) in w'.flags && Noticed(w', l, sig);
      }
    } else {
      var m, sig :| (m, sig) in w'.flags && m !in w'.gone && !Noticed(w', m, sig);
      assert Noticed(w, m, sig);
    }
    forall sig | (l, sig) in w'.flags && l !in w.slots && !Ahead(w, l) ensures sig > w.sweeps[l] {
      assert Noticed(w, l, sig);
    }
  }

  lemma ExecOneMore(w: World, steps: seq<Step>, a: Step)
    requires Exec(w, steps).Some? && Can(Exec(w, steps).value, a)
    ensures Exec(w, steps + [a]) == Some(Apply(Exec(w, steps).value, a))
  {
    assert (steps + [a])[..|steps|] == steps;
  }

  /** Waking the loop up before the flag is set: it looks, sees nothing, and goes to sleep. */
  const SEND_FIRST: seq<Step> :=
    [Register(0, 0), Begin(0), Half, Wake(0), Sweep(0, []), Finish(0), Other, End]

  /** Emptying the channel after the sweep: a wake-up for a new signal is thrown away with the old one. */
  const DRAIN_LAST: seq<Step> :=
    [Register(0, 0), Begin(0), Half, Other, End, Wake(0), Sweep(0, []), Begin(0), Half, Other, End, Finish(0)]

  /** Runs a list of steps one by one. */
  ghost function Play(w: World, steps: seq<Step>): Option<World>
    decreases |steps|
  {
    if steps == [] then Some(w)
    else if Can(w, steps[0]) then Play(Apply(w, steps[0]), steps[1..])
    else None
  }

  lemma {:induction false} PlayIsExec(w: World, done: seq<Step>, todo: seq<Step>)
    requires Exec(w, done).Some?
    ensures Play(Exec(w, done).value, todo).Some? ==>
              Exec(w, done + todo) == Play(Exec(w, done).value, todo)
    decreases |todo|
  {
    if todo == [] {
      assert done + todo == done;
    } else if Can(Exec(w, done).value, todo[0]) {
      ExecOneMore(w, done, todo[0]);
      PlayIsExec(w, done + [todo[0]], todo[1..]);
      assert done + [todo[0]] + todo[1..] == done + todo;
    }
  }

  lemma {:induction false} PlayConcat(w: World, xs: seq<Step>, ys: seq<Step>)
    requires Play(w, xs).Some?
    ensures Play(w, xs + ys) == Play(Play(w, xs).value, ys)
    decreases |xs|
  {
    if xs == [] {
      assert xs + ys == ys;
    } else {
      PlayConcat(Apply(w, xs[0]), xs[1..], ys);
      assert (xs + ys)[1..] == xs[1..] + ys;
    }
  }

  /** One loop, one signal, and the loop is registered for it. */
  ghost predicate Single(w: World) {
    w.registered == [[0]] && w.dispatch.None? && 0 !in w.gone && w.recipients == map[]
  }

  lemma Registering(producer: Producer, consumer: Consumer)
    ensures var r := Play(Start(producer, consumer, 1), [Register(0, 0)]);
            && r.Some? && Single(r.value) && r.value.producer == producer && r.value.consumer == consumer
            && r.value.flags == {} && r.value.slots == {} && r.value.sweeps == map[]
  {
    var w := Start(producer, consumer, 1);
    assert w.registered == [[]];
    var w' := Apply(w, Register(0, 0));
    assert w'.registered[0] == [] + [0] == [0];
    assert w'.registered == [[0]];
    assert Play(w, [Register(0, 0)]) == Play(w', []);
  }

  lemma DispatchOfOne(w: World)
    requires Single(w) && w.producer.FlagThenSend?
    ensures var r := Play(w, [Begin(0), Half]);
            r == Some(StoreFlag(w, 0, 0).(registered := [[]], dispatch := Some(Dispatch(0, [0], true, []))))
  {
    var w1 := Apply(w, Begin(0));
    assert w1.registered == [[]];
    assert Play(w1, [Half]) == Some(Apply(w1, Half));
  }

  lemma DispatchOfOneEnds(w: World)
    requires w.dispatch == Some(Dispatch(0, [0], true, [])) && w.producer.FlagThenSend?
    requires w.registered == [[]] && 0 !in w.gone
    ensures Play(w, [Other, End]) ==
            Some(w.(registered := [[0]], dispatch := None, slots := w.slots + {0}))
  {
    var w1 := Apply(w, Other);
    assert w1.dispatch.value.kept == [0];
    var w2 := Apply(w1, End);
    assert w2.registered == [[0]];
    assert Play(w1, [End]) == Some(w2);
  }

  lemma WholeDispatch(w: World)
    requires Single(w) && w.producer.FlagThenSend?
    ensures Play(w, [Begin(0), Half, Other, End]) == Some(StoreFlag(w, 0, 0).(slots := w.slots + {0}))
  {
    hide Can, Apply;
    DispatchOfOne(w);
    DispatchOfOneEnds(Play(w, [Begin(0), Half]).value);
    PlayConcat(w, [Begin(0), Half], [Other, End]);
    assert [Begin(0), Half] + [Other, End] == [Begin(0), Half, Other, End];
  }

  /** A loop that looks before the flag is set. */
  lemma LookTooEarly(w: World)
    requires Single(w) && w.producer.SendThenFlag? && w.consumer.DrainThenSweep? && w.flags == {} && w.sweeps == map[]
    ensures var r := Play(w, [Begin(0), Half, Wake(0), Sweep(0, []), Finish(0)]);
            && r.Some? && r.value.flags == {} && 0 !in r.value.slots && r.value.sweeps == map[] && 0 !in r.value.gone
            && r.value.producer.SendThenFlag? && |r.value.registered| == 1
            && r.value.dispatch == Some(Dispatch(0, [0], true, []))
  {
    var w1 := Apply(w, Begin(0));
    var w2 := Apply(w1, Half);
    assert w2.dispatch == Some(Dispatch(0, [0], true, []));
    LookInVain(w2);
    var last := [Wake(0), Sweep(0, []), Finish(0)];
    assert Play(w1, [Half] + last) == Play(w2, last) by { assert ([Half] + last)[1..] == last; }
    assert [Begin(0), Half, Wake(0), Sweep(0, []), Finish(0)][1..] == [Half] + last;
  }

  /** A wake-up without a flag. */
  lemma LookInVain(w: World)
    requires 0 in w.slots && w.flags == {} && w.sweeps == map[] && 0 !in w.gone && w.recipients == map[]
    requires |w.registered| == 1 && w.consumer.DrainThenSweep?
    ensures var r := Play(w, [Wake(0), Sweep(0, []), Finish(0)]);
            r.Some? && r.value == w.(slots := w.slots - {0}, raised := r.value.raised)
  {
    var w3 := Apply(w, Wake(0));
    var w4 := Apply(w3, Sweep(0, []));
    var w5 := Apply(w4, Finish(0));
    assert w5.sweeps == map[];
    assert Play(w4, [Finish(0)]) == Some(w5);
    assert Play(w3, [Sweep(0, []), Finish(0)]) == Some(w5);
  }

  lemma FlagTooLate(w: World)
    requires w.producer.SendThenFlag? && w.dispatch == Some(Dispatch(0, [0], true, [])) && |w.registered| == 1
    requires w.flags == {} && 0 !in w.slots && w.sweeps == map[] && 0 !in w.gone
    ensures var r := Play(w, [Other, End]); r.Some? && Stuck(r.value, 0, 0)
  {
    var w1 := Apply(w, Other);
    var w2 := Apply(w1, End);
    assert Play(w1, [End]) == Some(w2);
  }

  /** With the order of the producer reversed some interleaving leaves the loop stuck. */
  lemma SendFirstGetsStuck()
    ensures var r := Exec(Start(SendThenFlag, DrainThenSweep, 1), SEND_FIRST);
            r.Some? && Stuck(r.value, 0, 0)
  {
    hide Can, Apply, Start, Stuck, Exec;
    var w0 := Start(SendThenFlag, DrainThenSweep, 1);
    var first, mid, last := [Register(0, 0)], [Begin(0), Half, Wake(0), Sweep(0, []), Finish(0)], [Other, End];
    Registering(SendThenFlag, DrainThenSweep);
    LookTooEarly(Play(w0, first).value);
    PlayConcat(w0, first, mid);
    FlagTooLate(Play(w0, first + mid).value);
    PlayConcat(w0, first + mid, last);
    FromStart(w0, first + mid + last);
    assert first + mid + last == SEND_FIRST;
  }

  lemma FromStart(w: World, steps: seq<Step>)
    requires Play(w, steps).Some?
    ensures Exec(w, steps) == Play(w, steps)
  {
    PlayIsExec(w, [], steps);
    assert [] + steps == steps;
  }

  lemma Looking(w: World)
    requires Single(w) && w.flags == {(0, 0)} && 0 in w.slots && w.sweeps == map[] && w.consumer.SweepThenDrain?
    ensures var r := Play(w, [Wake(0), Sweep(0, [])]);
            && r.Some? && Single(r.value) && r.value.producer == w.producer && r.value.consumer == w.consumer
            && r.value.flags == {} && r.value.sweeps == map[0 := 1]
  {
    var w1 := Apply(w, Wake(0));
    var w2 := Apply(w1, Sweep(0, []));
    assert w2.sweeps == map[0 := 1];
    assert Play(w1, [Sweep(0, [])]) == Some(w2);
  }

  lemma DrainTooLate(w: World)
    requires Single(w) && w.consumer.SweepThenDrain? && (0, 0) in w.flags && w.sweeps == map[0 := 1]
    ensures var r := Play(w, [Finish(0)]); r.Some? && Stuck(r.value, 0, 0)
  {
    assert Play(w, [Finish(0)]) == Some(Apply(w, Finish(0)));
  }

  /** With the order of the consumer reversed some interleaving leaves the loop stuck as well. */
  lemma DrainLastGetsStuck()
    ensures var r := Exec(Start(FlagThenSend, SweepThenDrain, 1), DRAIN_LAST);
            r.Some? && Stuck(r.value, 0, 0)
  {
    hide Can, Apply, Start, Stuck, Exec, Single, Play;
    var w0 := Start(FlagThenSend, SweepThenDrain, 1);
    var first, dispatch, look, last :=
      [Register(0, 0)], [Begin(0), Half, Other, End], [Wake(0), Sweep(0, [])], [Finish(0)];
    Registering(FlagThenSend, SweepThenDrain);
    WholeDispatch(Play(w0, first).value);
    PlayConcat(w0, first, dispatch);
    Looking(Play(w0, first + dispatch).value);
    PlayConcat(w0, first + dispatch, look);
    WholeDispatch(Play(w0, first + dispatch + look).value);
    PlayConcat(w0, first + dispatch + look, dispatch);
    DrainTooLate(Play(w0, first + dispatch + look + dispatch).value);
    PlayConcat(w0, first + dispatch + look + dispatch, last);
    FromStart(w0, first + dispatch + look + dispatch + last);
    assert first + dispatch + look + dispatch + last == DRAIN_LAST;
  }

  // ----- A dispatch that nothing interrupts -----

  /** The loops of a list whose receiver is still there, in order. */
  ghost function Staying(ls: seq<nat>, gone: set<nat>): seq<nat> {
    if ls == [] then []
    else Staying(ls[..|ls| - 1], gone) + if ls[|ls| - 1] in gone then [] else [ls[|ls| - 1]]
  }

  lemma {:induction false} StayingFirst(l: nat, ls: seq<nat>, gone: set<nat>)
    ensures Staying([l] + ls, gone) == (if l in gone then [] else [l]) + Staying(ls, gone)
  {
    var all := [l] + ls;
    if ls == [] {
      assert all[..|all| - 1] == [];
    } else {
      assert all[..|all| - 1] == [l] + ls[..|ls| - 1];
      StayingFirst(l, ls[..|ls| - 1], gone);
    }
  }

  /** What is left of a dispatch with this many notifiers to go. */
  ghost function Rest(n: nat): seq<Step> {
    if n == 0 then [End] else [Half, Other] + Rest(n - 1)
  }

  /** The world after a whole dispatch, apart from its history. */
  ghost function Dispatched(w: World, sig: nat, ls: seq<nat>, kept: seq<nat>, raised: map<(nat, nat), nat>): World
    requires sig < |w.registered|
  {
    w.(dispatch := None, registered := w.registered[sig := kept + Staying(ls, w.gone)],
       flags := w.flags + (set l | l in ls :: (l, sig)),
       slots := w.slots + (set l | l in ls && l !in w.gone), raised := raised)
  }

  lemma {:induction false} HandlesAll(w: World, d: Dispatch)
    requires w.producer.FlagThenSend? && w.dispatch == Some(d) && !d.half && d.sig < |w.registered|
    ensures var r := Play(w, Rest(|d.todo|));
            r.Some? && r.value == Dispatched(w, d.sig, d.todo, d.kept, r.value.raised)
    decreases |d.todo|
  {
    hide Staying;
    if d.todo == [] {
      LastHandled(w, d);
    } else {
      var l, ls := d.todo[0], d.todo[1..];
      assert d.todo == [l] + ls;
      var w2 := OneHandled(w, d);
      HandlesAll(w2, w2.dispatch.value);
      PlayConcat(w, [Half, Other], Rest(|ls|));
      StayingFirst(l, ls, w.gone);
      OneMoreHandled(w, w2, d, Play(w2, Rest(|ls|)).value);
    }
  }

  lemma LastHandled(w: World, d: Dispatch)
    requires w.dispatch == Some(d) && d.todo == [] && d.sig < |w.registered|
    ensures Play(w, [End]) == Some(Dispatched(w, d.sig, [], d.kept, w.raised))
  {
    var w' := Apply(w, End);
    assert [End][1..] == [];
    assert d.kept + [] == d.kept;
    assert w'.flags == w.flags + (set l | l in [] :: (l, d.sig)) && w'.slots == w.slots + (set l | l in [] && l !in w.gone);
  }

  lemma OneHandled(w: World, d: Dispatch) returns (w': World)
    requires w.producer.FlagThenSend? && w.dispatch == Some(d) && !d.half && d.todo != []
    ensures Play(w, [Half, Other]) == Some(w')
    ensures w' == w.(dispatch := Some(Next(w, d)), flags := w.flags + {(d.todo[0], d.sig)},
                     slots := if d.todo[0] in w.gone then w.slots else w.slots + {d.todo[0]}, raised := w'.raised)
  {
    var w1 := Apply(w, Half);
    w' := Apply(w1, Other);
    assert Play(w1, [Other]) == Some(w') by { assert [Other][1..] == []; }
    assert [Half, Other][1..] == [Other];
  }

  lemma OneMoreHandled(w: World, w2: World, d: Dispatch, r: World)
    requires d.todo != [] && d.sig < |w.registered| && Next(w, d).sig == d.sig
    requires w2 == w.(dispatch := Some(Next(w, d)), flags := w.flags + {(d.todo[0], d.sig)},
                      slots := if d.todo[0] in w.gone then w.slots else w.slots + {d.todo[0]}, raised := w2.raised)
    requires r == Dispatched(w2, d.sig, d.todo[1..], Next(w, d).kept, r.raised)
    requires Staying(d.todo, w.gone) ==
             (if d.todo[0] in w.gone then [] else [d.todo[0]]) + Staying(d.todo[1..], w.gone)
    ensures r == Dispatched(w, d.sig, d.todo, d.kept, r.raised)
  {
    hide Staying;
    assert d.todo == [d.todo[0]] + d.todo[1..];
    var want := Dispatched(w, d.sig, d.todo, d.kept, r.raised);
    assert Next(w, d).kept + Staying(d.todo[1..], w.gone) == d.kept + Staying(d.todo, w.gone);
    assert r.flags == want.flags;
    assert r.slots == want.slots;
  }

  /** A dispatch that nothing interrupts, in the form in which SignalDispatch.dfy has it. */
  lemma UninterruptedDispatch(w: World, sig: nat)
    requires w.producer.FlagThenSend? && Can(w, Begin(sig))
    ensures var r := Play(w, [Begin(sig)] + Rest(|w.registered[sig]|));
            r.Some? && r.value == Dispatched(w, sig, w.registered[sig], [], r.value.raised)
  {
    hide Staying;
    var w1 := Apply(w, Begin(sig));
    var steps := [Begin(sig)] + Rest(|w.registered[sig]|);
    assert steps[1..] == Rest(|w.registered[sig]|);
    HandlesAll(w1, w1.dispatch.value);
    assert w1.registered[sig := [] + Staying(w.registered[sig], w.gone)] ==
           w.registered[sig := [] + Staying(w.registered[sig], w.gone)];
  }

  // ----- An aborted sweep -----

  /** Two signals are dispatched; the sweep that they caused fails at the first. */
  const ABORTED: seq<Step> :=
    [Register(0, 0), Register(0, 1), Begin(0), Half, Other, End, Begin(1), Half, Other, End, Wake(0), Abort(0)]

  /** One loop that is registered for two signals. */
  ghost predicate Double(w: World) {
    && w.producer.FlagThenSend? && w.consumer.DrainThenSweep? && w.registered == [[0], [0]] && w.dispatch.None?
    && 0 !in w.gone && w.sweeps == map[]
  }

  lemma RegisteringTwice()
    ensures var r := Play(Start(FlagThenSend, DrainThenSweep, 2), [Register(0, 0), Register(0, 1)]);
            r.Some? && Double(r.value)
  {
    var w := Start(FlagThenSend, DrainThenSweep, 2);
    assert w.registered == [[], []];
    var w1 := Apply(w, Register(0, 0));
    assert w1.registered[0] == [] + [0] == [0];
    assert w1.registered == [[0], []];
    var w2 := Apply(w1, Register(0, 1));
    assert w2.registered[1] == [] + [0] == [0];
    assert w2.registered == [[0], [0]];
    assert Play(w1, [Register(0, 1)]) == Some(w2);
  }

  lemma DispatchBegins(w: World, sig: nat)
    requires Double(w) && sig < 2
    ensures Play(w, [Begin(sig), Half]) ==
            Some(StoreFlag(w, 0, sig).(registered := w.registered[sig := []],
                                       dispatch := Some(Dispatch(sig, [0], true, []))))
  {
    var w1 := Apply(w, Begin(sig));
    assert w1 == w.(registered := w.registered[sig := []], dispatch := Some(Dispatch(sig, [0], false, [])));
    hide Double;
    assert w1.dispatch.value.todo[0] == 0 && Can(w1, Half);
    hide Can;
    var w2 := Apply(w1, Half);
    assert Play(w1, [Half]) == Some(w2);
  }

  lemma DispatchEnds(w: World, sig: nat)
    requires w.dispatch == Some(Dispatch(sig, [0], true, [])) && w.producer.FlagThenSend?
    requires sig < 2 && w.registered == [[0], [0]][sig := []] && 0 !in w.gone
    ensures Play(w, [Other, End]) ==
            Some(w.(registered := [[0], [0]], dispatch := None, slots := w.slots + {0}))
  {
    var w1 := Apply(w, Other);
    assert w1.dispatch.value.kept == [0];
    var w2 := Apply(w1, End);
    assert w2.registered == [[0], [0]];
    assert Play(w1, [End]) == Some(w2);
  }

  lemma DispatchOf(w: World, sig: nat)
    requires Double(w) && sig < 2
    ensures Play(w, [Begin(sig), Half, Other, End]) == Some(StoreFlag(w, 0, sig).(slots := w.slots + {0}))
  {
    hide Can, Apply;
    DispatchBegins(w, sig);
    DispatchEnds(Play(w, [Begin(sig), Half]).value, sig);
    PlayConcat(w, [Begin(sig), Half], [Other, End]);
    assert [Begin(sig), Half] + [Other, End] == [Begin(sig), Half, Other, End];
  }

  lemma FailingSweep(w: World)
    requires Double(w) && 0 in w.slots && (0, 0) in w.flags && (0, 1) in w.flags
    ensures var r := Play(w, [Wake(0), Abort(0)]); r.Some? && Stuck(r.value, 0, 1)
  {
    var w1 := Apply(w, Wake(0));
    assert Play(w1, [Abort(0)]) == Some(Apply(w1, Abort(0)));
  }

  /** With the orders as they are, a sweep that is cut short leaves the loop stuck with the other signal. */
  lemma AbortGetsStuck()
    ensures var r := Exec(Start(FlagThenSend, DrainThenSweep, 2), ABORTED);
            r.Some? && Stuck(r.value, 0, 1)
  {
    hide Can, Apply, Start, Stuck, Exec;
    var w0 := Start(FlagThenSend, DrainThenSweep, 2);
    var first, one, two, last :=
      [Register(0, 0), Register(0, 1)], [Begin(0), Half, Other, End], [Begin(1), Half, Other, End], [Wake(0), Abort(0)];
    RegisteringTwice();
    DispatchOf(Play(w0, first).value, 0);
    PlayConcat(w0, first, one);
    DispatchOf(Play(w0, first + one).value, 1);
    PlayConcat(w0, first + one, two);
    FailingSweep(Play(w0, first + one + two).value);
    PlayConcat(w0, first + one + two, last);
    FromStart(w0, first + one + two + last);
    assert first + one + two + last == ABORTED;
  }

  // ----- Merging and broadcast -----

  ghost predicate RaisedOk(w: World) {
    forall l: nat, sig: nat :: (l, sig) in w.flags <==> RaisedOf(w, l, sig) > 0
  }

  lemma {:induction false} RaisedInRun(w: World, steps: seq<Step>)
    requires RaisedOk(w) && Exec(w, steps).Some?
    ensures RaisedOk(Exec(w, steps).value)
  {
    if steps != [] {
      RaisedInRun(w, steps[..|steps| - 1]);
      RaisedStep(Exec(w, steps[..|steps| - 1]).value, steps[|steps| - 1]);
    }
  }

  lemma RaisedStep(w: World, a: Step)
    requires RaisedOk(w) && Can(w, a)
    ensures RaisedOk(Apply(w, a))
  {}

  ghost function CountOf(ds: seq<Delivery>, d: Delivery): nat {
    multiset(ds)[d]
  }

  lemma {:induction false} DeliveredOnce(l: nat, sig: nat, order: seq<nat>, who: set<nat>, x: nat)
    requires Lists(order, who)
    ensures CountOf(Deliveries(l, sig, order), Delivery(l, sig, x)) == if x in who then 1 else 0
    decreases |order|
  {
    var ds := Deliveries(l, sig, order);
    if order == [] {
    } else {
      var n := |order| - 1;
      assert order[n] in order;
      forall y ensures y in order[..n] <==> y in who && y != order[n] {
        if y in order && y != order[n] {
          var k :| 0 <= k < |order| && order[k] == y;
          assert order[..n][k] == y;
        }
      }
      DeliveredOnce(l, sig, order[..n], who - {order[n]}, x);
      assert ds == Deliveries(l, sig, order[..n]) + [Delivery(l, sig, order[n])];
    }
  }

  /**
   A sweep of a signal hands exactly one Signal task to each recipient that is subscribed at that
   moment and none to anybody else if the signal was dispatched at least once since the last sweep,
   however many times; otherwise it hands out nothing.
   */
  lemma SignalsMerge(start: World, steps: seq<Step>, l: nat, order: seq<nat>, x: nat)
    requires RaisedOk(start) && Exec(start, steps).Some? && Can(Exec(start, steps).value, Sweep(l, order))
    ensures var w := Exec(start, steps).value;
            var w', sig := Apply(w, Sweep(l, order)), w.sweeps[l];
            && CountOf(w'.delivered, Delivery(l, sig, x)) - CountOf(w.delivered, Delivery(l, sig, x))
               == (if RaisedOf(w, l, sig) > 0 && x in RecipientsOf(w, l, sig) then 1 else 0)
            && RaisedOf(w', l, sig) == 0
  {
    RaisedInRun(start, steps);
    var w := Exec(start, steps).value;
    DeliveredOnce(l, w.sweeps[l], order, RecipientsOf(w, l, w.sweeps[l]), x);
  }

  // ----- Registration -----

  /** All that is registered for a signal, also while a dispatch has taken the list out. */
  ghost function Whole(w: World, sig: nat): seq<nat>
    requires sig < |w.registered|
  {
    w.registered[sig] + match w.dispatch
      case Some(d) => if d.sig == sig then d.kept + d.todo else []
      case None => []
  }

  ghost predicate OncePerLoop(w: World) {
    && (w.dispatch.Some? ==> w.dispatch.value.sig < |w.registered| && w.registered[w.dispatch.value.sig] == [])
    && (forall sig | 0 <= sig < |w.registered| ::
          && (forall k, m | 0 <= k < m < |Whole(w, sig)| :: Whole(w, sig)[k] != Whole(w, sig)[m])
          && (forall l | l in Whole(w, sig) :: (l, sig) in w.enabled))
  }

  lemma OncePerLoopStep(w: World, a: Step)
    requires OncePerLoop(w) && Can(w, a)
    ensures OncePerLoop(Apply(w, a))
  {
    var w' := Apply(w, a);
    forall sig | 0 <= sig < |w'.registered|
      ensures forall k, m | 0 <= k < m < |Whole(w', sig)| :: Whole(w', sig)[k] != Whole(w', sig)[m]
      ensures forall l | l in Whole(w', sig) :: (l, sig) in w'.enabled
    {
      WholeStep(w, a, sig);
    }
  }

  lemma WholeStep(w: World, a: Step, sig: nat)
    requires OncePerLoop(w) && Can(w, a) && sig < |w.registered|
    ensures |Apply(w, a).registered| == |w.registered|
    ensures var whole := Whole(Apply(w, a), sig);
            && (forall k, m | 0 <= k < m < |whole| :: whole[k] != whole[m])
            && (forall l | l in whole :: (l, sig) in Apply(w, a).enabled)
  {
    WholeChanges(w, a, sig);
    hide Whole, Apply;
    var whole := Whole(w, sig);
    if a.Register? && a.sig == sig {
      assert forall k | 0 <= k < |whole| :: whole[k] in whole;
    }
  }

  /** How a step changes the list of a signal: a new loop at the end, or a loop that is gone left out. */
  lemma WholeChanges(w: World, a: Step, sig: nat)
    requires OncePerLoop(w) && Can(w, a) && sig < |w.registered|
    ensures |Apply(w, a).registered| == |w.registered|
    ensures var whole, whole' := Whole(w, sig), Whole(Apply(w, a), sig);
            if a.Register? && a.sig == sig then
              && whole' == whole + [a.loop] && (a.loop, sig) !in w.enabled
              && Apply(w, a).enabled == w.enabled + {(a.loop, sig)}
            else
              && w.enabled <= Apply(w, a).enabled
              && (whole' == whole || exists n | 0 <= n < |whole| :: whole' == whole[..n] + whole[n + 1..])
  {
    hide OncePerLoop;
    TakenOut(w);
    if a.Other? && w.dispatch.value.sig == sig {
      WholeAfterNotifier(w, sig);
    } else if a.Register? || a.Begin? || a.End? || a.Half? || a.Other? {
      WholeElsewhere(w, a, sig);
    }
  }

  lemma WholeAfterNotifier(w: World, sig: nat)
    requires Can(w, Other) && w.dispatch.value.sig == sig && sig < |w.registered| && w.registered[sig] == []
    ensures var whole, whole' := Whole(w, sig), Whole(Apply(w, Other), sig);
            whole' == whole || exists n | 0 <= n < |whole| :: whole' == whole[..n] + whole[n + 1..]
  {
    var d := w.dispatch.value;
    Advanced(d.kept, d.todo);
    assert Whole(w, sig) == d.kept + d.todo;
    assert Whole(Apply(w, Other), sig) ==
           if d.todo[0] in w.gone then d.kept + d.todo[1..] else d.kept + [d.todo[0]] + d.todo[1..];
  }

  /** A notifier is taken from the list: left out, or kept in its place. */
  lemma Advanced(kept: seq<nat>, todo: seq<nat>)
    requires todo != []
    ensures kept + todo[1..] == (kept + todo)[..|kept|] + (kept + todo)[|kept| + 1..]
    ensures kept + [todo[0]] + todo[1..] == kept + todo
  {}

  lemma WholeElsewhere(w: World, a: Step, sig: nat)
    requires Can(w, a) && sig < |w.registered|
    requires w.dispatch.Some? ==> w.dispatch.value.sig < |w.registered| && w.registered[w.dispatch.value.sig] == []
    requires a.Register? || a.Begin? || a.End? || a.Half? || (a.Other? && w.dispatch.value.sig != sig)
    ensures Whole(Apply(w, a), sig) ==
            if a.Register? && a.sig == sig then Whole(w, sig) + [a.loop] else Whole(w, sig)
  {}

  lemma TakenOut(w: World)
    requires OncePerLoop(w)
    ensures w.dispatch.Some? ==> w.dispatch.value.sig < |w.registered| && w.registered[w.dispatch.value.sig] == []
  {}

  /** A loop is registered at most once for each signal, so a dispatch touches its flag at most once. */
  lemma {:induction false} RegisteredOnce(w: World, steps: seq<Step>)
    requires OncePerLoop(w) && Exec(w, steps).Some?
    ensures OncePerLoop(Exec(w, steps).value)
  {
    hide OncePerLoop;
    if steps != [] {
      RegisteredOnce(w, steps[..|steps| - 1]);
      OncePerLoopStep(Exec(w, steps[..|steps| - 1]).value, steps[|steps| - 1]);
    }
  }

  lemma FreshWorld(producer: Producer, consumer: Consumer, signals: nat)
    ensures var w := Start(producer, consumer, signals);
            FlagsInRange(w) && NoneLost(w) && RaisedOk(w) && OncePerLoop(w)
  {}
}
