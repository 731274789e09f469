/**
 The registry behind the signal handler (src/signal_dispatch.rs:23-84), as the objects that the
 handler changes. Here a dispatch runs by itself; how it interleaves with the loops is in Signals.dfy.
 */
module SignalDispatcher {
  import Signals

  datatype SendResult = Accepted | Full | Disconnected

  /** The sending half of one loop: its flags and its channel of capacity one. */
  class SignalNotifier {
    var flags: seq<bool>
    var slot: bool
    var gone: bool

    constructor (signals: nat)
      ensures |flags| == signals && (forall k | 0 <= k < signals :: !flags[k]) && !slot && !gone
    {
      flags, slot, gone := seq(signals, _ => false), false, false;
    }

    method StoreFlag(signal: nat)
      requires signal < |flags|
      modifies this`flags
      ensures flags == old(flags)[signal := true]
    {
      flags := flags[signal := true];
    }

    method TrySend() returns (r: SendResult)
      modifies this`slot
      ensures r == if gone then Disconnected else if old(slot) then Full else Accepted
      ensures slot == (old(slot) || !gone)
    {
      if gone {
        return Disconnected;
      }
      r := if slot then Full else Accepted;
      slot := true;
    }
  }

  /** What one dispatch did to a notifier with these old values. */
  ghost predicate Notified(n: SignalNotifier, signal: nat, flags: seq<bool>, slot: bool, gone: bool)
    requires signal < |flags|
    reads n
  {
    n.flags == flags[signal := true] && n.slot == (slot || !gone) && n.gone == gone
  }

  /** The flag first, then the wake-up; false if there is nobody left to wake up. */
  method Notify(n: SignalNotifier, signal: nat) returns (keep: bool)
    requires signal < |n.flags|
    modifies n
    ensures Notified(n, signal, old(n.flags), old(n.slot), old(n.gone))
    ensures keep <==> !old(n.gone)
  {
    n.StoreFlag(signal);
    var r := n.TrySend();
    keep := !r.Disconnected?;
  }

  method NotifyAll(tmp: seq<SignalNotifier>, signal: nat) returns (left: seq<SignalNotifier>)
    requires forall n | n in tmp :: signal < |n.flags|
    modifies tmp
    ensures left == old(Present(tmp))
    ensures forall n | n in tmp :: Notified(n, signal, old(n.flags), old(n.slot), old(n.gone))
  {
    left := [];
    ghost var seen: set<SignalNotifier> := {};
    for k := 0 to |tmp|
      invariant seen == set n | n in tmp[..k]
      invariant left == old(Present(tmp[..k]))
      invariant forall n | n in tmp :: signal < |n.flags|
      invariant forall n | n in tmp && n !in seen :: unchanged(n)
      invariant forall n | n in seen :: Notified(n, signal, old(n.flags), old(n.slot), old(n.gone))
    {
      assert tmp[..k + 1] == tmp[..k] + [tmp[k]];
      assert tmp[..k + 1][..k] == tmp[..k];
      assert tmp[k] in tmp;
      var keep := Notify(tmp[k], signal);
      seen := seen + {tmp[k]};
      if keep {
        left := left + [tmp[k]];
      }
    }
    assert tmp[..|tmp|] == tmp;
  }

  /** The notifiers whose receiver is still there, in order. */
  ghost function Present(ns: seq<SignalNotifier>): seq<SignalNotifier>
    reads ns
  {
    if ns == [] then []
    else Present(ns[..|ns| - 1]) + if ns[|ns| - 1].gone then [] else [ns[|ns| - 1]]
  }

  /** The numbers of some notifiers. */
  ghost function Ids(ns: seq<SignalNotifier>, ids: map<SignalNotifier, nat>): (r: seq<nat>)
    requires forall n | n in ns :: n in ids
    ensures |r| == |ns| && forall k | 0 <= k < |ns| :: r[k] == ids[ns[k]]
  {
    seq(|ns|, k requires 0 <= k < |ns| => ids[ns[k]])
  }

  /** The world of Signals.dfy sees this notifier under its number. */
  ghost predicate SeenAs(n: SignalNotifier, id: nat, signals: nat, w: Signals.World)
    reads n
  {
    && (id in w.gone <==> n.gone) && (id in w.slots <==> n.slot)
    && |n.flags| == signals && forall k | 0 <= k < signals :: (id, k) in w.flags <==> n.flags[k]
  }

  lemma {:induction false} PresentStay(ns: seq<SignalNotifier>, ids: map<SignalNotifier, nat>, w: Signals.World)
    requires forall n | n in ns :: n in ids && (ids[n] in w.gone <==> n.gone)
    ensures forall n | n in Present(ns) :: n in ids
    ensures Ids(Present(ns), ids) == Signals.Staying(Ids(ns, ids), w.gone)
  {
    if ns != [] {
      var m := |ns| - 1;
      assert ns[m] in ns && forall n | n in ns[..m] :: n in ns;
      PresentStay(ns[..m], ids, w);
      assert Ids(ns, ids)[..m] == Ids(ns[..m], ids);
    }
  }

  class SignalDispatch {
    var registered: seq<seq<SignalNotifier>>
    var setup: seq<bool>

    ghost predicate Valid()
      reads this
    {
      |registered| == |setup| && forall k | 0 <= k < |setup| && registered[k] != [] :: setup[k]
    }

    constructor (signals: nat)
      ensures Valid() && |registered| == signals && forall k | 0 <= k < signals :: registered[k] == [] && !setup[k]
    {
      registered, setup := seq(signals, _ => []), seq(signals, _ => false);
    }

    /** The handler of the process is installed with the first notifier; `install` says it is now. */
    method Register(signal: nat, notifier: SignalNotifier) returns (install: bool)
      requires Valid() && signal < |setup|
      modifies this
      ensures Valid()
      ensures install <==> !old(setup)[signal]
      ensures setup == old(setup)[signal := true]
      ensures registered == old(registered)[signal := old(registered)[signal] + [notifier]]
    {
      install := !setup[signal];
      if install {
        setup := setup[signal := true];
      }
      assert setup == old(setup)[signal := true];
      registered := registered[signal := registered[signal] + [notifier]];
    }

    /**
     Sets the flag of everybody registered for the signal and leaves a wake-up in the channel of
     everybody who is still there. Exactly the notifiers whose receiver is gone are dropped, the rest
     stay in order, and nothing else changes.
     */
    method Dispatch(signal: nat)
      requires Valid() && signal < |setup|
      requires forall n | n in registered[signal] :: signal < |n.flags|
      modifies this, registered[signal]
      ensures Valid() && setup == old(setup)
      ensures registered == old(registered)[signal := old(Present(registered[signal]))]
      ensures forall n | n in old(registered[signal]) :: Notified(n, signal, old(n.flags), old(n.slot), old(n.gone))
    {
      if |registered[signal]| == 0 {
        assert registered == registered[signal := []];
        return;
      }
      var tmp := registered[signal];
      registered := registered[signal := []];
      tmp := NotifyAll(tmp, signal);
      registered := registered[signal := tmp];
    }

    /** The registry and its notifiers are what the world of Signals.dfy says, under these numbers. */
    ghost predicate Shows(w: Signals.World, ids: map<SignalNotifier, nat>)
      reads this, ids.Keys
    {
      && |w.registered| == |registered|
      && (forall k, n | 0 <= k < |registered| && n in registered[k] :: n in ids)
      && (forall k | 0 <= k < |registered| :: w.registered[k] == Ids(registered[k], ids))
      && (forall n, m | n in ids && m in ids && ids[n] == ids[m] :: n == m)
      && (forall n | n in ids :: SeenAs(n, ids[n], |registered|, w))
    }

    /** Dispatch does what the steps of a dispatch do that nothing interrupts: see Signals.UninterruptedDispatch. */
    method DispatchAlone(signal: nat, ghost w: Signals.World, ghost ids: map<SignalNotifier, nat>,
                         ghost raised: map<(nat, nat), nat>)
      requires Valid() && signal < |setup| && Shows(w, ids)
      modifies this, registered[signal]
      ensures Valid() && Shows(Signals.Dispatched(w, signal, w.registered[signal], [], raised), ids)
    {
      ghost var ns, before := registered[signal], registered;
      PresentStay(ns, ids, w);
      assert forall n | n in ns :: n in ids && SeenAs(n, ids[n], |registered|, w);
      Dispatch(signal);
      ghost var w' := Signals.Dispatched(w, signal, w.registered[signal], [], raised);
      forall n | n in ids ensures SeenAs(n, ids[n], |registered|, w') {
        assert old(SeenAs(n, ids[n], |registered|, w));
        NumberOf(ns, ids, n);
        NowSeenAs(n, ids[n], |registered|, w, signal, w.registered[signal], raised,
                  old(n.flags), old(n.slot), n in ns);
      }
      hide SeenAs;
      assert [] + Signals.Staying(w.registered[signal], w.gone) == Signals.Staying(w.registered[signal], w.gone);
    }

    lemma NowSeenAs(n: SignalNotifier, id: nat, signals: nat, w: Signals.World, signal: nat, ls: seq<nat>,
                    raised: map<(nat, nat), nat>, flags: seq<bool>, slot: bool, notified: bool)
      requires signal < signals && signal < |w.registered| && |flags| == signals
      requires (id in w.gone <==> n.gone) && (id in w.slots <==> slot)
      requires forall k | 0 <= k < signals :: (id, k) in w.flags <==> flags[k]
      requires notified <==> id in ls
      requires if notified then Notified(n, signal, flags, slot, n.gone) else n.flags == flags && n.slot == slot
      ensures SeenAs(n, id, signals, Signals.Dispatched(w, signal, ls, [], raised))
    {}

    lemma NumberOf(ns: seq<SignalNotifier>, ids: map<SignalNotifier, nat>, n: SignalNotifier)
      requires n in ids && (forall m | m in ns :: m in ids)
      requires forall x, y | x in ids && y in ids && ids[x] == ids[y] :: x == y
      ensures ids[n] in Ids(ns, ids) <==> n in ns
    {
      if n in ns {
        var k :| 0 <= k < |ns| && ns[k] == n;
        assert Ids(ns, ids)[k] == ids[n];
      }
    }
  }
}
