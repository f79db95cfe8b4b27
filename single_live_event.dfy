/**
 * SingleLiveEvent: a LiveData whose wrapped observers forward a stored value
 * only while the `isPending` flag is set, and clear the flag as they do so.
 * LiveData's own dispatch (which observer is called, and when) is abstracted
 * as "some wrapped observer callback is invoked with the current value".
 */
module LiveEvent {
  import opened Wrappers

  /**
   * The state of one SingleLiveEvent: the `isPending` flag, the LiveData's
   * current value (None is null) and, for specification only, every value
   * ever passed to `setValue` in order.
   */
  datatype Gate<T> = Gate(pending: bool, value: Option<T>, emitted: seq<Option<T>>)

  /** What a wrapped observer callback does with one dispatch. */
  datatype Delivery<T> = Skipped | Forwarded(value: Option<T>)

  /** A freshly constructed SingleLiveEvent: not pending, nothing emitted. */
  function Fresh<T>(): Gate<T> {
    Gate(false, None, [])
  }

  /** `setValue(v)`: arm the flag, then store the value. */
  function AfterSet<T>(g: Gate<T>, v: Option<T>): Gate<T> {
    Gate(true, v, g.emitted + [v])
  }

  /** `call()`: assigning null to `value`, i.e. `setValue(null)`. */
  function AfterCall<T>(g: Gate<T>): Gate<T> {
    AfterSet(g, None)
  }

  /**
   * The wrapped observer: `compareAndSet(true, false)` on the flag, and
   * forward the dispatched value only when that succeeded.
   */
  function Deliver<T>(g: Gate<T>): (r: (Gate<T>, Delivery<T>))
    ensures r.1.Forwarded? <==> g.pending
    ensures r.1.Forwarded? ==> r.1.value == g.value
    ensures !r.0.pending
    ensures r.0.value == g.value && r.0.emitted == g.emitted
  {
    if g.pending then (g.(pending := false), Forwarded(g.value)) else (g, Skipped)
  }

  /** A sequence of operations on one SingleLiveEvent. */
  datatype GateOp<T> = SetOp(v: Option<T>) | DispatchOp

  /** The state after `ops` and the outcome of each dispatch among them, in order. */
  function Replay<T>(g: Gate<T>, ops: seq<GateOp<T>>): (r: (Gate<T>, seq<Delivery<T>>))
    decreases |ops|
  {
    if ops == [] then (g, [])
    else match ops[0]
      case SetOp(v) => Replay(AfterSet(g, v), ops[1..])
      case DispatchOp =>
        var (g1, d) := Deliver(g);
        var (g2, ds) := Replay(g1, ops[1..]);
        (g2, [d] + ds)
  }

  /** Number of deliveries that reached the observer. */
  function ForwardCount<T>(ds: seq<Delivery<T>>): nat {
    if ds == [] then 0 else (if ds[0].Forwarded? then 1 else 0) + ForwardCount(ds[1..])
  }

  /** Number of `setValue` calls among `ops`. */
  function SetCount<T>(ops: seq<GateOp<T>>): nat {
    if ops == [] then 0 else (if ops[0].SetOp? then 1 else 0) + SetCount(ops[1..])
  }

  /** The values passed to `setValue` among `ops`, in order. */
  function SetValues<T>(ops: seq<GateOp<T>>): seq<Option<T>> {
    if ops == [] then [] else (if ops[0].SetOp? then [ops[0].v] else []) + SetValues(ops[1..])
  }

  /**
   * With no `setValue` in between, dispatches forward exactly one value when
   * the flag was armed and none when it was already consumed: a re-dispatch of
   * the stored value (to a newly attached observer, say) forwards nothing.
   */
  lemma {:induction false} OneForwardPerArming<T>(g: Gate<T>, ops: seq<GateOp<T>>)
    requires forall i :: 0 <= i < |ops| ==> ops[i].DispatchOp?
    ensures ForwardCount(Replay(g, ops).1) == if g.pending && ops != [] then 1 else 0
    ensures !g.pending ==> Replay(g, ops).0 == g
    decreases |ops|
  {
    if ops != [] {
      var (g1, d) := Deliver(g);
      OneForwardPerArming(g1, ops[1..]);
      var ds := Replay(g1, ops[1..]).1;
      assert Replay(g, ops).1 == [d] + ds;
      assert ([d] + ds)[1..] == ds;
    }
  }

  /** Over any run, forwarded deliveries never outnumber the `setValue` calls (plus one armed beforehand). */
  lemma {:induction false} ForwardsBoundedBySets<T>(g: Gate<T>, ops: seq<GateOp<T>>)
    ensures ForwardCount(Replay(g, ops).1) <= SetCount(ops) + (if g.pending then 1 else 0)
    decreases |ops|
  {
    if ops != [] {
      match ops[0]
      case SetOp(v) =>
        ForwardsBoundedBySets(AfterSet(g, v), ops[1..]);
      case DispatchOp =>
        var (g1, d) := Deliver(g);
        ForwardsBoundedBySets(g1, ops[1..]);
        var ds := Replay(g1, ops[1..]).1;
        assert Replay(g, ops).1 == [d] + ds;
        assert ([d] + ds)[1..] == ds;
    }
  }

  /**
   * Repeated `setValue` calls with no dispatch leave the flag armed and hold
   * only the latest value; every value is recorded as emitted, in order.
   */
  lemma {:induction false} SetsKeepLatest<T>(g: Gate<T>, ops: seq<GateOp<T>>)
    requires ops != []
    requires forall i :: 0 <= i < |ops| ==> ops[i].SetOp?
    ensures Replay(g, ops).0.pending
    ensures Replay(g, ops).0.value == ops[|ops| - 1].v
    ensures Replay(g, ops).0.emitted == g.emitted + SetValues(ops)
    ensures Replay(g, ops).1 == []
    decreases |ops|
  {
    if |ops| > 1 {
      SetsKeepLatest(AfterSet(g, ops[0].v), ops[1..]);
      assert ops[1..][|ops[1..]| - 1] == ops[|ops| - 1];
      assert g.emitted + [ops[0].v] + SetValues(ops[1..]) == g.emitted + ([ops[0].v] + SetValues(ops[1..]));
    } else {
      assert SetValues(ops) == [ops[0].v] + SetValues(ops[1..]);
    }
  }

  /** After `setValue(v)`, whatever dispatches follow forward `v` and nothing else. */
  lemma {:induction false} ForwardsLatestValue<T>(g: Gate<T>, ops: seq<GateOp<T>>)
    requires forall i :: 0 <= i < |ops| ==> ops[i].DispatchOp?
    ensures forall i :: 0 <= i < |Replay(g, ops).1| && Replay(g, ops).1[i].Forwarded? ==>
      Replay(g, ops).1[i].value == g.value
    ensures Replay(g, ops).0.value == g.value
    decreases |ops|
  {
    if ops != [] {
      var (g1, d) := Deliver(g);
      ForwardsLatestValue(g1, ops[1..]);
      var ds := Replay(g1, ops[1..]).1;
      assert Replay(g, ops).1 == [d] + ds;
    }
  }

  /** The object itself, updated in place as the Kotlin class is. */
  class SingleLiveEvent<T> {
    var pending: bool
    var value: Option<T>
    ghost var emitted: seq<Option<T>>

    ghost function State(): Gate<T>
      reads this
    {
      Gate(pending, value, emitted)
    }

    constructor ()
      ensures State() == Fresh()
    {
      pending, value, emitted := false, None, [];
    }

    /** `setValue`: the flag is set before the value is stored. */
    method SetValue(v: Option<T>)
      modifies this
      ensures State() == AfterSet(old(State()), v)
    {
      pending := true;
      value := v;
      emitted := emitted + [v];
    }

    /** `call()`: `setValue(null)`. */
    method Call()
      modifies this
      ensures State() == AfterCall(old(State()))
    {
      SetValue(None);
    }

    /** One invocation of a wrapped observer callback with the current value. */
    method Dispatch() returns (d: Delivery<T>)
      modifies this
      ensures (State(), d) == Deliver(old(State()))
    {
      if pending {
        pending := false;
        d := Forwarded(value);
      } else {
        d := Skipped;
      }
    }
  }
}
