/**
  The readiness flag as a pure state machine: what a drain or undrain request
  does to the flag and which side effects it has (httpserver/handler.go:40-55).
  Each request is one atomic swap: the new value goes in and the value it
  replaced decides the effect. Only a real ready-to-not-ready edge logs and
  sleeps for the drain duration; only a real not-ready-to-ready edge logs;
  redundant requests do nothing.
 */
module Readiness {

  /** A request that swaps the readiness flag. */
  datatype Call = Drain | Undrain

  /** An observable effect of a request: an info log line, or the load-balancer propagation sleep. */
  datatype Effect = MarkedNotReady | MarkedReady | Slept(duration: nat)

  /**
    The value the flag holds after the request's swap. The swapped-in value
    does not depend on the old one; `ready` is kept so that `After` has the
    shape of a transition function, as `Replay` and `Trace` use it.
   */
  function After(ready: bool, c: Call): bool
  {
    match c
    case Drain => false
    case Undrain => true
  }

  /**
    What a request does, given the value its swap replaced: nothing at all
    unless the swap changed the flag; a drain edge logs and sleeps the drain
    duration, an undrain edge only logs.
   */
  function Effects(wasReady: bool, c: Call, drainDuration: nat): (effects: seq<Effect>)
    ensures effects == [] <==> After(wasReady, c) == wasReady
    ensures MarkedNotReady in effects <==> wasReady && c == Drain
    ensures MarkedReady in effects <==> !wasReady && c == Undrain
    ensures TotalSlept(effects) == if wasReady && c == Drain then drainDuration else 0
  {
    match c
    case Drain =>
      assert TotalSlept([Slept(drainDuration)]) == drainDuration;
      if wasReady then [MarkedNotReady, Slept(drainDuration)] else []
    case Undrain => if wasReady then [] else [MarkedReady]
  }

  /** The flag after a sequence of requests, starting from `ready`. */
  function Replay(ready: bool, calls: seq<Call>): bool
    decreases |calls|
  {
    if calls == [] then ready else Replay(After(ready, calls[0]), calls[1..])
  }

  /** All effects of a sequence of requests, in order. */
  function Trace(ready: bool, calls: seq<Call>, drainDuration: nat): seq<Effect>
    decreases |calls|
  {
    if calls == [] then []
    else Effects(ready, calls[0], drainDuration) + Trace(After(ready, calls[0]), calls[1..], drainDuration)
  }

  /** Total time slept in a sequence of effects. */
  function TotalSlept(effects: seq<Effect>): nat
  {
    if effects == [] then 0
    else (if effects[0].Slept? then effects[0].duration else 0) + TotalSlept(effects[1..])
  }

  /** How many requests of a sequence found the flag ready and were drains: the true-to-false edges. */
  function DrainEdges(ready: bool, calls: seq<Call>): nat
    decreases |calls|
  {
    if calls == [] then 0
    else (if ready && calls[0] == Drain then 1 else 0) + DrainEdges(After(ready, calls[0]), calls[1..])
  }

  /** How many undrain requests a sequence holds. */
  function Undrains(calls: seq<Call>): nat
  {
    if calls == [] then 0 else (if calls[0] == Undrain then 1 else 0) + Undrains(calls[1..])
  }

  /** One more request moves the flag as that request's swap does. */
  lemma {:induction false} ReplaySnoc(ready: bool, calls: seq<Call>, c: Call)
    ensures Replay(ready, calls + [c]) == After(Replay(ready, calls), c)
    decreases |calls|
  {
    if calls != [] {
      assert (calls + [c])[1..] == calls[1..] + [c];
      ReplaySnoc(After(ready, calls[0]), calls[1..], c);
    }
  }

  /** One more request appends exactly its own effects to the trace. */
  lemma {:induction false} TraceSnoc(ready: bool, calls: seq<Call>, c: Call, drainDuration: nat)
    ensures Trace(ready, calls + [c], drainDuration)
         == Trace(ready, calls, drainDuration) + Effects(Replay(ready, calls), c, drainDuration)
    decreases |calls|
  {
    if calls == [] {
      assert [] + [c] == [c];
    } else {
      assert (calls + [c])[1..] == calls[1..] + [c];
      TraceSnoc(After(ready, calls[0]), calls[1..], c, drainDuration);
    }
  }

  /**
    Readiness reflects the last request: after any sequence of drains and
    undrains the flag is set iff the last one was an undrain, or, when there
    was none, iff it was set at the start.
   */
  lemma {:induction false} ReplayReflectsLast(ready: bool, calls: seq<Call>)
    ensures Replay(ready, calls) == if calls == [] then ready else calls[|calls| - 1] == Undrain
    decreases |calls|
  {
    if calls != [] {
      ReplayReflectsLast(After(ready, calls[0]), calls[1..]);
    }
  }

  /** A second drain in a row neither changes the flag nor has any effect: no second wait, no log line. */
  lemma DrainIdempotent(ready: bool, calls: seq<Call>, drainDuration: nat)
    ensures !Replay(ready, calls + [Drain])
    ensures Replay(ready, calls + [Drain, Drain]) == Replay(ready, calls + [Drain])
    ensures Trace(ready, calls + [Drain, Drain], drainDuration) == Trace(ready, calls + [Drain], drainDuration)
  {
    assert calls + [Drain, Drain] == (calls + [Drain]) + [Drain];
    ReplaySnoc(ready, calls, Drain);
    ReplaySnoc(ready, calls + [Drain], Drain);
    TraceSnoc(ready, calls + [Drain], Drain, drainDuration);
  }

  /** A second undrain in a row neither changes the flag nor has any effect. */
  lemma UndrainIdempotent(ready: bool, calls: seq<Call>, drainDuration: nat)
    ensures Replay(ready, calls + [Undrain])
    ensures Replay(ready, calls + [Undrain, Undrain]) == Replay(ready, calls + [Undrain])
    ensures Trace(ready, calls + [Undrain, Undrain], drainDuration) == Trace(ready, calls + [Undrain], drainDuration)
  {
    assert calls + [Undrain, Undrain] == (calls + [Undrain]) + [Undrain];
    ReplaySnoc(ready, calls, Undrain);
    ReplaySnoc(ready, calls + [Undrain], Undrain);
    TraceSnoc(ready, calls + [Undrain], Undrain, drainDuration);
  }

  lemma {:induction false} TotalSleptAppend(a: seq<Effect>, b: seq<Effect>)
    ensures TotalSlept(a + b) == TotalSlept(a) + TotalSlept(b)
    decreases |a|
  {
    if a == [] {
      assert a + b == b;
    } else {
      assert (a + b)[1..] == a[1..] + b;
      TotalSleptAppend(a[1..], b);
    }
  }

  lemma MulSucc(d: nat, k: nat)
    ensures d * (1 + k) == d + d * k
  {
  }

  /** Time is spent only on true-to-false edges, exactly one drain duration per edge. */
  lemma {:induction false} SleptOnlyOnDrainEdges(ready: bool, calls: seq<Call>, drainDuration: nat)
    ensures TotalSlept(Trace(ready, calls, drainDuration)) == drainDuration * DrainEdges(ready, calls)
    decreases |calls|
  {
    if calls != [] {
      var first := Effects(ready, calls[0], drainDuration);
      var rest := Trace(After(ready, calls[0]), calls[1..], drainDuration);
      TotalSleptAppend(first, rest);
      SleptOnlyOnDrainEdges(After(ready, calls[0]), calls[1..], drainDuration);
      var k := DrainEdges(After(ready, calls[0]), calls[1..]);
      if ready && calls[0] == Drain {
        assert TotalSlept(first) == drainDuration;
        MulSucc(drainDuration, k);
      } else {
        assert TotalSlept(first) == 0;
      }
    }
  }

  /**
    Drains do not compound their waits: a sequence contains at most one
    true-to-false edge more than it contains undrains (none more, if the
    flag starts cleared).
   */
  lemma {:induction false} DrainEdgesBound(ready: bool, calls: seq<Call>)
    ensures DrainEdges(ready, calls) <= (if ready then 1 else 0) + Undrains(calls)
    decreases |calls|
  {
    if calls != [] {
      DrainEdgesBound(After(ready, calls[0]), calls[1..]);
    }
  }
}
