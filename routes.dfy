/**
  The API router built by the server's constructor (httpserver/server.go:67-77):
  five GET routes matched by exact path, and the profiler mounted under
  `/debug` only when it is enabled. The key is never served at the root path.
 */
module Routes {
  import opened Wrappers

  /** The handler a request is dispatched to. */
  datatype Handler = GetPubkey | LivenessCheck | ReadinessCheck | Drain | Undrain | Profiler

  /** A GET route matched exactly, or a sub-router mounted at a path and everything below it. */
  datatype Route = Get(pattern: string, handler: Handler) | Mount(pattern: string, handler: Handler)

  /**
    The routes the constructor registers, in registration order: five GET
    routes with distinct patterns, none at the root, and the profiler mount
    iff it is enabled.
   */
  function RouteTable(enablePprof: bool): (rt: seq<Route>)
    ensures |rt| == if enablePprof then 6 else 5
    ensures forall i :: 0 <= i < 5 ==> rt[i].Get?
    ensures Mount("/debug", Profiler) in rt <==> enablePprof
    ensures forall i :: 0 <= i < |rt| ==> rt[i].pattern != "/"
    ensures forall i, j :: 0 <= i < j < |rt| ==> rt[i].pattern != rt[j].pattern
  {
    [ Get("/pubkey", GetPubkey),
      Get("/livez", LivenessCheck),
      Get("/readyz", ReadinessCheck),
      Get("/drain", Drain),
      Get("/undrain", Undrain) ]
    + (if enablePprof then [Mount("/debug", Profiler)] else [])
  }

  /** A mount answers its own path and every path below it. */
  predicate Matches(r: Route, path: string)
  {
    match r
    case Get(p, _) => path == p
    case Mount(p, _) => path == p || p + "/" <= path
  }

  /** Some route of `routes` matches `path` and has handler `h`. */
  predicate RoutedBy(routes: seq<Route>, path: string, h: Handler)
  {
    exists i :: 0 <= i < |routes| && Matches(routes[i], path) && routes[i].handler == h
  }

  /**
    The handler of the first route that matches, if any: no handler iff no
    route matches, and a handler only of a route that matches.
   */
  function Dispatch(routes: seq<Route>, path: string): (h: Option<Handler>)
    ensures h.None? <==> forall i :: 0 <= i < |routes| ==> !Matches(routes[i], path)
    ensures h.Some? ==> RoutedBy(routes, path, h.value)
    decreases |routes|
  {
    if routes == [] then None
    else if Matches(routes[0], path) then Some(routes[0].handler)
    else
      assert forall i :: 0 <= i < |routes[1..]| ==> routes[1..][i] == routes[i + 1];
      Dispatch(routes[1..], path)
  }

  /** The first matching route decides. */
  lemma {:induction false} DispatchFirstMatch(routes: seq<Route>, path: string, i: nat)
    requires i < |routes| && Matches(routes[i], path)
    requires forall j :: 0 <= j < i ==> !Matches(routes[j], path)
    ensures Dispatch(routes, path) == Some(routes[i].handler)
    decreases i
  {
    if i > 0 {
      DispatchFirstMatch(routes[1..], path, i - 1);
    }
  }

  /** Each endpoint reaches its handler, and the root path reaches none. */
  lemma RouteTableBindings(enablePprof: bool)
    ensures Dispatch(RouteTable(enablePprof), "/pubkey") == Some(GetPubkey)
    ensures Dispatch(RouteTable(enablePprof), "/livez") == Some(LivenessCheck)
    ensures Dispatch(RouteTable(enablePprof), "/readyz") == Some(ReadinessCheck)
    ensures Dispatch(RouteTable(enablePprof), "/drain") == Some(Drain)
    ensures Dispatch(RouteTable(enablePprof), "/undrain") == Some(Undrain)
    ensures Dispatch(RouteTable(enablePprof), "/") == None
  {
    RootUnbound(enablePprof);
    GetRouteBound(enablePprof, 0);
    GetRouteBound(enablePprof, 1);
    GetRouteBound(enablePprof, 2);
    GetRouteBound(enablePprof, 3);
    GetRouteBound(enablePprof, 4);
  }

  /** A GET route of the table is reached at its own pattern: no earlier route has that pattern. */
  lemma GetRouteBound(enablePprof: bool, i: nat)
    requires i < 5
    ensures Dispatch(RouteTable(enablePprof), RouteTable(enablePprof)[i].pattern) == Some(RouteTable(enablePprof)[i].handler)
  {
    var rt := RouteTable(enablePprof);
    DispatchFirstMatch(rt, rt[i].pattern, i);
  }

  /** No route of the table matches the root path, so it reaches no handler. */
  lemma RootUnbound(enablePprof: bool)
    ensures Dispatch(RouteTable(enablePprof), "/") == None
  {
    var rt := RouteTable(enablePprof);
    forall i | 0 <= i < |rt|
      ensures !Matches(rt[i], "/")
    {
      if i == 5 {
        assert |rt[i].pattern + "/"| > |"/"|;
      }
    }
  }

  /** The key is served at `/pubkey` and at no other path. */
  lemma KeyOnlyAtPubkey(enablePprof: bool, path: string)
    requires Dispatch(RouteTable(enablePprof), path) == Some(GetPubkey)
    ensures path == "/pubkey"
  {
  }

  /** Every path below `/debug/` reaches the profiler iff it is enabled, and nothing otherwise. */
  lemma ProfilerUnderDebug(enablePprof: bool, path: string)
    requires "/debug/" <= path
    ensures Dispatch(RouteTable(enablePprof), path) == if enablePprof then Some(Profiler) else None
  {
    var rt := RouteTable(enablePprof);
    assert path[1] == 'd';
    if enablePprof {
      DispatchFirstMatch(rt, path, 5);
    } else {
      assert forall i :: 0 <= i < |rt| ==> !Matches(rt[i], path);
    }
  }
}
