/**
  The HTTP server object: its construction (httpserver/server.go:45-87), the
  five handlers (httpserver/handler.go:10-55) of which readiness reads the
  readiness flag, drain and undrain swap it, and key retrieval and liveness
  never consult it, starting the listeners
  (httpserver/server.go:93-112) and the shutdown sequence
  (httpserver/server.go:114-135).

  Real time is not modelled: the drain sleep is an observable output and an
  entry of the server's effect trace. Each listener's `Shutdown(ctx)` outcome,
  the metrics-server construction outcome and each key-file read are inputs.
 */
module HttpServer {
  import opened Wrappers
  import opened Bytes
  import opened Pubkey
  import R = Readiness
  import Routes

  const StatusOK: int := 200
  const StatusServiceUnavailable: int := 503

  /**
    The server configuration. Durations are counts of a time unit. The key
    paths are a sequence, as the handler test configures them (see the
    Pubkey module on the repository's inconsistency about multiple keys).
   */
  datatype Config = Config(
    listenAddr: string,
    metricsAddr: string,
    enablePprof: bool,
    drainDuration: nat,
    gracefulShutdownDuration: nat,
    readTimeout: nat,
    writeTimeout: nat,
    pubkeyPaths: seq<string>)

  /** The API listener's settings: address, router and timeouts. */
  datatype ApiServer = ApiServer(addr: string, routes: seq<Routes.Route>, readTimeout: nat, writeTimeout: nat)

  /** The two listeners a server owns. */
  datatype Listener = Api | Metrics

  /** One step of the shutdown sequence: a graceful-shutdown call with its deadline, or the outcome it logs. */
  datatype ShutdownStep =
    | ShutdownCalled(listener: Listener, deadline: nat)
    | GracefullyStopped(listener: Listener)
    | ShutdownFailed(listener: Listener)

  /** The log entry that follows a listener's graceful-shutdown call: success iff the call succeeded. */
  function ShutdownOutcome(l: Listener, ok: bool): (step: ShutdownStep)
    ensures !step.ShutdownCalled? && step.listener == l
    ensures step.GracefullyStopped? <==> ok
    ensures step.ShutdownFailed? <==> !ok
  {
    if ok then GracefullyStopped(l) else ShutdownFailed(l)
  }

  class Server {
    const cfg: Config
    /** The bytes the key endpoint writes: the normalised keys joined by newlines. */
    const pubkeys: seq<byte>
    const api: ApiServer
    /** The readiness flag; the source holds it in an atomic boolean and swaps it in one step. */
    var ready: bool
    /** The drain and undrain log lines and drain sleeps, in order. */
    var events: seq<R.Effect>
    /** The drain and undrain requests served so far. */
    ghost var history: seq<R.Call>

    /** The flag and the effect trace are those of replaying the requests from a ready start. */
    ghost predicate Valid()
      reads this
    {
      && ready == R.Replay(true, history)
      && events == R.Trace(true, history, cfg.drainDuration)
    }

    /** A server that is ready and has served no drain or undrain request. */
    constructor (cfg: Config, pubkeys: seq<byte>)
      ensures Valid()
      ensures this.cfg == cfg && this.pubkeys == pubkeys
      ensures api == ApiServer(cfg.listenAddr, Routes.RouteTable(cfg.enablePprof), cfg.readTimeout, cfg.writeTimeout)
      ensures ready && events == [] && history == []
    {
      this.cfg := cfg;
      this.pubkeys := pubkeys;
      this.api := ApiServer(cfg.listenAddr, Routes.RouteTable(cfg.enablePprof), cfg.readTimeout, cfg.writeTimeout);
      events := [];
      history := [];
      ready := true;  // isReady.Swap(true)
    }

    /**
      The key endpoint writes the stored key bytes, nothing added or removed;
      a failed write is logged (`logged`) and not retried.
     */
    method HandleGetPubkey(writeOk: bool) returns (status: int, body: seq<byte>, logged: bool)
      ensures status == StatusOK
      ensures body == pubkeys
      ensures logged == !writeOk
    {
      status, body := StatusOK, pubkeys;
      logged := !writeOk;
    }

    /** Liveness answers 200 whatever the readiness flag says. */
    method HandleLivenessCheck() returns (status: int)
      ensures status == StatusOK
    {
      status := StatusOK;
    }

    /**
      Readiness answers 200 iff the flag is set and 503 iff it is cleared; the
      flag is set iff the last drain or undrain request was an undrain, or
      there was none.
     */
    method HandleReadinessCheck() returns (status: int)
      requires Valid()
      ensures status == (if ready then StatusOK else StatusServiceUnavailable)
      ensures status == StatusOK <==> history == [] || history[|history| - 1] == R.Undrain
    {
      R.ReplayReflectsLast(true, history);
      if !ready {
        status := StatusServiceUnavailable;
        return;
      }
      status := StatusOK;
    }

    /**
      Drain clears the flag. Only when the flag was set does it log and sleep
      for the drain duration; a redundant drain returns at once and changes
      nothing.
     */
    method HandleDrain() returns (status: int, slept: nat)
      requires Valid()
      modifies this`ready, this`events, this`history
      ensures Valid()
      ensures !ready
      ensures history == old(history) + [R.Drain]
      ensures events == old(events) + R.Effects(old(ready), R.Drain, cfg.drainDuration)
      ensures slept == if old(ready) then cfg.drainDuration else 0
      ensures !old(ready) ==> events == old(events)
      ensures status == StatusOK
    {
      R.ReplaySnoc(true, history, R.Drain);
      R.TraceSnoc(true, history, R.Drain, cfg.drainDuration);
      var wasReady := ready;
      ready := false;  // isReady.Swap(false)
      history := history + [R.Drain];
      status := StatusOK;
      if !wasReady {
        slept := 0;
        return;
      }
      events := events + [R.MarkedNotReady];
      slept := cfg.drainDuration;
      events := events + [R.Slept(slept)];
    }

    /**
      Undrain sets the flag. Only when the flag was cleared does it log; it
      never sleeps, and a redundant undrain changes nothing.
     */
    method HandleUndrain() returns (status: int)
      requires Valid()
      modifies this`ready, this`events, this`history
      ensures Valid()
      ensures ready
      ensures history == old(history) + [R.Undrain]
      ensures events == old(events) + R.Effects(old(ready), R.Undrain, cfg.drainDuration)
      ensures old(ready) ==> events == old(events)
      ensures status == StatusOK
    {
      R.ReplaySnoc(true, history, R.Undrain);
      R.TraceSnoc(true, history, R.Undrain, cfg.drainDuration);
      var wasReady := ready;
      ready := true;  // isReady.Swap(true)
      history := history + [R.Undrain];
      status := StatusOK;
      if wasReady {
        return;
      }
      events := events + [R.MarkedReady];
    }

    /**
      The listeners started in the background: the API listener always, the
      metrics listener iff a metrics address is configured.
     */
    method RunInBackground() returns (started: seq<Listener>)
      ensures Api in started
      ensures Metrics in started <==> cfg.metricsAddr != ""
      ensures |started| == if cfg.metricsAddr != "" then 2 else 1
    {
      started := [];
      if cfg.metricsAddr != "" {
        started := started + [Metrics];
      }
      started := started + [Api];
    }

    /**
      The shutdown sequence. The API listener is shut down first; the metrics
      listener is shut down afterwards iff a metrics address is configured,
      whatever the API listener's outcome. Each call gets its own deadline of
      the full graceful-shutdown duration, and each outcome is logged.
     */
    method Shutdown(apiShutdownOk: bool, metricsShutdownOk: bool) returns (steps: seq<ShutdownStep>)
      ensures |steps| == if cfg.metricsAddr == "" then 2 else 4
      ensures steps[0] == ShutdownCalled(Api, cfg.gracefulShutdownDuration)
      ensures steps[1] == ShutdownOutcome(Api, apiShutdownOk)
      ensures ShutdownCalled(Metrics, cfg.gracefulShutdownDuration) in steps <==> cfg.metricsAddr != ""
      ensures cfg.metricsAddr != "" ==> steps[2..] == [ShutdownCalled(Metrics, cfg.gracefulShutdownDuration),
                                                     ShutdownOutcome(Metrics, metricsShutdownOk)]
      ensures forall i, j :: 0 <= i < j < |steps| && steps[i].listener == Metrics ==> steps[j].listener == Metrics
    {
      steps := [ShutdownCalled(Api, cfg.gracefulShutdownDuration)];
      if !apiShutdownOk {
        steps := steps + [ShutdownFailed(Api)];
      } else {
        steps := steps + [GracefullyStopped(Api)];
      }
      if |cfg.metricsAddr| != 0 {
        steps := steps + [ShutdownCalled(Metrics, cfg.gracefulShutdownDuration)];
        if !metricsShutdownOk {
          steps := steps + [ShutdownFailed(Metrics)];
        } else {
          steps := steps + [GracefullyStopped(Metrics)];
        }
      }
    }
  }

  /**
    Construction. A failing metrics server stops it before any key file is
    considered; otherwise the key files are loaded in path order and the first
    one that cannot be used stops it. No server is returned with an error;
    a returned server is ready with no effects yet, serves the joined
    normalised keys, and its API listener has the configured address and
    timeouts and routes the five endpoints (and the profiler iff enabled).
   */
  method New(cfg: Config, metricsOk: bool, files: seq<ReadResult>) returns (srv: Server?, err: Option<NewError>)
    requires |files| == |cfg.pubkeyPaths|
    ensures srv == null <==> err.Some?
    ensures !metricsOk ==> err == Some(MetricsInitFailed)
    ensures metricsOk ==> (err.Some? <==> LoadKeys(cfg.pubkeyPaths, files).Err?)
    ensures metricsOk && err.Some? ==> err.value == LoadKeys(cfg.pubkeyPaths, files).error
    ensures srv != null ==> fresh(srv) && srv.Valid() && srv.ready && srv.history == [] && srv.cfg == cfg
                            && srv.pubkeys == ServedKeys(LoadKeys(cfg.pubkeyPaths, files).value)
                            && srv.api == ApiServer(cfg.listenAddr, Routes.RouteTable(cfg.enablePprof), cfg.readTimeout, cfg.writeTimeout)
                            && srv.events == []
  {
    if !metricsOk {
      return null, Some(MetricsInitFailed);
    }
    var keys := LoadKeys(cfg.pubkeyPaths, files);
    if keys.Err? {
      return null, Some(keys.error);
    }
    srv := new Server(cfg, ServedKeys(keys.value));
    err := None;
  }

  /**
    The handler test's scenario: a server built from two copies of one key
    file answers 200 with the key twice separated by a newline, reports ready, drains
    (sleeping the drain duration), reports not ready, undrains without
    sleeping, and reports ready again.
   */
  method DrainUndrainScenario(cfg: Config, raw: seq<byte>) returns (codes: seq<int>, body: seq<byte>, slept: nat, events: seq<R.Effect>)
    requires |cfg.pubkeyPaths| == 2 && HasKeyFields(raw)
    ensures body == NormalizeKey(raw) + [Newline] + NormalizeKey(raw)
    ensures codes == [StatusOK, StatusOK, StatusOK, StatusServiceUnavailable, StatusOK, StatusOK]
    ensures slept == cfg.drainDuration
    ensures events == [R.MarkedNotReady, R.Slept(cfg.drainDuration), R.MarkedReady]
  {
    var srv, err := New(cfg, true, [Read(raw), Read(raw)]);
    var s0, b, logged := srv.HandleGetPubkey(true);
    body := b;
    ghost var keys := LoadKeys(cfg.pubkeyPaths, [Read(raw), Read(raw)]).value;
    assert keys == [NormalizeKey(raw), NormalizeKey(raw)];
    assert ServedKeys(keys) == keys[0] + [Newline] + Join(keys[1..], [Newline]);
    var s1 := srv.HandleReadinessCheck();
    var s2, w := srv.HandleDrain();
    var s3 := srv.HandleReadinessCheck();
    var s4 := srv.HandleUndrain();
    var s5 := srv.HandleReadinessCheck();
    codes, slept, events := [s0, s1, s2, s3, s4, s5], w, srv.events;
  }
}
