# ssh-pubkey-server: readiness, drain and shutdown model

A Dafny model of the core of `ssh-pubkey-server`'s HTTP server. The server hands
out a static SSH public key over HTTP. It also takes part in a load balancer's
health-check and rolling-deployment protocol.

- **Readiness flag.** A `Server` object holds one boolean, `ready`. Of the five
  handlers, readiness reads it, drain and undrain swap it, and key retrieval
  and liveness never consult it. Drain and undrain swap the flag in one step and act only on a real edge. A
  ready-to-not-ready drain logs and then sleeps for the drain duration, so the
  load balancer can notice. Redundant drains and undrains do nothing. The class
  keeps a ghost history of drain/undrain requests and an effect trace (log lines
  and sleeps). Its invariant ties the flag and the trace to a pure replay of that
  history (module `Readiness`).
- **Key normalisation.** Each key file `<type> <key> <host>` becomes
  `<type> <key>`: the first two white-space-separated fields joined by one
  space. This is modelled over `Fields` and `Join`, written after Go's `bytes`
  package. Several key files are served as their normalised keys joined by
  `'\n'`, in path order.
- **Construction.** `New` fails first on a failed metrics server, then on the
  first key file that cannot be read or has fewer than two fields. A server it
  returns is ready. Its router binds `/pubkey`, `/livez`, `/readyz`, `/drain` and
  `/undrain`, plus `/debug` iff the profiler is enabled.
- **Listeners.** `RunInBackground` starts the metrics listener iff an address is
  configured, and always starts the API listener. `Shutdown` stops the API
  listener first. It then stops the metrics listener iff an address is
  configured, whatever the API listener's outcome. Each stop has its own full
  deadline, and each outcome is logged.

The repository's files disagree about how many keys a server holds:

- `httpserver/server.go` has one `SSHPubkeyPath` and one `sshPubkey` field.
- `httpserver/handler.go:21` writes `s.sshPubkeys`.
- `httpserver/handler_test.go:35` configures `SSHPubkeyPaths` with two paths. It
  expects both keys back, separated by one newline.

The model follows the test. There is one read per path, each normalised as
`server.go:56` does, and the results are joined with `'\n'`. With one path this
is `server.go`'s behaviour, with one exception: a key file with fewer than two
fields makes `server.go` panic, where the model returns `KeyTooFewFields`. The module `Pubkey` records this
disagreement in its header comment.

Files: `wrappers.dfy` (Option, Result), `bytes.dfy` (Fields, Join, Split),
`pubkey.dfy` (key loading), `readiness.dfy` (the flag as a pure state machine),
`routes.dfy` (the router), `server.dfy` (the `Server` class, `New`, and the
handler test's scenario).

## Model

| member | source | states |
|---|---|---|
| Bytes.Fields | httpserver/server.go:56 | every field `bytes.Fields` returns is a non-empty run with no white space |
| Bytes.FieldsKeepNonSpace | httpserver/server.go:56 | gluing the fields back together gives the input minus its white space, so no other byte is lost or added |
| Bytes.FieldsOfWordThen | httpserver/server.go:56 | a field followed by white space, or by nothing, is split off as the first field and the rest is split on its own |
| Bytes.FieldsOfJoin | httpserver/server.go:56 | any fields joined by single spaces split back into exactly those fields, so `Fields` undoes the `Join` that normalisation applies to the first two fields |
| Bytes.Join | httpserver/server.go:56 | joining no parts gives nothing; a join of at least one part starts with its first part |
| Bytes.SplitJoin | httpserver/handler_test.go:48-51 | splitting a newline join at newlines gives back the parts when no part holds a newline |
| Bytes.JoinSplit | httpserver/handler_test.go:48-51 | joining the pieces of a split gives back the input (the other direction of the round trip) |
| Pubkey.NormalizeKey | httpserver/server.go:55-56 | the key is the first field, one space, then the second field: no leading or trailing white space, no newline, and white space only at that one space |
| Pubkey.NormalizeKeyFields | httpserver/server.go:56 | the fields of the normalised key are exactly the first two fields of the file, so the host comment is dropped |
| Pubkey.NormalizeKeyIdempotent | httpserver/server.go:56 | normalising a normalised key gives the same bytes |
| Pubkey.LoadKeys | httpserver/server.go:51-56 | loading succeeds iff every file was read and has two fields, and then yields each file's normalised key in path order; otherwise it reports the first file that fails, read error before field count |
| Pubkey.ServedKeys | httpserver/handler_test.go:48-51 | no key gives an empty body; one key is served exactly as it is, as `server.go` serves its single key; several keys give a body that starts with the first key followed by one newline |
| Pubkey.ServedKeysRoundTrip | httpserver/handler_test.go:48-51 | the served body splits at newlines into exactly the keys in order, and it neither starts nor ends with a newline |
| Pubkey.LoadedKeysServed | httpserver/handler_test.go:35-51 | when all key files load, splitting the served body at newlines gives each file's normalised key in path order |
| Readiness.Effects | httpserver/handler.go:40-55 | a request has no effect iff its swap left the flag unchanged; the not-ready log line appears iff a drain found the flag set, the ready log line iff an undrain found it cleared; the time slept is the drain duration on a drain edge and zero otherwise |
| Readiness.ReplaySnoc | httpserver/handler.go:40-55 | one more drain or undrain leaves the flag at that request's swapped-in value |
| Readiness.TraceSnoc | httpserver/handler.go:40-55 | one more request appends exactly its own effects, decided by the value its swap replaced |
| Readiness.ReplayReflectsLast | httpserver/handler.go:40-55 | after any sequence of requests the flag is set iff the last request was undrain, or iff it started set when there was none |
| Readiness.DrainIdempotent | httpserver/handler.go:41-43 | a second drain in a row leaves the flag cleared and adds no effect: no log line and no second wait |
| Readiness.UndrainIdempotent | httpserver/handler.go:50-52 | a second undrain in a row leaves the flag set and adds no effect |
| Readiness.SleptOnlyOnDrainEdges | httpserver/handler.go:41-46 | the total time slept is the drain duration times the number of ready-to-not-ready edges; undrains and redundant drains never sleep |
| Readiness.DrainEdgesBound | httpserver/handler.go:41-46 | drains do not compound: there is at most one more ready-to-not-ready edge than there are undrains |
| Routes.RouteTable | httpserver/server.go:67-77 | five GET routes with pairwise distinct patterns, none of them the root `/`, plus the `/debug` profiler mount iff the profiler is enabled |
| Routes.Dispatch | httpserver/server.go:67-77 | a path reaches no handler iff no route matches it, and a handler it reaches belongs to a route that matches it |
| Routes.RouteTableBindings | httpserver/server.go:67-72 | each of the five endpoints reaches its handler, and the root path `/` reaches none |
| Routes.GetRouteBound | httpserver/server.go:68-72 | each of the five GET routes is reached at its own pattern, since no earlier route claims that path |
| Routes.RootUnbound | httpserver/server.go:68 | the root path `/` matches no route of the table, with or without the profiler, so it reaches no handler |
| Routes.KeyOnlyAtPubkey | httpserver/server.go:68 | the key handler is reached at `/pubkey` and at no other path |
| Routes.ProfilerUnderDebug | httpserver/server.go:74-77 | every path under `/debug/` reaches the profiler iff it is enabled, and no handler otherwise |
| HttpServer.Server.constructor | httpserver/server.go:58-85 | a new server is ready, has no drain history or effects, and holds the configuration, the keys and the API listener settings with the route table |
| HttpServer.Server.HandleGetPubkey | httpserver/handler.go:10-25 | answers 200 with exactly the stored key bytes; a failed write is logged |
| HttpServer.Server.HandleLivenessCheck | httpserver/handler.go:27-29 | always answers 200 and changes nothing |
| HttpServer.Server.HandleReadinessCheck | httpserver/handler.go:31-38 | answers 200 iff ready and 503 iff not, changes nothing, and answers 200 iff the last drain/undrain request was an undrain or there was none |
| HttpServer.Server.HandleDrain | httpserver/handler.go:40-47 | the flag is cleared whatever it was; only from ready does it log and sleep exactly the drain duration; from not ready, nothing else changes; answers 200 |
| HttpServer.Server.HandleUndrain | httpserver/handler.go:49-55 | the flag is set whatever it was; only from not ready does it log; it never sleeps; answers 200 |
| HttpServer.ShutdownOutcome | httpserver/server.go:118-133 | the step logged after a listener's graceful shutdown names that listener and is a success iff the shutdown call succeeded, a failure otherwise |
| HttpServer.Server.RunInBackground | httpserver/server.go:93-112 | the API listener is always started; the metrics listener is started iff its address is non-empty |
| HttpServer.Server.Shutdown | httpserver/server.go:114-135 | the API listener is shut down first and its outcome logged; the metrics listener is shut down after it, iff its address is non-empty, whatever the API outcome; each call gets the full graceful-shutdown deadline |
| HttpServer.New | httpserver/server.go:45-87 | a metrics-server failure is reported before any key file is looked at; a key-file failure returns an error and no server; otherwise a fresh ready server with no effects yet serves the joined normalised keys, and its API listener has the configured address, the route table and the configured read and write timeouts |
| HttpServer.DrainUndrainScenario | httpserver/handler_test.go:24-112 | the test's sequence: the key endpoint answers 200 with the key twice, separated by a newline; then readiness 200, drain 200 after sleeping the drain duration, readiness 503, undrain 200 with no sleep, readiness 200 |

## Left out

- HTTP serving itself is not modelled: listeners, goroutines, chi's routing tree, the HTTP method of a route, and the filtering of `http.ErrServerClosed` (httpserver/server.go:93-112). `RunInBackground` keeps only the decision of which listeners start.
- Real time is not modelled. The drain sleep (httpserver/handler.go:46) is an output (`slept`) and a `Slept` entry of the effect trace. The shutdown deadlines (`context.WithTimeout`, httpserver/server.go:116,126) become the deadline recorded on each shutdown call. Each listener's `Shutdown(ctx)` outcome is an input.
- Concurrency is not modelled. The atomic swap of `isReady` is one sequential step, and its memory-ordering guarantees under concurrent requests are not captured.
- Durations are `nat`. Go's `time.Duration` is a signed 64-bit count of nanoseconds, and a negative drain duration would make `time.Sleep` return at once.
- Metrics histograms and their microsecond recording (httpserver/handler.go:11-19) are left out: they are floating point and a foreign library. `metrics.New` is reduced to an ok/failed input.
- Logging (`slog`, and the `httplogger` middleware at httpserver/server.go:89-91) is left out. The exceptions are the drain/undrain info lines, kept as trace entries, the shutdown outcome lines, kept as shutdown steps, and the key handler's "could not serve pubkey" error line (httpserver/handler.go:23), kept as `HandleGetPubkey`'s `logged` output. The "pprof API enabled" line and the profiler handler itself are left out.
- File reading (`os.ReadFile`, httpserver/server.go:51) is left out. Each key file is an input: its bytes or a read error.
- `Bytes.Fields` treats only ASCII white space as white space (tab, newline, vertical tab, form feed, carriage return, space). Go's `bytes.Fields` also splits at Unicode spaces such as U+0085 and U+00A0 when the input is not pure ASCII.
- Pubkey.LoadKeys: the loop over several key paths is not in the shown `server.go`. Reading and normalising each file in path order, stopping at the first failure, is the model's reading of the test. With no paths it serves an empty body.
- Pubkey.NormalizeKey: a key file with fewer than two fields makes the source panic (slice out of range) rather than return an error. The model reports this as `KeyTooFewFields` from `New` instead of ending the process.
- HttpServer.Server.HandleGetPubkey: a failed body write is reported only as the `logged` flag. A partial write is not modelled.
