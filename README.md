# Mirror middleware: validator and admission limiter

This project models the core of the `mirror` middleware plugin of a Go HTTP
load balancer (`plugin/mirror/mirror.go`). The middleware answers every
request with the next handler. It then starts a goroutine that replays the
same request to a second upstream (the mirror target). A per-token admission
limiter decides whether a request may be mirrored.

Three modules, plus a module of request types:

- `MirrorConfig` (config.dfy): the `Config` record and the validator `New`.
  `New` is a chain of guards over seven inputs, evaluated in a fixed order.
  Each guard has its own error (`ConfigError`) and its own message text
  (`Message`). `FromOther` re-runs `New` on a configuration's own fields.
  `Checks` lists the guards as a table. `Valid` states which configurations
  are acceptable without using the guard chain.
- `Admission` (limiter.dfy): the limiter. It is a table from token to
  cumulative count, a running total, and a maximum. `Step` is one atomic
  `acquire` on a table value. `Run` is a serial history of calls. The class
  `Limiter` holds the same state in mutable fields, and its method `Acquire`
  is proved equal to `Step`.
- `Mirror` (handler.dfy): the class `Handler`, `NewHandler`, and
  `ServeHTTP`. One call of `ServeHTTP` is a sequence of two effects. The
  next handler's response always comes first. Second comes either the
  dispatch of the mirror or the reason it was skipped. A dispatch carries the
  request as the proxy's director rewrites it (`Director`).
- `Requests` (requests.dfy): the request, response and extraction values
  that the other modules share.

Durations (`time.Duration`) and the `int64` counts are unbounded integers.
The validator looks only at the sign of a duration.

## Behaviour as written

The model follows the Go code in the following points, including where the
program's own usage text suggests more.

- Every `request.header.<name>` variable is rejected by `New`, although the
  usage text of the `variable` flag (plugin/mirror/mirror.go:207) offers
  `request.header.X-Header`. The bare prefix
  fails the header guard with the message `Wrong header: ` followed by an
  empty name. Any other header variable fails the variable guard with
  `Unsupported limiting variable`. Only `client.ip` and `request.host` are
  accepted (`HeaderVariablesRejected`).
- `NewHandler` always builds its limiter with the `client.ip` extractor. It
  ignores `Config.variable`, so a `request.host` configuration is still
  counted per client address.
- Counts are never decremented, so the limit is a lifetime quota per token.
  It is not a cap on concurrent connections, as the usage text of the
  `connections` flag (plugin/mirror/mirror.go:206) and the names
  `maxConnections` and `totalConnections` suggest (`RunCountsNeverDecrease`,
  `RunDenialIsPermanent`).
- The limit is compared against the count before the amount is added. A
  token below the limit is admitted even when its amount takes it past the
  limit (`FirstCallMayOvershoot`).

## Model

| member | source | states |
|---|---|---|
| `MirrorConfig.New` | plugin/mirror/mirror.go:100-137 | on success the returned `Config` is valid and its fields equal the inputs; the full accept/reject rule and the guard order are proved in `NewAcceptsExactlyValid`, `NewSucceedsIffAllChecksPass`, `NewReportsFirstFailingCheck` and `HeaderVariablesRejected` |
| `MirrorConfig.FromOther` | plugin/mirror/mirror.go:175-185 | re-validation never alters a configuration: on success it returns its argument; `FromOtherRoundTrip` and `FromOtherIdempotent` carry the round trip |
| `MirrorConfig.Message` | plugin/mirror/mirror.go:102-126 | the texts of the eight errors; the first two characters of each already name its guard, and `MessagesDistinct` proves that different errors never share a text |
| `MirrorConfig.TrimPrefix` | plugin/mirror/mirror.go:120 | `strings.TrimPrefix`: when the prefix is present, prefix + result gives back the input; otherwise the input is returned unchanged |
| `MirrorConfig.BareHeaderPrefix` | plugin/mirror/mirror.go:119-123 | the header guard fails exactly when the variable is the bare `request.header.` prefix, with nothing after it |
| `MirrorConfig.NewAcceptsExactlyValid` | plugin/mirror/mirror.go:100-137 | `New` succeeds iff the scheme is `http` or `https`, the host is non-empty, all three durations and the connection limit are non-negative, and the variable is `client.ip` or `request.host`; on success every field of the `Config` equals its input |
| `MirrorConfig.NewSucceedsIffAllChecksPass` | plugin/mirror/mirror.go:101-128 | `New` succeeds iff every guard in the ordered table passes |
| `MirrorConfig.NewReportsFirstFailingCheck` | plugin/mirror/mirror.go:101-127 | when guard k is the first to fail (empty scheme/host, scheme, timeout, keepalive, TLS timeout, connections, header form, variable), `New` returns exactly guard k's error, whatever the later inputs are |
| `MirrorConfig.HeaderVariablesRejected` | plugin/mirror/mirror.go:119-127 | every `request.header.*` variable is rejected; once the other inputs are valid, the bare prefix yields `WrongHeader("")` and any other header variable yields `UnsupportedVariable` |
| `MirrorConfig.MessagesDistinct` | plugin/mirror/mirror.go:101-127 | two different errors of `New` never share a message text |
| `MirrorConfig.FromOtherRoundTrip` | plugin/mirror/mirror.go:175-185 | re-validating a configuration that `New` produced succeeds and returns an equal configuration |
| `MirrorConfig.FromOtherIdempotent` | plugin/mirror/mirror.go:175-185 | `FromOther` succeeds exactly on valid configurations and then returns its argument unchanged |
| `Admission.Step` | plugin/mirror/mirror.go:59-73 | one `acquire`: denies iff the maximum is positive and the token's count (0 if absent) is at or above it, and then leaves the table as it was; otherwise adds the amount to the token's count and to the total; never changes another token's count; `StepKeepsBalance` keeps the total invariant |
| `Admission.Run` | plugin/mirror/mirror.go:59-73 | a serial history of `acquire` calls gives exactly one decision per call |
| `Admission.StepKeepsBalance` | plugin/mirror/mirror.go:63-72 | one `acquire` keeps the running total equal to the sum of all counts |
| `Admission.EmptyIsBalanced` | plugin/mirror/mirror.go:158-163 | a fresh limiter's empty table with total 0 is balanced |
| `Admission.RunKeepsBalance` | plugin/mirror/mirror.go:59-73 | from a balanced table (a fresh one is), any history of calls leaves the total equal to the sum of the counts |
| `Admission.RunCountsNeverDecrease` | plugin/mirror/mirror.go:59-98 | with non-negative amounts, no token's count is lower after any history of calls |
| `Admission.RunCountBounded` | plugin/mirror/mirror.go:63-70 | with a positive maximum and amounts in [0, cap], every count stays at most maximum - 1 + cap |
| `Admission.RunDenialIsPermanent` | plugin/mirror/mirror.go:63-67 | once a token's count reaches a positive maximum, every later call for that token is denied, whatever the amounts of the calls in between |
| `Admission.RunUnlimitedAdmitsAll` | plugin/mirror/mirror.go:64-72 | with a maximum of 0 or less every call is admitted, and the total grows by the sum of all amounts |
| `Admission.QuotaOfOne` | plugin/mirror/mirror_test.go:147-182 | with maximum 1 and amount 1 on one token, the first call is admitted and the second denied |
| `Admission.FirstCallMayOvershoot` | plugin/mirror/mirror.go:63-70 | the maximum is compared before adding: a fresh token is admitted with an amount above the maximum, and its count then exceeds the maximum |
| `Admission.Limiter.constructor` | plugin/mirror/mirror.go:158-163 | a new limiter has the given extractor and maximum, an empty map and total 0, and is balanced |
| `Admission.Limiter.Acquire` | plugin/mirror/mirror.go:59-73 | denies iff the maximum is positive and the token's count (0 if absent) is already at or above it, and then changes nothing; otherwise adds the amount to that token's count and to the total and leaves every other token alone; keeps the table balanced |
| `Mirror.Director` | plugin/mirror/mirror.go:91-95 | the outgoing request's URL scheme and host become the configured ones and its raw query the original request's; method, path, headers, remote address and Host header are kept |
| `Mirror.DirectorIdempotent` | plugin/mirror/mirror.go:91-95 | directing an already directed request changes nothing |
| `Mirror.Handler.constructor` | plugin/mirror/mirror.go:151 | a handler holds the configuration, the next handler and the limiter it is given |
| `Mirror.Handler.ServeHTTP` | plugin/mirror/mirror.go:75-98 | the next handler's response always comes first; the mirror is dispatched iff there is no limiter, or extraction succeeds and the limiter admits the token; an extraction failure skips the mirror and leaves the table unchanged; a denial skips it; the table changes as one `acquire` |
| `Mirror.NewHandler` | plugin/mirror/mirror.go:139-167 | a limiter is attached iff the limit is positive; it has an empty map, total 0, maximum equal to the limit, and the `client.ip` extractor whatever the configured variable; construction fails only when that extractor cannot be created, with its error |
| `Mirror.UnlimitedMirrorsEveryRequest` | plugin/mirror/mirror_test.go:108-145 | with no positive limit, every request in a sequence is answered by the next handler and then mirrored to the configured target |
| `Mirror.SecondRequestFromClientLimited` | plugin/mirror/mirror_test.go:147-182 | with a positive limit and a client whose amount reaches it, the first request is answered and mirrored; the second is answered and its mirror skipped as limited |

## Left out

- The goroutine and `httputil.ReverseProxy` that carry out the mirror (plugin/mirror/mirror.go:90-97) are concurrency and network I/O. `ServeHTTP` records the request the proxy's director would produce, and stops there. The source has two races here that the model does not capture. Each goroutine assigns `Director` on the shared proxy; the model applies a separate director per request instead. The goroutine also hands the caller's `ResponseWriter` to the proxy (line 96), so the mirror's response may be written to the original caller's writer after `ServeHTTP` has returned. In addition the next handler may already have consumed the request body (line 76) before the mirror reads it. The two-effect trace therefore does not promise that the caller sees only the next handler's response, nor that the mirror receives the original body.
- The `http.Transport` and `net.Dialer` built from the three durations (plugin/mirror/mirror.go:140-149) are library plumbing. Nothing in the core depends on them, so the `proxy` field of `Handler` is not modelled.
- The `sync.Mutex` (plugin/mirror/mirror.go:52, 60-61) only serialises calls. `Acquire` is one atomic step, so concurrent callers are not modelled.
- `utils.NewExtractor` and `utils.SourceExtractor` are foreign code. Their internals are not part of this model. `NewHandler` receives the factory as a function parameter, and the limiter stores the extractor as a function value.
- The logrus calls (plugin/mirror/mirror.go:81, 85) are reduced to the `SkipExtraction` and `SkipLimited` effects. Their text is not modelled.
- `Config.String`, `GetSpec`, `FromCli`, `CliFlags` and the default durations (plugin/mirror/mirror.go:18-32, 169-173, 187-209) are formatting, CLI and plugin-registry glue.
- `Mirror.Handler.ServeHTTP`: the next handler is a total function, so it is never nil. A nil next handler, as in the source's construction test, would panic when it serves a request. That case is not modelled.
- `Admission.Limiter.Acquire`: does not model `int64` wrap-around of a count or of the total. Counts are unbounded integers. Wrapping would take 2^63 admitted units.
- `MirrorConfig.FromOther` returns the configuration in a `Result`. In the source it returns the `plugin.Middleware` interface that `*Config` implements.
