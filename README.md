# Trace-context propagation and user-session decisions, modelled in Dafny

This project models two parts of a contest web backend written in Go.

- **Trace context** (`go/trace/otel.go`):
  - `extract`, the hand-written parser of Google Cloud's `X-Cloud-Trace-Context` header `<trace-hex>/<span-decimal>;<options>`;
  - `SpanFromRemote`, which attaches the parsed span context to a request context as the remote parent;
  - the span lifecycle of `StartSpan` and `EndSpan`;
  - the package-level tracer-provider handle `tp`, which `initJaeger`, `initCloudTrace` and `InitProvider` replace.
- **User handlers** (`go/user_handler.go`):
  - the ordered checks of `verifyUserSession`;
  - the session that `loginHandler` writes, and its credential failures;
  - the user response that `fillUserResponse` builds;
  - the 304/fallback/icon choice of `getIconHandler`;
  - the reserved-name check and the steps of `registerHandler`.

Modules:

- `Outcomes`: `Option`, `Result`, and `Run` (a Go call returns or panics).
- `Strconv`: decimal text as `strconv.ParseUint(s, 10, 64)` reads it and `%d` writes it.
- `Encoding`: lower-case hex and big-endian bytes.
- `TraceContext`: span contexts, the `TraceIDFromHex` acceptance rule, and `extract`.
- `Otel`: contexts, the `Span` class, `SpanFromRemote`, `EndSpan`, and the `TracePackage` class.
  `TracePackage` holds `tp`; `StartSpan` and the initialisers are its methods.
- `UserHandler`: `verifyUserSession`, the `Session` class with `Login`, `fillUserResponse`, `getIconHandler` and `registerHandler`.

Inputs that stand for the outside world:

- Database rows and errors, directory listings, and the bcrypt comparison result.
- `session.Get` and `sess.Save` outcomes, the clock, and the new uuid.
- Exporter construction outcomes, and the ids the SDK's random generator draws.

A Go panic is an explicit `Panic` outcome, never a precondition. This covers a slice out of range, a failed type assertion, and a call through a nil function.

Behaviour of the code worth noting:

- `extract` never sets the sampled flag. `sc.WithTraceFlags(...)` returns a new value that is discarded (`go/trace/otel.go:66`).
- A header with no `/` panics. It is not a decode error.
- A header whose trace text is accepted but that has no `;` also panics. `ExtractPanics` states exactly when a panic happens.
- A first `;` that comes before the first `/` does not panic. The trace text then contains the `;`, so `TraceIDFromHex` rejects it and `extract` returns an error first.
- `InitProvider` reads no configuration. It always uses Cloud Trace with the project `isu13-406204`.
- On success, `initCloudTrace` returns its never-assigned named result `shutdown`. That is a nil function, and calling it panics.
- A new span continues its parent's trace whenever the parent has a valid trace id, as the SDK's span creation does.
- Every handler discards the context `StartSpan` returns. The deferred `EndSpan(ctx, nil)` therefore ends the span the request context already carried. The new span is never ended (`HandlerSpans`).

`Otel.HeaderGet` (`http.Header.Get`), `Otel.SpanContextOf` (`trace.SpanContextFromContext`), `Otel.CallShutdown` and `Otel.ChildSpanContext` (the SDK's choice of a new span's trace) are plain definitions of library behaviour with no contract of their own. What they do is proved through `SpanFromRemote`, `SpanFromRemoteWellFormed`, `TracePackage.StartSpan` and `RemoteParentContinuesTrace`.

## Model

| member | source | states |
|---|---|---|
| `Strconv.ParseUint64` | go/trace/otel.go:58 | succeeds exactly on non-empty all-digit text of value at most 2^64-1, giving that value |
| `Strconv.FormatInt` | go/user_handler.go:124 | `%d` text: leading '-' exactly for negatives, followed by the digits of the magnitude, with no leading zero unless the number is 0 |
| `Encoding.EncodeDecodeHex` | go/trace/otel.go:49 | decoding lower-case hex and printing it back gives the same text |
| `Encoding.DecodeEncodeHex` | go/trace/otel.go:49 | printing bytes as hex and decoding gives the same bytes |
| `Encoding.DecodeHexZero` | go/trace/otel.go:49 | a decoded id is zero exactly when its text is all '0' |
| `Encoding.BigEndianRoundTrip` | go/trace/otel.go:62-64 | the k-byte big-endian encoding of n < 256^k decodes back to n |
| `Encoding.FromBigEndianRoundTrip` | go/trace/otel.go:62-64 | re-encoding the value of any byte string gives the same bytes |
| `Encoding.PutUint64` | go/trace/otel.go:63 | eight bytes that decode back to n, all zero exactly when n is 0 |
| `TraceContext.TraceIDFromHex` | go/trace/otel.go:49-52 | accepts exactly 32 lower-case hex digits not all zero; the id prints back as the text and is non-zero |
| `TraceContext.IndexOf` | go/trace/otel.go:47 | -1 exactly when the character is absent, else the position of its first occurrence |
| `TraceContext.Extract` | go/trace/otel.go:43-68 | a returned span context is never sampled nor remote; on success it has a trace id |
| `TraceContext.ExtractWellFormed` | go/trace/otel.go:43-67 | `T/n;rest` parses to trace id T (printing back as T) and span id big-endian n (decoding back to n), no error |
| `TraceContext.TraceTextRejected` | go/trace/otel.go:47-52 | a rejected trace text gives an error return with the empty span context, never a panic |
| `TraceContext.SpanTextRejected` | go/trace/otel.go:56-61 | an empty, non-digit or over-64-bit span text gives an error whose span context holds the parsed trace id and a zero span id |
| `TraceContext.ExtractSucceeds` | go/trace/otel.go:43-67 | whenever the trace text is accepted, a ';' follows the '/', and the span text parses, `extract` returns that trace id and the span id holding the parsed value, unsampled, with no error |
| `TraceContext.ExtractPanics` | go/trace/otel.go:47-57 | panics exactly when '/' is absent, or the trace text is accepted and ';' is absent |
| `Otel.SpanFromRemote` | go/trace/otel.go:28-41 | panics exactly when a non-empty header makes `extract` panic; when `extract` succeeds, the result carries its span context, marked remote, exactly when that context is valid, and is the given context otherwise |
| `Otel.SpanFromRemoteIgnores` | go/trace/otel.go:29-36 | an empty header or an `extract` error leaves the context unchanged |
| `Otel.SpanFromRemoteWellFormed` | go/trace/otel.go:33-40 | `T/n;rest` attaches the remote parent (T, big-endian n) when n is non-zero; span id 0 leaves the context unchanged |
| `Otel.Span.SetAttributes` | go/trace/otel.go:74-76 | appends the attributes to a span still recording; an ended span is unchanged; nothing else changes |
| `Otel.Span.RecordError` | go/trace/otel.go:83 | appends the error's text to a span still recording; an ended span is unchanged; nothing else changes |
| `Otel.Span.SetStatus` | go/trace/otel.go:84 | sets the code (and the description only for Error) unless the span has ended or the new code ranks below the current one; nothing else changes |
| `Otel.Span.End` | go/trace/otel.go:86 | marks the span ended; a second End changes nothing; the recorded data are kept |
| `Otel.RemoteParentContinuesTrace` | go/trace/otel.go:28-78 | a span started under a well-formed remote header belongs to trace T, with the parent's span id decoding to n |
| `Otel.TracePackage.constructor` | go/trace/otel.go:23 | `tp` starts as the no-op provider |
| `Otel.TracePackage.StartSpan` | go/trace/otel.go:71-78 | no-op: keeps a non-recording span, else the no-op span; SDK: a fresh unended span with the name, the parent and the attributes given, status Unset with an empty message and no recorded errors |
| `Otel.TracePackage.HandlerSpans` | go/user_handler.go:104-106 | the started span is discarded and never ended (under the no-op provider the discarded context is the no-op or non-recording span); the span the request context carried is ended with its status, message, attributes and recorded errors kept |
| `Otel.TracePackage.InitJaeger` | go/trace/otel.go:107-124 | always returns (nopShutdown, nil); `tp` is unchanged on exporter failure and becomes the Jaeger SDK provider otherwise |
| `Otel.TracePackage.InitCloudTrace` | go/trace/otel.go:128-146 | on failure returns the error with nopShutdown and keeps `tp`; on success installs the Cloud Trace provider and returns a nil shutdown |
| `Otel.TracePackage.InitProvider` | go/trace/otel.go:103-105 | Cloud Trace for project isu13-406204; after success the returned shutdown panics when called |
| `Otel.EndSpan` | go/trace/otel.go:80-87 | ends the context's span; a non-nil error is recorded and sets status Error with its text; nil leaves the status; an ended span is unchanged |
| `UserHandler.VerifyUserSession` | go/user_handler.go:416-442 | 401 on fetch failure, then 403 without EXPIRES, then 401 without an int64 USERID, panic on a non-int64 EXPIRES; 401 "session has expired" when both are int64 and now > EXPIRES; accepts exactly when both are int64 and now <= EXPIRES |
| `UserHandler.LoginWrites` | go/user_handler.go:350-367 | writes SESSIONID, USERID, USERNAME and EXPIRES = now + 3600; other keys kept |
| `UserHandler.LoginSessionVerifies` | go/user_handler.go:364-367 | a session a login wrote at t passes `verifyUserSession` exactly at times up to t + 3600 |
| `UserHandler.Session.Login` | go/user_handler.go:310-374 | each failing step's status and message; unknown user and wrong password give the same 401 and write nothing; the session is written exactly when the login gets past `session.Get` |
| `UserHandler.TrimSuffix` | go/user_handler.go:484 | removes one trailing suffix if present, otherwise returns the text unchanged |
| `UserHandler.FillUserResponse` | go/user_handler.go:444-499 | errors from the theme query and from a directory error; copied fields and theme; fallback hash without an icon, else first name less one ".png" |
| `UserHandler.IconDir` | go/user_handler.go:124 | `public/icons/users/` followed by the user id in decimal: its digits with no leading zero, after a '-' for a negative id |
| `UserHandler.GetIcon` | go/user_handler.go:103-144 | 500 when the transaction cannot begin; 404 for an unknown user; 500 for a failed query or an unreadable icon directory; 304 exactly when an icon exists and a non-empty If-None-Match equals its name less ".png"; fallback image exactly when no icon; the first icon file in the user's directory exactly in every other case |
| `UserHandler.IconHashRevalidates` | go/user_handler.go:136-141 | the hash `fillUserResponse` reports earns a 304 exactly when there is an icon and the hash is non-empty |
| `UserHandler.Register` | go/user_handler.go:238-306 | 400 with no work for an undecodable body; "pipe" gets 400 with no outside work started; any other name starts work with hashing; each failing step gives 500 with its own message; success happens exactly when every step succeeds and is 201 with the response `fillUserResponse` builds for the inserted row, after all seven steps |

## Left out

- OpenTelemetry SDK internals are not modelled: batching, export, resource schema URL, attribute deduplication and limits, span timestamps and events other than recorded errors. The Jaeger and Cloud Trace exporters are not modelled either; their construction is a success/failure input.
- `Otel.TracePackage.StartSpan`: the tracer's instrumentation name and the SDK's random id generator are not modelled; the drawn ids are an input.
- The status code Ok is left out. Nothing in the modelled code sets it; `Span.SetStatus` ranks Unset below Error, as the SDK does.
- The `traceparent` propagator and configuration-driven backend selection are not modelled. Neither appears in `go/trace/otel.go`, and the constants `ProviderJaeger` and `ProviderCloudTrace` are unused there.
- Header text is treated as characters, while Go counts and indexes bytes. Go and the model may report different `TraceIDFromHex` errors (length or hex) for non-ASCII trace text; both are error returns.
- The wording of the wrapped errors `extract` returns is not modelled, only which check failed. `SpanFromRemote` discards them anyway.
- `http.Header` key canonicalisation is not modelled. The header is a map keyed by canonical names, and `X-Cloud-Trace-Context` is already canonical.
- `UserHandler.Session.Login`: requires the clock to be at least an hour below the int64 maximum, so that `now + 3600` is representable. Go's time arithmetic near that bound is not modelled.
- `UserHandler.Register` takes the bcrypt hash, the new row id and the `pdnsutil` result as inputs. The SQL, bcrypt, uuid, SHA-256, JSON decoding and subprocess calls themselves are foreign.
- The filesystem is not modelled: `os.ReadDir`, `init()` reading the fallback image and computing its hash (the hash is an input), and file serving.
- `sess.Options` and cookie persistence (`sess.Save`) are not modelled. Only the save's failure is an input.
- `postIconHandler` and its goroutine are left out (concurrency). `writeIconWithHash`, `getMeHandler` and `getUserHandler` are left out too; they combine the modelled decisions with database and filesystem I/O.
- The spans started inside `verifyUserSession` and `fillUserResponse` are not threaded through those functions. They follow the pattern `HandlerSpans` states.
