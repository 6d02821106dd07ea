# dramahttp request router, modelled in Dafny

This project models `Serv`, the small HTTP router of the `dramahttp` package. The model has these parts:

- a table of handlers keyed by exact request path, where the last registration for a path wins;
- dispatch, which invokes the handler registered for the request's path, or answers 404 when the path is missing or its handler is nil;
- a listener that `Start` binds and `Stop` closes, where `Start` first stops any listener it still holds;
- the response helpers, which write status, content type and body on the request context in fixed combinations.

Files:

- `go_types.dfy` (module `GoTypes`) holds the Go values the router handles. Go strings and `[]byte` are both `Bytes`, a byte sequence, because converting between them keeps the bytes. A nil-able value is `Option`. A foreign call's value-or-`error` return is `Result`.
- `serv.dfy` (module `DramaHttp`) holds everything else:
  - the `RequestCtx` class: the request path and body, the response fields, and a ghost record of the handlers invoked with the context;
  - the `Serv` class: the table `mapAPI`, the held `listener`, and a ghost record `events` of the Listen and Close calls it has made;
  - value-level specifications with lemmas about them: `RouteFor`, `Replay`, `StopStep`, `StartStep`, `Bracketed` and `Run`.

Collaborators become parameters:

- The bind in `Start` is a `Result<ListenerId>` parameter. The error that the blocking serve call returns is an `Option<Error>` parameter.
- The JSON codec is a function parameter: `marshal: V -> Result<Bytes>` for `SetResponse`, and `unmarshal: (Bytes, V) -> (V, Option<Error>)` for `ParseBody`.
- A handler is an opaque `HandlerId`. Invoking a handler is recorded in `RequestCtx.invoked`. What each handler writes to the response is a parameter of dispatch, `effect: HandlerId -> Response -> Response`.
- The decode target of `ParseBody` is passed in as a value, and the decoder returns it as it leaves it, together with its error.

The listener's safety property is `Bracketed`: no listener is leaked. Binds and closes alternate. Each close closes the listener bound just before it. The held listener is the one bound last and not yet closed. `RunKeepsBracketed` proves that this holds for any interleaving of `Start` and `Stop` calls.

## Model

| member | source | states |
|---|---|---|
| `DramaHttp.Serv.constructor` | http/serv.go:24-32 | A new server stores the bind address and debug flag unchanged. Its handler table is empty, it holds no listener, and it has made no network call. |
| `DramaHttp.Serv.RegHandle` | http/serv.go:35-37 | After registration, `name` maps to `handle`, including a nil handle. Every other path's entry or absence is unchanged. The new table is one `Replay` step. |
| `DramaHttp.ReplayLastWins` | http/serv.go:35-37 | After any sequence of registrations, a path maps to the handle of its last registration, so registering a path twice leaves only the second handler. |
| `DramaHttp.ReplayUntouched` | http/serv.go:35-37 | A path that no registration names keeps the entry, or absence, it had before. |
| `DramaHttp.RouteFor` | http/serv.go:45-50 | The dispatch decision invokes a handler if and only if the path is in the table with a non-nil handler, and the handler it invokes is that one. Otherwise the decision is 404: the path is missing or mapped to nil. |
| `DramaHttp.RoutedByLastRegistration` | http/serv.go:45-50 | On a server built by any registrations, a registered path is routed by its last registration: to its handler, or to 404 if that registration was nil. |
| `DramaHttp.UnregisteredIsNotFound` | http/serv.go:45-50 | On a server built by any registrations, a path never registered is routed to 404. |
| `DramaHttp.Serv.HandleFastHTTP` | http/serv.go:40-51 | On a hit, the matching handler is invoked exactly once, and the response is exactly what that handler makes of it: the router writes nothing before or after the handler. On a miss or a nil handler, no handler is invoked and only the status changes, to 404. |
| `DramaHttp.StopStep` | http/serv.go:54-62 | Afterwards no listener is held. When nothing was held, nothing changes, so a second stop is a no-op. When a listener was held, it is the one closed. |
| `DramaHttp.Serv.Stop` | http/serv.go:54-62 | The returned error is always nil. The new listener state is `StopStep` of the old one, and the no-leak invariant is kept. |
| `DramaHttp.StartStep` | http/serv.go:65-80 | A listener already held is closed before anything else happens. A failed bind leaves no listener held. A successful bind makes the new listener the one held. |
| `DramaHttp.Serv.Start` | http/serv.go:65-80 | A failed bind's error is returned as it is. After a successful bind, the serve call's error is returned and the new listener is still held. The new state is `StartStep` of the old one, and the no-leak invariant is kept. |
| `DramaHttp.StopKeepsBracketed` | http/serv.go:54-62 | Stop keeps the invariant that binds and closes alternate and the held listener is the last one bound. |
| `DramaHttp.StartKeepsBracketed` | http/serv.go:65-80 | Start keeps that invariant, because it closes the held listener before binding a new one. |
| `DramaHttp.BoundIsClosedOrHeld` | http/serv.go:55-58 | Under the invariant, a listener that was bound is closed by the server's next network call, or it is the one still held. |
| `DramaHttp.RunKeepsBracketed` | http/serv.go:53-81 | For any sequence of `Start` and `Stop` calls with any bind outcomes, no listener is leaked. |
| `DramaHttp.Serv.SetResponse` | http/serv.go:84-115 | A nil value gives status 200, the JSON content type and an empty body. A value that fails to encode changes only the status, to 500. A value that encodes gives status 200, the JSON content type and exactly the encoded bytes. |
| `DramaHttp.Serv.SetStringResponse` | http/serv.go:118-129 | The response becomes status 200 with the JSON content type, and the body is the given string byte for byte. |
| `DramaHttp.Serv.SetHTTPStatus` | http/serv.go:132-141 | Only the status code changes. Content type and body stay as they were. |
| `DramaHttp.Serv.ParseBody` | http/serv.go:176-185 | The target is handed back exactly as the decoder left it, including fields the body omits and partial writes before an error. The decoder's error is returned unchanged, and a nil error on success. The response is not touched. |

## Left out

- Networking: `net.Listen` and `fasthttp.Serve` (http/serv.go:70, http/serv.go:80) are not modelled. Their outcomes are parameters of `Start`, and serving a request is `HandleFastHTTP`. The serve loop, connection handling and the transport's concurrency are outside the model.
- The JSON codec, jsoniter (http/serv.go:96-98, http/serv.go:177-179), is not modelled. It is a function parameter, so whether `unmarshal` reproduces what `marshal` produced is a property of that library and is not proved here.
- Logging is not modelled: the `dramautils` Debug, Warn and Error calls and `outputDebugInfo` (http/serv.go:143-173). Logging changes no state, and the debug flag only decides whether the request is logged (http/serv.go:41-43).
- Handler bodies are supplied by the caller. The model records that a handler was invoked, and what it writes to the response is the `effect` parameter. Whatever a handler does to the server, such as registering or stopping, is not modelled.
- ParseBody: the target is a Go pointer that the decoder writes through. The model passes the target in by value and returns the decoder's result. Aliasing between the target and other objects is not modelled.
- Concurrent `Start` and `Stop` calls are modelled as one call after the other. A `Stop` on another goroutine that closes the listener while the serve call blocks is modelled as `Start` returning, followed by `Stop`. A `Stop` that runs between the bind and the store of the listener is modelled as running before `Start`. So "the new listener is still held" after `Start` describes Start's own writes only.
- Go's distinction between a nil interface and an interface that holds a typed nil pointer is not modelled. `SetResponse`'s nil case is `None`. A typed nil is a `Some` value, whose encoding depends on `marshal`.
- The listener's `Close` error is ignored by the code and is not modelled.
- utils/time.go is not part of this model: a wall-clock read, time-zone loading at package initialisation, and date formatting. The router calls none of it. The package initialisation it triggers writes nothing the router reads.
