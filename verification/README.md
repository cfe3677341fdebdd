# ROT-13 service core: a verified model

This project models three small sequential pieces of the ROT-13 web
service, with proofs of what each of them promises:

- **The ROT-13 transform** (`Rot13`). It works on the UTF-16 code units that
  `charCodeAt` yields. `TransformLetter` moves `a`–`m`/`A`–`M` up by 13 and
  `n`–`z`/`N`–`Z` down by 13, and leaves every other code unit alone.
  `Transform` is the loop that appends one mapped code unit per input
  position. It is proved equal to the specification function `Encoded`.
  An independent reference definition pins down each letter's image: a
  Caesar shift by 13 modulo 26 within the letter's own case. The lemmas
  prove that the transform is an involution and is position-local.
- **The HTTP request wrapper** (`Request`). The class `HttpRequest` holds
  the wrapped Node request's URL, method, headers and body chunks. It also
  holds its `readableEnded` flag, as `bodyRead`. `CreateNull` gives the
  simulated request's defaults. It upper-cases the method and normalises
  the headers with `NormalizeHeaders`: names are lower-cased, and a later
  colliding entry wins. `HasContentType` compares media types: the header
  text before the first `;`, trimmed and lower-cased, against the expected
  text, trimmed and lower-cased. `ReadBody` is the one-shot body read: it
  concatenates the chunks in order, then refuses every later read. The
  JavaScript string built-ins these operations use are modelled in `Text`:
  `trim` (the full ECMAScript white-space set), ASCII
  `toLowerCase`/`toUpperCase`, and the first piece of `split`.
- **The HTTP server wrapper** (`Server`). `HttpServer` is the two-state
  lifecycle driven by whether `server` (`_server`) is set. `Start`, `Stop`
  and `SimulateRequest` fail fast on misuse. `HandleRequest` is the
  response pipeline: a handler result of the `RESPONSE_TYPE` shape passes
  through unchanged and unlogged. Any other result, or a thrown error,
  produces exactly one emergency log entry, and the fixed 500 response is
  returned instead. The log is a ghost sequence of entries on the server.

Handler results are modelled as a small JavaScript value type (`JsValue`).
`WellShaped` stands for `type.check(response, RESPONSE_TYPE) === null`.

A transport error during startup does not leave the server stopped. The
code assigns `_server` before it listens (`http_server.js:42`), and its
`error` handler only rejects the start (`http_server.js:43-45`), so
`isStarted` stays true afterwards. `Start` models exactly that, and
`StartupErrorLeavesServerStarted` shows the consequence: a retry is
refused as "already running".

## Model

| member | source | states |
|---|---|---|
| Rot13.TransformLetter | src/rot13-service/logic/rot13.js:17-29 | a lower-case letter maps to a lower-case letter 13 places on modulo 26, likewise for upper case; letters stay letters, non-letters map to themselves |
| Rot13.CodeFor | src/rot13-service/logic/rot13.js:27-29 | for a letter of the Basic Multilingual Plane, the code is a UTF-16 code unit, and it is an ASCII lower- or upper-case letter code exactly when the letter is an ASCII letter of that case |
| Rot13.CodeForOrder | src/rot13-service/logic/rot13.js:27-29 | codes compare as the letters do, so a range of letters is a range of codes |
| Rot13.IsBetween | src/rot13-service/logic/rot13.js:23-25 | a code unit between two letters of one alphabet is a letter of that alphabet, and only a non-empty range holds anything |
| Rot13.AlphabetHalves | src/rot13-service/logic/rot13.js:17-25 | the ranges `a`–`m`, `n`–`z`, `A`–`M`, `N`–`Z` that `transformLetter` tests are exactly the first and last thirteen letters of each alphabet |
| Rot13.TransformLetterInvolution | src/rot13-service/logic/rot13.js:17-20 | mapping a code unit twice gives it back |
| Rot13.Encoded | src/rot13-service/logic/rot13.js:9-14 | the encoding has the input's length and position i is the mapped input position i |
| Rot13.Transform | src/rot13-service/logic/rot13.js:6-15 | the loop's result is the encoding of the input: same length, each position mapped on its own (the empty string gives the empty string) |
| Rot13.EncodedInvolution | src/rot13-service/logic/rot13.js:6-21 | applying the transform twice gives back the input |
| Rot13.EncodedConcat | src/rot13-service/logic/rot13.js:9-14 | each output position depends only on the same input position, so encoding distributes over concatenation |
| Text.TrimStart | src/rot13-service/infrastructure/http_request.js:43 | the result is a suffix of the input, starts with no white space, and only white space was dropped |
| Text.TrimEnd | src/rot13-service/infrastructure/http_request.js:43 | the result is a prefix of the input, ends with no white space, and only white space was dropped |
| Text.Trim | src/rot13-service/infrastructure/http_request.js:43 | `trim`: the result neither starts nor ends with white space |
| Text.TrimRemovesOnlyWhiteSpace | src/rot13-service/infrastructure/http_request.js:43 | `trim` returns a slice of its input with nothing but white space on either side of it |
| Text.TrimOfUnpadded | src/rot13-service/infrastructure/http_request.js:43 | a string that neither starts nor ends with white space is its own trim |
| Text.TrimIgnoresPadding | src/rot13-service/infrastructure/http_request.js:43 | white space added at either end never changes what `trim` returns |
| Text.TrimStartSkipsWhiteSpace | src/rot13-service/infrastructure/http_request.js:43 | leading white space never survives trimming the start |
| Text.TrimEndSkipsWhiteSpace | src/rot13-service/infrastructure/http_request.js:43 | trailing white space never survives trimming the end |
| Text.TrimAppendedWhiteSpace | src/rot13-service/infrastructure/http_request.js:43 | white space appended to a string is removed again by trimming both ends |
| Text.TrimStartOfLower | src/rot13-service/infrastructure/http_request.js:43 | trimming the start commutes with lower-casing |
| Text.TrimEndOfLower | src/rot13-service/infrastructure/http_request.js:43 | trimming the end commutes with lower-casing |
| Text.TrimOfLower | src/rot13-service/infrastructure/http_request.js:43 | `trim` commutes with `toLowerCase` |
| Text.ToLower | src/rot13-service/infrastructure/http_request.js:102 | `toLowerCase` keeps the length and leaves no upper-case ASCII letter |
| Text.ToUpper | src/rot13-service/infrastructure/http_request.js:82 | `toUpperCase` keeps the length and leaves no lower-case ASCII letter |
| Text.BeforeFirst | src/rot13-service/infrastructure/http_request.js:42 | the first piece of `split(";")` is the prefix up to the first `;`, contains no `;`, and is followed by `;` unless it is the whole string |
| Text.BeforeFirstStopsAtSeparator | src/rot13-service/infrastructure/http_request.js:42 | whatever follows the first `;` is never part of the first piece |
| Text.BeforeFirstWithoutSeparator | src/rot13-service/infrastructure/http_request.js:42 | a string without `;` is its own first piece |
| Text.BeforeFirstOfLower | src/rot13-service/infrastructure/http_request.js:42-43 | taking the first piece commutes with lower-casing |
| Request.NormalizeHeaders | src/rot13-service/infrastructure/http_request.js:101-104 | every normalised header name is lower-case |
| Request.NormalizedNamesPresent | src/rot13-service/infrastructure/http_request.js:101-104 | every entry's lower-cased name is present |
| Request.NormalizedNamesOnly | src/rot13-service/infrastructure/http_request.js:101-104 | every normalised name is the lower-cased name of some entry |
| Request.NormalizedValueIsLast | src/rot13-service/infrastructure/http_request.js:101-104 | each name holds the value of its last entry: a later colliding entry overwrites an earlier one |
| Request.Body | src/rot13-service/infrastructure/http_request.js:51-58 | the body accumulated from the `data` events starts with the first chunk, and is empty when every chunk is |
| Request.BodyOfOneChunk | src/rot13-service/infrastructure/http_request.js:88-97 | the simulated request's body, delivered as one chunk, reads back unchanged |
| Request.BodyOfAppend | src/rot13-service/infrastructure/http_request.js:51-58 | the body is the chunk strings concatenated in arrival order: splitting the sequence of chunk strings splits the body at the same place |
| Request.MediaTypeMatches | src/rot13-service/infrastructure/http_request.js:42-43 | the header's text before the first `;` and the expected media type match exactly when, once trimmed, they have the same length and agree character by character up to ASCII case |
| Request.ParametersIgnored | src/rot13-service/infrastructure/http_request.js:42-43 | anything after the first `;` of the header never changes the result |
| Request.PaddingIgnored | src/rot13-service/infrastructure/http_request.js:43 | white space around the header's media type or the expected media type never changes the result |
| Request.CaseIgnored | src/rot13-service/infrastructure/http_request.js:43 | the comparison ignores ASCII case in both the header and the expected media type |
| Request.CanonicalOfLower | src/rot13-service/infrastructure/http_request.js:43 | the canonical form of a media type depends only on its lower-cased text |
| Request.MatchIsReflexive | src/rot13-service/infrastructure/http_request.js:42-43 | a media type without parameters matches itself |
| Request.FirstLetterMismatch | src/rot13-service/infrastructure/http_request.js:42-43 | two media types that are both free of leading and trailing white space, with no `;` in the header, and whose first letters differ ignoring ASCII case, never match |
| Request.SameLettersMatch | src/rot13-service/infrastructure/http_request.js:42-43 | a header and an expected media type with the same letters as a parameter-free media type, ignoring case, match |
| Request.ExampleMismatch | src/rot13-service/infrastructure/_http_request_test.js:85 | `application/json` does not match `text/plain` |
| Request.ExampleCase | src/rot13-service/infrastructure/_http_request_test.js:86 | `APPLICATION/json` matches `application/JSON` |
| Request.HttpRequest.Create | src/rot13-service/infrastructure/http_request.js:10-21 | wrapping a Node request keeps its URL, method, headers and chunks; its body is unread |
| Request.HttpRequest.CreateNull | src/rot13-service/infrastructure/http_request.js:65-86 | defaults: url `/null-request-url`, method `GET`, no headers, empty body; the method is upper-cased, the headers normalised, the body one chunk |
| Request.HttpRequest.Headers | src/rot13-service/infrastructure/http_request.js:32-34 | the headers getter returns the same names and values, all names lower-case |
| Request.HttpRequest.HasContentType | src/rot13-service/infrastructure/http_request.js:36-44 | false without a `content-type` header; otherwise whether the header's media type matches the expected one |
| Request.HttpRequest.ReadBody | src/rot13-service/infrastructure/http_request.js:46-60 | the first read returns the chunks concatenated in order and ends the stream; any later read fails with "Can't read request body because it's already been read" and the stream stays ended |
| Request.NullBodyReadsOnce | src/rot13-service/infrastructure/_http_request_test.js:139-151 | a simulated request reads back its configured body once, then refuses the second read |
| Server.WellShaped | src/rot13-service/infrastructure/http_server.js:11 | `type.check(response, RESPONSE_TYPE)` passes exactly when the response is an object whose `status` is a number, `headers` an object and `body` a string |
| Server.ToWire | src/rot13-service/infrastructure/http_server.js:47-51 | the status, headers and body written back are those of the well-shaped response |
| Server.InternalServerError | src/rot13-service/infrastructure/http_server.js:100-106 | the fixed response is well-shaped, with status 500, the single header `content-type: text/plain; charset=utf-8` and body "Internal Server Error" |
| Server.HandleRequest | src/rot13-service/infrastructure/http_server.js:82-98 | the result is always well-shaped; a well-shaped handler response passes through unchanged with nothing logged; an ill-shaped one, or a thrown error, logs exactly one emergency entry naming the response or the error and yields the fixed 500 response |
| Server.HandleRequestIdempotent | src/rot13-service/infrastructure/http_server.js:82-98 | passing the pipeline's own answer through it again returns it unchanged and logs nothing |
| Server.HttpServer.Create | src/rot13-service/infrastructure/http_server.js:26-30 | a new server is stopped, has no handler, and has logged nothing |
| Server.HttpServer.IsStarted | src/rot13-service/infrastructure/http_server.js:32-34 | the server reads as started while the transport's server is set, and a started server always has a handler to answer with |
| Server.HttpServer.Start | src/rot13-service/infrastructure/http_server.js:36-59 | a started server refuses with "Can't start server because it's already running" and keeps its handler and server; otherwise the handler is bound, the server is started, and a startup error rejects the start without stopping it |
| Server.HttpServer.Stop | src/rot13-service/infrastructure/http_server.js:61-72 | a stopped server refuses with "Can't stop server because it isn't running"; a completed stop leaves the server stopped; the bound handler stays |
| Server.HttpServer.SimulateRequest | src/rot13-service/infrastructure/http_server.js:74-78 | a stopped server refuses with "Can't simulate request because server isn't running"; otherwise the handler bound at start answers through the pipeline and its log entries are appended |
| Server.HttpServer.OnRequest | src/rot13-service/infrastructure/http_server.js:46-52 | the wire response handed to the transport is the pipeline's well-shaped result for the handler bound at start, and the pipeline's log entries are appended |
| Server.LifecycleMisuse | src/rot13-service/infrastructure/http_server.js:36-78 | a second start, a stop after a stop, and a request simulated after stopping all fail fast with their messages |
| Server.StartupErrorLeavesServerStarted | src/rot13-service/infrastructure/http_server.js:41-45 | a startup error reported through the transport's `error` event rejects the start with "Couldn't start server due to error: …", yet the server reads as started and a retry is refused as already running |

## Left out

- `urlPathname` (`http_request.js:23-26`) is not modelled: it needs the WHATWG `URL` parser and `decodeURIComponent`. The URL is kept as given.
- Node transport and event-loop plumbing is not modelled: `http.createServer`, `listen`, `close`, the event wiring, `setImmediate`, promise ordering, and writing the status, headers and body to `nodeResponse`. Start, stop and a body read are each one atomic step that completes.
- Server.HttpServer.Stop: clears `server` as one step. In the code, `_server` is cleared only when the `close` event arrives (`http_server.js:66-68`).
- Overlapping body reads are not modelled. A read started before an earlier one ends is not refused by the code, because `readableEnded` is still false; the outcome depends on event interleaving. The request stream's `error` event (`http_request.js:52`) is not modelled either.
- Text.ToLower: lower-cases only the ASCII letters; JavaScript's `toLowerCase` maps every Unicode letter.
- Text.ToUpper: upper-cases only the ASCII letters; JavaScript's `toUpperCase` maps every Unicode letter, and can change a string's length (`ß` becomes `SS`).
- Request.NormalizeHeaders: takes the headers object as its entry sequence in `Object.entries` order. JavaScript's ordering of integer-like keys first is not modelled, and header values are strings.
- Request.HttpRequest.HasContentType: assumes a string header value. For a simulated request whose `content-type` option is not a string, `split` would throw; that case is not modelled.
- Request.HttpRequest.Headers: the defensive copy holds by construction. Dafny maps are values and `headers` is a constant field, so no caller edit of the returned map can reach the request. There is no aliasing to rule out.
- Request.HttpRequest.Create: requires lower-case header names. Node's `IncomingMessage` guarantees this for a received request.
- The `ensure.signature` argument checks become Dafny parameter types.
- Rot13.CodeFor: requires a letter of the Basic Multilingual Plane. For a letter outside it, `charCodeAt(0)` returns the high surrogate; `transformLetter` only ever passes ASCII letters, so no reachable case is lost.
- Request.HttpRequest.ReadBody: each chunk string stands for the decoding of that one chunk. A real request delivers Buffers, and `body += chunk` decodes each one as UTF-8 on its own, so a multi-byte character split across two chunks reads back as replacement characters. The byte stream and its decoding are not modelled, and `BodyOfAppend` speaks of chunk strings, not bytes.
- Server.HttpServer.OnRequest: Node's own checks when it writes the response (`http_server.js:49-51`) are not modelled. A status outside 100–999 or an `undefined` header value passes `WellShaped` but makes Node throw there, outside `handleRequestAsync`'s `try`, and then the request gets no answer. The model only states what is handed to the transport.
- Server.HttpServer.Start: the `Couldn't start server due to error: ` prefix applies to errors reported through the transport's `error` event (`http_server.js:43-45`). A port that `listen` rejects synchronously (for example 70000) rejects the start with Node's own error message; that path is not modelled.
- Server.WellShaped: `util/type` is not part of this model. The model checks only the three properties `RESPONSE_TYPE` names (`status` a number, `headers` an object, `body` a string) and accepts extra properties. Arrays, functions, `NaN` and the infinities are not among the modelled JavaScript values. Every property of `HandleRequest` holds for any shape predicate that accepts `InternalServerError()`, so this choice affects only which handler values pass through.
- Server.HttpServer.SimulateRequest: a handler is a pure function of the request. What the handler itself does (for example, reading the body) is not modelled. The default argument `HttpRequest.createNull()` is not modelled either; the caller passes a request.
- The log is a ghost sequence of `(alert, message, payload)` entries. The log's timestamps, JSON serialisation, stack traces and output tracking (`Log`, `CommandLine`, `Clock`) are not part of this model.
- The simulated server (`NullNodeServer`) and the real one are not told apart: both are the same atomic lifecycle.
