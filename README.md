# Request wrapper model

A Dafny model of the HTTP request wrapper of a web front-end (`src/utils/request.ts`).
The wrapper does three things on every call:

- A request hook resolves the caller's `url` against the fixed base URL `http://localhost:5174/api`.
  An absent or empty url is left alone. A path with a leading `/` is appended to the base as it is.
  Any other path is appended after an inserted `/`.
  The hook returns a new config in which only `url` differs.
- A response hook passes the response through unchanged.
- The executor `Axios` hands the rewritten config to the HTTP transport.
  It flattens the response `{status, statusText, data: {data, code, message}}` into `{status, statusText, data, code, message}`.
  A transport rejection reaches the caller untouched.

Modules:

- `Wrappers`: `Option`, which stands for `T | undefined`, and `Result`, the settled outcome of the transport's promise.
- `Request`: the config, response and flat-result records; the normaliser, both hook bodies, the flattener and the executor; and the properties proved about them.
- `Services`: the options built by the `debug` service in `src/services/test.ts`, used as a concrete scenario.

The transport is a parameter of `Execute`: a total function from the rewritten config to a `Result`.
The model therefore says exactly which config the network call receives and what the caller gets for each outcome.

The url is tested for truthiness (`src/utils/request.ts:8,10`), so the empty string `""` is left unchanged, just like an absent url.

## Model

| member | source | states |
|---|---|---|
| `Request.NormalizeUrl` | src/utils/request.ts:7-12 | the result is absent exactly when the url is absent; an empty url is returned unchanged; otherwise the base is the untouched prefix, the caller's path the untouched suffix, and a `/` sits right after the base: the inserted one for a relative path, the path's own first character otherwise (the `startsWith('/')` test of line 8 is the predicate `StartsWithSlash`); the length shows that at most that one separator is added |
| `Request.NormalizeLeadingSlash` | src/utils/request.ts:8-9 | a path starting with `/` becomes exactly base + path (the per-case form of `NormalizeUrl`'s contract) |
| `Request.NormalizeRelative` | src/utils/request.ts:10-11 | a non-empty path not starting with `/` becomes exactly base + `/` + path (the per-case form of `NormalizeUrl`'s contract) |
| `Request.NormalizeSlashInsensitive` | src/utils/request.ts:8-11 | `/p` and `p` resolve to the same absolute URL |
| `Request.SlashCountConcat` | src/utils/request.ts:9 | the slash count of a concatenation is the sum of the parts' counts (helper for the next row) |
| `Request.NormalizeKeepsSlashes` | src/utils/request.ts:8-11 | no separator is collapsed or dropped: the result holds every slash of the base and the path, plus one for a relative path |
| `Request.DoubleSlashNotCollapsed` | src/utils/request.ts:9 | a base ending in `/` plus a path starting with `/` yields a doubled `//` in the result |
| `Request.NormalizeCompletion` | src/utils/request.ts:3-11 | with the configured base, `app/completion` and `/app/completion` both resolve to `http://localhost:5174/api/app/completion` |
| `Request.InterceptRequest` | src/utils/request.ts:7-16 | the new config's url is the normalised url; `verb` (the HTTP method), data, headers and params are those of the input |
| `Request.InterceptResponse` | src/utils/request.ts:19-22 | the response hook is the identity |
| `Request.Flatten` | src/utils/request.ts:26-37 | status and statusText come from the response; data, code and message come from the nested envelope |
| `Request.FlattenIdentifies` | src/utils/request.ts:26-37 | two responses flatten to the same result exactly when they agree on everything except their headers |
| `Request.FlattenNestRoundTrip` | src/utils/request.ts:26-37 | flattening and re-nesting are inverse: only the headers are lost |
| `Request.Execute` | src/utils/request.ts:24-38 | the transport receives the config as the request hook rewrote it; a fulfilled response is flattened; a rejection is returned as the same error |
| `Request.ExecutePassesErrors` | src/utils/request.ts:25 | a transport rejection with error `e` is the executor's rejection with `e` (the error case of `Execute`'s contract, stated for a named error) |
| `Request.ExecuteSeesInterceptedConfig` | src/utils/request.ts:24-25 | the outcome depends on the options only through the rewritten config |
| `Request.ExecuteExample` | src/utils/request.ts:26-37 | the response `{200, "OK", {data: {id: 1}, code: 0, message: "ok"}}` flattens to `{200, "OK", {id: 1}, 0, "ok"}` |
| `Services.DebugOptions` | src/services/test.ts:3-9 | the debug service posts the caller's data to the relative path `app/completion`, with no headers or query parameters |
| `Services.DebugTarget` | src/services/test.ts:6 | the transport receives the absolute URL `http://localhost:5174/api/app/completion` and the caller's data |

## Left out

- Registering the hooks with the HTTP library's global interceptor lists: that is state inside a foreign library. Only the hook bodies are modelled.
- The HTTP transport, the network call and the `async`/`await` suspension: the transport is a parameter that returns a settled `Result`.
- The diagnostic console output of both hooks: it has no effect on behaviour.
- Options other than method, url, data, headers and params: the request hook copies every option it does not touch, so further fields would behave like `headers`.
- Response fields other than status, statusText, headers and data, such as the echoed request config: the flattener drops them, as it drops `headers`.
- A backend reply without the `{data, code, message}` envelope: in JavaScript this yields `undefined` fields. The model assumes the typed envelope.
- Numbers are modelled as unbounded integers, not as JavaScript floating point.
- Two calls with equal configs against a deterministic transport give equal results. This follows from `Execute` being a function and needs no lemma.
- The router's route table (`src/router/index.ts`) is declarative configuration for a routing library and is not part of this model.
