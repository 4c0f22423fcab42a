# forward-oai gateway: decision layer in Dafny

This project models the pure decision layer of `src/app.py`, a small forwarding proxy for the single route
`/v1/chat/completions`. The route takes a chat-completion request, looks up which upstream URL and API key
apply to the requested model in `config.json`, forwards the request body unchanged with a fixed header set,
and relays the upstream answer either as one JSON reply or as an event stream.

Modules, following the source's functions:

- `JsonValue`: the decoded JSON value type, Python truthiness (`if not x`) and hashability (dict keys).
- `Ascii`: ASCII `lower()`/`upper()` and case-insensitive name comparison.
- `Env`: `get_env_value`. The value comes from the key as given, then its lower-case spelling, then its
  upper-case spelling, and otherwise the default.
- `Errors`: the exceptions that end a request inside `fetch`'s `try`, with the text each puts in the 500 body.
- `Routing`: config resolution. The exact model's entry is used whole, otherwise the `"*"` entry, otherwise
  an empty entry.
- `Outbound`: `prepare_headers`. It builds four fixed headers plus `Authorization`.
- `Gateway`: `fetch`, `create_options_response`, the branches of `send_request`, `handle_response`,
  `create_response` and `stream_response`, and the whole handler `Serve`.
- `Scenarios`: concrete configs and requests whose outcome is proved by lemmas.

The config and the environment are parameters (`Config`, `Environment`). The inbound request body arrives
already decoded (or as the decoder's error text). The upstream's answer is a parameter `Upstream`: either a
transport failure or a status with the body as the handler reads it. That is `resp.text()` for a non-200 status and
`resp.json()` for a buffered 200, each either the value read or the error text of the read.

This revision of `src/app.py` has no tenant tokens, per-field fallback, key rotation, redirects,
`{model_name}` substitution or `-ca` stripping. Every failure inside `fetch` is a 500.

## Model

| member | source | states |
|---|---|---|
| Env.FirstSet | src/app.py:19 | The result is present exactly when some name in the list is set to a non-empty value. When present, it is the value of the first such name. |
| Env.GetEnvValue | src/app.py:18-20 | The value is the first non-empty one among the key, its lower-case spelling and its upper-case spelling, in that order. When none is set, it is the default. |
| Env.ExactSpellingWins | src/app.py:19-20 | A non-empty variable spelled exactly as asked is returned, whatever its other spellings hold. |
| Env.NoSpellingSetGivesDefault | src/app.py:20 | When no spelling is set to a non-empty value, the default is returned. |
| Env.EmptyValueFallsThrough | src/app.py:19-20 | `HTTP_PROXY=""` is skipped and the lower-case `http_proxy` value is used. |
| JsonValue.TruthyIffNotFalsyValue | src/app.py:92 | A value is falsy exactly when it is None, False, 0, 0.0, "", [] or {}. |
| Routing.ResolveEntry | src/app.py:57-59 | A list or object `model` raises "unhashable type". A model that is a config key gets that entry. Any other model gets the `"*"` entry, or an empty entry when `"*"` is absent. |
| Routing.ResolveField | src/app.py:57-60 | A field's value is taken from the model's own entry when the model is a key. Otherwise it comes from the `"*"` entry. Otherwise it is None. |
| Routing.ExactEntryIgnoresWildcard | src/app.py:59 | When the model names an entry, replacing the `"*"` entry changes no resolved field. There is no per-field merging. |
| Routing.MissingFieldIsNotInherited | src/app.py:69 | A field absent from the model's own entry resolves to None, even if `"*"` has it. |
| Routing.FallbackIgnoresOtherModels | src/app.py:59 | For a model that names no entry, only the `"*"` entry decides the result. |
| Routing.NothingConfiguredGivesNone | src/app.py:59 | When neither the model nor `"*"` is configured, every field (`url`, `key`) is None. |
| Routing.NullModelUsesWildcard | src/app.py:58-59 | A request without `model` uses the `"*"` entry. |
| Outbound.FindHeader | src/app.py:71 | A case-insensitive header lookup finds a value exactly when some header has that name in any case. The value found is the first such header's value. |
| Outbound.PrepareHeaders | src/app.py:66-77 | The outbound headers are exactly `Content-Type`, `Accept`, `Accept-Encoding`, `User-Agent` and `Authorization`. The first four have their fixed values. `Authorization` is "Bearer " + key for a non-empty key. Otherwise it is the caller's first `authorization` header, or None when the caller sent none. |
| Outbound.ConfiguredKeyIgnoresCaller | src/app.py:70-73 | With a non-empty configured key, the caller's headers do not affect the outbound headers. |
| Outbound.OnlyAuthorizationIsForwarded | src/app.py:67-74 | Two callers whose `authorization` lookups agree get identical outbound headers. No other inbound header is forwarded. |
| Outbound.EmptyKeyPassesCallerThrough | src/app.py:70-71 | An empty key counts as no key, and the caller's `AUTHORIZATION` header passes through verbatim. |
| Gateway.Fetch | src/app.py:33-49 | The outcome is OPTIONS exactly for the `OPTIONS` method. A body that fails to decode raises with the decoder's text. A non-object body raises "no attribute 'get'", and an unhashable `model` raises "unhashable type". The missing-URL error happens exactly when the body is an object and the resolved `url` is None or empty. The request is handed to the outbound call exactly when the resolved `url` is non-empty, and then it carries the body unchanged, that URL and the headers built from the resolved key. |
| Gateway.SelectMode | src/app.py:85-96 | A status other than 200 passes the upstream response through. A 200 with a truthy `stream` streams. A 200 with an absent or falsy `stream` buffers. |
| Gateway.Relay | src/app.py:83-112 | A transport failure gives a 500 with the library's text. A non-200 status returns the upstream response when its body reads as text (line 86). If that read raises, the reply is a 500 with the read's error text. The reply streams exactly in streaming mode. It is JSON exactly in buffered mode with a decodable body, and then it carries that body unchanged. In buffered mode an undecodable body gives a 500 with the decoder's text. |
| Errors.MessageNamesTheType | src/app.py:47-49 | The 500 body `str(e)` of an attribute error or of an unhashable-type error determines the Python type name it reports. Equal texts mean equal type names. |
| Errors.FixedMessagesDiffer | src/app.py:41-49 | The attribute-error, unhashable-type and missing-URL bodies differ for every type name, so the 500 body tells the cause apart. |
| Gateway.ReplyShape | src/app.py:49-55 | Among the headers the handler sets itself, the two `*` CORS headers are on exactly the OPTIONS, JSON and event-stream replies (lines 52-55, 102-105, 110-111). The handler itself sets `Content-Type` only on the JSON and event-stream replies (lines 101, 112). Among the bodies the model carries, a reply is a 500 with a text body exactly when it is one of the handler's errors (line 49). It is a 204 with an empty body exactly when it is the OPTIONS reply (lines 51-55). |
| Gateway.UndecodableBufferedBodyIs500 | src/app.py:91-94 | A 200 to be buffered whose upstream body does not decode gives a 500 carrying the decoder's text. |
| Gateway.Serve | src/app.py:33-49 | `OPTIONS` always gets the 204 reply. A failed `fetch` yields its error as a 500. A forwarded request yields the relay of the upstream answer. |
| Gateway.OptionsIsFixed | src/app.py:51-55 | `OPTIONS` gets status 204, an empty body and the two `*` CORS headers, whatever the config, body or upstream. |
| Gateway.MissingUrlIs500 | src/app.py:39-49 | A resolved URL that is None or "" gives status 500 with the missing-URL message as body. |
| Gateway.NoForwardNoUpstream | src/app.py:39-45 | A request that is not forwarded gets a reply that does not depend on the upstream. No outbound request is made. |
| Gateway.UpstreamErrorPassesThrough | src/app.py:85-88 | A non-200 upstream status whose body reads as text is returned as the upstream response. |
| Gateway.UnreadableErrorBodyIs500 | src/app.py:85-88 | A non-200 upstream status whose body read raises gives status 500 with the read's error text (lines 47-49). |
| Gateway.TruthyStreamStreams | src/app.py:108-112 | A 200 with truthy `stream` gives an event stream with status 200, `text/event-stream; charset=UTF-8` and CORS headers. |
| Gateway.FalsyStreamBuffers | src/app.py:91-106 | A 200 with falsy or absent `stream` gives status 200 with the upstream JSON unchanged, as `application/json` with CORS headers. |
| Scenarios.ExactModelForwardsWithItsKey | src/app.py:57-74 | `gpt-4` with its own entry is forwarded to its URL, with `Bearer k1` and the body unchanged. |
| Scenarios.UnknownModelUsesWildcard | src/app.py:59 | An unknown model goes to the `"*"` URL with the `"*"` key. |
| Scenarios.EntryWithoutUrlFails | src/app.py:39-41 | A `gpt-4` entry with a key but no `url` does not borrow the `"*"` URL. The request fails with the missing-URL error. |
| Scenarios.ListModelIsUnhashable | src/app.py:47-49 | A list-valued `model` ends in a 500 whose body is `unhashable type: 'list'`. |
| Scenarios.ListBodyHasNoGet | src/app.py:47-49 | A JSON list body ends in a 500 whose body is `'list' object has no attribute 'get'`. |
| Scenarios.StreamFlagIsPythonTruthiness | src/app.py:92 | `"false"` (a non-empty string) streams. `0` and an absent flag buffer. A 429 passes through. |

## Left out

- Network I/O: the aiohttp `ClientSession`, the outbound POST and the proxy choice (lines 23-24, 79-84). The upstream's answer is an input.
- Chunk-by-chunk stream copying and `write_eof` (lines 113-119) are async I/O. Only the choice of streaming mode, its status and its headers are modelled.
- Decoding the request body and the upstream body as JSON (lines 38, 93). Both arrive decoded, or as the decoder's error text.
- Re-serialising the upstream JSON with `json.dumps` (line 100). The JSON value is passed through as is.
- Loading `config.json` and `.env`, logging, `web.run_app` and port parsing (lines 12-15, 26-31, 127-129) are startup I/O. The config and the environment are parameters.
- Gateway.Serve: a request handed to the outbound call with an `Authorization` of None is relayed like any other. This happens when no key is configured and the caller sent no `authorization` header (lines 71, 74). aiohttp cannot serialise a None header value, so the call at line 84 raises before anything is sent, and lines 47-49 turn that into a 500. Only `upstream = Unreachable(_)` is realistic for such a request. The library's text is not modelled.
- The `UpstreamAsIs` reply's status is the status of the object the handler returns, not what the caller receives. On a non-200 status the handler returns the upstream `ClientResponse` (line 88), which is not a `web.Response`. What aiohttp then sends is not part of this model.
- Routing.ResolveField: config values are strings only. A `config.json` whose entries hold numbers, lists or non-object entries is not modelled.
- `lower()`/`upper()` are modelled on ASCII letters only. Unicode case mapping of environment and header names is not modelled.
- JsonValue.TruthyIffNotFalsyValue: the non-finite floats `NaN` and `Infinity` that Python's decoder accepts are not modelled.
- Headers aiohttp adds on its own are not modelled. Among them are the `; charset=utf-8` appended to `application/json`, and the `text/plain; charset=utf-8` type of the 500 reply and of the OPTIONS reply, whose `body=""` is a string (line 52). A passed-through upstream response also carries its own body and headers, which the model does not hold.
- Exceptions raised after streaming has started are not modelled.
- `threading`, `chardet`, `re` and `time` are imported but unused.
