# OSDU MCP server: per-request overrides

A Dafny model of the per-request override mechanism of the OSDU MCP server's
HTTP transport.

- **Request context store** (`request_context.dfy`, module `RequestContext`).
  It holds four context variables: the caller's user token, a server-URL
  override, a data-partition override, and a string-keyed metadata map. Each
  has a setter, a getter and a clear operation. One logical request is modelled
  at a time, so the four context variables are the four fields of a `Context`
  object. Every setter and clear is a method that overwrites exactly one field
  and says that the other three are unchanged.
- **Header handling** (`headers.dfy`, module `Headers`). This module holds the
  pure parts of the middleware:
  - the ASGI header list folded into a dictionary in which later duplicates win;
  - the lookup of a header under its three accepted names, canonical name first;
  - cutting one case-insensitive `bearer ` prefix off the token;
  - stripping the trailing `/` characters off the server URL.
- **Token-extraction middleware** (`middleware.dfy`, module `Middleware`). The
  class `TokenExtractionMiddleware` wraps an application. For an `http` or
  `websocket` scope its `Call` method:
  1. fills the context from the headers and records a `*_source = "http_header"`
     metadata entry for each override it sets;
  2. invokes the application exactly once;
  3. clears all four context fields however the application ended.

  Any other scope goes straight to the application. `DispatchState` is the
  context the application sees, as a pure function of the prior context and the
  headers. `dispatch_properties.dfy` (module `DispatchProperties`) proves what
  it holds.
- `wrappers.dfy` (module `Wrappers`) holds the `Option` type, which models
  Python's `str | None`.

Header names and values are ASGI byte strings decoded as Latin-1, so a Dafny
`string` whose characters are the bytes stands for them. Lower-casing is
modelled on ASCII letters only. On Latin-1 text no other character lower-cases
to an ASCII letter, so the `"bearer "` prefix test gives the same answer as
Python's `str.lower`. The configured header names are all lower-case already.

The wrapped application is a total function from the scope and the current
context to a `Completion`: the context it leaves behind and whether it returned
or raised. Any context the application may write is allowed, so this covers
every downstream behaviour.

The comments in `http_app.py` (lines 35, 82 and 132) call the header lookup
case-insensitive. The code lower-cases only the configured names and compares
them with the raw header names as given (`http_app.py:137-139`). It relies on
ASGI servers delivering header names in lower case. The model follows the
code, and `UpperCaseRawNameIsNotFound` shows the consequence.

## Model

| member | source | states |
|---|---|---|
| `RequestContext.Context.constructor` | src/osdu_mcp_server/shared/request_context.py:15-32 | a fresh context has no token, no server URL, no partition and empty metadata |
| `RequestContext.Context.SetUserToken` | src/osdu_mcp_server/shared/request_context.py:35-41 | the token becomes the given value (`None` unsets it, a later set replaces an earlier one); server URL, partition and metadata are unchanged |
| `RequestContext.Context.GetUserToken` | src/osdu_mcp_server/shared/request_context.py:44-50 | returns the token currently stored, `None` when unset |
| `RequestContext.Context.ClearUserToken` | src/osdu_mcp_server/shared/request_context.py:53-55 | the token becomes `None`, as with setting `None`; the other three fields are unchanged |
| `RequestContext.Context.SetServerUrl` | src/osdu_mcp_server/shared/request_context.py:58-64 | the server URL becomes the given value; token, partition and metadata are unchanged |
| `RequestContext.Context.GetServerUrl` | src/osdu_mcp_server/shared/request_context.py:67-73 | returns the server URL currently stored |
| `RequestContext.Context.ClearServerUrl` | src/osdu_mcp_server/shared/request_context.py:76-78 | the server URL becomes `None`; the other three fields are unchanged |
| `RequestContext.Context.SetDataPartition` | src/osdu_mcp_server/shared/request_context.py:81-87 | the partition becomes the given value; token, server URL and metadata are unchanged |
| `RequestContext.Context.GetDataPartition` | src/osdu_mcp_server/shared/request_context.py:90-96 | returns the partition currently stored |
| `RequestContext.Context.ClearDataPartition` | src/osdu_mcp_server/shared/request_context.py:99-101 | the partition becomes `None`; the other three fields are unchanged |
| `RequestContext.Context.SetMetadata` | src/osdu_mcp_server/shared/request_context.py:104-115 | the key is bound to the value, every other key keeps its presence and value, and the three scalar fields are unchanged |
| `RequestContext.Context.GetMetadata` | src/osdu_mcp_server/shared/request_context.py:118-131 | returns the bound value of a present key, else the default, which is `None` when not given |
| `RequestContext.Context.ClearMetadata` | src/osdu_mcp_server/shared/request_context.py:134-136 | afterwards no key is present, so every lookup returns its default; the scalar fields are unchanged |
| `Headers.ConfiguredNamesAreLowerCase` | src/osdu_mcp_server/http_app.py:36-46 | the nine accepted header names are fixed points of lower-casing |
| `Headers.HeaderDict` | src/osdu_mcp_server/http_app.py:80 | the dictionary's keys are exactly the names in the raw header list |
| `Headers.HeaderDictLastWins` | src/osdu_mcp_server/http_app.py:80 | each name maps to the value of its last occurrence in the raw list |
| `Headers.Lookup` | src/osdu_mcp_server/http_app.py:137-144 | `_extract_header`: what it finds is a value of the header dictionary, and an empty dictionary gives `None`; `LookupFindsAcceptedName` and `LookupFirstPresent` state which value |
| `Headers.LookupFindsAcceptedName` | src/osdu_mcp_server/http_app.py:137-144 | the lookup gives `None` if and only if no lower-cased accepted name is a key; otherwise it gives the value under one of them |
| `Headers.LookupFirstPresent` | src/osdu_mcp_server/http_app.py:137-144 | the value found is the one under the first accepted name present, whatever later names hold |
| `Headers.ExtractHeader` | src/osdu_mcp_server/http_app.py:125-144 | the search loop with early return yields exactly the first-match lookup |
| `Headers.HasBearerPrefix` | src/osdu_mcp_server/http_app.py:88 | the `token.lower().startswith("bearer ")` test; `HasBearerPrefixIff` and `StripBearerRemovesOnePrefix` state its meaning |
| `Headers.HasBearerPrefixIff` | src/osdu_mcp_server/http_app.py:88 | a token passes the prefix test if and only if it is some casing of `bearer ` followed by any text |
| `Headers.StripBearer` | src/osdu_mcp_server/http_app.py:88-89 | with a case-insensitive `bearer ` prefix, the token is that prefix followed by the result; without one the token is kept |
| `Headers.StripBearerRemovesOnePrefix` | src/osdu_mcp_server/http_app.py:88-89 | any casing of `bearer ` followed by any text strips back to exactly that text, so only one prefix is removed |
| `Headers.RStripSlash` | src/osdu_mcp_server/http_app.py:102 | the result is a prefix of the input, only `/` were dropped, and it does not end in `/` |
| `Headers.RStripSlashAfterSlashes` | src/osdu_mcp_server/http_app.py:102 | a URL without a trailing `/` followed by any number of `/` strips back to that URL |
| `Headers.RStripSlashIdempotent` | src/osdu_mcp_server/http_app.py:102 | stripping twice is the same as stripping once |
| `Middleware.RawHeaders` | src/osdu_mcp_server/http_app.py:80 | `scope.get("headers", [])`, the scope's header list or the empty list; `TokenExtractionMiddleware.Call` states that the dispatched context is computed from it |
| `Middleware.IsRequest` | src/osdu_mcp_server/http_app.py:75 | the scope types that go through extraction, `http` and `websocket`; `TokenExtractionMiddleware.Call` states what happens on either side of this test |
| `Middleware.Truthy` | src/osdu_mcp_server/http_app.py:86 | Python truthiness of a looked-up value (present and non-empty); `EmptyHeaderIsIgnored`, `NothingExtractedLeavesContext` and the absent-or-empty parts of the `Dispatched*` lemmas state its consequence |
| `Middleware.WithToken` | src/osdu_mcp_server/http_app.py:83-91 | the token step changes neither server URL nor partition, and of the metadata it can only add or rebind `token_source`; `DispatchedToken` states the token it stores |
| `Middleware.WithServerUrl` | src/osdu_mcp_server/http_app.py:97-104 | the server-URL step changes neither token nor partition, and of the metadata it can only add or rebind `server_url_source`; `DispatchedServerUrl` states the URL it stores |
| `Middleware.WithDataPartition` | src/osdu_mcp_server/http_app.py:108-113 | the partition step changes neither token nor server URL, and of the metadata it can only add or rebind `data_partition_source`; `DispatchedDataPartition` states the partition it stores |
| `Middleware.DispatchState` | src/osdu_mcp_server/http_app.py:83-113 | the context at dispatch keeps every earlier metadata key and value other than the three source keys, and adds no key beyond them; the `DispatchProperties` lemmas state each field |
| `Middleware.TokenExtractionMiddleware.RunApp` | src/osdu_mcp_server/http_app.py:117 | the application runs once on the current context, which is appended to the invocation log `invocations`; the context it leaves and its outcome are what it produced |
| `Middleware.ExtractUserToken` | src/osdu_mcp_server/http_app.py:83-94 | the context afterwards is the token step of the dispatch state |
| `Middleware.ExtractServerUrl` | src/osdu_mcp_server/http_app.py:97-105 | the context afterwards is the server-URL step of the dispatch state |
| `Middleware.ExtractDataPartition` | src/osdu_mcp_server/http_app.py:108-114 | the context afterwards is the data-partition step of the dispatch state |
| `Middleware.TokenExtractionMiddleware.constructor` | src/osdu_mcp_server/http_app.py:59-65 | the middleware keeps the application it wraps, and no invocation has been logged yet |
| `Middleware.TokenExtractionMiddleware.Call` | src/osdu_mcp_server/http_app.py:67-123 | the invocation log, to which only `RunApp` appends, grows by exactly one entry `dispatched[0]`, so the application is invoked exactly once, and its outcome is passed on; a non-request scope reaches it with the context untouched and the middleware writes nothing; a request reaches it with `DispatchState` of the header dictionary and, whether it returned or raised, all four fields are unset afterwards |
| `DispatchProperties.FreshRequestContext` | src/osdu_mcp_server/http_app.py:83-113 | from an unset context, each override is set if and only if its header is present and non-empty; each source key is present if and only if its field was set; metadata holds only those keys, with value `"http_header"` |
| `DispatchProperties.DispatchedToken` | src/osdu_mcp_server/http_app.py:83-90 | the stored token is the header value minus one case-insensitive `bearer ` prefix, or the value itself without one; `token_source` is bound to `"http_header"` when the token is set; an absent or empty header keeps both the old token and the old `token_source` binding |
| `DispatchProperties.DispatchedServerUrl` | src/osdu_mcp_server/http_app.py:97-103 | the stored URL never ends in `/` and is the header value with only trailing `/` dropped; `server_url_source` is bound to `"http_header"` when the URL is set; an absent or empty header keeps both the old URL and the old `server_url_source` binding |
| `DispatchProperties.DispatchedDataPartition` | src/osdu_mcp_server/http_app.py:108-112 | the stored partition is the header value verbatim and `data_partition_source` is bound to `"http_header"`; an absent or empty header keeps both the old partition and the old `data_partition_source` binding |
| `DispatchProperties.NothingExtractedLeavesContext` | src/osdu_mcp_server/http_app.py:86-113 | without a non-empty override header the application sees the context unchanged |
| `DispatchProperties.CanonicalNameWins` | src/osdu_mcp_server/http_app.py:83-85 | when the canonical name is present its value is used, whatever the alternatives hold |
| `DispatchProperties.LastDuplicateWins` | src/osdu_mcp_server/http_app.py:80-90 | a token header sent several times under the canonical name is read from its last occurrence; an empty last occurrence leaves the token as it was, whatever earlier occurrences held |
| `DispatchProperties.SameLookupsSameDispatch` | src/osdu_mcp_server/http_app.py:83-113 | the context at dispatch depends on the headers only through the three lookups |
| `DispatchProperties.LookupSingleHeader` | src/osdu_mcp_server/http_app.py:137-144 | a single header is found if and only if its name is one of the accepted lower-case names |
| `DispatchProperties.AlternativeNamesAreEquivalent` | src/osdu_mcp_server/http_app.py:36-46 | sending an override under either alternative name leaves the same context as the canonical name |
| `DispatchProperties.EmptyHeaderIsIgnored` | src/osdu_mcp_server/http_app.py:86-111 | a request whose only override header is empty, under any accepted name, leaves the context unchanged |
| `DispatchProperties.EmptyEarlierNameMasksLater` | src/osdu_mcp_server/http_app.py:137-142 | an empty token header under the first accepted name present leaves the token and `token_source` as they were (the `if token:` test of line 86 discards it), even when a later name carries a non-empty value, because the lookup stops at the first present name |
| `DispatchProperties.UpperCaseRawNameIsNotFound` | src/osdu_mcp_server/http_app.py:137-139 | a single raw header whose name has any upper-case ASCII letter is matched by none of the three name lists, since only configured names are lower-cased |
| `DispatchProperties.EdgeValues` | src/osdu_mcp_server/http_app.py:86-103 | a token `"Bearer "` stores the empty token; a URL `"///"` stores the empty URL |

## Left out

- Per-task isolation of the context variables across concurrent requests. One logical request is modelled at a time.
- The metadata context variable's shared default dictionary (`request_context.py:31,111-115`). The model treats metadata as a map value that each operation replaces, so it does not capture this aliasing. Caveat about the source: in a context where the variable was never bound, `set_request_metadata` fetches the shared default dictionary and writes the key into it in place. The middleware's cleanup (`http_app.py:123`) re-binds the variable only in the current context to a new empty dictionary. The default dictionary keeps the `*_source` keys. A later request whose context never bound the variable then reads stale `token_source`, `server_url_source` and `data_partition_source` entries.
- The `current is None` guards in `set_request_metadata` and `get_request_metadata` (`request_context.py:112-113,129-130`) cannot fire. No operation ever stores `None` in the metadata variable, so the model has no such state.
- The `str(value)` branch of `_extract_header` (`http_app.py:143`). ASGI delivers header values as bytes, so only the Latin-1 decoding branch is modelled. The decoding is the identity on the model's characters.
- `Headers.Lower`: lower-cases ASCII letters only. This matches Python's `str.lower` for the model's uses: the configured names, which are ASCII, and the `bearer ` prefix test on Latin-1 text.
- The ASGI `receive` and `send` callables are not modelled. The application is modelled by its effect on the context and its outcome. Cancellation is modelled as a raised outcome, which goes through the same cleanup.
- Logging calls carry no behaviour and are omitted.
- The auth resolver that reads the token is not part of this model: its source is not shown.
- App assembly (`create_http_app`, CORS, routes, the health endpoint, `lifespan`) and the command-line entry point are framework wiring, not modelled.
