/**
 * The token-extraction middleware of the OSDU MCP server's HTTP transport.
 * For an HTTP or WebSocket request it reads the user-token, server-URL and
 * data-partition headers into the request context, hands the request to
 * the wrapped application, and clears the whole context afterwards,
 * whether the application returned or raised.
 */
module Middleware {
  import opened Wrappers
  import opened RequestContext
  import opened Headers

  // Metadata keys recording where each override came from, and the value
  // the middleware records under them.
  const TokenSourceKey: string := "token_source"
  const ServerUrlSourceKey: string := "server_url_source"
  const DataPartitionSourceKey: string := "data_partition_source"
  const FromHttpHeader: Value := Text("http_header")
  const SourceKeys: set<string> := {TokenSourceKey, ServerUrlSourceKey, DataPartitionSourceKey}

  /** The part of an ASGI scope the middleware reads: its `type` and its
      optional `headers` list. */
  datatype Scope = Scope(kind: string, headers: Option<seq<Header>>)

  /** `scope.get("headers", [])`. */
  function RawHeaders(scope: Scope): seq<Header> {
    scope.headers.GetOr([])
  }

  /** Only HTTP and WebSocket scopes go through extraction. */
  predicate IsRequest(scope: Scope) {
    scope.kind == "http" || scope.kind == "websocket"
  }

  /** How the wrapped application finished: it returned, or it raised. */
  datatype Outcome = Returned | Raised(error: string)

  /** What the wrapped application leaves behind: the context as it
      last wrote it, and how it finished. */
  datatype Completion = Completion(context: State, outcome: Outcome)

  /** The wrapped ASGI application, seen from the context: it may read and
      rewrite any context field and may end either way. */
  type App = (Scope, State) -> Completion

  /** Python truthiness of an `str | None`: present and non-empty. */
  predicate Truthy(v: Option<string>) {
    v.Some? && v.value != ""
  }

  /** A present, non-empty token header sets the token, with one
      case-insensitive "bearer " prefix cut off, and records its source. */
  function WithToken(s: State, headers: map<string, string>): (r: State)
    ensures r.serverUrl == s.serverUrl && r.dataPartition == s.dataPartition
    ensures s.metadata.Keys <= r.metadata.Keys <= s.metadata.Keys + {TokenSourceKey}
    ensures forall k :: k in s.metadata && k != TokenSourceKey ==> r.metadata[k] == s.metadata[k]
  {
    var token := Lookup(headers, UserTokenHeaders);
    if Truthy(token) then
      s.(userToken := Some(StripBearer(token.value)),
         metadata := s.metadata[TokenSourceKey := FromHttpHeader])
    else s
  }

  /** A present, non-empty server-URL header sets the URL without its
      trailing slashes and records its source. */
  function WithServerUrl(s: State, headers: map<string, string>): (r: State)
    ensures r.userToken == s.userToken && r.dataPartition == s.dataPartition
    ensures s.metadata.Keys <= r.metadata.Keys <= s.metadata.Keys + {ServerUrlSourceKey}
    ensures forall k :: k in s.metadata && k != ServerUrlSourceKey ==> r.metadata[k] == s.metadata[k]
  {
    var url := Lookup(headers, ServerUrlHeaders);
    if Truthy(url) then
      s.(serverUrl := Some(RStripSlash(url.value)),
         metadata := s.metadata[ServerUrlSourceKey := FromHttpHeader])
    else s
  }

  /** A present, non-empty data-partition header sets the partition as it
      is and records its source. */
  function WithDataPartition(s: State, headers: map<string, string>): (r: State)
    ensures r.userToken == s.userToken && r.serverUrl == s.serverUrl
    ensures s.metadata.Keys <= r.metadata.Keys <= s.metadata.Keys + {DataPartitionSourceKey}
    ensures forall k :: k in s.metadata && k != DataPartitionSourceKey ==> r.metadata[k] == s.metadata[k]
  {
    var partition := Lookup(headers, DataPartitionHeaders);
    if Truthy(partition) then
      s.(dataPartition := partition,
         metadata := s.metadata[DataPartitionSourceKey := FromHttpHeader])
    else s
  }

  /** The context at the moment the request is handed on: starting from
      `before`, each override whose header is present and non-empty is set
      to its normalised value together with its source key; every other
      field keeps its value. */
  function DispatchState(before: State, headers: map<string, string>): (r: State)
    ensures before.metadata.Keys <= r.metadata.Keys <= before.metadata.Keys + SourceKeys
    ensures forall k :: k in before.metadata && k !in SourceKeys ==> r.metadata[k] == before.metadata[k]
  {
    WithDataPartition(WithServerUrl(WithToken(before, headers), headers), headers)
  }

  /** The token step of `__call__`: look the token up, cut one "bearer "
      prefix, store it and record its source. */
  method ExtractUserToken(ctx: Context, headers: map<string, string>)
    modifies ctx
    ensures ctx.Current() == WithToken(old(ctx.Current()), headers)
  {
    var token := ExtractHeader(headers, UserTokenHeaders);
    if Truthy(token) {
      var t := token.value;
      if HasBearerPrefix(t) {
        t := t[7..];
      }
      ctx.SetUserToken(Some(t));
      ctx.SetMetadata(TokenSourceKey, FromHttpHeader);
    }
  }

  /** The server-URL step of `__call__`: look the URL up, strip its
      trailing slashes, store it and record its source. */
  method ExtractServerUrl(ctx: Context, headers: map<string, string>)
    modifies ctx
    ensures ctx.Current() == WithServerUrl(old(ctx.Current()), headers)
  {
    var serverUrl := ExtractHeader(headers, ServerUrlHeaders);
    if Truthy(serverUrl) {
      var url := RStripSlash(serverUrl.value);
      ctx.SetServerUrl(Some(url));
      ctx.SetMetadata(ServerUrlSourceKey, FromHttpHeader);
    }
  }

  /** The data-partition step of `__call__`: look the partition up, store
      it as it is and record its source. */
  method ExtractDataPartition(ctx: Context, headers: map<string, string>)
    modifies ctx
    ensures ctx.Current() == WithDataPartition(old(ctx.Current()), headers)
  {
    var dataPartition := ExtractHeader(headers, DataPartitionHeaders);
    if Truthy(dataPartition) {
      ctx.SetDataPartition(dataPartition);
      ctx.SetMetadata(DataPartitionSourceKey, FromHttpHeader);
    }
  }

  class TokenExtractionMiddleware {
    /** The wrapped application. */
    const app: App
    /** The contexts the application has been invoked with, in order.
        Only `RunApp` appends to it. */
    ghost var invocations: seq<State>

    constructor (app: App)
      ensures this.app == app && invocations == []
    {
      this.app := app;
      invocations := [];
    }

    /** `await self.app(scope, receive, send)`: the application runs once on
        the current context, the invocation is logged, and the context it
        wrote and its outcome are what it produced. */
    method RunApp(scope: Scope, ctx: Context) returns (outcome: Outcome)
      modifies this, ctx
      ensures invocations == old(invocations) + [old(ctx.Current())]
      ensures ctx.Current() == app(scope, old(ctx.Current())).context
      ensures outcome == app(scope, old(ctx.Current())).outcome
    {
      var done := app(scope, ctx.Current());
      invocations := invocations + [ctx.Current()];
      ctx.userToken := done.context.userToken;
      ctx.serverUrl := done.context.serverUrl;
      ctx.dataPartition := done.context.dataPartition;
      ctx.metadata := done.context.metadata;
      outcome := done.outcome;
    }

    /** `__call__`. `dispatched` lists the contexts the application was
        invoked with during this call, as appended to `invocations` by
        `RunApp`: there is always exactly one invocation. A scope that
        is not a request reaches the application with the context as it
        was and the middleware neither reads nor writes it. A request
        reaches it with `DispatchState` of the header dictionary, and
        afterwards, however the application ended, every context field is
        back to its default. The application's outcome is passed on
        unchanged. */
    method Call(ctx: Context, scope: Scope) returns (outcome: Outcome, ghost dispatched: seq<State>)
      modifies this, ctx
      ensures invocations == old(invocations) + dispatched
      ensures |dispatched| == 1
      ensures outcome == app(scope, dispatched[0]).outcome
      ensures !IsRequest(scope) ==> dispatched[0] == old(ctx.Current())
      ensures !IsRequest(scope) ==> ctx.Current() == app(scope, dispatched[0]).context
      ensures IsRequest(scope) ==>
                dispatched[0] == DispatchState(old(ctx.Current()), HeaderDict(RawHeaders(scope)))
      ensures IsRequest(scope) ==> ctx.Current() == Unset
    {
      if !IsRequest(scope) {
        dispatched := [ctx.Current()];
        outcome := RunApp(scope, ctx);
        return;
      }

      var headers := HeaderDict(RawHeaders(scope));
      ExtractUserToken(ctx, headers);
      ExtractServerUrl(ctx, headers);
      ExtractDataPartition(ctx, headers);

      dispatched := [ctx.Current()];
      // try: the application; finally: clear all four fields, on either outcome.
      outcome := RunApp(scope, ctx);
      ctx.ClearUserToken();
      ctx.ClearServerUrl();
      ctx.ClearDataPartition();
      ctx.ClearMetadata();
    }
  }
}
