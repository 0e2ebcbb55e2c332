/**
 * What the middleware hands on: properties of `DispatchState`, the
 * context the wrapped application sees, as a function of the headers.
 */
module DispatchProperties {
  import opened Wrappers
  import opened RequestContext
  import opened Headers
  import opened Middleware

  /** A fresh request: each override is set exactly when its header is
      present and non-empty, and its source key is recorded exactly then;
      the metadata holds nothing but those source keys. */
  lemma FreshRequestContext(headers: map<string, string>)
    ensures var s := DispatchState(Unset, headers);
      && (s.userToken.Some? <==> Truthy(Lookup(headers, UserTokenHeaders)))
      && (s.serverUrl.Some? <==> Truthy(Lookup(headers, ServerUrlHeaders)))
      && (s.dataPartition.Some? <==> Truthy(Lookup(headers, DataPartitionHeaders)))
      && (TokenSourceKey in s.metadata <==> s.userToken.Some?)
      && (ServerUrlSourceKey in s.metadata <==> s.serverUrl.Some?)
      && (DataPartitionSourceKey in s.metadata <==> s.dataPartition.Some?)
      && s.metadata.Keys <= {TokenSourceKey, ServerUrlSourceKey, DataPartitionSourceKey}
      && forall k :: k in s.metadata ==> s.metadata[k] == FromHttpHeader
  {
  }

  /** `key` is bound to `value` in the dispatched metadata. */
  ghost predicate MetadataKeyIs(before: State, headers: map<string, string>, key: string, value: Value) {
    var m := DispatchState(before, headers).metadata;
    key in m && m[key] == value
  }

  /** `key` is bound in the dispatched metadata exactly as it was before. */
  ghost predicate MetadataKeyKept(before: State, headers: map<string, string>, key: string) {
    var m := DispatchState(before, headers).metadata;
    (key in m <==> key in before.metadata) && (key in m ==> m[key] == before.metadata[key])
  }

  /** The stored token is the header value with at most one "bearer "
      prefix (in any case) removed, and `token_source` records the header;
      an absent or empty header leaves both the token and `token_source`
      as they were. */
  lemma DispatchedToken(before: State, headers: map<string, string>)
    ensures var v := Lookup(headers, UserTokenHeaders);
            var t := DispatchState(before, headers).userToken;
      && (!Truthy(v) ==> t == before.userToken)
      && (Truthy(v) && HasBearerPrefix(v.value) ==> t.Some? && v.value == v.value[..7] + t.value)
      && (Truthy(v) && !HasBearerPrefix(v.value) ==> t == v)
      && (Truthy(v) ==> MetadataKeyIs(before, headers, TokenSourceKey, FromHttpHeader))
      && (!Truthy(v) ==> MetadataKeyKept(before, headers, TokenSourceKey))
  {
  }

  /** The stored server URL is the header value with its trailing slashes
      removed: it never ends in '/', and only slashes were dropped;
      `server_url_source` records the header. An absent or empty header
      leaves both the URL and `server_url_source` as they were. */
  lemma DispatchedServerUrl(before: State, headers: map<string, string>)
    ensures var v := Lookup(headers, ServerUrlHeaders);
            var u := DispatchState(before, headers).serverUrl;
      && (!Truthy(v) ==> u == before.serverUrl)
      && (Truthy(v) ==> u.Some? && (u.value == [] || u.value[|u.value| - 1] != '/'))
      && (Truthy(v) ==> u.value == v.value[..|u.value|])
      && (Truthy(v) ==> forall i :: |u.value| <= i < |v.value| ==> v.value[i] == '/')
      && (Truthy(v) ==> MetadataKeyIs(before, headers, ServerUrlSourceKey, FromHttpHeader))
      && (!Truthy(v) ==> MetadataKeyKept(before, headers, ServerUrlSourceKey))
  {
  }

  /** The stored data partition is the header value exactly as given, and
      `data_partition_source` records the header. An absent or empty header
      leaves both the partition and `data_partition_source` as they were. */
  lemma DispatchedDataPartition(before: State, headers: map<string, string>)
    ensures var v := Lookup(headers, DataPartitionHeaders);
            var p := DispatchState(before, headers).dataPartition;
      && (Truthy(v) ==> p == v)
      && (!Truthy(v) ==> p == before.dataPartition)
      && (Truthy(v) ==> MetadataKeyIs(before, headers, DataPartitionSourceKey, FromHttpHeader))
      && (!Truthy(v) ==> MetadataKeyKept(before, headers, DataPartitionSourceKey))
  {
  }

  /** A request without any non-empty override header reaches the
      application with the context exactly as it was. */
  lemma NothingExtractedLeavesContext(before: State, headers: map<string, string>)
    requires !Truthy(Lookup(headers, UserTokenHeaders))
    requires !Truthy(Lookup(headers, ServerUrlHeaders))
    requires !Truthy(Lookup(headers, DataPartitionHeaders))
    ensures DispatchState(before, headers) == before
  {
  }

  /** The canonical name takes precedence over both alternatives. */
  lemma {:induction false} CanonicalNameWins(headers: map<string, string>)
    ensures UserTokenHeaders[0] in headers ==>
              Lookup(headers, UserTokenHeaders) == Some(headers[UserTokenHeaders[0]])
    ensures ServerUrlHeaders[0] in headers ==>
              Lookup(headers, ServerUrlHeaders) == Some(headers[ServerUrlHeaders[0]])
    ensures DataPartitionHeaders[0] in headers ==>
              Lookup(headers, DataPartitionHeaders) == Some(headers[DataPartitionHeaders[0]])
  {
    ConfiguredNamesAreLowerCase();
    if UserTokenHeaders[0] in headers {
      LookupFirstPresent(headers, UserTokenHeaders, 0);
    }
    if ServerUrlHeaders[0] in headers {
      LookupFirstPresent(headers, ServerUrlHeaders, 0);
    }
    if DataPartitionHeaders[0] in headers {
      LookupFirstPresent(headers, DataPartitionHeaders, 0);
    }
  }

  /** A header sent under the canonical name several times is read from
      its last occurrence in the raw ASGI list; when that last occurrence
      is empty the token is not overridden, whatever earlier occurrences
      held. */
  lemma LastDuplicateWins(before: State, raw: seq<Header>, i: nat)
    requires i < |raw| && raw[i].0 == UserTokenHeaders[0]
    requires forall j :: i < j < |raw| ==> raw[j].0 != raw[i].0
    ensures DispatchState(before, HeaderDict(raw)).userToken
            == if raw[i].1 == "" then before.userToken else Some(StripBearer(raw[i].1))
  {
    HeaderDictLastWins(raw, i);
    CanonicalNameWins(HeaderDict(raw));
  }

  /** Looking up a request that carries one header: it is found exactly
      when its name is one of the (lower-case) accepted names. */
  lemma {:induction false} LookupSingleHeader(names: seq<string>, name: string, value: string)
    requires forall n :: n in names ==> Lower(n) == n
    ensures Lookup(map[name := value], names) == if name in names then Some(value) else None
  {
    if names != [] {
      assert Lower(names[0]) == names[0];
      if names[0] != name {
        assert forall n :: n in names[1..] ==> n in names;
        LookupSingleHeader(names[1..], name, value);
        assert name in names <==> name in names[1..];
      }
    }
  }

  /** The three lookups of a request that carries the single header `name`. */
  lemma SingleHeaderLookups(name: string, value: string)
    ensures Lookup(map[name := value], UserTokenHeaders)
            == if name in UserTokenHeaders then Some(value) else None
    ensures Lookup(map[name := value], ServerUrlHeaders)
            == if name in ServerUrlHeaders then Some(value) else None
    ensures Lookup(map[name := value], DataPartitionHeaders)
            == if name in DataPartitionHeaders then Some(value) else None
  {
    ConfiguredNamesAreLowerCase();
    LookupSingleHeader(UserTokenHeaders, name, value);
    LookupSingleHeader(ServerUrlHeaders, name, value);
    LookupSingleHeader(DataPartitionHeaders, name, value);
  }

  /** Each override may be sent under any of its three accepted names:
      the alternatives leave the same context as the canonical name. */
  lemma AlternativeNamesAreEquivalent(before: State, i: nat, value: string)
    requires i < 3
    ensures DispatchState(before, map[UserTokenHeaders[i] := value])
            == DispatchState(before, map[UserTokenHeaders[0] := value])
    ensures DispatchState(before, map[ServerUrlHeaders[i] := value])
            == DispatchState(before, map[ServerUrlHeaders[0] := value])
    ensures DispatchState(before, map[DataPartitionHeaders[i] := value])
            == DispatchState(before, map[DataPartitionHeaders[0] := value])
  {
    SingleHeaderLookups(UserTokenHeaders[i], value);
    SingleHeaderLookups(UserTokenHeaders[0], value);
    SameLookupsSameDispatch(before, map[UserTokenHeaders[i] := value], map[UserTokenHeaders[0] := value]);
    SingleHeaderLookups(ServerUrlHeaders[i], value);
    SingleHeaderLookups(ServerUrlHeaders[0], value);
    SameLookupsSameDispatch(before, map[ServerUrlHeaders[i] := value], map[ServerUrlHeaders[0] := value]);
    SingleHeaderLookups(DataPartitionHeaders[i], value);
    SingleHeaderLookups(DataPartitionHeaders[0], value);
    SameLookupsSameDispatch(before, map[DataPartitionHeaders[i] := value], map[DataPartitionHeaders[0] := value]);
  }

  /** The dispatched context depends on the headers only through the three
      lookups. */
  lemma SameLookupsSameDispatch(before: State, h1: map<string, string>, h2: map<string, string>)
    requires Lookup(h1, UserTokenHeaders) == Lookup(h2, UserTokenHeaders)
    requires Lookup(h1, ServerUrlHeaders) == Lookup(h2, ServerUrlHeaders)
    requires Lookup(h1, DataPartitionHeaders) == Lookup(h2, DataPartitionHeaders)
    ensures DispatchState(before, h1) == DispatchState(before, h2)
  {
  }

  /** A request whose only override header is empty leaves the context
      unchanged: under any accepted name it changes no field and records
      no source. */
  lemma EmptyHeaderIsIgnored(before: State, name: string)
    requires name in UserTokenHeaders + ServerUrlHeaders + DataPartitionHeaders
    ensures DispatchState(before, map[name := ""]) == before
  {
    SingleHeaderLookups(name, "");
  }

  /** An empty header is not skipped in favour of a later name: the
      lookup stops at the first accepted name present, and the empty value
      it finds there sets nothing. So an empty header under an earlier
      name hides a non-empty one under a later name. */
  lemma EmptyEarlierNameMasksLater(before: State, headers: map<string, string>, i: nat)
    requires i < 3 && UserTokenHeaders[i] in headers && headers[UserTokenHeaders[i]] == ""
    requires forall j :: 0 <= j < i ==> UserTokenHeaders[j] !in headers
    ensures DispatchState(before, headers).userToken == before.userToken
    ensures MetadataKeyKept(before, headers, TokenSourceKey)
  {
    ConfiguredNamesAreLowerCase();
    LookupFirstPresent(headers, UserTokenHeaders, i);
    DispatchedToken(before, headers);
  }

  /** Only the configured names are lower-cased before the lookup: a raw
      header name that still has upper-case letters is not found. ASGI
      servers deliver header names in lower case. */
  lemma UpperCaseRawNameIsNotFound(name: string, value: string)
    requires !NoUpperAscii(name)
    ensures Lookup(map[name := value], UserTokenHeaders) == None
    ensures Lookup(map[name := value], ServerUrlHeaders) == None
    ensures Lookup(map[name := value], DataPartitionHeaders) == None
  {
    ConfiguredNamesAreLowerCase();
    SingleHeaderLookups(name, value);
  }

  /** Values at the edge: "Bearer " stores the empty token, "///" stores
      the empty server URL. */
  lemma EdgeValues()
    ensures DispatchState(Unset, map[UserTokenHeaders[0] := "Bearer "]).userToken == Some("")
    ensures DispatchState(Unset, map[ServerUrlHeaders[0] := "///"]).serverUrl == Some("")
  {
    SingleHeaderLookups(UserTokenHeaders[0], "Bearer ");
    SingleHeaderLookups(ServerUrlHeaders[0], "///");
    StripBearerRemovesOnePrefix("Bearer ", "");
    assert "Bearer " + "" == "Bearer ";
    RStripSlashAfterSlashes("", 3);
    assert "" + seq(3, _ => '/') == "///";
  }
}
