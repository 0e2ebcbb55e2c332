/**
 * The pure parts of the header-extraction middleware: turning the ASGI
 * header list into a dictionary, looking a header up under a list of
 * accepted names, and normalising the token and server-URL values.
 *
 * Header names and values are ASGI byte strings decoded as Latin-1, so
 * each is a `string` whose characters are the bytes themselves.
 */
module Headers {
  import opened Wrappers

  /** One raw ASGI header: (name, value). */
  type Header = (string, string)

  // The accepted header names: the canonical one first, then the two
  // alternatives, in the order the middleware tries them.
  const UserTokenHeaders: seq<string> :=
    ["osdu_mcp_user_token", "osdu-mcp-user-token", "x-osdu-mcp-user-token"]
  const ServerUrlHeaders: seq<string> :=
    ["osdu_mcp_server_url", "osdu-mcp-server-url", "x-osdu-mcp-server-url"]
  const DataPartitionHeaders: seq<string> :=
    ["osdu_mcp_data_partition", "osdu-mcp-data-partition", "x-osdu-mcp-data-partition"]

  /** The token prefix the middleware removes, compared case-insensitively. */
  const BearerPrefix: string := "bearer "

  /** Lower-cases an ASCII letter and leaves every other character alone.
      On Latin-1 text no other character lower-cases to an ASCII one, so a
      comparison against an all-ASCII lower-case string such as
      `BearerPrefix` gives the same answer as with Python's `str.lower`. */
  function LowerChar(c: char): char {
    if 'A' <= c <= 'Z' then (c as int - 'A' as int + 'a' as int) as char else c
  }

  function Lower(s: string): string {
    seq(|s|, i requires 0 <= i < |s| => LowerChar(s[i]))
  }

  predicate NoUpperAscii(s: string) {
    forall i :: 0 <= i < |s| ==> !('A' <= s[i] <= 'Z')
  }

  /** Lower-casing changes nothing in a string without upper-case letters. */
  lemma LowerIdentity(s: string)
    requires NoUpperAscii(s)
    ensures Lower(s) == s
  {
  }

  /** The configured names are already lower case, so the lookup's
      `header_name.lower()` leaves them as they are. */
  lemma ConfiguredNamesAreLowerCase()
    ensures forall n :: n in UserTokenHeaders ==> Lower(n) == n
    ensures forall n :: n in ServerUrlHeaders ==> Lower(n) == n
    ensures forall n :: n in DataPartitionHeaders ==> Lower(n) == n
  {
    NameIsLowerCase("osdu_mcp_user_token");
    NameIsLowerCase("osdu-mcp-user-token");
    NameIsLowerCase("x-osdu-mcp-user-token");
    NameIsLowerCase("osdu_mcp_server_url");
    NameIsLowerCase("osdu-mcp-server-url");
    NameIsLowerCase("x-osdu-mcp-server-url");
    NameIsLowerCase("osdu_mcp_data_partition");
    NameIsLowerCase("osdu-mcp-data-partition");
    NameIsLowerCase("x-osdu-mcp-data-partition");
  }

  /** A header name spelt with lower-case letters, digits, '-' and '_'
      is its own lower-case form. */
  lemma NameIsLowerCase(name: string)
    requires forall c :: c in name ==> c in "-_0123456789abcdefghijklmnopqrstuvwxyz"
    ensures Lower(name) == name
  {
    forall i | 0 <= i < |name| ensures !('A' <= name[i] <= 'Z') {
      assert name[i] in name;
    }
    LowerIdentity(name);
  }

  // ---------------------------------------------------------------
  // The header dictionary
  // ---------------------------------------------------------------

  /** `dict(headers)`: the pairs are inserted from first to last, so a
      later pair with the same name overwrites an earlier one. */
  function HeaderDict(raw: seq<Header>): (d: map<string, string>)
    ensures d.Keys == set i | 0 <= i < |raw| :: raw[i].0
  {
    if raw == [] then map[]
    else HeaderDict(raw[..|raw| - 1])[raw[|raw| - 1].0 := raw[|raw| - 1].1]
  }

  /** The dictionary holds, for every name, the value of that name's LAST
      occurrence in the raw list. */
  lemma {:induction false} HeaderDictLastWins(raw: seq<Header>, i: nat)
    requires i < |raw|
    requires forall j :: i < j < |raw| ==> raw[j].0 != raw[i].0
    ensures raw[i].0 in HeaderDict(raw)
    ensures HeaderDict(raw)[raw[i].0] == raw[i].1
  {
    if i < |raw| - 1 {
      var front := raw[..|raw| - 1];
      assert front[i] == raw[i];
      forall j | i < j < |front| ensures front[j].0 != front[i].0 {
        assert front[j] == raw[j];
      }
      HeaderDictLastWins(front, i);
    }
  }

  // ---------------------------------------------------------------
  // Looking a header up under several names
  // ---------------------------------------------------------------

  /** `_extract_header`: the value under the first name whose lower-cased
      form is a key of `headers`, or `None` when no name is. The header
      dictionary's own keys are compared as they are. */
  function Lookup(headers: map<string, string>, names: seq<string>): (r: Option<string>)
    ensures r.Some? ==> r.value in headers.Values
    ensures headers == map[] ==> r == None
  {
    if names == [] then None
    else if Lower(names[0]) in headers then Some(headers[Lower(names[0])])
    else Lookup(headers, names[1..])
  }

  /** The lookup finds nothing exactly when no accepted name is present,
      and what it finds is stored under one of the accepted names. */
  lemma {:induction false} LookupFindsAcceptedName(headers: map<string, string>, names: seq<string>)
    ensures Lookup(headers, names).None? <==> forall i :: 0 <= i < |names| ==> Lower(names[i]) !in headers
    ensures Lookup(headers, names).Some? ==>
              exists i :: 0 <= i < |names| && Lower(names[i]) in headers
                          && Lookup(headers, names).value == headers[Lower(names[i])]
  {
    if names != [] && Lower(names[0]) !in headers {
      LookupFindsAcceptedName(headers, names[1..]);
      assert forall i :: 1 <= i < |names| ==> names[i] == names[1..][i - 1];
      if Lookup(headers, names).Some? {
        var i :| 0 <= i < |names[1..]| && Lower(names[1..][i]) in headers
                 && Lookup(headers, names).value == headers[Lower(names[1..][i])];
        assert names[1..][i] == names[i + 1];
      }
    }
  }

  /** The name that wins is the FIRST present one: every name before it
      is absent, whatever the names after it hold. */
  lemma {:induction false} LookupFirstPresent(headers: map<string, string>, names: seq<string>, i: nat)
    requires i < |names| && Lower(names[i]) in headers
    requires forall j :: 0 <= j < i ==> Lower(names[j]) !in headers
    ensures Lookup(headers, names) == Some(headers[Lower(names[i])])
  {
    if i > 0 {
      assert names[1..][i - 1] == names[i];
      forall j | 0 <= j < i - 1 ensures Lower(names[1..][j]) !in headers {
        assert names[1..][j] == names[j + 1];
      }
      LookupFirstPresent(headers, names[1..], i - 1);
    }
  }

  /** `_extract_header` as the source writes it: a loop over the names that
      returns at the first one present. */
  method ExtractHeader(headers: map<string, string>, names: seq<string>) returns (r: Option<string>)
    ensures r == Lookup(headers, names)
  {
    var k := 0;
    while k < |names|
      invariant 0 <= k <= |names|
      invariant forall j :: 0 <= j < k ==> Lower(names[j]) !in headers
      invariant Lookup(headers, names[k..]) == Lookup(headers, names)
    {
      var key := Lower(names[k]);
      if key in headers {
        return Some(headers[key]);
      }
      assert names[k..][1..] == names[k + 1..];
      k := k + 1;
    }
    return None;
  }

  // ---------------------------------------------------------------
  // Value normalisation
  // ---------------------------------------------------------------

  /** `token.lower().startswith("bearer ")`. */
  predicate HasBearerPrefix(token: string) {
    |token| >= |BearerPrefix| && Lower(token[..|BearerPrefix|]) == BearerPrefix
  }

  /** Cuts one case-insensitive "bearer " prefix off a token (`token[7:]`). */
  function StripBearer(token: string): (r: string)
    ensures HasBearerPrefix(token) ==> token == token[..7] + r
    ensures !HasBearerPrefix(token) ==> r == token
  {
    if HasBearerPrefix(token) then token[7..] else token
  }

  /** Whatever the case of its letters, a "Bearer " prefix is cut off, and
      exactly once: what follows it is kept even if it starts with another
      "Bearer ". */
  lemma {:induction false} StripBearerRemovesOnePrefix(prefix: string, rest: string)
    requires Lower(prefix) == BearerPrefix
    ensures StripBearer(prefix + rest) == rest
  {
    assert |prefix| == 7;
    assert (prefix + rest)[..7] == prefix;
    assert (prefix + rest)[7..] == rest;
  }

  /** A token passes the prefix test exactly when it is some casing of
      "bearer " followed by any text. */
  lemma HasBearerPrefixIff(token: string)
    ensures HasBearerPrefix(token) <==>
              exists prefix, rest :: token == prefix + rest && Lower(prefix) == BearerPrefix
  {
    if HasBearerPrefix(token) {
      assert token == token[..7] + token[7..];
    }
  }

  /** `value.rstrip("/")`: drops every trailing '/'. */
  function RStripSlash(s: string): (r: string)
    ensures |r| <= |s| && r == s[..|r|]
    ensures forall i :: |r| <= i < |s| ==> s[i] == '/'
    ensures r == [] || r[|r| - 1] != '/'
  {
    if |s| > 0 && s[|s| - 1] == '/' then RStripSlash(s[..|s| - 1]) else s
  }

  /** Stripping the trailing slashes of a URL without one and then adding
      any number of them back is the identity on that URL. */
  lemma {:induction false} RStripSlashAfterSlashes(url: string, n: nat)
    requires url == [] || url[|url| - 1] != '/'
    ensures RStripSlash(url + seq(n, _ => '/')) == url
  {
    if n > 0 {
      var longer := url + seq(n, _ => '/');
      assert longer[|longer| - 1] == '/';
      assert longer[..|longer| - 1] == url + seq(n - 1, _ => '/');
      RStripSlashAfterSlashes(url, n - 1);
    } else {
      assert url + seq(0, _ => '/') == url;
    }
  }

  /** Stripping twice is stripping once. */
  lemma RStripSlashIdempotent(s: string)
    ensures RStripSlash(RStripSlash(s)) == RStripSlash(s)
  {
  }
}
