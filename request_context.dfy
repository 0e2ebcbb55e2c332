/**
 * The per-request context store of the OSDU MCP server: four context
 * variables (user token, server URL, data partition, metadata) with a
 * setter, a getter and a clear operation each.
 *
 * One logical request is modelled at a time, so the four context
 * variables become the four fields of one `Context` object, and every
 * setter and clear is a method that overwrites exactly one field.
 */
module RequestContext {
  import opened Wrappers

  /** A metadata value: Python's `Any`. `NoneValue` is Python's `None`. */
  datatype Value = NoneValue | Text(s: string) | Other(id: nat)

  /** The values of the four context variables at one moment. */
  datatype State = State(
    userToken: Option<string>,
    serverUrl: Option<string>,
    dataPartition: Option<string>,
    metadata: map<string, Value>)

  /** The defaults the four context variables are declared with: no
      token, no server URL, no partition, no metadata. */
  const Unset: State := State(None, None, None, map[])

  class Context {
    var userToken: Option<string>
    var serverUrl: Option<string>
    var dataPartition: Option<string>
    var metadata: map<string, Value>

    /** The current values of the four context variables. */
    function Current(): State
      reads this
    {
      State(userToken, serverUrl, dataPartition, metadata)
    }

    /** A fresh context holds every declared default. */
    constructor ()
      ensures Current() == Unset
    {
      userToken := None;
      serverUrl := None;
      dataPartition := None;
      metadata := map[];
    }

    /** `set_request_user_token`: `None` is allowed and unsets the token. */
    method SetUserToken(token: Option<string>)
      modifies this
      ensures userToken == token
      ensures serverUrl == old(serverUrl) && dataPartition == old(dataPartition)
      ensures metadata == old(metadata)
    {
      userToken := token;
    }

    /** `get_request_user_token`. */
    method GetUserToken() returns (token: Option<string>)
      ensures token == userToken
    {
      token := userToken;
    }

    /** `clear_request_user_token`: the same as setting `None`. */
    method ClearUserToken()
      modifies this
      ensures userToken == None
      ensures serverUrl == old(serverUrl) && dataPartition == old(dataPartition)
      ensures metadata == old(metadata)
    {
      SetUserToken(None);
    }

    /** `set_request_server_url`: stored as given, `None` unsets it. */
    method SetServerUrl(url: Option<string>)
      modifies this
      ensures serverUrl == url
      ensures userToken == old(userToken) && dataPartition == old(dataPartition)
      ensures metadata == old(metadata)
    {
      serverUrl := url;
    }

    /** `get_request_server_url`. */
    method GetServerUrl() returns (url: Option<string>)
      ensures url == serverUrl
    {
      url := serverUrl;
    }

    /** `clear_request_server_url`: the same as setting `None`. */
    method ClearServerUrl()
      modifies this
      ensures serverUrl == None
      ensures userToken == old(userToken) && dataPartition == old(dataPartition)
      ensures metadata == old(metadata)
    {
      SetServerUrl(None);
    }

    /** `set_request_data_partition`: stored as given, `None` unsets it. */
    method SetDataPartition(partition: Option<string>)
      modifies this
      ensures dataPartition == partition
      ensures userToken == old(userToken) && serverUrl == old(serverUrl)
      ensures metadata == old(metadata)
    {
      dataPartition := partition;
    }

    /** `get_request_data_partition`. */
    method GetDataPartition() returns (partition: Option<string>)
      ensures partition == dataPartition
    {
      partition := dataPartition;
    }

    /** `clear_request_data_partition`: the same as setting `None`. */
    method ClearDataPartition()
      modifies this
      ensures dataPartition == None
      ensures userToken == old(userToken) && serverUrl == old(serverUrl)
      ensures metadata == old(metadata)
    {
      SetDataPartition(None);
    }

    /** `set_request_metadata`: binds `key` to `value`, keeps every other
        key, and leaves the three scalar fields alone. */
    method SetMetadata(key: string, value: Value)
      modifies this
      ensures metadata == old(metadata)[key := value]
      ensures key in metadata && metadata[key] == value
      ensures forall k :: k != key ==> (k in metadata <==> k in old(metadata))
      ensures forall k :: k != key && k in metadata ==> metadata[k] == old(metadata)[k]
      ensures userToken == old(userToken) && serverUrl == old(serverUrl)
      ensures dataPartition == old(dataPartition)
    {
      var current := metadata;
      current := current[key := value];
      metadata := current;
    }

    /** `get_request_metadata`: the bound value, or `default` (itself
        `None` unless given) for an absent key. */
    method GetMetadata(key: string, default: Value := NoneValue) returns (value: Value)
      ensures key in metadata ==> value == metadata[key]
      ensures key !in metadata ==> value == default
    {
      if key in metadata {
        value := metadata[key];
      } else {
        value := default;
      }
    }

    /** `clear_request_metadata`: afterwards every key is absent. */
    method ClearMetadata()
      modifies this
      ensures metadata == map[]
      ensures userToken == old(userToken) && serverUrl == old(serverUrl)
      ensures dataPartition == old(dataPartition)
    {
      metadata := map[];
    }
  }
}
