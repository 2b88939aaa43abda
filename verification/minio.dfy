/**
 * The MinIO upload provider: configuration lookup helpers, the validation
 * and endpoint logic of Configure, and Upload's guard and object naming.
 * The SDK (client creation, the bucket check, the upload itself) and
 * filepath.Join are inputs.
 */
module Minio {
  import opened Base
  import opened Values
  import opened Foreign

  /** What minio.New was given. */
  datatype ClientInfo = ClientInfo(endpoint: string, accessKey: string, secretKey: string, secure: bool, region: string)

  /** The provider's fields; `client` is nil until Configure gets as far as creating one. */
  datatype MinioProvider = MinioProvider(client: Option<ClientInfo>, bucket: string, prefix: string)

  const NewMinioProvider: MinioProvider := MinioProvider(None, "", "")

  /** The SDK calls' outcomes: whether minio.New accepts the options, and BucketExists (None for an error). */
  datatype Sdk = Sdk(newClient: ClientInfo -> bool, bucketExists: (ClientInfo, string) -> Option<bool>)

  datatype ConfigError =
    | Missing(key: string)
    | InvalidEndpoint
    | ClientFailed
    | BucketCheckFailed
    | NoSuchBucket(bucket: string)

  datatype UploadError = NotConfigured | PutFailed(objectName: string)

  /** getStringValue: the value when the key holds a string (the empty string included). */
  function GetString(config: map<string, Value>, key: string): (r: Option<string>)
    ensures r.Some? <==> key in config && config[key].Str?
    ensures r.Some? ==> r.value == config[key].s
  {
    if key in config && config[key].Str? then Some(config[key].s) else None
  }

  /** getStringValueWithDefault */
  function GetStringWithDefault(config: map<string, Value>, key: string, default: string): (r: string)
    ensures key in config && config[key].Str? ==> r == config[key].s
    ensures !(key in config && config[key].Str?) ==> r == default
  {
    GetString(config, key).GetOr(default)
  }

  /** getBoolValue: a bool as it is, a string through strconv.ParseBool, anything else the default. */
  function GetBool(config: map<string, Value>, key: string, default: bool): (r: bool)
    ensures key in config && config[key].Bool? ==> r == config[key].b
    ensures key in config && config[key].Str? && ParseBool(config[key].s).Some? ==> r == ParseBool(config[key].s).value
    ensures key !in config || !(config[key].Bool? || (config[key].Str? && ParseBool(config[key].s).Some?)) ==> r == default
  {
    if key in config then
      match config[key]
      case Bool(b) => b
      case Str(s) => ParseBool(s).GetOr(default)
      case _ => default
    else default
  }

  /** Spellings strconv accepts decide; an unparsable string or a number falls back to the default. */
  lemma GetBoolExamples()
    ensures !GetBool(map["secure" := Str("FALSE")], "secure", true)
    ensures GetBool(map["secure" := Str("t")], "secure", false)
    ensures GetBool(map["secure" := Str("no")], "secure", true)
    ensures GetBool(map["secure" := Int(0)], "secure", true)
    ensures !GetBool(map[], "secure", false)
  {
    assert ParseBool("no").None?;
  }

  /** The required settings, in the order they are checked. */
  const RequiredKeys: seq<string> := ["endpoint", "access_key", "secret_key", "bucket"]

  /** The first required setting that is absent or not a string. */
  function FirstMissing(config: map<string, Value>, keys: seq<string>): (r: Option<string>)
    ensures r.None? <==> forall i :: 0 <= i < |keys| ==> GetString(config, keys[i]).Some?
    ensures r.Some? ==> exists i :: (0 <= i < |keys| && keys[i] == r.value && GetString(config, keys[i]).None?
                                     && forall j :: 0 <= j < i ==> GetString(config, keys[j]).Some?)
  {
    if |keys| == 0 then None
    else if GetString(config, keys[0]).None? then Some(keys[0])
    else
      var r := FirstMissing(config, keys[1..]);
      if r.Some? then
        var i :| 0 <= i < |keys[1..]| && keys[1..][i] == r.value && GetString(config, keys[1..][i]).None?
                 && forall j :: 0 <= j < i ==> GetString(config, keys[1..][j]).Some?;
        assert keys[i + 1] == r.value;
        assert forall j :: 0 < j < i + 1 ==> keys[j] == keys[1..][j - 1];
        r
      else r
  }

  /** Where the client connects: a http(s) URL gives its host and scheme, anything else the raw text and the `secure` setting. */
  function Endpoint(config: map<string, Value>, raw: string, parseUrl: string -> Option<Url>): (r: Result<(string, bool), ConfigError>)
    ensures var u := parseUrl(raw);
            && (u.Some? && (u.value.scheme == "http" || u.value.scheme == "https") ==>
                  if u.value.host == "" then r == Err(InvalidEndpoint)
                  else r == Ok((u.value.host, u.value.scheme == "https")))
            && (!(u.Some? && (u.value.scheme == "http" || u.value.scheme == "https")) ==>
                  r == Ok((raw, GetBool(config, "secure", true))))
  {
    match parseUrl(raw)
    case Some(u) =>
      if u.scheme == "http" || u.scheme == "https" then
        if u.host == "" then Err(InvalidEndpoint) else Ok((u.host, u.scheme == "https"))
      else Ok((raw, GetBool(config, "secure", true)))
    case None => Ok((raw, GetBool(config, "secure", true)))
  }

  /** All four required settings are present as strings. */
  predicate HasSettings(config: map<string, Value>) {
    && GetString(config, "endpoint").Some? && GetString(config, "access_key").Some?
    && GetString(config, "secret_key").Some? && GetString(config, "bucket").Some?
  }

  /** The required-settings check finds nothing missing exactly when all four are present. */
  lemma {:induction false} SettingsPresent(config: map<string, Value>)
    ensures HasSettings(config) <==> FirstMissing(config, RequiredKeys).None?
  {
    var keys := RequiredKeys;
    assert keys[0] == "endpoint" && keys[1] == "access_key" && keys[2] == "secret_key" && keys[3] == "bucket";
    if FirstMissing(config, keys).None? {
      assert GetString(config, keys[0]).Some? && GetString(config, keys[1]).Some?;
      assert GetString(config, keys[2]).Some? && GetString(config, keys[3]).Some?;
    }
  }

  /**
   * The options minio.New is given: the connection endpoint and `secure`
   * flag from Endpoint, the two keys, and the region (us-east-1 by default).
   */
  function ClientFor(config: map<string, Value>, parseUrl: string -> Option<Url>): (r: Result<ClientInfo, ConfigError>)
    requires HasSettings(config)
    ensures r.Err? <==> Endpoint(config, GetString(config, "endpoint").value, parseUrl).Err?
    ensures r.Err? ==> r.error == InvalidEndpoint
    ensures r.Ok? ==> && (r.value.endpoint, r.value.secure) == Endpoint(config, GetString(config, "endpoint").value, parseUrl).value
                      && r.value.accessKey == GetString(config, "access_key").value
                      && r.value.secretKey == GetString(config, "secret_key").value
                      && r.value.region == GetStringWithDefault(config, "region", "us-east-1")
  {
    match Endpoint(config, GetString(config, "endpoint").value, parseUrl)
    case Err(e) => Err(e)
    case Ok((host, secure)) =>
      Ok(ClientInfo(host, GetString(config, "access_key").value, GetString(config, "secret_key").value,
                    secure, GetStringWithDefault(config, "region", "us-east-1")))
  }

  /**
   * Configure: the required settings in order, the endpoint, the optional
   * region and prefix, then the client and the bucket check. The provider
   * keeps its client, bucket and prefix once the client exists, even if the
   * bucket check then fails. It succeeds exactly when the settings are all
   * there, the endpoint is usable, the client is created and the bucket
   * exists; each other outcome is its own error.
   */
  function Configure(p: MinioProvider, config: map<string, Value>, parseUrl: string -> Option<Url>, sdk: Sdk)
    : (r: (MinioProvider, Option<ConfigError>))
    ensures FirstMissing(config, RequiredKeys).Some? ==> r == (p, Some(Missing(FirstMissing(config, RequiredKeys).value)))
    ensures r.1.None? <==> && HasSettings(config) && ClientFor(config, parseUrl).Ok?
                           && sdk.newClient(ClientFor(config, parseUrl).value)
                           && sdk.bucketExists(ClientFor(config, parseUrl).value, GetString(config, "bucket").value) == Some(true)
    ensures HasSettings(config) && ClientFor(config, parseUrl).Err? ==> r == (p, Some(InvalidEndpoint))
    ensures HasSettings(config) && ClientFor(config, parseUrl).Ok? ==>
              var info := ClientFor(config, parseUrl).value;
              var bucket := GetString(config, "bucket").value;
              && (!sdk.newClient(info) ==> r == (p, Some(ClientFailed)))
              && (sdk.newClient(info) ==> r.0 == MinioProvider(Some(info), bucket, GetStringWithDefault(config, "prefix", "")))
              && (sdk.newClient(info) && sdk.bucketExists(info, bucket).None? ==> r.1 == Some(BucketCheckFailed))
              && (sdk.newClient(info) && sdk.bucketExists(info, bucket) == Some(false) ==> r.1 == Some(NoSuchBucket(bucket)))
    ensures r.1.None? ==> && GetString(config, "endpoint").Some? && GetString(config, "access_key").Some?
                          && GetString(config, "secret_key").Some? && GetString(config, "bucket").Some?
    ensures r.1.None? ==> r.0.client.Some? && r.0.bucket == GetString(config, "bucket").value
    ensures r.0 != p ==> r.0.client.Some? && r.0.client.value.region == GetStringWithDefault(config, "region", "us-east-1")
                                 && r.0.prefix == GetStringWithDefault(config, "prefix", "")
    ensures r.0 != p ==> r.0.client.Some? && sdk.newClient(r.0.client.value)
  {
    SettingsPresent(config);
    match FirstMissing(config, RequiredKeys)
    case Some(k) => (p, Some(Missing(k)))
    case None =>
      match ClientFor(config, parseUrl)
      case Err(e) => (p, Some(e))
      case Ok(info) =>
        var bucket := GetString(config, "bucket").value;
        if !sdk.newClient(info) then (p, Some(ClientFailed))
        else
          var configured := MinioProvider(Some(info), bucket, GetStringWithDefault(config, "prefix", ""));
          match sdk.bucketExists(info, bucket)
          case None => (configured, Some(BucketCheckFailed))
          case Some(false) => (configured, Some(NoSuchBucket(bucket)))
          case Some(true) => (configured, None)
  }

  /** The settings are checked in order: the first absent or non-string one is reported. */
  lemma ConfigureReportsFirstMissing(p: MinioProvider, config: map<string, Value>, parseUrl: string -> Option<Url>, sdk: Sdk)
    ensures GetString(config, "endpoint").None? ==> Configure(p, config, parseUrl, sdk).1 == Some(Missing("endpoint"))
    ensures GetString(config, "endpoint").Some? && GetString(config, "access_key").None?
            ==> Configure(p, config, parseUrl, sdk).1 == Some(Missing("access_key"))
    ensures GetString(config, "endpoint").Some? && GetString(config, "access_key").Some?
            && GetString(config, "secret_key").None?
            ==> Configure(p, config, parseUrl, sdk).1 == Some(Missing("secret_key"))
    ensures GetString(config, "endpoint").Some? && GetString(config, "access_key").Some?
            && GetString(config, "secret_key").Some? && GetString(config, "bucket").None?
            ==> Configure(p, config, parseUrl, sdk).1 == Some(Missing("bucket"))
  {
    var keys := RequiredKeys;
    assert keys[0] == "endpoint" && keys[1] == "access_key" && keys[2] == "secret_key" && keys[3] == "bucket";
    var m := FirstMissing(config, keys);
    if m.Some? {
      var i :| 0 <= i < |keys| && keys[i] == m.value && GetString(config, keys[i]).None?
               && forall j :: 0 <= j < i ==> GetString(config, keys[j]).Some?;
      assert i == 0 || GetString(config, keys[0]).Some?;
      assert i <= 1 || GetString(config, keys[1]).Some?;
      assert i <= 2 || GetString(config, keys[2]).Some?;
    } else {
      assert GetString(config, keys[0]).Some? && GetString(config, keys[1]).Some?;
      assert GetString(config, keys[2]).Some? && GetString(config, keys[3]).Some?;
    }
  }

  /**
   * The connection settings: a http(s) endpoint gives the host and
   * secure = (scheme is https); any other endpoint is used as written with
   * the `secure` setting, true by default.
   */
  lemma ConfigureEndpoint(p: MinioProvider, config: map<string, Value>, parseUrl: string -> Option<Url>, sdk: Sdk)
    requires Configure(p, config, parseUrl, sdk).1.None?
    ensures var info := Configure(p, config, parseUrl, sdk).0.client.value;
            var raw := GetString(config, "endpoint").value;
            var u := parseUrl(raw);
            && (u.Some? && (u.value.scheme == "http" || u.value.scheme == "https") ==>
                  info.endpoint == u.value.host != "" && info.secure == (u.value.scheme == "https"))
            && (!(u.Some? && (u.value.scheme == "http" || u.value.scheme == "https")) ==>
                  info.endpoint == raw && info.secure == GetBool(config, "secure", true))
            && info.accessKey == GetString(config, "access_key").value
            && info.secretKey == GetString(config, "secret_key").value
  {
  }

  /** The object key: the remote path, under the prefix when one is set (`join` is filepath.Join). */
  function ObjectName(prefix: string, remotePath: string, join: (string, string) -> string): (name: string)
    ensures prefix == "" ==> name == remotePath
    ensures prefix != "" ==> name == join(prefix, remotePath)
  {
    if prefix == "" then remotePath else join(prefix, remotePath)
  }

  /** Upload: refused before a client exists; otherwise the object is put under its name (`putOk` is PutObject's outcome). */
  function Upload(p: MinioProvider, remotePath: string, join: (string, string) -> string, putOk: bool)
    : (r: Result<string, UploadError>)
    ensures p.client.None? <==> r == Err(NotConfigured)
    ensures p.client.Some? && putOk ==> r == Ok(ObjectName(p.prefix, remotePath, join))
    ensures p.client.Some? && !putOk ==> r == Err(PutFailed(ObjectName(p.prefix, remotePath, join)))
  {
    if p.client.None? then Err(NotConfigured)
    else
      var name := ObjectName(p.prefix, remotePath, join);
      if putOk then Ok(name) else Err(PutFailed(name))
  }

  /** A fresh provider refuses to upload; after a successful Configure without a prefix the object is the remote path. */
  lemma UploadNeedsConfigure(config: map<string, Value>, parseUrl: string -> Option<Url>, sdk: Sdk,
                             remotePath: string, join: (string, string) -> string)
    ensures Upload(NewMinioProvider, remotePath, join, true) == Err(NotConfigured)
    ensures var (q, err) := Configure(NewMinioProvider, config, parseUrl, sdk);
            err.None? && GetStringWithDefault(config, "prefix", "") == ""
            ==> Upload(q, remotePath, join, true) == Ok(remotePath)
  {
  }
}
