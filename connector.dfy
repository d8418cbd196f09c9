/**
 * `StackStormConnector` of src/droidstorm/connector.py: how its settings are
 * derived from the opsdroid configuration, the startup check for an auth
 * method, which credentials `connect` hands to the StackStorm client, and the
 * event types `listen` subscribes to.
 *
 * The configuration is a map from option names to strings; an option is
 * "falsy" in Python's sense when it is absent or empty.  The StackStorm client
 * library and the network are outside the model: the client is the record of
 * the arguments it was built with, and whether token creation and the whoami
 * call succeed are inputs of `Connect`.
 */
module Connector {

  import opened Wrappers

  type Config = map<string, string>

  /** The connector's name when the configuration gives none. */
  const DefaultName := "st2"

  /** st2client's DEFAULT_API_VERSION. */
  const DefaultApiVersion := "v1"

  /** st2client's DEFAULT_API_PORT, DEFAULT_AUTH_PORT and DEFAULT_STREAM_PORT,
      written in decimal as the f-strings render them. */
  const DefaultApiPort := "9101"
  const DefaultAuthPort := "9100"
  const DefaultStreamPort := "9102"

  const MissingAuthMethodMessage := "You must define at least one StackStorm auth method."

  /** The only event type `listen` subscribes to. */
  const EventTypes: seq<string> := ["st2.announcement__chatops"]

  /** `config.get(key, default)`. */
  function Get(config: Config, key: string, default: string): string
  {
    if key in config then config[key] else default
  }

  /** `config.get(key)`, which is `None` for a missing key. */
  function Lookup(config: Config, key: string): Option<string>
  {
    if key in config then Some(config[key]) else None
  }

  /** Python truthiness of an optional string. */
  predicate Truthy(v: Option<string>)
  {
    v.Some? && v.value != ""
  }

  /** `f"{base_url}:{port}/{api_version}"`. */
  function ServiceUrl(baseUrl: string, port: string, apiVersion: string): string
  {
    baseUrl + ":" + port + "/" + apiVersion
  }

  /** The attributes `__init__` derives from the configuration. */
  datatype Settings = Settings(
    name: string,
    apiVersion: string,
    baseUrl: string,
    apiUrl: string,
    authUrl: string,
    streamUrl: string)

  /** The `KeyError` of `config["base_url"]`. */
  datatype ConfigError = MissingKey(key: string)

  /** The settings of `__init__`; note that `stream_url` is read from the
      "api_url" option, as the source does. */
  function Derive(config: Config): (r: Result<Settings, ConfigError>)
    ensures r.Failure? <==> "base_url" !in config
    ensures r.Failure? ==> r.error == MissingKey("base_url")
    ensures r.Success? ==> r.value.baseUrl == config["base_url"]
  {
    if "base_url" !in config then
      Failure(MissingKey("base_url"))
    else
      var apiVersion := Get(config, "api_version", DefaultApiVersion);
      var baseUrl := config["base_url"];
      Success(Settings(
        Get(config, "name", DefaultName),
        apiVersion,
        baseUrl,
        Get(config, "api_url", ServiceUrl(baseUrl, DefaultApiPort, apiVersion)),
        Get(config, "auth_url", ServiceUrl(baseUrl, DefaultAuthPort, apiVersion)),
        Get(config, "api_url", ServiceUrl(baseUrl, DefaultStreamPort, apiVersion))))
  }

  /** The startup check: at least one of token, api_key and username is truthy. */
  predicate HasAuthMethod(config: Config)
    ensures HasAuthMethod(config) ==> "token" in config || "api_key" in config || "username" in config
  {
    Truthy(Lookup(config, "token")) || Truthy(Lookup(config, "api_key")) || Truthy(Lookup(config, "username"))
  }

  /** The errors `__init__` logs. */
  function StartupErrors(config: Config): (r: seq<string>)
    ensures r == [] <==> HasAuthMethod(config)
    ensures r != [] ==> r == [MissingAuthMethodMessage]
  {
    if HasAuthMethod(config) then [] else [MissingAuthMethodMessage]
  }

  /** `connect` asks for a new token exactly when neither a token nor an API key is truthy. */
  predicate NeedsLogin(config: Config)
    ensures NeedsLogin(config) ==>
      ("token" in config ==> config["token"] == "") && ("api_key" in config ==> config["api_key"] == "")
  {
    !Truthy(Lookup(config, "token")) && !Truthy(Lookup(config, "api_key"))
  }

  /** The `cacert` argument: a configured path, or `True` (verify certificates). */
  datatype CaCert = VerifyCertificates | CaCertFile(path: string)

  /** The username and password the created token is requested with. */
  datatype Login = Login(username: Option<string>, password: Option<string>)

  /** The client's token: the configured value passed to the client
      constructor, or the `Token()` object handed to `tokens.create`. */
  datatype Token = Supplied(value: Option<string>) | Created(login: Login)

  /** A StackStorm client, as the arguments it was built with and its token. */
  datatype Client = Client(
    apiVersion: string,
    baseUrl: string,
    apiUrl: string,
    authUrl: string,
    streamUrl: string,
    cacert: CaCert,
    debug: Option<string>,
    token: Token,
    apiKey: Option<string>)

  /** Which foreign call raised inside `connect`. */
  datatype ConnectError = TokenCreationFailed | WhoamiFailed

  /** `listen` on a connector whose `client` is still `None`. */
  datatype ListenError = NotConnected

  /** The client `connect` assigns when it succeeds: the closed form that the
      step-by-step body of `StackStormConnector.Connect` is proved equal to. */
  function ConnectedClient(config: Config, s: Settings): (r: Client)
    ensures r.token.Created? <==> NeedsLogin(config)
    ensures r.apiKey == Lookup(config, "api_key")
    ensures r.apiUrl == s.apiUrl && r.authUrl == s.authUrl && r.streamUrl == s.streamUrl
  {
    Client(
      s.apiVersion, s.baseUrl, s.apiUrl, s.authUrl, s.streamUrl,
      if "cacert" in config then CaCertFile(config["cacert"]) else VerifyCertificates,
      Lookup(config, "debug"),
      if NeedsLogin(config) then Created(Login(Lookup(config, "username"), Lookup(config, "password")))
      else Supplied(Lookup(config, "token")),
      Lookup(config, "api_key"))
  }

  /** Every derived attribute follows its option, falling back to the default
      the source gives; `__init__` fails only when "base_url" is missing. */
  lemma DeriveFollowsConfig(config: Config)
    ensures Derive(config).Failure? <==> "base_url" !in config
    ensures Derive(config).Failure? ==> Derive(config).error == MissingKey("base_url")
    ensures Derive(config).Success? ==>
      var s := Derive(config).value;
      && s.baseUrl == config["base_url"]
      && s.name == (if "name" in config then config["name"] else DefaultName)
      && s.apiVersion == (if "api_version" in config then config["api_version"] else DefaultApiVersion)
      && s.apiUrl == (if "api_url" in config then config["api_url"] else ServiceUrl(s.baseUrl, DefaultApiPort, s.apiVersion))
      && s.authUrl == (if "auth_url" in config then config["auth_url"] else ServiceUrl(s.baseUrl, DefaultAuthPort, s.apiVersion))
      && s.streamUrl == (if "api_url" in config then config["api_url"] else ServiceUrl(s.baseUrl, DefaultStreamPort, s.apiVersion))
  {
  }

  /** Two service URLs on the same base and version but different ports of
      equal length differ. */
  lemma ServiceUrlsDifferByPort(baseUrl: string, p: string, q: string, apiVersion: string)
    requires |p| == |q| && p != q
    ensures ServiceUrl(baseUrl, p, apiVersion) != ServiceUrl(baseUrl, q, apiVersion)
  {
    var k :| 0 <= k < |p| && p[k] != q[k];
    var i := |baseUrl| + 1 + k;
    assert ServiceUrl(baseUrl, p, apiVersion)[i] == p[k];
    assert ServiceUrl(baseUrl, q, apiVersion)[i] == q[k];
  }

  /** The `stream_url` quirk: the stream URL equals the API URL exactly when
      "api_url" is configured; otherwise it is the default on the stream port. */
  lemma StreamUrlFollowsApiUrl(config: Config)
    requires "base_url" in config
    ensures Derive(config).value.streamUrl == Derive(config).value.apiUrl <==> "api_url" in config
  {
    var s := Derive(config).value;
    if "api_url" !in config {
      ServiceUrlsDifferByPort(s.baseUrl, DefaultApiPort, DefaultStreamPort, s.apiVersion);
    }
  }

  /** With none of the URLs configured, the three default URLs are pairwise distinct. */
  lemma DefaultUrlsDistinct(config: Config)
    requires "base_url" in config && "api_url" !in config && "auth_url" !in config
    ensures var s := Derive(config).value;
      s.apiUrl != s.authUrl && s.apiUrl != s.streamUrl && s.authUrl != s.streamUrl
  {
    var s := Derive(config).value;
    ServiceUrlsDifferByPort(s.baseUrl, DefaultApiPort, DefaultAuthPort, s.apiVersion);
    ServiceUrlsDifferByPort(s.baseUrl, DefaultApiPort, DefaultStreamPort, s.apiVersion);
    ServiceUrlsDifferByPort(s.baseUrl, DefaultAuthPort, DefaultStreamPort, s.apiVersion);
  }

  /** The options `__init__` reads for its settings. */
  const SettingsKeys: set<string> := {"name", "api_version", "base_url", "api_url", "auth_url"}

  /** Both maps lack `key`, or both hold the same value for it. */
  predicate AgreeOn(c: Config, d: Config, key: string)
  {
    Lookup(c, key) == Lookup(d, key)
  }

  /** The settings depend on the options in SettingsKeys only; in particular a
      configured "stream_url" is never used. */
  lemma DeriveIgnoresOtherOptions(c: Config, d: Config)
    requires forall key :: key in SettingsKeys ==> AgreeOn(c, d, key)
    ensures Derive(c) == Derive(d)
  {
  }

  /** A configured "stream_url" has no effect on the derived settings. */
  lemma StreamUrlOptionUnused(config: Config, url: string)
    ensures Derive(config["stream_url" := url]) == Derive(config)
  {
  }

  /** The startup error is logged exactly when no auth method is configured,
      and a password alone does not count as one. */
  lemma StartupErrorIffNoAuthMethod(config: Config, password: string)
    ensures StartupErrors(config) != [] <==>
      !Truthy(Lookup(config, "token")) && !Truthy(Lookup(config, "api_key")) && !Truthy(Lookup(config, "username"))
    ensures StartupErrors(config) == [] || StartupErrors(config) == [MissingAuthMethodMessage]
    ensures StartupErrors(config["password" := password]) == StartupErrors(config - {"password"})
  {
  }

  /** `connect` hands the supplied token and API key to the client unchanged
      unless both are falsy, and only then creates a token from the
      configured username and password; the API key is passed as configured
      in both cases, and the client targets the derived URLs. */
  lemma ConnectChoosesCredentials(config: Config, s: Settings)
    ensures var c := ConnectedClient(config, s);
      && (c.token.Created? <==> !Truthy(Lookup(config, "token")) && !Truthy(Lookup(config, "api_key")))
      && (c.token.Supplied? ==> c.token.value == Lookup(config, "token"))
      && (c.token.Created? ==> c.token.login == Login(Lookup(config, "username"), Lookup(config, "password")))
      && c.apiKey == Lookup(config, "api_key")
      && c.apiUrl == s.apiUrl && c.authUrl == s.authUrl && c.streamUrl == s.streamUrl
      && c.baseUrl == s.baseUrl && c.apiVersion == s.apiVersion
  {
  }

  /** The startup check and `connect` agree: a connector that logged no startup
      error either uses supplied credentials or logs in with a non-empty
      username, and one that logged the error logs in without a username. */
  lemma StartupErrorPredictsAnonymousLogin(config: Config, s: Settings)
    ensures var c := ConnectedClient(config, s);
      StartupErrors(config) == [] <==> c.token.Supplied? || Truthy(c.token.login.username)
  {
  }

  class StackStormConnector {
    const config: Config
    const name: string
    const apiVersion: string
    const baseUrl: string
    const apiUrl: string
    const authUrl: string
    const streamUrl: string
    /** The error messages `__init__` logged. */
    const loggedErrors: seq<string>
    var client: Option<Client>

    /** The attributes are those derived from the configuration. */
    ghost predicate Valid()
    {
      Derive(config) == Success(Settings(name, apiVersion, baseUrl, apiUrl, authUrl, streamUrl))
    }

    function CurrentSettings(): Settings
    {
      Settings(name, apiVersion, baseUrl, apiUrl, authUrl, streamUrl)
    }

    /** `__init__`: derives the settings, leaves the client unset and logs an
        error, without failing, when no auth method is configured.  "base_url"
        is required by the configuration schema. */
    constructor (config: Config)
      requires "base_url" in config
      ensures this.config == config && Valid()
      ensures client == None
      ensures loggedErrors == StartupErrors(config)
    {
      var s := Derive(config).value;
      this.config := config;
      name := s.name;
      apiVersion := s.apiVersion;
      baseUrl := s.baseUrl;
      apiUrl := s.apiUrl;
      authUrl := s.authUrl;
      streamUrl := s.streamUrl;
      var token := Lookup(config, "token");
      var apiKey := Lookup(config, "api_key");
      var username := Lookup(config, "username");
      if !Truthy(token) && !Truthy(apiKey) && !Truthy(username) {
        loggedErrors := [MissingAuthMethodMessage];
      } else {
        loggedErrors := [];
      }
      client := None;
    }

    /** `connect`: builds the client, creates a token only when no token or
        API key is supplied, checks auth with whoami, and only then assigns
        `client`.  `tokenCreated` and `whoamiOk` say whether the two foreign
        calls return normally; when one raises, `client` is left as it was. */
    method Connect(tokenCreated: bool, whoamiOk: bool) returns (r: Result<Client, ConnectError>)
      modifies this
      ensures NeedsLogin(config) && !tokenCreated ==> r == Failure(TokenCreationFailed)
      ensures (!NeedsLogin(config) || tokenCreated) && !whoamiOk ==> r == Failure(WhoamiFailed)
      ensures (!NeedsLogin(config) || tokenCreated) && whoamiOk ==> r == Success(ConnectedClient(config, CurrentSettings()))
      ensures client == if r.Success? then Some(r.value) else old(client)
    {
      var token := Lookup(config, "token");
      var apiKey := Lookup(config, "api_key");
      var c := Client(
        apiVersion, baseUrl, apiUrl, authUrl, streamUrl,
        if "cacert" in config then CaCertFile(config["cacert"]) else VerifyCertificates,
        Lookup(config, "debug"),
        Supplied(token),
        apiKey);
      if !Truthy(token) && !Truthy(apiKey) {
        var login := Login(Lookup(config, "username"), Lookup(config, "password"));
        if !tokenCreated {
          return Failure(TokenCreationFailed);
        }
        c := c.(token := Created(login));
      }
      if !whoamiOk {
        return Failure(WhoamiFailed);
      }
      client := Some(c);
      r := Success(c);
    }

    /** The subscription `listen` requests: the fixed event types, or the
        failure of reaching through an unset `client`. */
    method Listen() returns (r: Result<seq<string>, ListenError>)
      ensures r.Success? <==> client.Some?
      ensures r.Success? ==> r.value == EventTypes
      ensures r.Failure? ==> r.error == NotConnected
    {
      if client.None? {
        return Failure(NotConnected);
      }
      r := Success(EventTypes);
    }
  }
}
