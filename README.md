# droidstorm in Dafny

A model of the StackStorm connector and skill for the opsdroid chat-bot
framework (`src/droidstorm`), and proofs of what the code promises.

- `connector.dfy` (module `Connector`): `StackStormConnector`. Pure functions
  derive `name`, `api_version`, `api_url`, `auth_url` and `stream_url` from the
  configuration, which is a map of option names to strings. Then the
  startup check for an auth method runs. `connect` picks the credentials for
  the client and assigns `client`. `listen` builds its subscription list. The
  fields `__init__` sets become `const` fields, and `client` is the one
  mutable field. One quirk is kept as written: `stream_url` is read from the
  `"api_url"` option, so a configured `"stream_url"` is never used.
- `events.dfy` (module `Events`): the event classes. The base class
  `ResourceCUD` and its twelve subclasses are the constructors of
  `CudClass`. Their class-level `resource_type` and `cud` constants are
  functions that give a string, Python's `NotImplemented` (for the base
  class) or a missing attribute (for an `Announcement`). An instance pairs
  its class with the decoded JSON object it was built with.
- `skill.dfy` (module `Skill`): `StackStormActionAliasesSkill`, whose `st2`
  property fills its `_st2` cache on first use. It fills it with the one
  connector named `"droidstorm"` and fails unless exactly one exists.
- `wrappers.dfy` (module `Wrappers`): `Option` and `Result`. `Result` stands
  for the exceptions the source raises: the `KeyError` for a missing
  `base_url`, the `ValueError` of the one-element unpacking, the
  `AttributeError` of reaching `self.client.managers` while `client` is still
  `None` in `listen` (`ListenError.NotConnected`), and exceptions from the
  StackStorm client.

The st2client defaults are written out as st2client defines them: API port
9101, auth port 9100, stream port 9102, API version `"v1"`. Python truthiness of
an option means that it is present and not empty.

The code has no tag parsing, no routing of stream events and no ignore-list
for announcement routes. `listen` never looks at event tags. The model
follows the code, so none of these appear; the only part that exists is the
variant table such a router would target.

## Model

| member | source | states |
|---|---|---|
| `Connector.Derive` | src/droidstorm/connector.py:42-58 | the attributes `__init__` derives from the configuration; it fails with a missing-key error exactly when "base_url" is absent, and otherwise the base URL is the configured one |
| `Connector.HasAuthMethod` | src/droidstorm/connector.py:60-63 | the startup condition: token, api_key or username is truthy, which needs at least one of those options to be present |
| `Connector.StartupErrors` | src/droidstorm/connector.py:60-64 | the messages `__init__` logs: none exactly when an auth method is configured, otherwise the single auth-method error |
| `Connector.NeedsLogin` | src/droidstorm/connector.py:68-69 | the condition of the login branch in connect: token and api_key are both absent or empty |
| `Connector.ConnectedClient` | src/droidstorm/connector.py:68-91 | the client connect assigns: a created token exactly when the login branch is taken, the configured API key, and the derived URLs |
| `Connector.DeriveFollowsConfig` | src/droidstorm/connector.py:42-58 | name defaults to "st2", api_version to st2client's default; api_url and auth_url are the option or base_url:port/version on the API or auth port; stream_url is the "api_url" option or the stream-port default; construction fails only when "base_url" is missing |
| `Connector.StreamUrlFollowsApiUrl` | src/droidstorm/connector.py:50-58 | stream_url equals api_url if and only if "api_url" is configured |
| `Connector.StreamUrlOptionUnused` | src/droidstorm/connector.py:56-58 | setting the "stream_url" option never changes the derived settings |
| `Connector.DeriveIgnoresOtherOptions` | src/droidstorm/connector.py:42-58 | two configurations that agree on name, api_version, base_url, api_url and auth_url give the same settings |
| `Connector.DefaultUrlsDistinct` | src/droidstorm/connector.py:50-58 | with no URL configured, the API, auth and stream URLs are pairwise distinct |
| `Connector.StartupErrorIffNoAuthMethod` | src/droidstorm/connector.py:60-64 | the auth error is logged, once, if and only if token, api_key and username are all falsy; a password alone changes nothing |
| `Connector.ConnectChoosesCredentials` | src/droidstorm/connector.py:66-91 | a token is created from username and password exactly when both token and api_key are falsy; otherwise the configured token is kept; the configured API key is always passed, and the client targets the derived URLs |
| `Connector.StartupErrorPredictsAnonymousLogin` | src/droidstorm/connector.py:60-91 | no startup error if and only if connect uses supplied credentials or logs in with a non-empty username |
| `Connector.StackStormConnector.constructor` | src/droidstorm/connector.py:39-64 | the attributes are the derived settings, client is None, and the auth error is logged without failing construction |
| `Connector.StackStormConnector.Connect` | src/droidstorm/connector.py:66-99 | a failing token creation or whoami call leaves client unchanged; otherwise client becomes the client with the chosen credentials |
| `Connector.StackStormConnector.Listen` | src/droidstorm/connector.py:106-132 | with client set, the subscription is exactly ["st2.announcement__chatops"]; with client None it fails |
| `Events.ClassResourceType` | src/droidstorm/events.py:15-119 | the class-level resource_type: NotImplemented exactly for the base class, otherwise one of the four resource type names |
| `Events.ClassCud` | src/droidstorm/events.py:17-119 | the class-level cud: NotImplemented exactly for the base class, otherwise one of create, update and delete |
| `Events.ClassName` | src/droidstorm/events.py:11-119 | the Python class name, non-empty, and "ResourceCUD" exactly for the base class |
| `Events.NewResourceChange` | src/droidstorm/events.py:19-23 | the instance stores the given decoded object unchanged as its resource, and its attributes are its class's |
| `Events.PairDefinedExactlyForVariants` | src/droidstorm/events.py:11-119 | only the twelve subclasses have a concrete (resource_type, cud) pair, which lies in {ActionAlias, Pack, Execution, ExecutionOutput} x {create, update, delete}; the base class holds NotImplemented for both |
| `Events.VariantFor` | src/droidstorm/events.py:26-119 | every pair of the 4 x 3 product is realised by a variant |
| `Events.PairInjective` | src/droidstorm/events.py:26-119 | distinct classes have distinct (resource_type, cud) pairs |
| `Events.VariantsAreTheProduct` | src/droidstorm/events.py:26-119 | the variant table holds 12 distinct classes, as many as the product has pairs |
| `Events.NameIsCudThenResourceType` | src/droidstorm/events.py:26-119 | each variant's class name is its capitalised cud followed by its resource_type |
| `Events.AnnouncementIsNotAResourceChange` | src/droidstorm/events.py:4-8 | an event is an announcement if and only if it has no resource_type, no cud and no resource |
| `Skill.Named` | src/droidstorm/skill.py:23-28 | the comprehension's matches are exactly the listed connectors with that name |
| `Skill.Unpack` | src/droidstorm/skill.py:23 | the one-element unpacking succeeds with the element if and only if there is exactly one, and fails with too few or too many values otherwise |
| `Skill.SingleMatchHasOnePosition` | src/droidstorm/skill.py:23-28 | a single match is the connector at the only list position holding that name |
| `Skill.OnePositionIsSingleMatch` | src/droidstorm/skill.py:23-28 | a name held at exactly one list position gives exactly that connector |
| `Skill.NoneNamed` | src/droidstorm/skill.py:23-28 | a name no listed connector carries gives no match |
| `Skill.DefaultNamedConnectorsNeverFound` | src/droidstorm/skill.py:27 | connectors configured without a "name" option are named "st2", so the "droidstorm" lookup finds none and fails |
| `Skill.StackStormActionAliasesSkill.constructor` | src/droidstorm/skill.py:15-17 | the cache starts as None |
| `Skill.StackStormActionAliasesSkill.St2` | src/droidstorm/skill.py:19-29 | a filled cache is returned without looking at the connector list; otherwise the unique "droidstorm" connector is cached and returned, and with zero or several the access fails and the cache stays None; only a "droidstorm" connector is ever cached or returned |

## Left out

- The StackStorm client library. Client construction, `tokens.create`, `get_user_info` and the stream manager are foreign network calls. The client is the record of its constructor arguments and token, and whether the two calls in `connect` return normally is an input of `Connect`.
- The body of `listen`'s `while True` loop. It reads the stream over the network and refers to names it never defines. `Listen` models the subscription list only.
- `disconnect`, `respond` and `action_alias`: their bodies are empty.
- The stray non-code line at the end of connector.py, and the two lines of connector.py that are not valid Python (the `auth=(...)` argument of `tokens.create` and the colon after the `listen(...)` call). Their evident meaning is modelled: a login of username and password, and a plain call.
- Two names connector.py uses but never imports: `logging` (line 8) and `Token` (line 86). As written, importing the module would fail at line 8, and the login branch would raise `NameError` before `tokens.create` is called. The model assumes the intended meanings: Python's standard `logging` module, and st2client's `Token` model for the token handed to `tokens.create` (the `Created` token of `Connect`).
- Validation against `CONFIG_SCHEMA`. The voluptuous library is not part of this model. The class constructor requires "base_url" because the schema marks it required; `Derive` still models the `KeyError` when it is missing.
- Configuration values other than strings. `cacert` and `debug` are modelled as absent or a string, standing for their `True`/`False` defaults or a configured value.
- Logging other than the auth error, the opsdroid base classes (`Connector`, `Event`, `Message`, `Skill`) and `register_event`. An `Announcement` keeps only a text and a target of the opsdroid message fields.
- async/await: `connect` and `listen` are modelled as ordinary methods.
- The host's connector classes other than `StackStormConnector`. The skill sees only a connector's name and identity, so the opsdroid connector list is a list of `StackStormConnector` objects.
- JSON floating-point numbers: the decoded document's numbers are integers.
