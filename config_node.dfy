/**
 * The configuration node: it maps the host's node configuration and the
 * credential store's entries to the vendor client's connection settings,
 * and warns when a credential is missing.
 */
module ConfigNode {
  import opened Wrappers
  import opened JsValues

  /** The connection settings handed to the vendor client. */
  datatype ConnectionConfig = ConnectionConfig(
    username: Value,
    password: Value,
    country: Value,
    language: Value,
    trustedDeviceName: Value,
    persistentDir: Value,
    p2pConnectionSetup: Value,
    pollingIntervalMinutes: Value,
    eventDurationSeconds: Value,
    acceptInvitations: bool,
    stationIPAddresses: Value)

  /**
   * The settings built from the node's `config` and its `credentials`
   * (`undefined` when the store holds none). `toNumber` is JavaScript's
   * `Number(...)`, left abstract. The credentials and the locale fields are
   * copied as they are, the three numeric fields go through `toNumber`, and
   * invitations are accepted only for the exact string "true".
   */
  function MapConfig(config: Value, credentials: Value, toNumber: Value -> Value): (c: ConnectionConfig)
    ensures c.username == Get(credentials, "username") && c.password == Get(credentials, "password")
    ensures c.country == Get(config, "country") && c.language == Get(config, "language")
    ensures c.trustedDeviceName == Get(config, "trustedDeviceName")
    ensures c.persistentDir == Undefined && c.stationIPAddresses == Undefined
    ensures c.p2pConnectionSetup == toNumber(Get(config, "p2pConnectionSetup"))
    ensures c.pollingIntervalMinutes == toNumber(Get(config, "pollingIntervalMinutes"))
    ensures c.eventDurationSeconds == toNumber(Get(config, "eventDurationSeconds"))
    ensures c.acceptInvitations <==> Get(config, "acceptInvitations") == Str("true")
  {
    ConnectionConfig(
      Get(credentials, "username"),
      Get(credentials, "password"),
      Get(config, "country"),
      Get(config, "language"),
      Get(config, "trustedDeviceName"),
      Undefined,
      toNumber(Get(config, "p2pConnectionSetup")),
      toNumber(Get(config, "pollingIntervalMinutes")),
      toNumber(Get(config, "eventDurationSeconds")),
      Get(config, "acceptInvitations") == Str("true"),
      Undefined)
  }

  /**
   * Only the string "true" turns invitations on: the boolean `true`, the
   * string "TRUE", a missing field and "false" all leave them off.
   */
  lemma AcceptInvitationsOnlyForExactTrue(config: map<string, Value>, credentials: Value, toNumber: Value -> Value)
    ensures MapConfig(Obj(config["acceptInvitations" := Str("true")]), credentials, toNumber).acceptInvitations
    ensures !MapConfig(Obj(config["acceptInvitations" := Bool(true)]), credentials, toNumber).acceptInvitations
    ensures !MapConfig(Obj(config["acceptInvitations" := Str("TRUE")]), credentials, toNumber).acceptInvitations
    ensures !MapConfig(Obj(config["acceptInvitations" := Str("false")]), credentials, toNumber).acceptInvitations
    ensures !MapConfig(Obj(config - {"acceptInvitations"}), credentials, toNumber).acceptInvitations
  {
  }

  /** The credentials the node requires, in the order it checks them. */
  const CredentialKeys: seq<string> := ["username", "password"]

  /** `xs` is `ys` with some elements left out, the rest kept in order. */
  predicate Sublist(xs: seq<string>, ys: seq<string>)
    decreases |ys|
  {
    if xs == [] then true
    else if ys == [] then false
    else (xs[0] == ys[0] && Sublist(xs[1..], ys[1..])) || Sublist(xs, ys[1..])
  }

  /**
   * `keys.filter(k => !credentials?.[k])`: the keys whose credential is
   * falsy, as an ordered sublist of `keys`.
   */
  function Missing(keys: seq<string>, credentials: Value): (r: seq<string>)
    ensures forall k :: k in r <==> k in keys && !Truthy(Get(credentials, k))
    ensures Sublist(r, keys)
  {
    if keys == [] then []
    else if !Truthy(Get(credentials, keys[0])) then [keys[0]] + Missing(keys[1..], credentials)
    else Missing(keys[1..], credentials)
  }

  /** `parts.join(separator)`. */
  function Join(parts: seq<string>, separator: string): string {
    if parts == [] then ""
    else if |parts| == 1 then parts[0]
    else parts[0] + separator + Join(parts[1..], separator)
  }

  /** The warning the constructor issues, if any. */
  function MissingCredentialsWarning(credentials: Value): (w: Option<string>)
    ensures w.Some? <==> Missing(CredentialKeys, credentials) != []
    ensures w.Some? ==> w.value == "Missing credentials: " + Join(Missing(CredentialKeys, credentials), ", ")
  {
    var missing := Missing(CredentialKeys, credentials);
    if |missing| > 0 then Some("Missing credentials: " + Join(missing, ", ")) else None
  }

  /** A warning is issued exactly when the username or the password is falsy. */
  lemma WarningIffCredentialFalsy(credentials: Value)
    ensures MissingCredentialsWarning(credentials).Some? <==>
      !Truthy(Get(credentials, "username")) || !Truthy(Get(credentials, "password"))
  {
    var m := Missing(CredentialKeys, credentials);
    assert "username" in CredentialKeys && "password" in CredentialKeys;
    assert !Truthy(Get(credentials, "username")) ==> "username" in m;
    assert !Truthy(Get(credentials, "password")) ==> "password" in m;
  }

  /** With no stored credentials at all the warning names both, in order. */
  lemma NoCredentialsWarning()
    ensures MissingCredentialsWarning(Undefined) == Some("Missing credentials: username, password")
  {
    var m := Missing(CredentialKeys, Undefined);
    assert m == ["username"] + Missing(["password"], Undefined);
    assert m == ["username", "password"];
    assert m[1..] == ["password"];
    assert Join(m, ", ") == "username" + ", " + "password";
    assert "Missing credentials: " + ("username" + ", " + "password")
        == "Missing credentials: username, password";
  }

  /** The `eufy-config` node: its connection settings and the warnings it issued. */
  class EufyConfigNode {
    const connectionConfig: ConnectionConfig
    ghost const warnings: seq<string>

    constructor (config: Value, credentials: Value, toNumber: Value -> Value)
      ensures connectionConfig == MapConfig(config, credentials, toNumber)
      ensures warnings == match MissingCredentialsWarning(credentials)
                          case Some(w) => [w]
                          case None => []
    {
      connectionConfig := MapConfig(config, credentials, toNumber);
      var missing := Missing(CredentialKeys, credentials);
      if |missing| > 0 {
        warnings := ["Missing credentials: " + Join(missing, ", ")];
      } else {
        warnings := [];
      }
    }

    /** `getConfig()`: the settings built by the constructor. */
    method GetConfig() returns (c: ConnectionConfig)
      ensures c == connectionConfig
    {
      c := connectionConfig;
    }
  }
}
