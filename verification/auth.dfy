/** `AuthService` (packages/core/src/services/auth.ts): a signing secret
    cached in the object and kept in the `system_config` table, the MCP
    token stored beside it, and stream tokens whose `sub` claim is the
    stream id (sections 4.1.1-4.1.2 of RFC 7519), signed with HMAC SHA-512
    ("HS512", section 3.2 of RFC 7518). The JWT library is abstract. */
module Auth {
  import opened Wrappers
  import opened Json
  import opened Tables

  const Issuer := "loghead"
  const Algorithm := "HS512"
  const SecretKeyName := "jwt_secret"
  const McpTokenName := "mcp_token"

  /** `jwt.sign(payload, secret, { algorithm })` and `jwt.verify(token,
      secret, { issuer: "loghead", algorithms: ["HS512"] })`; `None` is the
      error `verify` throws. */
  datatype Jwt = Jwt(sign: (Value, string, string) -> string,
                     verify: (string, string) -> Option<Value>)

  /** What the service relies on from the library: a payload with issuer
      "loghead" signed with HS512 verifies under the same secret and keeps
      its `sub`; every accepted payload has issuer "loghead"; a token is
      never empty. */
  ghost predicate Sound(jwt: Jwt) {
    && (forall p, secret :: Field(p, "iss") == Str(Issuer) ==>
          && jwt.verify(jwt.sign(p, secret, Algorithm), secret).Some?
          && Field(jwt.verify(jwt.sign(p, secret, Algorithm), secret).value, "sub") == Field(p, "sub"))
    && (forall t, secret :: jwt.verify(t, secret).Some? ==>
          Field(jwt.verify(t, secret).value, "iss") == Str(Issuer))
    && (forall p, secret, alg :: jwt.sign(p, secret, alg) != "")
  }

  /** `{ sub: "system:mcp", iss: "loghead", role: "admin" }`. */
  const McpClaims := Obj([Member("sub", Str("system:mcp")), Member("iss", Str(Issuer)),
                          Member("role", Str("admin"))])

  /** `{ sub: streamId, iss: "loghead" }`. */
  function StreamClaims(streamId: string): Value {
    Obj([Member("sub", Str(streamId)), Member("iss", Str(Issuer))])
  }

  /** `row?.value` for a key of `system_config`, read as a condition. */
  predicate StoredTruthy(config: map<string, string>, key: string) {
    key in config && config[key] != ""
  }

  /** What `initialize()` does to the cached secret and to `system_config`.
      A truthy cached secret returns at once; else a truthy stored secret is
      taken; else `random` is inserted, which fails if the key is there with
      an empty value. The result is the secret now cached, or the error. */
  function Initialized(cached: Option<string>, config: map<string, string>, random: string)
    : (r: (Result<string>, map<string, string>))
    requires random != ""
    ensures r.0.Ok? ==> r.0.value != ""
    ensures r.1 == config || (SecretKeyName !in config && r.1 == config[SecretKeyName := random])
    ensures cached.Some? && cached.value != "" ==> r == (Ok(cached.value), config)
    ensures r.0.Ok? && !(cached.Some? && cached.value != "") ==>
              SecretKeyName in r.1 && r.1[SecretKeyName] == r.0.value
  {
    if cached.Some? && cached.value != "" then (Ok(cached.value), config)
    else if StoredTruthy(config, SecretKeyName) then (Ok(config[SecretKeyName]), config)
    else if SecretKeyName in config then (Err(ConfigKeyTaken), config)
    else (Ok(random), config[SecretKeyName := random])
  }

  /** After one successful `initialize()`, a second one changes nothing. */
  lemma {:induction false} InitializeOnce(cached: Option<string>, config: map<string, string>, random: string, random2: string)
    requires random != "" && random2 != ""
    requires Initialized(cached, config, random).0.Ok?
    ensures var (secret, config') := Initialized(cached, config, random);
            Initialized(Some(secret.value), config', random2) == (secret, config')
  {
  }

  /** Without a cached secret, a stored one is reused and no row is written;
      only when the key is absent is exactly one row inserted. */
  lemma {:induction false} InitializeReusesStoredSecret(config: map<string, string>, random: string)
    requires random != ""
    ensures StoredTruthy(config, SecretKeyName) ==>
              Initialized(None, config, random) == (Ok(config[SecretKeyName]), config)
    ensures SecretKeyName !in config ==>
              Initialized(None, config, random) == (Ok(random), config[SecretKeyName := random])
              && |config[SecretKeyName := random].Keys| == |config.Keys| + 1
  {
    if SecretKeyName !in config {
      assert config[SecretKeyName := random].Keys == config.Keys + {SecretKeyName};
    }
  }

  /** `verifyToken` once the library has answered: the `sub` of an accepted
      payload when it is truthy, else nothing. */
  function Verified(jwt: Jwt, secret: string, token: string): (r: Option<Value>)
    ensures r.Some? ==> Truthy(r.value)
    ensures r.Some? <==> jwt.verify(token, secret).Some? && Truthy(Field(jwt.verify(token, secret).value, "sub"))
  {
    match jwt.verify(token, secret)
    case None => None
    case Some(payload) =>
      var sub := Field(payload, "sub");
      if Truthy(sub) then Some(sub) else None
  }

  /** A stream token verifies to its own stream id. */
  lemma {:induction false} StreamTokenRoundTrip(jwt: Jwt, secret: string, streamId: string)
    requires Sound(jwt) && streamId != ""
    ensures Verified(jwt, secret, jwt.sign(StreamClaims(streamId), secret, Algorithm)) == Some(Str(streamId))
  {
    var claims := StreamClaims(streamId);
    var ms := claims.members;
    assert ms[..1] == [Member("sub", Str(streamId))];
    assert "iss" != "sub" by { assert "iss"[0] != "sub"[0]; }
    assert Get(ms, "sub") == Get(ms[..1], "sub");
  }

  /** The MCP token also verifies, as the stream "system:mcp". */
  lemma {:induction false} McpTokenVerifies(jwt: Jwt, secret: string)
    requires Sound(jwt)
    ensures Verified(jwt, secret, jwt.sign(McpClaims, secret, Algorithm)) == Some(Str("system:mcp"))
  {
    var ms := McpClaims.members;
    assert ms[..2] == [Member("sub", Str("system:mcp")), Member("iss", Str(Issuer))];
    assert ms[..2][..1] == [Member("sub", Str("system:mcp"))];
    assert "role"[0] != "iss"[0] && "role"[0] != "sub"[0] && "iss"[0] != "sub"[0];
    assert Get(ms, "iss") == Get(ms[..2], "iss") == Str(Issuer);
    assert Get(ms, "sub") == Get(ms[..2], "sub") == Get(ms[..2][..1], "sub");
  }

  class AuthService {
    const db: Database
    const jwt: Jwt
    var secretKey: Option<string>

    constructor (db: Database, jwt: Jwt)
      ensures this.db == db && this.jwt == jwt && secretKey == None
    {
      this.db := db;
      this.jwt := jwt;
      secretKey := None;
    }

    /** `initialize()`; `random` is what `randomBytes(64).toString('hex')`
        gives, 128 hexadecimal digits. */
    method Initialize(random: string) returns (r: Result<string>)
      requires db.Valid() && random != ""
      modifies this`secretKey, db`config
      ensures db.Valid()
      ensures (r, db.config) == Initialized(old(secretKey), old(db.config), random)
      ensures secretKey == if r.Ok? then Some(r.value) else old(secretKey)
    {
      if secretKey.Some? && secretKey.value != "" {
        return Ok(secretKey.value);
      }
      var raw := if SecretKeyName in db.config then db.config[SecretKeyName] else "";
      if raw == "" {
        raw := random;
        var inserted := db.InsertConfig(SecretKeyName, raw);
        if inserted.Err? {
          return Err(inserted.error);
        }
      }
      secretKey := Some(raw);
      return Ok(raw);
    }

    /** `getOrCreateMcpToken()`: the stored MCP token when there is one,
        else a new one signed with the secret, stored and returned. */
    method GetOrCreateMcpToken(random: string) returns (r: Result<string>)
      requires db.Valid() && random != "" && Sound(jwt)
      modifies this`secretKey, db`config
      ensures db.Valid()
      ensures var (init, config') := Initialized(old(secretKey), old(db.config), random);
        && (init.Err? ==> r == Err(init.error) && db.config == config')
        && (init.Ok? && StoredTruthy(config', McpTokenName) ==>
              r == Ok(config'[McpTokenName]) && db.config == config')
        && (init.Ok? && McpTokenName !in config' ==>
              var token := jwt.sign(McpClaims, init.value, Algorithm);
              r == Ok(token) && db.config == config'[McpTokenName := token])
        && (init.Ok? && McpTokenName in config' && config'[McpTokenName] == "" ==>
              r.Err? && db.config == config')
      ensures r.Ok? ==> StoredTruthy(db.config, McpTokenName) && db.config[McpTokenName] == r.value
    {
      var secret := Initialize(random);
      if secret.Err? {
        return Err(secret.error);
      }
      if StoredTruthy(db.config, McpTokenName) {
        return Ok(db.config[McpTokenName]);
      }
      var token := jwt.sign(McpClaims, secret.value, Algorithm);
      var inserted := db.InsertConfig(McpTokenName, token);
      if inserted.Err? {
        return Err(inserted.error);
      }
      return Ok(token);
    }

    /** `createStreamToken(streamId)`: signs the stream's claims; apart
        from what `initialize()` may write, the table is untouched. */
    method CreateStreamToken(streamId: string, random: string) returns (r: Result<string>)
      requires db.Valid() && random != ""
      modifies this`secretKey, db`config
      ensures db.Valid()
      ensures var (init, config') := Initialized(old(secretKey), old(db.config), random);
        && db.config == config'
        && r == (if init.Ok? then Ok(jwt.sign(StreamClaims(streamId), init.value, Algorithm)) else Err(init.error))
        && secretKey == (if init.Ok? then Some(init.value) else old(secretKey))
    {
      var secret := Initialize(random);
      if secret.Err? {
        return Err(secret.error);
      }
      return Ok(jwt.sign(StreamClaims(streamId), secret.value, Algorithm));
    }

    /** `verifyToken(token)`: `{ streamId: sub }` as `Some(sub)`, `null` as
        `None`; a library error is caught and gives `None`. */
    method VerifyToken(token: string, random: string) returns (r: Result<Option<Value>>)
      requires db.Valid() && random != ""
      modifies this`secretKey, db`config
      ensures db.Valid()
      ensures var (init, config') := Initialized(old(secretKey), old(db.config), random);
        && db.config == config'
        && r == (if init.Ok? then Ok(Verified(jwt, init.value, token)) else Err(init.error))
        && secretKey == (if init.Ok? then Some(init.value) else old(secretKey))
    {
      var secret := Initialize(random);
      if secret.Err? {
        return Err(secret.error);
      }
      return Ok(Verified(jwt, secret.value, token));
    }
  }
}
