/** `MDSClient`: merge the configuration with the keyword arguments, pick
    the authentication method and the version client, install the
    configured headers, authenticate, and delegate `get_trips`. */
module Client {
  import opened Results
  import opened Configuration
  import opened Retry
  import opened ClientBase
  import opened Shaping
  import opened Pagination
  import opened Auth

  const DefaultVersion := "0.2.0"
  const AcceptPrefix := "application/vnd.mds.provider+json;version="

  /** The version-to-class table of `load_mds_client`. */
  const VersionTable: map<string, ClientClass> := map["0.2.0" := Mds020, "0.3.0" := Mds030, "0.4.0" := Mds040]

  /** `load_mds_client`: the custom class whenever one is given, else the
      table entry for the version, else `None`. A dictionary cannot be a
      table key. */
  function LoadMdsClient(version: Value, custom: Value): (r: Result<Value>)
    ensures custom != Null ==> r == Ok(custom)
    ensures custom == Null && version.Str? && version.s in VersionTable ==> r == Ok(ClientRef(VersionTable[version.s]))
    ensures custom == Null && !(version.Str? && version.s in VersionTable) ==>
              (r.Ok? <==> !version.Dict?) && (r.Ok? ==> r.value == Null)
  {
    if custom != Null then Ok(custom)
    else if version.Dict? then Err(WrongType("version"))
    else if version.Str? && version.s in VersionTable then Ok(ClientRef(VersionTable[version.s]))
    else Ok(Null)
  }

  /** Calling what `load_mds_client` returned: only a class can be called. */
  function Instantiate(ref: Value): (r: Result<ClientClass>)
    ensures r.Ok? <==> ref.ClientRef?
    ensures r.Ok? ==> r.value == ref.cls
  {
    if ref.ClientRef? then Ok(ref.cls) else Err(NotCallable("mds client class"))
  }

  /** The `param_schema` each class starts with; the 0.3.0 class is not part
      of this model, so its table is given. */
  function SchemaOf(cls: ClientClass, schema030: Schema): Schema {
    match cls
    case Mds020 => Schema020
    case Mds030 => schema030
    case Mds040 => Schema040
  }

  /** `version[:3]`. */
  function Prefix3(s: string): (r: string)
    ensures |r| == if |s| < 3 then |s| else 3
    ensures r <= s
  {
    if |s| <= 3 then s else s[..3]
  }

  /** `_load_custom_headers`: each entry of the `headers` dictionary set with
      `set_header`; anything but a dictionary has no `items()`. */
  function LoadCustomHeaders(b: Base, headers: Value): (r: Result<Base>)
    ensures r.Ok? <==> headers.Dict?
    ensures r.Ok? ==> r.value.headers.Keys == b.headers.Keys + headers.entries.Keys
    ensures r.Ok? ==> forall k :: k in headers.entries ==> r.value.headers[k] == headers.entries[k]
    ensures r.Ok? ==> forall k :: k in b.headers && k !in headers.entries ==> r.value.headers[k] == b.headers[k]
    ensures r.Ok? ==> r.value.(headers := b.headers) == b
  {
    if headers.Dict? then Ok(b.(headers := Overlay(b.headers, headers.entries))) else Err(WrongType("headers"))
  }

  /** The header set `_authenticate` ends with: the `Accept` header over the
      existing ones, then the authentication headers over both. */
  predicate FinalHeaders(before: Headers, accept: string, auth: Headers, after: Headers) {
    && after.Keys == before.Keys + {"Accept"} + auth.Keys
    && (forall k :: k in auth ==> after[k] == auth[k])
    && ("Accept" !in auth ==> after["Accept"] == accept)
    && (forall k :: k in before && k !in auth && k != "Accept" ==> after[k] == before[k])
  }

  /** The second half of `_authenticate`: with truthy authentication headers,
      set `Accept` from the version's first three characters, then render
      the settings with the authentication headers; otherwise change nothing. */
  function ApplyAuthentication(b: Base, version: Value, auth: Option<Headers>): (r: Result<(Base, bool)>)
    ensures auth.None? || auth.value == map[] ==> r == Ok((b, false))
    ensures auth.Some? && auth.value != map[] ==> (r.Ok? <==> version.Str?)
    ensures r.Ok? && r.value.1 ==>
              && auth.Some? && version.Str?
              && FinalHeaders(b.headers, AcceptPrefix + Prefix3(version.s), auth.value, r.value.0.headers)
              && r.value.0.schema == ApplyOverrides(b.schema, GetOr(b.config, "mds_param_override", Null))
              && r.value.0.(headers := b.headers, schema := b.schema) == b
  {
    if auth.None? || auth.value == map[] then Ok((b, false))
    else if !version.Str? then Err(WrongType("version"))
    else Ok((RenderSettings(SetHeader(b, "Accept", AcceptPrefix + Prefix3(version.s)), auth.value), true))
  }

  datatype Client = Client(
    config: Config,
    provider: Value,
    version: Value,
    kind: AuthKind,
    cls: ClientClass,
    authHeaders: Option<Headers>,
    authenticated: bool,
    base: Base)

  /** What `MDSClient.__init__` has built before it authenticates. */
  datatype Setup = Setup(kind: AuthKind, version: Value, cls: ClientClass, base: Base)

  /** The version `__init__` reads, "0.2.0" when none is configured. */
  function VersionOf(merged: Config): Value {
    GetOr(merged, "version", Str(DefaultVersion))
  }

  /** What `load_mds_client` returns for the merged configuration. */
  function ClassFor(merged: Config): Result<Value> {
    LoadMdsClient(VersionOf(merged), GetOr(merged, "custom_client", Null))
  }

  /** A setup agrees with the configuration: the method `MDSAuth` selects,
      the class `load_mds_client` returns, the settings `MDSClientBase`
      reads, and exactly the configured headers. */
  predicate Prepared(merged: Config, schema030: Schema, s: Setup) {
    && SelectAuth(merged) == Ok(s.kind)
    && s.version == VersionOf(merged)
    && ClassFor(merged) == Ok(ClientRef(s.cls))
    && NewBase(merged, SchemaOf(s.cls, schema030)) == Ok(s.base.(headers := map[]))
    && GetOr(merged, "headers", Dict(map[])).Dict?
    && s.base.headers == GetOr(merged, "headers", Dict(map[])).entries
  }

  /** The first half of `MDSClient.__init__` on the merged configuration:
      the authentication method, the version client, its settings and the
      configured headers, in that order; the first step that raises ends it. */
  function Prepare(merged: Config, schema030: Schema): (r: Result<Setup>)
    ensures r.Ok? ==> Prepared(merged, schema030, r.value)
    ensures SelectAuth(merged).Err? ==> r == Err(SelectAuth(merged).error)
    ensures SelectAuth(merged).Ok? && ClassFor(merged).Err? ==> r == Err(WrongType("version"))
    ensures SelectAuth(merged).Ok? && ClassFor(merged).Ok? && !ClassFor(merged).value.ClientRef? ==>
              r == Err(NotCallable("mds client class"))
    ensures && SelectAuth(merged).Ok?
            && GetOr(merged, "custom_client", Null) == Null
            && VersionOf(merged).Str? && VersionOf(merged).s !in VersionTable
            ==> r.Err?
    ensures && SelectAuth(merged).Ok? && ClassFor(merged).Ok? && ClassFor(merged).value.ClientRef?
            && NewBase(merged, SchemaOf(ClassFor(merged).value.cls, schema030)).Err?
            ==> r == Err(NewBase(merged, SchemaOf(ClassFor(merged).value.cls, schema030)).error)
    ensures && SelectAuth(merged).Ok? && ClassFor(merged).Ok? && ClassFor(merged).value.ClientRef?
            && NewBase(merged, SchemaOf(ClassFor(merged).value.cls, schema030)).Ok?
            ==> (r.Ok? <==> GetOr(merged, "headers", Dict(map[])).Dict?)
  {
    var version := VersionOf(merged);
    var kind :- SelectAuth(merged);
    var ref :- LoadMdsClient(version, GetOr(merged, "custom_client", Null));
    var cls :- Instantiate(ref);
    var initial :- NewBase(merged, SchemaOf(cls, schema030));
    var withHeaders :- LoadCustomHeaders(initial, GetOr(merged, "headers", Dict(map[])));
    Ok(Setup(kind, version, cls, withHeaders))
  }

  /** The end of `MDSClient.__init__` once `authenticate()` has returned:
      `_authenticate` installs the headers it got, if any, and the client
      keeps the setup's method, class and version. */
  function Finish(merged: Config, setup: Setup, auth: Option<Headers>): (c: Result<Client>)
    ensures auth.Some? && auth.value != map[] && !setup.version.Str? ==> c == Err(WrongType("version"))
    ensures c.Ok? ==> && c.value.config == merged
                      && c.value.kind == setup.kind
                      && c.value.cls == setup.cls
                      && c.value.version == setup.version
                      && c.value.provider == GetOr(merged, "provider", Null)
                      && c.value.authHeaders == auth
    ensures c.Ok? ==> (c.value.authenticated <==> auth.Some? && auth.value != map[])
    ensures !(auth.Some? && auth.value != map[]) ==> c.Ok? && c.value.base == setup.base
    ensures c.Ok? && c.value.authenticated ==>
              && setup.version.Str?
              && auth.Some?
              && FinalHeaders(setup.base.headers, AcceptPrefix + Prefix3(setup.version.s), auth.value, c.value.base.headers)
              && c.value.base.schema == ApplyOverrides(setup.base.schema, GetOr(setup.base.config, "mds_param_override", Null))
              && c.value.base.(headers := setup.base.headers, schema := setup.base.schema) == setup.base
  {
    var applied :- ApplyAuthentication(setup.base, setup.version, auth);
    Ok(Client(merged, GetOr(merged, "provider", Null), setup.version, setup.kind, setup.cls, auth, applied.1, applied.0))
  }

  /** `MDSClient.__init__`. The custom authentication function and the answer
      of the OAuth token endpoint are inputs. Construction stops at the first
      step that raises: the setup, then `authenticate()`, then the `Accept`
      header. */
  function Connect(config: Config, kwargs: Config, customAuth: Option<CustomAuth>,
                   tokenResponse: map<string, Value>, schema030: Schema): (c: Result<Client>)
    ensures var p := Prepare(Overlay(config, kwargs), schema030);
            p.Err? ==> c == Err(p.error)
    ensures var merged := Overlay(config, kwargs);
            var p := Prepare(merged, schema030);
            p.Ok? && Authenticate(p.value.kind, merged, tokenResponse, customAuth).result.Err? ==>
              c == Err(Authenticate(p.value.kind, merged, tokenResponse, customAuth).result.error)
    ensures var merged := Overlay(config, kwargs);
            var p := Prepare(merged, schema030);
            && p.Ok? && Authenticate(p.value.kind, merged, tokenResponse, customAuth).result.Ok?
            && (var auth := Authenticate(p.value.kind, merged, tokenResponse, customAuth).result.value;
                auth.Some? && auth.value != map[] && !p.value.version.Str?)
            ==> c == Err(WrongType("version"))
    ensures var merged := Overlay(config, kwargs);
            var p := Prepare(merged, schema030);
            p.Ok? && Authenticate(p.value.kind, merged, tokenResponse, customAuth).result.Ok? ==>
              c == Finish(merged, p.value, Authenticate(p.value.kind, merged, tokenResponse, customAuth).result.value)
    ensures c.Ok? ==> && c.value.config == Overlay(config, kwargs)
                      && Prepare(c.value.config, schema030).Ok?
                      && c.value.kind == Prepare(c.value.config, schema030).value.kind
                      && c.value.cls == Prepare(c.value.config, schema030).value.cls
                      && c.value.version == Prepare(c.value.config, schema030).value.version
                      && c.value.provider == GetOr(c.value.config, "provider", Null)
                      && Authenticate(c.value.kind, c.value.config, tokenResponse, customAuth).result == Ok(c.value.authHeaders)
    ensures c.Ok? ==> (c.value.authenticated <==> c.value.authHeaders.Some? && c.value.authHeaders.value != map[])
    ensures c.Ok? && !c.value.authenticated ==> c.value.base == Prepare(c.value.config, schema030).value.base
    ensures c.Ok? && c.value.authenticated ==>
              var before := Prepare(c.value.config, schema030).value.base;
              && c.value.version.Str?
              && c.value.authHeaders.Some?
              && FinalHeaders(before.headers, AcceptPrefix + Prefix3(c.value.version.s), c.value.authHeaders.value, c.value.base.headers)
              && c.value.base.schema == ApplyOverrides(before.schema, GetOr(c.value.config, "mds_param_override", Null))
              && c.value.base.(headers := before.headers, schema := before.schema) == before
  {
    var merged := Overlay(config, kwargs);
    var setup :- Prepare(merged, schema030);
    var authHeaders :- Authenticate(setup.kind, merged, tokenResponse, customAuth).result;
    Finish(merged, setup, authHeaders)
  }

  /** The configuration of a bearer client for version 0.4.0 with no other
      settings. */
  function Bearer040Config(token: string): Config {
    map["auth_type" := Str("Bearer"), "token" := Str(token), "version" := Str("0.4.0")]
  }

  /** Its setup: the bearer method, the 0.4.0 class and the default settings. */
  function Bearer040Setup(token: string): Setup {
    Setup(Bearer, Str("0.4.0"), Mds040,
          Base(Bearer040Config(token), map[], map[], Schema040, "None", Bool(true), Int(0), Null, DefaultMaxAttempts))
  }

  /** The first half of `__init__` on that configuration yields that setup. */
  lemma PrepareBearer040(token: string, schema030: Schema)
    ensures Prepare(Bearer040Config(token), schema030) == Ok(Bearer040Setup(token))
  {
    var config := Bearer040Config(token);
    assert Lower("Bearer") == "bearer";
    assert SelectAuth(config) == Ok(Bearer);
    assert ClassFor(config) == Ok(ClientRef(Mds040));
    NewBaseBearer040(token);
    assert GetOr(config, "headers", Dict(map[])) == Dict(map[]);
    assert Overlay<string>(map[], map[]) == map[];
  }

  /** The settings `MDSClientBase` reads from that configuration are the
      defaults. */
  lemma NewBaseBearer040(token: string)
    ensures NewBase(Bearer040Config(token), Schema040) == Ok(Bearer040Setup(token).base)
  {
    var config := Bearer040Config(token);
    assert GetOr(config, "mds_api_url", Null) == Null;
    assert GetOr(config, "max_attempts", Int(DefaultMaxAttempts)) == Int(DefaultMaxAttempts);
    assert GetOr(config, "paging", Bool(true)) == Bool(true);
    assert GetOr(config, "delay", Int(0)) == Int(0);
    assert GetOr(config, "interval", Null) == Null;
  }

  /** Bearer authentication on that configuration returns the token's header. */
  lemma AuthenticateBearer040(token: string)
    ensures Authenticate(Bearer, Bearer040Config(token), map[], None).result == Ok(Some(BearerHeader(token)))
  {
    assert BearerLogin(Bearer040Config(token)) == Ok(BearerHeader(token));
  }

  /** Installing the token's header on that setup leaves exactly `Accept` and
      `Authorization`. */
  lemma FinishBearer040(token: string)
    ensures var c := Finish(Bearer040Config(token), Bearer040Setup(token), Some(BearerHeader(token)));
            && c.Ok? && c.value.authenticated
            && c.value.base.headers == map["Accept" := AcceptPrefix + "0.4", "Authorization" := BearerPrefix + token]
            && c.value.base.(headers := map[]) == Bearer040Setup(token).base
  {
    assert "Authorization" in BearerHeader(token);
    var applied := ApplyAuthentication(Bearer040Setup(token).base, Str("0.4.0"), Some(BearerHeader(token)));
    assert applied.Ok? && applied.value.1;
    assert GetOr(Bearer040Config(token), "mds_param_override", Null) == Null;
    assert Prefix3("0.4.0") == "0.4";
    RenderBearer040(token);
  }

  /** `Accept`, then the token's header, over no headers at all. */
  lemma RenderBearer040(token: string)
    ensures var accepted := SetHeader(Bearer040Setup(token).base, "Accept", AcceptPrefix + "0.4");
            RenderSettings(accepted, BearerHeader(token)).headers
              == map["Accept" := AcceptPrefix + "0.4", "Authorization" := BearerPrefix + token]
  {
    var accepted := SetHeader(Bearer040Setup(token).base, "Accept", AcceptPrefix + "0.4");
    assert accepted.headers == map["Accept" := AcceptPrefix + "0.4"];
    var rendered := RenderSettings(accepted, BearerHeader(token));
    assert rendered.headers.Keys == {"Accept", "Authorization"};
  }

  /** A bearer client for version 0.4.0 with no other settings is the 0.4.0
      class, authenticated, with exactly the `Accept` and `Authorization`
      headers and the default settings. */
  lemma ConnectBearer040(token: string, schema030: Schema)
    ensures var c := Connect(Bearer040Config(token), map[], None, map[], schema030);
            && c.Ok?
            && c.value.cls == Mds040
            && c.value.kind == Bearer
            && c.value.authenticated
            && c.value.base.headers == map["Accept" := AcceptPrefix + "0.4", "Authorization" := BearerPrefix + token]
            && c.value.base.schema == Schema040
            && c.value.base.endpoint == "None"
            && c.value.base.maxAttempts == DefaultMaxAttempts
  {
    var config := Bearer040Config(token);
    assert Overlay(config, map[]) == config;
    PrepareBearer040(token, schema030);
    AuthenticateBearer040(token);
    FinishBearer040(token);
  }

  /** `MDSClient.get_trips`: the window handed unchanged to the version
      client, with no further keyword arguments. */
  method GetTrips(client: Client, start: int, end: int, server: seq<Script>)
    returns (r: Result<Envelope>, updated: Client, sent: seq<HttpRequest>)
    requires client.cls != Mds030
    requires EndsWithin(client.base, server)
    ensures updated.(base := client.base) == client
    ensures client.cls == Mds020 ==>
              TripsResult(client.base, Entries020(start, end, []), Version020, server, r, updated.base, sent)
    ensures client.cls == Mds040 ==>
              TripsResult(client.base, Entries040(start, end, []), Version040, server, r, updated.base, sent)
    ensures client.cls == Mds020 && "start_time" in client.base.schema && "end_time" in client.base.schema ==>
              && client.base.schema["end_time"] in updated.base.params
              && updated.base.params[client.base.schema["end_time"]] == Int(end)
              && (client.base.schema["start_time"] != client.base.schema["end_time"] ==>
                    && client.base.schema["start_time"] in updated.base.params
                    && updated.base.params[client.base.schema["start_time"]] == Int(start))
    ensures client.cls == Mds040 && client.base.schema == Schema040 ==>
              && "min_end_time" in updated.base.params && "max_end_time" in updated.base.params
              && updated.base.params["min_end_time"] == Int(start * 1000)
              && updated.base.params["max_end_time"] == Int(end * 1000)
  {
    var base: Base;
    if client.cls == Mds020 {
      r, base, sent := GetTrips020(client.base, start, end, server);
    } else {
      r, base, sent := GetTrips040(client.base, start, end, [], server);
    }
    updated := client.(base := base);
  }
}
