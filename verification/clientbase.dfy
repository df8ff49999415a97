/** The per-instance state of `MDSClientBase` and its state-changing
    operations: construction from a configuration, `set_header`,
    `render_settings` and the four setters. Each operation returns the new
    state instead of mutating the instance. */
module ClientBase {
  import opened Results
  import opened Configuration

  /** Logical parameter name to wire parameter name. */
  type Schema = map<string, string>

  /** Wire parameter name to value. */
  type Params = map<string, Value>

  datatype Base = Base(
    config: Config,
    headers: Headers,
    params: Params,
    schema: Schema,
    /** `mds_api_url` as `f"{...}"` renders it. */
    endpoint: string,
    /** `paging`; only the value `False` switches paging off. */
    paging: Value,
    delay: Value,
    timeout: Value,
    maxAttempts: int)

  const DefaultMaxAttempts := 3

  /** `mds_api_url` as text: a missing or `null` URL renders as "None". */
  function EndpointText(v: Value): (r: Result<string>)
    ensures v.Str? ==> r == Ok(v.s)
    ensures v.Null? ==> r == Ok("None")
    ensures r.Ok? <==> v.Str? || v.Null?
  {
    match v
    case Str(s) => Ok(s)
    case Null => Ok("None")
    case _ => Err(WrongType("mds_api_url"))
  }

  /** `max_attempts` as the integer `_request` compares with; a Python bool
      compares as 0 or 1. */
  function AttemptsValue(v: Value): (r: Result<int>)
    ensures v.Int? ==> r == Ok(v.i)
    ensures v.Bool? ==> r == Ok(if v.b then 1 else 0)
    ensures r.Ok? <==> v.Int? || v.Bool?
  {
    match v
    case Int(i) => Ok(i)
    case Bool(b) => Ok(if b then 1 else 0)
    case _ => Err(WrongType("max_attempts"))
  }

  /** `MDSClientBase.__init__`: empty headers and params, the class's schema,
      and the configured values with their defaults (paging on, no delay,
      no timeout, three attempts). */
  function NewBase(config: Config, schema: Schema): (r: Result<Base>)
    ensures r.Ok? ==> r.value.headers == map[] && r.value.params == map[]
    ensures r.Ok? ==> r.value.config == config && r.value.schema == schema
    ensures r.Ok? ==> r.value.paging == GetOr(config, "paging", Bool(true))
    ensures r.Ok? ==> r.value.delay == GetOr(config, "delay", Int(0))
    ensures r.Ok? ==> r.value.timeout == GetOr(config, "interval", Null)
    ensures r.Ok? <==> && EndpointText(GetOr(config, "mds_api_url", Null)).Ok?
                       && AttemptsValue(GetOr(config, "max_attempts", Int(DefaultMaxAttempts))).Ok?
    ensures r.Ok? ==> r.value.endpoint == EndpointText(GetOr(config, "mds_api_url", Null)).value
    ensures r.Ok? ==> r.value.maxAttempts == AttemptsValue(GetOr(config, "max_attempts", Int(DefaultMaxAttempts))).value
    ensures "max_attempts" !in config && r.Ok? ==> r.value.maxAttempts == DefaultMaxAttempts
    ensures "mds_api_url" !in config && r.Ok? ==> r.value.endpoint == "None"
    ensures EndpointText(GetOr(config, "mds_api_url", Null)).Err? ==> r == Err(WrongType("mds_api_url"))
    ensures EndpointText(GetOr(config, "mds_api_url", Null)).Ok? && AttemptsValue(GetOr(config, "max_attempts", Int(DefaultMaxAttempts))).Err? ==>
              r == Err(WrongType("max_attempts"))
  {
    var endpoint :- EndpointText(GetOr(config, "mds_api_url", Null));
    var maxAttempts :- AttemptsValue(GetOr(config, "max_attempts", Int(DefaultMaxAttempts)));
    Ok(Base(
      config, map[], map[], schema, endpoint,
      GetOr(config, "paging", Bool(true)),
      GetOr(config, "delay", Int(0)),
      GetOr(config, "interval", Null),
      maxAttempts))
  }

  /** An empty configuration builds the documented defaults: endpoint
      "None", paging on, no delay, no timeout, three attempts. */
  lemma NewBaseDefaults(schema: Schema)
    ensures NewBase(map[], schema) == Ok(Base(map[], map[], map[], schema, "None", Bool(true), Int(0), Null, 3))
  {
    assert GetOr(map[], "mds_api_url", Null) == Null;
    assert GetOr(map[], "max_attempts", Int(DefaultMaxAttempts)) == Int(3);
  }

  /** `set_header`: the key now maps to the value, every other header and
      every other field is as before. */
  function SetHeader(b: Base, key: string, value: string): (r: Base)
    ensures r.headers.Keys == b.headers.Keys + {key}
    ensures r.headers[key] == value
    ensures forall k :: k in b.headers && k != key ==> r.headers[k] == b.headers[k]
    ensures r.(headers := b.headers) == b
  {
    b.(headers := b.headers[key := value])
  }

  /** The parameter-override step of `render_settings`: every entry of a
      dictionary override replaces or adds a schema entry; a non-dictionary
      override is ignored. */
  function ApplyOverrides(schema: Schema, overrides: Value): (r: Schema)
    ensures !overrides.Dict? ==> r == schema
    ensures overrides.Dict? ==> r.Keys == schema.Keys + overrides.entries.Keys
    ensures overrides.Dict? ==> forall k :: k in overrides.entries ==> r[k] == overrides.entries[k]
    ensures forall k :: k in schema && (!overrides.Dict? || k !in overrides.entries) ==> r[k] == schema[k]
  {
    match overrides
    case Dict(entries) => Overlay(schema, entries)
    case _ => schema
  }

  /** `render_settings`: merge the given headers over the current ones (the
      new ones win), then apply `mds_param_override`. */
  function RenderSettings(b: Base, headers: Headers): (r: Base)
    ensures r.headers.Keys == b.headers.Keys + headers.Keys
    ensures forall k :: k in headers ==> r.headers[k] == headers[k]
    ensures forall k :: k in b.headers && k !in headers ==> r.headers[k] == b.headers[k]
    ensures r.schema == ApplyOverrides(b.schema, GetOr(b.config, "mds_param_override", Null))
    ensures r.(headers := b.headers, schema := b.schema) == b
  {
    b.(headers := Overlay(b.headers, headers),
       schema := ApplyOverrides(b.schema, GetOr(b.config, "mds_param_override", Null)))
  }

  /** `set_paging`: only the paging flag changes. */
  function SetPaging(b: Base, paging: Value): (r: Base)
    ensures r.paging == paging && r.(paging := b.paging) == b
  {
    b.(paging := paging)
  }

  /** `set_delay`: only the delay changes. */
  function SetDelay(b: Base, delay: Value): (r: Base)
    ensures r.delay == delay && r.(delay := b.delay) == b
  {
    b.(delay := delay)
  }

  /** `set_timeout`: only the timeout changes. */
  function SetTimeout(b: Base, timeout: Value): (r: Base)
    ensures r.timeout == timeout && r.(timeout := b.timeout) == b
  {
    b.(timeout := timeout)
  }

  /** `set_max_attempts`: only the attempt bound changes. */
  function SetMaxAttempts(b: Base, maxAttempts: int): (r: Base)
    ensures r.maxAttempts == maxAttempts && r.(maxAttempts := b.maxAttempts) == b
  {
    b.(maxAttempts := maxAttempts)
  }

  /** Setting a header twice keeps the second value, and setting a header
      commutes with setting a different one. */
  lemma SetHeaderLastWins(b: Base, key: string, v1: string, v2: string, other: string, w: string)
    requires other != key
    ensures SetHeader(SetHeader(b, key, v1), key, v2) == SetHeader(b, key, v2)
    ensures SetHeader(SetHeader(b, key, v1), other, w) == SetHeader(SetHeader(b, other, w), key, v1)
  {
  }

  /** Rendering with no new headers and no dictionary override changes nothing;
      rendering twice with the same headers is the same as rendering once. */
  lemma RenderSettingsIdempotent(b: Base, headers: Headers)
    ensures !GetOr(b.config, "mds_param_override", Null).Dict? ==> RenderSettings(b, map[]) == b
    ensures RenderSettings(RenderSettings(b, headers), headers) == RenderSettings(b, headers)
  {
    var once := RenderSettings(b, headers);
    var twice := RenderSettings(once, headers);
    assert twice.headers == once.headers;
    assert twice.schema == once.schema;
    if !GetOr(b.config, "mds_param_override", Null).Dict? {
      assert RenderSettings(b, map[]).headers == b.headers;
    }
  }
}
