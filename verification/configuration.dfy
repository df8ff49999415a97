/** Configuration dictionaries as the client reads them: a map from key to a
    JSON-like value, read with Python's `dict.get(key, default)` and tested
    with Python truthiness. */
module Configuration {
  import opened Results

  /** The client classes the version table and `custom_client` can name. */
  datatype ClientClass = Mds020 | Mds030 | Mds040

  datatype Value =
    | Null
    | Bool(b: bool)
    | Int(i: int)
    | Str(s: string)
    /** A dictionary of strings (`headers`, `mds_param_override`, `auth_data`). */
    | Dict(entries: map<string, string>)
    /** A class object (`custom_client`). */
    | ClientRef(cls: ClientClass)

  type Config = map<string, Value>

  type Headers = map<string, string>

  /** `config.get(key, default)`. */
  function GetOr(config: Config, key: string, default: Value): (v: Value)
    ensures key in config ==> v == config[key]
    ensures key !in config ==> v == default
  {
    if key in config then config[key] else default
  }

  /** Python truthiness: `None`, `False`, `0`, `""` and `{}` are false. */
  predicate Truthy(v: Value) {
    match v
    case Null => false
    case Bool(b) => b
    case Int(i) => i != 0
    case Str(s) => s != ""
    case Dict(m) => |m| != 0
    case ClientRef(_) => true
  }

  /** `{**base, **overlay}`: the overlay wins on every key it holds. */
  function Overlay<V>(base: map<string, V>, overlay: map<string, V>): (r: map<string, V>)
    ensures r.Keys == base.Keys + overlay.Keys
    ensures forall k :: k in overlay ==> r[k] == overlay[k]
    ensures forall k :: k in base && k !in overlay ==> r[k] == base[k]
  {
    map k | k in base.Keys + overlay.Keys :: if k in overlay then overlay[k] else base[k]
  }
}
