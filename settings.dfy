/**
 * The configuration store: settings loaded from a file over built-in
 * defaults, with an optional per-read override from the process environment.
 */
module Settings {
  import opened Base

  /** A setting's value, as the configuration file language can write it. */
  datatype Value =
    | NoneV
    | BoolV(b: bool)
    | IntV(i: int)
    | StrV(s: string)
    | ListV(items: seq<Value>)
    | DictV(entries: map<string, Value>)

  /** Python truthiness of a setting's value. */
  predicate Truthy(v: Value) {
    match v
    case NoneV => false
    case BoolV(b) => b
    case IntV(i) => i != 0
    case StrV(s) => s != ""
    case ListV(items) => items != []
    case DictV(entries) => entries != map[]
  }

  /** The process environment: variable name to value. */
  type Env = map<string, string>

  /** The filters enabled when the configuration does not list its own. */
  const DefaultFilters: seq<Value> := [
    StrV("thumbor.filters.brightness"), StrV("thumbor.filters.colorize"),
    StrV("thumbor.filters.contrast"), StrV("thumbor.filters.rgb"),
    StrV("thumbor.filters.round_corner"), StrV("thumbor.filters.quality"),
    StrV("thumbor.filters.noise"), StrV("thumbor.filters.watermark"),
    StrV("thumbor.filters.equalize"), StrV("thumbor.filters.fill"), StrV("thumbor.filters.sharpen"),
    StrV("thumbor.filters.strip_icc"), StrV("thumbor.filters.frame"),
    StrV("thumbor.filters.grayscale"), StrV("thumbor.filters.rotate"),
    StrV("thumbor.filters.format"), StrV("thumbor.filters.max_bytes"),
    StrV("thumbor.filters.convolution"), StrV("thumbor.filters.blur"),
    StrV("thumbor.filters.extract_focal"), StrV("thumbor.filters.no_upscale"),
    StrV("thumbor.filters.saturation"), StrV("thumbor.filters.max_age"),
    StrV("thumbor.filters.curve"), StrV("thumbor.filters.stretch")
  ]

  /** The settings the bootstrap reads; each has a declared default. */
  datatype Key =
    | SecurityKey | AllowedSources | Engine | Loader | Storage | Detectors | Filters
    | UseCustomErrorHandling | ErrorHandlerModule | UseGifsicleEngine | ThumborLogConfig

  /** The setting's name, which is also the name of the environment variable that overrides it. */
  function Name(k: Key): string {
    match k
    case SecurityKey => "SECURITY_KEY"
    case AllowedSources => "ALLOWED_SOURCES"
    case Engine => "ENGINE"
    case Loader => "LOADER"
    case Storage => "STORAGE"
    case Detectors => "DETECTORS"
    case Filters => "FILTERS"
    case UseCustomErrorHandling => "USE_CUSTOM_ERROR_HANDLING"
    case ErrorHandlerModule => "ERROR_HANDLER_MODULE"
    case UseGifsicleEngine => "USE_GIFSICLE_ENGINE"
    case ThumborLogConfig => "THUMBOR_LOG_CONFIG"
  }

  function Default(k: Key): Value {
    match k
    case SecurityKey => StrV("MY_SECURE_KEY")
    case AllowedSources => ListV([])
    case Engine => StrV("thumbor.engines.pil")
    case Loader => StrV("thumbor.loaders.http_loader")
    case Storage => StrV("thumbor.storages.file_storage")
    case Detectors => ListV([])
    case Filters => ListV(DefaultFilters)
    case UseCustomErrorHandling => BoolV(false)
    case ErrorHandlerModule => StrV("thumbor.error_handlers.sentry")
    case UseGifsicleEngine => BoolV(false)
    case ThumborLogConfig => NoneV
  }

  /**
   * A loaded configuration: the values given explicitly (by the file or by
   * keyword), and whether environment overrides are enabled. A setting not
   * given reads as its default.
   */
  datatype Config = Config(values: map<Key, Value>, allowEnv: bool)

  /**
   * Model of `get_config(path, use_environment)`: `file` holds the settings
   * read from the path, or None when the path is absent or unreadable, which
   * leaves every setting at its default. No environment is consulted here.
   */
  function Load(file: Option<map<Key, Value>>, allowEnv: bool): (c: Config)
    ensures c.allowEnv == allowEnv
    ensures file.None? ==> c.values == map[]
    ensures file.Some? ==> c.values == file.value
  {
    Config(file.GetOr(map[]), allowEnv)
  }

  /** A configuration built in code from keyword values (`Config(KEY=value, ...)`). */
  function WithValues(values: map<Key, Value>): (c: Config)
    ensures !c.allowEnv && c.values == values
  {
    Config(values, false)
  }

  /**
   * Reading setting `k` from configuration `c` while the environment is
   * `env`. With override mode on, a like-named environment variable wins and
   * is read as a plain string; otherwise the explicit value, then the default.
   */
  function Get(c: Config, env: Env, k: Key): (v: Value)
    ensures c.allowEnv && Name(k) in env ==> v == StrV(env[Name(k)])
    ensures !(c.allowEnv && Name(k) in env) && k in c.values ==> v == c.values[k]
    ensures !(c.allowEnv && Name(k) in env) && k !in c.values ==> v == Default(k)
  {
    if c.allowEnv && Name(k) in env then StrV(env[Name(k)])
    else if k in c.values then c.values[k]
    else Default(k)
  }

  /** Without override mode the environment plays no part in any read. */
  lemma EnvIgnoredWithoutOverride(c: Config, env1: Env, env2: Env, k: Key)
    requires !c.allowEnv
    ensures Get(c, env1, k) == Get(c, env2, k)
  {
  }

  /**
   * With override mode, a setting whose name is not in the environment reads
   * exactly as it would with override mode off.
   */
  lemma OverrideOnlyForPresentVariables(c: Config, env: Env, k: Key)
    requires Name(k) !in env
    ensures Get(c, env, k) == Get(c.(allowEnv := false), env, k)
  {
  }

  /** The settings the server tests read from their fixture file. */
  function ServerTestFile(): map<Key, Value> {
    map[AllowedSources := ListV([StrV("mydomain.com")])]
  }

  /** Loading without override mode ignores `ENGINE=test` in the environment. */
  lemma LoadWithoutOverrideExample()
    ensures var c := Load(Some(ServerTestFile()), false);
      Get(c, map["ENGINE" := "test"], AllowedSources) == ListV([StrV("mydomain.com")])
      && Get(c, map["ENGINE" := "test"], Engine) == StrV("thumbor.engines.pil")
  {
  }

  /**
   * Loading with override mode and then setting `ENGINE=test`: the read sees
   * the environment value, while `ALLOWED_SOURCES` keeps its file value.
   */
  lemma LoadWithOverrideExample()
    ensures var c := Load(Some(ServerTestFile()), true);
      Get(c, map["ENGINE" := "test"], AllowedSources) == ListV([StrV("mydomain.com")])
      && Get(c, map["ENGINE" := "test"], Engine) == StrV("test")
  {
  }
}
