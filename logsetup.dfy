/**
 * `configure_log`: the choice between a structured logging configuration
 * given in the settings and a fixed basic configuration at a named level.
 */
module LogSetup {
  import opened Base
  import opened Settings

  const BasicFormat: string := "%(asctime)s %(name)s:%(levelname)s %(message)s"
  const BasicDateFormat: string := "%Y-%m-%d %H:%M:%S"

  /** What is handed to the logging subsystem. */
  datatype LogSetup =
    | DictConfig(settings: map<string, Value>)                  // `logging.config.dictConfig(settings)`
    | BasicConfig(level: int, format: string, datefmt: string)  // `logging.basicConfig(...)`

  /** The numeric value of a level name defined by the logging module. */
  function LevelNumber(name: string): (n: Option<int>)
    ensures name == "DEBUG" ==> n == Some(10)
    ensures n.Some? ==> n.value % 10 == 0 && 0 <= n.value <= 50
  {
    match name
    case "CRITICAL" => Some(50)
    case "FATAL" => Some(50)
    case "ERROR" => Some(40)
    case "WARNING" => Some(30)
    case "WARN" => Some(30)
    case "INFO" => Some(20)
    case "DEBUG" => Some(10)
    case "NOTSET" => Some(0)
    case _ => None
  }

  /**
   * Model of `configure_log(config, log_level)`. A truthy
   * `THUMBOR_LOG_CONFIG` is passed on unchanged and the level is not looked
   * at; otherwise the level name is resolved and the fixed formats are used.
   */
  function ConfigureLog(c: Config, env: Env, level: string): (r: Result<LogSetup>)
    ensures Get(c, env, ThumborLogConfig).DictV? && Truthy(Get(c, env, ThumborLogConfig))
      ==> r == Ok(DictConfig(Get(c, env, ThumborLogConfig).entries))
    ensures Truthy(Get(c, env, ThumborLogConfig)) && !Get(c, env, ThumborLogConfig).DictV?
      ==> r == Err(LogConfigNotMapping)
    ensures !Truthy(Get(c, env, ThumborLogConfig))
      ==> (r.Ok? <==> LevelNumber(level).Some?)
          && (r.Ok? ==> r.value == BasicConfig(LevelNumber(level).value, BasicFormat, BasicDateFormat))
          && (r.Err? ==> r.error == UnknownLogLevel(level))
  {
    var logConfig := Get(c, env, ThumborLogConfig);
    if Truthy(logConfig) then
      if logConfig.DictV? then Ok(DictConfig(logConfig.entries)) else Err(LogConfigNotMapping)
    else
      match LevelNumber(level)
      case Some(n) => Ok(BasicConfig(n, BasicFormat, BasicDateFormat))
      case None => Err(UnknownLogLevel(level))
  }

  /** With a structured configuration present, the level argument makes no difference. */
  lemma LevelIgnoredWithDictConfig(c: Config, env: Env, level1: string, level2: string)
    requires Truthy(Get(c, env, ThumborLogConfig))
    ensures ConfigureLog(c, env, level1) == ConfigureLog(c, env, level2)
  {
  }

  /** Default configuration at `DEBUG`: basicConfig with level 10 and the fixed formats. */
  lemma ConfigureLogBasicExample(env: Env)
    ensures ConfigureLog(WithValues(map[]), env, "DEBUG")
      == Ok(BasicConfig(10, "%(asctime)s %(name)s:%(levelname)s %(message)s", "%Y-%m-%d %H:%M:%S"))
  {
  }

  /** `THUMBOR_LOG_CONFIG={"level": "INFO"}` reaches dictConfig unchanged. */
  lemma ConfigureLogDictExample(env: Env)
    ensures var entries := map["level" := StrV("INFO")];
      ConfigureLog(WithValues(map[ThumborLogConfig := DictV(entries)]), env, "DEBUG")
        == Ok(DictConfig(entries))
  {
    var entries := map["level" := StrV("INFO")];
    assert "level" in entries;
  }
}
