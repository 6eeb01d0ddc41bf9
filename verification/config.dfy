/** The updater's configuration record (src/config.rs): its default values
    and the mapping of the `log_level` text onto a tracing level. Loading the
    record from files and the environment is not part of this model. */
module Config {
  import opened Strings

  newtype u16 = x: int | 0 <= x < 0x1_0000

  /** `tracing::Level`. */
  datatype Level = TRACE | DEBUG | INFO | WARN | ERROR

  datatype Config = Config(
    logLevel: string,
    tokens: seq<string>,
    port: u16,
    host: string,
    unixSocket: bool,
    unixPath: string)

  /** `Config::default()`. */
  function Default(): Config {
    Config("debug", [], 3000, "0.0.0.0", true, "/var/run/docker.sock")
  }

  /** The lower-case spelling that selects each level. */
  function LevelName(level: Level): string {
    match level
    case TRACE => "trace"
    case DEBUG => "debug"
    case INFO => "info"
    case WARN => "warn"
    case ERROR => "error"
  }

  /** `s` is the spelling of some level. */
  predicate IsLevelName(s: string) {
    s in {"trace", "debug", "info", "warn", "error"}
  }

  /** `Config::log_level`: the level named by `logLevel`, ignoring case;
      any other text gives INFO, so the mapping never fails. */
  function LogLevel(c: Config): (level: Level)
    ensures IsLevelName(LowerAscii(c.logLevel)) ==> LevelName(level) == LowerAscii(c.logLevel)
    ensures !IsLevelName(LowerAscii(c.logLevel)) ==> level == INFO
  {
    var name := LowerAscii(c.logLevel);
    if name == "trace" then TRACE
    else if name == "debug" then DEBUG
    else if name == "info" then INFO
    else if name == "warn" then WARN
    else if name == "error" then ERROR
    else INFO
  }

  /** Both directions: a level is chosen exactly when its name is given
      (in any case), or when it is INFO and no level is named. */
  lemma LogLevelIff(c: Config, level: Level)
    ensures LogLevel(c) == level <==>
      (LowerAscii(c.logLevel) == LevelName(level)
       || (level == INFO && !IsLevelName(LowerAscii(c.logLevel))))
  {
    match level
    case TRACE =>
    case DEBUG =>
    case INFO =>
    case WARN =>
    case ERROR =>
  }

  /** Two spellings that differ only in ASCII case select the same level. */
  lemma LogLevelIgnoresCase(c: Config, d: Config)
    requires |c.logLevel| == |d.logLevel|
    requires forall i :: 0 <= i < |c.logLevel| ==> LowerChar(c.logLevel[i]) == LowerChar(d.logLevel[i])
    ensures LogLevel(c) == LogLevel(d)
  {
    assert LowerAscii(c.logLevel) == LowerAscii(d.logLevel);
  }

  /** The upper-case spelling of each level. */
  function UpperName(level: Level): string {
    match level
    case TRACE => "TRACE"
    case DEBUG => "DEBUG"
    case INFO => "INFO"
    case WARN => "WARN"
    case ERROR => "ERROR"
  }

  /** Each level's name, lower- or upper-case, selects that level. */
  lemma LogLevelOfName(c: Config, level: Level)
    ensures LogLevel(c.(logLevel := LevelName(level))) == level
    ensures LogLevel(c.(logLevel := UpperName(level))) == level
  {
    LogLevelIff(c.(logLevel := LevelName(level)), level);
    var upper := UpperName(level);
    assert LowerAscii(upper) == LevelName(level);
    LogLevelIff(c.(logLevel := upper), level);
  }

  /** The default configuration and the level it selects. */
  lemma DefaultConfig()
    ensures Default().port == 3000 && Default().host == "0.0.0.0"
    ensures Default().tokens == [] && Default().unixSocket
    ensures Default().unixPath == "/var/run/docker.sock"
    ensures LogLevel(Default()) == DEBUG
  {
    assert LowerAscii("debug") == "debug";
  }
}
