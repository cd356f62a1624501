/**
 * The configuration side of internal/logging/logger.go: the defaults, the
 * level, output and format switches of `New`, the attribute rewriting that
 * formats times and shortens source paths, `WithError` and `GetCaller`.
 * The slog handlers, files and the runtime caller lookup are oracles or left out.
 */
module Logging {
  import opened Wrappers
  import opened Text

  /** `Config`; level and format are Go string types, kept as strings. */
  datatype Config = Config(level: string, format: string, output: string, addSource: bool, timeFormat: string)

  /** `time.RFC3339`. */
  const RFC3339: string := "2006-01-02T15:04:05Z07:00"

  function DefaultConfig(): (c: Config)
    ensures c.level == "info" && c.format == "text" && c.output == "stdout"
    ensures !c.addSource && c.timeFormat == RFC3339
  {
    Config("info", "text", "stdout", false, RFC3339)
  }

  /** The `slog.Level` values. */
  const LevelDebug: int := -4
  const LevelInfo: int := 0
  const LevelWarn: int := 4
  const LevelError: int := 8

  /** The level switch of `New`. */
  function LevelOf(level: string): int {
    match level
    case "debug" => LevelDebug
    case "info" => LevelInfo
    case "warn" => LevelWarn
    case "error" => LevelError
    case _ => LevelInfo
  }

  /** Each named level has its own slog level; every other name, the empty one too, reads as info. */
  lemma LevelOfNames(level: string)
    ensures LevelOf(level) == LevelDebug <==> level == "debug"
    ensures LevelOf(level) == LevelWarn <==> level == "warn"
    ensures LevelOf(level) == LevelError <==> level == "error"
    ensures LevelOf(level) == LevelInfo <==> level !in {"debug", "warn", "error"}
  {
  }

  datatype Output = Stdout | Stderr | File(path: string)

  /** The output switch of `New`. */
  function OutputOf(output: string): (r: Output)
    ensures r == Stdout <==> output == "stdout" || output == ""
    ensures r == Stderr <==> output == "stderr"
    ensures r.File? ==> r.path == output
  {
    match output
    case "stdout" => Stdout
    case "" => Stdout
    case "stderr" => Stderr
    case _ => File(output)
  }

  datatype Format = JsonHandler | TextHandler

  /** The format switch of `New`: only `json` selects the JSON handler. */
  function FormatOf(format: string): (r: Format)
    ensures r == JsonHandler <==> format == "json"
  {
    match format
    case "json" => JsonHandler
    case "text" => TextHandler
    case "" => TextHandler
    case _ => TextHandler
  }

  /** The configuration `New` works with: a missing one is the default. */
  function Effective(config: Option<Config>): (c: Config)
    ensures config.Some? ==> c == config.value
  {
    match config
    case None => DefaultConfig()
    case Some(c) => c
  }

  /** `New(nil)` and `New(DefaultConfig())` build the same logger. */
  lemma NewNilIsDefault()
    ensures Effective(None) == Effective(Some(DefaultConfig()))
    ensures LevelOf(Effective(None).level) == LevelInfo
    ensures OutputOf(Effective(None).output) == Stdout
    ensures FormatOf(Effective(None).format) == TextHandler
  {
  }

  /** The marker whose last occurrence starts the repository-relative part of a source path. */
  const RepoMarker: string := "/gotunnel/"

  /** The source path as `ReplaceAttr` leaves it: what follows the last `/gotunnel/`, if any. */
  function ShortenSource(file: string): (r: string)
    ensures !Contains(file, RepoMarker) ==> r == file
    ensures Contains(file, RepoMarker) ==>
      HasSuffix(file, RepoMarker + r)
      && forall j :: |file| - |r| - |RepoMarker| < j <= |file| - |RepoMarker| ==> !OccursAt(file, RepoMarker, j)
  {
    var idx := LastIndex(file, RepoMarker);
    if idx != -1 then
      assert file[idx..] == RepoMarker + file[idx + 10..] by {
        assert file[idx..idx + 10] == RepoMarker;
        assert file[idx..] == file[idx..idx + 10] + file[idx + 10..];
      }
      file[idx + 10..]
    else file
  }

  /** A path inside the repository keeps its repository-relative part. */
  lemma ShortenSourceOfRepoPath(prefix: string, rel: string)
    requires forall j :: 0 < j <= |rel| ==> !OccursAt(RepoMarker + rel, RepoMarker, j)
    ensures ShortenSource(prefix + RepoMarker + rel) == rel
  {
    var file := prefix + RepoMarker + rel;
    var idx := |prefix|;
    assert OccursAt(file, RepoMarker, idx) by {
      assert file[idx..idx + |RepoMarker|] == RepoMarker;
    }
    forall j | idx < j <= |file| - |RepoMarker|
      ensures !OccursAt(file, RepoMarker, j)
    {
      assert file[j..j + |RepoMarker|] == (RepoMarker + rel)[j - idx..j - idx + |RepoMarker|];
      assert !OccursAt(RepoMarker + rel, RepoMarker, j - idx);
    }
    var r := LastIndex(file, RepoMarker);
    assert r == idx;
    assert file[idx + 10..] == rel;
  }

  /** A `time.Time`, known only through the formatting oracle. */
  datatype Time = Time(instant: int)

  /** `*slog.Source`: the source location of a record, which `ReplaceAttr` edits in place. */
  class Source {
    var file: string
    var line: int
    var funcName: string

    constructor (funcName: string, file: string, line: int)
      ensures this.funcName == funcName && this.file == file && this.line == line
    {
      this.funcName := funcName;
      this.file := file;
      this.line := line;
    }
  }

  datatype Value = TimeValue(t: Time) | SourceValue(source: Source) | StringValue(s: string) | OtherValue

  datatype Attr = Attr(key: string, value: Value)

  /**
   * The `ReplaceAttr` hook: the time attribute becomes a string in the configured
   * format (through `formatTime`, standing for `Time.Format`), and a source
   * attribute has its file shortened in place. Everything else is returned as is.
   */
  method ReplaceAttr(timeFormat: string, formatTime: (Time, string) -> string, a: Attr) returns (r: Attr)
    modifies if a.value.SourceValue? then {a.value.source} else {}
    ensures a.key == "time" && timeFormat != "" && a.value.TimeValue? ==>
      r == Attr("time", StringValue(formatTime(a.value.t, timeFormat)))
    ensures !(a.key == "time" && timeFormat != "" && a.value.TimeValue?) ==> r == a
    ensures a.value.SourceValue? ==>
      a.value.source.file == (if a.key == "source" then ShortenSource(old(a.value.source.file)) else old(a.value.source.file))
      && a.value.source.line == old(a.value.source.line)
      && a.value.source.funcName == old(a.value.source.funcName)
  {
    if a.key == "time" && timeFormat != "" {
      if a.value.TimeValue? {
        return Attr(a.key, StringValue(formatTime(a.value.t, timeFormat)));
      }
    }
    if a.key == "source" {
      if a.value.SourceValue? {
        var source := a.value.source;
        var idx := LastIndex(source.file, RepoMarker);
        if idx != -1 {
          source.file := source.file[idx + 10..];
        }
      }
    }
    r := a;
  }

  /** `*Logger`: the resolved handler settings and the attributes added with `With`. */
  class Logger {
    const config: Config
    const level: int
    const output: Output
    const format: Format
    const attrs: seq<(string, string)>

    constructor (config: Config, attrs: seq<(string, string)>)
      ensures this.config == config && this.attrs == attrs
      ensures level == LevelOf(config.level) && output == OutputOf(config.output) && format == FormatOf(config.format)
    {
      this.config := config;
      this.level := LevelOf(config.level);
      this.output := OutputOf(config.output);
      this.format := FormatOf(config.format);
      this.attrs := attrs;
    }

    /** `WithError`: no error, the same logger; an error, a new logger that also carries it. */
    method WithError(err: Option<string>) returns (l: Logger)
      ensures err.None? ==> l == this
      ensures err.Some? ==> fresh(l) && l.config == config && l.attrs == attrs + [("error", err.value)]
    {
      if err.None? {
        return this;
      }
      l := new Logger(config, attrs + [("error", err.value)]);
    }
  }

  /**
   * `New`. For a file output, `mkdirOk` and `openOk` are the outcomes of creating
   * the file's directory and opening the file.
   */
  method New(config: Option<Config>, mkdirOk: bool, openOk: bool) returns (r: Result<Logger>)
    ensures var c := Effective(config);
      if OutputOf(c.output).File? && !mkdirOk then r == Err("failed to create log directory")
      else if OutputOf(c.output).File? && !openOk then r == Err("failed to open log file")
      else (r.Ok? && fresh(r.value) && r.value.config == c && r.value.attrs == []
            && r.value.level == LevelOf(c.level) && r.value.output == OutputOf(c.output)
            && r.value.format == FormatOf(c.format))
  {
    var c := if config.None? then DefaultConfig() else config.value;
    if c.output != "stdout" && c.output != "" && c.output != "stderr" {
      if !mkdirOk {
        return Err("failed to create log directory");
      }
      if !openOk {
        return Err("failed to open log file");
      }
    }
    var logger := new Logger(c, []);
    r := Ok(logger);
  }

  /** The text after the last `/`, or all of it when there is none. */
  function AfterLastSlash(s: string): (r: string)
    ensures '/' !in r && HasSuffix(s, r)
    ensures r == s || s[|s| - |r| - 1] == '/'
  {
    var i := LastIndexOf(s, '/');
    if i >= 0 then
      assert s[|s| - |s[i + 1..]|..] == s[i + 1..];
      s[i + 1..]
    else s
  }

  /**
   * `GetCaller`: `caller` is what `runtime.Caller` reports (the function name of
   * the program counter, the file and the line), or `None` when it cannot.
   */
  function GetCaller(caller: Option<(string, string, int)>): (r: (string, int, string))
    ensures caller.None? ==> r == ("unknown", 0, "unknown")
    ensures caller.Some? ==>
      var (funcName, file, line) := caller.value;
      r.1 == line && '/' !in r.0 && '/' !in r.2 && HasSuffix(file, r.0) && HasSuffix(funcName, r.2)
      && (r.0 == file || file[|file| - |r.0| - 1] == '/')
      && (r.2 == funcName || funcName[|funcName| - |r.2| - 1] == '/')
  {
    match caller
    case None => ("unknown", 0, "unknown")
    case Some((funcName, file, line)) => (AfterLastSlash(file), line, AfterLastSlash(funcName))
  }
}
