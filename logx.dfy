/** Building a slog-backed logger from a configuration: case-insensitive
    parsing of the level, output and format names, the order in which New
    checks them, and the source-path trimming applied to every record's
    source attribute. */
module Logx {
  import opened Wrappers
  import Slog

  // =======================================================================
  // Case folding
  // =======================================================================

  /** Lower-case for ASCII letters; every other character is kept. */
  function LowerChar(ch: char): (r: char)
    ensures 'A' <= ch <= 'Z' ==> 'a' <= r <= 'z' && r as int == ch as int + 32
    ensures !('A' <= ch <= 'Z') ==> r == ch
    ensures !('A' <= r <= 'Z')
  {
    if 'A' <= ch <= 'Z' then (ch as int + 32) as char else ch
  }

  /** `strings.ToLower` restricted to ASCII case: each character is
      lower-cased on its own, in place. */
  function ToLower(s: string): (r: string)
    ensures |r| == |s|
    ensures forall i :: 0 <= i < |s| ==> r[i] == LowerChar(s[i])
  {
    seq(|s|, i requires 0 <= i < |s| => LowerChar(s[i]))
  }

  /** A string without upper-case letters is its own lower case. */
  lemma LowerUnchanged(s: string)
    requires forall i :: 0 <= i < |s| ==> !('A' <= s[i] <= 'Z')
    ensures ToLower(s) == s
  {
    assert forall i :: 0 <= i < |s| ==> ToLower(s)[i] == s[i];
  }

  /** Lower-casing twice changes nothing more. */
  lemma ToLowerIdempotent(s: string)
    ensures ToLower(ToLower(s)) == ToLower(s)
  {
    LowerUnchanged(ToLower(s));
  }

  // =======================================================================
  // Names
  // =======================================================================

  predicate IsLevelName(lowered: string) {
    lowered in {"debug", "info", "", "warn", "warning", "error"}
  }

  predicate IsOutputName(lowered: string) {
    lowered in {"stdout", "", "stderr"}
  }

  predicate IsFormatName(lowered: string) {
    lowered in {"json", "", "text"}
  }

  /** The switch on a lower-cased level name. */
  function LevelFor(lowered: string): (r: Option<Slog.Level>)
    ensures r.Some? <==> IsLevelName(lowered)
  {
    if lowered == "debug" then Some(Slog.Level.Debug)
    else if lowered == "info" || lowered == "" then Some(Slog.Level.Info)
    else if lowered == "warn" || lowered == "warning" then Some(Slog.Level.Warn)
    else if lowered == "error" then Some(Slog.Level.Error)
    else None
  }

  /** The level a name selects, and an "unknown log level" message (with the
      name as given) for any other name; the level is then Info. */
  function ParseLevel(s: string): (r: (Slog.Level, Option<string>))
    ensures r.1.None? <==> IsLevelName(ToLower(s))
    ensures r.1.None? ==> LevelFor(ToLower(s)) == Some(r.0)
    ensures r.1.Some? ==> r.0 == Slog.Level.Info && r.1.value == "unknown log level: " + s
  {
    match LevelFor(ToLower(s))
    case Some(level) => (level, None)
    case None => (Slog.Level.Info, Some("unknown log level: " + s))
  }

  datatype Writer = Stdout | Stderr

  /** The switch on a lower-cased output name. */
  function WriterFor(lowered: string): (r: Option<Writer>)
    ensures r.Some? <==> IsOutputName(lowered)
    ensures r == Some(Stderr) <==> lowered == "stderr"
  {
    if lowered == "stdout" || lowered == "" then Some(Stdout)
    else if lowered == "stderr" then Some(Stderr)
    else None
  }

  function GetWriter(output: string): (r: Result<Writer, string>)
    ensures r.Ok? <==> IsOutputName(ToLower(output))
    ensures r.Ok? ==> (r.value == Stderr <==> ToLower(output) == "stderr")
    ensures r.Err? ==> r.error == "unsupported output: " + output
  {
    match WriterFor(ToLower(output))
    case Some(w) => Ok(w)
    case None => Err("unsupported output: " + output)
  }

  datatype Format = JSON | Text

  /** The switch on a lower-cased format name. */
  function FormatFor(lowered: string): (r: Option<Format>)
    ensures r.Some? <==> IsFormatName(lowered)
    ensures r == Some(Text) <==> lowered == "text"
  {
    if lowered == "json" || lowered == "" then Some(JSON)
    else if lowered == "text" then Some(Text)
    else None
  }

  /** What slog.HandlerOptions carries; the ReplaceAttr hook is always
      ShortenSource. */
  datatype HandlerOptions = HandlerOptions(level: Slog.Level, addSource: bool)

  datatype Handler = Handler(format: Format, writer: Writer, options: HandlerOptions)

  function CreateHandler(format: string, w: Writer, opts: HandlerOptions): (r: Result<Handler, string>)
    ensures r.Ok? <==> IsFormatName(ToLower(format))
    ensures r.Ok? ==> r.value.writer == w && r.value.options == opts
    ensures r.Ok? ==> (r.value.format == Text <==> ToLower(format) == "text")
    ensures r.Err? ==> r.error == "unsupported log format: " + format
  {
    match FormatFor(ToLower(format))
    case Some(f) => Ok(Handler(f, w, opts))
    case None => Err("unsupported log format: " + format)
  }

  // =======================================================================
  // Configuration and New
  // =======================================================================

  datatype Config = Config(level: string, format: string, output: string, addSource: bool)

  function DefaultConfig(): (c: Config)
    ensures c.level == "info" && c.format == "json" && c.output == "stdout" && !c.addSource
  {
    Config("info", "json", "stdout", false)
  }

  datatype Logger = Logger(handler: Handler)

  /** The checks of New on a configuration that is present: the level
      first, then the output, then the format; the first failure is
      returned with the prefix "logx: ". */
  function NewFromConfig(c: Config): (r: Result<Logger, string>)
    ensures r.Ok? <==> IsLevelName(ToLower(c.level)) && IsOutputName(ToLower(c.output)) && IsFormatName(ToLower(c.format))
    ensures !IsLevelName(ToLower(c.level)) ==> r == Err("logx: " + ("unknown log level: " + c.level))
    ensures IsLevelName(ToLower(c.level)) && !IsOutputName(ToLower(c.output)) ==>
      r == Err("logx: " + ("unsupported output: " + c.output))
    ensures IsLevelName(ToLower(c.level)) && IsOutputName(ToLower(c.output)) && !IsFormatName(ToLower(c.format)) ==>
      r == Err("logx: " + ("unsupported log format: " + c.format))
    ensures r.Ok? ==> r.value.handler.options == HandlerOptions(ParseLevel(c.level).0, c.addSource)
    ensures r.Ok? ==> r.value.handler.writer == GetWriter(c.output).value
    ensures r.Ok? ==> (r.value.handler.format == Text <==> ToLower(c.format) == "text")
  {
    var (level, err) := ParseLevel(c.level);
    if err.Some? then Err("logx: " + err.value)
    else
      match GetWriter(c.output)
      case Err(e) => Err("logx: " + e)
      case Ok(w) =>
        match CreateHandler(c.format, w, HandlerOptions(level, c.addSource))
        case Err(e) => Err("logx: " + e)
        case Ok(h) => Ok(Logger(h))
  }

  /** `New`: a missing configuration means the defaults. */
  function New(cfg: Option<Config>): (r: Result<Logger, string>)
    ensures cfg.Some? ==> r == NewFromConfig(cfg.value)
    ensures cfg.None? ==> r == NewFromConfig(DefaultConfig())
  {
    NewFromConfig(if cfg.None? then DefaultConfig() else cfg.value)
  }

  /** `Default`: the logger New builds from no configuration. */
  function Default(): (l: Logger)
    ensures New(None) == Ok(l)
    ensures l.handler == Handler(JSON, Stdout, HandlerOptions(Slog.Level.Info, false))
  {
    NewWithoutConfig();
    New(None).value
  }

  // =======================================================================
  // Properties of the parsers and New
  // =======================================================================

  /** Without a configuration New succeeds with a JSON handler on standard
      output at Info level without source locations. */
  lemma NewWithoutConfig()
    ensures New(None) == New(Some(DefaultConfig()))
    ensures New(None) == Ok(Logger(Handler(JSON, Stdout, HandlerOptions(Slog.Level.Info, false))))
  {
    LowerUnchanged("info");
    LowerUnchanged("stdout");
    LowerUnchanged("json");
  }

  /** The level names of the configuration (config.go's Level constants). */
  function LevelName(l: Slog.Level): string {
    match l
    case Debug => "debug"
    case Info => "info"
    case Warn => "warn"
    case Error => "error"
  }

  /** Each configuration name parses back to its level. */
  lemma ParseLevelName(l: Slog.Level)
    ensures ParseLevel(LevelName(l)) == (l, None)
  {
    match l
    case Debug => LowerUnchanged("debug");
    case Info => LowerUnchanged("info");
    case Warn => LowerUnchanged("warn");
    case Error => LowerUnchanged("error");
  }

  /** The two other accepted spellings: "" for Info, "warning" for Warn. */
  lemma ParseLevelAliases()
    ensures ParseLevel("") == (Slog.Level.Info, None)
    ensures ParseLevel("warning") == (Slog.Level.Warn, None)
  {
    LowerUnchanged("warning");
  }

  /** Only the lower-cased spelling matters to the three parsers; the error
      messages keep the spelling given. */
  lemma ParseLevelIgnoresCase(s: string)
    ensures ParseLevel(s).0 == ParseLevel(ToLower(s)).0
    ensures ParseLevel(s).1.None? == ParseLevel(ToLower(s)).1.None?
  {
    ToLowerIdempotent(s);
  }

  lemma GetWriterIgnoresCase(s: string)
    ensures GetWriter(s).Ok? == GetWriter(ToLower(s)).Ok?
    ensures GetWriter(s).Ok? ==> GetWriter(s) == GetWriter(ToLower(s))
  {
    ToLowerIdempotent(s);
  }

  lemma CreateHandlerIgnoresCase(s: string, w: Writer, opts: HandlerOptions)
    ensures CreateHandler(s, w, opts).Ok? == CreateHandler(ToLower(s), w, opts).Ok?
    ensures CreateHandler(s, w, opts).Ok? ==> CreateHandler(s, w, opts) == CreateHandler(ToLower(s), w, opts)
  {
    ToLowerIdempotent(s);
  }

  /** An upper-case level name is accepted like the lower-case one. */
  lemma ParseLevelUpperCase()
    ensures ParseLevel("DEBUG") == (Slog.Level.Debug, None)
    ensures ParseLevel("Warning") == (Slog.Level.Warn, None)
  {
    assert ToLower("DEBUG") == "debug";
    assert ToLower("Warning") == "warning";
  }

  /** A bad level is reported even when output and format are bad too. */
  lemma LevelCheckedFirst(format: string, output: string, addSource: bool)
    ensures New(Some(Config("verbose", format, output, addSource))) == Err("logx: unknown log level: verbose")
  {
    LowerUnchanged("verbose");
    var msg := "logx: " + ("unknown log level: " + "verbose");
    assert msg == "logx: unknown log level: verbose";
  }

  // =======================================================================
  // Source-path trimming
  // =======================================================================

  /** True when `sub` occurs in `s` starting at byte `k`. */
  predicate OccursAt(s: string, sub: string, k: int) {
    0 <= k && k + |sub| <= |s| && s[k..k + |sub|] == sub
  }

  /** The last occurrence of `sub` starting at or before `k`. */
  function LastIndexFrom(s: string, sub: string, k: int): (r: Option<nat>)
    requires k <= |s| - |sub|
    ensures r.Some? ==> r.value <= k && OccursAt(s, sub, r.value)
    ensures r.Some? ==> forall j :: r.value < j <= k ==> !OccursAt(s, sub, j)
    ensures r.None? ==> forall j :: 0 <= j <= k ==> !OccursAt(s, sub, j)
    decreases k + 1
  {
    if k < 0 then None
    else if s[k..k + |sub|] == sub then Some(k)
    else LastIndexFrom(s, sub, k - 1)
  }

  /** `strings.LastIndex`: the start of the last occurrence, None for Go's -1. */
  function LastIndex(s: string, sub: string): (r: Option<nat>)
    ensures r.Some? ==> OccursAt(s, sub, r.value)
    ensures r.Some? ==> forall j :: r.value < j ==> !OccursAt(s, sub, j)
    ensures r.None? <==> forall j :: !OccursAt(s, sub, j)
  {
    if |sub| > |s| then None else LastIndexFrom(s, sub, |s| - |sub|)
  }

  /** The project directories whose last occurrence starts the short path,
      tried in this order. */
  const Markers: seq<string> := ["/internal/", "/pkg/", "/cmd/"]

  predicate NonEmpty(markers: seq<string>) {
    forall i :: 0 <= i < |markers| ==> |markers[i]| >= 1
  }

  /** The path from just after the leading '/' of the last occurrence of the
      first marker that occurs; the whole path when none does. */
  function Shorten(file: string, markers: seq<string>): string
    requires NonEmpty(markers)
  {
    if |markers| == 0 then file
    else
      match LastIndex(file, markers[0])
      case Some(k) => file[k + 1..]
      case None => Shorten(file, markers[1..])
  }

  /** The source location slog attaches to a record; ShortenSource rewrites
      its file name in place. */
  class Source {
    var func: string
    var file: string
    var line: int

    constructor (func: string, file: string, line: int)
      ensures this.func == func && this.file == file && this.line == line
    {
      this.func := func;
      this.file := file;
      this.line := line;
    }
  }

  datatype AttrValue = SourceValue(src: Source) | OtherValue(text: string)

  datatype Attr = Attr(key: string, value: AttrValue)

  const SourceKey: string := "source"

  /** The sources an attribute lets ShortenSource rewrite. */
  function Rewritable(a: Attr): set<Source> {
    if a.key == SourceKey && a.value.SourceValue? then {a.value.src} else {}
  }

  /** The ReplaceAttr hook: returns the attribute itself; for the source
      attribute it first shortens the file name of the source it points to. */
  method ShortenSource(groups: seq<string>, a: Attr) returns (r: Attr)
    modifies Rewritable(a)
    ensures r == a
    ensures a.key == SourceKey && a.value.SourceValue? ==>
      a.value.src.file == Shorten(old(a.value.src.file), Markers)
      && a.value.src.func == old(a.value.src.func) && a.value.src.line == old(a.value.src.line)
  {
    if a.key != SourceKey {
      return a;
    }
    if !a.value.SourceValue? {
      return a;
    }
    var source := a.value.src;
    var i := 0;
    while i < |Markers|
      invariant 0 <= i <= |Markers|
      invariant source.file == old(source.file)
      invariant Shorten(source.file, Markers) == Shorten(source.file, Markers[i..])
    {
      var idx := LastIndex(source.file, Markers[i]);
      if idx.Some? {
        source.file := source.file[idx.value + 1..];
        break;
      }
      i := i + 1;
    }
    return a;
  }

  /** The short path is always a suffix of the full one. */
  lemma {:induction false} ShortenIsSuffix(file: string, markers: seq<string>)
    requires NonEmpty(markers)
    ensures |Shorten(file, markers)| <= |file|
    ensures Shorten(file, markers) == file[|file| - |Shorten(file, markers)|..]
  {
    if |markers| > 0 && LastIndex(file, markers[0]).None? {
      ShortenIsSuffix(file, markers[1..]);
    }
  }

  /** With no marker in the path, the path is kept. */
  lemma {:induction false} ShortenWithoutMarkers(file: string, markers: seq<string>)
    requires NonEmpty(markers)
    requires forall i :: 0 <= i < |markers| ==> LastIndex(file, markers[i]).None?
    ensures Shorten(file, markers) == file
  {
    if |markers| > 0 {
      assert forall i :: 0 <= i < |markers[1..]| ==> markers[1..][i] == markers[i + 1];
      ShortenWithoutMarkers(file, markers[1..]);
    }
  }

  /** When marker i is the first that occurs, the short path begins with it,
      without its leading '/', at its last occurrence. */
  lemma {:induction false} ShortenAtFirstMarker(file: string, markers: seq<string>, i: nat)
    requires i < |markers| && NonEmpty(markers)
    requires LastIndex(file, markers[i]).Some?
    requires forall j :: 0 <= j < i ==> LastIndex(file, markers[j]).None?
    ensures var k := LastIndex(file, markers[i]).value;
      Shorten(file, markers) == file[k + 1..] && markers[i][1..] <= Shorten(file, markers)
  {
    var k := LastIndex(file, markers[i]).value;
    if i == 0 {
      assert file[k..k + |markers[0]|] == markers[0];
      assert file[k + 1..k + |markers[0]|] == markers[0][1..];
    } else {
      assert forall j :: 0 <= j < i - 1 ==> markers[1..][j] == markers[j + 1];
      ShortenAtFirstMarker(file, markers[1..], i - 1);
    }
  }
}
