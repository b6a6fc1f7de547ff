/**
 * logger.py: the level table with its name and number lookups, and the Logger
 * that filters by severity and routes a message to the cache or straight out.
 */
module Logging {
  import opened Wrappers
  import opened Text
  import opened Configuration
  import opened Io
  import opened Suppression

  const DebugLevel := 10
  const InfoLevel := 20
  const WarningLevel := 30
  const ErrorLevel := 40
  const CriticalLevel := 50
  const WarningName := "WARNING"

  /** `LOG_LEVELS`, in its declaration order. */
  const LogLevels: seq<(string, int)> := [
    ("CRITICAL", CriticalLevel),
    ("ERROR", ErrorLevel),
    (WarningName, WarningLevel),
    ("INFO", InfoLevel),
    ("DEBUG", DebugLevel)
  ]

  const LevelNames: set<string> := {"CRITICAL", "ERROR", "WARNING", "INFO", "DEBUG"}
  const LevelValues: set<int> := {10, 20, 30, 40, 50}

  /** `table.get(name)`: the number of the first entry with that name. */
  function NameLookup(table: seq<(string, int)>, name: string): (r: Option<int>)
    ensures r.None? <==> forall i :: 0 <= i < |table| ==> table[i].0 != name
    ensures r.Some? ==> exists i :: 0 <= i < |table| && table[i] == (name, r.value)
  {
    if table == [] then None
    else if table[0].0 == name then Some(table[0].1)
    else
      var r := NameLookup(table[1..], name);
      assert r.Some? ==> exists i :: 1 <= i < |table| && table[i] == (name, r.value) by {
        if r.Some? {
          var i :| 0 <= i < |table[1..]| && table[1..][i] == (name, r.value);
          assert table[i + 1] == (name, r.value);
        }
      }
      r
  }

  /** The `for key, valor in LOG_LEVELS.items()` search: the name of the first entry with that number. */
  function ValueLookup(table: seq<(string, int)>, value: int): (r: Option<string>)
    ensures r.None? <==> forall i :: 0 <= i < |table| ==> table[i].1 != value
    ensures r.Some? ==> exists i :: 0 <= i < |table| && table[i] == (r.value, value)
  {
    if table == [] then None
    else if table[0].1 == value then Some(table[0].0)
    else
      var r := ValueLookup(table[1..], value);
      assert r.Some? ==> exists i :: 1 <= i < |table| && table[i] == (r.value, value) by {
        if r.Some? {
          var i :| 0 <= i < |table[1..]| && table[1..][i] == (r.value, value);
          assert table[i + 1] == (r.value, value);
        }
      }
      r
  }

  /** Every entry of the table is one of the five names and one of the five numbers. */
  lemma TableEntries()
    ensures forall i :: 0 <= i < |LogLevels| ==> LogLevels[i].0 in LevelNames && LogLevels[i].1 in LevelValues
    ensures forall n :: n in LevelNames ==> exists i :: 0 <= i < |LogLevels| && LogLevels[i].0 == n
    ensures forall v :: v in LevelValues ==> exists i :: 0 <= i < |LogLevels| && LogLevels[i].1 == v
  {
    forall n | n in LevelNames ensures exists i :: 0 <= i < |LogLevels| && LogLevels[i].0 == n {
      if n == "CRITICAL" { assert LogLevels[0].0 == n; }
      else if n == "ERROR" { assert LogLevels[1].0 == n; }
      else if n == "WARNING" { assert LogLevels[2].0 == n; }
      else if n == "INFO" { assert LogLevels[3].0 == n; }
      else { assert LogLevels[4].0 == n; }
    }
    forall v | v in LevelValues ensures exists i :: 0 <= i < |LogLevels| && LogLevels[i].1 == v {
      if v == 50 { assert LogLevels[0].1 == v; }
      else if v == 40 { assert LogLevels[1].1 == v; }
      else if v == 30 { assert LogLevels[2].1 == v; }
      else if v == 20 { assert LogLevels[3].1 == v; }
      else { assert LogLevels[4].1 == v; }
    }
  }

  /** Entry `i` is what both lookups find for its name and its number. */
  lemma LookupEntry(i: int)
    requires 0 <= i < |LogLevels|
    ensures NameLookup(LogLevels, LogLevels[i].0) == Some(LogLevels[i].1)
    ensures ValueLookup(LogLevels, LogLevels[i].1) == Some(LogLevels[i].0)
  {
  }

  /** The `ValueError` of `_label_to_level` for a digit string. */
  datatype LevelError = NumericLabel

  /** `_label_to_level`: refuses digit strings; otherwise the upper-cased name's number, WARNING if unknown. */
  function LabelToLevel(level: string): (r: Result<int, LevelError>)
    ensures r.Failure? <==> IsDigits(level)
    ensures r.Success? ==> r.value in LevelValues
    ensures r.Success? && Upper(level) !in LevelNames ==> r.value == WarningLevel
  {
    TableEntries();
    if IsDigits(level) then Failure(NumericLabel)
    else Success(NameLookup(LogLevels, Upper(level)).GetOr(WarningLevel))
  }

  /**
   * `log_label`: a digit string names the level with that number; anything else
   * is upper-cased and kept if it is a level name; WARNING otherwise.
   */
  function LogLabel(level: string): (r: string)
    ensures r in LevelNames
    ensures !IsDigits(level) ==> r == if Upper(level) in LevelNames then Upper(level) else WarningName
    ensures IsDigits(level) && ParseNat(level) !in LevelValues ==> r == WarningName
    ensures IsDigits(level) && ParseNat(level) in LevelValues ==>
              exists i :: 0 <= i < |LogLevels| && LogLevels[i] == (r, ParseNat(level))
  {
    TableEntries();
    if IsDigits(level) then ValueLookup(LogLevels, ParseNat(level)).GetOr(WarningName)
    else
      var upper := Upper(level);
      if NameLookup(LogLevels, upper).Some? then upper else WarningName
  }

  /** The argument of `log_level`: a number or a string. */
  datatype LevelArg = IntLevel(n: int) | StrLevel(s: string)

  /** A table number stands for itself; any other number falls back to WARNING. */
  function KnownLevel(n: int): (r: int)
    ensures r in LevelValues
    ensures r == if n in LevelValues then n else WarningLevel
  {
    TableEntries();
    if ValueLookup(LogLevels, n).Some? then n else WarningLevel
  }

  /**
   * `log_level`: a digit string is read as a number; any other string goes
   * through `_label_to_level`; a number not in the table gives WARNING.
   */
  function LogLevel(level: LevelArg): (r: int)
    ensures r in LevelValues
    ensures level.IntLevel? ==> r == if level.n in LevelValues then level.n else WarningLevel
    ensures level.StrLevel? && IsDigits(level.s) ==>
              r == if ParseNat(level.s) in LevelValues then ParseNat(level.s) else WarningLevel
  {
    match level
    case IntLevel(n) => KnownLevel(n)
    case StrLevel(s) =>
      if IsDigits(s) then KnownLevel(ParseNat(s))
      else LabelToLevel(s).value
  }

  /** Upper-casing a level name's spelling gives the name, so the spelling is not a digit string. */
  lemma NameSpellingNotDigits(s: string)
    requires Upper(s) in LevelNames
    ensures !IsDigits(s)
  {
    UpperKeepsDigits(s);
    assert !IsDigitChar(Upper(s)[0]);
  }

  /** `_label_to_level` refuses digit strings, but `log_level` only ever passes it other strings. */
  lemma LogLevelOfNonDigits(s: string)
    requires !IsDigits(s)
    ensures LabelToLevel(s).Success?
    ensures LogLevel(StrLevel(s)) == LabelToLevel(s).value
  {
  }

  /** Any spelling of a table name, in any letter case, gives that name's number. */
  lemma LogLevelOfName(s: string, i: int)
    requires 0 <= i < |LogLevels|
    requires Upper(s) == LogLevels[i].0
    ensures LogLevel(StrLevel(s)) == LogLevels[i].1
  {
    TableEntries();
    NameSpellingNotDigits(s);
    LookupEntry(i);
  }

  /** A string that is not a digit string and not a level name in any case gives WARNING. */
  lemma LogLevelOfUnknownName(s: string)
    requires !IsDigits(s) && Upper(s) !in LevelNames
    ensures LogLevel(StrLevel(s)) == WarningLevel
  {
  }

  /** The decimal string of a number gives that number if it is in the table, else WARNING. */
  lemma LogLevelOfNumberString(n: nat)
    ensures LogLevel(StrLevel(NatToString(n))) == if n in LevelValues then n else WarningLevel
  {
    ParseNatToString(n);
  }

  /** A number argument and digit strings with leading zeros: 42 gives WARNING, "010" is DEBUG. */
  lemma NumericLevelExamples()
    ensures LogLevel(IntLevel(42)) == WarningLevel
    ensures LogLevel(IntLevel(20)) == 20
    ensures LogLevel(StrLevel("042")) == WarningLevel
    ensures LogLevel(StrLevel("010")) == DebugLevel
    ensures LogLabel("010") == "DEBUG"
  {
    assert "042"[..2] == "04" && "04"[..1] == "0" && "0"[..0] == "";
    assert ParseNat("042") == 42;
    assert "010"[..2] == "01" && "01"[..1] == "0";
    assert ParseNat("010") == 10;
  }

  /** The decimal string of a table number names its level. */
  lemma LogLabelOfNumberString(i: int)
    requires 0 <= i < |LogLevels|
    ensures LogLabel(NatToString(LogLevels[i].1)) == LogLevels[i].0
  {
    ParseNatToString(LogLevels[i].1);
    LookupEntry(i);
  }

  /**
   * The test suite's loop over the table, both directions: each name gives its
   * number and each number's string gives its name.
   */
  lemma LevelTableRoundTrip(i: int)
    requires 0 <= i < |LogLevels|
    ensures LogLevel(StrLevel(LogLevels[i].0)) == LogLevels[i].1
    ensures LogLabel(NatToString(LogLevels[i].1)) == LogLevels[i].0
  {
    UpperOfUpperCase(LogLevels[i].0);
    LogLevelOfName(LogLevels[i].0, i);
    LogLabelOfNumberString(i);
  }

  /** Whatever `log_level` returns, its string is labelled with a name that maps back to it. */
  lemma LabelOfLevelMapsBack(level: LevelArg)
    ensures var v := LogLevel(level); var name := LogLabel(NatToString(v));
      LogLevel(StrLevel(name)) == v
  {
    var v := LogLevel(level);
    TableEntries();
    var i :| 0 <= i < |LogLevels| && LogLevels[i].1 == v;
    LevelTableRoundTrip(i);
  }

  /** The literal cases of the test suite: "42" is not a level, "wtf" is not a name. */
  lemma UnknownLevelExamples()
    ensures LogLevel(StrLevel("42")) == WarningLevel
    ensures LogLabel("wtf") == WarningName
  {
    LogLevelOfNumberString(42);
    assert NatToString(42) == "42";
    assert Upper("wtf") == "WTF";
  }

  /** The keyword arguments of `log`, each optional (`label` is called `tag` here). */
  datatype LogArgs = LogArgs(
    caller: Option<string>,
    key: Option<string>,
    tag: Option<string>,
    logfn: Option<string>,
    quiet: Option<bool>,
    suppress: Option<int>)
  {
    /** The arguments passed on to `log_message` once `key` is popped. */
    function ForMessage(): MessageArgs {
      MessageArgs(tag, logfn, quiet, suppress)
    }
  }

  /** A non-empty caller is put in front of the message, separated by " - ". */
  function WithCaller(caller: Option<string>, message: string): (m: string)
    ensures caller.Some? && caller.value != "" ==> m == caller.value + " - " + message
    ensures caller.None? || caller.value == "" ==> m == message
  {
    if caller.Some? && caller.value != "" then caller.value + " - " + message else message
  }

  /** `log` as a function of the cache document, the configured default log and the clock. */
  function LogEffect(doc: CacheDoc, defaultLog: Value, message: string, args: LogArgs,
                     now: int, stamp: string): Effect
  {
    var text := WithCaller(args.caller, message);
    if args.key.Some? then
      MessageEffect(doc, defaultLog, args.key.value, text, args.ForMessage(), now, stamp)
    else
      var tag := LogLabel(args.tag.GetOr(WarningName));
      var logFn := args.logfn.GetOr("");
      Effect(Success(true),
             if args.quiet.GetOr(false) then [] else [stamp + " " + tag + ": " + text + "\n"],
             if logFn != "" then [LogLine(StrVal(logFn), DailyLine(stamp, tag, text, None))] else [],
             doc)
  }

  /**
   * Without a key: the label is normalised, the log file gets one uncounted line
   * only if one is named, the terminal gets one line unless quiet, and the cache
   * is not touched.
   */
  lemma LogWithoutKey(doc: CacheDoc, defaultLog: Value, message: string, args: LogArgs,
                      now: int, stamp: string)
    requires args.key.None?
    ensures var e := LogEffect(doc, defaultLog, message, args, now, stamp);
      var text := WithCaller(args.caller, message);
      var tag := LogLabel(args.tag.GetOr(WarningName));
      && tag in LevelNames
      && e.result.Success?
      && e.doc == doc
      && (|e.daily| == 1 <==> args.logfn.Some? && args.logfn.value != "")
      && (e.daily == [] || e.daily == [LogLine(StrVal(args.logfn.value), DailyLine(stamp, tag, text, None))])
      && (|e.terminal| == 1 <==> !args.quiet.GetOr(false))
      && (e.terminal == [] || e.terminal == [stamp + " " + tag + ": " + text + "\n"])
  {
  }

  /** With a key: the call is `log_message` on the caller-prefixed message, label passed as given. */
  lemma LogWithKey(doc: CacheDoc, defaultLog: Value, message: string, args: LogArgs,
                   now: int, stamp: string)
    requires args.key.Some?
    ensures LogEffect(doc, defaultLog, message, args, now, stamp) ==
            MessageEffect(doc, defaultLog, args.key.value, WithCaller(args.caller, message),
                          MessageArgs(args.tag, args.logfn, args.quiet, args.suppress), now, stamp)
  {
  }

  /** A severity method: `log` with its label when the logger's level is at or below it, else nothing. */
  function SeverityEffect(level: int, severity: int, name: string, doc: CacheDoc, defaultLog: Value,
                          message: string, args: LogArgs, now: int, stamp: string): Effect
  {
    if level <= severity then LogEffect(doc, defaultLog, message, args.(tag := Some(name)), now, stamp)
    else Effect(Success(true), [], [], doc)
  }

  /**
   * A level above the severity writes nothing; a level at or below it writes at
   * least one line whenever the call has somewhere to write: a key, a terminal
   * line that is not quiet, or a named log file.
   */
  lemma SeverityFilter(level: int, severity: int, name: string, doc: CacheDoc, defaultLog: Value,
                       message: string, args: LogArgs, now: int, stamp: string)
    ensures var e := SeverityEffect(level, severity, name, doc, defaultLog, message, args, now, stamp);
      && (level > severity ==> e.terminal == [] && e.daily == [] && e.doc == doc)
      && (var somewhere := args.key.Some? || !args.quiet.GetOr(false) || (args.logfn.Some? && args.logfn.value != "");
          level <= severity && somewhere ==> |e.daily| + |e.terminal| > 0)
  {
    if level <= severity && args.key.Some? {
      var a := args.(tag := Some(name));
      var m := WithCaller(args.caller, message);
      var ma := MessageArgs(a.tag, a.logfn, a.quiet, a.suppress);
      if ma.quiet.GetOr(false) {
        QuietLogMessage(doc, defaultLog, args.key.value, m, ma, now, stamp);
      } else {
        NonQuietLogMessage(doc, defaultLog, args.key.value, m, ma, now, stamp);
      }
    }
  }

  /** The default level, `log_level("WARNING")`, is WARNING. */
  lemma DefaultLevelIsWarning()
    ensures LogLevel(StrLevel(WarningName)) == WarningLevel
  {
    LevelTableRoundTrip(2);
  }

  /** "WARNING" is its own label. */
  lemma WarningLabel()
    ensures LogLabel(WarningName) == WarningName
  {
    UpperOfUpperCase(WarningName);
  }

  /** The terminal line of a warning from caller "testing". */
  lemma WarningTerminalLine(stamp: string, message: string)
    ensures stamp + " " + WarningName + ": " + WithCaller(Some("testing"), message) + "\n"
         == stamp + " WARNING: testing - " + message + "\n"
  {
    assert WithCaller(Some("testing"), message) == "testing" + " - " + message;
  }

  /** A warning at the WARNING level, with a log file and a caller, goes out to both the terminal and the file. */
  lemma WarningAtWarningLevel(doc: CacheDoc, defaultLog: Value, message: string, logFn: string,
                              now: int, stamp: string)
    requires logFn != ""
    ensures var args := LogArgs(Some("testing"), None, None, Some(logFn), None, None);
      var w := SeverityEffect(WarningLevel, WarningLevel, WarningName, doc, defaultLog, message, args, now, stamp);
      && w.terminal == [stamp + " WARNING: testing - " + message + "\n"]
      && w.daily == [LogLine(StrVal(logFn), DailyLine(stamp, WarningName, "testing - " + message, None))]
  {
    var args := LogArgs(Some("testing"), None, None, Some(logFn), None, None);
    WarningLabel();
    WarningTerminalLine(stamp, message);
    assert "testing" + " - " + message == "testing - " + message;
    assert WithCaller(Some("testing"), message) == "testing - " + message;
    var e := LogEffect(doc, defaultLog, message, args.(tag := Some(WarningName)), now, stamp);
    assert e.daily == [LogLine(StrVal(logFn), DailyLine(stamp, WarningName, WithCaller(Some("testing"), message), None))];
  }

  /**
   * A logger at the default level, sent debug, warning and info with a log file
   * and caller "testing": one terminal line and one log line, both the warning.
   */
  lemma DefaultLevelScenario(doc: CacheDoc, defaultLog: Value, message: string, logFn: string,
                             now: int, stamp: string)
    requires logFn != ""
    ensures var args := LogArgs(Some("testing"), None, None, Some(logFn), None, None);
      var level := LogLevel(StrLevel(WarningName));
      var d := SeverityEffect(level, DebugLevel, "DEBUG", doc, defaultLog, message, args, now, stamp);
      var w := SeverityEffect(level, WarningLevel, WarningName, doc, defaultLog, message, args, now, stamp);
      var i := SeverityEffect(level, InfoLevel, "INFO", doc, defaultLog, message, args, now, stamp);
      && d.terminal + w.terminal + i.terminal == [stamp + " WARNING: testing - " + message + "\n"]
      && d.daily + w.daily + i.daily == [LogLine(StrVal(logFn), DailyLine(stamp, WarningName, "testing - " + message, None))]
  {
    DefaultLevelIsWarning();
    WarningAtWarningLevel(doc, defaultLog, message, logFn, now, stamp);
  }

  /** The logger: the cache it routes keyed messages through and its minimum level. */
  class Logger {
    const cache: Cache
    const level: int

    /** `__init__`: the level is `log_level(level)`, WARNING when not given. */
    constructor (cache: Cache, level: Option<LevelArg>)
      ensures this.cache == cache
      ensures this.level == LogLevel(level.GetOr(StrLevel(WarningName)))
      ensures level.None? ==> this.level == WarningLevel
    {
      this.cache := cache;
      this.level := LogLevel(level.GetOr(StrLevel(WarningName)));
      DefaultLevelIsWarning();
    }

    /** `log`: prefix the caller; with a key hand over to `log_message`, else write directly. */
    method Log(message: string, args: LogArgs, now: int, stamp: string) returns (r: Outcome<CacheError>)
      requires cache.Valid()
      modifies cache, cache.out
      ensures cache.Valid()
      ensures var e := LogEffect(old(cache.cache), cache.config.DefaultLog(), message, args, now, stamp);
        && (r.Fail? <==> e.result.Failure?)
        && cache.cache == e.doc
        && cache.out.stderr == old(cache.out.stderr) + e.terminal
        && cache.out.daily == old(cache.out.daily) + e.daily
    {
      var text := WithCaller(args.caller, message);
      if args.key.Some? {
        var res := cache.LogMessage(args.key.value, text, args.ForMessage(), now, stamp);
        r := if res.Failure? then Fail(res.error) else Pass;
        return;
      }
      var tag := LogLabel(args.tag.GetOr(WarningName));
      var logFn := args.logfn.GetOr("");
      if logFn != "" {
        Cache.AppendDaily(cache.out, tag, text, StrVal(logFn), None, stamp);
      }
      if !args.quiet.GetOr(false) {
        cache.out.WriteStderr(stamp + " " + tag + ": " + text + "\n");
      }
      r := Pass;
    }

    /** The body shared by the five severity methods. */
    method LogAt(severity: int, name: string, message: string, args: LogArgs, now: int, stamp: string)
      returns (r: Outcome<CacheError>)
      requires cache.Valid()
      modifies cache, cache.out
      ensures cache.Valid()
      ensures var e := SeverityEffect(level, severity, name, old(cache.cache), cache.config.DefaultLog(),
                                      message, args, now, stamp);
        && (r.Fail? <==> e.result.Failure?)
        && cache.cache == e.doc
        && cache.out.stderr == old(cache.out.stderr) + e.terminal
        && cache.out.daily == old(cache.out.daily) + e.daily
    {
      if level <= severity {
        r := Log(message, args.(tag := Some(name)), now, stamp);
      } else {
        r := Pass;
      }
    }

    method Debug(message: string, args: LogArgs, now: int, stamp: string) returns (r: Outcome<CacheError>)
      requires cache.Valid()
      modifies cache, cache.out
      ensures cache.Valid()
      ensures var e := SeverityEffect(level, DebugLevel, "DEBUG", old(cache.cache), cache.config.DefaultLog(),
                                      message, args, now, stamp);
        && (r.Fail? <==> e.result.Failure?)
        && cache.cache == e.doc
        && cache.out.stderr == old(cache.out.stderr) + e.terminal
        && cache.out.daily == old(cache.out.daily) + e.daily
    {
      r := LogAt(DebugLevel, "DEBUG", message, args, now, stamp);
    }

    method Info(message: string, args: LogArgs, now: int, stamp: string) returns (r: Outcome<CacheError>)
      requires cache.Valid()
      modifies cache, cache.out
      ensures cache.Valid()
      ensures var e := SeverityEffect(level, InfoLevel, "INFO", old(cache.cache), cache.config.DefaultLog(),
                                      message, args, now, stamp);
        && (r.Fail? <==> e.result.Failure?)
        && cache.cache == e.doc
        && cache.out.stderr == old(cache.out.stderr) + e.terminal
        && cache.out.daily == old(cache.out.daily) + e.daily
    {
      r := LogAt(InfoLevel, "INFO", message, args, now, stamp);
    }

    method Warning(message: string, args: LogArgs, now: int, stamp: string) returns (r: Outcome<CacheError>)
      requires cache.Valid()
      modifies cache, cache.out
      ensures cache.Valid()
      ensures var e := SeverityEffect(level, WarningLevel, WarningName, old(cache.cache), cache.config.DefaultLog(),
                                      message, args, now, stamp);
        && (r.Fail? <==> e.result.Failure?)
        && cache.cache == e.doc
        && cache.out.stderr == old(cache.out.stderr) + e.terminal
        && cache.out.daily == old(cache.out.daily) + e.daily
    {
      r := LogAt(WarningLevel, WarningName, message, args, now, stamp);
    }

    method Error(message: string, args: LogArgs, now: int, stamp: string) returns (r: Outcome<CacheError>)
      requires cache.Valid()
      modifies cache, cache.out
      ensures cache.Valid()
      ensures var e := SeverityEffect(level, ErrorLevel, "ERROR", old(cache.cache), cache.config.DefaultLog(),
                                      message, args, now, stamp);
        && (r.Fail? <==> e.result.Failure?)
        && cache.cache == e.doc
        && cache.out.stderr == old(cache.out.stderr) + e.terminal
        && cache.out.daily == old(cache.out.daily) + e.daily
    {
      r := LogAt(ErrorLevel, "ERROR", message, args, now, stamp);
    }

    method Critical(message: string, args: LogArgs, now: int, stamp: string) returns (r: Outcome<CacheError>)
      requires cache.Valid()
      modifies cache, cache.out
      ensures cache.Valid()
      ensures var e := SeverityEffect(level, CriticalLevel, "CRITICAL", old(cache.cache), cache.config.DefaultLog(),
                                      message, args, now, stamp);
        && (r.Fail? <==> e.result.Failure?)
        && cache.cache == e.doc
        && cache.out.stderr == old(cache.out.stderr) + e.terminal
        && cache.out.daily == old(cache.out.daily) + e.daily
    {
      r := LogAt(CriticalLevel, "CRITICAL", message, args, now, stamp);
    }
  }
}
