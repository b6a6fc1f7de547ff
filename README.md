# dailylog-lib in Dafny

A model of dailylog-lib, a small logging helper. It appends timestamped messages
to a daily log file and rate-limits how often each message class (a *key*)
reaches the terminal. The centre is the per-key suppression cache of `cache.py`.
Each key has a record `(shown, suppressed)`: the time the key's message last
reached the terminal, and how many repeats were held back since then.
`suppress(stifle)` shows a message again only when strictly more than `stifle`
seconds have passed since `shown`. Otherwise it counts one more held-back repeat.
`log_message` sends every non-quiet call through that decision, writes to the
terminal only when the message is shown, and always appends one log line
carrying the count.

Around the cache the model covers:

- `logger.py`: the level table and its lookups, and the `Logger` severity filter and routing.
- `config.py`: the versioned settings document, its default-log setting and the path checks.
- `options.py`: the option set and its absolute-path validation.
- `foos.py`: the `banner` string builder.

Files and modules:

| file | module | source |
|---|---|---|
| `wrappers.dfy` | `Wrappers` | Option / Result / Outcome for keyword defaults and raised errors |
| `text.dfy` | `Text` | ASCII `str.isdigit`, `str.upper`, `int(s)`, `str(n)` |
| `foos.dfy` | `Foos` | `foos.py` |
| `options.dfy` | `Settings` | `options.py` (and the `DEFAULTS` of `constants.py`) |
| `config.dfy` | `Configuration` | `config.py` |
| `io.dfy` | `Io` | the terminal (stderr) and the appended log files |
| `cache.dfy` | `Suppression` | `cache.py` |
| `logger.dfy` | `Logging` | `logger.py` |

The source builds its classes by inheritance (Options, then Config, then Cache,
then Logger). The model uses composition instead:

- a `Logger` holds a `Cache`;
- the `Cache` holds a `Config` and the output `Streams`;
- the `Config` holds an `Options` value.

The clock is a `now` parameter and the locale timestamp an opaque `stamp` parameter.
Each persisted file is a ghost field (`saved`). Every change writes the whole
in-memory document to it, so `Valid()` states `saved == config` (or
`saved == cache`). The terminal and the log files are ghost sequences in `Io.Streams`.

Each state-changing method is specified by a function of the old state.
`Cache.LogMessage` is specified by `MessageEffect`, `Logger.Log` by `LogEffect`,
and the severity methods by `SeverityEffect`. The lemmas state what the source
promises about those functions.

Where the documented behaviour and the code disagree, the model follows the code:

- Every non-quiet log line ends in ` [n]`, including ` [0]` when the message was
  shown (`cache.py:139` always passes the int `record.suppressed`). Only the
  quiet path writes a line without brackets.
- A window of 0 does not make every call visible. A repeat in the same second as
  the last show is held back, because the test is strict (`SameSecondRepeatHeldBack`).
- Loading a cache file does not check its version (`cache.py:193-202`). Only the
  settings file is version-gated.
- A cache file without an `entries` key still yields a zero record. But the
  write-back at `cache.py:140` then raises `KeyError`, after the terminal line and
  the log line were written. The model returns `Failure(MissingEntries)` there.
- `Logger.log` passes `label` to `log_message` unnormalised, and the default label
  there is `ERROR`. The direct path normalises it with `log_label`, defaulting to
  `WARNING`.

## Model

| member | source | states |
|---|---|---|
| Text.Upper | src/dailylog_lib/logger.py:43 | upper-casing keeps the length and maps each character through the ASCII letter mapping |
| Text.UpperKeepsDigits | src/dailylog_lib/logger.py:41-43 | a string is a digit string exactly when its upper-cased form is |
| Text.UpperOfUpperCase | src/dailylog_lib/logger.py:43 | upper-casing leaves a string with no lower-case letters unchanged, so a level name is its own label |
| Text.NatToString | src/dailylog_lib/cache.py:173 | the decimal form of a natural number is a non-empty digit string, one digit long exactly below 10, with no leading zero; with `ParseNatToString` this fixes the string |
| Text.ParseNatToString | src/dailylog_lib/logger.py:60 | `int(str(n)) == n`: reading back the decimal digits gives the number |
| Foos.Half | src/dailylog_lib/foos.py:17 | half the width, truncated toward zero, for both signs |
| Foos.PadChar | src/dailylog_lib/foos.py:18-20 | the fill string is kept when at most one character long, else cut to its first character |
| Foos.Repeat | src/dailylog_lib/foos.py:23-24 | `c * n` has `n` copies of the character, and is empty when `n <= 0` |
| Foos.Banner | src/dailylog_lib/foos.py:4-24 | `banner` itself: the pad, the text and the optional action word joined by single spaces and closed by the pad; its shape is stated by `Foos.BannerShape` and `Foos.PadLength` |
| Foos.BannerShape | src/dailylog_lib/foos.py:21-24 | the banner starts and ends with the pad and has the text after one space; with an action, the word `started`/`exiting` follows the text with one space on each side; its length is two pads + text + 2 (+ action word + 1) |
| Foos.PadLength | src/dailylog_lib/foos.py:17-24 | the pad is the fill character repeated `width / 2` times, nothing when that is not positive |
| Foos.BannerPlainExample | tests/test_foos.py:10-13 | `banner("Test Banner", width=10)` is `"----- Test Banner -----"` |
| Foos.BannerStartedExample | tests/test_foos.py:16-19 | with `action=True, char="="` the word `started` follows the text |
| Foos.BannerExitingExample | tests/test_foos.py:22-25 | with `action=False` the word `exiting` follows the text |
| Settings.ValidateFnAbsolute | src/dailylog_lib/options.py:63-84 | an empty name takes its key's default; success exactly when the result is absolute (empty fails first, then relative); the name is returned unchanged |
| Settings.DefaultsAreAbsolute | src/dailylog_lib/constants.py:9-14 | with no name given, the cache and config keys validate to their built-in defaults |
| Settings.NewOptions | src/dailylog_lib/options.py:17-40 | construction succeeds exactly when both paths validate; then both are absolute and debug/test/verbose default to 0/false/0 |
| Settings.Options.IsDebug | src/dailylog_lib/options.py:42-44 | `is_debug`: the debug level is above 0 |
| Settings.Options.IsTest | src/dailylog_lib/options.py:46-48 | `is_test`: the test flag itself |
| Settings.Options.IsVerbose | src/dailylog_lib/options.py:50-52 | `is_verbose`: the verbosity is above 0 |
| Settings.NoArgumentOptions | src/dailylog_lib/options.py:34-52 | with no arguments the paths are the defaults and `is_debug`, `is_verbose`, `is_test` are all false |
| Settings.RelativePathRefused | src/dailylog_lib/options.py:37-40 | a relative cache path is refused with the cache key's error; once the cache path passes, a relative config path is refused with the config key's error |
| Configuration.UpdateConfig | src/dailylog_lib/config.py:62-72 | raises exactly when the version (missing = 0) is not 1, otherwise returns the document unchanged |
| Configuration.LoadConfig | src/dailylog_lib/config.py:118-124 | `_load_config` on the loaded document: passed through `update_config`; proved equal to it by `Configuration.LoadConfigIsVersionGate` |
| Configuration.LoadConfigIsVersionGate | src/dailylog_lib/config.py:118-124 | `_load_config` behaves as `update_config`, so a loaded document always has version 1 |
| Configuration.DefaultLogOf | src/dailylog_lib/config.py:92-100 | the stored `default_log`, or the built-in default when the key is absent |
| Configuration.FreshDocument | src/dailylog_lib/config.py:44-46 | the document `__init__` writes when there is no settings file; its contents are stated by `Configuration.FreshDocumentDefaults` |
| Configuration.FreshDocumentDefaults | src/dailylog_lib/config.py:43-46 | a fresh settings document has version 1 and the built-in default log |
| Configuration.ValidateExistingPath | src/dailylog_lib/config.py:103-116 | an existing path must be a regular file (else not-a-file), then writable (else not-writable) |
| Configuration.ValidatePath | src/dailylog_lib/config.py:75-90 | passes exactly when the existing path is a writable file or the missing path's parent is a writable directory; errors in that order |
| Configuration.Config.Fresh | src/dailylog_lib/config.py:41-47 | no settings file: a fresh version-1 document, saved at once |
| Configuration.Config.Loaded | src/dailylog_lib/config.py:41-42 | a settings file that passed the version gate is held as it is |
| Configuration.Config.Open | src/dailylog_lib/config.py:23-46 | creates or loads the document; a loaded one is accepted exactly at version 1, else an unknown-version error |
| Configuration.Config.DefaultLog | src/dailylog_lib/config.py:92-100 | `default_log()` of the held document, as `Configuration.DefaultLogOf` states |
| Configuration.Config.SetDefaultLog | src/dailylog_lib/config.py:49-60 | on a failed check nothing changes; else only `default_log` changes, to the given path, and `default_log()` returns it |
| Suppression.FromRaw | src/dailylog_lib/cache.py:23-35 | no dict gives a zero record; a missing `shown` or `suppressed` field reads as 0 |
| Suppression.ToRaw | src/dailylog_lib/cache.py:58-66 | `to_dict`: the two named fields; `Suppression.RawRoundTrip` proves it reads back as the record |
| Suppression.RawRoundTrip | src/dailylog_lib/cache.py:58-77 | a record rebuilt from `to_dict` equals the original, and the dict holds exactly the two fields |
| Suppression.Step | src/dailylog_lib/cache.py:50-56 | one `suppress` decision on a record value; `Suppression.CacheRecord.Suppress` is proved against it and `Suppression.RunAfterLastShown` iterates it |
| Suppression.SameSecondRepeatHeldBack | src/dailylog_lib/cache.py:50-56 | with a non-negative window, a repeat in the second of the last show is held back and counted |
| Suppression.LastShown | src/dailylog_lib/cache.py:50-54 | the index found is in range, the attempt there passed the window test, and no later attempt did |
| Suppression.RunAfterLastShown | src/dailylog_lib/cache.py:37-56 | after any run of attempts the record holds the time of the last shown attempt and the number held back since it (or the old record plus one per attempt) |
| Suppression.ShownIffWindowElapsed | src/dailylog_lib/cache.py:50-54 | an attempt is shown exactly when more than the window has passed since the last shown attempt |
| Suppression.DailyLine | src/dailylog_lib/cache.py:166-174 | one log-file line, `stamp label: message`, with ` [n]` when a count is given; related to the uncounted line by `Suppression.DailyLineCount` |
| Suppression.DailyLineCount | src/dailylog_lib/cache.py:169-174 | a counted log line is the uncounted line with ` [n]` inserted before its newline |
| Suppression.RecordFor | src/dailylog_lib/cache.py:177-191 | absent entries or an absent key give a zero record, else the stored dict read with defaults |
| Suppression.MessageEffect | src/dailylog_lib/cache.py:105-142 | `log_message` as a value: result, terminal lines, log lines and the document after; its promises are `Suppression.QuietLogMessage` and `Suppression.NonQuietLogMessage` |
| Suppression.QuietLogMessage | src/dailylog_lib/cache.py:128-133 | quiet: returns true, writes no terminal line, appends one log line without a count, leaves the cache unchanged |
| Suppression.NonQuietLogMessage | src/dailylog_lib/cache.py:134-141 | not quiet: terminal line only when shown; one log line with the updated count (0 when shown); result true iff shown; the key's entry becomes exactly the two-field `to_dict()` of the new record and the other entries are unchanged |
| Suppression.ThreeCallsOneShown | tests/test_cache.py:76-88 | three calls in one second on a new cache with the one-day window: one terminal line, three log lines counted 0, 1, 2 |
| Suppression.ThreeQuietCalls | tests/test_cache.py:91-105 | three quiet calls: no terminal line, three uncounted log lines, cache untouched |
| Suppression.CacheRecord.constructor | src/dailylog_lib/cache.py:23-35 | the new record holds the dict's fields, zeros for a missing dict or field |
| Suppression.CacheRecord.Suppress | src/dailylog_lib/cache.py:37-56 | held back iff `now - shown <= stifle`; shown: `shown = now`, count 0; held back: count + 1, `shown` unchanged |
| Suppression.CacheRecord.ToDict | src/dailylog_lib/cache.py:58-66 | the dict has exactly the two fields and reads back as this record |
| Suppression.Cache.constructor | src/dailylog_lib/cache.py:193-202 | an existing file's document is used as it is; otherwise a version-1 document with no entries, saved |
| Suppression.Cache.GetRecord | src/dailylog_lib/cache.py:177-191 | a fresh record object holding the key's stored values or zeros |
| Suppression.Cache.AppendDaily | src/dailylog_lib/cache.py:145-175 | appends exactly one line to the named log file and nothing to the terminal |
| Suppression.Cache.LogMessage | src/dailylog_lib/cache.py:105-142 | result, cache document, terminal and log output are those of `MessageEffect`; the file stays equal to the document |
| Logging.NameLookup | src/dailylog_lib/logger.py:43 | finds a number exactly when some table entry has the name, and returns that entry's number |
| Logging.ValueLookup | src/dailylog_lib/logger.py:61-63 | finds a name exactly when some table entry has the number, and returns that entry's name |
| Logging.TableEntries | src/dailylog_lib/logger.py:11-19 | the table's names and numbers are exactly the five level names and 10, 20, 30, 40, 50 |
| Logging.LookupEntry | src/dailylog_lib/logger.py:11-19 | each entry is what both lookups return for its name and for its number |
| Logging.LabelToLevel | src/dailylog_lib/logger.py:22-43 | fails exactly on digit strings; otherwise a table number, WARNING for an unknown name |
| Logging.LogLabel | src/dailylog_lib/logger.py:46-69 | always one of the five names; a digit string (leading zeros allowed) gives the name of the table entry with its number, or WARNING when there is none; a non-digit string gives its upper-cased form when that is a name, else WARNING |
| Logging.KnownLevel | src/dailylog_lib/logger.py:91-95 | a table number is returned as it is, any other number gives WARNING |
| Logging.LogLevel | src/dailylog_lib/logger.py:72-95 | always one of 10, 20, 30, 40, 50; an int, or a digit string read as a number (leading zeros allowed), gives itself when it is a table number, else WARNING |
| Logging.NumericLevelExamples | src/dailylog_lib/logger.py:85-95 | `log_level(42)` is 30, `log_level(20)` is 20, `"042"` gives 30, `"010"` gives 10, and `log_label("010")` is `"DEBUG"` |
| Logging.NameSpellingNotDigits | src/dailylog_lib/logger.py:85-89 | a spelling of a level name is not a digit string |
| Logging.LogLevelOfNonDigits | src/dailylog_lib/logger.py:85-89 | `log_level` only passes non-digit strings to `_label_to_level`, which then accepts them |
| Logging.LogLevelOfName | src/dailylog_lib/logger.py:43 | any letter-case spelling of a table name gives that name's number |
| Logging.LogLevelOfUnknownName | src/dailylog_lib/logger.py:43 | an unknown non-digit name gives WARNING |
| Logging.LogLevelOfNumberString | src/dailylog_lib/logger.py:86-95 | the decimal string of a number gives it when it is a table number, else WARNING |
| Logging.LogLabelOfNumberString | src/dailylog_lib/logger.py:59-63 | the decimal string of a table number gives its name |
| Logging.LevelTableRoundTrip | tests/test_log_levels.py:10-14 | for each table entry, the name gives the number and the number's string gives the name |
| Logging.LabelOfLevelMapsBack | src/dailylog_lib/logger.py:46-95 | whatever `log_level` returns, the label of its string maps back to it |
| Logging.UnknownLevelExamples | tests/test_log_levels.py:13-14 | `log_level("42")` is WARNING's number and `log_label("wtf")` is `"WARNING"` |
| Logging.WithCaller | src/dailylog_lib/logger.py:141-143 | a non-empty caller is prefixed as `caller + " - "`; otherwise the message is unchanged |
| Logging.LogEffect | src/dailylog_lib/logger.py:124-153 | `log` as a value: with a key, `log_message`; without, the direct terminal and log-file lines; its promises are `Logging.LogWithoutKey` and `Logging.LogWithKey` |
| Logging.LogWithoutKey | src/dailylog_lib/logger.py:146-153 | no key: normalised label; one uncounted log line exactly when a log file is named; one terminal line exactly when not quiet; cache untouched |
| Logging.LogWithKey | src/dailylog_lib/logger.py:144-145 | with a key the call is `log_message` on the caller-prefixed message with the remaining arguments |
| Logging.SeverityEffect | src/dailylog_lib/logger.py:155-183 | a severity method as a value: `log` with its label when the level admits it, else nothing; its promise is `Logging.SeverityFilter` |
| Logging.SeverityFilter | src/dailylog_lib/logger.py:155-183 | a configured level above the method's severity writes nothing; a level at or below it writes at least one line when the call has a key, is not quiet, or names a log file |
| Logging.DefaultLevelIsWarning | src/dailylog_lib/logger.py:122 | the default level, `log_level("WARNING")`, is 30 |
| Logging.WarningLabel | src/dailylog_lib/logger.py:65-67 | `log_label("WARNING")` is `"WARNING"` |
| Logging.WarningTerminalLine | src/dailylog_lib/logger.py:141-153 | a WARNING line from caller `testing` reads `WARNING: testing - ` followed by the message |
| Logging.WarningAtWarningLevel | tests/test_logger.py:74-85 | a warning at the default level with a log file and caller goes to the terminal and the file as `WARNING: testing - message` |
| Logging.DefaultLevelScenario | tests/test_logger.py:30-42 | default level, debug + warning + info: exactly one terminal line and one log line, the warning |
| Logging.Logger.constructor | src/dailylog_lib/logger.py:103-122 | the level is `log_level` of the argument, WARNING (30) when not given |
| Logging.Logger.Log | src/dailylog_lib/logger.py:124-153 | effect, result and cache document are those of `LogEffect` |
| Logging.Logger.LogAt | src/dailylog_lib/logger.py:155-183 | logs with the given label when the level is at or below the severity, else nothing changes |
| Logging.Logger.Debug | src/dailylog_lib/logger.py:155-159 | `log` with label DEBUG when the level is at most 10, else nothing |
| Logging.Logger.Info | src/dailylog_lib/logger.py:161-165 | `log` with label INFO when the level is at most 20, else nothing |
| Logging.Logger.Warning | src/dailylog_lib/logger.py:167-171 | `log` with label WARNING when the level is at most 30, else nothing |
| Logging.Logger.Error | src/dailylog_lib/logger.py:173-177 | `log` with label ERROR when the level is at most 40, else nothing |
| Logging.Logger.Critical | src/dailylog_lib/logger.py:179-183 | `log` with label CRITICAL when the level is at most 50, else nothing |

## Left out

- File persistence (`load_json_file`, `write_json_file`, `load_yaml_file`, `write_yaml_file`, `ensure_directory`) belongs to another library. A loaded document is an input (`onDisk`), and saving sets the ghost `saved` field to the in-memory document.
- Wall-clock time (`datetime.now`) is the `now` parameter. The locale timestamp of `append_daily` and the `Cache.t_stamp` used by `Logger.log` are the opaque `stamp` parameter. `t_stamp` is not defined in any of the files modelled here.
- File-system queries (`Path.exists`, `is_file`, `is_dir`, `os.access`) are the booleans of `PathFacts`. `Path(...)` normalisation is the identity. A path is absolute when it starts with `/`.
- The home directory is the fixed string `/home/user`.
- The debug `print` of `_save_config` is not modelled.
- Text functions are ASCII only: Unicode digits for `str.isdigit`, and case mappings outside a-z for `str.upper`.
- `config_path`/`cache_path` only wrap a string in `Path`, so the model uses the strings directly.
- Keyword arguments are typed: `label` and `logfn` are strings, `level` is an int or a string, `debug`/`verbose` are ints, `test`/`action` are bools, and `banner`'s `width` is an int and `char` a string, so the `int(...)`/`str(...)` conversions of `foos.py:17-18` (`width="10"`, `char=5`) are not modelled.
- Python's `bool`-is-`int` coercions and `int()` of a non-numeric value are not modelled.
- Document values are integers or strings only. Other YAML/JSON values, and extra top-level keys of the cache file, are not modelled.
- `Foos.Half`: does not model the float rounding of `width / 2` for widths beyond 2^53.
- Suppression.Cache.AppendDaily: the append always succeeds. A failing `open(log_fn, "a")` (missing directory, empty name) raises in the source, on the non-quiet path after the terminal line and before the record is written back; the model does not produce that error.
- Suppression.Cache.LogMessage: for the same reason never fails at the append; its only error is the missing `entries` key. `Logging.Logger.Log` likewise never fails at the direct append of `logger.py:150`.
- Ordering between the terminal and the log files is not modelled: they are two separate sequences.
- Concurrent writers across processes are not modelled: everything is sequential.
