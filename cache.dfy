/**
 * cache.py: the per-key suppression rate limiter. A record per key remembers when
 * its message last reached the terminal and how many repeats were held back since.
 */
module Suppression {
  import opened Wrappers
  import opened Text
  import opened Configuration
  import opened Io

  const CacheVersion := 1
  /** The default suppression window: one day, in seconds. */
  const Day := 86400
  const ShownKey := "shown"
  const SuppressedKey := "suppressed"
  const DefaultLabel := "ERROR"

  /** A record as stored in the cache file: a dict whose fields may be missing. */
  type RawRecord = map<string, int>

  /** The value of a record: last time shown (Unix seconds) and repeats held back since. */
  datatype Record = Record(shown: int, suppressed: int)

  const ZeroRecord := Record(0, 0)

  /** The `CacheRecord` constructor: no dict gives a zero record; a missing field reads as 0. */
  function FromRaw(d: Option<RawRecord>): (r: Record)
    ensures d.None? ==> r == ZeroRecord
    ensures d.Some? ==> r.shown == (if ShownKey in d.value then d.value[ShownKey] else 0)
    ensures d.Some? ==> r.suppressed == (if SuppressedKey in d.value then d.value[SuppressedKey] else 0)
  {
    match d
    case None => ZeroRecord
    case Some(m) =>
      Record(if ShownKey in m then m[ShownKey] else 0,
             if SuppressedKey in m then m[SuppressedKey] else 0)
  }

  /** `to_dict`. */
  function ToRaw(r: Record): RawRecord {
    map[ShownKey := r.shown, SuppressedKey := r.suppressed]
  }

  /** Building a record from the dict of another gives back the same record. */
  lemma RawRoundTrip(r: Record)
    ensures FromRaw(Some(ToRaw(r))) == r
    ensures ToRaw(r).Keys == {ShownKey, SuppressedKey}
  {
  }

  /** The window test of `suppress`: strictly more than `stifle` seconds since last shown. */
  predicate Shows(r: Record, stifle: int, now: int) {
    now - r.shown > stifle
  }

  /** The record after one attempt at time `now`. */
  function Step(r: Record, stifle: int, now: int): Record {
    if Shows(r, stifle, now) then Record(now, 0) else Record(r.shown, r.suppressed + 1)
  }

  /** A repeat in the very second of the last show is held back, whatever the (non-negative) window. */
  lemma SameSecondRepeatHeldBack(r: Record, stifle: int, now: int)
    requires stifle >= 0
    ensures !Shows(Step(r, stifle, now), stifle, now)
    ensures Step(Step(r, stifle, now), stifle, now).suppressed == Step(r, stifle, now).suppressed + 1
  {
  }

  /** The record after attempts at the given times, in order. */
  function Run(r: Record, stifle: int, times: seq<int>): Record
    decreases |times|
  {
    if times == [] then r
    else Step(Run(r, stifle, times[..|times| - 1]), stifle, times[|times| - 1])
  }

  /** The index of the last attempt in `times` that was shown (no later one was), or -1 if none was. */
  function LastShown(r: Record, stifle: int, times: seq<int>): (k: int)
    ensures -1 <= k < |times|
    ensures k >= 0 ==> Shows(Run(r, stifle, times[..k]), stifle, times[k])
    ensures forall j :: k < j < |times| ==> !Shows(Run(r, stifle, times[..j]), stifle, times[j])
    decreases |times|
  {
    if times == [] then -1
    else if Shows(Run(r, stifle, times[..|times| - 1]), stifle, times[|times| - 1]) then
      assert times[..|times| - 1] == times[..|times| - 1][..|times| - 1];
      |times| - 1
    else
      var k := LastShown(r, stifle, times[..|times| - 1]);
      assert k >= 0 ==> times[..|times| - 1][..k] == times[..k];
      assert forall j :: 0 <= j < |times| - 1 ==> times[..|times| - 1][..j] == times[..j];
      k
  }

  /**
   * After any run of attempts the record holds the time of the last shown attempt
   * and the number of attempts held back after it; with none shown, the old
   * time and the old count plus one per attempt.
   */
  lemma {:induction false} RunAfterLastShown(r: Record, stifle: int, times: seq<int>)
    ensures var k := LastShown(r, stifle, times);
      Run(r, stifle, times) ==
        if k < 0 then Record(r.shown, r.suppressed + |times|)
        else Record(times[k], |times| - 1 - k)
    decreases |times|
  {
    if times != [] {
      var init := times[..|times| - 1];
      RunAfterLastShown(r, stifle, init);
      var k := LastShown(r, stifle, init);
      assert k >= 0 ==> init[k] == times[k];
    }
  }

  /**
   * An attempt is shown exactly when more than the window has passed since the
   * last attempt that was shown (or since the starting record's time, before any).
   */
  lemma ShownIffWindowElapsed(r: Record, stifle: int, times: seq<int>, t: int)
    ensures var k := LastShown(r, stifle, times);
      var lastTime := if k < 0 then r.shown else times[k];
      (LastShown(r, stifle, times + [t]) == |times|) <==> t - lastTime > stifle
  {
    var ts := times + [t];
    assert ts[..|ts| - 1] == times;
    RunAfterLastShown(r, stifle, times);
  }

  /** The shape of one log-file line, with or without the bracketed count. */
  function DailyLine(stamp: string, tag: string, message: string, count: Option<int>): string {
    match count
    case None => stamp + " " + tag + ": " + message + "\n"
    case Some(n) => stamp + " " + tag + ": " + message + " [" + IntToString(n) + "]\n"
  }

  /** A counted line is the plain line with ` [n]` put in before its newline. */
  lemma DailyLineCount(stamp: string, tag: string, message: string, n: int)
    ensures var plain := DailyLine(stamp, tag, message, None);
      DailyLine(stamp, tag, message, Some(n)) == plain[..|plain| - 1] + " [" + IntToString(n) + "]\n"
  {
    var plain := DailyLine(stamp, tag, message, None);
    assert plain[..|plain| - 1] == stamp + " " + tag + ": " + message;
  }

  /** The cache document: its version and its entries, either of which a loaded file may lack. */
  datatype CacheDoc = CacheDoc(version: Option<Value>, entries: Option<map<string, RawRecord>>)

  /** The document `_load_cache` creates when there is no cache file. */
  const NewCacheDoc := CacheDoc(Some(IntVal(CacheVersion)), Some(map[]))

  /** `_get_record`: the key's record, or a zero record when the entries or the key are absent. */
  function RecordFor(doc: CacheDoc, key: string): (r: Record)
    ensures doc.entries.None? || key !in doc.entries.value ==> r == ZeroRecord
    ensures doc.entries.Some? && key in doc.entries.value ==> r == FromRaw(Some(doc.entries.value[key]))
  {
    var entries := doc.entries.GetOr(map[]);
    FromRaw(if key in entries then Some(entries[key]) else None)
  }

  /** The `KeyError` of writing a record back into a document that has no entries. */
  datatype CacheError = MissingEntries

  /** The keyword arguments of `log_message`, each optional. */
  datatype MessageArgs = MessageArgs(
    tag: Option<string>,
    logfn: Option<string>,
    quiet: Option<bool>,
    suppress: Option<int>)

  /** What one logging call does: its result, the lines it writes, and the cache document after it. */
  datatype Effect = Effect(
    result: Result<bool, CacheError>,
    terminal: seq<string>,
    daily: seq<LogLine>,
    doc: CacheDoc)

  /** The log file of a call: `logfn` when given, else the configured default. */
  function LogFile(args: MessageArgs, defaultLog: Value): Value {
    if args.logfn.Some? then StrVal(args.logfn.value) else defaultLog
  }

  /** `log_message` as a function of the cache document, the configured default log and the clock. */
  function MessageEffect(doc: CacheDoc, defaultLog: Value, key: string, message: string,
                         args: MessageArgs, now: int, stamp: string): Effect
  {
    var tag := args.tag.GetOr(DefaultLabel);
    var file := LogFile(args, defaultLog);
    if args.quiet.GetOr(false) then
      Effect(Success(true), [], [LogLine(file, DailyLine(stamp, tag, message, None))], doc)
    else
      var stifle := args.suppress.GetOr(Day);
      var record := RecordFor(doc, key);
      var shown := Shows(record, stifle, now);
      var next := Step(record, stifle, now);
      var terminal := if shown then [tag + ": " + message + "\n"] else [];
      var line := LogLine(file, DailyLine(stamp, tag, message, Some(next.suppressed)));
      match doc.entries
      case None => Effect(Failure(MissingEntries), terminal, [line], doc)
      case Some(entries) => Effect(Success(shown), terminal, [line], doc.(entries := Some(entries[key := ToRaw(next)])))
  }

  /** Quiet: one log line without a count, nothing on the terminal, true, and the cache untouched. */
  lemma QuietLogMessage(doc: CacheDoc, defaultLog: Value, key: string, message: string,
                        args: MessageArgs, now: int, stamp: string)
    requires args.quiet == Some(true)
    ensures var e := MessageEffect(doc, defaultLog, key, message, args, now, stamp);
      && e.result == Success(true)
      && e.terminal == []
      && e.daily == [LogLine(LogFile(args, defaultLog), DailyLine(stamp, args.tag.GetOr(DefaultLabel), message, None))]
      && e.doc == doc
  {
  }

  /**
   * Not quiet: the record is shown exactly when the window has passed, the
   * terminal gets a line only then, the log gets one line counting the repeats
   * held back (0 when shown), and the key's entry is the updated record while
   * every other entry stays as it was.
   */
  lemma NonQuietLogMessage(doc: CacheDoc, defaultLog: Value, key: string, message: string,
                           args: MessageArgs, now: int, stamp: string)
    requires !args.quiet.GetOr(false)
    ensures var e := MessageEffect(doc, defaultLog, key, message, args, now, stamp);
      var tag := args.tag.GetOr(DefaultLabel);
      var stifle := args.suppress.GetOr(Day);
      var before := RecordFor(doc, key);
      var shown := now - before.shown > stifle;
      var after := if shown then Record(now, 0) else Record(before.shown, before.suppressed + 1);
      && e.terminal == (if shown then [tag + ": " + message + "\n"] else [])
      && e.daily == [LogLine(LogFile(args, defaultLog), DailyLine(stamp, tag, message, Some(after.suppressed)))]
      && (shown ==> after.suppressed == 0)
      && (doc.entries.None? ==> e.result == Failure(MissingEntries) && e.doc == doc)
      && (doc.entries.Some? ==>
            && e.result == Success(shown)
            && e.doc.version == doc.version
            && e.doc.entries.Some?
            && e.doc.entries.value.Keys == doc.entries.value.Keys + {key}
            && e.doc.entries.value[key] == ToRaw(after)
            && RecordFor(e.doc, key) == after
            && forall k :: k in doc.entries.value && k != key ==> e.doc.entries.value[k] == doc.entries.value[k])
  {
    var stifle := args.suppress.GetOr(Day);
    RawRoundTrip(Step(RecordFor(doc, key), stifle, now));
  }

  /**
   * Three calls in the same second on a new cache with the default one-day
   * window: one terminal line and three log lines, counted 0, 1 and 2.
   */
  lemma ThreeCallsOneShown(defaultLog: Value, key: string, message: string, logFn: string,
                           now: int, stamp: string)
    requires now > Day
    ensures var e1 := MessageEffect(NewCacheDoc, defaultLog, key, message, MessageArgs(Some("DEBUG"), Some(logFn), None, None), now, stamp);
      var e2 := MessageEffect(e1.doc, defaultLog, key, message, MessageArgs(Some("WARNING"), Some(logFn), None, None), now, stamp);
      var e3 := MessageEffect(e2.doc, defaultLog, key, message, MessageArgs(Some("INFO"), Some(logFn), None, None), now, stamp);
      && |e1.terminal + e2.terminal + e3.terminal| == 1
      && e1.daily + e2.daily + e3.daily == [
           LogLine(StrVal(logFn), DailyLine(stamp, "DEBUG", message, Some(0))),
           LogLine(StrVal(logFn), DailyLine(stamp, "WARNING", message, Some(1))),
           LogLine(StrVal(logFn), DailyLine(stamp, "INFO", message, Some(2)))]
      && e1.result == Success(true) && e2.result == Success(false) && e3.result == Success(false)
      && RecordFor(e3.doc, key) == Record(now, 2)
  {
    var e1 := MessageEffect(NewCacheDoc, defaultLog, key, message, MessageArgs(Some("DEBUG"), Some(logFn), None, None), now, stamp);
    RawRoundTrip(Record(now, 0));
    assert RecordFor(e1.doc, key) == Record(now, 0);
    var e2 := MessageEffect(e1.doc, defaultLog, key, message, MessageArgs(Some("WARNING"), Some(logFn), None, None), now, stamp);
    RawRoundTrip(Record(now, 1));
    assert RecordFor(e2.doc, key) == Record(now, 1);
    RawRoundTrip(Record(now, 2));
  }

  /** Three quiet calls: nothing on the terminal, three uncounted log lines, the cache document untouched. */
  lemma ThreeQuietCalls(doc: CacheDoc, defaultLog: Value, key: string, message: string, logFn: string,
                        now: int, stamp: string)
    ensures var e1 := MessageEffect(doc, defaultLog, key, message, MessageArgs(Some("DEBUG"), Some(logFn), Some(true), None), now, stamp);
      var e2 := MessageEffect(e1.doc, defaultLog, key, message, MessageArgs(Some("WARNING"), Some(logFn), Some(true), None), now, stamp);
      var e3 := MessageEffect(e2.doc, defaultLog, key, message, MessageArgs(Some("INFO"), Some(logFn), Some(true), None), now, stamp);
      && e1.terminal + e2.terminal + e3.terminal == []
      && e1.daily + e2.daily + e3.daily == [
           LogLine(StrVal(logFn), DailyLine(stamp, "DEBUG", message, None)),
           LogLine(StrVal(logFn), DailyLine(stamp, "WARNING", message, None)),
           LogLine(StrVal(logFn), DailyLine(stamp, "INFO", message, None))]
      && e3.doc == doc
  {
  }

  /** A `CacheRecord` object, updated in place by `suppress`. */
  class CacheRecord {
    var shown: int
    var suppressed: int

    function State(): Record
      reads this
    {
      Record(shown, suppressed)
    }

    /** `__init__` (and `_from_dict` when a dict is given). */
    constructor (d: Option<RawRecord>)
      ensures State() == FromRaw(d)
    {
      var r := FromRaw(d);
      shown := r.shown;
      suppressed := r.suppressed;
    }

    /**
     * `suppress(stifle)` at time `now`: returns true when the message is held back.
     * Shown: re-armed at `now` with the count reset; held back: count plus one.
     */
    method Suppress(stifle: int, now: int) returns (held: bool)
      modifies this
      ensures held <==> !(now - old(shown) > stifle)
      ensures !held ==> shown == now && suppressed == 0
      ensures held ==> shown == old(shown) && suppressed == old(suppressed) + 1
      ensures State() == Step(old(State()), stifle, now)
    {
      if now - shown > stifle {
        shown := now;
        suppressed := 0;
        return false;
      }
      suppressed := suppressed + 1;
      return true;
    }

    /** `to_dict`: both fields, which read back as this record. */
    function ToDict(): (d: RawRecord)
      reads this
      ensures d.Keys == {ShownKey, SuppressedKey}
      ensures FromRaw(Some(d)) == State()
    {
      map[ShownKey := shown, SuppressedKey := suppressed]
    }
  }

  /**
   * The cache: the settings it reads the default log from, the output streams,
   * the cache document in memory and (ghost) the document in the cache file.
   */
  class Cache {
    const config: Config
    const out: Streams
    var cache: CacheDoc
    ghost var saved: CacheDoc

    /** Write-through: the file always holds the document in memory. */
    ghost predicate Valid()
      reads this
    {
      saved == cache
    }

    /**
     * `__init__` and `_load_cache`: the cache file's document as it is (its version
     * is not checked), or with no file a new version-1 document with no entries,
     * saved at once.
     */
    constructor (config: Config, out: Streams, onDisk: Option<CacheDoc>)
      ensures Valid()
      ensures this.config == config && this.out == out
      ensures onDisk.Some? ==> cache == onDisk.value
      ensures onDisk.None? ==> cache.version == Some(IntVal(1)) && cache.entries == Some(map[])
    {
      this.config := config;
      this.out := out;
      if onDisk.Some? {
        cache := onDisk.value;
        saved := onDisk.value;
      } else {
        cache := NewCacheDoc;
        saved := NewCacheDoc;
      }
    }

    /** `_get_record`: a new record object holding the key's stored values, or zeros. */
    method GetRecord(key: string) returns (record: CacheRecord)
      ensures fresh(record)
      ensures record.State() == RecordFor(cache, key)
    {
      var entries := cache.entries.GetOr(map[]);
      record := new CacheRecord(if key in entries then Some(entries[key]) else None);
    }

    /** `append_daily`: one line, with the bracketed count when one is given. */
    static method AppendDaily(out: Streams, tag: string, message: string, logFn: Value,
                              count: Option<int>, stamp: string)
      modifies out
      ensures out.daily == old(out.daily) + [LogLine(logFn, DailyLine(stamp, tag, message, count))]
      ensures out.stderr == old(out.stderr)
    {
      out.AppendLine(LogLine(logFn, DailyLine(stamp, tag, message, count)));
    }

    /**
     * `log_message` at time `now`. Quiet: log only. Otherwise apply `suppress` to
     * the key's record, write the terminal line when shown, always log the line
     * with the count, then store the record and save.
     */
    method LogMessage(key: string, message: string, args: MessageArgs, now: int, stamp: string)
      returns (r: Result<bool, CacheError>)
      requires Valid()
      modifies this, out
      ensures Valid()
      ensures var e := MessageEffect(old(cache), config.DefaultLog(), key, message, args, now, stamp);
        && r == e.result
        && cache == e.doc
        && out.stderr == old(out.stderr) + e.terminal
        && out.daily == old(out.daily) + e.daily
    {
      var tag := args.tag.GetOr(DefaultLabel);
      var logFn := LogFile(args, config.DefaultLog());
      if args.quiet.GetOr(false) {
        AppendDaily(out, tag, message, logFn, None, stamp);
        return Success(true);
      }
      var record := GetRecord(key);
      var held := record.Suppress(args.suppress.GetOr(Day), now);
      if !held {
        out.WriteStderr(tag + ": " + message + "\n");
      }
      AppendDaily(out, tag, message, logFn, Some(record.suppressed), stamp);
      if cache.entries.None? {
        return Failure(MissingEntries);
      }
      cache := cache.(entries := Some(cache.entries.value[key := record.ToDict()]));
      saved := cache;
      r := Success(!held);
    }
  }
}
