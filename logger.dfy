/** The in-memory log buffer of `src/utils/logger.ts`: a level filter in front
    of a bounded list that drops its oldest entry when it overflows. */
module Logging {
  import opened Wrappers

  datatype LogLevel = Debug | Info | Warn | Error

  /** `LOG_LEVELS`: debug 0 < info 1 < warn 2 < error 3. */
  function Rank(l: LogLevel): nat
  {
    match l
    case Debug => 0
    case Info => 1
    case Warn => 2
    case Error => 3
  }

  /** Whether a logger set to `current` records a message of level `l`. */
  predicate Admits(current: LogLevel, l: LogLevel): (b: bool)
    ensures current == Debug || l == Error ==> b
    ensures current == Error ==> (b <==> l == Error)
    ensures l == current ==> b
    ensures current == Warn ==> (b <==> l == Warn || l == Error)
    ensures current == Info ==> (b <==> l != Debug)
  {
    Rank(l) >= Rank(current)
  }

  /** The structured metadata of an entry, kept opaque. */
  datatype Metadata = Metadata(fields: map<string, string>)

  datatype LogEntry = LogEntry(level: LogLevel, message: string, timestamp: int, metadata: Option<Metadata>)

  /** `xs` ends with `ys`. */
  predicate IsSuffix<T(==)>(ys: seq<T>, xs: seq<T>)
  {
    |ys| <= |xs| && xs[|xs| - |ys|..] == ys
  }

  /** The buffer after `addEntry(e)` with bound `max`: push, then a single
      `shift` if the length exceeds the bound. */
  function AfterAdd(entries: seq<LogEntry>, e: LogEntry, max: int): (r: seq<LogEntry>)
    ensures IsSuffix(r, entries + [e])
    ensures |r| == if |entries| + 1 > max then |entries| else |entries| + 1
    ensures r != [] ==> r[|r| - 1] == e
    ensures 0 <= max && |entries| <= max ==> |r| <= max
  {
    var pushed := entries + [e];
    if |pushed| > max then pushed[1..] else pushed
  }

  /** `Array.prototype.slice(start)` with one argument. */
  function SliceFrom<T(==)>(xs: seq<T>, start: int): (r: seq<T>)
    ensures start < 0 ==> IsSuffix(r, xs) && |r| == if -start <= |xs| then -start else |xs|
    ensures start >= 0 ==> IsSuffix(r, xs) && |r| == if start <= |xs| then |xs| - start else 0
  {
    if start < 0 then
      (if |xs| + start < 0 then xs else xs[|xs| + start..])
    else
      (if start <= |xs| then xs[start..] else [])
  }

  function Min(a: int, b: int): int { if a <= b then a else b }

  /** The buffer after `setMaxEntries(max)`: `slice(-max)` when it is longer
      than `max`. A positive bound keeps the last min(len, max) entries; the
      bound 0 keeps everything, because `slice(-0)` is `slice(0)`; a negative
      bound drops the first |max| entries. */
  function Truncated(entries: seq<LogEntry>, max: int): (r: seq<LogEntry>)
    ensures IsSuffix(r, entries)
    ensures max > 0 ==> |r| == Min(|entries|, max)
    ensures max == 0 ==> r == entries
    ensures max < 0 ==> |r| == |entries| - Min(-max, |entries|)
  {
    if |entries| > max then SliceFrom(entries, -max) else entries
  }

  /** `entries.filter(entry => entry.level === l)`. */
  function Filter(entries: seq<LogEntry>, l: LogLevel): (r: seq<LogEntry>)
    ensures |r| <= |entries|
    ensures forall e :: e in r <==> e in entries && e.level == l
    ensures forall e :: multiset(r)[e] == if e.level == l then multiset(entries)[e] else 0
  {
    if entries == [] then []
    else
      assert entries == [entries[0]] + entries[1..];
      if entries[0].level == l then [entries[0]] + Filter(entries[1..], l)
      else Filter(entries[1..], l)
  }

  /** The record `getStats` returns. */
  datatype LevelStats = LevelStats(debug: nat, info: nat, warn: nat, error: nat)
  {
    function Total(): nat { debug + info + warn + error }
  }

  function Stats(entries: seq<LogEntry>): LevelStats
  {
    LevelStats(|Filter(entries, Debug)|, |Filter(entries, Info)|, |Filter(entries, Warn)|, |Filter(entries, Error)|)
  }

  /** Every entry has exactly one level, so the four counts of `getStats` add up
      to the number of stored entries. */
  lemma {:induction false} StatsTotal(entries: seq<LogEntry>)
    ensures Stats(entries).Total() == |entries|
  {
    if entries != [] {
      StatsTotal(entries[1..]);
    }
  }

  class Logger {
    var level: LogLevel
    var logEntries: seq<LogEntry>
    var maxEntries: int

    /** The buffer respects its bound; `addEntry` keeps this true and a
        positive `setMaxEntries` restores it. */
    predicate Bounded()
      reads this
    {
      |logEntries| <= maxEntries
    }

    constructor (level: LogLevel := Info, maxEntries: int := 1000)
      ensures this.level == level && this.maxEntries == maxEntries && logEntries == []
    {
      this.level := level;
      this.logEntries := [];
      this.maxEntries := maxEntries;
    }

    /** `log(l, message, metadata)` at clock reading `now` (also what
        `debug`, `info`, `warn` and `error` do with their own level). */
    method Log(l: LogLevel, message: string, metadata: Option<Metadata>, now: int)
      modifies this
      ensures level == old(level) && maxEntries == old(maxEntries)
      ensures logEntries ==
                if Admits(old(level), l) then AfterAdd(old(logEntries), LogEntry(l, message, now, metadata), maxEntries)
                else old(logEntries)
      ensures old(Bounded()) && maxEntries >= 0 ==> Bounded()
    {
      if Rank(l) >= Rank(level) {
        var entry := LogEntry(l, message, now, metadata);
        AddEntry(entry);
      }
    }

    /** `addEntry(entry)`. */
    method AddEntry(entry: LogEntry)
      modifies this`logEntries
      ensures logEntries == AfterAdd(old(logEntries), entry, maxEntries)
      ensures old(Bounded()) && maxEntries >= 0 ==> Bounded()
    {
      logEntries := logEntries + [entry];
      if |logEntries| > maxEntries {
        logEntries := logEntries[1..];
      }
    }

    method SetLevel(l: LogLevel)
      modifies this`level
      ensures GetLevel() == l
    {
      level := l;
    }

    /** `getLevel()`: the level last set by the constructor or `setLevel`. */
    function GetLevel(): (l: LogLevel)
      reads this
      ensures l == level
    {
      level
    }

    /** `getLogs()`: a copy of the stored entries, oldest first. */
    function GetLogs(): (r: seq<LogEntry>)
      reads this
      ensures |r| == |logEntries| && forall i | 0 <= i < |r| :: r[i] == logEntries[i]
    {
      logEntries
    }

    method ClearLogs()
      modifies this`logEntries
      ensures GetLogs() == [] && Bounded() == (maxEntries >= 0)
    {
      logEntries := [];
    }

    /** `setMaxEntries(max)`. */
    method SetMaxEntries(max: int)
      modifies this`maxEntries, this`logEntries
      ensures maxEntries == max
      ensures logEntries == Truncated(old(logEntries), max)
      ensures max > 0 ==> Bounded()
      ensures max == 0 && old(logEntries) != [] ==> !Bounded()
    {
      maxEntries := max;
      if |logEntries| > max {
        logEntries := SliceFrom(logEntries, -max);
      }
    }

    /** `getStats()`: per-level counts of the stored entries. */
    function GetStats(): (s: LevelStats)
      reads this
      ensures s.Total() == |logEntries|
      ensures s.debug == |Filter(logEntries, Debug)| && s.info == |Filter(logEntries, Info)|
      ensures s.warn == |Filter(logEntries, Warn)| && s.error == |Filter(logEntries, Error)|
    {
      StatsTotal(logEntries);
      Stats(logEntries)
    }
  }

  /** setMaxEntries(0) on a non-empty buffer keeps every entry, and no later
      `addEntry` shortens it: each pushes one entry and shifts one out. */
  lemma ZeroBoundNeverRecovers(entries: seq<LogEntry>, e: LogEntry)
    requires entries != []
    ensures |AfterAdd(Truncated(entries, 0), e, 0)| == |entries|
  {
  }
}
