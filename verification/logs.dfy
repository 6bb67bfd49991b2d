/** The in-memory log of aisle/_logs.py: an append-only list of level,
    timestamp and message entries, and the console view of its most recent
    entries. */
module Logging {
  import opened PyStrings
  import opened General

  /** One log record: its level, the `generate_timestamp()` text of the
      moment it was written, and its message. */
  datatype LogEntry = LogEntry(level: char, timestamp: string, message: string)

  /** A log call of a driver before the clock stamps it: `info` gives level
      'I', `warning` 'W', `error` 'E'. */
  datatype Note = Note(level: char, message: string)

  /** The entries a run of log calls appends when the log held `start`
      entries before it and `stamp(k)` is the timestamp text of entry `k`. */
  function Stamped(notes: seq<Note>, stamp: nat -> string, start: nat): (r: seq<LogEntry>)
    ensures |r| == |notes|
    decreases |notes|
  {
    if notes == [] then []
    else
      var k := |notes| - 1;
      Stamped(notes[..k], stamp, start) + [LogEntry(notes[k].level, stamp(start + k), notes[k].message)]
  }

  /** The timestamp text of log entry `k` when `clock(k)` is the clock
      reading at which it is written. */
  function Timestamps(clock: nat -> Instant): (nat -> string) {
    (k: nat) => GenerateTimestamp(clock(k))
  }

  /** One more log call appends one entry, stamped with the timestamp that
      follows the run's. */
  lemma {:induction false} StampedAppend(notes: seq<Note>, n: Note, stamp: nat -> string, start: nat)
    ensures Stamped(notes + [n], stamp, start) ==
      Stamped(notes, stamp, start) + [LogEntry(n.level, stamp(start + |notes|), n.message)]
  {
    assert (notes + [n])[..|notes|] == notes;
  }

  /** Entry i of a stamped run carries note i and the timestamp
      `stamp(start + i)`. */
  lemma {:induction false} StampedEntries(notes: seq<Note>, stamp: nat -> string, start: nat)
    ensures forall i :: 0 <= i < |notes| ==>
      Stamped(notes, stamp, start)[i] == LogEntry(notes[i].level, stamp(start + i), notes[i].message)
    decreases |notes|
  {
    if notes != [] {
      var k := |notes| - 1;
      StampedEntries(notes[..k], stamp, start);
    }
  }

  /** Appending the entry of one more note, stamped with the clock reading
      at the log's length, extends the stamped run by that note. */
  lemma {:induction false} StampNext(e0: seq<LogEntry>, notes: seq<Note>, n: Note, clock: nat -> Instant, now: Instant)
    requires now == clock(|e0| + |notes|)
    ensures (e0 + Stamped(notes, Timestamps(clock), |e0|)) + [LogEntry(n.level, GenerateTimestamp(now), n.message)] ==
      e0 + Stamped(notes + [n], Timestamps(clock), |e0|)
  {
    var stamp := Timestamps(clock);
    assert stamp(|e0| + |notes|) == GenerateTimestamp(now);
    StampOne(e0, notes, n, stamp, GenerateTimestamp(now));
  }

  /** `StampNext` for any stamp function: the entry stamped `t`, the stamp
      of the next position, extends the run. */
  lemma {:induction false} StampOne(e0: seq<LogEntry>, notes: seq<Note>, n: Note, stamp: nat -> string, t: string)
    requires t == stamp(|e0| + |notes|)
    ensures (e0 + Stamped(notes, stamp, |e0|)) + [LogEntry(n.level, t, n.message)] ==
      e0 + Stamped(notes + [n], stamp, |e0|)
  {
    StampedAppend(notes, n, stamp, |e0|);
    SnocAssociates(e0, Stamped(notes, stamp, |e0|), LogEntry(n.level, t, n.message));
  }

  lemma {:induction false} SnocAssociates<T>(a: seq<T>, b: seq<T>, x: T)
    ensures (a + b) + [x] == a + (b + [x])
  {
  }

  /** The log holds the `e0` entries it started with and then one entry per
      note of a driver run, entry `k` stamped at clock reading `clock(k)`. */
  ghost predicate Logged(logs: Logs, e0: seq<LogEntry>, notes: seq<Note>, clock: nat -> Instant)
    reads logs
  {
    logs.entries == e0 + Stamped(notes, Timestamps(clock), |e0|)
  }

  /** The ANSI colour of a level: green for 'I', yellow for 'W', red for 'E',
      black for any other level. */
  function LevelColor(level: char): (code: string)
    ensures level == 'I' ==> code == "32"
    ensures level == 'W' ==> code == "33"
    ensures level == 'E' ==> code == "31"
    ensures level !in {'I', 'W', 'E'} ==> code == "30"
  {
    var colors := map['I' := "32", 'W' := "33", 'E' := "31"];
    if level in colors then colors[level] else "30"
  }

  /** The console line of one entry: `[<level> <timestamp>]` in the level's
      colour, then the message. */
  function EntryLine(e: LogEntry): string {
    Ansi(LevelColor(e.level), "[" + [e.level] + " " + e.timestamp + "]") + " " + e.message
  }

  /** `s[k:]` on a Python list: a negative `k` counts from the end, and the
      bounds are clipped to the list. */
  function SliceFrom<T>(s: seq<T>, k: int): (r: seq<T>)
    ensures |r| <= |s| && r == s[|s| - |r|..]
    ensures k >= 0 ==> |r| == if k <= |s| then |s| - k else 0
    ensures k < 0 ==> |r| == if -k <= |s| then -k else |s|
  {
    if k < 0 then (if |s| + k < 0 then s else s[|s| + k..])
    else if k <= |s| then s[k..] else []
  }

  /** `logs[-n:] if len(logs) > n else logs`: the entries `show(n)` lists.
      For n >= 1 that is the last n entries, or all of them when there are
      no more than n; n = 0 lists the whole log, since `[-0:]` is `[0:]`; a
      negative n drops the first -n entries. It is always a suffix of the log. */
  function Recent(entries: seq<LogEntry>, n: int): (r: seq<LogEntry>)
    ensures |r| <= |entries| && r == entries[|entries| - |r|..]
    ensures n >= 1 && |entries| > n ==> |r| == n
    ensures n >= |entries| ==> r == entries
    ensures n == 0 ==> r == entries
    ensures n < 0 ==> |r| == if -n <= |entries| then |entries| + n else 0
  {
    if |entries| > n then SliceFrom(entries, -n) else entries
  }

  /** How many entries `show` lists when no count is given. */
  const DefaultItemNumber: int := 20

  const NoLogsLine: string := Ansi("90", "(No logs available)")

  function HeaderLine(n: int): string {
    Ansi("90", "(Displaying the most recent " + IntToString(n) + " records)")
  }

  /** The lines `show(n)` prints. */
  function ShowLines(entries: seq<LogEntry>, n: int): (lines: seq<string>)
    ensures entries == [] ==> lines == [NoLogsLine]
    ensures entries != [] ==> |lines| == |Recent(entries, n)| + 1 && lines[0] == HeaderLine(n)
  {
    if entries == [] then [NoLogsLine]
    else
      var recent := Recent(entries, n);
      [HeaderLine(n)] + EntryLines(recent)
  }

  /** The console lines of a run of entries, one per entry, in order. */
  function EntryLines(es: seq<LogEntry>): (lines: seq<string>)
    ensures |lines| == |es|
    ensures forall i :: 0 <= i < |es| ==> lines[i] == EntryLine(es[i])
  {
    seq(|es|, i requires 0 <= i < |es| => EntryLine(es[i]))
  }

  /** One more entry adds its line at the end. */
  lemma {:induction false} EntryLinesSnoc(es: seq<LogEntry>, e: LogEntry)
    ensures EntryLines(es + [e]) == EntryLines(es) + [EntryLine(e)]
  {
    assert forall i :: 0 <= i < |es| ==> (es + [e])[i] == es[i];
  }

  /** With more than n >= 1 entries, `show(n)` lists exactly the last n, in
      their original order, after the header. */
  lemma {:induction false} ShowsLastEntries(entries: seq<LogEntry>, n: int)
    requires n >= 1 && |entries| > n
    ensures ShowLines(entries, n) == [HeaderLine(n)] + EntryLines(entries[|entries| - n..])
  {
    assert Recent(entries, n) == entries[|entries| - n..];
  }

  /** With at most n entries, or with n = 0, `show(n)` lists every entry in
      order after the header. */
  lemma {:induction false} ShowsWholeLog(entries: seq<LogEntry>, n: int)
    requires entries != [] && (n >= |entries| || n == 0)
    ensures ShowLines(entries, n) == [HeaderLine(n)] + EntryLines(entries)
  {
    assert Recent(entries, n) == entries;
  }

  /** The line `warning` prints is the entry's line of `show`. */
  lemma {:induction false} WarningEcho(timestamp: string, message: string)
    ensures Ansi("33", "[W " + timestamp + "]") + " " + message == EntryLine(LogEntry('W', timestamp, message))
  {
    assert "[W " + timestamp + "]" == "[" + ['W'] + " " + timestamp + "]" by {
      assert "[W " == "[" + ['W'] + " ";
    }
  }

  /** The line `error` prints is the entry's line of `show`. */
  lemma {:induction false} ErrorEcho(timestamp: string, message: string)
    ensures Ansi("31", "[E " + timestamp + "]") + " " + message == EntryLine(LogEntry('E', timestamp, message))
  {
    assert "[E " + timestamp + "]" == "[" + ['E'] + " " + timestamp + "]" by {
      assert "[E " == "[" + ['E'] + " ";
    }
  }

  /** The `for` loop of `show`: after the header, one coloured line per
      entry, in order. */
  method ListEntries(header: string, recent: seq<LogEntry>) returns (items: seq<string>)
    ensures items == [header] + EntryLines(recent)
  {
    items := [header];
    for i := 0 to |recent|
      invariant items == [header] + EntryLines(recent[..i])
    {
      var log := recent[i];
      var color := LevelColor(log.level);
      items := items + [Ansi(color, "[" + [log.level] + " " + log.timestamp + "]") + " " + log.message];
      EntryLinesSnoc(recent[..i], log);
      assert recent[..i + 1] == recent[..i] + [log];
    }
    assert recent[..|recent|] == recent;
  }

  /** The log object. Entries are only ever appended. */
  class Logs {
    var entries: seq<LogEntry>

    constructor ()
      ensures entries == []
    {
      entries := [];
    }

    /** `info(message)`: one 'I' entry, nothing printed. */
    method Info(message: string, now: Instant)
      modifies this
      ensures entries == old(entries) + [LogEntry('I', GenerateTimestamp(now), message)]
    {
      var timestamp := GenerateTimestamp(now);
      entries := entries + [LogEntry('I', timestamp, message)];
    }

    /** `warning(message)`: one 'W' entry, echoed to the console. */
    method Warning(message: string, now: Instant) returns (printed: string)
      modifies this
      ensures entries == old(entries) + [LogEntry('W', GenerateTimestamp(now), message)]
      ensures printed == EntryLine(entries[|entries| - 1])
    {
      var timestamp := GenerateTimestamp(now);
      entries := entries + [LogEntry('W', timestamp, message)];
      printed := Ansi("33", "[W " + timestamp + "]") + " " + message;
      WarningEcho(timestamp, message);
    }

    /** `error(message)`: one 'E' entry, echoed to the console. */
    method Error(message: string, now: Instant) returns (printed: string)
      modifies this
      ensures entries == old(entries) + [LogEntry('E', GenerateTimestamp(now), message)]
      ensures printed == EntryLine(entries[|entries| - 1])
    {
      var timestamp := GenerateTimestamp(now);
      entries := entries + [LogEntry('E', timestamp, message)];
      printed := Ansi("31", "[E " + timestamp + "]") + " " + message;
      ErrorEcho(timestamp, message);
    }

    /** `show(item_number)`: the lines printed. */
    method Show(itemNumber: int) returns (items: seq<string>)
      ensures items == ShowLines(entries, itemNumber)
    {
      if entries == [] {
        items := [NoLogsLine];
      } else {
        items := ListEntries(HeaderLine(itemNumber), Recent(entries, itemNumber));
      }
    }
    /** `show()` with the default count: the last 20 entries of a longer
        log, and every entry of a shorter one. */
    method ShowDefault() returns (items: seq<string>)
      ensures items == ShowLines(entries, DefaultItemNumber)
      ensures |entries| > DefaultItemNumber ==>
        items == [HeaderLine(DefaultItemNumber)] + EntryLines(entries[|entries| - DefaultItemNumber..])
      ensures 0 < |entries| <= DefaultItemNumber ==> items == [HeaderLine(DefaultItemNumber)] + EntryLines(entries)
    {
      items := Show(DefaultItemNumber);
      if |entries| > DefaultItemNumber {
        ShowsLastEntries(entries, DefaultItemNumber);
      } else if entries != [] {
        ShowsWholeLog(entries, DefaultItemNumber);
      }
    }
  }
}
