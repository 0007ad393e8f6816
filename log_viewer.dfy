/** The log list of src/components/LogViewer.tsx: the search and level
    filter, and the text of the export file. */
module LogViewer {
  import opened Basics
  import opened Types

  /** A log passes when its lower-cased message contains the lower-cased
      search text and the level choice is "ALL" or its level's name. */
  predicate Keep(log: ServiceLog, search: string, levelFilter: string)
  {
    Contains(ToLower(log.message), ToLower(search)) &&
    (levelFilter == "ALL" || LevelName(log.level) == levelFilter)
  }

  /** `filteredLogs`, in the order of `logs`. */
  function FilteredLogs(logs: seq<ServiceLog>, search: string, levelFilter: string): (r: seq<ServiceLog>)
    ensures SubsequenceOf(r, logs)
    ensures forall log :: log in r <==> log in logs && Keep(log, search, levelFilter)
    ensures |r| <= |logs|
  {
    FilterIsSubsequence(logs, (log: ServiceLog) => Keep(log, search, levelFilter));
    SubsequenceLength(Filter(logs, (log: ServiceLog) => Keep(log, search, levelFilter)), logs);
    Filter(logs, (log: ServiceLog) => Keep(log, search, levelFilter))
  }

  lemma {:induction false} SubsequenceLength<T>(a: seq<T>, b: seq<T>)
    requires SubsequenceOf(a, b)
    ensures |a| <= |b|
  {
    if a != [] {
      if a[0] == b[0] {
        SubsequenceLength(a[1..], b[1..]);
      } else {
        SubsequenceLength(a, b[1..]);
      }
    }
  }

  /** With the initial settings (empty search, level "ALL") every log is shown. */
  lemma ShowAllInitially(logs: seq<ServiceLog>)
    ensures FilteredLogs(logs, "", "ALL") == logs
  {
    forall log | log in logs
      ensures Keep(log, "", "ALL")
    {
      ContainsEmpty(ToLower(log.message));
    }
    FilterAll(logs, (log: ServiceLog) => Keep(log, "", "ALL"));
  }

  /** A level choice that is neither "ALL" nor a level's name shows nothing. */
  lemma UnknownLevelShowsNothing(logs: seq<ServiceLog>, search: string, levelFilter: string)
    requires levelFilter !in ["ALL", "INFO", "WARNING", "ERROR", "CRITICAL"]
    ensures FilteredLogs(logs, search, levelFilter) == []
  {
    FilterNone(logs, (log: ServiceLog) => Keep(log, search, levelFilter));
  }

  lemma LowerCharIdempotent(c: char)
    ensures LowerChar(LowerChar(c)) == LowerChar(c)
  {
  }

  /** The search ignores the case of ASCII letters in the search text. */
  lemma SearchIgnoresCase(logs: seq<ServiceLog>, search: string, levelFilter: string)
    ensures FilteredLogs(logs, ToLower(search), levelFilter) == FilteredLogs(logs, search, levelFilter)
  {
    assert ToLower(ToLower(search)) == ToLower(search) by {
      forall i | 0 <= i < |search|
        ensures ToLower(ToLower(search))[i] == ToLower(search)[i]
      {
        LowerCharIdempotent(search[i]);
      }
    }
    FilterCongruent(logs, (log: ServiceLog) => Keep(log, ToLower(search), levelFilter),
                    (log: ServiceLog) => Keep(log, search, levelFilter));
  }

  lemma {:induction false} FilterCongruent<T>(xs: seq<T>, p: T -> bool, q: T -> bool)
    requires forall x :: p(x) == q(x)
    ensures Filter(xs, p) == Filter(xs, q)
  {
    if xs != [] {
      FilterCongruent(xs[1..], p, q);
    }
  }

  /** One line of the export: `[timestamp] [LEVEL] message`. It opens with
      the bracketed timestamp, ends with the message, and holds a newline
      only when the timestamp or the message does. */
  function ExportLine(log: ServiceLog): (line: string)
    ensures |line| == |log.timestamp| + |LevelName(log.level)| + |log.message| + 6
    ensures line[..|log.timestamp| + 2] == "[" + log.timestamp + "]"
    ensures line[|line| - |log.message|..] == log.message
    ensures '\n' !in line <==> '\n' !in log.timestamp && '\n' !in log.message
  {
    var head := "[" + log.timestamp + "]";
    var middle := " [" + LevelName(log.level) + "] ";
    assert '\n' !in middle;
    var line := head + middle + log.message;
    assert line[..|head|] == head;
    assert '\n' in head <==> '\n' in log.timestamp;
    line
  }

  function ExportLines(logs: seq<ServiceLog>): (lines: seq<string>)
    ensures |lines| == |logs|
    ensures forall k :: 0 <= k < |logs| ==> lines[k] == ExportLine(logs[k])
  {
    seq(|logs|, k requires 0 <= k < |logs| => ExportLine(logs[k]))
  }

  /** `logText`: the export lines of the filtered logs joined by newlines. */
  function ExportText(logs: seq<ServiceLog>, search: string, levelFilter: string): string
  {
    Join(ExportLines(FilteredLogs(logs, search, levelFilter)), "\n")
  }

  /** `text.split(sep)`: the pieces between separators, at least one. */
  function Split(s: string, sep: char): (r: seq<string>)
    ensures |r| >= 1
    ensures forall k :: 0 <= k < |r| ==> sep !in r[k]
  {
    if s == [] then [""]
    else
      var rest := Split(s[1..], sep);
      if s[0] == sep then [""] + rest
      else [[s[0]] + rest[0]] + rest[1..]
  }

  lemma {:induction false} SplitPrefix(a: string, rest: string, sep: char)
    requires sep !in a
    ensures Split(a + rest, sep) == [a + Split(rest, sep)[0]] + Split(rest, sep)[1..]
  {
    if a != [] {
      assert (a + rest)[1..] == a[1..] + rest;
      assert (a + rest)[0] == a[0];
      SplitPrefix(a[1..], rest, sep);
      assert [a[0]] + (a[1..] + Split(rest, sep)[0]) == a + Split(rest, sep)[0];
    } else {
      assert a + rest == rest;
      var r := Split(rest, sep);
      assert a + r[0] == r[0];
      assert r == [r[0]] + r[1..];
    }
  }

  /** Joining lines free of the separator and splitting again gives the lines back. */
  lemma {:induction false} SplitJoin(parts: seq<string>, sep: char)
    requires |parts| >= 1
    requires forall k :: 0 <= k < |parts| ==> sep !in parts[k]
    ensures Split(Join(parts, [sep]), sep) == parts
  {
    if |parts| == 1 {
      SplitPrefix(parts[0], "", sep);
      assert parts[0] + "" == parts[0];
    } else {
      var tail := Join(parts[1..], [sep]);
      assert Join(parts, [sep]) == parts[0] + ([sep] + tail);
      SplitPrefix(parts[0], [sep] + tail, sep);
      assert ([sep] + tail)[1..] == tail;
      SplitJoin(parts[1..], sep);
      assert parts[0] + "" == parts[0];
      assert parts == [parts[0]] + parts[1..];
    }
  }

  /** When no timestamp or message holds a newline, the export file has one
      line per shown log, in order, each in the `[timestamp] [LEVEL] message`
      form. */
  lemma ExportRoundTrip(logs: seq<ServiceLog>, search: string, levelFilter: string)
    requires forall log :: log in logs ==> '\n' !in log.timestamp && '\n' !in log.message
    requires FilteredLogs(logs, search, levelFilter) != []
    ensures Split(ExportText(logs, search, levelFilter), '\n') == ExportLines(FilteredLogs(logs, search, levelFilter))
  {
    var shown := FilteredLogs(logs, search, levelFilter);
    var lines := ExportLines(shown);
    forall k | 0 <= k < |lines|
      ensures '\n' !in lines[k]
    {
      assert shown[k] in shown;
    }
    SplitJoin(lines, '\n');
  }
}
