/** The synchronous logger: each call formats one line and appends it to the log file at
    once, provided the file opened. Its label table and line layout are its own: "WARNING"
    and "UNKNOWN" instead of "WARN" and "UNK", and no space on either side of the bracketed
    label. */
module SyncLogger {
  import opened Levels
  import opened LogLine

  /** The level named by a synchronous logger's label; the fallback label names none. */
  function LabelLevel(s: string): Option<Level>
  {
    if s == "INFO" then Some(Info)
    else if s == "WARNING" then Some(Warning)
    else if s == "ERROR" then Some(Error)
    else None
  }

  /** The label of a level: INFO, WARNING and ERROR for the three enumerators, UNKNOWN for
      any other value. */
  function LevelToString(level: Level): (s: string)
    ensures LabelLevel(s) == (if level.Other? then None else Some(level))
    ensures level.Other? <==> s == "UNKNOWN"
    ensures '[' !in s && ']' !in s && ' ' !in s && s != ""
  {
    match level
    case Info => "INFO"
    case Warning => "WARNING"
    case Error => "ERROR"
    case Other(_) => "UNKNOWN"
  }

  /** One written line: the timestamp, the bracketed label and the message, with nothing
      in between. The timestamp is a parameter here; the C++ logger reads the wall clock. */
  function FormatEntry(ts: string, level: Level, message: string): (line: string)
    ensures |line| == |ts| + |LevelToString(level)| + |message| + 2
    ensures line[..|ts|] == ts && line[|line| - |message|..] == message
    ensures line[|ts|] == '['
  {
    ts + "[" + LevelToString(level) + "]" + message
  }

  /** A written line reads back as its timestamp, its level's label and its message, and
      the label gives back the level it was made from. */
  lemma FormatEntryParses(ts: string, level: Level, message: string)
    requires '[' !in ts
    ensures Parse(FormatEntry(ts, level, message), "") == Some(Fields(ts, LevelToString(level), message))
    ensures !level.Other? ==>
      LabelLevel(Parse(FormatEntry(ts, level, message), "").value.levelLabel) == Some(level)
  {
    var f := Fields(ts, LevelToString(level), message);
    assert Compose(f, "") == FormatEntry(ts, level, message);
    ParseCompose(f, "");
  }

  class Logger {
    /** Whether the file opened (in append mode) when the logger was constructed. */
    const fileOpen: bool
    /** The lines of the log file. */
    var output: seq<string>

    /** The file's lines before this logger opened it. */
    ghost const Prior: seq<string>
    /** The line of every `log` call so far, in call order. */
    ghost var Logged: seq<string>

    /** Appending never rewrites: the file holds its old lines followed by one line per call,
        in call order, or only its old lines if it did not open. */
    ghost predicate Valid()
      reads this
    {
      output == Prior + (if fileOpen then Logged else [])
    }

    /** Opens the logger; `isOpen` is whether the file opened and `existing` its lines. */
    constructor (isOpen: bool, existing: seq<string>)
      ensures Valid()
      ensures fileOpen == isOpen && output == existing
      ensures Prior == existing && Logged == []
    {
      fileOpen := isOpen;
      output := existing;
      Prior := existing;
      Logged := [];
    }

    /** Appends the formatted line if the file is open; otherwise does nothing. */
    method Log(ts: string, level: Level, message: string)
      requires Valid()
      modifies this
      ensures Valid()
      ensures Logged == old(Logged) + [FormatEntry(ts, level, message)]
      ensures output == if fileOpen then old(output) + [FormatEntry(ts, level, message)]
                        else old(output)
      ensures old(output) <= output
    {
      var line := FormatEntry(ts, level, message);
      if fileOpen {
        output := output + [line];
      }
      Logged := Logged + [line];
    }
  }
}
