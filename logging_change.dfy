/**
 * How the debug command turns its three optional logging flags (-strace,
 * -log-level, -log-packets) into one LoggingArgs request, or rejects them.
 */
module LoggingChange {
  import opened Wrappers
  import opened GoStrings
  import opened Control

  /** Why the logging flags were rejected: nothing is sent in either case. */
  datatype LoggingError = InvalidLogLevel(level: string) | InvalidLogPackets(value: string)

  function LevelName(l: Level): string {
    match l
    case Warning => "warning"
    case Info => "info"
    case Debug => "debug"
  }

  function LevelCode(l: Level): string {
    match l
    case Warning => "0"
    case Info => "1"
    case Debug => "2"
  }

  /** A -log-level value, ignoring case: the name or the number of a level, or nothing. */
  function ParseLevel(s: string): Option<Level> {
    var key := ToLower(s);
    if key == "warning" || key == "0" then Some(Warning)
    else if key == "info" || key == "1" then Some(Info)
    else if key == "debug" || key == "2" then Some(Level.Debug)
    else None
  }

  /** The logging block runs when any of the three flags is non-empty. */
  predicate Requested(strace: string, logLevel: string, logPackets: string) {
    strace != "" || logLevel != "" || logPackets != ""
  }

  /**
   * The request sent for the three flags, or the first validation error (the
   * level is checked before the packet flag). Tracing is always marked as set;
   * "off" and "all" are recognised in any case, while the whitelist is cut
   * from the flag as given.
   */
  function BuildLoggingArgs(strace: string, logLevel: string, logPackets: string): Result<LoggingArgs, LoggingError>
  {
    var mode := ToLower(strace);
    if logLevel != "" && ParseLevel(logLevel).None? then Failure(InvalidLogLevel(logLevel))
    else if logPackets != "" && ParseBool(logPackets).None? then Failure(InvalidLogPackets(logPackets))
    else Success(LoggingArgs(
      setStrace := true,
      enableStrace := strace != "" && mode != "off",
      straceWhitelist := if strace == "" || mode == "off" || mode == "all" then [] else Split(strace, ','),
      setLevel := logLevel != "",
      level := if logLevel != "" then ParseLevel(logLevel).value else Warning,
      setLogPackets := logPackets != "",
      logPackets := logPackets != "" && ParseBool(logPackets).value))
  }

  /** A level is accepted exactly when it is, ignoring case, the name or the number of that level. */
  lemma ParseLevelAccepts(s: string, l: Level)
    ensures ParseLevel(s) == Some(l) <==> ToLower(s) == LevelName(l) || ToLower(s) == LevelCode(l)
  {
  }

  /** Every level's name and number parse back to that level. */
  lemma ParseLevelRoundTrip(l: Level)
    ensures ParseLevel(LevelName(l)) == Some(l) && ParseLevel(LevelCode(l)) == Some(l)
  {
    ToLowerKeeps(LevelName(l));
    ToLowerKeeps(LevelCode(l));
    ParseLevelAccepts(LevelName(l), l);
    ParseLevelAccepts(LevelCode(l), l);
  }

  /** Validation is all-or-nothing: a request exists exactly when neither the level nor the packet flag is rejected. */
  lemma ValidationAllOrNothing(strace: string, logLevel: string, logPackets: string)
    ensures BuildLoggingArgs(strace, logLevel, logPackets).Success? <==>
      (logLevel == "" || ParseLevel(logLevel).Some?) && (logPackets == "" || ParseBool(logPackets).Some?)
    ensures BuildLoggingArgs(strace, logLevel, logPackets) == Failure(InvalidLogLevel(logLevel)) <==>
      logLevel != "" && ParseLevel(logLevel).None?
  {
  }

  /**
   * The -strace table: "off" only disables, "all" enables with an empty
   * whitelist, any other non-empty value enables with the comma-separated
   * names (which join back to the flag); tracing is marked as set even when
   * -strace was not given, and then it is disabled.
   */
  lemma StraceTable(strace: string, logLevel: string, logPackets: string)
    requires BuildLoggingArgs(strace, logLevel, logPackets).Success?
    ensures var a := BuildLoggingArgs(strace, logLevel, logPackets).value;
      && a.setStrace
      && (a.enableStrace <==> strace != "" && ToLower(strace) != "off")
      && (strace == "" || ToLower(strace) in {"off", "all"} ==> a.straceWhitelist == [])
      && (strace != "" && ToLower(strace) !in {"off", "all"} ==>
            Join(a.straceWhitelist, ',') == strace &&
            forall i :: 0 <= i < |a.straceWhitelist| ==> ',' !in a.straceWhitelist[i])
  {
    if strace != "" && ToLower(strace) !in {"off", "all"} {
      JoinSplit(strace, ',');
    }
  }

  /** Each of the -log-level and -log-packets flags is applied exactly when it was given, with its parsed value. */
  lemma LevelAndPacketsApplied(strace: string, logLevel: string, logPackets: string)
    requires BuildLoggingArgs(strace, logLevel, logPackets).Success?
    ensures var a := BuildLoggingArgs(strace, logLevel, logPackets).value;
      && (a.setLevel <==> logLevel != "")
      && (logLevel != "" ==> ParseLevel(logLevel) == Some(a.level))
      && (a.setLogPackets <==> logPackets != "")
      && (logPackets != "" ==> ParseBool(logPackets) == Some(a.logPackets))
  {
  }

  /** Setting only the log level also sends "tracing set, disabled", which turns syscall tracing off. */
  lemma LevelAloneDisablesStrace(logLevel: string, l: Level)
    requires ParseLevel(logLevel) == Some(l)
    ensures BuildLoggingArgs("", logLevel, "") ==
      Success(LoggingArgs(true, false, [], true, l, false, false))
  {
  }

  /** "read,write" enables tracing of exactly read and write. */
  lemma ReadWriteWhitelist()
    ensures BuildLoggingArgs("read,write", "", "") ==
      Success(LoggingArgs(true, true, ["read", "write"], false, Warning, false, false))
  {
    var parts := ["read", "write"];
    assert Join(parts, ',') == "read,write" by {
      assert parts[1..] == ["write"];
    }
    SplitJoin(parts, ',');
    var mode := ToLower("read,write");
    assert |mode| == 10;
    assert mode != "off" && mode != "all";
  }

  /** "OFF" in capitals disables tracing like "off". */
  lemma OffInAnyCase()
    ensures BuildLoggingArgs("OFF", "", "") ==
      Success(LoggingArgs(true, false, [], false, Warning, false, false))
  {
    assert ToLower("OFF") == "off";
  }
}
