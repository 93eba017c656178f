/**
 * The reconfiguration request the debug command sends to a sandbox
 * (control.LoggingArgs) and the log levels it can carry (log.Level).
 */
module Control {
  /** The sandbox's log levels; Warning is the zero value. */
  datatype Level = Warning | Info | Debug

  /**
   * Each "set" flag says whether its paired value is to be applied. An empty
   * whitelist with tracing enabled means every syscall is traced.
   */
  datatype LoggingArgs = LoggingArgs(
    setStrace: bool,
    enableStrace: bool,
    straceWhitelist: seq<string>,
    setLevel: bool,
    level: Level,
    setLogPackets: bool,
    logPackets: bool)
}
