/** The logger middleware's log call (src/core/middleware/logger.ts:14-40).
    The console output is not modelled; one log call is one event that
    records which console features the options switch on and the state it
    shows. How the logger wraps `set` is in module Layers. */
module Logger {
  import opened Results
  import opened Values
  import opened Errors

  /** The options record (src/types/index.ts:48-54); a missing flag is None. */
  datatype LoggerOptions = LoggerOptions(
    collapsed: Option<bool>,
    duration: Option<bool>,
    timestamp: Option<bool>,
    colors: Option<bool>,
    logTrace: Option<bool>)

  /** One "State updated" console group. */
  datatype LogEvent = StateUpdated(collapsed: bool, timed: bool, stamped: bool, colored: bool, newState: Value)

  function On(flag: Option<bool>): bool {
    flag.Some? && flag.value
  }

  /** The log call for `newState`. It reads `options.collapsed` first, so
      a logger built without options throws a TypeError here, after the
      inner `set` has already run. */
  function Log(options: Option<LoggerOptions>, newState: Value): (r: Result<LogEvent, Thrown>)
    ensures r.Err? <==> options.None?
    ensures r.Err? ==> r.error.TypeError?
    ensures r.Ok? ==> (r.value.newState == newState
      && r.value.collapsed == On(options.value.collapsed) && r.value.timed == On(options.value.duration)
      && r.value.stamped == On(options.value.timestamp) && r.value.colored == On(options.value.colors))
  {
    if options.None? then
      Err(TypeError("Cannot read properties of undefined (reading 'collapsed')"))
    else
      var o := options.value;
      Ok(StateUpdated(On(o.collapsed), On(o.duration), On(o.timestamp), On(o.colors), newState))
  }
}
