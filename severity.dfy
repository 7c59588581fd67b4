/** Severity levels of trace events and the must-collect policy. */
module Severity {
  import opened Wrappers

  /** A severity level: 0 is the most severe, 7 the most verbose. */
  type Level = s: int | 0 <= s <= 7

  const EMERGENCY: Level := 0
  const ALERT: Level := 1
  const CRIT: Level := 2
  const ERROR: Level := 3
  const WARNING: Level := 4
  const NOTICE: Level := 5
  const INFO: Level := 6
  const DEBUG: Level := 7

  const LevelNames: set<string> :=
    {"EMERGENCY", "ALERT", "CRIT", "ERROR", "WARNING", "NOTICE", "INFO", "DEBUG"}

  /** The level a configuration names, when the name is one of the level names. */
  function LevelNamed(name: string): (r: Option<Level>)
    ensures r.Some? <==> name in LevelNames
    ensures r == Some(DEBUG) <==> name == "DEBUG"
    ensures r == Some(EMERGENCY) <==> name == "EMERGENCY"
  {
    if name == "EMERGENCY" then Some(EMERGENCY)
    else if name == "ALERT" then Some(ALERT)
    else if name == "CRIT" then Some(CRIT)
    else if name == "ERROR" then Some(ERROR)
    else if name == "WARNING" then Some(WARNING)
    else if name == "NOTICE" then Some(NOTICE)
    else if name == "INFO" then Some(INFO)
    else if name == "DEBUG" then Some(DEBUG)
    else None
  }

  /** An event must be collected when it is at least as severe as the threshold. */
  predicate MustCollect(threshold: Level, s: Level) {
    s <= threshold
  }
}
