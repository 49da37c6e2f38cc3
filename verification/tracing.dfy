/**
 * The log threshold: the name-to-level mapping of `config_tracing` and the
 * reloadable filter it overwrites.
 */
module Tracing {
  import opened Types

  datatype Level = Trace | Debug | Info | Warn | Error

  /** The upper-case spelling the mapping accepts for a level. */
  function UpperName(l: Level): string {
    match l
    case Trace => "TRACE"
    case Debug => "DEBUG"
    case Info => "INFO"
    case Warn => "WARN"
    case Error => "ERROR"
  }

  /** The lower-case spelling the mapping accepts for a level. */
  function LowerName(l: Level): string {
    match l
    case Trace => "trace"
    case Debug => "debug"
    case Info => "info"
    case Warn => "warn"
    case Error => "error"
  }

  /**
   * The level a configured name selects. Exactly the two spellings of each
   * level select it; every other string, whatever its case, selects Info.
   */
  function LevelOf(name: string): (l: Level)
    ensures forall k: Level :: name == UpperName(k) || name == LowerName(k) ==> l == k
    ensures l != Info ==> name == UpperName(l) || name == LowerName(l)
  {
    if name == "TRACE" || name == "trace" then Trace
    else if name == "DEBUG" || name == "debug" then Debug
    else if name == "INFO" || name == "info" then Info
    else if name == "WARN" || name == "warn" then Warn
    else if name == "ERROR" || name == "error" then Error
    else Info
  }

  /** The mapping is not case-insensitive: mixed case and unknown names fall back to Info. */
  lemma LevelOfFallsBack()
    ensures LevelOf("Debug") == Info
    ensures LevelOf("Warn") == Info
    ensures LevelOf("verbose") == Info
    ensures LevelOf("debug") == Debug
  {
  }

  /** The reload handle that holds the active level filter. */
  class LevelHandle {
    var filter: Level

    /** `init_tracing` installs the filter at DEBUG, whatever the configured level. */
    constructor ()
      ensures filter == Debug
    {
      filter := Debug;
    }

    /** `config_tracing`: replace the filter with the level the log section names. */
    method ConfigTracing(log: Log)
      modifies this
      ensures filter == LevelOf(log.level)
    {
      var next := LevelOf(log.level);
      filter := next;
    }
  }
}
