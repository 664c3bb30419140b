/** The log-level mapping of configurations/logger.go: the configured name,
    trimmed and lower-cased, selects a level; "warning" is an alias of
    "warn" and anything else selects info. Installing the level in the
    logging library is not part of this model. */
module Logger {
  import opened Text

  /** The levels of the logging library, from most to least verbose. */
  datatype Level = TraceLevel | DebugLevel | InfoLevel | WarnLevel | ErrorLevel | FatalLevel | PanicLevel

  /** The canonical configuration name of each level. */
  function LevelName(l: Level): string {
    match l
    case TraceLevel => "trace"
    case DebugLevel => "debug"
    case InfoLevel => "info"
    case WarnLevel => "warn"
    case ErrorLevel => "error"
    case FatalLevel => "fatal"
    case PanicLevel => "panic"
  }

  /** The names `parseLogLevel` recognises. */
  predicate KnownName(s: string) {
    s == "trace" || s == "debug" || s == "info" || s == "warn" || s == "warning"
    || s == "error" || s == "fatal" || s == "panic"
  }

  /** The `switch` of `parseLogLevel`, on the normalised name. */
  function LevelOf(levelLower: string): (l: Level)
    ensures !KnownName(levelLower) ==> l == InfoLevel
  {
    if levelLower == "trace" then TraceLevel
    else if levelLower == "debug" then DebugLevel
    else if levelLower == "info" then InfoLevel
    else if levelLower == "warn" || levelLower == "warning" then WarnLevel
    else if levelLower == "error" then ErrorLevel
    else if levelLower == "fatal" then FatalLevel
    else if levelLower == "panic" then PanicLevel
    else InfoLevel
  }

  /** `parseLogLevel`: the name is trimmed and lower-cased, then matched. */
  function ParseLogLevel(level: string): (l: Level)
    ensures !KnownName(LowerTrimmed(level)) ==> l == InfoLevel
  {
    LevelOf(LowerTrimmed(level))
  }

  /** A name that is already trimmed and lower-case is matched as it is. */
  lemma ParseNormalised(s: string)
    requires s != [] ==> !IsSpace(s[0]) && !IsSpace(s[|s| - 1])
    requires forall k :: 0 <= k < |s| ==> !IsUpper(s[k])
    ensures LowerTrimmed(s) == s
  {
    TrimSpaceOfTrimmed(s);
    ToLowerOfLower(s);
  }

  /** Every level is selected by its own name, so distinct levels have
      distinct names. */
  lemma ParseLevelName(l: Level)
    ensures ParseLogLevel(LevelName(l)) == l
  {
    ParseNormalised(LevelName(l));
    LevelOfName(l);
  }

  /** The switch maps each canonical name back to its level. */
  lemma LevelOfName(l: Level)
    ensures LevelOf(LevelName(l)) == l
  {
    match l
    case TraceLevel => assert LevelOf("trace") == TraceLevel;
    case DebugLevel => assert LevelOf("debug") == DebugLevel;
    case InfoLevel => assert LevelOf("info") == InfoLevel;
    case WarnLevel => assert LevelOf("warn") == WarnLevel;
    case ErrorLevel => assert LevelOf("error") == ErrorLevel;
    case FatalLevel => assert LevelOf("fatal") == FatalLevel;
    case PanicLevel => assert LevelOf("panic") == PanicLevel;
  }

  /** Whatever its case and surrounding white space, "warning" selects the
      same level as "warn". */
  lemma WarningIsWarn(level: string)
    requires LowerTrimmed(level) == "warning" || LowerTrimmed(level) == "warn"
    ensures ParseLogLevel(level) == WarnLevel
  {
  }

  /** A name that is empty or only white space selects info. */
  lemma EmptySelectsInfo(level: string)
    requires forall k :: 0 <= k < |level| ==> IsSpace(level[k])
    ensures ParseLogLevel(level) == InfoLevel
  {
    assert level + "" + "" == level;
    LowerTrimmedPadded(level, "", "");
    ParseNormalised("");
  }

  /** The input is trimmed and lower-cased first: normalising it beforehand
      changes nothing. */
  lemma ParseIgnoresCaseAndSpace(level: string)
    ensures ParseLogLevel(LowerTrimmed(level)) == ParseLogLevel(level)
  {
    LowerTrimmedIdempotent(level);
  }
}
