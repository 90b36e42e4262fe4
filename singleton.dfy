/**
 * The process-wide singleton of log.go: `InitializeGoI2PLogger`,
 * `GetGoI2PLogger`, package loading, and the package-level `WithField(s)`.
 *
 * The environment is a parameter (an unset variable reads as ""), `sync.Once`
 * is the boolean `once`, and the package globals `log`, `once` and `failFast`
 * are the fields of class `Globals`. The configuration the two environment
 * variables select is the pure function `Configure`; `InitStep` and `GetStep`
 * say what the two entry points do to the abstract package state.
 */
module Singleton {
  import opened Wrappers
  import opened Backend
  import opened Facade

  type Env = map<string, string>

  const DebugVar: string := "DEBUG_I2P"
  const WarnFailVar: string := "WARNFAIL_I2P"

  /** os.Getenv: the value, or "" when the variable is unset. */
  function Getenv(env: Env, name: string): string
  {
    if name in env then env[name] else ""
  }

  // Level names

  /** Lower-cases one ASCII letter; every other character is kept. */
  function LowerChar(c: char): char
  {
    if 'A' <= c <= 'Z' then (c as int + 32) as char else c
  }

  /** strings.ToLower restricted to ASCII letters. */
  function ToLower(s: string): (r: string)
    ensures |r| == |s|
    ensures forall i :: 0 <= i < |s| ==> r[i] == LowerChar(s[i])
  {
    if s == [] then [] else [LowerChar(s[0])] + ToLower(s[1..])
  }

  /** Case-insensitive equality of two strings, character by character. */
  predicate AsciiEqualFold(s: string, t: string)
  {
    |s| == |t| && forall i :: 0 <= i < |s| ==> LowerChar(s[i]) == LowerChar(t[i])
  }

  /** The switch on the lower-cased DEBUG_I2P value. */
  function SelectLevel(logLevel: string): Level
  {
    var name := ToLower(logLevel);
    if name == "debug" then DebugLevel
    else if name == "warn" then WarnLevel
    else if name == "error" then ErrorLevel
    else DebugLevel
  }

  lemma {:induction false} ToLowerMatches(s: string, t: string)
    requires ToLower(t) == t
    ensures ToLower(s) == t <==> AsciiEqualFold(s, t)
  {
    if AsciiEqualFold(s, t) {
      forall i | 0 <= i < |s|
        ensures ToLower(s)[i] == t[i]
      {
        assert ToLower(t)[i] == LowerChar(t[i]);
      }
    }
    if ToLower(s) == t {
      forall i | 0 <= i < |s|
        ensures LowerChar(s[i]) == LowerChar(t[i])
      {
        assert ToLower(t)[i] == LowerChar(t[i]);
      }
    }
  }

  /** The lower-cased names are their own lower case. */
  lemma LevelNamesAreLower()
    ensures ToLower("debug") == "debug" && ToLower("warn") == "warn" && ToLower("error") == "error"
  {
  }

  /**
   * The level chosen for a DEBUG_I2P value: "warn" and "error" in any letter
   * case select Warn and Error; everything else, "debug" included, selects Debug.
   */
  lemma SelectLevelCases(logLevel: string)
    ensures SelectLevel(logLevel) == WarnLevel <==> AsciiEqualFold(logLevel, "warn")
    ensures SelectLevel(logLevel) == ErrorLevel <==> AsciiEqualFold(logLevel, "error")
    ensures SelectLevel(logLevel) == DebugLevel <==>
      !AsciiEqualFold(logLevel, "warn") && !AsciiEqualFold(logLevel, "error")
    ensures SelectLevel(logLevel) in {DebugLevel, WarnLevel, ErrorLevel}
  {
    LevelNamesAreLower();
    ToLowerMatches(logLevel, "warn");
    ToLowerMatches(logLevel, "error");
  }

  // Configuration selected by the environment

  /** What initialisation leaves behind: output sink, level and the fail-fast string. */
  datatype Config = Config(sink: Sink, level: Level, failFast: string)

  /**
   * The configuration block of InitializeGoI2PLogger, given the two variables
   * and the fail-fast string held before. The override to "debug" is kept as
   * the code writes it, inside the branch where DEBUG_I2P is non-empty.
   */
  function Configure(debugEnv: string, warnFailEnv: string, failFast: string): Config
  {
    if debugEnv == "" then Config(Discard, PanicLevel, failFast)
    else
      var logLevel := if warnFailEnv != "" && debugEnv == "" then "debug" else debugEnv;
      Config(Stdout, SelectLevel(logLevel), warnFailEnv)
  }

  /** Silent by default: no DEBUG_I2P means discard, Panic level and fail-fast untouched. */
  lemma DefaultSilence(debugEnv: string, warnFailEnv: string, failFast: string)
    requires debugEnv == ""
    ensures Configure(debugEnv, warnFailEnv, failFast) == Config(Discard, PanicLevel, failFast)
  {
  }

  /** A non-empty DEBUG_I2P selects stdout and the level its name gives; fail-fast comes from WARNFAIL_I2P. */
  lemma EnabledConfiguration(debugEnv: string, warnFailEnv: string, failFast: string)
    requires debugEnv != ""
    ensures Configure(debugEnv, warnFailEnv, failFast) == Config(Stdout, SelectLevel(debugEnv), warnFailEnv)
  {
  }

  /** The override `failFast != "" && logLevel == ""` cannot fire: the level never depends on WARNFAIL_I2P. */
  lemma FailFastOverrideIsDead(debugEnv: string, warnFailEnv: string, failFast: string)
    ensures Configure(debugEnv, warnFailEnv, failFast).level == Configure(debugEnv, "", failFast).level
    ensures Configure(debugEnv, warnFailEnv, failFast).sink == Configure(debugEnv, "", failFast).sink
  {
  }

  /** Unknown names such as "info" fall back to Debug. */
  lemma InfoSelectsDebug()
    ensures Configure("info", "", "") == Config(Stdout, DebugLevel, "")
    ensures Configure("WARN", "", "") == Config(Stdout, WarnLevel, "")
  {
    SelectLevelCases("info");
    SelectLevelCases("WARN");
  }

  /** From a fresh process, fail-fast is enabled exactly when both variables are non-empty. */
  lemma FailFastNeedsBothVariables(debugEnv: string, warnFailEnv: string)
    ensures Configure(debugEnv, warnFailEnv, "").failFast != "" <==> debugEnv != "" && warnFailEnv != ""
  {
  }

  // Package state

  /** The formatter InitializeGoI2PLogger installs. */
  const GoI2PFormatter: TextFormatter := TextFormatter(
    fullTimestamp := true,
    timestampFormat := "2006-01-02 15:04:05",
    forceColors := false,
    disableColors := false,
    disableQuote := true,
    disableTimestamp := false,
    disableSorting := false,
    disableLevelTruncation := false,
    quoteEmptyFields := true,
    fieldMap := map[KeyTime := "time", KeyLevel := "level", KeyMsg := "msg",
                    KeyLogrusError := "logrus_error", KeyFunc := "func", KeyFile := "file"])

  /** The package globals, with the singleton reduced to its backing logger's settings. */
  datatype PkgState = PkgState(once: bool, logger: Option<Settings>, failFast: string) {
    /** The singleton exists exactly when the once-guard has fired. */
    predicate Valid() {
      once == logger.Some?
    }
  }

  /** The package before its init function runs. */
  const Unloaded: PkgState := PkgState(false, None, "")

  /** InitializeGoI2PLogger: configure once from the environment, then never again. */
  function InitStep(s: PkgState, env: Env): PkgState
  {
    if s.once then s
    else
      var c := Configure(Getenv(env, DebugVar), Getenv(env, WarnFailVar), s.failFast);
      PkgState(true, Some(Settings(c.sink, c.level, Some(GoI2PFormatter))), c.failFast)
  }

  /** GetGoI2PLogger: initialise only while the singleton is nil. */
  function GetStep(s: PkgState, env: Env): PkgState
  {
    if s.logger.Some? then s else InitStep(s, env)
  }

  /** InitializeGoI2PLogger called once per environment in `envs`, in order. */
  function InitMany(s: PkgState, envs: seq<Env>): PkgState
    decreases |envs|
  {
    if envs == [] then s else InitMany(InitStep(s, envs[0]), envs[1..])
  }

  /** Initialisation is terminal and keeps the package consistent. */
  lemma InitIsTerminal(s: PkgState, env: Env)
    requires s.Valid()
    ensures InitStep(s, env).once && InitStep(s, env).Valid()
    ensures s.once ==> InitStep(s, env) == s
  {
  }

  /** However often InitializeGoI2PLogger runs, only the first call's environment matters. */
  lemma {:induction false} InitRunsAtMostOnce(s: PkgState, envs: seq<Env>)
    requires envs != []
    ensures InitMany(s, envs) == InitStep(s, envs[0])
    decreases |envs|
  {
    var s1 := InitStep(s, envs[0]);
    if |envs| > 1 {
      InitRunsAtMostOnce(s1, envs[1..]);
      assert InitStep(s1, envs[1..][0]) == s1;
    }
  }

  /** A call of one of the two entry points, with the environment it sees. */
  datatype EntryPoint = InitializeCall(env: Env) | GetCall(env: Env)

  function Step(s: PkgState, c: EntryPoint): PkgState
  {
    match c
    case InitializeCall(env) => InitStep(s, env)
    case GetCall(env) => GetStep(s, env)
  }

  /** A sequence of InitializeGoI2PLogger and GetGoI2PLogger calls, in order. */
  function RunCalls(s: PkgState, calls: seq<EntryPoint>): PkgState
    decreases |calls|
  {
    if calls == [] then s else RunCalls(Step(s, calls[0]), calls[1..])
  }

  /**
   * On a consistent package, any mix of InitializeGoI2PLogger and
   * GetGoI2PLogger calls configures once, from the first call's environment,
   * and leaves a consistent package with a singleton.
   */
  lemma {:induction false} MixedCallsConfigureOnce(s: PkgState, calls: seq<EntryPoint>)
    requires s.Valid() && calls != []
    ensures RunCalls(s, calls) == InitStep(s, calls[0].env)
    ensures RunCalls(s, calls).Valid() && RunCalls(s, calls).logger.Some?
    decreases |calls|
  {
    var s1 := Step(s, calls[0]);
    assert s1 == InitStep(s, calls[0].env);
    if |calls| > 1 {
      MixedCallsConfigureOnce(s1, calls[1..]);
      assert Step(s1, calls[1..][0]) == s1;
    }
  }

  /** The configuration a loaded package ends up with is fixed by the two variables alone. */
  lemma LoadDependsOnlyOnTheTwoVariables(e1: Env, e2: Env)
    requires Getenv(e1, DebugVar) == Getenv(e2, DebugVar)
    requires Getenv(e1, WarnFailVar) == Getenv(e2, WarnFailVar)
    ensures InitStep(Unloaded, e1) == InitStep(Unloaded, e2)
  {
  }

  /**
   * GetGoI2PLogger on a consistent package always yields a singleton and never
   * reconfigures an existing one. On a package whose `log` was reset to nil
   * after the once-guard fired, it stays nil.
   */
  lemma GetStepCases(s: PkgState, env: Env)
    ensures s.Valid() ==> GetStep(s, env).Valid() && GetStep(s, env).logger.Some?
    ensures s.logger.Some? ==> GetStep(s, env) == s
    ensures s.once && s.logger.None? ==> GetStep(s, env) == s
    ensures !s.once && s.logger.None? ==> GetStep(s, env) == InitStep(s, env)
  {
  }

  /** The key and message of the record InitializeGoI2PLogger writes when logging is enabled. */
  const AnnounceKey: string := "level"
  const AnnounceText: string := "Logging enabled."

  /** The record announcing that logging is enabled, written through an entry carrying the level. */
  function Announcement(b: Backing, level: Level): Effect
  {
    Emit(OnEntry(BackingEntry(b, [Field(AnnounceKey, LevelValue(level))])), DebugLevel, Plain([Text(AnnounceText)]))
  }

  /** The package globals log, once and failFast. */
  class Globals {
    var log: Option<Logger>
    var once: bool
    var failFast: string

    ghost function Footprint(): set<object>
      reads this
    {
      if log.Some? then {log.value.backing} else {}
    }

    /** The abstract package state. */
    ghost function State(): PkgState
      reads this, Footprint()
    {
      PkgState(once, if log.Some? then Some(log.value.backing.Snapshot()) else None, failFast)
    }

    /** Loading the package: zero-valued globals, then init() calls InitializeGoI2PLogger. */
    constructor Load(env: Env)
      ensures State() == InitStep(Unloaded, env) && State().Valid()
      ensures log.Some? && fresh(log.value.backing)
    {
      log := None;
      once := false;
      failFast := "";
      new;
      var _ := InitializeGoI2PLogger(env);
    }

    /**
     * InitializeGoI2PLogger. The first call creates the singleton and
     * configures it step by step (formatter, discard and Panic, then stdout
     * and the selected level when DEBUG_I2P is set); later calls do nothing.
     * `records` are the records it hands to the backing logger.
     */
    method InitializeGoI2PLogger(env: Env) returns (records: seq<Effect>)
      modifies this
      ensures State() == InitStep(old(State()), env)
      ensures old(once) ==> log == old(log) && records == []
      ensures !old(once) ==> log.Some? && fresh(log.value.backing)
      ensures !old(once) && Getenv(env, DebugVar) != "" ==>
        log.Some? && records == [Announcement(log.value.backing, log.value.backing.level)]
      ensures !old(once) && Getenv(env, DebugVar) == "" ==> records == []
    {
      records := [];
      if once {
        return;
      }
      once := true;
      var b := new Backing();
      var l := Logger(b);
      log := Some(l);
      l.SetFormatter(GoI2PFormatter);
      b.SetOutput(Discard);
      l.SetLevel(PanicLevel);
      var logLevel := Getenv(env, DebugVar);
      if logLevel != "" {
        failFast := Getenv(env, WarnFailVar);
        if failFast != "" && logLevel == "" {
          logLevel := "debug";
        }
        b.SetOutput(Stdout);
        var name := ToLower(logLevel);
        if name == "debug" {
          l.SetLevel(DebugLevel);
        } else if name == "warn" {
          l.SetLevel(WarnLevel);
        } else if name == "error" {
          l.SetLevel(ErrorLevel);
        } else {
          l.SetLevel(DebugLevel);
        }
        var current := l.GetLevel();
        var e := LoggerWithField(l, AnnounceKey, LevelValue(current));
        var run := EntryCall(failFast, log, e, Debug, Plain([Text(AnnounceText)]));
        records := run.effects;
      }
    }

    /** GetGoI2PLogger: initialise while `log` is nil, then return `log`. */
    method GetGoI2PLogger(env: Env) returns (r: Option<Logger>)
      modifies this
      ensures State() == GetStep(old(State()), env)
      ensures r == log
      ensures old(log).Some? ==> r == old(log) && once == old(once) && failFast == old(failFast)
      ensures old(State()).Valid() ==> r.Some? && State().Valid()
    {
      if log.None? {
        var _ := InitializeGoI2PLogger(env);
      }
      r := log;
    }

    /**
     * The package-level WithFields: an entry on the singleton. `None` stands
     * for the nil dereference that happens when `log` is nil after the
     * once-guard fired.
     */
    method WithFields(env: Env, fields: map<string, Value>) returns (e: Option<Entry>)
      modifies this
      ensures State() == GetStep(old(State()), env)
      ensures log.Some? ==> e == Some(LoggerWithFields(log.value, fields))
      ensures log.None? ==> e.None?
      ensures old(State()).Valid() ==> e.Some? && e.value.logger == log.value && e.value.Valid()
    {
      var l := GetGoI2PLogger(env);
      if l.Some? {
        e := Some(LoggerWithFields(l.value, fields));
      } else {
        e := None;
      }
    }

    /** The package-level WithField, as WithFields. */
    method WithField(env: Env, key: string, value: Value) returns (e: Option<Entry>)
      modifies this
      ensures State() == GetStep(old(State()), env)
      ensures log.Some? ==> e == Some(LoggerWithField(log.value, key, value))
      ensures log.None? ==> e.None?
      ensures old(State()).Valid() ==> e.Some? && e.value.logger == log.value && e.value.Valid()
    {
      var l := GetGoI2PLogger(env);
      if l.Some? {
        e := Some(LoggerWithField(l.value, key, value));
      } else {
        e := None;
      }
    }
  }
}
