# go-i2p logger: fail-fast gate and singleton initialisation

This project models the decision logic of the go-i2p `logger` package (log.go) in Dafny. The package is a
facade over logrus. It adds two things:

- **A fail-fast mode.** When the process-wide `failFast` string is non-empty, every Warn/Warnf/Error/Errorf
  call on a `Logger` or an `Entry` is escalated to Fatal on the singleton logger. If the singleton does not
  exist, the call raises a controlled panic with the message "Logger not initialized but fast-fail mode enabled".
- **A lazily created singleton logger.** It is configured once from the environment variables `DEBUG_I2P` and
  `WARNFAIL_I2P`.

Modules:

- `Wrappers` (wrappers.dfy): `Option`, where `None` plays the role of a nil pointer.
- `Backend` (backend.dfy): the part of logrus the facade relies on. This is the backing logger as a class whose
  sink, level and formatter are changed in place, plus a backing entry that holds the logger it writes through
  and the field attachments applied so far.
- `Facade` (facade.dfy): the `Logger` and `Entry` wrappers. A logging call is modelled by the `Run` it produces:
  the records handed to the backing logger, in order, and how the call ends (`Returned`, `Exited` after Fatal,
  or `Panicked`). The globals the gate reads, `failFast` and `log`, are passed in as parameters.
- `Singleton` (singleton.dfy): the package globals `log`, `once` and `failFast` as the class `Globals`, with
  `sync.Once` reduced to the boolean `once`. The environment is a parameter, and an unset variable reads as "".
  - `Configure` is the configuration the two variables select.
  - `InitStep` and `GetStep` state what `InitializeGoI2PLogger` and `GetGoI2PLogger` do to the abstract package
    state (`PkgState`).
  - The class methods are proved against those functions.

Two points about the code itself:

- The override `failFast != "" && logLevel == ""` (log.go:234) looks meant to turn on debug output when only
  `WARNFAIL_I2P` is set. But `WARNFAIL_I2P` is read only inside the `DEBUG_I2P != ""` branch, so the override
  never fires (`FailFastOverrideIsDead`). With `DEBUG_I2P` empty, logging stays silent and fail-fast stays off
  (`DefaultSilence`, `FailFastNeedsBothVariables`).
- `GetGoI2PLogger` returns nil exactly when `log` is nil after the once-guard has fired, as happens when
  log_test.go resets `log`. On a consistent package (`PkgState.Valid`) it always returns a non-nil logger
  (`GetStepCases`).

## Model

| member | source | states |
|---|---|---|
| `Facade.WarnFatal` | log.go:173-182 | fail-fast off: returns with no record; on, no singleton: panics with the fixed message and emits nothing; on, singleton present: one Fatal record on the singleton's backing logger, then the process exits |
| `Facade.WarnFatalf` | log.go:184-193 | the same three outcomes, escalating through Fatalf with the caller's format and arguments |
| `Facade.Direct` | log.go:92-153 | a delegated call hands exactly one record at the method's level to its target; Fatal then exits, Panic panics with the entry, and every other method returns |
| `Facade.LoggerCall` | log.go:35-57 | on a Logger, only Warn/Warnf/Error/Errorf check fail-fast; otherwise, or with fail-fast off, the call is the plain delegated call; with fail-fast on they panic (no singleton) or emit only a Fatal record on the singleton, not the receiver, and exit |
| `Facade.EntryCall` | log.go:91-153 | on an Entry, the same split: Debug/Info/Fatal/Panic and their f variants go to the backing entry unchecked, and Warn/Error with fail-fast on never reach the receiver |
| `Facade.UngatedIgnoresFailFast` | log.go:91-153 | for every method other than Warn/Error, the outcome is the same whatever the fail-fast string and the singleton are |
| `Facade.FailFastOffIsTransparent` | log.go:36-39 | with fail-fast empty, Warn/Error on a Logger or an Entry emit one record at their own level on the receiver and return |
| `Facade.FailFastNeverSwallowed` | log.go:112-133 | with fail-fast on, a gated call never returns normally; every record it emits is Fatal on the singleton; it ends in the controlled panic exactly when there is no singleton |
| `Facade.LoggerWithField` | log.go:60-63 | the new Entry carries the receiver Logger, and its backing entry writes through the same backing logger |
| `Facade.LoggerWithFields` | log.go:66-69 | as LoggerWithField, with a field map attached |
| `Facade.LoggerWithError` | log.go:72-75 | as LoggerWithField, with the error attached |
| `Facade.EntryWithField` | log.go:156-159 | the derived Entry carries the receiver's Logger unchanged, stays consistent and extends the receiver's attachments by one |
| `Facade.EntryWithFields` | log.go:162-165 | as EntryWithField, for a field map |
| `Facade.EntryWithError` | log.go:168-171 | as EntryWithField, for an error |
| `Facade.DeriveKeepsLogger` | log.go:155-171 | any chain of WithField/WithFields/WithError calls keeps the Logger and the backing logger, keeps consistency, and only appends attachments |
| `Facade.Logger.SetLevel` | log.go:77-79 | sets the backing logger's level and leaves its sink and formatter unchanged |
| `Facade.Logger.GetLevel` | log.go:81-83 | returns the backing logger's current level |
| `Facade.Logger.SetFormatter` | log.go:85-87 | installs the formatter and leaves sink and level unchanged |
| `Backend.Backing.constructor` | log.go:205 | a new backing logger, with placeholder settings that initialisation overwrites |
| `Backend.Backing.SetOutput` | log.go:229 | changes only the sink |
| `Backend.Backing.SetLevel` | log.go:230 | changes only the level |
| `Backend.Backing.GetLevel` | log.go:81-83 | reads the level |
| `Backend.Backing.SetFormatter` | log.go:226 | changes only the formatter |
| `Singleton.ToLower` | log.go:238 | lower-casing keeps the length and lower-cases each character independently |
| `Singleton.ToLowerMatches` | log.go:238 | a string lower-cases to a lower-case name exactly when it equals that name ignoring letter case |
| `Singleton.LevelNamesAreLower` | log.go:239-244 | the three case labels are already lower case |
| `Singleton.SelectLevelCases` | log.go:238-247 | "warn" and "error" in any letter case give Warn and Error; every other value gives Debug; no other level is possible |
| `Singleton.DefaultSilence` | log.go:228-232 | with DEBUG_I2P empty, the result is discard, Panic level and fail-fast unchanged, whatever WARNFAIL_I2P holds |
| `Singleton.EnabledConfiguration` | log.go:232-247 | with DEBUG_I2P non-empty, the result is stdout, the level its name selects, and fail-fast taken from WARNFAIL_I2P |
| `Singleton.FailFastOverrideIsDead` | log.go:232-236 | the chosen level and sink do not depend on WARNFAIL_I2P |
| `Singleton.InfoSelectsDebug` | log.go:245-246 | "info" falls back to Debug; "WARN" selects Warn |
| `Singleton.FailFastNeedsBothVariables` | log.go:232-233 | from a fresh process, fail-fast ends up enabled exactly when both variables are non-empty |
| `Singleton.InitIsTerminal` | log.go:203 | initialisation sets the once-guard, keeps once and singleton in step, and leaves an initialised package unchanged |
| `Singleton.InitRunsAtMostOnce` | log.go:203-250 | any number of InitializeGoI2PLogger calls give the state of the first call alone |
| `Singleton.MixedCallsConfigureOnce` | log.go:202-259 | on a consistent package, any mix of InitializeGoI2PLogger and GetGoI2PLogger calls gives the state of initialising once with the first call's environment, and ends with a singleton |
| `Singleton.LoadDependsOnlyOnTheTwoVariables` | log.go:232-233 | the loaded configuration depends on DEBUG_I2P and WARNFAIL_I2P only |
| `Singleton.GetStepCases` | log.go:254-259 | on a consistent package, GetGoI2PLogger always yields a singleton and never reconfigures an existing one; with log nil after the guard fired it stays nil; otherwise it initialises |
| `Singleton.Globals.Load` | log.go:261-263 | loading the package runs the initialisation on zero-valued globals and creates a fresh singleton |
| `Singleton.Globals.InitializeGoI2PLogger` | log.go:202-251 | the new state is InitStep of the old one; a second call keeps the same singleton and emits nothing; the first call creates a fresh backing logger and emits the "Logging enabled." record, carrying the level, exactly when DEBUG_I2P is set |
| `Singleton.Globals.GetGoI2PLogger` | log.go:254-259 | the new state is GetStep of the old one; returns the current `log`; an existing singleton is returned unchanged; a consistent package yields a non-nil logger |
| `Singleton.Globals.WithFields` | log.go:283-287 | an Entry on the singleton, or None where the code would dereference a nil `log` |
| `Singleton.Globals.WithField` | log.go:291-295 | as WithFields, for one field |

## Left out

- Level filtering, record rendering (`TextFormatter` output, `FieldMap` remapping, quoting, sorting) and the
  merging of fields inside a logrus entry belong to logrus, which is not part of this model. An entry keeps
  its attachments as a list, and a record is "handed to" the backing logger, which may still filter it.
- The numeric values of the level constants (log.go:265-273) and the type aliases `Fields`, `Level` and
  `TextFormatter` (log.go:29-33): levels are a plain enumeration, and fields are maps to a small `Value` type
  that stands in for `interface{}`.
- `New()` (log.go:275-279): it only returns `logrus.New()`, whose defaults are not visible here.
- `warnFail` (log.go:195-199): it is never called. Unlike `warnFatal`, it would dereference `log` without a
  nil check.
- `sync.Once` thread safety and concurrent first access. The guard is a sequential boolean.
- `os.Getenv`, writes to `io.Discard`/`os.Stdout`, and process exit. The environment is a map parameter, a
  sink is an enumeration, and Fatal and panics are `Ending` values.
- Facade.LoggerCall: assumes logrus's default exit function. The Go wrapper's normal emission after the Fatal
  escalation is therefore never reached. A replaced `ExitFunc` that returns is not modelled, and neither is
  the value logrus panics with on Panic (`EntryPanic` stands for it).
- Facade.EntryCall: the same assumption about Fatal as LoggerCall.
- Facade.LoggerCall: the logrus methods a Logger reaches through embedding, other than
  Debug/Info/Fatal/Panic and their f variants, are not modelled (Trace, Print, Log, ...).
- Singleton.ToLower: lower-cases ASCII letters only, while `strings.ToLower` is Unicode-aware. No non-ASCII
  character lower-cases to one of the letters of "debug", "warn" or "error", so the level switch picks the
  same branch either way.
- Backend.Backing.constructor: logrus's own defaults are replaced by placeholder settings. Initialisation
  overwrites all three before they can be observed.
