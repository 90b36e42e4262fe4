/**
 * The facade of log.go: a Logger wrapping a backing logger, an Entry wrapping
 * a backing entry, the fail-fast gate consulted by Warn and Error, and the
 * field-attachment methods that derive new entries.
 *
 * A call is modelled by the `Run` it produces: the records handed to the
 * backing logger, in order, and how the call ends (it returns, the process
 * exits, or it panics). The package globals the gate reads, `failFast` and
 * the singleton `log`, are parameters here.
 */
module Facade {
  import opened Wrappers
  import opened Backend

  /** The facade Logger: a value holding a pointer to its backing logger. */
  datatype Logger = Logger(backing: Backing) {

    method SetLevel(level: Level)
      modifies backing
      ensures backing.Snapshot() == old(backing.Snapshot()).(level := level)
    {
      backing.SetLevel(level);
    }

    method GetLevel() returns (level: Level)
      ensures level == backing.level
    {
      level := backing.GetLevel();
    }

    method SetFormatter(formatter: TextFormatter)
      modifies backing
      ensures backing.Snapshot() == old(backing.Snapshot()).(formatter := Some(formatter))
    {
      backing.SetFormatter(formatter);
    }
  }

  /** The facade Entry: a copy of the Logger it came from and a backing entry. */
  datatype Entry = Entry(logger: Logger, entry: BackingEntry) {

    /** The facade logger and the backing entry write through the same backing logger. */
    predicate Valid() {
      entry.logger == logger.backing
    }
  }

  /** The arguments of a logging call: `Warn(args...)` or `Warnf(format, args...)`. */
  datatype Message = Plain(args: seq<Value>) | Formatted(format: string, args: seq<Value>)

  /** The leveled methods; the `f` variants are told apart by their `Message`. */
  datatype Method = Debug | Info | Warn | Error | Fatal | Panic

  /** What a record is handed to: a backing logger or a backing entry (which adds its fields). */
  datatype Target = OnLogger(logger: Backing) | OnEntry(entry: BackingEntry)

  /** One record handed to the backing logger at a level (which may still filter it). */
  datatype Effect = Emit(target: Target, level: Level, message: Message)

  /** A panic raised with a fixed string, or the backing logger's own Panic-level panic. */
  datatype PanicValue = Controlled(text: string) | EntryPanic

  /** How a call ends. */
  datatype Ending = Returned | Exited | Panicked(value: PanicValue)

  /** The records a call emits and how it ends. */
  datatype Run = Run(effects: seq<Effect>, ending: Ending)

  /** The panic value used when fail-fast is on but the singleton does not exist. */
  const NotInitializedMessage: string := "Logger not initialized but fast-fail mode enabled"

  /** The three outcomes of the fail-fast gate. */
  datatype GateOutcome = Proceed | EscalateToFatal | RefuseUninitialized

  /** The decision shared by warnFatal and warnFatalf. */
  function Gate(failFast: string, singletonPresent: bool): GateOutcome
  {
    if failFast == "" then Proceed
    else if singletonPresent then EscalateToFatal
    else RefuseUninitialized
  }

  function LevelOf(m: Method): Level
  {
    match m
    case Debug => DebugLevel
    case Info => InfoLevel
    case Warn => WarnLevel
    case Error => ErrorLevel
    case Fatal => FatalLevel
    case Panic => PanicLevel
  }

  /**
   * A call handed straight to the backing logger: one record at the method's
   * level; Fatal then exits the process and Panic panics.
   */
  function Direct(target: Target, m: Method, msg: Message): (r: Run)
    ensures r.effects == [Emit(target, LevelOf(m), msg)]
    ensures r.ending == Returned <==> m !in {Fatal, Panic}
    ensures m == Fatal ==> r.ending == Exited
    ensures m == Panic ==> r.ending == Panicked(EntryPanic)
  {
    Run([Emit(target, LevelOf(m), msg)],
        match m
        case Fatal => Exited
        case Panic => Panicked(EntryPanic)
        case _ => Returned)
  }

  /** Runs `first`, then `next` only if `first` returned. */
  function AndThen(first: Run, next: Run): Run
  {
    if first.ending == Returned then Run(first.effects + next.effects, next.ending) else first
  }

  /** warnFatal(args...): nothing when fail-fast is off, else Fatal on the singleton, or a controlled panic without one. */
  function WarnFatal(failFast: string, singleton: Option<Logger>, args: seq<Value>): (r: Run)
    ensures failFast == "" ==> r == Run([], Returned)
    ensures failFast != "" && singleton.None? ==> r == Run([], Panicked(Controlled(NotInitializedMessage)))
    ensures failFast != "" && singleton.Some? ==>
      r == Run([Emit(OnLogger(singleton.value.backing), FatalLevel, Plain(args))], Exited)
  {
    match Gate(failFast, singleton.Some?)
    case Proceed => Run([], Returned)
    case EscalateToFatal => Direct(OnLogger(singleton.value.backing), Fatal, Plain(args))
    case RefuseUninitialized => Run([], Panicked(Controlled(NotInitializedMessage)))
  }

  /** warnFatalf(format, args...): as WarnFatal, escalating through Fatalf with the same format. */
  function WarnFatalf(failFast: string, singleton: Option<Logger>, format: string, args: seq<Value>): (r: Run)
    ensures failFast == "" ==> r == Run([], Returned)
    ensures failFast != "" && singleton.None? ==> r == Run([], Panicked(Controlled(NotInitializedMessage)))
    ensures failFast != "" && singleton.Some? ==>
      r == Run([Emit(OnLogger(singleton.value.backing), FatalLevel, Formatted(format, args))], Exited)
  {
    match Gate(failFast, singleton.Some?)
    case Proceed => Run([], Returned)
    case EscalateToFatal => Direct(OnLogger(singleton.value.backing), Fatal, Formatted(format, args))
    case RefuseUninitialized => Run([], Panicked(Controlled(NotInitializedMessage)))
  }

  /** Only Warn, Warnf, Error and Errorf check fail-fast. */
  predicate ConsultsGate(m: Method) {
    m == Warn || m == Error
  }

  /** The gate for a message: warnFatal for plain arguments, warnFatalf for a format. */
  function GateFor(failFast: string, singleton: Option<Logger>, msg: Message): Run
  {
    match msg
    case Plain(args) => WarnFatal(failFast, singleton, args)
    case Formatted(format, args) => WarnFatalf(failFast, singleton, format, args)
  }

  /**
   * A leveled call on a facade Logger. Warn/Warnf/Error/Errorf are the
   * wrappers of log.go; the other methods are the backing logger's own,
   * reached through the embedded pointer.
   */
  function LoggerCall(failFast: string, singleton: Option<Logger>, l: Logger, m: Method, msg: Message): (r: Run)
    ensures !ConsultsGate(m) || failFast == "" ==> r == Direct(OnLogger(l.backing), m, msg)
    ensures ConsultsGate(m) && failFast != "" && singleton.None? ==>
      r == Run([], Panicked(Controlled(NotInitializedMessage)))
    ensures ConsultsGate(m) && failFast != "" && singleton.Some? ==>
      r == Run([Emit(OnLogger(singleton.value.backing), FatalLevel, msg)], Exited)
  {
    if ConsultsGate(m) then AndThen(GateFor(failFast, singleton, msg), Direct(OnLogger(l.backing), m, msg))
    else Direct(OnLogger(l.backing), m, msg)
  }

  /**
   * A leveled call on a facade Entry: every method goes to the backing entry
   * (so its fields are rendered); Warn/Warnf/Error/Errorf check fail-fast first.
   */
  function EntryCall(failFast: string, singleton: Option<Logger>, e: Entry, m: Method, msg: Message): (r: Run)
    ensures !ConsultsGate(m) || failFast == "" ==> r == Direct(OnEntry(e.entry), m, msg)
    ensures ConsultsGate(m) && failFast != "" && singleton.None? ==>
      r == Run([], Panicked(Controlled(NotInitializedMessage)))
    ensures ConsultsGate(m) && failFast != "" && singleton.Some? ==>
      r == Run([Emit(OnLogger(singleton.value.backing), FatalLevel, msg)], Exited)
  {
    if ConsultsGate(m) then AndThen(GateFor(failFast, singleton, msg), Direct(OnEntry(e.entry), m, msg))
    else Direct(OnEntry(e.entry), m, msg)
  }

  // Deriving entries

  /** Logger.WithField: a new entry on this logger's backing logger. */
  function LoggerWithField(l: Logger, key: string, value: Value): (e: Entry)
    ensures e.logger == l && e.Valid()
    ensures e.entry.attached == [Field(key, value)]
  {
    Entry(l, BackingEntry(l.backing, [Field(key, value)]))
  }

  /** Logger.WithFields. */
  function LoggerWithFields(l: Logger, fields: map<string, Value>): (e: Entry)
    ensures e.logger == l && e.Valid()
    ensures e.entry.attached == [FieldSet(fields)]
  {
    Entry(l, BackingEntry(l.backing, [FieldSet(fields)]))
  }

  /** Logger.WithError; the error is kept as its message. */
  function LoggerWithError(l: Logger, err: string): (e: Entry)
    ensures e.logger == l && e.Valid()
    ensures e.entry.attached == [ErrorField(err)]
  {
    Entry(l, BackingEntry(l.backing, [ErrorField(err)]))
  }

  /** Entry.WithField: a new entry carrying the receiver's Logger; the receiver, a value, is untouched. */
  function EntryWithField(e: Entry, key: string, value: Value): (r: Entry)
    ensures r.logger == e.logger && r.entry.logger == e.entry.logger
    ensures e.Valid() ==> r.Valid()
    ensures r.entry.attached == e.entry.attached + [Field(key, value)]
  {
    Entry(e.logger, BackingEntry(e.entry.logger, e.entry.attached + [Field(key, value)]))
  }

  /** Entry.WithFields. */
  function EntryWithFields(e: Entry, fields: map<string, Value>): (r: Entry)
    ensures r.logger == e.logger && r.entry.logger == e.entry.logger
    ensures e.Valid() ==> r.Valid()
    ensures r.entry.attached == e.entry.attached + [FieldSet(fields)]
  {
    Entry(e.logger, BackingEntry(e.entry.logger, e.entry.attached + [FieldSet(fields)]))
  }

  /** Entry.WithError. */
  function EntryWithError(e: Entry, err: string): (r: Entry)
    ensures r.logger == e.logger && r.entry.logger == e.entry.logger
    ensures e.Valid() ==> r.Valid()
    ensures r.entry.attached == e.entry.attached + [ErrorField(err)]
  {
    Entry(e.logger, BackingEntry(e.entry.logger, e.entry.attached + [ErrorField(err)]))
  }

  /** One field-attachment call on an entry. */
  datatype Derivation = WithFieldStep(key: string, value: Value) | WithFieldsStep(fields: map<string, Value>) | WithErrorStep(err: string)

  function DeriveOnce(e: Entry, d: Derivation): Entry
  {
    match d
    case WithFieldStep(key, value) => EntryWithField(e, key, value)
    case WithFieldsStep(fields) => EntryWithFields(e, fields)
    case WithErrorStep(err) => EntryWithError(e, err)
  }

  /** A chain of field-attachment calls, applied left to right. */
  function Derive(e: Entry, ds: seq<Derivation>): Entry
    decreases |ds|
  {
    if ds == [] then e else Derive(DeriveOnce(e, ds[0]), ds[1..])
  }

  /** Any chain of derivations keeps the Logger, keeps validity and only extends the attachments. */
  lemma {:induction false} DeriveKeepsLogger(e: Entry, ds: seq<Derivation>)
    ensures Derive(e, ds).logger == e.logger
    ensures Derive(e, ds).entry.logger == e.entry.logger
    ensures e.Valid() ==> Derive(e, ds).Valid()
    ensures |Derive(e, ds).entry.attached| == |e.entry.attached| + |ds|
    ensures Derive(e, ds).entry.attached[..|e.entry.attached|] == e.entry.attached
    decreases |ds|
  {
    if ds != [] {
      var e1 := DeriveOnce(e, ds[0]);
      DeriveKeepsLogger(e1, ds[1..]);
      assert e1.entry.attached[..|e.entry.attached|] == e.entry.attached;
    }
  }

  // Properties of the gate and the wrappers

  /** Methods other than Warn/Error behave the same whatever the fail-fast flag and the singleton are. */
  lemma UngatedIgnoresFailFast(ff1: string, s1: Option<Logger>, ff2: string, s2: Option<Logger>,
                               l: Logger, e: Entry, m: Method, msg: Message)
    requires !ConsultsGate(m)
    ensures LoggerCall(ff1, s1, l, m, msg) == LoggerCall(ff2, s2, l, m, msg)
    ensures EntryCall(ff1, s1, e, m, msg) == EntryCall(ff2, s2, e, m, msg)
  {
  }

  /** With fail-fast off, Warn and Error emit one record at their own level and return. */
  lemma FailFastOffIsTransparent(s: Option<Logger>, l: Logger, e: Entry, m: Method, msg: Message)
    requires ConsultsGate(m)
    ensures LoggerCall("", s, l, m, msg) == Run([Emit(OnLogger(l.backing), LevelOf(m), msg)], Returned)
    ensures EntryCall("", s, e, m, msg) == Run([Emit(OnEntry(e.entry), LevelOf(m), msg)], Returned)
  {
  }

  /**
   * With fail-fast on, a Warn or Error never returns normally and never
   * reaches its receiver: with a singleton the only record is a Fatal one on
   * the singleton, whoever the receiver is; without one nothing is emitted.
   */
  lemma FailFastNeverSwallowed(ff: string, s: Option<Logger>, e: Entry, m: Method, msg: Message)
    requires ConsultsGate(m) && ff != ""
    ensures EntryCall(ff, s, e, m, msg).ending != Returned
    ensures forall eff :: eff in EntryCall(ff, s, e, m, msg).effects ==>
              s.Some? && eff == Emit(OnLogger(s.value.backing), FatalLevel, msg)
    ensures s.None? <==> EntryCall(ff, s, e, m, msg).ending == Panicked(Controlled(NotInitializedMessage))
  {
  }
}
