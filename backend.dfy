/**
 * The backing logger (logrus) as far as the facade in log.go relies on it.
 * Its formatting, level filtering and field merging are not modelled; what is
 * kept is the state the facade sets (output sink, level, formatter) and the
 * identity of the logger an entry writes through.
 */
module Backend {
  import opened Wrappers

  /** Severities, most severe first. Their numeric values belong to logrus. */
  datatype Level = PanicLevel | FatalLevel | ErrorLevel | WarnLevel | InfoLevel | DebugLevel | TraceLevel

  /** Where records are written: io.Discard, os.Stdout or os.Stderr. */
  datatype Sink = Discard | Stdout | Stderr

  /** The reserved keys a formatter's field map can rename. */
  datatype FieldKey = KeyTime | KeyLevel | KeyMsg | KeyLogrusError | KeyFunc | KeyFile

  /** The settings of a text formatter, as a plain record. */
  datatype TextFormatter = TextFormatter(
    fullTimestamp: bool,
    timestampFormat: string,
    forceColors: bool,
    disableColors: bool,
    disableQuote: bool,
    disableTimestamp: bool,
    disableSorting: bool,
    disableLevelTruncation: bool,
    quoteEmptyFields: bool,
    fieldMap: map<FieldKey, string>)

  /** A field value; the program passes arbitrary values, the model a few kinds. */
  datatype Value = Text(text: string) | LevelValue(level: Level) | Number(number: int)

  /** One field attachment applied to an entry; merging them is the backing logger's business. */
  datatype Attachment =
    | Field(key: string, value: Value)
    | FieldSet(fields: map<string, Value>)
    | ErrorField(message: string)

  /** The observable configuration of a backing logger. */
  datatype Settings = Settings(sink: Sink, level: Level, formatter: Option<TextFormatter>)

  /** A backing logger object; the facade changes its sink, level and formatter in place. */
  class Backing {
    var sink: Sink
    var level: Level
    var formatter: Option<TextFormatter>

    /**
     * A new backing logger. Its initial settings are placeholders: the only
     * creator in the model overwrites all three before anyone can observe them.
     */
    constructor ()
      ensures sink == Stderr && level == InfoLevel && formatter == None
    {
      sink := Stderr;
      level := InfoLevel;
      formatter := None;
    }

    /** The settings this logger currently holds. */
    function Snapshot(): Settings
      reads this
    {
      Settings(sink, level, formatter)
    }

    method SetOutput(out: Sink)
      modifies this
      ensures sink == out && level == old(level) && formatter == old(formatter)
    {
      sink := out;
    }

    method SetLevel(l: Level)
      modifies this
      ensures level == l && sink == old(sink) && formatter == old(formatter)
    {
      level := l;
    }

    method GetLevel() returns (l: Level)
      ensures l == level
    {
      l := level;
    }

    method SetFormatter(f: TextFormatter)
      modifies this
      ensures formatter == Some(f) && sink == old(sink) && level == old(level)
    {
      formatter := Some(f);
    }
  }

  /** A backing entry: the logger it writes through and the attachments applied so far. */
  datatype BackingEntry = BackingEntry(logger: Backing, attached: seq<Attachment>)
}
