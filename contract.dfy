/**
 * The logging contract shared by every backend: the severity levels, the
 * key/value fields, and the escalations (panic, process exit) a log call
 * may end in.
 */
module Contract {
  import opened Wrappers
  import opened Text

  /** Go's `Level int8`. */
  newtype Level = x: int | -128 <= x < 128

  const DebugLevel: Level := -1
  const InfoLevel: Level := 0
  const WarnLevel: Level := 1
  const ErrorLevel: Level := 2
  const DPanicLevel: Level := 3
  const PanicLevel: Level := 4
  const FatalLevel: Level := 5

  /** The seven named levels, in the order of the `iota - 1` declaration. */
  const Levels: seq<Level> := [DebugLevel, InfoLevel, WarnLevel, ErrorLevel, DPanicLevel, PanicLevel, FatalLevel]

  predicate IsNamed(l: Level) { DebugLevel <= l <= FatalLevel }

  /** The declaration numbers the levels -1, 0, ..., 5 in increasing severity. */
  lemma LevelsStrictlyOrdered()
    ensures |Levels| == 7
    ensures forall i | 0 <= i < |Levels| :: Levels[i] as int == i - 1
    ensures forall i, j | 0 <= i < j < |Levels| :: Levels[i] < Levels[j]
    ensures forall l: Level :: IsNamed(l) <==> l in Levels
  {
    forall l: Level | IsNamed(l) ensures l in Levels {
      assert Levels[l as int + 1] == l;
    }
  }

  /** `Level.String`: the level's upper-case token, "UNKNOWN" for any other value. */
  function LevelString(l: Level): (s: string)
    ensures IsNamed(l) <==> s != "UNKNOWN"
    ensures forall i | 0 <= i < |s| :: 'A' <= s[i] <= 'Z'
    ensures 4 <= |s| <= 7
  {
    if l == DebugLevel then "DEBUG"
    else if l == InfoLevel then "INFO"
    else if l == WarnLevel then "WARN"
    else if l == ErrorLevel then "ERROR"
    else if l == DPanicLevel then "DPANIC"
    else if l == PanicLevel then "PANIC"
    else if l == FatalLevel then "FATAL"
    else "UNKNOWN"
  }

  lemma LevelStringTokens()
    ensures LevelString(DebugLevel) == "DEBUG" && LevelString(InfoLevel) == "INFO"
    ensures LevelString(WarnLevel) == "WARN" && LevelString(ErrorLevel) == "ERROR"
    ensures LevelString(DPanicLevel) == "DPANIC" && LevelString(PanicLevel) == "PANIC"
    ensures LevelString(FatalLevel) == "FATAL"
  {
  }

  /** Two named levels never share a token, so the token identifies the level. */
  lemma LevelStringInjective(a: Level, b: Level)
    requires IsNamed(a) && IsNamed(b)
    requires LevelString(a) == LevelString(b)
    ensures a == b
  {
  }

  /**
   * A field value. Go accepts any `interface{}`; the renderers distinguish
   * `int`, `float64` and everything else, so this is a closed union of those
   * kinds. A float carries the two texts Go would print for it (`%f` and `%v`):
   * floating-point formatting itself is not modelled. `OtherValue` carries
   * the `%v` text of any other value.
   */
  datatype Value =
    | IntValue(i: int)
    | StringValue(s: string)
    | FloatValue(fixed: string, general: string)
    | OtherValue(text: string)

  /** `fmt.Sprintf("%v", v)`. */
  function Display(v: Value): string
  {
    match v
    case IntValue(i) => IntToString(i)
    case StringValue(s) => s
    case FloatValue(_, general) => general
    case OtherValue(text) => text
  }

  /** `%v` of an int is its decimal text, which reads back as the same int. */
  lemma DisplayInt(i: int)
    ensures ParseInt(Display(IntValue(i))) == Some(i)
  {
    ParseIntToString(i);
  }

  /** A key/value pair; `key` and `value` are the `Key()` and `Value()` accessors. */
  datatype Field = Field(key: string, value: Value)

  /** `NewField(key, value)`: a field whose accessors return exactly its arguments. */
  function NewField(key: string, value: Value): (f: Field)
    ensures f.key == key && f.value == value
  {
    Field(key, value)
  }

  /** How a log call ends: it returns, it panics with a message, or the process exits. */
  datatype Outcome = Returned | Panicked(msg: string) | Exited(code: int)
}
