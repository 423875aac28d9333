/**
 * The dependency-free standard logger: an immutable logger value, its
 * derivation by `Named` and `With`, the level gate and line format of `log`,
 * the escalations of `DPanic`, `Panic` and `Fatal`, and construction from
 * option functions.
 *
 * The wall clock is an input: `ts` is the RFC 3339 text `time.Now()` would
 * give. The writers are `Sink` objects.
 */
module Std {
  import opened Wrappers
  import opened Text
  import opened Contract
  import opened Sinks

  // ---------------------------------------------------------------------
  // fieldCollection.String

  /** One entry of a field collection: `key="value"`, the value `%v`-printed then `%q`-quoted. */
  function FieldString(f: Field): string
  {
    f.key + "=" + Quote(Display(f.value))
  }

  function FieldStrings(fs: seq<Field>): (r: seq<string>)
    ensures |r| == |fs| && forall i | 0 <= i < |fs| :: r[i] == FieldString(fs[i])
  {
    seq(|fs|, i requires 0 <= i < |fs| => FieldString(fs[i]))
  }

  /** What `fieldCollection.String` returns: the entries joined by ", ". */
  function RenderFields(fs: seq<Field>): string
  {
    Join(FieldStrings(fs), ", ")
  }

  /** `fieldCollection.String`: collects the entries in a slice, then joins them. */
  method FieldCollectionString(fs: seq<Field>) returns (s: string)
    ensures s == RenderFields(fs)
  {
    var parts: seq<string> := [];
    for i := 0 to |fs|
      invariant parts == FieldStrings(fs[..i])
    {
      parts := parts + [FieldString(fs[i])];
    }
    assert fs[..|fs|] == fs;
    s := Join(parts, ", ");
  }

  /** An entry starts with its key and "=", and the rest reads back as the value's `%v` text. */
  lemma FieldStringDecodes(f: Field)
    ensures IsPrefix(f.key + "=", FieldString(f))
    ensures Unquote(FieldString(f)[|f.key| + 1..]) == Some(Display(f.value))
  {
    var s := FieldString(f);
    assert s[|f.key| + 1..] == Quote(Display(f.value));
    UnquoteQuote(Display(f.value));
  }

  lemma RenderFieldsEmpty()
    ensures RenderFields([]) == ""
  {
  }

  /** Rendering a concatenation: both renderings, with ", " between them when both are non-empty. */
  lemma RenderFieldsConcat(a: seq<Field>, b: seq<Field>)
    ensures RenderFields(a + b) ==
      RenderFields(a) + (if a != [] && b != [] then ", " else "") + RenderFields(b)
  {
    assert FieldStrings(a + b) == FieldStrings(a) + FieldStrings(b);
    if a == [] {
      assert a + b == b;
    } else if b == [] {
      assert a + b == a;
    } else {
      JoinConcat(FieldStrings(a), FieldStrings(b), ", ");
    }
  }

  // ---------------------------------------------------------------------
  // The logger value

  datatype Logger = Logger(
    outWriter: Sink,
    errWriter: Sink,
    minLevel: Level,
    isInDevEnvironment: bool,
    disableAllWrites: bool,
    name: string,
    fields: seq<Field>)

  /** `newLogger`: unnamed, no fields, writes enabled, development mode on. */
  function NewLogger(outWriter: Sink, errWriter: Sink, minLevel: Level): (l: Logger)
    ensures l.outWriter == outWriter && l.errWriter == errWriter && l.minLevel == minLevel
    ensures l.isInDevEnvironment && !l.disableAllWrites
    ensures l.name == "" && l.fields == []
  {
    Logger(outWriter, errWriter, minLevel, true, false, "", [])
  }

  /** The name `Named` gives: the segments joined by ".", upper-cased. */
  function JoinedName(parent: string, segment: string): string
  {
    Upper(if |parent| > 0 then parent + "." + segment else segment)
  }

  /** `Named`: a copy of the receiver whose name gains one segment; nothing else changes. */
  function Named(l: Logger, name: string): (c: Logger)
    ensures c == l.(name := c.name)
    ensures |l.name| > 0 ==> c.name == Upper(l.name) + "." + Upper(name)
    ensures |l.name| == 0 ==> c.name == Upper(name)
  {
    var n := JoinedName(l.name, name);
    UpperDotted(l.name, name);
    l.(name := n)
  }

  /** `With`: a copy of the receiver with `args` appended to its fields; nothing else changes. */
  function With(l: Logger, args: seq<Field>): (c: Logger)
    ensures c == l.(fields := c.fields)
    ensures |c.fields| == |l.fields| + |args|
    ensures c.fields[..|l.fields|] == l.fields && c.fields[|l.fields|..] == args
  {
    l.(fields := l.fields + args)
  }

  /** `Sync`: the standard logger buffers nothing and always reports success. */
  function Sync(l: Logger): (err: Option<string>)
    ensures err == None
  {
    None
  }

  /** `Named` applied to each segment in turn. */
  function NamedAll(l: Logger, segments: seq<string>): Logger
    decreases |segments|
  {
    if segments == [] then l else NamedAll(Named(l, segments[0]), segments[1..])
  }

  /** Upper-casing a dot-joined path upper-cases each side of the dot. */
  lemma UpperDotted(a: string, b: string)
    ensures Upper(a + "." + b) == Upper(a) + "." + Upper(b)
  {
    UpperConcat(a + ".", b);
    UpperConcat(a, ".");
  }

  /** The name a chain of `Named` calls builds from `name`. */
  function ChainName(name: string, segments: seq<string>): string
    decreases |segments|
  {
    if segments == [] then name else ChainName(JoinedName(name, segments[0]), segments[1..])
  }

  /** A chain of `Named` calls only renames. */
  lemma {:induction false} NamedAllRenames(l: Logger, segments: seq<string>)
    ensures NamedAll(l, segments) == l.(name := ChainName(l.name, segments))
    decreases |segments|
  {
    if segments != [] {
      NamedAllRenames(Named(l, segments[0]), segments[1..]);
    }
  }

  /** Extending a dotted path by one more leading segment. */
  lemma DottedPathStep(name: string, s0: string, rest: seq<string>)
    requires rest != []
    ensures name + "." + Upper(s0) + "." + Upper(Join(rest, ".")) == name + "." + Upper(Join([s0] + rest, "."))
  {
    JoinConcat([s0], rest, ".");
    UpperDotted(s0, Join(rest, "."));
  }

  lemma {:induction false} ChainNamePath(name: string, segments: seq<string>)
    requires |name| > 0 && name == Upper(name)
    ensures ChainName(name, segments) ==
      if segments == [] then name else name + "." + Upper(Join(segments, "."))
    decreases |segments|
  {
    if segments != [] {
      var s0, rest := segments[0], segments[1..];
      var n := JoinedName(name, s0);
      assert n == name + "." + Upper(s0) && n == Upper(n) by {
        UpperDotted(name, s0);
        UpperIdempotent(name + "." + s0);
      }
      ChainNamePath(n, rest);
      if rest != [] {
        assert segments == [s0] + rest;
        DottedPathStep(name, s0, rest);
      }
    }
  }

  /**
   * Naming is hierarchical: from a named logger, a chain of `Named` calls
   * gives the dot-joined path, upper-cased, and keeps everything else.
   */
  lemma NamedAllPath(l: Logger, segments: seq<string>)
    requires |l.name| > 0 && l.name == Upper(l.name)
    ensures NamedAll(l, segments) ==
      l.(name := if segments == [] then l.name else l.name + "." + Upper(Join(segments, ".")))
  {
    NamedAllRenames(l, segments);
    ChainNamePath(l.name, segments);
  }

  /** From an unnamed root, a chain whose first segment is non-empty names the path. */
  lemma RootNamedAllPath(root: Logger, segments: seq<string>)
    requires root.name == "" && segments != [] && segments[0] != ""
    ensures NamedAll(root, segments) == root.(name := Upper(Join(segments, ".")))
  {
    var s0, rest := segments[0], segments[1..];
    NamedAllRenames(root, segments);
    var n := JoinedName("", s0);
    UpperIdempotent(s0);
    ChainNamePath(n, rest);
    if rest != [] {
      assert segments == [s0] + rest;
      JoinConcat([s0], rest, ".");
      UpperDotted(s0, Join(rest, "."));
    }
  }

  /** Two `Named` calls name the logger as one call with the dot-joined segment does. */
  lemma NamedTwice(l: Logger, a: string, b: string)
    requires |l.name| > 0 || |a| > 0
    ensures Named(Named(l, a), b) == Named(l, a + "." + b)
  {
    var ua, ub := Upper(a), Upper(b);
    UpperDotted(a, b);
    var first := Named(l, a).name;
    assert |first| > 0;
    UpperDotted(first, b);
    if |l.name| > 0 {
      var un := Upper(l.name);
      UpperDotted(un, ua);
      UpperIdempotent(l.name);
      UpperIdempotent(a);
      assert Upper(first) == first;
      DotAssoc(un, ua, ub);
    } else {
      UpperIdempotent(a);
    }
  }

  lemma DotAssoc(x: string, y: string, z: string)
    ensures x + "." + y + "." + z == x + "." + (y + "." + z)
  {
  }

  /** Two `With` calls accumulate both argument lists, in order. */
  lemma WithTwice(l: Logger, a: seq<Field>, b: seq<Field>)
    ensures With(With(l, a), b) == With(l, a + b)
  {
    assert l.fields + a + b == l.fields + (a + b);
  }

  // ---------------------------------------------------------------------
  // log

  /** The gate of `log`: writes disabled or a level below the minimum writes nothing. */
  predicate Writes(l: Logger, level: Level)
  {
    !l.disableAllWrites && l.minLevel <= level
  }

  /** The six-character level column; a level outside the seven has no token. */
  function LevelToken(level: Level): (t: string)
    ensures IsNamed(level) ==> |t| == 6 && t == PadRight(LevelString(level), 6)
    ensures !IsNamed(level) ==> t == ""
  {
    if level == DebugLevel then "DEBUG "
    else if level == InfoLevel then "INFO  "
    else if level == WarnLevel then "WARN  "
    else if level == ErrorLevel then "ERROR "
    else if level == DPanicLevel then "DPANIC"
    else if level == PanicLevel then "PANIC "
    else if level == FatalLevel then "FATAL "
    else ""
  }

  function NamePrefix(name: string): string
  {
    if |name| > 0 then name + ": " else ""
  }

  /** The level column: the six-character token between two spaces. */
  function LevelColumn(level: Level): string
  {
    " " + LevelToken(level) + " "
  }

  /** What follows the level column: optional "NAME: ", the message, the fields in parentheses. */
  function MessagePart(name: string, msg: string, fields: seq<Field>): string
  {
    NamePrefix(name) + msg + " (" + RenderFields(fields) + ")\n"
  }

  /** The line `log` writes: padded time, level column, then the message part. */
  function Line(l: Logger, level: Level, msg: string, callFields: seq<Field>, ts: string): string
  {
    PadRight(ts, 35) + LevelColumn(level) + MessagePart(l.name, msg, l.fields + callFields)
  }

  /** The diagnostic sent to the error writer when the output writer fails. */
  function WriteFailure(line: string, err: string): string
  {
    "logger: writing of message " + Quote(line) + " failed due to: " + err
  }

  /**
   * The line is columnar: for a timestamp of at most 35 characters the level
   * token sits in columns 36 to 41 and the name or message starts at column
   * 43; the accumulated fields come before the call's, and the parentheses
   * are there even when there are no fields at all.
   */
  lemma LineLayout(l: Logger, level: Level, msg: string, callFields: seq<Field>, ts: string)
    requires |ts| <= 35 && IsNamed(level)
    ensures var line := Line(l, level, msg, callFields, ts);
      && |line| >= 47
      && line[..35] == PadRight(ts, 35)
      && line[35..43] == " " + PadRight(LevelString(level), 6) + " "
      && line[43..] == NamePrefix(l.name) + msg + " (" + RenderFields(l.fields + callFields) + ")\n"
      && line[|line| - 1] == '\n'
      && (l.fields == [] && callFields == [] ==> line[|line| - 4..] == " ()\n")
  {
    var pad := PadRight(ts, 35);
    var tok := LevelColumn(level);
    var rest := MessagePart(l.name, msg, l.fields + callFields);
    assert |pad| == 35 && |tok| == 8;
    SplitAt(pad, tok, rest);
    if l.fields == [] && callFields == [] {
      assert l.fields + callFields == [];
      RenderFieldsEmpty();
      assert rest == NamePrefix(l.name) + msg + " ()\n";
    }
  }

  lemma SplitAt(a: string, b: string, c: string)
    ensures (a + b + c)[..|a|] == a
    ensures (a + b + c)[|a|..|a| + |b|] == b
    ensures (a + b + c)[|a| + |b|..] == c
  {
  }

  /** `for len(timeStr) < 35 { timeStr += " " }`. */
  method PadTimestamp(ts: string) returns (t: string)
    ensures t == PadRight(ts, 35)
  {
    t := ts;
    assert ts + Spaces(0) == ts;
    while |t| < 35
      invariant |ts| <= |t| && t == ts + Spaces(|t| - |ts|)
      invariant |ts| < 35 ==> |t| <= 35
      invariant |ts| >= 35 ==> t == ts
      decreases 35 - |t|
    {
      assert Spaces(|t| - |ts|) + " " == Spaces(|t| + 1 - |ts|);
      t := t + " ";
    }
    assert |ts| < 35 ==> |t| == 35;
  }

  /**
   * What one `log` call leaves in the writers: nothing when gated; otherwise
   * the line in the output writer, or, when that write fails, the diagnostic
   * in the error writer (which may be the same, failing, writer).
   */
  twostate predicate Logged(l: Logger, level: Level, msg: string, callFields: seq<Field>, ts: string)
    reads l.outWriter, l.errWriter
  {
    var out, err := l.outWriter, l.errWriter;
    var line := Line(l, level, msg, callFields, ts);
    if !Writes(l, level) then
      out.writes == old(out.writes) && err.writes == old(err.writes)
    else if out.failure.None? then
      out.writes == old(out.writes) + [line] && (err != out ==> err.writes == old(err.writes))
    else if err == out then
      out.writes == old(out.writes)
    else
      out.writes == old(out.writes)
      && err.writes == AfterWrite(old(err.writes), err.failure, WriteFailure(line, out.failure.value))
  }

  /** `log`: the gate, then the line, then the write and its failure report. */
  method Log(l: Logger, level: Level, msg: string, callFields: seq<Field>, ts: string)
    modifies l.outWriter, l.errWriter
    ensures Logged(l, level, msg, callFields, ts)
  {
    if l.disableAllWrites {
      return;
    }
    if level < l.minLevel {
      return;
    }
    var timeStr := PadTimestamp(ts);
    var levelStr := LevelToken(level);
    var nameStr := "";
    if |l.name| > 0 {
      nameStr := l.name + ": ";
    }
    var rendered := FieldCollectionString(l.fields + callFields);
    var s := timeStr + (" " + levelStr + " ") + (nameStr + msg + " (" + rendered + ")\n");
    var err := l.outWriter.Write(s);
    if err.Some? {
      var _ := l.errWriter.Write(WriteFailure(s, err.value));
    }
  }

  method Debug(l: Logger, msg: string, callFields: seq<Field>, ts: string)
    modifies l.outWriter, l.errWriter
    ensures Logged(l, DebugLevel, msg, callFields, ts)
  {
    Log(l, DebugLevel, msg, callFields, ts);
  }

  method Info(l: Logger, msg: string, callFields: seq<Field>, ts: string)
    modifies l.outWriter, l.errWriter
    ensures Logged(l, InfoLevel, msg, callFields, ts)
  {
    Log(l, InfoLevel, msg, callFields, ts);
  }

  method Warn(l: Logger, msg: string, callFields: seq<Field>, ts: string)
    modifies l.outWriter, l.errWriter
    ensures Logged(l, WarnLevel, msg, callFields, ts)
  {
    Log(l, WarnLevel, msg, callFields, ts);
  }

  method Error(l: Logger, msg: string, callFields: seq<Field>, ts: string)
    modifies l.outWriter, l.errWriter
    ensures Logged(l, ErrorLevel, msg, callFields, ts)
  {
    Log(l, ErrorLevel, msg, callFields, ts);
  }

  /** `DPanic`: logs, then panics with the message in development mode, whatever the gate decided. */
  method DPanic(l: Logger, msg: string, callFields: seq<Field>, ts: string) returns (o: Outcome)
    modifies l.outWriter, l.errWriter
    ensures Logged(l, DPanicLevel, msg, callFields, ts)
    ensures o == if l.isInDevEnvironment then Panicked(msg) else Returned
  {
    Log(l, DPanicLevel, msg, callFields, ts);
    o := Returned;
    if l.isInDevEnvironment {
      o := Panicked(msg);
    }
  }

  /** `Panic`: logs, then always panics with the message. */
  method Panic(l: Logger, msg: string, callFields: seq<Field>, ts: string) returns (o: Outcome)
    modifies l.outWriter, l.errWriter
    ensures Logged(l, PanicLevel, msg, callFields, ts)
    ensures o == Panicked(msg)
  {
    Log(l, PanicLevel, msg, callFields, ts);
    o := Panicked(msg);
  }

  /** `Fatal`: logs, then always exits the process with status 1. */
  method Fatal(l: Logger, msg: string, callFields: seq<Field>, ts: string) returns (o: Outcome)
    modifies l.outWriter, l.errWriter
    ensures Logged(l, FatalLevel, msg, callFields, ts)
    ensures o == Exited(1)
  {
    Log(l, FatalLevel, msg, callFields, ts);
    o := Exited(1);
  }

  // ---------------------------------------------------------------------
  // Construction

  /**
   * `StdImplOption`: a function that changes the logger under construction
   * and may report an error. Applying one to the logger value stands for the
   * closure's assignments through `*logger`, which nobody else sees before
   * construction ends.
   */
  type StdImplOption = Logger -> (Logger, Option<string>)

  function DisableLogWrites(): (opt: StdImplOption)
  {
    (l: Logger) => (l.(disableAllWrites := true), None)
  }

  function OutWriter(w: Sink): (opt: StdImplOption)
  {
    (l: Logger) => (l.(outWriter := w), None)
  }

  function ErrWriter(w: Sink): (opt: StdImplOption)
  {
    (l: Logger) => (l.(errWriter := w), None)
  }

  function MinLevel(minLevel: Level): (opt: StdImplOption)
  {
    (l: Logger) => (l.(minLevel := minLevel), None)
  }

  function IsInDevEnvironment(isInDevEnvironment: bool): (opt: StdImplOption)
  {
    (l: Logger) => (l.(isInDevEnvironment := isInDevEnvironment), None)
  }

  /** Each built-in option only sets its own field, and none reports an error. */
  lemma BuiltinOptionEffects(l: Logger, w: Sink, minLevel: Level, dev: bool)
    ensures DisableLogWrites()(l) == (l.(disableAllWrites := true), None)
    ensures OutWriter(w)(l) == (l.(outWriter := w), None)
    ensures ErrWriter(w)(l) == (l.(errWriter := w), None)
    ensures MinLevel(minLevel)(l) == (l.(minLevel := minLevel), None)
    ensures IsInDevEnvironment(dev)(l) == (l.(isInDevEnvironment := dev), None)
  {
  }

  /** The options applied in order, stopping at the first that reports an error. */
  function ApplyOptions(l: Logger, opts: seq<StdImplOption>): Result<Logger, string>
    decreases |opts|
  {
    if opts == [] then Success(l)
    else
      var (next, err) := opts[0](l);
      if err.Some? then Failure(err.value) else ApplyOptions(next, opts[1..])
  }

  /** `NewStdImpl`: the defaults, then each option in turn; the first error aborts with no logger. */
  method NewStdImpl(stdout: Sink, stderr: Sink, opts: seq<StdImplOption>) returns (r: Result<Logger, string>)
    ensures r == ApplyOptions(NewLogger(stdout, stderr, DebugLevel), opts)
  {
    var log := NewLogger(stdout, stderr, DebugLevel);
    for i := 0 to |opts|
      invariant ApplyOptions(NewLogger(stdout, stderr, DebugLevel), opts) == ApplyOptions(log, opts[i..])
    {
      assert opts[i..][0] == opts[i] && opts[i..][1..] == opts[i + 1..];
      var (next, err) := opts[i](log);
      if err.Some? {
        return Failure(err.value);
      }
      log := next;
    }
    return Success(log);
  }

  /** `MustNewStdImpl`: the logger `NewStdImpl` builds, or a panic with its error. */
  method MustNewStdImpl(stdout: Sink, stderr: Sink, opts: seq<StdImplOption>) returns (r: Option<Logger>, o: Outcome)
    ensures ApplyOptions(NewLogger(stdout, stderr, DebugLevel), opts).Success? ==>
      r == Some(ApplyOptions(NewLogger(stdout, stderr, DebugLevel), opts).value) && o == Returned
    ensures ApplyOptions(NewLogger(stdout, stderr, DebugLevel), opts).Failure? ==>
      r == None && o == Panicked(ApplyOptions(NewLogger(stdout, stderr, DebugLevel), opts).error)
  {
    var res := NewStdImpl(stdout, stderr, opts);
    if res.Failure? {
      return None, Panicked(res.error);
    }
    return Some(res.value), Returned;
  }

  /** With no options the logger writes every level to standard output, in development mode. */
  lemma NewStdImplDefaults(stdout: Sink, stderr: Sink)
    ensures ApplyOptions(NewLogger(stdout, stderr, DebugLevel), []) ==
      Success(Logger(stdout, stderr, DebugLevel, true, false, "", []))
    ensures forall level: Level :: IsNamed(level) ==> Writes(NewLogger(stdout, stderr, DebugLevel), level)
  {
  }

  /** Options that never report an error always produce a logger. */
  lemma {:induction false} ApplyOptionsSucceeds(l: Logger, opts: seq<StdImplOption>)
    requires forall i, l': Logger | 0 <= i < |opts| :: opts[i](l').1 == None
    ensures ApplyOptions(l, opts).Success?
    decreases |opts|
  {
    if opts != [] {
      ApplyOptionsSucceeds(opts[0](l).0, opts[1..]);
    }
  }

  /** A later option overrides an earlier one that sets the same field. */
  lemma LaterOptionWins(l: Logger, a: Level, b: Level)
    ensures ApplyOptions(l, [MinLevel(a), MinLevel(b)]) == Success(l.(minLevel := b))
  {
    var opts := [MinLevel(a), MinLevel(b)];
    BuiltinOptionEffects(l, l.outWriter, a, true);
    BuiltinOptionEffects(l.(minLevel := a), l.outWriter, b, true);
    assert opts[0](l) == (l.(minLevel := a), None);
    assert ApplyOptions(l, opts) == ApplyOptions(l.(minLevel := a), opts[1..]);
    assert opts[1..] == [MinLevel(b)];
    assert opts[1..][0](l.(minLevel := a)) == (l.(minLevel := b), None);
    assert ApplyOptions(l.(minLevel := a), opts[1..]) == ApplyOptions(l.(minLevel := b), []);
  }
}
