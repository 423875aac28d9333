# liblog in Dafny

A model of liblog, a Go logging facade, and proofs about it. liblog defines one `Logger`
contract: leveled, structured logging with named sub-loggers and accumulated fields. It
also ships back ends for that contract. This project models the contract and three
pieces of code:

- the standard-library logger that writes plain text lines;
- the coloured line formatter for that logger;
- the adapter that forwards to zerolog.

Modules, one file each:

- `Wrappers`: `Option` and `Result`.
- `Text`: the string operations the formatters rely on, each next to its partner:
  - `%q` quoting, with an unquoting partner;
  - `%d` decimal printing, with a parsing partner;
  - ASCII upper-casing;
  - right padding;
  - `strings.Join`;
  - `strings.TrimPrefix`.
- `Contract`: the `Level` type (an 8-bit integer) and its seven named constants, the
  level names, field values and `NewField`. It also defines `Outcome`, which records how a
  call ends: it returns normally, panics with a message, or exits with a status code.
- `Sinks`: an `io.Writer` as a class `Sink`. The class records the texts written to it
  and has a fixed write failure that is either absent or present.
- `Std`:
  - the standard logger as an immutable value;
  - `Named` and `With` as pure derivations;
  - the level gate;
  - the line layout;
  - `log` and the level methods as methods that append to the writers;
  - the option functions and `NewStdImpl`/`MustNewStdImpl`.
- `StdColored`:
  - the coloured line, built the way `logColored` builds it;
  - a colour-stripping view `Shown`, proved to turn the coloured line into a plain
    reference layout;
  - the two error paths, which write to the error writer.
- `Zerolog`:
  - the adapter as a class `Impl` with its zerolog logger, development flag, name and
    tracked fields;
  - zerolog itself, represented by the context its builder accumulates and by the events
    handed to it.

## Model

| member | source | states |
|---|---|---|
| Contract.LevelsStrictlyOrdered | contract/contract.go:31-52 | the seven levels are consecutive from Debug = -1 to Fatal = 5, strictly increasing, and a level is named exactly when it is one of them |
| Contract.LevelString | contract/contract.go:55-74 | the name is "UNKNOWN" exactly for values outside the seven levels; names are 4 to 7 upper-case letters |
| Contract.LevelStringTokens | contract/contract.go:56-71 | the exact name of each of the seven levels |
| Contract.LevelStringInjective | contract/contract.go:55-74 | two named levels with the same name are the same level |
| Contract.DisplayInt | contract/std.go:34 | the `%v` text of an integer value parses back to that integer |
| Contract.NewField | contract/contract.go:23-28 | a field returns exactly the key and value it was created with |
| Text.JoinConcat | contract/std.go:36 | joining two non-empty lists equals joining each and putting the separator between them |
| Text.Spaces | contract/std.go:101-103 | n space characters |
| Text.PadRight | contract/std.go:100-103 | the result starts with the input, is as long as the input or the width, whichever is longer, and the rest is spaces |
| Text.UpperChar | contract/std.go:62 | lower-case ASCII letters move to upper case, every other character is kept |
| Text.Upper | contract/std.go:62 | same length, each character mapped by `UpperChar` (a lower-case ASCII letter becomes its upper-case form), so no lower-case letter is left and every other character is unchanged |
| Text.UpperConcat | contract/std.go:59-62 | upper-casing distributes over concatenation |
| Text.UpperIdempotent | contract/std.go:62 | upper-casing twice equals upper-casing once |
| Text.TrimPrefix | impl/stdcolored/stdcolored.go:45-46 | when p is a prefix, p followed by the result is the input; otherwise the input is unchanged |
| Text.Quote | contract/std.go:34 | a `%q` text begins and ends with a double quote |
| Text.UnescapeStep | contract/std.go:34 | one escaped character reads back as itself ahead of any rest |
| Text.UnescapeEscape | contract/std.go:34 | unescaping an escaped string gives the string back |
| Text.UnquoteQuote | contract/std.go:34 | unquoting a `%q` text gives the original string back |
| Text.NatToString | impl/stdcolored/stdcolored.go:68 | the decimal text of a natural number is non-empty, all digits, and starts with '0' only for zero |
| Text.ParseNatToString | impl/stdcolored/stdcolored.go:68 | the decimal text of a natural number parses back to it |
| Text.ParseIntToString | impl/stdcolored/stdcolored.go:68 | the `%d` text of any integer, negative included, parses back to it |
| Sinks.Sink.constructor | contract/std.go:40-41 | a new writer holds no text and has the given write failure |
| Sinks.Sink.Write | contract/std.go:129 | a write returns the writer's failure and appends the text only when there is none |
| Std.FieldStrings | contract/std.go:31-35 | one `key="value"` entry per field, in order |
| Std.FieldCollectionString | contract/std.go:31-37 | the loop builds exactly the entries joined by ", " |
| Std.FieldStringDecodes | contract/std.go:34 | an entry is the key, "=", then a quoted text that unquotes to the value's `%v` text |
| Std.RenderFieldsEmpty | contract/std.go:31-37 | no fields render as the empty string |
| Std.RenderFieldsConcat | contract/std.go:31-37 | rendering two non-empty field lists equals their renderings joined by ", " |
| Std.NewLogger | contract/std.go:49-56 | the given writers and minimum level; development mode on, writes enabled, no name, no fields |
| Std.Named | contract/std.go:58-73 | only the name changes: the upper-cased parent name, ".", then the upper-cased segment, or the upper-cased segment alone when the parent is unnamed |
| Std.With | contract/std.go:75-85 | only the fields change: the parent's fields followed by the arguments |
| Std.Sync | contract/std.go:87-89 | never fails |
| Std.UpperDotted | contract/std.go:59-62 | upper-casing a dotted name upper-cases both of its parts |
| Std.NamedAllRenames | contract/std.go:58-73 | a chain of `Named` calls changes nothing but the name |
| Std.ChainNamePath | contract/std.go:58-73 | after a chain of `Named` calls under a non-empty upper-case name, the name is that name, ".", then the upper-cased segments joined by "." |
| Std.DottedPathStep | contract/std.go:59-62 | appending one more upper-cased segment to a dotted upper-cased path gives the upper-cased path one segment longer |
| Std.NamedAllPath | contract/std.go:58-73 | a chain of `Named` calls under a named logger only extends its name by the dotted, upper-cased path |
| Std.RootNamedAllPath | contract/std.go:58-73 | a chain of `Named` calls from an unnamed logger gives the upper-cased segments joined by "." |
| Std.NamedTwice | contract/std.go:58-73 | naming by a and then by b equals naming once by "a.b" |
| Std.WithTwice | contract/std.go:75-85 | adding fields twice equals adding their concatenation once |
| Std.LevelToken | contract/std.go:105-121 | the level column is the level's name padded to 6 characters; it is empty for an unnamed level |
| Std.LineLayout | contract/std.go:100-128 | a line is the timestamp padded to 35 columns, then " NAME   ", then the name prefix, the message, the rendered fields in parentheses and a newline; "()" is printed even with no fields |
| Std.PadTimestamp | contract/std.go:100-103 | the padding loop yields the timestamp right-padded to 35 characters, unchanged when already that long |
| Std.Log | contract/std.go:91-132 | a disabled logger or a level below the minimum writes nothing. Otherwise the line goes to the output writer. If that write fails, a message quoting the line and the error goes to the error writer |
| Std.Debug | contract/std.go:134-136 | `log` at DebugLevel |
| Std.Info | contract/std.go:138-140 | `log` at InfoLevel |
| Std.Warn | contract/std.go:142-144 | `log` at WarnLevel |
| Std.Error | contract/std.go:146-148 | `log` at ErrorLevel |
| Std.DPanic | contract/std.go:150-155 | `log` at DPanicLevel, then a panic with the message exactly in development mode |
| Std.Panic | contract/std.go:157-160 | `log` at PanicLevel, then always a panic with the message |
| Std.Fatal | contract/std.go:162-165 | `log` at FatalLevel, then always exit status 1 |
| Std.BuiltinOptionEffects | contract/std.go:172-212 | each option sets exactly its own field and never fails |
| Std.NewStdImpl | contract/std.go:218-226 | starting from stdout, stderr and DebugLevel, the options are applied in order; the first failing option's error is returned |
| Std.MustNewStdImpl | contract/std.go:230-236 | the logger when every option succeeds; otherwise a panic with the first option error |
| Std.NewStdImplDefaults | contract/std.go:218-226 | with no options, the result is the default logger, which writes every named level |
| Std.ApplyOptionsSucceeds | contract/std.go:220-225 | options that never fail always produce a logger |
| Std.LaterOptionWins | contract/std.go:199-204 | of two minimum-level options the later one is in effect |
| StdColored.ShownFromConcat | impl/stdcolored/stdcolored.go:10-82 | stripping colour codes from a concatenation strips each part, resuming inside a code when the first part ends in one |
| StdColored.ShownConcat | impl/stdcolored/stdcolored.go:10-82 | for a first part with no open colour code, stripping distributes over concatenation |
| StdColored.ShownPlain | impl/stdcolored/stdcolored.go:10-82 | a text without escape characters is unchanged by stripping |
| StdColored.CodeSkipped | impl/stdcolored/stdcolored.go:10-82 | the body of a colour code is stripped entirely and leaves the code open |
| StdColored.ShownCode | impl/stdcolored/stdcolored.go:23-33 | a complete colour code shows nothing and is closed |
| StdColored.ShownPaint | impl/stdcolored/stdcolored.go:14-18 | painted text shows as exactly the text |
| StdColored.ShortPath | impl/stdcolored/stdcolored.go:44-47 | without a working directory the file path is kept. Under the working directory the path is what follows "wd/". When the path starts with the working directory but the next character is not "/", the path is what follows the working directory |
| StdColored.ShortPathSiblingDir | impl/stdcolored/stdcolored.go:45-46 | a file in a sibling directory whose name extends the working directory's is cut inside that name: "/a/bc/x.go" under "/a/b" shows as "c/x.go" |
| StdColored.ShortPathDir | impl/stdcolored/stdcolored.go:44-47 | corrected shortening: the working directory is trimmed only as a whole path component; a path that merely starts with its text is kept whole; a path outside it loses a leading "/" as in the code |
| StdColored.ShortPathDirAgrees | impl/stdcolored/stdcolored.go:44-47 | the corrected shortening equals the code's on every input except a path that starts with the working directory without a "/" after it |
| StdColored.ShortPathDirSiblingDir | impl/stdcolored/stdcolored.go:44-47 | with the corrected shortening, "/a/bc/x.go" under "/a/b" is kept whole |
| StdColored.ShortPathBelowWd | impl/stdcolored/stdcolored.go:44-47 | a file below the working directory is shown relative to it |
| StdColored.ShortPathOutsideWd | impl/stdcolored/stdcolored.go:44-47 | a file outside the working directory loses only a leading "/" |
| StdColored.ValueText | impl/stdcolored/stdcolored.go:65-73 | an integer prints as decimal that parses back; a float prints exactly its `%f` text; any other value prints as a quoted `%v` text that unquotes back |
| StdColored.FieldsSegment | impl/stdcolored/stdcolored.go:54-80 | the field block is empty exactly when there are no fields |
| StdColored.ShownLevelSegment | impl/stdcolored/stdcolored.go:21-34 | every named level except Panic shows its name padded to 7 columns; PanicLevel adds nothing |
| StdColored.ShownNameSegment | impl/stdcolored/stdcolored.go:36-38 | the name shows followed by a space, and only when non-empty |
| StdColored.ShownTimeSegment | impl/stdcolored/stdcolored.go:13-19 | the time shows as minutes and seconds, and the zone between spaces when there is one |
| StdColored.ShownLevel | impl/stdcolored/stdcolored.go:21-34 | the level segment shows as the plain level column |
| StdColored.ShownEntries | impl/stdcolored/stdcolored.go:57-77 | the coloured entries show as `key=value` joined by ", " |
| StdColored.ShownFieldBlock | impl/stdcolored/stdcolored.go:54-80 | no fields show nothing; otherwise " (" + the entries + ")" |
| StdColored.ShownColoredLine | impl/stdcolored/stdcolored.go:10-82 | with its colour codes removed, the coloured line is exactly the plain layout: time, level, name, caller, message, fields, newline |
| StdColored.RenderColored | impl/stdcolored/stdcolored.go:11-82 | building the line step by step produces exactly the coloured line |
| StdColored.AppendFieldBlock | impl/stdcolored/stdcolored.go:54-80 | the field loop appends exactly the field block |
| StdColored.AppendTime | impl/stdcolored/stdcolored.go:13-19 | appends exactly the time segment |
| StdColored.AppendLevel | impl/stdcolored/stdcolored.go:21-34 | appends exactly the level segment, which is nothing for PanicLevel and unnamed levels |
| StdColored.AppendName | impl/stdcolored/stdcolored.go:36-38 | appends exactly the name segment |
| StdColored.AppendCaller | impl/stdcolored/stdcolored.go:40-50 | appends `file:line ` with the shortened file when the caller is known, nothing otherwise |
| StdColored.AppendEntry | impl/stdcolored/stdcolored.go:58-75 | one loop turn appends ", " after the first field, then the painted entry |
| StdColored.WritesLine | impl/stdcolored/stdcolored.go:84-86 | the line goes to the output writer when it accepts it; on failure the report goes to a distinct error writer |
| StdColored.LogColored | impl/stdcolored/stdcolored.go:40-86 | when the caller is unknown, a caller-failure notice first goes to the error writer. The line then goes to the output writer. When that write fails, a message quoting the line goes to the error writer |
| Zerolog.CastFields | impl/zerologimpl/zerolog.go:12-18 | the loop builds exactly the key-to-value map of the fields |
| Zerolog.FieldMapKeys | impl/zerologimpl/zerolog.go:12-18 | the map has exactly the fields' keys |
| Zerolog.FieldMapLastWins | impl/zerologimpl/zerolog.go:12-18 | for a repeated key, the value of its last occurrence is kept |
| Zerolog.FieldMapConcat | impl/zerologimpl/zerolog.go:12-18 | casting two lists back to back equals the first map overridden by the second |
| Zerolog.ContextKeysWithStr | impl/zerologimpl/zerolog.go:41 | adding the name string adds no field key to the context |
| Zerolog.ContextKeysWithFields | impl/zerologimpl/zerolog.go:50 | adding a field map adds exactly the fields' keys to the context |
| Zerolog.Escalation | impl/zerologimpl/zerolog.go:90-96 | Panic-level events panic with the message, Fatal-level events exit with status 1, and all other events return |
| Zerolog.Impl.constructor | impl/zerologimpl/zerolog.go:27-34 | the given zerolog logger and mode, no name, no tracked fields |
| Zerolog.Impl.Named | impl/zerologimpl/zerolog.go:36-47 | the segment is appended to a non-empty name with "." and the case is kept. The name is added to the zerolog context. The tracked fields and the mode carry over, and field tracking stays consistent |
| Zerolog.Impl.With | impl/zerologimpl/zerolog.go:49-55 | the zerolog context gains the arguments but the tracked fields are only the arguments. Tracking stays consistent exactly when the arguments repeat every tracked key |
| Zerolog.Impl.Sync | impl/zerologimpl/zerolog.go:57-59 | never fails |
| Zerolog.Impl.Debug | impl/zerologimpl/zerolog.go:61-63 | one Debug event with the logger's context, the call's fields as a map, and the message; returns |
| Zerolog.Impl.Info | impl/zerologimpl/zerolog.go:65-67 | one Info event, as above |
| Zerolog.Impl.Warn | impl/zerologimpl/zerolog.go:69-71 | one Warn event, as above |
| Zerolog.Impl.Error | impl/zerologimpl/zerolog.go:73-75 | one Error event, as above |
| Zerolog.Impl.ErrorReturn | impl/zerologimpl/zerolog.go:77-80 | the same event as `Error`, and the error built from the tracked name, skip depth 1, the message and the tracked fields followed by the call's |
| Zerolog.Impl.DPanic | impl/zerologimpl/zerolog.go:82-88 | in development mode a Panic event that panics; otherwise an Error event that returns |
| Zerolog.Impl.Panic | impl/zerologimpl/zerolog.go:90-92 | a Panic event, then a panic with the message |
| Zerolog.Impl.Fatal | impl/zerologimpl/zerolog.go:94-96 | a Fatal event, then exit status 1 |
| Zerolog.NewZerologImpl | impl/zerologimpl/zerolog.go:8-10 | wraps the given zerolog logger with no name and no tracked fields |
| Zerolog.WithDropsParentFields | impl/zerologimpl/zerolog.go:53 | a child derived with `With()` keeps the parent's key in its zerolog context, but its tracked fields are empty |
| Zerolog.Impl.WithAccumulating | impl/zerologimpl/zerolog.go:49-55 | corrected `With`: the tracked fields are the receiver's followed by the arguments, and field tracking stays consistent |
| Zerolog.WithAccumulatingKeepsParentFields | impl/zerologimpl/zerolog.go:49-55 | with the corrected `With`, a child derived with no arguments still tracks the parent's field |

The standard logger's line carries no caller position and always prints "()", even with
no fields. The standard logger's `With` and the zerolog adapter's `With` accumulate fields
differently, as the table states.

## Left out

- The zap adapter (impl/zapimpl/zap.go) and the test files are not part of this model.
- The wall clock is not modelled. The standard logger's RFC 3339 timestamp is a string
  parameter `ts`, and the coloured logger's clock fields are the parameter `Clock`.
- `runtime.Caller` is not modelled. The caller is a parameter that is either absent or a
  file and line. The working directory is a field of `ColoredLogger`.
- `panic` and `os.Exit` are not performed. Each is recorded as an `Outcome` value that the
  method returns.
- Writers are modelled as `Sink` objects. Each keeps its list of written texts and a
  fixed write failure. Partial writes and byte counts are not modelled.
- `Fprintf` treats the rendered line as a format string. The model writes the line
  verbatim, so a message containing `%` differs from what Go would print.
- `Text.Quote`: `%q` escaping is modelled for `"`, `\`, newline, tab and carriage return
  only. Go's escaping of other control and non-printable characters, including ESC, is
  not modelled.
- `Text.Upper`: `strings.ToUpper` is modelled for ASCII letters only. Unicode case
  mapping is not modelled.
- `Std.PadTimestamp`: the 35-column padding counts characters; Go counts bytes. They
  agree on the ASCII timestamps RFC 3339 produces.
- `Contract.Display`: `%v` of a floating-point value is not computed. A float value
  carries its `%f` and `%v` texts as data, and any value other than an integer, string or
  float carries its `%v` text.
- Go slices share backing arrays, so `append(l.fields, fields...)` can alias between
  sibling loggers. The model uses immutable sequences and does not capture that aliasing.
- Zerolog is represented only by the events and context the adapter hands it. Zerolog's
  level filtering, its JSON encoding and the writer behind it are not modelled.
- `Zerolog.Impl.ErrorReturn`: `FormatToError` is defined outside the code shown, so it is
  a function parameter, and only the arguments passed to it are stated.
- The coloured formatter's logger struct and Level type are declared in a file that is
  not part of this model. The model uses a `ColoredLogger` value with the fields the
  formatter reads, and the contract's `Level`.
- `Std.DisableLogWrites`, `Std.OutWriter`, `Std.ErrWriter`, `Std.MinLevel` and
  `Std.IsInDevEnvironment` carry no `ensures` of their own, because their results are
  function values. Their effect is stated in `Std.BuiltinOptionEffects`.

## Findings

| source | as written | input that shows it | evidently intended | confidence | as-written member | corrected member |
|---|---|---|---|---|---|---|
| impl/zerologimpl/zerolog.go:53 | `With` appends the arguments to the new adapter's empty field list, so the child tracks only this call's fields | `i.With(field("k", v)).With().ErrorReturn("m")`: zerolog still logs `k`, but the returned error is built without it | the child tracks the parent's fields followed by the arguments, as the standard logger's `With` does and as the `Logger` contract describes | not executed | Zerolog.WithDropsParentFields | Zerolog.Impl.WithAccumulating |
| impl/stdcolored/stdcolored.go:45-46 | the working directory is trimmed as a plain string prefix, then one "/" | working directory "/a/b", file "/a/bc/x.go": shown as "c/x.go" | trim the working directory only as a whole path component and keep "/a/bc/x.go" | not executed | StdColored.ShortPathSiblingDir | StdColored.ShortPathDir |

The coloured line keeps the shortening as written, and the adapter keeps `With` as written,
so that the line and event layouts describe what the code produces. `StdColored.ShortPathDir`
and `Zerolog.Impl.WithAccumulating` are the corrected definitions with their properties proved.
