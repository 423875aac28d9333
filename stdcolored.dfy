/**
 * The coloured line formatter: the same data as the standard logger's line,
 * painted with ANSI colour codes, with the call site shortened against the
 * working directory and the field block left out when there are no fields.
 *
 * The wall clock and the call-site lookup are inputs: `clock` holds the three
 * texts `time.Now()` formats, `caller` the file and line the runtime reports
 * (None when it cannot).
 */
module StdColored {
  import opened Wrappers
  import opened Text
  import opened Contract
  import opened Sinks

  // ---------------------------------------------------------------------
  // Colour codes

  const Esc: char := 27 as char

  /** `fmt.Sprintf("\033[<code>m%s\033[0m", text)`. */
  function Paint(code: string, text: string): string
  {
    [Esc] + "[" + code + "m" + text + [Esc] + "[0m"
  }

  /**
   * What a terminal shows of `s` read from `inCode` on: every colour sequence
   * (ESC up to and including the next 'm') is dropped.
   */
  function ShownFrom(s: string, inCode: bool): string
    decreases |s|
  {
    if s == [] then []
    else if inCode then ShownFrom(s[1..], s[0] != 'm')
    else if s[0] == Esc then ShownFrom(s[1..], true)
    else [s[0]] + ShownFrom(s[1..], false)
  }

  /** Whether reading `s` from `inCode` on ends inside a colour sequence. */
  function EndsInCode(s: string, inCode: bool): bool
    decreases |s|
  {
    if s == [] then inCode
    else if inCode then EndsInCode(s[1..], s[0] != 'm')
    else EndsInCode(s[1..], s[0] == Esc)
  }

  function Shown(s: string): string { ShownFrom(s, false) }

  predicate Closed(s: string) { !EndsInCode(s, false) }

  predicate NoEsc(s: string) { forall i | 0 <= i < |s| :: s[i] != Esc }

  lemma {:induction false} ShownFromConcat(a: string, b: string, inCode: bool)
    ensures ShownFrom(a + b, inCode) == ShownFrom(a, inCode) + ShownFrom(b, EndsInCode(a, inCode))
    ensures EndsInCode(a + b, inCode) == EndsInCode(b, EndsInCode(a, inCode))
    decreases |a|
  {
    if a != [] {
      assert (a + b)[1..] == a[1..] + b;
      assert (a + b)[0] == a[0];
      var next := if inCode then a[0] != 'm' else a[0] == Esc;
      ShownFromConcat(a[1..], b, next);
    } else {
      assert a + b == b;
    }
  }

  /** What a closed prefix shows does not depend on what follows it. */
  lemma ShownConcat(a: string, b: string)
    requires Closed(a)
    ensures Shown(a + b) == Shown(a) + Shown(b)
    ensures Closed(a + b) == Closed(b)
  {
    ShownFromConcat(a, b, false);
  }

  lemma {:induction false} ShownPlain(t: string)
    requires NoEsc(t)
    ensures Shown(t) == t && Closed(t)
    decreases |t|
  {
    if t != [] {
      ShownPlain(t[1..]);
      assert [t[0]] + t[1..] == t;
    }
  }

  lemma {:induction false} CodeSkipped(code: string, inCode: bool)
    requires forall i | 0 <= i < |code| :: code[i] != 'm'
    requires inCode
    ensures ShownFrom(code, inCode) == [] && EndsInCode(code, inCode)
    decreases |code|
  {
    if code != [] {
      CodeSkipped(code[1..], inCode);
    }
  }

  /** A colour sequence ESC, `code`, 'm' shows nothing and closes itself. */
  lemma ShownCode(code: string)
    requires forall i | 0 <= i < |code| :: code[i] != 'm'
    ensures Shown([Esc] + code + "m") == [] && Closed([Esc] + code + "m")
  {
    assert [Esc] + code + "m" == [Esc] + (code + "m");
    ShownFromConcat([Esc], code + "m", false);
    assert ShownFrom([Esc], false) == [] && EndsInCode([Esc], false) by {
      assert [Esc][1..] == [];
    }
    ShownFromConcat(code, "m", true);
    CodeSkipped(code, true);
    assert ShownFrom("m", true) == [] && !EndsInCode("m", true) by {
      assert "m"[1..] == [];
    }
  }

  /** Painted text shows as the text itself, and closes its colour sequences. */
  lemma ShownPaint(code: string, text: string)
    requires forall i | 0 <= i < |code| :: code[i] != 'm'
    requires NoEsc(text)
    ensures Shown(Paint(code, text)) == text && Closed(Paint(code, text))
  {
    var open := [Esc] + ("[" + code) + "m";
    var close := [Esc] + "[0" + "m";
    assert Paint(code, text) == open + (text + close);
    ShownCode("[" + code);
    ShownCode("[0");
    ShownPlain(text);
    ShownConcat(text, close);
    ShownConcat(open, text + close);
  }

  // ---------------------------------------------------------------------
  // Segments of the line

  /** The three texts `time.Now()` is formatted into: "2006-01-02 15:04:", "05.999", "Z07:00". */
  datatype Clock = Clock(minute: string, second: string, zone: string)

  function TimeSegment(c: Clock): string
  {
    Paint("0;37", c.minute) + Paint("0;97", c.second)
      + (if |c.zone| > 0 then " " + Paint("0;37", c.zone) + " " else "")
  }

  /** The level token, coloured, then spaces to seven columns; the panic level has no case and no token. */
  function LevelSegment(level: Level): string
  {
    if level == DebugLevel then Paint("1;95", "DEBUG") + "  "
    else if level == InfoLevel then Paint("1;94", "INFO") + "   "
    else if level == WarnLevel then Paint("1;103", "WARN") + "   "
    else if level == ErrorLevel then Paint("1;101", "ERROR") + "  "
    else if level == DPanicLevel then Paint("1;101", "DPANIC") + " "
    else if level == FatalLevel then Paint("1;101", "FATAL") + "  "
    else ""
  }

  /** The name segment: present only for a named logger, followed by one space. */
  function NameSegment(name: string): string
  {
    if |name| > 0 then Paint("0;37", name) + " " else ""
  }

  /** The file path with the working directory and then one "/" trimmed, only when `wd` is set. */
  function ShortPath(wd: string, file: string): (r: string)
    ensures |wd| == 0 ==> r == file
    ensures |wd| > 0 && IsPrefix(wd + "/", file) ==> wd + "/" + r == file
    ensures |wd| > 0 && IsPrefix(wd, file) && !IsPrefix(wd + "/", file) ==> r == file[|wd|..]
  {
    if |wd| > 0 then
      var t := TrimPrefix(file, wd);
      if IsPrefix(wd + "/", file) then
        assert file[..|wd|] == wd && t == file[|wd|..] && t[..1] == "/";
        TrimPrefix(t, "/")
      else if IsPrefix(wd, file) then
        assert t == file[|wd|..];
        assert |t| > 0 ==> file[..|wd| + 1] == wd + [t[0]];
        TrimPrefix(t, "/")
      else TrimPrefix(t, "/")
    else file
  }

  /**
   * The trim cuts into a sibling directory whose name extends the working
   * directory's: "/a/bc/x.go" under "/a/b" is shown as "c/x.go".
   */
  lemma ShortPathSiblingDir()
    ensures ShortPath("/a/b", "/a/bc/x.go") == "c/x.go"
  {
    var wd, file := "/a/b", "/a/bc/x.go";
    assert IsPrefix(wd, file);
    assert file[..|wd| + 1] == "/a/bc";
    assert file[4] != (wd + "/")[4];
    assert file[|wd|..] == "c/x.go";
  }

  /**
   * The file path shortened as evidently intended: the working directory is
   * trimmed only as a whole path component. A path that merely starts with
   * the working directory's text is kept whole; a path outside it loses a
   * leading "/" as before.
   */
  function ShortPathDir(wd: string, file: string): (r: string)
    ensures |wd| == 0 ==> r == file
    ensures |wd| > 0 && IsPrefix(wd + "/", file) ==> wd + "/" + r == file
    ensures |wd| > 0 && IsPrefix(wd, file) && !IsPrefix(wd + "/", file) ==> r == file
    ensures |wd| > 0 && !IsPrefix(wd, file) ==> r == TrimPrefix(file, "/")
  {
    if |wd| == 0 then file
    else if IsPrefix(wd + "/", file) then file[|wd| + 1..]
    else if IsPrefix(wd, file) then file
    else TrimPrefix(file, "/")
  }

  /** The corrected shortening differs from the code only for a sibling directory's path. */
  lemma ShortPathDirAgrees(wd: string, file: string)
    requires !(|wd| > 0 && IsPrefix(wd, file) && !IsPrefix(wd + "/", file))
    ensures ShortPathDir(wd, file) == ShortPath(wd, file)
  {
    if |wd| > 0 && !IsPrefix(wd + "/", file) {
      ShortPathOutsideWd(wd, file);
    }
  }

  /** The corrected shortening never cuts inside a directory name: it keeps the sibling's path. */
  lemma ShortPathDirSiblingDir()
    ensures ShortPathDir("/a/b", "/a/bc/x.go") == "/a/bc/x.go"
  {
    var wd, file := "/a/b", "/a/bc/x.go";
    assert file[4] != (wd + "/")[4];
  }

  /** The call-site token `file:line `, absent when the runtime could not tell. */
  function CallerSegment(wd: string, caller: Option<(string, int)>): string
  {
    match caller
    case None => ""
    case Some((file, line)) => ShortPath(wd, file) + ":" + IntToString(line) + " "
  }

  /** How one field value is printed: an int bare, a float in fixed notation, anything else `%v` then `%q`. */
  function ValueText(v: Value): (t: string)
    ensures v.IntValue? ==> ParseInt(t) == Some(v.i)
    ensures v.FloatValue? ==> t == v.fixed
    ensures !v.IntValue? && !v.FloatValue? ==> Unquote(t) == Some(Display(v))
  {
    match v
    case IntValue(i) => ParseIntToString(i); IntToString(i)
    case FloatValue(fixed, _) => fixed
    case _ => UnquoteQuote(Display(v)); Quote(Display(v))
  }

  function Entry(f: Field): string
  {
    Paint("0;37", f.key) + Paint("0;37", "=") + Paint("0;94", ValueText(f.value))
  }

  /** The entries of the field block, ", " between neighbours. */
  function Entries(fs: seq<Field>): string
  {
    if |fs| == 0 then ""
    else if |fs| == 1 then Entry(fs[0])
    else Entries(fs[..|fs| - 1]) + ", " + Entry(fs[|fs| - 1])
  }

  /** The field block: " (", the entries, ")", or nothing at all when there are no fields. */
  function FieldsSegment(fs: seq<Field>): (r: string)
    ensures r == "" <==> fs == []
  {
    if |fs| > 0 then Paint("0;37", " (") + Entries(fs) + Paint("0;37", ")") else ""
  }

  /** The logger state the formatter reads: name, working directory and the two writers. */
  datatype ColoredLogger = ColoredLogger(outWriter: Sink, errWriter: Sink, name: string, wd: string)

  /** The whole coloured line. */
  function ColoredLine(l: ColoredLogger, level: Level, msg: string, fields: seq<Field>, clock: Clock,
                       caller: Option<(string, int)>): string
  {
    TimeSegment(clock) + LevelSegment(level) + NameSegment(l.name) + CallerSegment(l.wd, caller)
      + Paint("0;97", msg) + FieldsSegment(fields) + "\n"
  }

  const CallerFailure: string := "liblog.std: failed to get caller\n"

  function ColoredWriteFailure(line: string, err: string): string
  {
    "liblog.std: writing of message " + Quote(line) + " failed due to: " + err
  }

  // ---------------------------------------------------------------------
  // Properties of the segments

  /** Without its colour codes the level segment is the level's name padded to seven columns. */
  lemma ShownLevelSegment(level: Level)
    ensures IsNamed(level) && level != PanicLevel ==>
      Shown(LevelSegment(level)) == PadRight(LevelString(level), 7) && Closed(LevelSegment(level))
    ensures level == PanicLevel ==> LevelSegment(level) == ""
  {
    if IsNamed(level) && level != PanicLevel {
      var tok := LevelString(level);
      var code := if level == DebugLevel then "1;95" else if level == InfoLevel then "1;94"
        else if level == WarnLevel then "1;103" else "1;101";
      var pad := Spaces(7 - |tok|);
      assert LevelSegment(level) == Paint(code, tok) + pad;
      ShownPaint(code, tok);
      ShownPlain(pad);
      ShownConcat(Paint(code, tok), pad);
    }
  }

  /** The name shows followed by one space, and only when the logger has a name. */
  lemma ShownNameSegment(name: string)
    requires NoEsc(name)
    ensures Shown(NameSegment(name)) == (if |name| > 0 then name + " " else "")
    ensures Closed(NameSegment(name))
  {
    ShownPlain("");
    if |name| > 0 {
      ShownPaint("0;37", name);
      ShownPlain(" ");
      ShownConcat(Paint("0;37", name), " ");
    }
  }

  /** A file below the working directory shows relative to it. */
  lemma ShortPathBelowWd(wd: string, rel: string)
    requires |wd| > 0
    ensures ShortPath(wd, wd + "/" + rel) == rel
  {
    var file := wd + "/" + rel;
    assert IsPrefix(wd + "/", file);
    assert wd + "/" + ShortPath(wd, file) == wd + "/" + rel;
    assert ShortPath(wd, file) == (wd + "/" + ShortPath(wd, file))[|wd| + 1..];
  }

  /** A file outside the working directory keeps its path, minus one leading "/". */
  lemma ShortPathOutsideWd(wd: string, file: string)
    requires |wd| > 0 && !IsPrefix(wd, file)
    ensures ShortPath(wd, file) == TrimPrefix(file, "/")
  {
  }

  // ---------------------------------------------------------------------
  // What the terminal shows: the coloured line without its colour codes

  function PlainLevel(level: Level): string
  {
    if IsNamed(level) && level != PanicLevel then PadRight(LevelString(level), 7) else ""
  }

  function PlainEntry(f: Field): string
  {
    f.key + "=" + ValueText(f.value)
  }

  function PlainEntries(fs: seq<Field>): string
  {
    if |fs| == 0 then ""
    else if |fs| == 1 then PlainEntry(fs[0])
    else PlainEntries(fs[..|fs| - 1]) + ", " + PlainEntry(fs[|fs| - 1])
  }

  /**
   * The plain layout of a line: time, level padded to seven columns, name and
   * a space, `file:line `, message, and the field block only when there are
   * fields.
   */
  function PlainLine(name: string, level: Level, msg: string, callerText: string, fields: seq<Field>,
                     clock: Clock): string
  {
    clock.minute + clock.second + (if |clock.zone| > 0 then " " + clock.zone + " " else "")
      + PlainLevel(level)
      + (if |name| > 0 then name + " " else "")
      + callerText
      + msg
      + (if fields == [] then "" else " (" + PlainEntries(fields) + ")")
      + "\n"
  }

  predicate PlainFields(fs: seq<Field>)
  {
    forall i | 0 <= i < |fs| :: NoEsc(fs[i].key) && NoEsc(ValueText(fs[i].value))
  }

  lemma ShownEmpty()
    ensures Shown("") == "" && Closed("")
  {
  }

  lemma ShownTimeSegment(c: Clock)
    requires NoEsc(c.minute) && NoEsc(c.second) && NoEsc(c.zone)
    ensures Shown(TimeSegment(c)) == c.minute + c.second + (if |c.zone| > 0 then " " + c.zone + " " else "")
    ensures Closed(TimeSegment(c))
  {
    ShownPaint("0;37", c.minute);
    ShownPaint("0;97", c.second);
    ShownConcat(Paint("0;37", c.minute), Paint("0;97", c.second));
    var head := Paint("0;37", c.minute) + Paint("0;97", c.second);
    if |c.zone| > 0 {
      var z := Paint("0;37", c.zone);
      ShownPaint("0;37", c.zone);
      ShownPlain(" ");
      ShownConcat(" ", z);
      ShownConcat(" " + z, " ");
      ShownConcat(head, " " + z + " ");
    } else {
      ShownEmpty();
      ShownConcat(head, "");
    }
  }

  lemma ShownLevel(level: Level)
    ensures Shown(LevelSegment(level)) == PlainLevel(level) && Closed(LevelSegment(level))
  {
    ShownLevelSegment(level);
    if !(IsNamed(level) && level != PanicLevel) {
      ShownEmpty();
    }
  }

  lemma {:induction false} ShownEntries(fs: seq<Field>)
    requires PlainFields(fs)
    ensures Shown(Entries(fs)) == PlainEntries(fs) && Closed(Entries(fs))
    decreases |fs|
  {
    if |fs| == 0 {
      ShownEmpty();
    } else {
      var f := fs[|fs| - 1];
      var e := Entry(f);
      ShownPaint("0;37", f.key);
      ShownPaint("0;37", "=");
      ShownPaint("0;94", ValueText(f.value));
      ShownConcat(Paint("0;37", f.key), Paint("0;37", "="));
      ShownConcat(Paint("0;37", f.key) + Paint("0;37", "="), Paint("0;94", ValueText(f.value)));
      if |fs| > 1 {
        var init := fs[..|fs| - 1];
        assert PlainFields(init);
        ShownEntries(init);
        ShownPlain(", ");
        ShownConcat(Entries(init), ", ");
        ShownConcat(Entries(init) + ", ", e);
      }
    }
  }

  lemma ShownFieldBlock(fs: seq<Field>)
    requires PlainFields(fs)
    ensures Shown(FieldsSegment(fs)) == (if fs == [] then "" else " (" + PlainEntries(fs) + ")")
    ensures Closed(FieldsSegment(fs))
  {
    if fs == [] {
      ShownEmpty();
    } else {
      ShownEntries(fs);
      ShownPaint("0;37", " (");
      ShownPaint("0;37", ")");
      ShownConcat(Paint("0;37", " ("), Entries(fs));
      ShownConcat(Paint("0;37", " (") + Entries(fs), Paint("0;37", ")"));
    }
  }

  /**
   * Stripped of its colour codes, the coloured line is the plain layout:
   * every segment shows its text and nothing leaks from one segment into the
   * next.
   */
  lemma ShownColoredLine(l: ColoredLogger, level: Level, msg: string, fields: seq<Field>, clock: Clock,
                         caller: Option<(string, int)>)
    requires NoEsc(clock.minute) && NoEsc(clock.second) && NoEsc(clock.zone)
    requires NoEsc(l.name) && NoEsc(msg) && NoEsc(CallerSegment(l.wd, caller))
    requires PlainFields(fields)
    ensures Shown(ColoredLine(l, level, msg, fields, clock, caller))
      == PlainLine(l.name, level, msg, CallerSegment(l.wd, caller), fields, clock)
  {
    var a := TimeSegment(clock);
    var b := LevelSegment(level);
    var c := NameSegment(l.name);
    var d := CallerSegment(l.wd, caller);
    var e := Paint("0;97", msg);
    var f := FieldsSegment(fields);
    ShownTimeSegment(clock);
    ShownLevel(level);
    ShownNameSegment(l.name);
    ShownPlain(d);
    ShownPaint("0;97", msg);
    ShownFieldBlock(fields);
    ShownPlain("\n");
    ShownConcat(a, b);
    ShownConcat(a + b, c);
    ShownConcat(a + b + c, d);
    ShownConcat(a + b + c + d, e);
    ShownConcat(a + b + c + d + e, f);
    ShownConcat(a + b + c + d + e + f, "\n");
  }

  // ---------------------------------------------------------------------
  // logColored

  /** Builds the line as `logColored` does, by appending segment after segment. */
  method RenderColored(l: ColoredLogger, level: Level, msg: string, fields: seq<Field>, clock: Clock,
                       caller: Option<(string, int)>) returns (s: string)
    ensures s == ColoredLine(l, level, msg, fields, clock, caller)
  {
    s := AppendTime("", clock);
    assert s == TimeSegment(clock);
    s := AppendLevel(s, level);
    s := AppendName(s, l.name);
    s := AppendCaller(s, l.wd, caller);
    s := s + Paint("0;97", msg);
    s := AppendFieldBlock(s, fields);
    s := s + "\n";
  }

  /** The time part: minutes and seconds, then the zone between spaces when there is one. */
  method AppendTime(prefix: string, clock: Clock) returns (s: string)
    ensures s == prefix + TimeSegment(clock)
  {
    s := prefix;
    s := s + Paint("0;37", clock.minute);
    s := s + Paint("0;97", clock.second);
    var tz := clock.zone;
    if |tz| > 0 {
      s := s + (" " + Paint("0;37", tz) + " ");
    }
  }

  /** The level part: a painted name and padding; nothing for PanicLevel or an unnamed level. */
  method AppendLevel(prefix: string, level: Level) returns (s: string)
    ensures s == prefix + LevelSegment(level)
  {
    s := prefix;
    if level == DebugLevel {
      s := s + (Paint("1;95", "DEBUG") + "  ");
    } else if level == InfoLevel {
      s := s + (Paint("1;94", "INFO") + "   ");
    } else if level == WarnLevel {
      s := s + (Paint("1;103", "WARN") + "   ");
    } else if level == ErrorLevel {
      s := s + (Paint("1;101", "ERROR") + "  ");
    } else if level == DPanicLevel {
      s := s + (Paint("1;101", "DPANIC") + " ");
    } else if level == FatalLevel {
      s := s + (Paint("1;101", "FATAL") + "  ");
    } else {
      assert s == prefix + "";
    }
  }

  /** The name part: the painted name and a space, only for a named logger. */
  method AppendName(prefix: string, name: string) returns (s: string)
    ensures s == prefix + NameSegment(name)
  {
    s := prefix;
    if |name| > 0 {
      s := s + (Paint("0;37", name) + " ");
    } else {
      assert s == prefix + "";
    }
  }

  /** The caller part: `file:line ` with the file shortened below the working directory. */
  method AppendCaller(prefix: string, wd: string, caller: Option<(string, int)>) returns (s: string)
    ensures s == prefix + CallerSegment(wd, caller)
  {
    s := prefix;
    match caller {
      case None =>
        assert s == prefix + "";
      case Some((frameF, frameL)) =>
        var file := frameF;
        if |wd| > 0 {
          file := TrimPrefix(file, wd);
          file := TrimPrefix(file, "/");
        }
        s := s + (file + ":" + IntToString(frameL) + " ");
    }
  }

  /** The field part of `logColored`: nothing without fields, else " (", the entries, ")". */
  method AppendFieldBlock(prefix: string, fields: seq<Field>) returns (s: string)
    ensures s == prefix + FieldsSegment(fields)
  {
    s := prefix;
    if |fields| > 0 {
      var opening := Paint("0;37", " (");
      s := s + opening;
      ghost var open := s;
      assert fields[..0] == [] && s == open + "";
      for i := 0 to |fields|
        invariant s == open + Entries(fields[..i])
      {
        ghost var done := Entries(fields[..i]);
        s := AppendEntry(s, i, fields[i]);
        EntriesStep(fields, i);
        Regroup(open, done, Separator(i) + Entry(fields[i]));
        Regroup(done, Separator(i), Entry(fields[i]));
      }
      assert fields[..|fields|] == fields;
      var closing := Paint("0;37", ")");
      s := s + closing;
      Regroup(prefix, opening, Entries(fields));
      Regroup(prefix, opening + Entries(fields), closing);
    } else {
      assert s == prefix + "";
    }
  }

  /** One turn of the field loop: ", " after the first field, then the painted key, "=" and value. */
  method AppendEntry(prefix: string, i: nat, f: Field) returns (s: string)
    ensures s == prefix + (Separator(i) + Entry(f))
  {
    s := prefix;
    if i > 0 {
      s := s + ", ";
    } else {
      assert s == prefix + "";
    }
    ghost var before := s;
    var k := Paint("0;37", f.key);
    var e := Paint("0;37", "=");
    var p := ValueText(f.value);
    var v := Paint("0;94", p);
    s := s + k;
    s := s + e;
    s := s + v;
    Regroup4(prefix, Separator(i), k, e, v);
  }

  lemma Regroup(a: string, b: string, c: string)
    ensures a + b + c == a + (b + c)
  {
  }

  lemma ConcatAssoc(a: seq<string>, b: seq<string>, c: seq<string>)
    ensures a + b + c == a + (b + c)
  {
  }

  lemma Regroup4(a: string, b: string, k: string, e: string, v: string)
    ensures a + b + k + e + v == a + (b + (k + e + v))
  {
  }

  function Separator(i: nat): string { if i > 0 then ", " else "" }

  lemma EntriesStep(fs: seq<Field>, i: nat)
    requires i < |fs|
    ensures Entries(fs[..i + 1]) == Entries(fs[..i]) + Separator(i) + Entry(fs[i])
  {
    assert fs[..i + 1][..i] == fs[..i];
    if i == 0 {
      assert Entries(fs[..1]) == Entry(fs[0]);
      assert Entries(fs[..0]) + Separator(0) == "";
    }
  }

  /**
   * What one `logColored` call leaves in the writers: the call-site failure
   * note in the error writer when the caller is unknown, the line in the
   * output writer, and, when that write fails, the failure report in the error
   * writer; a writer that fails keeps nothing.
   */
  twostate predicate ColoredLogged(l: ColoredLogger, line: string, caller: Option<(string, int)>)
    reads l.outWriter, l.errWriter
  {
    var out, err := l.outWriter, l.errWriter;
    var note := if caller.None? then [CallerFailure] else [];
    if out == err then
      out.writes == old(out.writes) + (if out.failure.None? then note + [line] else [])
    else
      && out.writes == AfterWrite(old(out.writes), out.failure, line)
      && err.writes == old(err.writes) + (if err.failure.None? then
           note + (if out.failure.Some? then [ColoredWriteFailure(line, out.failure.value)] else [])
         else [])
  }

  /** `logColored`: the line is always written, never escalated; failures go to the error writer. */
  method LogColored(l: ColoredLogger, level: Level, msg: string, fields: seq<Field>, clock: Clock,
                    caller: Option<(string, int)>)
    modifies l.outWriter, l.errWriter
    ensures ColoredLogged(l, ColoredLine(l, level, msg, fields, clock, caller), caller)
  {
    ghost var note := if caller.None? then [CallerFailure] else [];
    if caller.None? {
      var _ := l.errWriter.Write(CallerFailure);
    }
    assert l.errWriter.writes == old(l.errWriter.writes) + (if l.errWriter.failure.None? then note else []);
    assert l.outWriter != l.errWriter ==> l.outWriter.writes == old(l.outWriter.writes);
    var s := RenderColored(l, level, msg, fields, clock, caller);
    WritesLine(l, s);
    var out, err := l.outWriter, l.errWriter;
    if out == err {
      if out.failure.None? {
        ConcatAssoc(old(out.writes), note, [s]);
      } else {
        assert out.writes == old(out.writes) + [];
      }
    } else {
      var report := if out.failure.Some? then [ColoredWriteFailure(s, out.failure.value)] else [];
      if err.failure.None? {
        assert err.writes == old(err.writes) + note + report;
        ConcatAssoc(old(err.writes), note, report);
      } else {
        assert err.writes == old(err.writes) + [];
      }
    }
  }

  /** The line write and its failure report, after the caller note has been written. */
  method WritesLine(l: ColoredLogger, s: string)
    modifies l.outWriter, l.errWriter
    ensures l.outWriter == l.errWriter ==>
      l.outWriter.writes == old(l.outWriter.writes) + (if l.outWriter.failure.None? then [s] else [])
    ensures l.outWriter != l.errWriter ==>
      && l.outWriter.writes == AfterWrite(old(l.outWriter.writes), l.outWriter.failure, s)
      && l.errWriter.writes == old(l.errWriter.writes) + (if l.errWriter.failure.None? && l.outWriter.failure.Some?
           then [ColoredWriteFailure(s, l.outWriter.failure.value)] else [])
  {
    var err := l.outWriter.Write(s);
    if err.Some? {
      var _ := l.errWriter.Write(ColoredWriteFailure(s, err.value));
    }
  }
}
