/**
 * The zerolog adapter. zerolog itself is not modelled: a zerolog logger is
 * the context its builder has accumulated, and a log call is an abstract
 * emission (severity, context, event fields, message) together with how the
 * call ends. The adapter tracks its own name and fields next to the zerolog
 * logger so that `ErrorReturn` can rebuild the context.
 */
module Zerolog {
  import opened Wrappers
  import opened Contract

  // ---------------------------------------------------------------------
  // castFields

  /** The map `castFields` builds: every key of the list, the last value written for it. */
  function FieldMap(fs: seq<Field>): map<string, Value>
    decreases |fs|
  {
    if fs == [] then map[] else FieldMap(fs[..|fs| - 1])[fs[|fs| - 1].key := fs[|fs| - 1].value]
  }

  /** `castFields`: fills a map from the list, one assignment per field, in order. */
  method CastFields(fields: seq<Field>) returns (m: map<string, Value>)
    ensures m == FieldMap(fields)
  {
    m := map[];
    for i := 0 to |fields|
      invariant m == FieldMap(fields[..i])
    {
      assert fields[..i + 1][..i] == fields[..i];
      m := m[fields[i].key := fields[i].value];
    }
    assert fields[..|fields|] == fields;
  }

  function KeysOf(fs: seq<Field>): set<string>
  {
    set i | 0 <= i < |fs| :: fs[i].key
  }

  /** Every key of the list is in the map, and nothing else is. */
  lemma {:induction false} FieldMapKeys(fs: seq<Field>)
    ensures FieldMap(fs).Keys == KeysOf(fs)
    decreases |fs|
  {
    if fs != [] {
      var init := fs[..|fs| - 1];
      FieldMapKeys(init);
      assert KeysOf(fs) == KeysOf(init) + {fs[|fs| - 1].key} by {
        forall k | k in KeysOf(fs) ensures k in KeysOf(init) + {fs[|fs| - 1].key} {
          var i :| 0 <= i < |fs| && fs[i].key == k;
          if i < |fs| - 1 { assert init[i] == fs[i]; }
        }
        forall k | k in KeysOf(init) ensures k in KeysOf(fs) {
          var i :| 0 <= i < |init| && init[i].key == k;
          assert fs[i] == init[i];
        }
      }
    }
  }

  /** For a repeated key the value of its last occurrence wins. */
  lemma {:induction false} FieldMapLastWins(fs: seq<Field>, i: nat)
    requires i < |fs|
    requires forall j | i < j < |fs| :: fs[j].key != fs[i].key
    ensures fs[i].key in FieldMap(fs) && FieldMap(fs)[fs[i].key] == fs[i].value
    decreases |fs|
  {
    if i < |fs| - 1 {
      var init := fs[..|fs| - 1];
      assert init[i] == fs[i];
      FieldMapLastWins(init, i);
    }
  }

  /** Casting a concatenation: the later list's values override the earlier's. */
  lemma {:induction false} FieldMapConcat(a: seq<Field>, b: seq<Field>)
    ensures FieldMap(a + b) == FieldMap(a) + FieldMap(b)
    decreases |b|
  {
    if b == [] {
      assert a + b == a;
    } else {
      var b' := b[..|b| - 1];
      assert (a + b)[..|a + b| - 1] == a + b';
      FieldMapConcat(a, b');
    }
  }

  // ---------------------------------------------------------------------
  // The zerolog side, abstractly

  /** One piece of context added through `With()`: a string (`Str`) or a field map (`Fields`). */
  datatype ContextEntry = StrEntry(key: string, str: string) | FieldsEntry(fields: map<string, Value>)

  /** A zerolog logger, as the context it carries into every event. */
  datatype ZLogger = ZLogger(context: seq<ContextEntry>)

  /** `log.With().Str(key, s).Logger()`. */
  function WithStr(z: ZLogger, key: string, s: string): ZLogger
  {
    ZLogger(z.context + [StrEntry(key, s)])
  }

  /** `log.With().Fields(m).Logger()`. */
  function WithFields(z: ZLogger, m: map<string, Value>): ZLogger
  {
    ZLogger(z.context + [FieldsEntry(m)])
  }

  /** The field keys a zerolog context carries. */
  function ContextKeys(ctx: seq<ContextEntry>): set<string>
    decreases |ctx|
  {
    if ctx == [] then {}
    else ContextKeys(ctx[..|ctx| - 1]) + (match ctx[|ctx| - 1] case StrEntry(_, _) => {} case FieldsEntry(m) => m.Keys)
  }

  lemma ContextKeysWithStr(z: ZLogger, key: string, s: string)
    ensures ContextKeys(WithStr(z, key, s).context) == ContextKeys(z.context)
  {
    var c := WithStr(z, key, s).context;
    assert c[..|c| - 1] == z.context;
  }

  lemma ContextKeysWithFields(z: ZLogger, fs: seq<Field>)
    ensures ContextKeys(WithFields(z, FieldMap(fs)).context) == ContextKeys(z.context) + KeysOf(fs)
  {
    var c := WithFields(z, FieldMap(fs)).context;
    assert c[..|c| - 1] == z.context;
    FieldMapKeys(fs);
  }

  /** The zerolog event levels the adapter uses; zerolog has no DPanic level. */
  datatype Severity = SevDebug | SevInfo | SevWarn | SevError | SevPanic | SevFatal

  /** One event handed to zerolog: its level, the logger's context, the call's fields, the message. */
  datatype Emission = Emission(severity: Severity, context: seq<ContextEntry>, fields: map<string, Value>, msg: string)

  /** An emission and how the call ends. */
  datatype Effect = Effect(emission: Emission, outcome: Outcome)

  /** zerolog's own escalation: `Panic()` panics with the message, `Fatal()` exits with status 1. */
  function Escalation(sev: Severity, msg: string): (o: Outcome)
    ensures o == Panicked(msg) <==> sev == SevPanic
    ensures o == Exited(1) <==> sev == SevFatal
    ensures o == Returned <==> sev != SevPanic && sev != SevFatal
  {
    match sev
    case SevPanic => Panicked(msg)
    case SevFatal => Exited(1)
    case _ => Returned
  }

  /** `log.<Level>().Fields(castFields(fields)).Msg(msg)`. */
  function Event(z: ZLogger, sev: Severity, callFields: seq<Field>, msg: string): Effect
  {
    Effect(Emission(sev, z.context, FieldMap(callFields), msg), Escalation(sev, msg))
  }

  // ---------------------------------------------------------------------
  // The adapter

  class Impl {
    var log: ZLogger
    var inDevMode: bool
    var name: string
    var fields: seq<Field>

    /** Every field key in the zerolog context is also tracked for `ErrorReturn`, and no other. */
    ghost predicate Tracks()
      reads this
    {
      ContextKeys(log.context) == KeysOf(fields)
    }

    /** `newImpl`: no name and no tracked fields. */
    constructor (log: ZLogger, inDevMode: bool)
      ensures this.log == log && this.inDevMode == inDevMode
      ensures name == "" && fields == []
      ensures ContextKeys(log.context) == {} ==> Tracks()
    {
      this.log := log;
      this.inDevMode := inDevMode;
      name := "";
      fields := [];
    }

    /**
     * `Named`: the segment joined with "." only after a non-empty name, case
     * kept; the tracked fields and the mode carry over.
     */
    method Named(name: string) returns (l: Impl)
      ensures fresh(l)
      ensures l.name == if |this.name| > 0 then this.name + "." + name else name
      ensures l.fields == fields && l.inDevMode == inDevMode
      ensures l.log == WithStr(log, "name", l.name)
      ensures Tracks() ==> l.Tracks()
    {
      var n := name;
      if |this.name| > 0 {
        n := this.name + "." + n;
      }
      var sub := WithStr(log, "name", n);
      l := new Impl(sub, inDevMode);
      l.name := n;
      l.fields := fields;
      ContextKeysWithStr(log, "name", n);
    }

    /**
     * `With`, as written: the zerolog context gains the arguments, but the
     * tracked fields are only this call's arguments, because they are
     * appended to the fresh adapter's empty list instead of the receiver's.
     * The tracking survives exactly when the arguments repeat every tracked key.
     */
    method With(args: seq<Field>) returns (l: Impl)
      ensures fresh(l)
      ensures l.name == name && l.inDevMode == inDevMode
      ensures l.fields == args
      ensures l.log == WithFields(log, FieldMap(args))
      ensures Tracks() ==> (l.Tracks() <==> KeysOf(fields) <= KeysOf(args))
    {
      var m := CastFields(args);
      var sub := WithFields(log, m);
      l := new Impl(sub, inDevMode);
      l.name := name;
      l.fields := l.fields + args;
      ContextKeysWithFields(log, args);
    }

    /** `With` as evidently intended: the receiver's tracked fields, then the arguments. */
    method WithAccumulating(args: seq<Field>) returns (l: Impl)
      ensures fresh(l)
      ensures l.name == name && l.inDevMode == inDevMode
      ensures l.fields == fields + args
      ensures l.log == WithFields(log, FieldMap(args))
      ensures Tracks() ==> l.Tracks()
    {
      var m := CastFields(args);
      var sub := WithFields(log, m);
      l := new Impl(sub, inDevMode);
      l.name := name;
      l.fields := fields + args;
      ContextKeysWithFields(log, args);
      assert KeysOf(fields + args) == KeysOf(fields) + KeysOf(args) by {
        FieldMapKeys(fields);
        FieldMapKeys(args);
        FieldMapKeys(fields + args);
        FieldMapConcat(fields, args);
      }
    }

    /** `Sync`: nothing to flush. */
    method Sync() returns (err: Option<string>)
      ensures err == None
    {
      err := None;
    }

    method Debug(msg: string, callFields: seq<Field>) returns (e: Effect)
      ensures e == Event(log, SevDebug, callFields, msg) && e.outcome == Returned
    {
      var m := CastFields(callFields);
      e := Effect(Emission(SevDebug, log.context, m, msg), Returned);
    }

    method Info(msg: string, callFields: seq<Field>) returns (e: Effect)
      ensures e == Event(log, SevInfo, callFields, msg) && e.outcome == Returned
    {
      var m := CastFields(callFields);
      e := Effect(Emission(SevInfo, log.context, m, msg), Returned);
    }

    method Warn(msg: string, callFields: seq<Field>) returns (e: Effect)
      ensures e == Event(log, SevWarn, callFields, msg) && e.outcome == Returned
    {
      var m := CastFields(callFields);
      e := Effect(Emission(SevWarn, log.context, m, msg), Returned);
    }

    method Error(msg: string, callFields: seq<Field>) returns (e: Effect)
      ensures e == Event(log, SevError, callFields, msg) && e.outcome == Returned
    {
      var m := CastFields(callFields);
      e := Effect(Emission(SevError, log.context, m, msg), Returned);
    }

    /**
     * `ErrorReturn`: emits exactly what `Error` emits, then returns the error
     * `FormatToError` builds from the tracked name, skip depth 1, the message
     * and the tracked fields followed by the call's. `FormatToError` is not
     * part of this model and is a parameter.
     */
    method ErrorReturn(msg: string, callFields: seq<Field>,
                       formatToError: (string, int, string, seq<Field>) -> string)
      returns (e: Effect, err: string)
      ensures e == Event(log, SevError, callFields, msg) && e.outcome == Returned
      ensures err == formatToError(name, 1, msg, fields + callFields)
    {
      e := Error(msg, callFields);
      err := formatToError(name, 1, msg, fields + callFields);
    }

    /** `DPanic`: through `Panic` in development mode, otherwise an Error-level event that returns. */
    method DPanic(msg: string, callFields: seq<Field>) returns (e: Effect)
      ensures inDevMode ==> e == Event(log, SevPanic, callFields, msg)
      ensures !inDevMode ==> e == Event(log, SevError, callFields, msg)
      ensures e.outcome == (if inDevMode then Panicked(msg) else Returned)
    {
      if inDevMode {
        e := Panic(msg, callFields);
      } else {
        e := Error(msg, callFields);
      }
    }

    method Panic(msg: string, callFields: seq<Field>) returns (e: Effect)
      ensures e == Event(log, SevPanic, callFields, msg) && e.outcome == Panicked(msg)
    {
      var m := CastFields(callFields);
      e := Effect(Emission(SevPanic, log.context, m, msg), Panicked(msg));
    }

    method Fatal(msg: string, callFields: seq<Field>) returns (e: Effect)
      ensures e == Event(log, SevFatal, callFields, msg) && e.outcome == Exited(1)
    {
      var m := CastFields(callFields);
      e := Effect(Emission(SevFatal, log.context, m, msg), Exited(1));
    }
  }

  /** `NewZerologImpl`: wraps the given zerolog logger with no name and no tracked fields. */
  method NewZerologImpl(log: ZLogger, inDevMode: bool) returns (i: Impl)
    ensures fresh(i)
    ensures i.log == log && i.inDevMode == inDevMode && i.name == "" && i.fields == []
  {
    i := new Impl(log, inDevMode);
  }

  /**
   * A parent with one tracked field and a child derived by `With()` with no
   * arguments: the child's zerolog context still carries the key, but the
   * fields `ErrorReturn` would pass on are empty.
   */
  method WithDropsParentFields(root: ZLogger, key: string, v: Value) returns (parent: Impl, child: Impl)
    requires ContextKeys(root.context) == {}
    ensures parent.fields == [Field(key, v)] && parent.Tracks()
    ensures child.fields == [] && key in ContextKeys(child.log.context) && !child.Tracks()
  {
    var base := new Impl(root, false);
    parent := base.With([Field(key, v)]);
    assert KeysOf([Field(key, v)]) == {key};
    assert KeysOf([]) == {};
    child := parent.With([]);
    ContextKeysWithFields(parent.log, []);
  }

  /** The corrected `With` keeps every tracked field for `ErrorReturn` along a chain of derivations. */
  method WithAccumulatingKeepsParentFields(root: ZLogger, key: string, v: Value) returns (parent: Impl, child: Impl)
    requires ContextKeys(root.context) == {}
    ensures parent.fields == [Field(key, v)] && parent.Tracks()
    ensures child.fields == [Field(key, v)] && child.Tracks()
  {
    var base := new Impl(root, false);
    parent := base.WithAccumulating([Field(key, v)]);
    child := parent.WithAccumulating([]);
  }
}
