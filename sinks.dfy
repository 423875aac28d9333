/**
 * An `io.Writer` destination. Loggers derived from one another share their
 * writers, so a writer is an object. What it has received is the sequence of
 * texts written to it; a writer that fails returns the same error on every
 * write and keeps nothing.
 */
module Sinks {
  import opened Wrappers

  class Sink {
    var writes: seq<string>
    const failure: Option<string>

    constructor (failure: Option<string>)
      ensures writes == [] && this.failure == failure
    {
      writes := [];
      this.failure := failure;
    }

    /** One `Write` call: appends `text` unless the writer fails. */
    method Write(text: string) returns (err: Option<string>)
      modifies this
      ensures err == failure
      ensures writes == AfterWrite(old(writes), failure, text)
    {
      err := failure;
      if failure.None? {
        writes := writes + [text];
      }
    }
  }

  /** What a writer holds after one more write of `text`. */
  function AfterWrite(writes: seq<string>, failure: Option<string>, text: string): seq<string>
  {
    if failure.None? then writes + [text] else writes
  }
}
