/**
 * The wrapper around a node's child process: the process is set once, and each of its
 * two streams is read character by character and passed on to the listeners in chunks
 * that end at a line feed or fill the buffer.
 */
module ProcessWrapping {

  datatype Option<T> = None | Some(value: T)
  datatype Result<T> = Ok(value: T) | NullPointer

  /** The buffer size of a stream handler, in characters. */
  const BufferSize: nat := 8 * 1024

  /** A listener notification: which stream was altered, for which listener, with what text. */
  datatype StreamEvent = OutputStreamAltered(listener: nat, content: string) | ErrorStreamAltered(listener: nat, content: string)

  /** The reading state: the chunks passed on so far, and the buffer being filled. */
  datatype Chunking = Chunking(chunks: seq<string>, buffer: string)

  /** One character read: a carriage return is skipped; otherwise it is appended, and the buffer is passed on at a line feed or when full. */
  function Step(st: Chunking, c: char): Chunking
  {
    if c == '\r' then st
    else
      var b := st.buffer + [c];
      if |b| >= BufferSize || c == '\n' then Chunking(st.chunks + [b], []) else Chunking(st.chunks, b)
  }

  /** The state after reading the whole input, from an empty buffer. */
  function Run(input: string): Chunking
  {
    if input == [] then Chunking([], []) else Step(Run(input[..|input| - 1]), input[|input| - 1])
  }

  /** The input without its carriage returns. */
  function WithoutCR(s: string): (r: string)
    ensures '\r' !in r
  {
    if s == [] then [] else WithoutCR(s[..|s| - 1]) + (if s[|s| - 1] == '\r' then [] else [s[|s| - 1]])
  }

  /** The concatenation of the chunks. */
  function Flatten(chunks: seq<string>): string
  {
    if chunks == [] then [] else Flatten(chunks[..|chunks| - 1]) + chunks[|chunks| - 1]
  }

  /** A well-formed chunk: non-empty, no carriage return, at most a buffer long, and ending at a line feed or a full buffer. */
  predicate GoodChunk(chunk: string)
  {
    0 < |chunk| <= BufferSize && '\r' !in chunk
    && (chunk[|chunk| - 1] == '\n' || |chunk| == BufferSize)
    && '\n' !in chunk[..|chunk| - 1]
  }

  /** What holds of the reading state at every step. */
  predicate Consistent(st: Chunking)
  {
    (forall k :: 0 <= k < |st.chunks| ==> GoodChunk(st.chunks[k]))
    && '\r' !in st.buffer && '\n' !in st.buffer && |st.buffer| < BufferSize
  }

  /** Reading one more character keeps the state consistent. */
  lemma StepConsistent(st: Chunking, c: char)
    requires Consistent(st)
    ensures Consistent(Step(st, c))
  {
    if c != '\r' {
      var b := st.buffer + [c];
      assert b[..|b| - 1] == st.buffer;
      if |b| >= BufferSize || c == '\n' {
        assert GoodChunk(b);
        var chunks := st.chunks + [b];
        assert forall k :: 0 <= k < |chunks| ==> GoodChunk(chunks[k]) by {
          forall k | 0 <= k < |chunks|
            ensures GoodChunk(chunks[k])
          {
            if k < |st.chunks| {
              assert chunks[k] == st.chunks[k];
            }
          }
        }
      }
    }
  }

  /** Reading one more character adds it, unless it is a carriage return, to what was passed on or buffered. */
  lemma StepKeepsText(st: Chunking, c: char)
    ensures Flatten(Step(st, c).chunks) + Step(st, c).buffer == Flatten(st.chunks) + st.buffer + (if c == '\r' then [] else [c])
  {
    if c != '\r' {
      var b := st.buffer + [c];
      if |b| >= BufferSize || c == '\n' {
        var chunks := st.chunks + [b];
        assert chunks[..|chunks| - 1] == st.chunks;
        assert Flatten(chunks) + [] == Flatten(st.chunks) + b;
      }
    }
  }

  /**
   * What the reading yields: every chunk is well formed; the chunks, followed by the
   * characters still buffered (which are dropped at the end of the stream), are the
   * input without carriage returns; and the buffer holds no line feed and is not full.
   */
  lemma {:induction false} RunMeaning(input: string)
    ensures Consistent(Run(input))
    ensures Flatten(Run(input).chunks) + Run(input).buffer == WithoutCR(input)
  {
    if input != [] {
      var front := input[..|input| - 1];
      var c := input[|input| - 1];
      RunMeaning(front);
      StepConsistent(Run(front), c);
      StepKeepsText(Run(front), c);
    }
  }

  /** Reading one more character of the input. */
  lemma RunStep(input: string, i: nat)
    requires i < |input|
    ensures Run(input[..i + 1]) == Step(Run(input[..i]), input[i])
  {
    assert input[..i + 1][..i] == input[..i];
  }

  /** The notifications of one more chunk. */
  lemma NotifyAllStep(listeners: seq<nat>, output: bool, chunks: seq<string>, chunk: string)
    ensures NotifyAll(listeners, output, chunks + [chunk]) == NotifyAll(listeners, output, chunks) + Notify(listeners, output, chunk)
  {
    assert (chunks + [chunk])[..|chunks|] == chunks;
  }

  /** The notifications of one stream event: one per listener, in order, to the hook of the stream concerned. */
  function Notify(listeners: seq<nat>, output: bool, content: string): (es: seq<StreamEvent>)
    ensures |es| == |listeners|
    ensures forall k :: 0 <= k < |es| ==>
      es[k] == (if output then OutputStreamAltered(listeners[k], content) else ErrorStreamAltered(listeners[k], content))
  {
    seq(|listeners|, k requires 0 <= k < |listeners| =>
      if output then OutputStreamAltered(listeners[k], content) else ErrorStreamAltered(listeners[k], content))
  }

  /** The notifications of a run of chunks. */
  function NotifyAll(listeners: seq<nat>, output: bool, chunks: seq<string>): seq<StreamEvent>
  {
    if chunks == [] then [] else NotifyAll(listeners, output, chunks[..|chunks| - 1]) + Notify(listeners, output, chunks[|chunks| - 1])
  }

  class ProcessWrapper {
    var process: Option<nat>
    /** The stream handlers started: for each, whether it reads the output stream and the process it reads. */
    var handlers: seq<(bool, nat)>
    var listeners: seq<nat>
    var events: seq<StreamEvent>

    constructor()
      ensures process.None? && handlers == [] && listeners == [] && events == []
    {
      process := None;
      handlers := [];
      listeners := [];
      events := [];
    }

    /**
     * `setProcess`: only the first process set is kept; its output and error streams
     * each get a handler. A null process is stored, then its streams cannot be read.
     */
    method SetProcess(p: Option<nat>) returns (r: Result<()>)
      modifies this`process, this`handlers
      ensures old(process).Some? ==> r.Ok? && process == old(process) && handlers == old(handlers)
      ensures old(process).None? && p.None? ==> r.NullPointer? && process.None? && handlers == old(handlers)
      ensures old(process).None? && p.Some? ==>
        r.Ok? && process == p && handlers == old(handlers) + [(true, p.value), (false, p.value)]
    {
      if process.None? {
        process := p;
        if p.None? {
          return NullPointer;
        }
        handlers := handlers + [(true, p.value), (false, p.value)];
      }
      r := Ok(());
    }

    /** `fireStreamEvent`: every listener is told, through the hook of the stream concerned. */
    method FireStreamEvent(output: bool, content: string)
      modifies this`events
      ensures events == old(events) + Notify(listeners, output, content)
    {
      var snapshot := listeners;
      var i := 0;
      while i < |snapshot|
        invariant 0 <= i <= |snapshot|
        invariant events == old(events) + Notify(snapshot[..i], output, content)
      {
        assert Notify(snapshot[..i + 1], output, content) == Notify(snapshot[..i], output, content) + Notify([snapshot[i]], output, content);
        if output {
          events := events + [OutputStreamAltered(snapshot[i], content)];
        } else {
          events := events + [ErrorStreamAltered(snapshot[i], content)];
        }
        i := i + 1;
      }
      assert snapshot[..i] == snapshot;
    }

    /**
     * `StreamHandler.run`: the stream is read to its end; each chunk is passed on to the
     * listeners as soon as it is complete, and what is left in the buffer at the end is
     * dropped.
     */
    method HandleStream(output: bool, input: string)
      modifies this`events
      ensures events == old(events) + NotifyAll(listeners, output, Run(input).chunks)
    {
      var sb: string := [];
      ghost var chunks: seq<string> := [];
      var i := 0;
      while i < |input|
        invariant 0 <= i <= |input|
        invariant Run(input[..i]) == Chunking(chunks, sb)
        invariant events == old(events) + NotifyAll(listeners, output, chunks)
      {
        RunStep(input, i);
        sb, chunks := ReadChar(output, input[i], sb, chunks, old(events));
        i := i + 1;
      }
      assert input[..i] == input;
    }

    /** One character of the stream: it is buffered, and the buffer is passed on when it completes a chunk. */
    method ReadChar(output: bool, c: char, sb: string, ghost chunks: seq<string>, ghost before: seq<StreamEvent>)
      returns (sb': string, ghost chunks': seq<string>)
      requires events == before + NotifyAll(listeners, output, chunks)
      modifies this`events
      ensures Chunking(chunks', sb') == Step(Chunking(chunks, sb), c)
      ensures events == before + NotifyAll(listeners, output, chunks')
    {
      sb', chunks' := sb, chunks;
      if c != '\r' {
        sb' := sb + [c];
        if |sb'| >= BufferSize || c == '\n' {
          NotifyAllStep(listeners, output, chunks, sb');
          FireStreamEvent(output, sb');
          assert events == before + (NotifyAll(listeners, output, chunks) + Notify(listeners, output, sb'));
          chunks' := chunks + [sb'];
          sb' := [];
        }
      }
    }
  }
}
