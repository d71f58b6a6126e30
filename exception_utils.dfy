/**
 * Text made from throwables (their message, their stack trace, the current call stack)
 * and the conversion of any throwable into an exception of a wanted kind.
 */
module Exceptions {

  datatype Option<T> = None | Some(value: T)

  /** What a throwable is: an error, a checked exception, or a runtime exception. */
  datatype Kind = ErrorKind | CheckedKind | RuntimeKind

  /**
   * A throwable: its class name, its kind, the class names it can be assigned to, its
   * message, its stack frames (as text), and its cause.
   */
  datatype Throwable = Throwable(className: string, kind: Kind, assignableTo: set<string>,
                                 message: Option<string>, frames: seq<string>, cause: Option<Throwable>)

  /** The kinds an exception class can have: a subclass of `Exception` is never an error. */
  type ExceptionKind = k: Kind | k != ErrorKind witness CheckedKind

  /**
   * An exception class that a throwable may be converted to: its name, its kind, the names
   * of its superclasses, and whether it has a constructor taking a cause.
   */
  datatype ExceptionClass = ExceptionClass(name: string, kind: ExceptionKind, superclasses: set<string>, hasCauseConstructor: bool)

  predicate IsException(t: Throwable) { t.kind != ErrorKind }
  predicate IsRuntimeException(t: Throwable) { t.kind == RuntimeKind }

  /** `Throwable.toString()`, used as the message of an exception built around a cause. */
  function Describe(t: Throwable): string
  {
    t.className + (if t.message.Some? then ": " + t.message.value else "")
  }

  /** `getMessage`: "null" for no throwable, otherwise its class name, ": ", and its message. */
  function GetMessage(t: Option<Throwable>): (s: string)
    ensures t.None? ==> s == "null"
    ensures t.Some? ==> s == t.value.className + ": " + (if t.value.message.Some? then t.value.message.value else "null")
  {
    if t.None? then "null"
    else t.value.className + ": " + (if t.value.message.Some? then t.value.message.value else "null")
  }

  /** A frame as a stack-trace line: "  at " and the frame. */
  function At(frame: string): string
  {
    "  at " + frame
  }

  /** A frame on a line of its own. */
  function Line(frame: string): (l: string)
    ensures l == "\n" + At(frame)
  {
    "\n  at " + frame
  }

  /** The stack-trace lines of the frames: each on a new line, after "  at ". */
  function FrameLines(frames: seq<string>): string
  {
    if frames == [] then [] else FrameLines(frames[..|frames| - 1]) + Line(frames[|frames| - 1])
  }

  /** The frames of two stacks, one after the other, give the lines of the one then the lines of the other. */
  lemma {:induction false} FrameLinesConcat(a: seq<string>, b: seq<string>)
    ensures FrameLines(a + b) == FrameLines(a) + FrameLines(b)
  {
    if b != [] {
      FrameLinesConcat(a, b[..|b| - 1]);
      assert (a + b)[..|a + b| - 1] == a + b[..|b| - 1];
    } else {
      assert a + b == a;
    }
  }

  /** The lines of the frames are as long as the frames with 6 characters each for the line prefix. */
  lemma {:induction false} FrameLinesLength(frames: seq<string>)
    ensures |FrameLines(frames)| == 6 * |frames| + SumLengths(frames)
  {
    if frames != [] {
      FrameLinesLength(frames[..|frames| - 1]);
    }
  }

  function SumLengths(ss: seq<string>): nat
  {
    if ss == [] then 0 else SumLengths(ss[..|ss| - 1]) + |ss[|ss| - 1]|
  }

  /** What `getStackTrace` returns for a throwable: "null", or its message followed by its frame lines. */
  function StackTrace(t: Option<Throwable>): string
  {
    if t.None? then "null" else GetMessage(t) + FrameLines(t.value.frames)
  }

  /** `getStackTrace`: the message, then a line per frame, in order. */
  method GetStackTrace(t: Option<Throwable>) returns (s: string)
    ensures s == StackTrace(t)
    ensures t.Some? ==> s[..|GetMessage(t)|] == GetMessage(t)
  {
    if t.None? {
      return "null";
    }
    var message := GetMessage(t);
    s := AppendFrames(message, t.value.frames);
  }

  /** The loop of `getStackTrace`: a line per frame is appended, in order. */
  method AppendFrames(start: string, frames: seq<string>) returns (sb: string)
    ensures sb == start + FrameLines(frames)
    ensures sb[..|start|] == start
  {
    sb := start;
    var i := 0;
    while i < |frames|
      invariant 0 <= i <= |frames|
      invariant sb == start + FrameLines(frames[..i])
    {
      assert frames[..i + 1][..i] == frames[..i];
      sb := sb + Line(frames[i]);
      i := i + 1;
    }
    assert frames[..i] == frames;
  }

  /** What `getCallStack` returns for the frames of a fresh throwable: every frame but the first, one per line, after "  at ". */
  function CallStack(frames: seq<string>): string
  {
    if |frames| <= 1 then []
    else if |frames| == 2 then At(frames[1])
    else CallStack(frames[..|frames| - 1]) + ("\n" + At(frames[|frames| - 1]))
  }

  lemma Regroup(a: string, b: string, c: string)
    ensures a + (b + c) == (a + b) + c
  {
  }

  /** The call stack is the stack-trace lines of all frames but the first, less the leading line break. */
  lemma {:induction false} CallStackIsTraceLines(frames: seq<string>)
    requires |frames| >= 2
    ensures "\n" + CallStack(frames) == FrameLines(frames[1..])
  {
    if |frames| == 2 {
      assert frames[1..] == [frames[1]];
      assert frames[1..][..0] == [];
    } else {
      var front := frames[..|frames| - 1];
      CallStackIsTraceLines(front);
      assert frames[1..][..|frames[1..]| - 1] == front[1..];
      var last := frames[|frames| - 1];
      Regroup("\n", CallStack(front), "\n" + At(last));
    }
  }

  /** `getCallStack`: frame 0 (this method) is skipped; the others are separated by line breaks. */
  method GetCallStack(frames: seq<string>) returns (s: string)
    ensures s == CallStack(frames)
  {
    var sb: string := [];
    var i := 1;
    while i < |frames|
      invariant 1 <= i
      invariant |frames| >= 1 ==> i <= |frames| && sb == CallStack(frames[..i])
      invariant |frames| == 0 ==> sb == []
    {
      assert frames[..i + 1][..i] == frames[..i];
      if i > 1 {
        sb := sb + "\n";
      }
      sb := sb + At(frames[i]);
      i := i + 1;
    }
    if |frames| >= 1 {
      assert frames[..i] == frames;
    }
    s := sb;
  }

  /** A new exception of the given class and kind around a cause, with the cause's description as message. */
  function Wrap(className: string, kind: Kind, assignableTo: set<string>, cause: Option<Throwable>): Throwable
  {
    Throwable(className, kind, assignableTo, if cause.Some? then Some(Describe(cause.value)) else None, [], cause)
  }

  /** `toException(throwable)`: an exception is returned as is; anything else, null included, is wrapped in a new Exception. */
  function ToException(t: Option<Throwable>): (e: Throwable)
    ensures IsException(e)
    ensures t.Some? && IsException(t.value) <==> Some(e) == t
    ensures !(t.Some? && IsException(t.value)) ==> e.cause == t && e.className == "java.lang.Exception"
  {
    if t.Some? && IsException(t.value) then t.value
    else Wrap("java.lang.Exception", CheckedKind, {"java.lang.Exception", "java.lang.Throwable"}, t)
  }

  /** `toRuntimeException(throwable)`: a runtime exception is returned as is; anything else is wrapped in a new RuntimeException. */
  function ToRuntimeException(t: Option<Throwable>): (e: Throwable)
    ensures IsRuntimeException(e)
    ensures t.Some? && IsRuntimeException(t.value) <==> Some(e) == t
    ensures !(t.Some? && IsRuntimeException(t.value)) ==> e.cause == t && e.className == "java.lang.RuntimeException"
  {
    if t.Some? && IsRuntimeException(t.value) then t.value
    else Wrap("java.lang.RuntimeException", RuntimeKind,
      {"java.lang.RuntimeException", "java.lang.Exception", "java.lang.Throwable"}, t)
  }

  /** Converting twice is converting once. */
  lemma ConversionIdempotent(t: Option<Throwable>)
    ensures ToException(Some(ToException(t))) == ToException(t)
    ensures ToRuntimeException(Some(ToRuntimeException(t))) == ToRuntimeException(t)
  {
  }

  /** The forms with a message always build a new exception, with that message and the throwable as cause. */
  function ToExceptionWithMessage(message: string, t: Option<Throwable>): (e: Throwable)
    ensures IsException(e) && e.message == Some(message) && e.cause == t
  {
    Throwable("java.lang.Exception", CheckedKind, {"java.lang.Exception", "java.lang.Throwable"}, Some(message), [], t)
  }

  function ToRuntimeExceptionWithMessage(message: string, t: Option<Throwable>): (e: Throwable)
    ensures IsRuntimeException(e) && e.message == Some(message) && e.cause == t
  {
    Throwable("java.lang.RuntimeException", RuntimeKind,
      {"java.lang.RuntimeException", "java.lang.Exception", "java.lang.Throwable"}, Some(message), [], t)
  }

  /**
   * `toException(throwable, clazz)`: null for a null class; the throwable itself when it
   * can be assigned to the class; otherwise a new instance of the class around it, or
   * null when the class has no constructor taking a cause.
   */
  function ToExceptionOfClass(t: Option<Throwable>, clazz: Option<ExceptionClass>): (e: Option<Throwable>)
    ensures clazz.None? ==> e.None?
    ensures clazz.Some? && t.Some? && clazz.value.name in t.value.assignableTo ==> e == t
    ensures clazz.Some? && !(t.Some? && clazz.value.name in t.value.assignableTo) ==>
      (e.Some? <==> clazz.value.hasCauseConstructor)
      && (e.Some? ==> e.value.className == clazz.value.name && e.value.cause == t && e.value.kind == clazz.value.kind
                      && e.value.assignableTo == {clazz.value.name} + clazz.value.superclasses)
  {
    if clazz.None? then None
    else if t.Some? && clazz.value.name in t.value.assignableTo then t
    else if clazz.value.hasCauseConstructor then
      Some(Wrap(clazz.value.name, clazz.value.kind, {clazz.value.name} + clazz.value.superclasses, t))
    else None
  }

  /** A new instance of a runtime exception class is a runtime exception, so `toRuntimeException` keeps it as it is. */
  lemma ConvertedRuntimeKept(t: Option<Throwable>, clazz: ExceptionClass)
    requires clazz.kind == RuntimeKind && !(t.Some? && clazz.name in t.value.assignableTo) && clazz.hasCauseConstructor
    ensures ToExceptionOfClass(t, Some(clazz)).Some?
    ensures ToRuntimeException(ToExceptionOfClass(t, Some(clazz))) == ToExceptionOfClass(t, Some(clazz)).value
  {
  }

  /** A throwable converted to a class can be converted to it again and stays the same. */
  lemma ConversionToClassIdempotent(t: Option<Throwable>, clazz: ExceptionClass)
    requires ToExceptionOfClass(t, Some(clazz)).Some?
    ensures ToExceptionOfClass(ToExceptionOfClass(t, Some(clazz)), Some(clazz)) == ToExceptionOfClass(t, Some(clazz))
  {
  }
}
