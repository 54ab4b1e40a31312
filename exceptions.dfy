/** The process library's error taxonomy and the lazily built `what()`
    message of its exceptions (include/para/process/exceptions.hpp). */
module ProcessErrors {

  /** The six subclasses of process_error. Each passes its message and its
      error code to process_error unchanged, so the subclass is a tag. */
  datatype ErrorKind =
    | CreateError   // a process could not be created
    | PipeError     // creating, closing or redirecting a pipe failed
    | ProgramError  // the program to exec is missing
    | WaitError     // waiting on a process failed
    | SignalError   // killing or terminating a process failed
    | PidError      // a pid could not be opened

  datatype Category = SystemCategory

  /** A boost::system::error_code. */
  datatype ErrorCode = ErrorCode(value: int, category: Category)

  /** A thrown process_error: its subclass, the reason given to the
      constructor, and the stored error code (what error_code() returns). */
  datatype ProcessError = ProcessError(kind: ErrorKind, reason: string, code: ErrorCode)

  /** The outcome of a C++ function that returns a T or throws. */
  datatype Result<+T> = Ok(value: T) | Err(error: ProcessError)

  /** The outcome of a C++ function returning void that may throw. */
  datatype Outcome = Done | Raised(error: ProcessError)

  /** throw_system_error<E>(v, reason): an E holding the reason and the
      error code v of the system category. */
  function ThrowSystemError(kind: ErrorKind, errorVal: int, reason: string): (e: ProcessError)
    ensures e.kind == kind && e.reason == reason
    ensures e.code.value == errorVal && e.code.category == SystemCategory
  {
    ProcessError(kind, reason, ErrorCode(errorVal, SystemCategory))
  }

  predicate IsUpper(c: char)
  {
    'A' <= c <= 'Z'
  }

  /** The system message with its first character lowercased when it is
      an upper-case ASCII letter; nothing else changes. */
  function LowerFirst(s: string): (r: string)
    ensures |r| == |s|
    ensures forall i :: 0 < i < |s| ==> r[i] == s[i]
    ensures |s| > 0 && r[0] != s[0] ==> IsUpper(s[0]) && r[0] as int == s[0] as int + 32
    ensures |s| > 0 && IsUpper(s[0]) ==> !IsUpper(r[0])
  {
    if |s| > 0 && IsUpper(s[0]) then [(s[0] as int + 32) as char] + s[1..] else s
  }

  /** The prefix what() puts before the system message. */
  function Prefix(reason: string): string
  {
    if reason == [] then [] else reason + ": "
  }

  /** The text what() builds: "reason: message", or the message alone
      when the reason is empty, with the message's first letter lowercased. */
  function WhatMessage(reason: string, systemMessage: string): (m: string)
  {
    Prefix(reason) + LowerFirst(systemMessage)
  }

  /** The shape of what() as documented: the reason, ": ", then the system
      message, of which only the first character may have changed and
      only from 'A'..'Z' to lower case. */
  lemma WhatMessageShape(reason: string, systemMessage: string)
    ensures var m := WhatMessage(reason, systemMessage);
      var k := if reason == [] then 0 else |reason| + 2;
      |m| == k + |systemMessage| &&
      (reason != [] ==> m[..|reason|] == reason && m[|reason|..k] == ": ") &&
      (forall i :: 0 < i < |systemMessage| ==> m[k + i] == systemMessage[i]) &&
      (|systemMessage| > 0 ==>
        (m[k] == systemMessage[0] || (IsUpper(systemMessage[0]) && m[k] as int == systemMessage[0] as int + 32)))
  {
    var m := WhatMessage(reason, systemMessage);
    var k := if reason == [] then 0 else |reason| + 2;
    assert m[k..] == LowerFirst(systemMessage);
    assert Prefix(reason) == m[..k];
  }

  /** Which step of building the message runs out of memory, if any.
      std::string gives the strong guarantee, so a failing step leaves the
      cached text as the previous step made it. */
  datatype BuildFailure = NoFailure | FailCopyReason | FailSeparator | FailAppendMessage

  /** The cached text left behind when building fails at `f`. */
  function PartialMessage(reason: string, f: BuildFailure): string
  {
    match f
    case FailCopyReason => []
    case FailSeparator => reason
    case _ => Prefix(reason)
  }

  /** Whether building the message actually stops at `f` (the separator is
      only appended after a non-empty reason). */
  predicate BuildStops(reason: string, f: BuildFailure)
  {
    f.FailCopyReason? || f.FailAppendMessage? || (f.FailSeparator? && reason != [])
  }

  /** A process_error object: its kind, reason and code never change, and
      `message` is the mutable cache of what(). `systemMessage` stands for
      error_code().message(), which boost computes from the code. */
  class ErrorObject {
    const error: ProcessError
    const systemMessage: string
    var message: string

    constructor (error: ProcessError, systemMessage: string)
      ensures this.error == error && this.systemMessage == systemMessage
      ensures message == []
    {
      this.error, this.systemMessage := error, systemMessage;
      message := [];
    }

    /** The message is empty, fully built, or left part-built by a failure. */
    ghost predicate Valid()
      reads this
    {
      message == [] || message == WhatMessage(error.reason, systemMessage) ||
      message == error.reason || message == Prefix(error.reason)
    }

    /** what(): built on first use and cached; falls back to the bare reason
        when building throws. */
    method What(failure: BuildFailure) returns (text: string)
      requires Valid()
      modifies this
      ensures Valid()
      ensures old(message) != [] ==> text == old(message) && message == old(message)
      ensures old(message) == [] && !BuildStops(error.reason, failure) ==>
        text == WhatMessage(error.reason, systemMessage) && message == text
      ensures old(message) == [] && BuildStops(error.reason, failure) ==>
        text == error.reason && message == PartialMessage(error.reason, failure)
    {
      if message == [] {
        if failure.FailCopyReason? {
          return error.reason;
        }
        message := error.reason;
        if message != [] {
          if failure.FailSeparator? {
            return error.reason;
          }
          message := message + ": ";
        }
        var pos := |message|;
        if failure.FailAppendMessage? {
          return error.reason;
        }
        message := message + systemMessage;
        if pos < |message| && IsUpper(message[pos]) {
          message := message[pos := (message[pos] as int + 32) as char];
        }
        assert message == WhatMessage(error.reason, systemMessage);
      }
      text := message;
    }
  }

  /** Once what() has returned a fully built message, every later call
      returns the same text, whatever happens to memory. */
  method WhatIsStable(e: ErrorObject, first: BuildFailure, second: BuildFailure)
      returns (t1: string, t2: string)
    requires e.Valid() && e.message == []
    requires !BuildStops(e.error.reason, first)
    modifies e
    ensures t1 == t2 == WhatMessage(e.error.reason, e.systemMessage)
  {
    t1 := e.What(first);
    t2 := e.What(second);
  }
}
