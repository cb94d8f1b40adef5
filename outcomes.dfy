/** Failure-compatible results standing for the exceptions the library throws. */
module Outcomes {
  import opened Utf16

  datatype Option<+T> = None | Some(value: T) {
    function GetOr(default: T): T {
      match this
      case Some(v) => v
      case None => default
    }
  }

  /** One constructor per exception (and, for SerializationException, per message). */
  datatype Error =
    | EndOfInput                   // SerializationException "Reached end of string unexpectedly"
    | NoTokenAt(index: nat)        // SerializationException "Could not find token at index N"
    | UnterminatedString           // SerializationException "Unexpectedly reached end of string"
    | UnterminatedNumber           // SerializationException "Unexpected end of string whilst parsing number"
    | ExpectedCurlyOpen(at: nat)   // SerializationException "Expected curly open at index N"
    | ExpectedColon(at: nat)       // SerializationException "Expected colon at index N"
    | IndexOutOfRange              // IndexOutOfRangeException from an array read past the end
    | ArgumentOutOfRange           // ArgumentOutOfRangeException (Substring, new string, DateTime)
    | KeyNotFound(key: Text)       // KeyNotFoundException from a dictionary indexer
    | DuplicateKey(key: Text)      // ArgumentException from Dictionary.Add
    | MissingKey                   // KeyNotFoundException for a key that is not text
    | KeyPresent                   // ArgumentException from Dictionary.Add for a key that is not text
    | MissingConstructor           // ArgumentException: no public zero-argument constructor
    | ArgumentNull                 // ArgumentNullException: an expression call given no method (a property without a setter)
    | NotWritable                  // ArgumentException: an expression assigning a member that cannot be written
    | TypeInitialization           // a per-type singleton whose construction threw
    | NotSupported                 // NotSupportedException
    | InvalidOperation             // InvalidOperationException: locked settings, or no method an expression call can bind
    | Format                       // FormatException from a numeric parse
    | Overflow                     // OverflowException from a numeric parse

  datatype Result<+T> = Ok(value: T) | Err(error: Error) {
    predicate IsFailure() { Err? }
    function PropagateFailure<U>(): Result<U>
      requires Err?
    {
      Err(error)
    }
    function Extract(): T
      requires Ok?
    {
      value
    }
  }

  /** A parser method's result paired with the index it leaves, in the shape
      the specification functions return. */
  function Outcome<T>(r: Result<T>, index: nat): Result<(T, nat)> {
    if r.Ok? then Ok((r.value, index)) else Err(r.error)
  }
}
