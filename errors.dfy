/**
 * The exceptions that cross the copy engine. Each carries the Ruby class it was raised
 * with and its message; handlers decide by class (`rescue => e` only catches
 * StandardError) and by message (retry and reconnect patterns).
 */
module Errors {

  datatype ErrorKind =
    | LhmError                   // Lhm::Error
    | ReconnectToHostSuccessful  // subclass of Lhm::Error, used as a "reconnected" signal
    | RuntimeError               // a bare `raise "..."`
    | ArgumentError
    | NoMethodError              // a method called on nil
    | DatabaseError              // whatever the database adapter raises
    | NotImplementedError        // a ScriptError, not a StandardError

  datatype Error = Error(kind: ErrorKind, message: string)

  /** Whether a bare `rescue => e` catches the error. */
  predicate IsStandardError(e: Error)
  {
    e.kind != NotImplementedError
  }

  /** Whether `e.is_a?(Lhm::Error)`. */
  predicate IsLhmError(e: Error)
  {
    e.kind == LhmError || e.kind == ReconnectToHostSuccessful
  }

  /** The classes an error handler names: `StandardError`, `Lhm::Error` and its subclass. */
  datatype ErrorClass = StandardErrorClass | LhmErrorClass | ReconnectToHostSuccessfulClass

  /** `e.is_a?(c)`. */
  predicate IsA(e: Error, c: ErrorClass)
  {
    match c
    case StandardErrorClass => IsStandardError(e)
    case LhmErrorClass => IsLhmError(e)
    case ReconnectToHostSuccessfulClass => e.kind == ReconnectToHostSuccessful
  }

  /** The errors that database calls and other collaborators raise. */
  type StdError = e: Error | IsStandardError(e) witness Error(DatabaseError, "")
}
