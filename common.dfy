/** Wrappers standing for C# nulls and exceptions. */
module Wrappers {

  /** A nullable value: `None` stands for C# `null`. */
  datatype Option<+T> = None | Some(value: T)

  /** A value or the exception that a C# member throws instead of returning it. */
  datatype Result<+T, +E> = Success(value: T) | Failure(error: E)

  /** The outcome of a C# `void` member: it returns normally or throws. */
  datatype Outcome<+E> = Pass | Fail(error: E)
}

/** The exceptions the order core throws, one constructor per distinct message. */
module Errors {

  datatype Error =
      // ConsoleConfig constructor (ArgumentException)
    | InvalidControllerCount
    | ColorHexRequired
    | InvalidColorFormat
      // Order constructor and OrderService.CreateOrderAsync
    | ConfigurationRequired      // ArgumentNullException on a null configuration
    | EmailRequired
    | InvalidEmailFormat
    | UnknownConsoleType         // thrown by the price calculation
      // Order transitions (InvalidOperationException)
    | AlreadyCompleted
    | CannotCompleteCancelled
    | CannotCancelCompleted
    | AlreadyCancelled
      // OrderService
    | InvalidOrderId
    | OrderNotFound
    | EmailRequiredForQuery      // "Email is required" on the email query
      // the store
    | DuplicateKey               // adding an entity whose key is already stored
    | ConcurrencyConflict        // updating an entity that is not stored
}

/** The two character tests of .NET that the core relies on. */
module Text {
  import opened Wrappers

  /** .NET `char.IsWhiteSpace`: the Unicode space, line and paragraph
      separators, U+0009..U+000D and U+0085. */
  predicate IsWhiteSpace(c: char) {
    || ('\U{9}' <= c <= '\U{D}')
    || c == ' ' || c == '\U{85}' || c == '\U{A0}' || c == '\U{1680}'
    || ('\U{2000}' <= c <= '\U{200A}')
    || c == '\U{2028}' || c == '\U{2029}' || c == '\U{202F}' || c == '\U{205F}' || c == '\U{3000}'
  }

  /** `string.IsNullOrWhiteSpace` on a string that is known not to be null. */
  predicate IsBlank(s: string) {
    forall i :: 0 <= i < |s| ==> IsWhiteSpace(s[i])
  }

  /** `string.IsNullOrWhiteSpace`: `None` is C#'s `null`. */
  predicate IsNullOrWhiteSpace(s: Option<string>) {
    s.None? || IsBlank(s.value)
  }

  /** `char.IsDigit`, restricted to the ASCII digits. */
  predicate IsDigit(c: char) {
    '0' <= c <= '9'
  }
}
