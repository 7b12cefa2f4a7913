/** The Java exceptions that can reach the REST boundary, by the handler that
    catches them. A Java exception message may be null, hence Option. */
module Faults {
  import opened Wrappers

  datatype Fault =
    | IllegalArgument(message: Option<string>)
    | NullPointer(message: Option<string>)
    | Other(message: Option<string>)

  /** The message ThreadLocalRandom puts in the IllegalArgumentException it throws
      when asked to draw from an empty range. */
  const BadRangeMessage: string := "bound must be greater than origin"

  const BadRange: Fault := IllegalArgument(Some(BadRangeMessage))
}
