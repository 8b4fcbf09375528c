/** The severity of a log message, shared by the synchronous and the asynchronous logger. */
module Levels {

  /** An integer that is none of the enumerators' values 0, 1 and 2. */
  type OtherCode = c: int | c < 0 || 2 < c witness 3

  /** The enumerators INFO, WARNING and ERROR of `Logger::Level`. An enum value outside
      them (a cast from an integer other than 0, 1 or 2) is `Other(code)`; it reaches the
      `default` branch of both label tables. */
  datatype Level = Info | Warning | Error | Other(code: OtherCode)
}
