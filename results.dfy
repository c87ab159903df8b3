/** The error values the client library hands back, and the (value, error) pair of every
    Go method in the legacy package written as one sum type. */
module Results {

  /** Every error the modelled code can return. The exact message text is not modelled;
      each constructor carries what distinguishes one error from another. */
  datatype Error =
    | NotSet(variable: string)      // "<NAME> not set." from the configuration loader
    | Transport(cause: string)      // an error from the HTTP call, propagated unchanged
    | UnsupportedValue              // encoding/json refusing a NaN or infinite float64
    | ApiError(code: int)           // "API Error: <code>" from an "error" response status
    | NoRecordsFound                // "No Records Found"

  /** A Go `(*T, error)` or `([]T, error)` result: exactly one side is meaningful. */
  datatype Result<+T> = Ok(value: T) | Err(error: Error)
}
