/** Optional values and the errors the ledger's operations answer with. */
module Wrappers {

  datatype Option<+T> = None | Some(value: T)

  datatype Error =
    | ReadOnly | InvalidSource | TooManyObservations | CompactTooLarge | CompactAttributed
    | NoObservationTime | UnknownTimezone | StorageLimit | TimezoneChanged | SourceChanged
    | SourceMismatch | BindingChanged | TooManySources | InvalidEvent | InvalidDelta
    | UnsupportedGranularity | MisalignedDay | CounterOverflow | CoverageTooLong | InvalidCheckpoint

  datatype Result<+T> = Ok(value: T) | Err(error: Error)
}
