/**
  Small value types shared by every layer of the model.

  JavaScript distinguishes a key that is missing from an object (`undefined`)
  from a key holding `null`; the source relies on both, so both are kept apart:
  - `Field<T>`    an object key that may be missing (`T | undefined` as a property);
  - `Nullable<T>` a column value that may be SQL NULL / JS `null`;
  - `Option<T>`   a function result that may be `undefined`.
 */
module Common {

  /** A function result that may be `undefined` (`None`). */
  datatype Option<+T> = None | Some(value: T)

  /** An object property that may be missing (`Absent`, i.e. `undefined`). */
  datatype Field<+T> = Absent | Present(value: T)

  /** A value that may be `null`. */
  datatype Nullable<+T> = Null | NonNull(value: T)

  /** Success or failure of a validation step. */
  datatype Result<+T, +E> = Success(value: T) | Failure(error: E)

  /** How a call settles: it returns a value or throws an Error carrying a message. */
  datatype Outcome<+T> = Returned(value: T) | Threw(message: string)

  /**
    A `Date`, kept opaque: the milliseconds since the epoch. Clock readings
    (`new Date()`) are supplied by the caller; no calendar arithmetic is modelled.
   */
  datatype Timestamp = Instant(millis: int)

  /** The spread `{...old, ...patch}` on one key: a present key overrides. */
  function Override<T>(current: T, patch: Field<T>): T
  {
    match patch
    case Present(v) => v
    case Absent => current
  }
}
