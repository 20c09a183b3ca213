/** Shared vocabulary of the model: optional values, identifiers and time. */
module Base {

  /** A value that may be null or absent in a stored row or a form. */
  datatype Option<+T> = None | Some(value: T) {

    /** The value, or `default` when there is none (the source's `x || d` and `x ?? d`). */
    function GetOr(default: T): T {
      match this
      case Some(v) => v
      case None => default
    }
  }

  /** Row identifiers. The remote store generates them; the model allocates them from a counter. */
  type Id = nat

  /** A calendar date, as a day number (the date parsing of the source is not modelled). */
  type Day = int

  /** A point in time, in milliseconds. */
  type Instant = int

  const MS_PER_DAY: int := 86_400_000
}
