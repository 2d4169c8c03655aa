/** Small shared vocabulary: optional values, outcomes of remote calls, and
    the JavaScript "falsy" fallbacks the dashboard leans on (`x || d`). */
module Common {

  /** A nullable value (`null`/`undefined` in the source). */
  datatype Option<+T> = None | Some(value: T) {
    function GetOr(default: T): T {
      match this
      case Some(v) => v
      case None => default
    }
  }

  /** The outcome of a call into the hosted backend: it either succeeds or
      reports an error message. */
  datatype Outcome = Pass | Fail(message: string)

  /** The result of a backend query: the rows, or an error message. */
  datatype Result<+T> = Ok(value: T) | Err(message: string)

  /** The attendance status of one daily log (the six options of the daily
      entry form). */
  datatype Status = Present | Late | Absent | Leave | DayOff | ExtraShift

  /** Amounts read from the backend: money in Kwacha, shift counts (entered
      in half-shift steps) and day counts. */
  type Amount = real

  /** A string is truthy in JavaScript exactly when it is not empty. */
  predicate Truthy(s: string) {
    s != ""
  }

  /** A nullable string is truthy when it is present and not empty. */
  predicate TruthyOpt(o: Option<string>) {
    o.Some? && o.value != ""
  }

  /** `s || fallback` for a string `s`. */
  function OrElse(s: string, fallback: string): (r: string)
    ensures Truthy(s) ==> r == s
    ensures !Truthy(s) ==> r == fallback
  {
    if s != "" then s else fallback
  }

  /** `o || fallback` for a nullable string `o`. */
  function OptOrElse(o: Option<string>, fallback: string): (r: string)
    ensures TruthyOpt(o) ==> r == o.value
    ensures !TruthyOpt(o) ==> r == fallback
  {
    if TruthyOpt(o) then o.value else fallback
  }

  /** `o || null` for a nullable string: the empty string becomes null. */
  function NullIfEmpty(o: Option<string>): (r: Option<string>)
    ensures r.Some? <==> TruthyOpt(o)
    ensures r.Some? ==> r == o
  {
    if TruthyOpt(o) then o else None
  }
}
