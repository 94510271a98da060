/** Values shared by every module: optional JSON fields, Python truthiness of
    the fields the processor tests with `if not x`, and time as integer UTC
    seconds. */
module Basics {

  /** A JSON field that may be absent (or null). */
  datatype Option<+T> = None | Some(value: T)

  /** Python truthiness of an optional string: absent, null and "" are all false. */
  predicate IsTruthy(o: Option<string>)
  {
    o.Some? && o.value != ""
  }

  /** Python truthiness of an optional integer: absent, null and 0 are all false. */
  predicate IsTruthyInt(o: Option<int>)
  {
    o.Some? && o.value != 0
  }

  const SecondsPerDay: int := 86400

  /** `timedelta(days=30)` in seconds. */
  const ThirtyDays: int := 30 * SecondsPerDay

  /** 0001-01-01T00:00:00Z, the earliest instant a `datetime` can hold. */
  const MinTimestamp: int := -62135596800

  /** 9999-12-31T23:59:59Z, the latest whole second a `datetime` can hold. */
  const MaxTimestamp: int := 253402300799

  /** Whether `datetime.fromtimestamp(t, tz=timezone.utc)` returns rather than raises. */
  predicate InDatetimeRange(t: int)
  {
    MinTimestamp <= t <= MaxTimestamp
  }
}
