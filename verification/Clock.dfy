/**
 * Times as numbers. Module ClockText proves that `After` is what comparing the stored texts decides, and
 * where that differs from comparing the numbers.
 */
module Clock {
  /** The first and the last millisecond that a text of 24 characters can hold: years 0 to 9999. */
  const STAMP_MIN: int := -62_167_219_200_000
  const STAMP_MAX: int := 253_402_300_799_999

  /** The furthest a date can be from 1970. */
  const DATE_MAX: int := 8_640_000_000_000_000

  const DAY_MS: int := 86_400_000

  /** How long a component session stays fresh, and how long a stored object must be retained. */
  const TTL_MS := 900_000
  const RETENTION_MS := 2557 * DAY_MS

  predicate IsStamp(ms: int) {
    STAMP_MIN <= ms <= STAMP_MAX
  }

  predicate IsDate(ms: int) {
    -DATE_MAX <= ms <= DATE_MAX
  }

  /** The text of `now` sorts after the text of `stamp`. */
  predicate After(now: int, stamp: int) {
    stamp < now <= STAMP_MAX
  }
}
