/**
 * The duration converter: a signed duration in some `TimeUnit` becomes a
 * number of milliseconds, in Java `int` arithmetic.
 */
module TimeUtils {
  import opened Platform

  /** `java.util.concurrent.TimeUnit`. */
  datatype TimeUnit = Nanoseconds | Microseconds | Milliseconds | Seconds | Minutes | Hours | Days

  /** The `IllegalArgumentException` thrown for a unit the converter does not handle. */
  datatype ConvertError = InvalidUnit

  /** The units the converter handles. */
  predicate Supported(unit: TimeUnit) {
    unit == Milliseconds || unit == Seconds
  }

  /** The largest number of seconds whose millisecond count fits in a Java `int`. */
  const MAX_EXACT_SECONDS: int32 := 2147483

  /**
   * `convertToMilliseconds`: a non-positive value is 0 whatever the unit;
   * otherwise milliseconds pass through, seconds are multiplied by 1000 with
   * Java's 32-bit wrap-around, and every other unit throws.
   */
  function ConvertToMilliseconds(value: int32, unit: TimeUnit): (r: Result<int32, ConvertError>)
    ensures r.Err? <==> value > 0 && !Supported(unit)
    ensures r.Err? ==> r.error == InvalidUnit
  {
    if value <= 0 then Ok(0)
    else match unit
      case Milliseconds => Ok(value)
      case Seconds => Ok(Wrap32(value as int * 1000))
      case _ => Err(InvalidUnit)
  }

  /** The guard precedes the switch: a non-positive value is 0 even for an unsupported unit. */
  lemma NonPositiveIsZero(value: int32, unit: TimeUnit)
    requires value <= 0
    ensures ConvertToMilliseconds(value, unit) == Ok(0)
  {
  }

  /** Milliseconds are the identity on positive values. */
  lemma MillisecondsIdentity(value: int32)
    requires value > 0
    ensures ConvertToMilliseconds(value, Milliseconds) == Ok(value)
  {
  }

  /** Seconds are scaled by 1000 as long as the product fits in an `int`. */
  lemma SecondsScale(value: int32)
    requires 0 < value <= MAX_EXACT_SECONDS
    ensures ConvertToMilliseconds(value, Seconds).Ok?
    ensures ConvertToMilliseconds(value, Seconds).value as int == value as int * 1000
  {
  }

  /** Every unit other than milliseconds and seconds throws on a positive value. */
  lemma UnsupportedUnitFails(value: int32, unit: TimeUnit)
    requires value > 0 && unit != Milliseconds && unit != Seconds
    ensures ConvertToMilliseconds(value, unit) == Err(InvalidUnit)
  {
  }

  /**
   * For a supported unit, and in seconds as long as the product does not
   * overflow, the result is 0 exactly when the value is non-positive.
   */
  lemma ZeroIffNonPositive(value: int32, unit: TimeUnit)
    requires Supported(unit) && (unit == Seconds ==> value <= MAX_EXACT_SECONDS)
    ensures ConvertToMilliseconds(value, unit).Ok?
    ensures ConvertToMilliseconds(value, unit).value == 0 <==> value <= 0
  {
    if value > 0 && unit == Seconds {
      SecondsScale(value);
    }
  }

  /**
   * Beyond `MAX_EXACT_SECONDS` the multiplication wraps: 2147484 seconds come
   * out negative, and 536870912 seconds (1000 times that is 125 * 2^32) come
   * out as exactly 0.
   */
  lemma SecondsWrapAround()
    ensures ConvertToMilliseconds(MAX_EXACT_SECONDS + 1, Seconds) == Ok(-2147483296)
    ensures ConvertToMilliseconds(536870912, Seconds) == Ok(0)
  {
  }
}
