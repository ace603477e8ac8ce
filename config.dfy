/**
 * Validation and defaulting of the server options `secret`, `max`,
 * `maxSize` and `timeout`, done before anything else is built.
 */
module Config {
  import opened Common
  import opened Js

  /** The options the checks look at (`host`, `port`, `maxAge` and `abortSignal` pass through unchecked). */
  datatype Options = Options(secret: JsValue, max: NumericValue, maxSize: NumericValue, timeout: NumericValue)

  datatype Field = Secret | Max | MaxSize

  /** A rejection with error code `EARG`, naming the option that was wrong. */
  datatype ConfigError = Earg(field: Field)

  /** The normalised options the server runs with. */
  datatype Settings = Settings(secret: string, max: real, maxSize: int, timeout: real)

  /** 3 MiB */
  const DEFAULT_MAX_SIZE: int := 1024 * 1024 * 3
  /** milliseconds */
  const DEFAULT_TIMEOUT: real := 5000.0

  predicate IsNonEmptyString(v: JsValue)
  {
    v.Str? && |v.s| > 0
  }

  /** A `max` the server accepts: a number of at least one. */
  predicate AcceptableMax(v: NumericValue)
  {
    v.Num? && v.n >= 1.0
  }

  /** A `maxSize` the server accepts as written: absent, NaN, or a number of at least one. */
  predicate AcceptableMaxSize(v: NumericValue)
  {
    v.Undefined? || v.NaN? || (v.Num? && v.n >= 1.0)
  }

  /** The `timeout` in use: the given number, or 5000 when absent, NaN or null. */
  function TimeoutOf(v: NumericValue): real
  {
    if v.Num? then v.n else DEFAULT_TIMEOUT
  }

  /**
   * The checks as the server performs them, in order. The `maxSize` test
   * reads `max === null` where `maxSize === null` was evidently meant, and
   * `maxSize |= 0` wraps at 2^31.
   */
  function Validate(o: Options): (r: Result<Settings, ConfigError>)
    ensures !IsNonEmptyString(o.secret) ==> r == Err(Earg(Secret))
    ensures IsNonEmptyString(o.secret) && !AcceptableMax(o.max) ==> r == Err(Earg(Max))
    ensures IsNonEmptyString(o.secret) && AcceptableMax(o.max) && !AcceptableMaxSize(o.maxSize)
      ==> r == Err(Earg(MaxSize))
    ensures r.Ok? <==> IsNonEmptyString(o.secret) && AcceptableMax(o.max) && AcceptableMaxSize(o.maxSize)
    ensures r.Ok? ==> r.value.secret == o.secret.s && r.value.max == o.max.n && 1.0 <= r.value.max
    ensures r.Ok? ==> r.value.maxSize == (if o.maxSize.Num? then ToInt32(o.maxSize.n) else DEFAULT_MAX_SIZE)
    ensures r.Ok? ==> r.value.timeout == TimeoutOf(o.timeout)
  {
    if !o.secret.Str? || |o.secret.s| == 0 then
      Err(Earg(Secret))
    else if IsNaN(o.max) || o.max == Null || LessThan(o.max, 1.0) then
      Err(Earg(Max))
    else if !(IsNaN(o.maxSize) || o.max == Null) && !AtLeast(o.maxSize, 1.0) then
      Err(Earg(MaxSize))
    else
      var maxSize :=
        if IsNaN(o.maxSize) || o.max == Null then DEFAULT_MAX_SIZE
        else ToInt32(ToNumber(o.maxSize).value);
      var timeout :=
        if IsNaN(o.timeout) || o.timeout == Null then DEFAULT_TIMEOUT
        else ToNumber(o.timeout).value;
      Ok(Settings(o.secret.s, ToNumber(o.max).value, maxSize, timeout))
  }

  /**
   * The checks as evidently intended: a null `maxSize` takes the default
   * like an absent one, and a `maxSize` of at least one is floored without
   * wrapping.
   */
  function ValidateIntended(o: Options): (r: Result<Settings, ConfigError>)
    ensures !IsNonEmptyString(o.secret) ==> r == Err(Earg(Secret))
    ensures IsNonEmptyString(o.secret) && !AcceptableMax(o.max) ==> r == Err(Earg(Max))
    ensures IsNonEmptyString(o.secret) && AcceptableMax(o.max) && !o.maxSize.Null? && !AcceptableMaxSize(o.maxSize)
      ==> r == Err(Earg(MaxSize))
    ensures r.Ok? <==> IsNonEmptyString(o.secret) && AcceptableMax(o.max) && (o.maxSize.Null? || AcceptableMaxSize(o.maxSize))
    ensures r.Ok? ==> r.value.secret == o.secret.s && r.value.max == o.max.n && 1.0 <= r.value.max
    ensures r.Ok? ==> 1 <= r.value.maxSize && r.value.timeout == TimeoutOf(o.timeout)
    ensures r.Ok? && o.maxSize.Num? ==> r.value.maxSize as real <= o.maxSize.n < r.value.maxSize as real + 1.0
    ensures r.Ok? && !o.maxSize.Num? ==> r.value.maxSize == DEFAULT_MAX_SIZE
  {
    if !o.secret.Str? || |o.secret.s| == 0 then
      Err(Earg(Secret))
    else if IsNaN(o.max) || o.max == Null || LessThan(o.max, 1.0) then
      Err(Earg(Max))
    else if !(IsNaN(o.maxSize) || o.maxSize == Null) && !AtLeast(o.maxSize, 1.0) then
      Err(Earg(MaxSize))
    else
      var maxSize :=
        if IsNaN(o.maxSize) || o.maxSize == Null then DEFAULT_MAX_SIZE
        else ToNumber(o.maxSize).value.Floor;
      var timeout :=
        if IsNaN(o.timeout) || o.timeout == Null then DEFAULT_TIMEOUT
        else ToNumber(o.timeout).value;
      Ok(Settings(o.secret.s, ToNumber(o.max).value, maxSize, timeout))
  }

  /** Outside the two defects, the checks as written and as intended agree. */
  lemma IntendedAgreesBelowWrap(o: Options)
    requires !o.maxSize.Null?
    requires o.maxSize.Num? ==> o.maxSize.n < TWO_31 as real
    ensures Validate(o) == ValidateIntended(o)
  {
    if o.maxSize.Num? && o.maxSize.n >= 1.0 {
      ToInt32InRange(o.maxSize.n);
    }
  }

  /** As written, a null `maxSize` is rejected although a null `timeout` takes its default. */
  lemma NullMaxSizeRejected(secret: string, max: real, timeout: NumericValue)
    requires |secret| > 0 && max >= 1.0
    ensures Validate(Options(Str(secret), Num(max), Null, timeout)) == Err(Earg(MaxSize))
    ensures ValidateIntended(Options(Str(secret), Num(max), Null, timeout)).Ok?
  {
  }

  /** As written, an accepted `maxSize` of 2^31 becomes -2^31 and one of 2^32 becomes 0. */
  lemma LargeMaxSizeWraps(secret: string, max: real, timeout: NumericValue)
    requires |secret| > 0 && max >= 1.0
    ensures Validate(Options(Str(secret), Num(max), Num(TWO_31 as real), timeout)).Ok?
    ensures Validate(Options(Str(secret), Num(max), Num(TWO_31 as real), timeout)).value.maxSize == -TWO_31
    ensures Validate(Options(Str(secret), Num(max), Num(TWO_32 as real), timeout)).value.maxSize == 0
  {
  }

  /** The four broken configurations the server must refuse before listening. */
  lemma BrokenConfigsRejected()
    ensures Validate(Options(Undefined, Undefined, Undefined, Undefined)) == Err(Earg(Secret))
    ensures Validate(Options(Str("abcd"), Undefined, Undefined, Undefined)) == Err(Earg(Max))
    ensures Validate(Options(Str("abcd"), Num(0.0), Undefined, Undefined)) == Err(Earg(Max))
    ensures Validate(Options(Str("abcd"), Num(1.0), Num(0.0), Undefined)) == Err(Earg(MaxSize))
  {
  }

  /** How many entries the store may hold: a count fits under `max` exactly when it fits under this. */
  function Capacity(s: Settings): (c: nat)
    requires 1.0 <= s.max
    ensures 1 <= c && c as real <= s.max < c as real + 1.0
  {
    s.max.Floor
  }

  lemma CapacityBound(s: Settings, n: nat)
    requires 1.0 <= s.max
    ensures n <= Capacity(s) <==> n as real <= s.max
  {
  }
}
