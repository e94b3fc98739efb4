/**
 * Options of a timer and their normalisation (`Timer.prototype.__genOptions`).
 * The source receives an untyped object; here each numeric option is either
 * missing, a value that is not a number, or an integer, and each named option
 * is missing, one of the recognised names, or some other name.
 */
module Options {
  import opened Wrappers
  import opened Strategy

  /** What a tick does once the timer has overrun (`options.overrun`). */
  datatype Overrun = OverrunStop | OverrunReset | OverrunOverload

  /** A numeric option as passed in: absent, not a number (`isNaN`), or a number. */
  datatype RawNumber = Missing | NonNumeric | Num(value: int)

  /** A named option as passed in: absent, a recognised name (in any letter case), or anything else. */
  datatype Named<T> = Unnamed | Name(name: T) | Unrecognised

  datatype RawOptions = RawOptions(
    seed: RawNumber,
    delay: RawNumber,
    strategy: Named<Strategy>,
    maxAttempts: RawNumber,
    maxDelay: RawNumber,
    overrun: Named<Overrun>,
    autostart: bool)

  /**
   * Normalised options. `maxDelay == None` stands for the source's
   * `Infinity`, an unbounded delay.
   */
  datatype Options = Options(
    seed: int,
    delay: int,
    strategy: Strategy,
    maxAttempts: int,
    maxDelay: Option<int>,
    overrun: Overrun,
    autostart: bool)

  /** What the source stores as `options.overrun`: a recognised value, or `undefined`. */
  datatype StoredOverrun = Known(overrun: Overrun) | Undefined

  const DefaultSeed: int := 1000
  const DefaultDelay: int := 1000

  /** The options of a timer constructed without an options object. */
  const NoOptions: RawOptions := RawOptions(Missing, Missing, Unnamed, Missing, Missing, Unnamed, false)

  /** A missing or non-numeric seed or delay falls back to its default; a number is kept. */
  function NumberOr(x: RawNumber, default: int): int {
    if x.Num? then x.value else default
  }

  /** An unrecognised or missing strategy becomes "da yan". */
  function NormalizeStrategy(x: Named<Strategy>): Strategy {
    if x.Name? then x.name else Dayan
  }

  /**
   * The overrun setting as lib/timer.js stores it: a missing setting takes
   * the default 'overload', but an unrecognised one is replaced by
   * `Timer.strategy.OVERLOAD`, which does not exist, so `undefined` is stored.
   */
  function NormalizeOverrunAsWritten(x: Named<Overrun>): StoredOverrun {
    match x
    case Unnamed => Known(OverrunOverload)
    case Name(o) => Known(o)
    case Unrecognised => Undefined
  }

  /** The overrun setting as evidently intended: anything unrecognised becomes 'overload'. */
  function NormalizeOverrun(x: Named<Overrun>): (o: Overrun)
    ensures !x.Name? ==> o == OverrunOverload
    ensures NormalizeOverrunAsWritten(x) == Known(o) || NormalizeOverrunAsWritten(x) == Undefined
  {
    if x.Name? then x.name else OverrunOverload
  }

  /**
   * A missing, zero, non-numeric or over-ceiling `maxAttempts` becomes the
   * ceiling; any other number, negative ones included, is kept.
   */
  function NormalizeMaxAttempts(x: RawNumber, ceiling: int): int {
    if x.Num? && x.value != 0 && x.value <= ceiling then x.value else ceiling
  }

  /** A missing, zero or non-numeric `maxDelay` becomes unbounded. */
  function NormalizeMaxDelay(x: RawNumber): Option<int> {
    if x.Num? && x.value != 0 then Some(x.value) else None
  }

  /** `__genOptions`: every input yields options; none is rejected. */
  function Normalize(raw: RawOptions): (o: Options)
    ensures o.maxAttempts <= DefaultMaxAttempts(o.strategy)
    ensures o.maxDelay != Some(0)
    ensures o.maxAttempts != 0
    ensures o.autostart == raw.autostart
  {
    var strategy := NormalizeStrategy(raw.strategy);
    Options(
      NumberOr(raw.seed, DefaultSeed),
      NumberOr(raw.delay, DefaultDelay),
      strategy,
      NormalizeMaxAttempts(raw.maxAttempts, DefaultMaxAttempts(strategy)),
      NormalizeMaxDelay(raw.maxDelay),
      NormalizeOverrun(raw.overrun),
      raw.autostart)
  }

  /** The options the timer's arithmetic needs: a non-negative seed and at least one attempt. */
  predicate ValidOptions(o: Options) {
    o.seed >= 0 && o.maxAttempts >= 1
  }

  /** Raw options outside the modelled range: a negative seed or a negative `maxAttempts`. */
  predicate Supported(raw: RawOptions) {
    !(raw.seed.Num? && raw.seed.value < 0) && !(raw.maxAttempts.Num? && raw.maxAttempts.value < 0)
  }

  /** The raw options that spell out `o` field by field. */
  function AsRaw(o: Options): RawOptions {
    RawOptions(
      Num(o.seed),
      Num(o.delay),
      Name(o.strategy),
      Num(o.maxAttempts),
      if o.maxDelay.Some? then Num(o.maxDelay.value) else Missing,
      Name(o.overrun),
      o.autostart)
  }

  /** Without an options object every field takes its documented default. */
  lemma DefaultOptions()
    ensures Normalize(NoOptions) == Options(1000, 1000, Dayan, 141, None, OverrunOverload, false)
  {
  }

  /** A seed or delay that is missing or not a number becomes 1000; a number is kept. */
  lemma SeedAndDelayDefaults(raw: RawOptions)
    ensures Normalize(raw).seed == (if raw.seed.Num? then raw.seed.value else 1000)
    ensures Normalize(raw).delay == (if raw.delay.Num? then raw.delay.value else 1000)
  {
  }

  /** Only a recognised strategy name survives; everything else becomes "da yan". */
  lemma StrategyFallback(raw: RawOptions)
    ensures Normalize(raw).strategy == Dayan <==> raw.strategy != Name(Procession) && raw.strategy != Name(Fibonacci) && raw.strategy != Name(Lucas)
    ensures raw.strategy.Name? ==> Normalize(raw).strategy == raw.strategy.name
  {
  }

  /**
   * `maxAttempts` becomes the strategy's ceiling exactly when it is missing,
   * zero, not a number, or at least the ceiling; a positive number up to the
   * ceiling is kept.
   */
  lemma MaxAttemptsClamp(raw: RawOptions)
    ensures var o := Normalize(raw);
      o.maxAttempts == DefaultMaxAttempts(o.strategy) <==>
        !raw.maxAttempts.Num? || raw.maxAttempts.value == 0 || raw.maxAttempts.value >= DefaultMaxAttempts(o.strategy)
    ensures var o := Normalize(raw);
      raw.maxAttempts.Num? && 0 < raw.maxAttempts.value <= DefaultMaxAttempts(o.strategy) ==> o.maxAttempts == raw.maxAttempts.value
  {
  }

  /** A `maxAttempts` of 10 is below every ceiling, so it is kept whatever the strategy. */
  lemma TenAttemptsKept(raw: RawOptions)
    requires raw.maxAttempts == Num(10)
    ensures Normalize(raw).maxAttempts == 10
  {
  }

  /** `maxDelay` is unbounded exactly when it is missing, zero or not a number. */
  lemma MaxDelayUnbounded(raw: RawOptions)
    ensures Normalize(raw).maxDelay.None? <==> !raw.maxDelay.Num? || raw.maxDelay.value == 0
    ensures Normalize(raw).maxDelay.Some? ==> Normalize(raw).maxDelay == Some(raw.maxDelay.value)
  {
  }

  /** Normalising options that are already normal changes nothing. */
  lemma NormalizeIdempotent(raw: RawOptions)
    ensures Normalize(AsRaw(Normalize(raw))) == Normalize(raw)
  {
  }

  /** Supported raw options normalise to options the timer can run on. */
  lemma SupportedIsValid(raw: RawOptions)
    requires Supported(raw)
    ensures ValidOptions(Normalize(raw))
  {
  }

  /**
   * As written, an unrecognised overrun is stored as `undefined`, not as
   * 'overload' (the value a test of the repository expects for `overrun: 'scribbled'`).
   */
  lemma OverrunFallbackAsWritten()
    ensures NormalizeOverrunAsWritten(Unrecognised) == Undefined
    ensures NormalizeOverrunAsWritten(Unrecognised) != Known(OverrunOverload)
  {
  }

  /**
   * The corrected normalisation stores 'overload' for an unrecognised
   * overrun and agrees with the source on every other input.
   */
  lemma OverrunFallbackCorrected(x: Named<Overrun>)
    ensures x == Unrecognised ==> NormalizeOverrun(x) == OverrunOverload
    ensures x != Unrecognised ==> NormalizeOverrunAsWritten(x) == Known(NormalizeOverrun(x))
  {
  }
}
