/**
 * Fuel\Common\Date: a mutable moment (a Unix timestamp plus the timezone attached to it)
 * and the class-wide configuration it shares (default timezone, GMT offset, output
 * encoding, format aliases, last parse diagnostics).
 *
 * The platform's date library is not modelled: the timezone database, UTC offsets,
 * the free-text, token-format and strptime parsers, strftime, the token formatter,
 * calendar interval arithmetic, time() and charset conversion are fields of a
 * `Platform` value passed to every operation that consults them.
 */
module Dates {
  import opened Wrappers
  import Ascii

  /** A resolved DateTimeZone. */
  datatype Tz = Tz(name: string)

  /** A timezone argument that is not null: an identifier or a DateTimeZone object. */
  datatype TzSpec = Named(name: string) | Zone(zone: Tz)

  /** What the source throws, or returns `false` for. */
  datatype DateError =
    | InvalidTimezone(name: string)   // `new DateTimeZone($name)` throws
    | InvalidMoment(text: string)     // `new DateTime($text)` throws
    | OutOfRange                      // createFromFormat: mktime() failed (OutOfBoundsException)
    | NotAnInterval                   // add/sub given neither a number nor a DateInterval
    | Unparsed                        // createFromFormat returns false

  /** What DateTime::getLastErrors() reports. */
  datatype Diagnostics = Diagnostics(warnings: seq<string>, errors: seq<string>)

  const NoDiagnostics := Diagnostics([], [])

  /** The outcome of one platform parse: the instant, if any, and its diagnostics. */
  datatype ParseResult = ParseResult(stamp: Option<int>, diagnostics: Diagnostics)

  /** strptime() fails; or it succeeds and mktime() converts the fields; or mktime() fails. */
  datatype StrptimeStage = NoMatch | Converted | MktimeFailed

  /** A DateInterval: calendar and clock units plus the sign flag. */
  datatype Interval = Interval(years: nat, months: nat, days: nat,
                               hours: nat, minutes: nat, seconds: nat, invert: bool)

  datatype Platform = Platform(
    now: int,                                       // time()
    systemTimezone: string,                         // date_default_timezone_get()
    resolve: string -> Option<Tz>,                  // new DateTimeZone($name)
    offset: (Tz, int) -> int,                       // DateTimeZone::getOffset at an instant
    parse: (string, Tz) -> ParseResult,             // new DateTime($text, $tz)
    parseWithFormat: (string, string, Tz) -> ParseResult, // DateTime::createFromFormat
    strptime: (string, string) -> StrptimeStage,    // strptime() followed by mktime()
    referenceInstant: Tz -> int,                    // new DateTime("2013-01-01 12:00:00", $tz)
    addToText: (string, int) -> string,             // PHP's `$time += $delta` on the input text
    calendarAdd: (int, Tz, Interval) -> Option<int>, // DateTime::add with calendar units
    tokenFormat: (string, int, Tz) -> string,       // DateTime::format
    strftime: (string, int) -> string,              // strftime()
    transcode: (string, string) -> string)          // utf8_encode / iconv to the named charset

  /** The recognised keys of the constructor's `$config` array; `None` when the key is not set. */
  datatype Config = Config(gmtOffset: Option<int>, encoding: Option<string>,
                           defaultTimezone: Option<TzSpec>, patterns: Option<map<string, string>>)

  const NoConfig := Config(None, None, None, None)

  /**
   * The constructor's `$time`: null, a numeric value, a string, or an existing DateTime.
   * `Numeric` stands for every value PHP's is_numeric accepts, numeric strings such as
   * "1341144000" included; `Text` holds non-numeric strings only.
   */
  datatype TimeArg = NullTime | Numeric(n: int) | Text(text: string) | Existing(ts: int, zone: Tz)

  /** `$time` after normalisation: an `'@'` timestamp, free text, or a DateTime kept as is. */
  datatype DateInput = AtStamp(n: int) | FreeText(text: string) | Instance(ts: int, zone: Tz)

  /** The interval argument of add/sub. */
  datatype IntervalArg = Seconds(n: int) | Given(interval: Interval) | OtherValue

  /** format()'s `$timezone`: `true`, a timezone name, a DateTimeZone, or a falsy value. */
  datatype OutputZone = DefaultZone | NamedZone(name: string) | GivenZone(zone: Tz) | CurrentZone

  /** What a fluent method returns: the object, `false`, or an exception. */
  datatype Step = Chained | ReturnedFalse | Threw(error: DateError)

  datatype Moment = Moment(ts: int, zone: Tz)

  // ---------------------------------------------------------------------------------------
  // Timezones and format aliases

  /** `new DateTimeZone($name)` for a name; a DateTimeZone object is used as is. */
  function ResolveSpec(spec: TzSpec, p: Platform): (r: Result<Tz, DateError>)
    ensures spec.Zone? ==> r == Success(spec.zone)
    ensures spec.Named? ==> (r.Success? <==> p.resolve(spec.name) != None)
    ensures spec.Named? && r.Success? ==> Some(r.value) == p.resolve(spec.name)
    ensures r.Failure? ==> spec.Named? && r.error == InvalidTimezone(spec.name)
  {
    match spec
    case Zone(z) => Success(z)
    case Named(n) =>
      match p.resolve(n)
      case Some(z) => Success(z)
      case None => Failure(InvalidTimezone(n))
  }

  /** A possibly-null timezone argument: null selects the default timezone. */
  function RequestedZone(arg: Option<TzSpec>, default: Tz, p: Platform): (r: Result<Tz, DateError>)
    ensures arg == None ==> r == Success(default)
    ensures arg != None ==> r == ResolveSpec(arg.value, p)
  {
    if arg.None? then Success(default) else ResolveSpec(arg.value, p)
  }

  /** A format name that is a key of the pattern table is replaced by its pattern. */
  function LookupFormat(patterns: map<string, string>, format: string): (r: string)
    ensures format in patterns ==> r == patterns[format]
    ensures format !in patterns ==> r == format
    ensures r in patterns.Values || r == format
  {
    if format in patterns then patterns[format] else format
  }

  /** The dialect test: a format containing `%` is a strftime/strptime format. */
  predicate IsLocaleFormat(format: string) {
    '%' in format
  }

  // ---------------------------------------------------------------------------------------
  // Intervals

  function Abs(n: int): nat { if n < 0 then -n else n }

  function ClockSeconds(iv: Interval): nat {
    3600 * iv.hours + 60 * iv.minutes + iv.seconds
  }

  predicate IsClockOnly(iv: Interval) {
    iv.years == 0 && iv.months == 0 && iv.days == 0
  }

  /** The signed number of seconds a clock-only interval stands for. */
  function SignedSeconds(iv: Interval): int {
    if iv.invert then 0 - ClockSeconds(iv) else ClockSeconds(iv)
  }

  /** `new DateInterval('PT'.abs($n).'S')`, with `invert` set when `$n` is negative. */
  function SecondsInterval(n: int): (iv: Interval)
    ensures IsClockOnly(iv) && iv.hours == 0 && iv.minutes == 0
    ensures iv.seconds == Abs(n) && iv.invert == (n < 0)
    ensures SignedSeconds(iv) == n
  {
    var iv := Interval(0, 0, 0, 0, 0, Abs(n), false);
    if n < 0 then iv.(invert := true) else iv
  }

  function Negated(iv: Interval): Interval {
    iv.(invert := !iv.invert)
  }

  /**
   * DateTime::add. A clock-only interval moves the instant by its elapsed seconds;
   * one with calendar units is left to the platform, which may fail.
   */
  function Shift(ts: int, zone: Tz, iv: Interval, p: Platform): (r: Option<int>)
    ensures IsClockOnly(iv) ==> r == Some(ts + SignedSeconds(iv))
  {
    if IsClockOnly(iv) then Some(ts + SignedSeconds(iv)) else p.calendarAdd(ts, zone, iv)
  }

  /** DateTime::sub: adding the interval with its sign flag flipped. */
  function Unshift(ts: int, zone: Tz, iv: Interval, p: Platform): (r: Option<int>)
    ensures IsClockOnly(iv) ==> r == Some(ts - SignedSeconds(iv))
  {
    Shift(ts, zone, Negated(iv), p)
  }

  /** add()/sub(): a number becomes a seconds interval; anything else but a DateInterval throws. */
  function IntervalOf(arg: IntervalArg): (r: Result<Interval, DateError>)
    ensures arg.Seconds? ==> r.Success? && IsClockOnly(r.value) && SignedSeconds(r.value) == arg.n
    ensures arg.Given? ==> r == Success(arg.interval)
    ensures arg.OtherValue? ==> r == Failure(NotAnInterval)
  {
    match arg
    case Seconds(n) => Success(SecondsInterval(n))
    case Given(iv) => Success(iv)
    case OtherValue => Failure(NotAnInterval)
  }

  /** add(n) followed by sub(n) with an integer n gives back the instant it started from. */
  lemma AddThenSubRestores(ts: int, zone: Tz, n: int, p: Platform)
    ensures IntervalOf(Seconds(n)).Success?
    ensures Shift(ts, zone, IntervalOf(Seconds(n)).value, p) == Some(ts + n)
    ensures Unshift(ts + n, zone, IntervalOf(Seconds(n)).value, p) == Some(ts)
  {
  }

  // ---------------------------------------------------------------------------------------
  // Construction

  /** The constructor's `$time`: null and 'now' become now plus the GMT offset; a number becomes '@' + n. */
  function Normalise(time: TimeArg, now: int, gmtOffset: int): (r: DateInput)
    ensures time == NullTime || time == Text("now") ==> r == AtStamp(now + gmtOffset)
    ensures time.Numeric? ==> r == AtStamp(time.n)
    ensures time.Text? && time.text != "now" ==> r == FreeText(time.text)
    ensures time.Existing? ==> r == Instance(time.ts, time.zone)
  {
    match time
    case NullTime => AtStamp(now + gmtOffset)
    case Text(t) => if t == "now" then AtStamp(now + gmtOffset) else FreeText(t)
    case Numeric(n) => AtStamp(n)
    case Existing(ts, z) => Instance(ts, z)
  }

  /**
   * The moment a constructor stores, and the diagnostics it records
   * (None when the source leaves the last errors alone). A DateTime is stored as it is;
   * otherwise the requested timezone (the default one when null) is resolved, the input
   * parsed, and that timezone attached to the result.
   */
  function Materialise(input: DateInput, timezone: Option<TzSpec>, default: Tz, p: Platform)
    : (r: Result<(Moment, Option<Diagnostics>), DateError>)
    ensures input.Instance? ==> r == Success((Moment(input.ts, input.zone), None))
    ensures !input.Instance? && RequestedZone(timezone, default, p).Failure? ==>
              r == Failure(RequestedZone(timezone, default, p).error)
    ensures !input.Instance? && r.Success? ==>
              RequestedZone(timezone, default, p) == Success(r.value.0.zone) && r.value.1 != None
    ensures input.AtStamp? ==>
              (r.Success? <==> RequestedZone(timezone, default, p).Success?)
    ensures input.AtStamp? && r.Success? ==> r.value.0.ts == input.n && r.value.1 == Some(NoDiagnostics)
    ensures input.FreeText? && r.Success? ==>
              var parsed := p.parse(input.text, r.value.0.zone);
              parsed.stamp == Some(r.value.0.ts) && r.value.1 == Some(parsed.diagnostics)
    ensures input.FreeText? && RequestedZone(timezone, default, p).Success? &&
            p.parse(input.text, RequestedZone(timezone, default, p).value).stamp == None ==>
              r == Failure(InvalidMoment(input.text))
    ensures input.FreeText? ==>
              (r.Success? <==> RequestedZone(timezone, default, p).Success? &&
                               p.parse(input.text, RequestedZone(timezone, default, p).value).stamp != None)
  {
    match input
    case Instance(ts, z) => Success((Moment(ts, z), None))
    case _ =>
      match RequestedZone(timezone, default, p)
      case Failure(e) => Failure(e)
      case Success(zone) =>
        match input
        case AtStamp(n) => Success((Moment(n, zone), Some(NoDiagnostics)))
        case FreeText(t) =>
          var parsed := p.parse(t, zone);
          match parsed.stamp
          case None => Failure(InvalidMoment(t))
          case Some(ts) => Success((Moment(ts, zone), Some(parsed.diagnostics)))
  }

  /** The default timezone a construction installs: the configured one, else the system one. */
  function ConfiguredZone(config: Config, p: Platform): (spec: TzSpec)
    ensures config.defaultTimezone != None ==> spec == config.defaultTimezone.value
    ensures config.defaultTimezone == None ==> spec == Named(p.systemTimezone)
  {
    if config.defaultTimezone.Some? then config.defaultTimezone.value else Named(p.systemTimezone)
  }

  /** A construction with a numeric time stores exactly that timestamp. */
  lemma NumericTimeIsStored(n: int, timezone: Option<TzSpec>, default: Tz, now: int, gmtOffset: int, p: Platform)
    requires RequestedZone(timezone, default, p).Success?
    ensures var r := Materialise(Normalise(Numeric(n), now, gmtOffset), timezone, default, p);
            r.Success? && r.value.0 == Moment(n, RequestedZone(timezone, default, p).value)
  {
  }

  // ---------------------------------------------------------------------------------------
  // Class-wide configuration (the static members)

  class Settings {
    var lastErrors: Diagnostics
    var defaultTimezone: Option<Tz>
    var encoding: Option<string>
    var gmtOffset: int
    var patterns: map<string, string>

    /** The initial values of the static properties. */
    constructor ()
      ensures lastErrors == NoDiagnostics && defaultTimezone == None && encoding == None
      ensures gmtOffset == 0 && patterns == map[]
    {
      lastErrors := NoDiagnostics;
      defaultTimezone := None;
      encoding := None;
      gmtOffset := 0;
      patterns := map[];
    }

    /** getLastErrors(): the diagnostics the last construction or createFromFormat recorded. */
    function LastErrors(): (r: Diagnostics)
      reads this
      ensures r == lastErrors
    {
      lastErrors
    }

    /**
     * defaultTimezone(): a non-null argument is resolved and becomes the default; null
     * only reads it. An unresolvable name throws and changes nothing.
     */
    method DefaultTimezone(arg: Option<TzSpec>, p: Platform) returns (r: Result<Option<Tz>, DateError>)
      modifies this`defaultTimezone
      ensures arg == None ==> r == Success(defaultTimezone) && defaultTimezone == old(defaultTimezone)
      ensures arg != None && ResolveSpec(arg.value, p).Success? ==>
                defaultTimezone == Some(ResolveSpec(arg.value, p).value) && r == Success(defaultTimezone)
      ensures arg != None && ResolveSpec(arg.value, p).Failure? ==>
                r == Failure(ResolveSpec(arg.value, p).error) && defaultTimezone == old(defaultTimezone)
    {
      if arg.Some? {
        var z := ResolveSpec(arg.value, p);
        if z.Failure? {
          return Failure(z.error);
        }
        defaultTimezone := Some(z.value);
      }
      r := Success(defaultTimezone);
    }

    /**
     * The configuration half of the constructor (src/Date.php lines 122-148), in source order: the GMT
     * offset, the encoding (upper-cased), the default timezone (the system one when the key
     * is absent; may throw), then the pattern table, which is replaced, not merged.
     */
    method ApplyConfig(config: Config, p: Platform) returns (r: Outcome<DateError>)
      modifies this`gmtOffset, this`encoding, this`defaultTimezone, this`patterns
      ensures gmtOffset == if config.gmtOffset != None then config.gmtOffset.value else old(gmtOffset)
      ensures encoding == if config.encoding != None then Some(Ascii.Upper(config.encoding.value)) else old(encoding)
      ensures ResolveSpec(ConfiguredZone(config, p), p).Failure? ==>
                r == Fail(ResolveSpec(ConfiguredZone(config, p), p).error) &&
                defaultTimezone == old(defaultTimezone) && patterns == old(patterns)
      ensures ResolveSpec(ConfiguredZone(config, p), p).Success? ==>
                r == Pass && defaultTimezone == Some(ResolveSpec(ConfiguredZone(config, p), p).value) &&
                patterns == if config.patterns != None then config.patterns.value else old(patterns)
    {
      if config.gmtOffset.Some? {
        gmtOffset := config.gmtOffset.value;
      }
      if config.encoding.Some? {
        encoding := Some(Ascii.Upper(config.encoding.value));
      }
      var d := DefaultTimezone(Some(ConfiguredZone(config, p)), p);
      if d.Failure? {
        return Fail(d.error);
      }
      if config.patterns.Some? {
        patterns := config.patterns.value;
      }
      r := Pass;
    }
  }

  // ---------------------------------------------------------------------------------------
  // Formatting

  /** The output timezone format() selects; only a name can fail to resolve. */
  function TargetZone(arg: OutputZone, default: Tz, original: Tz, p: Platform): (r: Result<Tz, DateError>)
    ensures arg == DefaultZone ==> r == Success(default)
    ensures arg == CurrentZone ==> r == Success(original)
    ensures arg.GivenZone? ==> r == Success(arg.zone)
    ensures arg.NamedZone? ==> r == ResolveSpec(Named(arg.name), p)
  {
    match arg
    case DefaultZone => Success(default)
    case NamedZone(n) => ResolveSpec(Named(n), p)
    case GivenZone(z) => Success(z)
    case CurrentZone => Success(original)
  }

  /**
   * format()'s correction for strftime, the target zone's UTC offset minus the
   * original zone's, both taken at the moment's own instant.
   */
  function Correction(p: Platform, target: Tz, original: Tz, ts: int): (delta: int)
    ensures target == original ==> delta == 0
    ensures p.offset(original, ts) + delta == p.offset(target, ts)
  {
    p.offset(target, ts) - p.offset(original, ts)
  }

  /** An encoding is in force when it is set to something PHP considers truthy. */
  predicate EncodingSet(encoding: Option<string>) {
    encoding.Some? && encoding.value != "" && encoding.value != "0"
  }

  /** format()'s strftime output, converted to the configured encoding if one is set. */
  function Encoded(p: Platform, raw: string, encoding: Option<string>): (r: string)
    ensures !EncodingSet(encoding) ==> r == raw
    ensures EncodingSet(encoding) ==> r == p.transcode(encoding.value, raw)
  {
    if EncodingSet(encoding) then p.transcode(encoding.value, raw) else raw
  }

  /**
   * format()'s two dialects: a format without `%` is rendered by the token formatter in the zone
   * attached at that point; one with `%` by strftime on the corrected instant.
   */
  function Rendered(p: Platform, format: string, ts: int, attached: Tz, delta: int,
                    encoding: Option<string>): (r: string)
    ensures !IsLocaleFormat(format) ==> r == p.tokenFormat(format, ts, attached)
    ensures IsLocaleFormat(format) ==> r == Encoded(p, p.strftime(format, ts + delta), encoding)
  {
    if IsLocaleFormat(format) then Encoded(p, p.strftime(format, ts + delta), encoding)
    else p.tokenFormat(format, ts, attached)
  }

  /**
   * format() as written: alias lookup, output zone selection, correction delta, dialect
   * dispatch. Only a timezone NAME is attached while formatting, so the token formatter
   * sees the target zone only in that case (see FormatTrueKeepsOriginalZone).
   */
  function Formatted(p: Platform, format: string, arg: OutputZone, ts: int, original: Tz,
                     default: Tz, patterns: map<string, string>, encoding: Option<string>)
    : (r: Result<string, DateError>)
    ensures r.Failure? <==> arg.NamedZone? && p.resolve(arg.name) == None
    ensures r.Failure? ==> r.error == InvalidTimezone(arg.name)
    ensures arg == CurrentZone ==> r == Success(Rendered(p, LookupFormat(patterns, format), ts, original, 0, encoding))
  {
    match TargetZone(arg, default, original, p)
    case Failure(e) => Failure(e)
    case Success(target) =>
      var attached := if arg.NamedZone? then target else original;
      Success(Rendered(p, LookupFormat(patterns, format), ts, attached,
                       Correction(p, target, original, ts), encoding))
  }

  /** format() with the output zone attached for every non-falsy argument. */
  function FormattedIntended(p: Platform, format: string, arg: OutputZone, ts: int, original: Tz,
                             default: Tz, patterns: map<string, string>, encoding: Option<string>)
    : (r: Result<string, DateError>)
    ensures r.Failure? <==> arg.NamedZone? && p.resolve(arg.name) == None
    ensures r.Failure? ==> r.error == InvalidTimezone(arg.name)
    ensures arg == CurrentZone ==> r == Success(Rendered(p, LookupFormat(patterns, format), ts, original, 0, encoding))
  {
    match TargetZone(arg, default, original, p)
    case Failure(e) => Failure(e)
    case Success(target) =>
      Success(Rendered(p, LookupFormat(patterns, format), ts, target,
                       Correction(p, target, original, ts), encoding))
  }

  /**
   * Both dialects of format(): the token path renders the unchanged instant; the `%` path
   * renders the instant moved by the target-minus-original offset.
   */
  lemma FormattedDialects(p: Platform, format: string, arg: OutputZone, ts: int, original: Tz,
                          default: Tz, patterns: map<string, string>, encoding: Option<string>)
    requires TargetZone(arg, default, original, p).Success?
    ensures var fmt := LookupFormat(patterns, format);
            var target := TargetZone(arg, default, original, p).value;
            var r := Formatted(p, format, arg, ts, original, default, patterns, encoding);
            && (!IsLocaleFormat(fmt) ==>
                  r == Success(p.tokenFormat(fmt, ts, if arg.NamedZone? then target else original)))
            && (IsLocaleFormat(fmt) ==>
                  r == Success(Encoded(p, p.strftime(fmt, ts + p.offset(target, ts) - p.offset(original, ts)),
                                       encoding)))
  {
  }

  /**
   * The intended behaviour: token formats are rendered in the selected output zone for
   * every argument, and the corrected function agrees with the written one whenever the
   * argument is a timezone name or falsy.
   */
  lemma FormattedIntendedUsesTarget(p: Platform, format: string, arg: OutputZone, ts: int, original: Tz,
                                    default: Tz, patterns: map<string, string>, encoding: Option<string>)
    requires TargetZone(arg, default, original, p).Success?
    requires !IsLocaleFormat(LookupFormat(patterns, format))
    ensures FormattedIntended(p, format, arg, ts, original, default, patterns, encoding)
         == Success(p.tokenFormat(LookupFormat(patterns, format), ts, TargetZone(arg, default, original, p).value))
    ensures arg.NamedZone? || arg == CurrentZone ==>
              (FormattedIntended(p, format, arg, ts, original, default, patterns, encoding)
               == Formatted(p, format, arg, ts, original, default, patterns, encoding))
  {
  }

  /** A platform whose token formatter prints the zone it is given, and nothing else. */
  function ZoneEchoPlatform(): Platform {
    Platform(0, "UTC", n => Some(Tz(n)), (z, t) => 0,
             (s, z) => ParseResult(None, NoDiagnostics), (f, s, z) => ParseResult(None, NoDiagnostics),
             (s, f) => NoMatch, z => 0, (s, d) => s, (t, z, iv) => None,
             (f: string, t: int, z: Tz) => z.name, (f: string, t: int) => f, (e: string, s: string) => s)
  }

  /**
   * format('Y-m-d', true) on a moment attached to UTC with default timezone
   * America/New_York renders in UTC: `true` selects the default zone but never attaches it.
   */
  lemma FormatTrueKeepsOriginalZone()
    ensures var p := ZoneEchoPlatform();
            var utc := Tz("UTC");
            var ny := Tz("America/New_York");
            && Formatted(p, "Y-m-d", DefaultZone, 0, utc, ny, map[], None) == Success("UTC")
            && FormattedIntended(p, "Y-m-d", DefaultZone, 0, utc, ny, map[], None) == Success("America/New_York")
  {
    var p := ZoneEchoPlatform();
    assert !IsLocaleFormat("Y-m-d") by {
      assert forall i :: 0 <= i < |"Y-m-d"| ==> "Y-m-d"[i] != '%';
    }
  }

  // ---------------------------------------------------------------------------------------
  // createFromFormat

  /**
   * createFromFormat()'s reverse correction. The offset becomes a seconds interval (inverted
   * when negative) that is subtracted, which takes the offset off the parsed instant.
   */
  function ReverseShift(stamp: int, zone: Tz, p: Platform): (r: int)
    ensures r == stamp - p.offset(zone, stamp)
  {
    var iv := SecondsInterval(p.offset(zone, stamp));
    Unshift(stamp, zone, iv, p).value
  }

  /**
   * The instant createFromFormat() parses. A `%` format that strptime accepts
   * is re-parsed as 'U' from the input text (shifted by PHP's `+=` when the default zone's
   * offset at the reference date is not zero), and the parsed instant is then moved back by
   * the target zone's offset at that instant. mktime() failing throws.
   */
  function ParseStage(format: string, time: string, target: Tz, default: Tz, p: Platform)
    : (r: Result<ParseResult, DateError>)
    ensures !IsLocaleFormat(format) ==> r == Success(p.parseWithFormat(format, time, target))
    ensures IsLocaleFormat(format) && p.strptime(time, format) == NoMatch ==>
              r == Success(p.parseWithFormat(format, time, target))
    ensures IsLocaleFormat(format) && p.strptime(time, format) == MktimeFailed ==> r == Failure(OutOfRange)
    ensures IsLocaleFormat(format) && p.strptime(time, format) == Converted ==>
              var delta := p.offset(default, p.referenceInstant(target));
              var parsed := p.parseWithFormat("U", if delta != 0 then p.addToText(time, delta) else time, target);
              r.Success? && r.value.diagnostics == parsed.diagnostics &&
              (parsed.stamp == None <==> r.value.stamp == None) &&
              (parsed.stamp != None ==>
                 r.value.stamp == Some(parsed.stamp.value - p.offset(target, parsed.stamp.value)))
  {
    if !IsLocaleFormat(format) then Success(p.parseWithFormat(format, time, target))
    else
      match p.strptime(time, format)
      case NoMatch => Success(p.parseWithFormat(format, time, target))
      case MktimeFailed => Failure(OutOfRange)
      case Converted =>
        var delta := p.offset(default, p.referenceInstant(target));
        var text := if delta != 0 then p.addToText(time, delta) else time;
        var parsed := p.parseWithFormat("U", text, target);
        match parsed.stamp
        case None => Success(parsed)
        case Some(st) => Success(parsed.(stamp := Some(ReverseShift(st, target, p))))
  }

  // ---------------------------------------------------------------------------------------
  // The Date object

  class Date {
    var ts: int
    var tz: Tz

    constructor FromMoment(ts: int, tz: Tz)
      ensures this.ts == ts && this.tz == tz
    {
      this.ts := ts;
      this.tz := tz;
    }

    /** getTimestamp(): the instant, unaffected by the attached timezone. */
    function GetTimestamp(): (r: int)
      reads this
      ensures r == ts
    {
      ts
    }

    /** getTimezone(): the attached timezone. */
    function GetTimezone(): (r: Tz)
      reads this
      ensures r == tz
    {
      tz
    }

    /** getOffset(): the attached zone's UTC offset at the stored instant. */
    function GetOffset(p: Platform): (r: int)
      reads this
      ensures r == p.offset(GetTimezone(), GetTimestamp())
    {
      p.offset(tz, ts)
    }

    /** add(): a number is turned into a seconds interval; the timezone is kept. */
    method Add(arg: IntervalArg, p: Platform) returns (r: Step)
      modifies this`ts
      ensures arg.OtherValue? ==> r == Threw(NotAnInterval) && ts == old(ts)
      ensures !arg.OtherValue? ==>
                var moved := Shift(old(ts), tz, IntervalOf(arg).value, p);
                (moved != None ==> r == Chained && ts == moved.value) &&
                (moved == None ==> r == ReturnedFalse && ts == old(ts))
    {
      var iv := IntervalOf(arg);
      if iv.Failure? {
        return Threw(iv.error);
      }
      var moved := Shift(ts, tz, iv.value, p);
      if moved.None? {
        return ReturnedFalse;
      }
      ts := moved.value;
      r := Chained;
    }

    /** sub(): as add(), with the interval subtracted. */
    method Sub(arg: IntervalArg, p: Platform) returns (r: Step)
      modifies this`ts
      ensures arg.OtherValue? ==> r == Threw(NotAnInterval) && ts == old(ts)
      ensures !arg.OtherValue? ==>
                var moved := Unshift(old(ts), tz, IntervalOf(arg).value, p);
                (moved != None ==> r == Chained && ts == moved.value) &&
                (moved == None ==> r == ReturnedFalse && ts == old(ts))
    {
      var iv := IntervalOf(arg);
      if iv.Failure? {
        return Threw(iv.error);
      }
      var moved := Unshift(ts, tz, iv.value, p);
      if moved.None? {
        return ReturnedFalse;
      }
      ts := moved.value;
      r := Chained;
    }

    /** setTimestamp(): a new instant, same timezone. */
    method SetTimestamp(n: int) returns (r: Step)
      modifies this`ts
      ensures ts == n && r == Chained
    {
      ts := n;
      r := Chained;
    }

    /**
     * setTimezone(): null selects the default zone; the instant is kept, only the attached
     * zone changes. An unresolvable name throws and changes nothing.
     */
    method SetTimezone(arg: Option<TzSpec>, s: Settings, p: Platform) returns (r: Outcome<DateError>)
      requires s.defaultTimezone != None
      modifies this`tz
      ensures var z := RequestedZone(arg, s.defaultTimezone.value, p);
              (z.Success? ==> r == Pass && tz == z.value) &&
              (z.Failure? ==> r == Fail(z.error) && tz == old(tz))
    {
      var z := RequestedZone(arg, s.defaultTimezone.value, p);
      if z.Failure? {
        return Fail(z.error);
      }
      tz := z.value;
      r := Pass;
    }

    /**
     * format(): a timezone name is attached for the duration of the call; the attached
     * zone is restored before returning, and the instant is never touched.
     */
    method Format(format: string, arg: OutputZone, s: Settings, p: Platform) returns (r: Result<string, DateError>)
      requires s.defaultTimezone != None
      modifies this`tz
      ensures GetTimestamp() == old(GetTimestamp()) && GetTimezone() == old(GetTimezone())
      ensures r == Formatted(p, format, arg, ts, tz, s.defaultTimezone.value, s.patterns, s.encoding)
    {
      var fmt := LookupFormat(s.patterns, format);
      var original := tz;
      var target: Tz;
      match arg {
        case DefaultZone =>
          target := s.defaultTimezone.value;
        case NamedZone(n) =>
          var z := ResolveSpec(Named(n), p);
          if z.Failure? {
            return Failure(z.error);
          }
          target := z.value;
          tz := target;
        case GivenZone(z) =>
          target := z;
        case CurrentZone =>
          target := original;
      }
      var delta := Correction(p, target, original, ts);
      var result: string;
      if !IsLocaleFormat(fmt) {
        result := p.tokenFormat(fmt, ts, tz);
      } else {
        result := Encoded(p, p.strftime(fmt, ts + delta), s.encoding);
      }
      tz := original;
      r := Success(result);
    }

    /** __toString(): format() with the 'local' alias in the attached zone. */
    method ToString(s: Settings, p: Platform) returns (r: string)
      requires s.defaultTimezone != None
      modifies this`tz
      ensures ts == old(ts) && tz == old(tz)
      ensures r == Rendered(p, LookupFormat(s.patterns, "local"), ts, tz, 0, s.encoding)
    {
      var f := Format("local", CurrentZone, s, p);
      r := f.value;
    }
  }

  /**
   * The constructor (src/Date.php lines 120-188): the configuration is applied first, even when the
   * construction then throws; a successful construction records the parse diagnostics,
   * except for an existing DateTime, which is stored without parsing.
   */
  method NewDate(time: TimeArg, timezone: Option<TzSpec>, config: Config, s: Settings, p: Platform)
    returns (r: Result<Date, DateError>)
    modifies s
    ensures s.gmtOffset == if config.gmtOffset != None then config.gmtOffset.value else old(s.gmtOffset)
    ensures s.encoding == if config.encoding != None then Some(Ascii.Upper(config.encoding.value)) else old(s.encoding)
    ensures ResolveSpec(ConfiguredZone(config, p), p).Failure? ==>
              r == Failure(ResolveSpec(ConfiguredZone(config, p), p).error) &&
              s.defaultTimezone == old(s.defaultTimezone) && s.patterns == old(s.patterns) &&
              s.lastErrors == old(s.lastErrors)
    ensures ResolveSpec(ConfiguredZone(config, p), p).Success? ==>
              s.defaultTimezone == Some(ResolveSpec(ConfiguredZone(config, p), p).value) &&
              s.patterns == (if config.patterns != None then config.patterns.value else old(s.patterns)) &&
              var m := Materialise(Normalise(time, p.now, s.gmtOffset), timezone, s.defaultTimezone.value, p);
              (m.Failure? ==> r == Failure(m.error) && s.lastErrors == old(s.lastErrors)) &&
              (m.Success? ==> r.Success? && fresh(r.value) &&
                              r.value.ts == m.value.0.ts && r.value.tz == m.value.0.zone &&
                              s.lastErrors == if m.value.1 != None then m.value.1.value else old(s.lastErrors))
  {
    var o := s.ApplyConfig(config, p);
    if o.Fail? {
      return Failure(o.error);
    }
    var input := Normalise(time, p.now, s.gmtOffset);
    var m := Materialise(input, timezone, s.defaultTimezone.value, p);
    if m.Failure? {
      return Failure(m.error);
    }
    if m.value.1.Some? {
      s.lastErrors := m.value.1.value;
    }
    var d := new Date.FromMoment(m.value.0.ts, m.value.0.zone);
    r := Success(d);
  }

  /**
   * createFromFormat() (src/Date.php lines 220-290). The parsed instant is wrapped with `new static`,
   * i.e. a construction with an empty configuration, which also resets the default
   * timezone to the system one. `false` (Unparsed) records the parser's diagnostics.
   */
  method CreateFromFormat(format: string, time: string, timezone: Option<TzSpec>, s: Settings, p: Platform)
    returns (r: Result<Date, DateError>)
    requires s.defaultTimezone != None
    modifies s
    ensures RequestedZone(timezone, old(s.defaultTimezone.value), p).Failure? ==>
              r == Failure(RequestedZone(timezone, old(s.defaultTimezone.value), p).error) &&
              s.lastErrors == old(s.lastErrors) && s.defaultTimezone == old(s.defaultTimezone)
    ensures RequestedZone(timezone, old(s.defaultTimezone.value), p).Success? ==>
              var target := RequestedZone(timezone, old(s.defaultTimezone.value), p).value;
              var stage := ParseStage(LookupFormat(old(s.patterns), format), time, target,
                                      old(s.defaultTimezone.value), p);
              (stage.Failure? ==> r == Failure(stage.error) && s.lastErrors == old(s.lastErrors) &&
                                  s.defaultTimezone == old(s.defaultTimezone)) &&
              (stage.Success? && stage.value.stamp == None ==>
                 r == Failure(Unparsed) && s.lastErrors == stage.value.diagnostics &&
                 s.defaultTimezone == old(s.defaultTimezone)) &&
              (stage.Success? && stage.value.stamp != None && ResolveSpec(Named(p.systemTimezone), p).Success? ==>
                 r.Success? && fresh(r.value) && r.value.ts == stage.value.stamp.value && r.value.tz == target &&
                 s.lastErrors == NoDiagnostics &&
                 s.defaultTimezone == Some(ResolveSpec(Named(p.systemTimezone), p).value)) &&
              (stage.Success? && stage.value.stamp != None && ResolveSpec(Named(p.systemTimezone), p).Failure? ==>
                 r == Failure(InvalidTimezone(p.systemTimezone)) && s.lastErrors == old(s.lastErrors) &&
                 s.defaultTimezone == old(s.defaultTimezone))
    ensures s.patterns == old(s.patterns) && s.gmtOffset == old(s.gmtOffset) && s.encoding == old(s.encoding)
  {
    var target: Tz;
    var z := RequestedZone(timezone, s.defaultTimezone.value, p);
    if z.Failure? {
      return Failure(z.error);
    }
    target := z.value;
    var fmt := LookupFormat(s.patterns, format);
    var stage := ParseStage(fmt, time, target, s.defaultTimezone.value, p);
    if stage.Failure? {
      return Failure(stage.error);
    }
    var parsed := stage.value;
    if parsed.stamp.Some? {
      // `new static('@'.$stamp, $timezone)`
      r := NewDate(Numeric(parsed.stamp.value), Some(Zone(target)), NoConfig, s, p);
      if r.Failure? {
        return;
      }
      s.lastErrors := NoDiagnostics;
    } else {
      r := Failure(Unparsed);
      s.lastErrors := parsed.diagnostics;
    }
  }
}
