/**
 * The tracker's options and the defaulting the constructor applies to them
 * (`{ flushInterval: 5000, sessionTimeout: 30, showWidget: optIn || false, ...config }`).
 */
module TrackerConfig {
  import opened Wrappers

  /**
   * One optional field of the caller's options object. Because the caller's
   * object is spread after the defaults, a key that is present with the value
   * `undefined` overrides its default just as a real value does.
   */
  datatype Field<T> = Omitted | Undefined | Given(value: T)

  /**
   * The caller's `onError` callback, as an opaque token: the tracker swallows
   * any exception it throws, so only its presence matters.
   */
  datatype ErrorHandler = ErrorHandler

  /** `SessionTrackerConfig` as the caller passes it (`metadata` is not modelled). */
  datatype Options = Options(
    apiEndpoint: string,
    sessionId: Field<string>,
    flushInterval: Field<int>,
    sessionTimeout: Field<int>,
    userId: Field<string>,
    userEmail: Field<string>,
    userName: Field<string>,
    appName: Field<string>,
    onError: Field<ErrorHandler>,
    optIn: Field<bool>,
    showWidget: Field<bool>)

  /** The tracker's own configuration after defaulting; `None` is a field whose value is `undefined`. */
  datatype Config = Config(
    apiEndpoint: string,
    sessionId: Option<string>,
    flushInterval: Option<int>,
    sessionTimeout: Option<int>,
    userId: Option<string>,
    userEmail: Option<string>,
    userName: Option<string>,
    appName: Option<string>,
    onError: Option<ErrorHandler>,
    optIn: Option<bool>,
    showWidget: Option<bool>)

  const DefaultFlushInterval: int := 5000
  const DefaultSessionTimeout: int := 30

  /** The value a key has in `{ key: default, ...options }`. */
  function Spread<T>(default: Option<T>, f: Field<T>): Option<T> {
    match f
    case Omitted => default
    case Undefined => None
    case Given(v) => Some(v)
  }

  /** Fields without a default: the caller's value or `undefined`. */
  function Plain<T>(f: Field<T>): Option<T> {
    Spread(None, f)
  }

  /** The constructor's defaulting of the caller's options. */
  function ApplyDefaults(o: Options): (c: Config)
    ensures o.flushInterval.Omitted? ==> c.flushInterval == Some(DefaultFlushInterval)
    ensures o.sessionTimeout.Omitted? ==> c.sessionTimeout == Some(DefaultSessionTimeout)
    ensures o.showWidget.Omitted? ==> c.showWidget == Some(o.optIn == Given(true))
    ensures o.flushInterval.Given? ==> c.flushInterval == Some(o.flushInterval.value)
    ensures o.sessionTimeout.Given? ==> c.sessionTimeout == Some(o.sessionTimeout.value)
    ensures o.showWidget.Given? ==> c.showWidget == Some(o.showWidget.value)
    ensures o.flushInterval.Undefined? ==> c.flushInterval.None?
    ensures o.sessionTimeout.Undefined? ==> c.sessionTimeout.None?
    ensures o.showWidget.Undefined? ==> c.showWidget.None?
    ensures o.optIn.Given? <==> c.optIn.Some?
    ensures o.optIn.Given? ==> c.optIn.value == o.optIn.value
    ensures o.sessionId.Given? <==> c.sessionId.Some?
    ensures o.sessionId.Given? ==> c.sessionId.value == o.sessionId.value
    ensures c.apiEndpoint == o.apiEndpoint
  {
    Config(
      o.apiEndpoint,
      Plain(o.sessionId),
      Spread(Some(DefaultFlushInterval), o.flushInterval),
      Spread(Some(DefaultSessionTimeout), o.sessionTimeout),
      Plain(o.userId), Plain(o.userEmail), Plain(o.userName), Plain(o.appName),
      Plain(o.onError),
      Plain(o.optIn),
      Spread(Some(o.optIn == Given(true)), o.showWidget))
  }

  /** `this.config.optIn` is truthy. */
  predicate OptInMode(c: Config) { c.optIn == Some(true) }

  /** `this.config.showWidget` is truthy. */
  predicate WidgetShown(c: Config) { c.showWidget == Some(true) }

  /**
   * The inactivity window in milliseconds, `(sessionTimeout || 30) * 60 * 1000`:
   * an undefined or zero timeout falls back to thirty minutes.
   */
  function TimeoutMs(c: Config): (ms: int)
    ensures c.sessionTimeout.None? || c.sessionTimeout == Some(0) ==> ms == 30 * 60000
    ensures c.sessionTimeout.Some? && c.sessionTimeout.value != 0 ==> ms == c.sessionTimeout.value * 60000
  {
    var minutes := if c.sessionTimeout.None? || c.sessionTimeout.value == 0 then 30 else c.sessionTimeout.value;
    minutes * 60 * 1000
  }

  /** With no options beyond the endpoint, a tracker flushes every 5 s, times out after 30 min and shows no widget. */
  lemma DefaultsOfBareOptions(endpoint: string)
    ensures var c := ApplyDefaults(Options(endpoint, Omitted, Omitted, Omitted, Omitted, Omitted,
                                           Omitted, Omitted, Omitted, Omitted, Omitted));
            c.flushInterval == Some(5000) && TimeoutMs(c) == 1800000 && !WidgetShown(c) && !OptInMode(c)
  {
  }

  /** In opt-in mode the widget is shown unless the caller says otherwise. */
  lemma OptInShowsWidgetByDefault(o: Options)
    requires o.optIn == Given(true) && o.showWidget.Omitted?
    ensures OptInMode(ApplyDefaults(o)) && WidgetShown(ApplyDefaults(o))
  {
  }
}
