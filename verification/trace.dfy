/**
 * The observable effects of the probe firmware, written as a flat trace of
 * events. Every call into a driver or library whose effect matters to the
 * sequencing logic (a connect request, a status poll, a delay, a panel
 * refresh, a file operation, a feed save, a GPIO level change) becomes one
 * event; answers coming back from those calls are inputs, not events.
 */
module Trace {
  import Options

  /** A rectangle handed to the e-paper panel's partial update. */
  datatype Window = Window(x: int, y: int, w: int, h: int)

  /** The four Adafruit IO feeds the probe publishes to. */
  datatype Feed = Temperature | Humidity | Pressure | Airquality

  /** The numbers one data-log line records: °C, %, hPa, kOhm. */
  datatype LogLine = LogLine(temperature: real, humidity: real, pressure: real, airquality: real)

  datatype Event =
      // measurement cycle
    | Connect                       // io.connect()
    | Poll                          // WiFi.status() inside the connect wait loop
    | Delay(ms: nat)                // delay(ms) / vTaskDelay
    | RunEvents                     // io.run()
    | ReadSensor                    // bme.performReading()
    | FullRedraw                    // display_showMainScreen()
    | OpenLog(path: string)         // fs.open(path, FILE_APPEND)
    | WriteLog(line: Options.Option<LogLine>) // file.print(message); None when snprintf filled it with no defined line
    | CloseLog                      // file.close()
    | UpdateWindow(win: Window)     // display.updateWindow(x, y, w, h)
    | Save(feed: Feed, value: real) // feed->save(value)
    | LedLow                        // gpio_set_level(PIN_LED, false)
    | LedHigh                       // gpio_set_level(PIN_LED, true)
      // start-up
    | InitDisplay                   // display.init()
    | StartupScreen                 // display_showStartupScreen()
    | StartupStatus(message: string)// display_showStartupStatus(message)
    | MountSd                       // SD.begin()
    | QueryCardType                 // SD.cardType()
    | RegisterWifiHandler           // WiFi.onEvent(...)
    | BeginSensor                   // bme.begin()
    | ConfigureSensor               // oversampling, IIR filter and gas heater set-up
    | LedOutputMode                 // gpio_set_direction(PIN_LED, OUTPUT)
    | SerialBegin                   // Serial.begin(...)
    | EnableTimerWakeup(us: nat)    // esp_sleep_enable_timer_wakeup(us)
    | ReportWakeup(message: string) // the line print_wakeup_reason writes
    | LightSleep                    // esp_light_sleep_start()
      // time service
    | SntpInit                      // systime_initializeSntp()
    | ReadClock                     // time(&now) followed by localtime_r
    | SntpStop                      // sntp_stop()
    | SetTimezone(tz: string)       // setenv("TZ", tz, 1); tzset()

  /**
   * What kind of call an event records. Only a delay keeps its argument,
   * because the firmware waits for different reasons with different lengths.
   */
  datatype Kind =
    | ConnectKind | PollKind | DelayKind(ms: nat) | RunEventsKind | ReadSensorKind
    | FullRedrawKind | OpenLogKind | WriteLogKind | CloseLogKind | UpdateWindowKind
    | SaveKind | LedLowKind | LedHighKind
    | InitDisplayKind | StartupScreenKind | StartupStatusKind | MountSdKind | QueryCardTypeKind
    | RegisterWifiHandlerKind | BeginSensorKind | ConfigureSensorKind | LedOutputModeKind
    | SerialBeginKind | EnableTimerWakeupKind | ReportWakeupKind | LightSleepKind
    | SntpInitKind | ReadClockKind | SntpStopKind | SetTimezoneKind

  function KindOf(e: Event): Kind
  {
    match e
    case Connect => ConnectKind
    case Poll => PollKind
    case Delay(ms) => DelayKind(ms)
    case RunEvents => RunEventsKind
    case ReadSensor => ReadSensorKind
    case FullRedraw => FullRedrawKind
    case OpenLog(_) => OpenLogKind
    case WriteLog(_) => WriteLogKind
    case CloseLog => CloseLogKind
    case UpdateWindow(_) => UpdateWindowKind
    case Save(_, _) => SaveKind
    case LedLow => LedLowKind
    case LedHigh => LedHighKind
    case InitDisplay => InitDisplayKind
    case StartupScreen => StartupScreenKind
    case StartupStatus(_) => StartupStatusKind
    case MountSd => MountSdKind
    case QueryCardType => QueryCardTypeKind
    case RegisterWifiHandler => RegisterWifiHandlerKind
    case BeginSensor => BeginSensorKind
    case ConfigureSensor => ConfigureSensorKind
    case LedOutputMode => LedOutputModeKind
    case SerialBegin => SerialBeginKind
    case EnableTimerWakeup(_) => EnableTimerWakeupKind
    case ReportWakeup(_) => ReportWakeupKind
    case LightSleep => LightSleepKind
    case SntpInit => SntpInitKind
    case ReadClock => ReadClockKind
    case SntpStop => SntpStopKind
    case SetTimezone(_) => SetTimezoneKind
  }

  // Kinds of event the properties single out.
  const CONNECTS: set<Kind> := {ConnectKind}
  const POLLS: set<Kind> := {PollKind}
  const IO_RUNS: set<Kind> := {RunEventsKind}
  const SENSOR_READS: set<Kind> := {ReadSensorKind}
  const REDRAWS: set<Kind> := {FullRedrawKind}
  const LOG_KINDS: set<Kind> := {OpenLogKind, WriteLogKind, CloseLogKind}
  const WINDOW_UPDATES: set<Kind> := {UpdateWindowKind}
  const SAVES: set<Kind> := {SaveKind}
  const LED_LEVELS: set<Kind> := {LedLowKind, LedHighKind}
  const STARTUP_STATUSES: set<Kind> := {StartupStatusKind}

  /** Every event of `t` is of one of the `kinds`. */
  predicate AllOf(t: seq<Event>, kinds: set<Kind>)
  {
    forall e :: e in t ==> KindOf(e) in kinds
  }

  /** The events of `t` of the kinds in `keep`, in their original order. */
  function Filter(t: seq<Event>, keep: set<Kind>): (r: seq<Event>)
    ensures |r| <= |t|
  {
    if |t| == 0 then [] else (if KindOf(t[0]) in keep then [t[0]] else []) + Filter(t[1..], keep)
  }

  /** A single event is kept or dropped on its own. */
  lemma FilterSingle(e: Event, keep: set<Kind>)
    ensures Filter([e], keep) == if KindOf(e) in keep then [e] else []
  {
    assert [e][1..] == [];
  }

  /** The events Filter keeps are exactly the events of `t` of a kept kind. */
  lemma {:induction false} FilterMembers(t: seq<Event>, keep: set<Kind>)
    ensures forall e :: e in Filter(t, keep) <==> e in t && KindOf(e) in keep
  {
    if |t| > 0 {
      FilterMembers(t[1..], keep);
      assert t == [t[0]] + t[1..];
    }
  }

  /** How many events of `t` are of the kinds in `keep`. */
  function Count(t: seq<Event>, keep: set<Kind>): nat
  {
    |Filter(t, keep)|
  }

  /** `n` back-to-back copies of the round `s`. */
  function Repeat(s: seq<Event>, n: nat): seq<Event>
  {
    if n == 0 then [] else Repeat(s, n - 1) + s
  }

  /** Repeating a round introduces no event the round does not have. */
  lemma {:induction false} RepeatMembers(s: seq<Event>, n: nat)
    ensures forall e :: e in Repeat(s, n) ==> e in s
  {
    if n > 0 {
      RepeatMembers(s, n - 1);
    }
  }

  /** Milliseconds spent in the `Delay` events of `t`. */
  function TotalDelay(t: seq<Event>): nat
  {
    if |t| == 0 then 0
    else (if t[0].Delay? then t[0].ms else 0) + TotalDelay(t[1..])
  }

  lemma {:induction false} FilterAppend(a: seq<Event>, b: seq<Event>, keep: set<Kind>)
    ensures Filter(a + b, keep) == Filter(a, keep) + Filter(b, keep)
  {
    if |a| == 0 {
      assert a + b == b;
    } else {
      var head := if KindOf(a[0]) in keep then [a[0]] else [];
      assert (a + b)[0] == a[0] && (a + b)[1..] == a[1..] + b;
      assert Filter(a + b, keep) == head + Filter(a[1..] + b, keep);
      FilterAppend(a[1..], b, keep);
      assert Filter(a, keep) == head + Filter(a[1..], keep);
      assert head + (Filter(a[1..], keep) + Filter(b, keep)) == (head + Filter(a[1..], keep)) + Filter(b, keep);
    }
  }

  lemma FilterAppend3(a: seq<Event>, b: seq<Event>, c: seq<Event>, keep: set<Kind>)
    ensures Filter(a + b + c, keep) == Filter(a, keep) + Filter(b, keep) + Filter(c, keep)
  {
    FilterAppend(a + b, c, keep);
    FilterAppend(a, b, keep);
  }

  // When two of three consecutive parts have nothing to keep, filtering keeps what the third has.

  lemma FilterOnlyFirstOfThree(a: seq<Event>, b: seq<Event>, c: seq<Event>, keep: set<Kind>)
    requires Filter(b, keep) == [] && Filter(c, keep) == []
    ensures Filter(a + b + c, keep) == Filter(a, keep)
  {
    FilterAppend3(a, b, c, keep);
    assert Filter(a, keep) + [] + [] == Filter(a, keep);
  }

  lemma FilterOnlySecondOfThree(a: seq<Event>, b: seq<Event>, c: seq<Event>, keep: set<Kind>)
    requires Filter(a, keep) == [] && Filter(c, keep) == []
    ensures Filter(a + b + c, keep) == Filter(b, keep)
  {
    FilterAppend3(a, b, c, keep);
    assert [] + Filter(b, keep) + [] == Filter(b, keep);
  }

  lemma FilterOnlyThirdOfThree(a: seq<Event>, b: seq<Event>, c: seq<Event>, keep: set<Kind>)
    requires Filter(a, keep) == [] && Filter(b, keep) == []
    ensures Filter(a + b + c, keep) == Filter(c, keep)
  {
    FilterAppend3(a, b, c, keep);
    assert [] + [] + Filter(c, keep) == Filter(c, keep);
  }

  /** Filtering keeps nothing when no event is of a kept kind. */
  lemma {:induction false} FilterNone(t: seq<Event>, keep: set<Kind>)
    requires forall e :: e in t ==> KindOf(e) !in keep
    ensures Filter(t, keep) == []
  {
    if |t| > 0 {
      assert t[0] in t;
      assert forall e :: e in t[1..] ==> e in t;
      FilterNone(t[1..], keep);
    }
  }

  /** Filtering keeps nothing of a trace whose events are all of kinds `keep` leaves out. */
  lemma FilterNoneOf(t: seq<Event>, kinds: set<Kind>, keep: set<Kind>)
    requires AllOf(t, kinds)
    requires kinds !! keep
    ensures Filter(t, keep) == []
  {
    FilterNone(t, keep);
  }

  /** The same, for kinds apart from a wider set that holds all kept kinds. */
  lemma FilterNoneOfWithin(t: seq<Event>, kinds: set<Kind>, wider: set<Kind>, keep: set<Kind>)
    requires AllOf(t, kinds)
    requires kinds !! wider && keep <= wider
    ensures Filter(t, keep) == []
  {
    FilterNoneOf(t, kinds, keep);
  }

  /** A trace whose events are all of kinds other than delays does not wait. */
  lemma TotalDelayNoneOf(t: seq<Event>, kinds: set<Kind>)
    requires AllOf(t, kinds)
    requires forall k :: k in kinds ==> !k.DelayKind?
    ensures TotalDelay(t) == 0
  {
    TotalDelayNone(t);
  }

  /** The events of `a + b` are all of the `kinds` when those of `a` and `b` are. */
  lemma AllOfAppend(a: seq<Event>, b: seq<Event>, kinds: set<Kind>)
    requires AllOf(a, kinds) && AllOf(b, kinds)
    ensures AllOf(a + b, kinds)
  {
  }

  /** No event of another kind occurs in a trace of the `kinds`. */
  lemma AllOfExcludes(t: seq<Event>, kinds: set<Kind>, e: Event)
    requires AllOf(t, kinds) && KindOf(e) !in kinds
    ensures e !in t
  {
  }

  /** Allowing more kinds keeps `AllOf` true. */
  lemma AllOfWiden(t: seq<Event>, kinds: set<Kind>, wider: set<Kind>)
    requires AllOf(t, kinds) && kinds <= wider
    ensures AllOf(t, wider)
  {
  }

  lemma {:induction false} FilterAll(t: seq<Event>, keep: set<Kind>)
    requires AllOf(t, keep)
    ensures Filter(t, keep) == t
  {
    if |t| > 0 {
      assert t[0] in t;
      assert forall e :: e in t[1..] ==> e in t;
      FilterAll(t[1..], keep);
      assert t == [t[0]] + t[1..];
    }
  }

  lemma {:induction false} RepeatFilter(s: seq<Event>, n: nat, keep: set<Kind>)
    ensures Filter(Repeat(s, n), keep) == Repeat(Filter(s, keep), n)
  {
    if n > 0 {
      var prev := Repeat(s, n - 1);
      assert Repeat(s, n) == prev + s;
      RepeatFilter(s, n - 1, keep);
      FilterAppend(prev, s, keep);
      assert Repeat(Filter(s, keep), n) == Repeat(Filter(s, keep), n - 1) + Filter(s, keep);
    }
  }

  lemma {:induction false} RepeatLength(s: seq<Event>, n: nat)
    ensures |Repeat(s, n)| == n * |s|
  {
    if n > 0 {
      RepeatLength(s, n - 1);
      assert |Repeat(s, n)| == (n - 1) * |s| + |s|;
    }
  }

  lemma {:induction false} TotalDelayAppend(a: seq<Event>, b: seq<Event>)
    ensures TotalDelay(a + b) == TotalDelay(a) + TotalDelay(b)
  {
    if |a| == 0 {
      assert a + b == b;
    } else {
      assert (a + b)[1..] == a[1..] + b;
      TotalDelayAppend(a[1..], b);
    }
  }

  lemma {:induction false} RepeatTotalDelay(s: seq<Event>, n: nat)
    ensures TotalDelay(Repeat(s, n)) == n * TotalDelay(s)
  {
    if n > 0 {
      var prev := Repeat(s, n - 1);
      assert Repeat(s, n) == prev + s;
      RepeatTotalDelay(s, n - 1);
      TotalDelayAppend(prev, s);
      var d := TotalDelay(s);
      assert (n - 1) * d + d == n * d;
    }
  }

  lemma {:induction false} TotalDelayNone(t: seq<Event>)
    requires forall e :: e in t ==> !e.Delay?
    ensures TotalDelay(t) == 0
  {
    if |t| > 0 {
      assert t[0] in t;
      assert forall e :: e in t[1..] ==> e in t;
      TotalDelayNone(t[1..]);
    }
  }

  // A trace made of six consecutive parts, as the measurement cycle is.

  lemma FilterSix(a: seq<Event>, b: seq<Event>, c: seq<Event>, d: seq<Event>, e: seq<Event>, f: seq<Event>, keep: set<Kind>)
    ensures Filter(a + b + c + d + e + f, keep)
         == Filter(a, keep) + Filter(b, keep) + Filter(c, keep) + Filter(d, keep) + Filter(e, keep) + Filter(f, keep)
  {
    FilterAppend(a + b + c + d + e, f, keep);
    FilterAppend(a + b + c + d, e, keep);
    FilterAppend(a + b + c, d, keep);
    FilterAppend(a + b, c, keep);
    FilterAppend(a, b, keep);
  }

  lemma FilterOnlyFirst(a: seq<Event>, b: seq<Event>, c: seq<Event>, d: seq<Event>, e: seq<Event>, f: seq<Event>, keep: set<Kind>)
    requires Filter(b, keep) == [] && Filter(c, keep) == [] && Filter(d, keep) == []
    requires Filter(e, keep) == [] && Filter(f, keep) == []
    ensures Filter(a + b + c + d + e + f, keep) == Filter(a, keep)
  {
    FilterSix(a, b, c, d, e, f, keep);
    assert Filter(a, keep) + [] + [] + [] + [] + [] == Filter(a, keep);
  }

  lemma FilterOnlySecond(a: seq<Event>, b: seq<Event>, c: seq<Event>, d: seq<Event>, e: seq<Event>, f: seq<Event>, keep: set<Kind>)
    requires Filter(a, keep) == [] && Filter(c, keep) == [] && Filter(d, keep) == []
    requires Filter(e, keep) == [] && Filter(f, keep) == []
    ensures Filter(a + b + c + d + e + f, keep) == Filter(b, keep)
  {
    FilterSix(a, b, c, d, e, f, keep);
    assert [] + Filter(b, keep) + [] + [] + [] + [] == Filter(b, keep);
  }

  lemma FilterOnlyThird(a: seq<Event>, b: seq<Event>, c: seq<Event>, d: seq<Event>, e: seq<Event>, f: seq<Event>, keep: set<Kind>)
    requires Filter(a, keep) == [] && Filter(b, keep) == [] && Filter(d, keep) == []
    requires Filter(e, keep) == [] && Filter(f, keep) == []
    ensures Filter(a + b + c + d + e + f, keep) == Filter(c, keep)
  {
    FilterSix(a, b, c, d, e, f, keep);
    assert [] + [] + Filter(c, keep) + [] + [] + [] == Filter(c, keep);
  }

  lemma FilterOnlyFourth(a: seq<Event>, b: seq<Event>, c: seq<Event>, d: seq<Event>, e: seq<Event>, f: seq<Event>, keep: set<Kind>)
    requires Filter(a, keep) == [] && Filter(b, keep) == [] && Filter(c, keep) == []
    requires Filter(e, keep) == [] && Filter(f, keep) == []
    ensures Filter(a + b + c + d + e + f, keep) == Filter(d, keep)
  {
    FilterSix(a, b, c, d, e, f, keep);
    assert [] + [] + [] + Filter(d, keep) + [] + [] == Filter(d, keep);
  }

  lemma FilterOnlyFifth(a: seq<Event>, b: seq<Event>, c: seq<Event>, d: seq<Event>, e: seq<Event>, f: seq<Event>, keep: set<Kind>)
    requires Filter(a, keep) == [] && Filter(b, keep) == [] && Filter(c, keep) == []
    requires Filter(d, keep) == [] && Filter(f, keep) == []
    ensures Filter(a + b + c + d + e + f, keep) == Filter(e, keep)
  {
    FilterSix(a, b, c, d, e, f, keep);
    assert [] + [] + [] + [] + Filter(e, keep) + [] == Filter(e, keep);
  }

  lemma FilterOnlySixth(a: seq<Event>, b: seq<Event>, c: seq<Event>, d: seq<Event>, e: seq<Event>, f: seq<Event>, keep: set<Kind>)
    requires Filter(a, keep) == [] && Filter(b, keep) == [] && Filter(c, keep) == []
    requires Filter(d, keep) == [] && Filter(e, keep) == []
    ensures Filter(a + b + c + d + e + f, keep) == Filter(f, keep)
  {
    FilterSix(a, b, c, d, e, f, keep);
    assert [] + [] + [] + [] + [] + Filter(f, keep) == Filter(f, keep);
  }

  lemma TotalDelaySix(a: seq<Event>, b: seq<Event>, c: seq<Event>, d: seq<Event>, e: seq<Event>, f: seq<Event>)
    ensures TotalDelay(a + b + c + d + e + f)
         == TotalDelay(a) + TotalDelay(b) + TotalDelay(c) + TotalDelay(d) + TotalDelay(e) + TotalDelay(f)
  {
    TotalDelayAppend(a + b + c + d + e, f);
    TotalDelayAppend(a + b + c + d, e);
    TotalDelayAppend(a + b + c, d);
    TotalDelayAppend(a + b, c);
    TotalDelayAppend(a, b);
  }

  lemma AllOfSix(a: seq<Event>, b: seq<Event>, c: seq<Event>, d: seq<Event>, e: seq<Event>, f: seq<Event>, kinds: set<Kind>)
    requires AllOf(a, kinds) && AllOf(b, kinds) && AllOf(c, kinds)
    requires AllOf(d, kinds) && AllOf(e, kinds) && AllOf(f, kinds)
    ensures AllOf(a + b + c + d + e + f, kinds)
  {
    AllOfAppend(a, b, kinds);
    AllOfAppend(a + b, c, kinds);
    AllOfAppend(a + b + c, d, kinds);
    AllOfAppend(a + b + c + d, e, kinds);
    AllOfAppend(a + b + c + d + e, f, kinds);
  }
}
