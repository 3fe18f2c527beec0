/**
 * setupSyncMeasure and measureLoop: the 16-bit cycle counter, the fixed
 * stage sequence of one measurement cycle, and the ordered start-up
 * sequence in which only a missing sensor halts.
 */
module SyncMeasure {
  import opened Options
  import opened Trace
  import Connectivity
  import Sensor
  import Datalog
  import Display
  import Telemetry

  const U16_MODULUS: int := 0x1_0000

  /** A value of C's uint16_t. */
  type U16 = x: int | 0 <= x < U16_MODULUS

  /** `cycleCounter++` on a uint16_t: one more, wrapping from 65535 to 0. */
  function Inc16(c: U16): (r: U16)
    ensures c < U16_MODULUS - 1 ==> r == c + 1
    ensures c == U16_MODULUS - 1 ==> r == 0
  {
    (c + 1) % U16_MODULUS
  }

  /** The counter after `n` increments starting from `c`. */
  function IncTimes(c: U16, n: nat): U16
  {
    if n == 0 then c else Inc16(IncTimes(c, n - 1))
  }

  lemma ModUnique(a: int, q: int, r: int)
    requires a == U16_MODULUS * q + r && 0 <= r < U16_MODULUS
    ensures a % U16_MODULUS == r
  {
  }

  lemma ModPeriod(a: int, q: int, r: int)
    requires a == Display.REFRESH_PERIOD * q + r && 0 <= r < Display.REFRESH_PERIOD
    ensures a % Display.REFRESH_PERIOD == r
  {
  }

  /** Adding one before or after reducing modulo 65536 gives the same residue. */
  lemma IncMod(k: nat)
    ensures Inc16(k % U16_MODULUS) == (k + 1) % U16_MODULUS
  {
    var q, r := k / U16_MODULUS, k % U16_MODULUS;
    assert k == U16_MODULUS * q + r;
    if r < U16_MODULUS - 1 {
      ModUnique(k + 1, q, r + 1);
    } else {
      ModUnique(k + 1, q + 1, 0);
    }
  }

  /** `n` increments of a uint16_t add `n` modulo 65536. */
  lemma {:induction false} IncTimesWraps(c: U16, n: nat)
    ensures IncTimes(c, n) == (c + n) % U16_MODULUS
  {
    if n == 0 {
      ModUnique(c, 0, c);
    } else {
      IncTimesWraps(c, n - 1);
      IncMod(c + n - 1);
    }
  }

  /** Whether the n-th cycle after set-up (n >= 1) forces a full redraw. */
  predicate CycleRedraws(n: nat)
  {
    IncTimes(0, n) % Display.REFRESH_PERIOD == 0
  }

  /** Before the counter wraps, the n-th cycle sees counter n. */
  lemma CounterBeforeWrap(n: nat)
    requires n < U16_MODULUS
    ensures IncTimes(0, n) == n
  {
    IncTimesWraps(0, n);
    ModUnique(n, 0, n);
  }

  /** Every 65536-th cycle sees the counter wrapped to 0. */
  lemma CounterAtWrap(n: nat)
    requires n % U16_MODULUS == 0
    ensures IncTimes(0, n) == 0
  {
    IncTimesWraps(0, n);
  }

  /** The first cycle sees counter 1, and the first redraw happens at cycle 40. */
  lemma RedrawScheduleStart(n: nat)
    requires 1 <= n <= 40
    ensures n == 1 ==> IncTimes(0, n) == 1
    ensures CycleRedraws(n) <==> n == 40
  {
    CounterBeforeWrap(n);
    if n < 40 {
      ModPeriod(n, 0, n);
    } else {
      ModPeriod(n, 1, 0);
    }
  }

  /**
   * Because 65536 is not a multiple of 40, the redraw at cycle 65520 is
   * followed by the one at cycle 65536, where the counter wraps to 0,
   * only 16 cycles later.
   */
  lemma RedrawScheduleWrap(n: nat)
    requires 65520 <= n <= 65536
    ensures CycleRedraws(n) <==> n == 65520 || n == 65536
  {
    if n < U16_MODULUS {
      CounterBeforeWrap(n);
      ModPeriod(n, 1638, n - 65520);
    } else {
      ModUnique(n, 1, 0);
      CounterAtWrap(n);
    }
  }

  /** Short of the wrap, the counter m - n cycles after cycle n is m - n ahead of it. */
  lemma CounterAhead(n: nat, m: nat)
    requires n <= m && n % U16_MODULUS + (m - n) < U16_MODULUS
    ensures IncTimes(0, m) == n % U16_MODULUS + (m - n)
  {
    var q, r := n / U16_MODULUS, n % U16_MODULUS;
    assert n == U16_MODULUS * q + r;
    IncTimesWraps(0, m);
    ModUnique(m, q, r + (m - n));
  }

  /**
   * Away from the wrap, redraws are exactly 40 cycles apart: a redraw at
   * cycle n is followed by none in the next 39 cycles and one at n + 40.
   */
  lemma RedrawPeriod(n: nat)
    requires CycleRedraws(n)
    requires n % U16_MODULUS + 40 < U16_MODULUS
    ensures CycleRedraws(n + 40)
    ensures forall m :: n < m < n + 40 ==> !CycleRedraws(m)
  {
    var r := n % U16_MODULUS;
    CounterAhead(n, n);
    var p := r / Display.REFRESH_PERIOD;
    assert r == Display.REFRESH_PERIOD * p;
    CounterAhead(n, n + 40);
    ModPeriod(r + 40, p + 1, 0);
    forall m: nat | n < m < n + 40
      ensures !CycleRedraws(m)
    {
      CounterAhead(n, m);
      ModPeriod(r + (m - n), p, m - n);
    }
  }

  /** The answers the outside world gives during one measureLoop call. */
  datatype CycleOracle = CycleOracle(
    wifiStatus: int,                     // WiFi.status() at the reconnect check
    pollAnswer: nat -> int,              // successive WiFi.status() answers inside wifi_connect
    aioStatusAtPump: int,                // io.status() before io.run()
    reading: Option<Sensor.BmeReading>,  // bme.performReading(): None when it fails
    logOpens: bool,                      // SD open of the data log in append mode
    aioStatusAtSend: int)                // io.status() before the feed saves

  /** The module's one piece of state. */
  datatype State = State(cycleCounter: U16)

  const HEARTBEAT_PULSE_MS: nat := 100

  /** Effects of gpio_signalMeasureCycleSuccess. */
  const HEARTBEAT: seq<Event> := [LedLow, Delay(HEARTBEAT_PULSE_MS), LedHigh]

  const BEAT_KINDS: set<Kind> := {LedLowKind, DelayKind(HEARTBEAT_PULSE_MS), LedHighKind}

  /** The sample a cycle works on. */
  function CycleSample(o: CycleOracle): Sensor.Sample
  {
    Sensor.ReadSensorData(o.reading)
  }

  function LinkStage(o: CycleOracle): seq<Event>
  {
    Connectivity.ConnectIfDisconnected(o.wifiStatus, o.pollAnswer)
  }

  function PumpStage(o: CycleOracle): seq<Event>
  {
    Connectivity.CheckIoEvents(o.aioStatusAtPump)
  }

  const READ_STAGE: seq<Event> := [ReadSensor]

  function ShowStage(c: U16, o: CycleOracle, panel: Display.Panel): seq<Event>
  {
    Display.ShowSensorData(c, CycleSample(o), o.logOpens, panel)
  }

  function SendStage(o: CycleOracle): seq<Event>
  {
    Telemetry.SendSensorData(CycleSample(o), o.aioStatusAtSend)
  }

  /** The stages of measureLoop in call order, around the fixed sensor read and LED pulse. */
  function Cycle(link: seq<Event>, pump: seq<Event>, show: seq<Event>, send: seq<Event>): seq<Event>
  {
    link + pump + READ_STAGE + show + send + HEARTBEAT
  }

  /** The effects of measureLoop for counter value `c`. */
  function CycleTrace(c: U16, o: CycleOracle, panel: Display.Panel): seq<Event>
  {
    Cycle(LinkStage(o), PumpStage(o), ShowStage(c, o, panel), SendStage(o))
  }

  /**
   * measureLoop: the counter is incremented first, then every stage runs,
   * whatever the earlier ones met; the LED pulse low-then-high closes it.
   */
  function MeasureLoop(s: State, o: CycleOracle, panel: Display.Panel): (r: (State, seq<Event>))
    ensures r.0.cycleCounter == Inc16(s.cycleCounter)
  {
    var c := Inc16(s.cycleCounter);
    (State(c), CycleTrace(c, o, panel))
  }

  // What kinds of event each stage can produce.

  lemma LinkKinds(o: CycleOracle)
    ensures AllOf(LinkStage(o), Connectivity.LINK_KINDS)
  {
    Connectivity.ConnectIfDisconnectedEvents(o.wifiStatus, o.pollAnswer);
  }

  lemma ShowKinds(c: U16, o: CycleOracle, panel: Display.Panel)
    ensures AllOf(ShowStage(c, o, panel), Display.SHOW_KINDS)
  {
    Display.ShowSensorDataEvents(c, CycleSample(o), o.logOpens, panel);
  }

  lemma SendKinds(o: CycleOracle)
    ensures AllOf(SendStage(o), SAVES)
  {
    Telemetry.SendSensorDataFeeds(CycleSample(o), o.aioStatusAtSend);
  }

  /** Stage traces of the shapes the four variable stages have. */
  predicate StageShapes(link: seq<Event>, pump: seq<Event>, show: seq<Event>, send: seq<Event>)
  {
    && AllOf(link, Connectivity.LINK_KINDS)
    && AllOf(pump, IO_RUNS)
    && AllOf(show, Display.SHOW_KINDS)
    && AllOf(send, SAVES)
  }

  lemma CycleShapes(c: U16, o: CycleOracle, panel: Display.Panel)
    ensures StageShapes(LinkStage(o), PumpStage(o), ShowStage(c, o, panel), SendStage(o))
  {
    LinkKinds(o);
    ShowKinds(c, o, panel);
    SendKinds(o);
  }

  // Which stage kinds are apart, each stated once about the constants.

  lemma ShowApart()
    ensures Connectivity.LINK_KINDS !! Display.SHOW_KINDS && IO_RUNS !! Display.SHOW_KINDS
    ensures SENSOR_READS !! Display.SHOW_KINDS && SAVES !! Display.SHOW_KINDS && BEAT_KINDS !! Display.SHOW_KINDS
  {
  }

  lemma LinkApart()
    ensures IO_RUNS !! Connectivity.LINK_KINDS && SENSOR_READS !! Connectivity.LINK_KINDS
    ensures Display.SHOW_KINDS !! Connectivity.LINK_KINDS && SAVES !! Connectivity.LINK_KINDS
    ensures BEAT_KINDS !! Connectivity.LINK_KINDS
  {
  }

  lemma ReadsApart()
    ensures Connectivity.LINK_KINDS !! SENSOR_READS && IO_RUNS !! SENSOR_READS && Display.SHOW_KINDS !! SENSOR_READS
    ensures SAVES !! SENSOR_READS && BEAT_KINDS !! SENSOR_READS
  {
  }

  lemma LedsApart()
    ensures Connectivity.LINK_KINDS !! LED_LEVELS && IO_RUNS !! LED_LEVELS && SENSOR_READS !! LED_LEVELS
    ensures Display.SHOW_KINDS !! LED_LEVELS && SAVES !! LED_LEVELS
  {
  }

  lemma SavesApart()
    ensures Connectivity.LINK_KINDS !! SAVES && IO_RUNS !! SAVES && SENSOR_READS !! SAVES
    ensures Display.SHOW_KINDS !! SAVES && BEAT_KINDS !! SAVES
  {
  }

  lemma RunsApart()
    ensures Connectivity.LINK_KINDS !! IO_RUNS && SENSOR_READS !! IO_RUNS && Display.SHOW_KINDS !! IO_RUNS
    ensures SAVES !! IO_RUNS && BEAT_KINDS !! IO_RUNS
  {
  }

  /** Filtering for a kind no stage but the display step produces keeps what that step produced. */
  lemma OnlyShow(link: seq<Event>, pump: seq<Event>, show: seq<Event>, send: seq<Event>, keep: set<Kind>)
    requires StageShapes(link, pump, show, send)
    requires keep <= Display.SHOW_KINDS
    ensures Filter(Cycle(link, pump, show, send), keep) == Filter(show, keep)
  {
    FixedStages();
    ShowApart();
    assert Filter(link, keep) == [] by { FilterNoneOfWithin(link, Connectivity.LINK_KINDS, Display.SHOW_KINDS, keep); }
    assert Filter(pump, keep) == [] by { FilterNoneOfWithin(pump, IO_RUNS, Display.SHOW_KINDS, keep); }
    assert Filter(READ_STAGE, keep) == [] by { FilterNoneOfWithin(READ_STAGE, SENSOR_READS, Display.SHOW_KINDS, keep); }
    assert Filter(send, keep) == [] by { FilterNoneOfWithin(send, SAVES, Display.SHOW_KINDS, keep); }
    assert Filter(HEARTBEAT, keep) == [] by { FilterNoneOfWithin(HEARTBEAT, BEAT_KINDS, Display.SHOW_KINDS, keep); }
    FilterOnlyFourth(link, pump, READ_STAGE, show, send, HEARTBEAT, keep);
  }

  /** Filtering for a kind only the reconnect check produces keeps what it produced. */
  lemma OnlyLink(link: seq<Event>, pump: seq<Event>, show: seq<Event>, send: seq<Event>, keep: set<Kind>)
    requires StageShapes(link, pump, show, send)
    requires keep <= Connectivity.LINK_KINDS
    ensures Filter(Cycle(link, pump, show, send), keep) == Filter(link, keep)
  {
    FixedStages();
    LinkApart();
    assert Filter(pump, keep) == [] by { FilterNoneOfWithin(pump, IO_RUNS, Connectivity.LINK_KINDS, keep); }
    assert Filter(READ_STAGE, keep) == [] by { FilterNoneOfWithin(READ_STAGE, SENSOR_READS, Connectivity.LINK_KINDS, keep); }
    assert Filter(show, keep) == [] by { FilterNoneOfWithin(show, Display.SHOW_KINDS, Connectivity.LINK_KINDS, keep); }
    assert Filter(send, keep) == [] by { FilterNoneOfWithin(send, SAVES, Connectivity.LINK_KINDS, keep); }
    assert Filter(HEARTBEAT, keep) == [] by { FilterNoneOfWithin(HEARTBEAT, BEAT_KINDS, Connectivity.LINK_KINDS, keep); }
    FilterOnlyFirst(link, pump, READ_STAGE, show, send, HEARTBEAT, keep);
  }

  /** The two fixed stages: the sensor read and the LED pulse. */
  lemma FixedStages()
    ensures AllOf(READ_STAGE, SENSOR_READS) && Filter(READ_STAGE, SENSOR_READS) == [ReadSensor]
    ensures AllOf(HEARTBEAT, BEAT_KINDS)
  {
    FilterSingle(ReadSensor, SENSOR_READS);
  }

  /** The LED pulse drives the LED low, then high. */
  lemma HeartbeatLeds()
    ensures Filter(HEARTBEAT, LED_LEVELS) == [LedLow, LedHigh]
  {
    assert HEARTBEAT == [LedLow] + [Delay(HEARTBEAT_PULSE_MS)] + [LedHigh];
    FilterAppend3([LedLow], [Delay(HEARTBEAT_PULSE_MS)], [LedHigh], LED_LEVELS);
    FilterSingle(LedLow, LED_LEVELS);
    FilterSingle(Delay(HEARTBEAT_PULSE_MS), LED_LEVELS);
    FilterSingle(LedHigh, LED_LEVELS);
  }

  /** The LED pulse lasts 100 ms. */
  lemma HeartbeatDelay()
    ensures TotalDelay(HEARTBEAT) == HEARTBEAT_PULSE_MS
  {
    TotalDelayAppend([LedLow], [Delay(HEARTBEAT_PULSE_MS), LedHigh]);
    TotalDelayAppend([Delay(HEARTBEAT_PULSE_MS)], [LedHigh]);
  }

  /** Whatever the stages met, a cycle reads the sensor exactly once. */
  lemma CycleReadsOnce(link: seq<Event>, pump: seq<Event>, show: seq<Event>, send: seq<Event>)
    requires StageShapes(link, pump, show, send)
    ensures Filter(Cycle(link, pump, show, send), SENSOR_READS) == [ReadSensor]
  {
    FixedStages();
    ReadsApart();
    FilterNoneOf(link, Connectivity.LINK_KINDS, SENSOR_READS);
    FilterNoneOf(pump, IO_RUNS, SENSOR_READS);
    FilterNoneOf(show, Display.SHOW_KINDS, SENSOR_READS);
    FilterNoneOf(send, SAVES, SENSOR_READS);
    FilterNoneOf(HEARTBEAT, BEAT_KINDS, SENSOR_READS);
    FilterOnlyThird(link, pump, READ_STAGE, show, send, HEARTBEAT, SENSOR_READS);
  }

  /** No stage is skipped: whatever the outside world answers, a cycle reads the sensor exactly once. */
  lemma MeasureLoopReadsOnce(s: State, o: CycleOracle, panel: Display.Panel)
    ensures Filter(MeasureLoop(s, o, panel).1, SENSOR_READS) == [ReadSensor]
  {
    var c := Inc16(s.cycleCounter);
    CycleShapes(c, o, panel);
    CycleReadsOnce(LinkStage(o), PumpStage(o), ShowStage(c, o, panel), SendStage(o));
  }

  /** Whatever the stages met, a cycle drives the LED low and then high, once each. */
  lemma CycleBeats(link: seq<Event>, pump: seq<Event>, show: seq<Event>, send: seq<Event>)
    requires StageShapes(link, pump, show, send)
    ensures Filter(Cycle(link, pump, show, send), LED_LEVELS) == [LedLow, LedHigh]
  {
    FixedStages();
    LedsApart();
    FilterNoneOf(link, Connectivity.LINK_KINDS, LED_LEVELS);
    FilterNoneOf(pump, IO_RUNS, LED_LEVELS);
    FilterNoneOf(READ_STAGE, SENSOR_READS, LED_LEVELS);
    FilterNoneOf(show, Display.SHOW_KINDS, LED_LEVELS);
    FilterNoneOf(send, SAVES, LED_LEVELS);
    FilterOnlySixth(link, pump, READ_STAGE, show, send, HEARTBEAT, LED_LEVELS);
    HeartbeatLeds();
  }

  /** No stage is skipped: every cycle ends with the LED driven low and then high, once each. */
  /** Every cycle ends with the heartbeat: LED low, the 100 ms pulse, LED high. */
  lemma CycleEndsWithBeat(link: seq<Event>, pump: seq<Event>, show: seq<Event>, send: seq<Event>)
    ensures var t := Cycle(link, pump, show, send);
      |t| >= 3 && t[|t| - 3..] == HEARTBEAT
  {
    var front := link + pump + READ_STAGE + show + send;
    assert Cycle(link, pump, show, send) == front + HEARTBEAT;
    assert (front + HEARTBEAT)[|front|..] == HEARTBEAT;
  }

  lemma MeasureLoopHeartbeat(s: State, o: CycleOracle, panel: Display.Panel)
    ensures Filter(MeasureLoop(s, o, panel).1, LED_LEVELS) == [LedLow, LedHigh]
    ensures var t := MeasureLoop(s, o, panel).1;
      |t| >= 3 && t[|t| - 3..] == HEARTBEAT && t[|t| - 1] == LedHigh
  {
    var c := Inc16(s.cycleCounter);
    CycleShapes(c, o, panel);
    CycleBeats(LinkStage(o), PumpStage(o), ShowStage(c, o, panel), SendStage(o));
    CycleEndsWithBeat(LinkStage(o), PumpStage(o), ShowStage(c, o, panel), SendStage(o));
  }

  lemma CycleLog(link: seq<Event>, pump: seq<Event>, show: seq<Event>, send: seq<Event>)
    requires StageShapes(link, pump, show, send)
    ensures Filter(Cycle(link, pump, show, send), LOG_KINDS) == Filter(show, LOG_KINDS)
  {
    OnlyShow(link, pump, show, send, LOG_KINDS);
  }

  /**
   * The data-log append is attempted in every cycle; a write and the close
   * follow only when the open succeeded. The write carries what snprintf
   * makes of the arguments as written, which is no defined line, for every
   * sample read.
   */
  lemma MeasureLoopLog(s: State, o: CycleOracle, panel: Display.Panel)
    ensures var log := Filter(MeasureLoop(s, o, panel).1, LOG_KINDS);
      && log == Datalog.AppendFile(o.logOpens, Datalog.CycleLine(CycleSample(o)))
      && log[0] == OpenLog(Datalog.DATALOG_PATH)
      && (WriteLog(None) in log <==> o.logOpens)
      && (CloseLog in log <==> o.logOpens)
      && (forall e :: e in log && e.WriteLog? ==> e.line == None)
  {
    var c := Inc16(s.cycleCounter);
    CycleShapes(c, o, panel);
    CycleLog(LinkStage(o), PumpStage(o), ShowStage(c, o, panel), SendStage(o));
    Display.ShowSensorDataLog(c, CycleSample(o), o.logOpens, panel);
    Datalog.FormatLineCorrected(CycleSample(o));
    Datalog.AppendFileEvents(o.logOpens, Datalog.CycleLine(CycleSample(o)));
  }

  lemma CycleRedrawFilter(link: seq<Event>, pump: seq<Event>, show: seq<Event>, send: seq<Event>)
    requires StageShapes(link, pump, show, send)
    ensures Filter(Cycle(link, pump, show, send), REDRAWS) == Filter(show, REDRAWS)
  {
    OnlyShow(link, pump, show, send, REDRAWS);
  }

  /** A cycle redraws the main screen iff its (already incremented) counter is a multiple of 40. */
  lemma MeasureLoopRedraw(s: State, o: CycleOracle, panel: Display.Panel)
    ensures var c := MeasureLoop(s, o, panel).0.cycleCounter;
      Filter(MeasureLoop(s, o, panel).1, REDRAWS)
        == (if c % Display.REFRESH_PERIOD == 0 then [FullRedraw] else [])
  {
    var c := Inc16(s.cycleCounter);
    CycleShapes(c, o, panel);
    CycleRedrawFilter(LinkStage(o), PumpStage(o), ShowStage(c, o, panel), SendStage(o));
    Display.ShowSensorDataRedraw(c, CycleSample(o), o.logOpens, panel);
  }

  lemma CycleWindows(link: seq<Event>, pump: seq<Event>, show: seq<Event>, send: seq<Event>)
    requires StageShapes(link, pump, show, send)
    ensures Filter(Cycle(link, pump, show, send), WINDOW_UPDATES) == Filter(show, WINDOW_UPDATES)
  {
    OnlyShow(link, pump, show, send, WINDOW_UPDATES);
  }

  /** Every cycle issues the whole partial-update table, in table order, and no other window. */
  lemma MeasureLoopWindows(s: State, o: CycleOracle, panel: Display.Panel)
    ensures Filter(MeasureLoop(s, o, panel).1, WINDOW_UPDATES) == Display.UpdateBufferForData(panel)
  {
    var c := Inc16(s.cycleCounter);
    CycleShapes(c, o, panel);
    CycleWindows(LinkStage(o), PumpStage(o), ShowStage(c, o, panel), SendStage(o));
    Display.ShowSensorDataWindows(c, CycleSample(o), o.logOpens, panel);
  }

  /** Only the feed-save stage saves, and all of it is saves. */
  lemma CycleSaves(link: seq<Event>, pump: seq<Event>, show: seq<Event>, send: seq<Event>)
    requires StageShapes(link, pump, show, send)
    ensures Filter(Cycle(link, pump, show, send), SAVES) == send
  {
    FixedStages();
    SavesApart();
    FilterNoneOf(link, Connectivity.LINK_KINDS, SAVES);
    FilterNoneOf(pump, IO_RUNS, SAVES);
    FilterNoneOf(READ_STAGE, SENSOR_READS, SAVES);
    FilterNoneOf(show, Display.SHOW_KINDS, SAVES);
    FilterNoneOf(HEARTBEAT, BEAT_KINDS, SAVES);
    FilterOnlyFifth(link, pump, READ_STAGE, show, send, HEARTBEAT, SAVES);
    FilterAll(send, SAVES);
  }

  /**
   * The feed saves of a cycle: when io.status() read just before sending
   * counts as connected, the four feeds in order with the raw fields of the
   * sample read in this cycle; otherwise none.
   */
  lemma MeasureLoopPublish(s: State, o: CycleOracle, panel: Display.Panel)
    ensures var saves := Filter(MeasureLoop(s, o, panel).1, SAVES);
      && (Connectivity.IsAioConnected(o.aioStatusAtSend) ==>
            |saves| == |Telemetry.FEED_ORDER| &&
            forall i :: 0 <= i < |saves| ==>
              saves[i] == Save(Telemetry.FEED_ORDER[i], Telemetry.FieldFor(CycleSample(o), Telemetry.FEED_ORDER[i])))
      && (!Connectivity.IsAioConnected(o.aioStatusAtSend) ==> saves == [])
  {
    var c := Inc16(s.cycleCounter);
    CycleShapes(c, o, panel);
    CycleSaves(LinkStage(o), PumpStage(o), ShowStage(c, o, panel), SendStage(o));
    Telemetry.SendSensorDataFeeds(CycleSample(o), o.aioStatusAtSend);
  }

  /** Only the event pump runs io.run(). */
  lemma CyclePumps(link: seq<Event>, pump: seq<Event>, show: seq<Event>, send: seq<Event>)
    requires StageShapes(link, pump, show, send)
    ensures Filter(Cycle(link, pump, show, send), IO_RUNS) == pump
  {
    FixedStages();
    RunsApart();
    FilterNoneOf(link, Connectivity.LINK_KINDS, IO_RUNS);
    FilterNoneOf(READ_STAGE, SENSOR_READS, IO_RUNS);
    FilterNoneOf(show, Display.SHOW_KINDS, IO_RUNS);
    FilterNoneOf(send, SAVES, IO_RUNS);
    FilterNoneOf(HEARTBEAT, BEAT_KINDS, IO_RUNS);
    FilterOnlySecond(link, pump, READ_STAGE, show, send, HEARTBEAT, IO_RUNS);
    FilterAll(pump, IO_RUNS);
  }

  /** io.run() is called in a cycle iff io.status() read just before it counts as connected. */
  lemma MeasureLoopPump(s: State, o: CycleOracle, panel: Display.Panel)
    ensures Filter(MeasureLoop(s, o, panel).1, IO_RUNS)
         == (if Connectivity.IsAioConnected(o.aioStatusAtPump) then [RunEvents] else [])
  {
    var c := Inc16(s.cycleCounter);
    CycleShapes(c, o, panel);
    CyclePumps(LinkStage(o), PumpStage(o), ShowStage(c, o, panel), SendStage(o));
  }

  lemma CycleConnects(link: seq<Event>, pump: seq<Event>, show: seq<Event>, send: seq<Event>)
    requires StageShapes(link, pump, show, send)
    ensures Filter(Cycle(link, pump, show, send), CONNECTS) == Filter(link, CONNECTS)
    ensures Filter(Cycle(link, pump, show, send), POLLS) == Filter(link, POLLS)
  {
    OnlyLink(link, pump, show, send, CONNECTS);
    OnlyLink(link, pump, show, send, POLLS);
  }

  /** What the reconnect check contributes, from the WiFi status it reads. */
  lemma LinkStageFacts(o: CycleOracle)
    ensures Filter(LinkStage(o), CONNECTS) == (if Connectivity.NeedsReconnect(o.wifiStatus) then [Connect] else [])
    ensures Count(LinkStage(o), POLLS)
         == (if Connectivity.NeedsReconnect(o.wifiStatus) then Connectivity.PollsTaken(o.pollAnswer) else 0)
    ensures TotalDelay(LinkStage(o)) == Connectivity.POLL_DELAY_MS * Count(LinkStage(o), POLLS)
  {
    if Connectivity.NeedsReconnect(o.wifiStatus) {
      Connectivity.WifiConnectPolls(o.pollAnswer);
    }
  }

  /**
   * io.connect() is called in a cycle iff the WiFi status read at the start of
   * the cycle is one of the three lost-link codes, and the wait then polls
   * the status as often as wifi_connect does.
   */
  lemma MeasureLoopReconnect(s: State, o: CycleOracle, panel: Display.Panel)
    ensures var t := MeasureLoop(s, o, panel).1;
      && Filter(t, CONNECTS) == (if Connectivity.NeedsReconnect(o.wifiStatus) then [Connect] else [])
      && Count(t, POLLS) == (if Connectivity.NeedsReconnect(o.wifiStatus) then Connectivity.PollsTaken(o.pollAnswer) else 0)
  {
    var c := Inc16(s.cycleCounter);
    CycleShapes(c, o, panel);
    CycleConnects(LinkStage(o), PumpStage(o), ShowStage(c, o, panel), SendStage(o));
    LinkStageFacts(o);
  }

  lemma NoDelayStages()
    ensures forall k :: k in IO_RUNS ==> !k.DelayKind?
    ensures forall k :: k in SENSOR_READS ==> !k.DelayKind?
    ensures forall k :: k in Display.SHOW_KINDS ==> !k.DelayKind?
    ensures forall k :: k in SAVES ==> !k.DelayKind?
  {
  }

  /** Only the reconnect wait and the LED pulse wait. */
  lemma CycleWaits(link: seq<Event>, pump: seq<Event>, show: seq<Event>, send: seq<Event>)
    requires StageShapes(link, pump, show, send)
    ensures TotalDelay(Cycle(link, pump, show, send)) == TotalDelay(link) + HEARTBEAT_PULSE_MS
  {
    FixedStages();
    NoDelayStages();
    TotalDelaySix(link, pump, READ_STAGE, show, send, HEARTBEAT);
    TotalDelayNoneOf(pump, IO_RUNS);
    TotalDelayNoneOf(READ_STAGE, SENSOR_READS);
    TotalDelayNoneOf(show, Display.SHOW_KINDS);
    TotalDelayNoneOf(send, SAVES);
    HeartbeatDelay();
  }

  /** The only waiting a cycle does is one second per status poll plus the 100 ms LED pulse. */
  lemma MeasureLoopDelay(s: State, o: CycleOracle, panel: Display.Panel)
    ensures var t := MeasureLoop(s, o, panel).1;
      TotalDelay(t) == Connectivity.POLL_DELAY_MS * Count(t, POLLS) + HEARTBEAT_PULSE_MS
  {
    var c := Inc16(s.cycleCounter);
    CycleShapes(c, o, panel);
    CycleConnects(LinkStage(o), PumpStage(o), ShowStage(c, o, panel), SendStage(o));
    CycleWaits(LinkStage(o), PumpStage(o), ShowStage(c, o, panel), SendStage(o));
    LinkStageFacts(o);
  }

  /** The kinds of event a measurement cycle can produce; it waits only for status polls and the LED pulse. */
  const CYCLE_KINDS: set<Kind> :=
    Connectivity.LINK_KINDS + IO_RUNS + SENSOR_READS + Display.SHOW_KINDS + SAVES + BEAT_KINDS

  lemma StagesWithin()
    ensures Connectivity.LINK_KINDS <= CYCLE_KINDS && IO_RUNS <= CYCLE_KINDS && SENSOR_READS <= CYCLE_KINDS
    ensures Display.SHOW_KINDS <= CYCLE_KINDS && SAVES <= CYCLE_KINDS && BEAT_KINDS <= CYCLE_KINDS
  {
  }

  lemma CycleKinds(link: seq<Event>, pump: seq<Event>, show: seq<Event>, send: seq<Event>)
    requires StageShapes(link, pump, show, send)
    ensures AllOf(Cycle(link, pump, show, send), CYCLE_KINDS)
  {
    FixedStages();
    StagesWithin();
    AllOfWiden(link, Connectivity.LINK_KINDS, CYCLE_KINDS);
    AllOfWiden(pump, IO_RUNS, CYCLE_KINDS);
    AllOfWiden(READ_STAGE, SENSOR_READS, CYCLE_KINDS);
    AllOfWiden(show, Display.SHOW_KINDS, CYCLE_KINDS);
    AllOfWiden(send, SAVES, CYCLE_KINDS);
    AllOfWiden(HEARTBEAT, BEAT_KINDS, CYCLE_KINDS);
    AllOfSix(link, pump, READ_STAGE, show, send, HEARTBEAT, CYCLE_KINDS);
  }

  /** A cycle only talks to the network, the sensor, the display, the SD card and the LED. */
  lemma MeasureLoopEventKinds(s: State, o: CycleOracle, panel: Display.Panel)
    ensures AllOf(MeasureLoop(s, o, panel).1, CYCLE_KINDS)
  {
    var c := Inc16(s.cycleCounter);
    CycleShapes(c, o, panel);
    CycleKinds(LinkStage(o), PumpStage(o), ShowStage(c, o, panel), SendStage(o));
  }
}
