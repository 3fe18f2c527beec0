/**
 * The Arduino entry points: setup (boot counter, optional sleep timer and
 * wake-up report, then setupSyncMeasure) and loop (one measurement cycle,
 * then one fixed wait, forever).
 */
module EProbe {
  import opened Trace
  import Display
  import SyncMeasure
  import SyncSetup

  const MEASURE_CYCLE_TIME_MS: nat := 30 * 1000
  const US_TO_S_FACTOR: nat := 1000000
  const TIME_TO_SLEEP_S: nat := 30

  /** The sleep timer interval in microseconds. */
  const SLEEP_TIMER_US: nat := TIME_TO_SLEEP_S * US_TO_S_FACTOR

  /** The build configuration: whether SLEEP_ENABLED is defined, and the panel compiled in. */
  datatype Config = Config(sleepEnabled: bool, panel: Display.Panel)

  /** The wake-up causes print_wakeup_reason distinguishes. */
  datatype WakeupReason = RtcIo | RtcCntl | Timer | Touchpad | Ulp | NotFromDeepSleep

  /** The switch of print_wakeup_reason on esp_sleep_get_wakeup_cause(). */
  function WakeupReasonOf(code: int): WakeupReason
  {
    match code
    case 1 => RtcIo
    case 2 => RtcCntl
    case 3 => Timer
    case 4 => Touchpad
    case 5 => Ulp
    case _ => NotFromDeepSleep
  }

  /** The cause code each named reason is reported for. */
  function ReasonCode(r: WakeupReason): int
    requires r != NotFromDeepSleep
  {
    match r
    case RtcIo => 1
    case RtcCntl => 2
    case Timer => 3
    case Touchpad => 4
    case Ulp => 5
  }

  function WakeupMessage(r: WakeupReason): string
  {
    match r
    case RtcIo => "Wakeup caused by external signal using RTC_IO"
    case RtcCntl => "Wakeup caused by external signal using RTC_CNTL"
    case Timer => "Wakeup caused by timer"
    case Touchpad => "Wakeup caused by touchpad"
    case Ulp => "Wakeup caused by ULP program"
    case NotFromDeepSleep => "Wakeup was not caused by deep sleep"
  }

  /**
   * Codes 1 to 5 each get their own reason, and the mapping back recovers
   * the code; every other code gets the default. Different reasons print
   * different lines.
   */
  lemma WakeupReasonMapping(code: int, r: WakeupReason)
    ensures 1 <= code <= 5 <==> WakeupReasonOf(code) != NotFromDeepSleep
    ensures 1 <= code <= 5 ==> ReasonCode(WakeupReasonOf(code)) == code
    ensures r != NotFromDeepSleep ==> WakeupReasonOf(ReasonCode(r)) == r
    ensures WakeupMessage(r) == WakeupMessage(WakeupReasonOf(code)) <==> r == WakeupReasonOf(code)
  {
    // the six lines all have different lengths
    assert |WakeupMessage(r)| == |WakeupMessage(WakeupReasonOf(code))| ==> r == WakeupReasonOf(code);
  }

  /** What setup() leaves behind: the boot counter, the outcome of setupSyncMeasure, and the effects. */
  datatype Started = Started(bootCount: int, boot: SyncSetup.Boot, trace: seq<Event>)

  /** The part of setup() compiled in only with SLEEP_ENABLED. */
  function SleepPreparation(cfg: Config, wakeCode: int): seq<Event>
  {
    if cfg.sleepEnabled
    then [EnableTimerWakeup(SLEEP_TIMER_US), ReportWakeup(WakeupMessage(WakeupReasonOf(wakeCode)))]
    else []
  }

  /**
   * setup(): bump the boot counter kept in RTC memory, open the serial
   * port, arm the wake-up timer and report the wake-up cause when sleeping
   * is enabled, then run setupSyncMeasure.
   */
  function Setup(bootCount: int, cfg: Config, wakeCode: int, o: SyncSetup.SetupOracle): (r: Started)
    ensures r.bootCount == bootCount + 1
    ensures r.boot == SyncSetup.SetupSyncMeasure(o)
    ensures |r.trace| > 0 && r.trace[0] == SerialBegin
    ensures |r.trace| > |r.boot.trace| && r.trace[|r.trace| - |r.boot.trace|..] == r.boot.trace
    ensures EnableTimerWakeup(SLEEP_TIMER_US) in r.trace <==> cfg.sleepEnabled
  {
    var boot := SyncSetup.SetupSyncMeasure(o);
    var t := [SerialBegin] + SleepPreparation(cfg, wakeCode) + boot.trace;
    assert EnableTimerWakeup(SLEEP_TIMER_US) !in boot.trace by {
      SyncSetup.SetupHasNoTimer(o);
    }
    Started(bootCount + 1, boot, t)
  }

  /** The timer armed for light sleep fires after 30 seconds, like the delay used without sleep. */
  lemma SleepTimerInterval()
    ensures SLEEP_TIMER_US == 30000000
    ensures SLEEP_TIMER_US == MEASURE_CYCLE_TIME_MS * 1000
  {
  }

  /** The wait at the end of every loop() iteration. */
  function Wait(cfg: Config): (t: seq<Event>)
    ensures |t| == 1
    ensures t[0] == LightSleep <==> cfg.sleepEnabled
    ensures t[0] == Delay(MEASURE_CYCLE_TIME_MS) <==> !cfg.sleepEnabled
  {
    if cfg.sleepEnabled then [LightSleep] else [Delay(MEASURE_CYCLE_TIME_MS)]
  }

  /** One pass of the while (1) in loop(): measureLoop, then the wait. */
  function LoopIteration(s: SyncMeasure.State, cfg: Config, o: SyncMeasure.CycleOracle): (r: (SyncMeasure.State, seq<Event>))
    ensures r.0.cycleCounter == SyncMeasure.Inc16(s.cycleCounter)
  {
    var (s', t) := SyncMeasure.MeasureLoop(s, o, cfg.panel);
    (s', t + Wait(cfg))
  }

  /** The two waits loop() can end an iteration with. */
  const WAITS: set<Kind> := {LightSleepKind, DelayKind(MEASURE_CYCLE_TIME_MS)}

  lemma WaitKinds(cfg: Config)
    ensures AllOf(Wait(cfg), WAITS)
  {
  }

  /** The measurement cycle never waits as long as loop() does; a wait is no read, LED level or poll. */
  lemma WaitsApart()
    ensures SyncMeasure.CYCLE_KINDS !! WAITS
    ensures WAITS !! SENSOR_READS && WAITS !! LED_LEVELS && WAITS !! POLLS
  {
  }

  lemma IterationReads(s: SyncMeasure.State, cfg: Config, o: SyncMeasure.CycleOracle)
    ensures Filter(LoopIteration(s, cfg, o).1, SENSOR_READS) == [ReadSensor]
  {
    var m := SyncMeasure.MeasureLoop(s, o, cfg.panel).1;
    WaitKinds(cfg);
    WaitsApart();
    SyncMeasure.MeasureLoopReadsOnce(s, o, cfg.panel);
    FilterAppend(m, Wait(cfg), SENSOR_READS);
    FilterNoneOf(Wait(cfg), WAITS, SENSOR_READS);
  }

  lemma IterationLeds(s: SyncMeasure.State, cfg: Config, o: SyncMeasure.CycleOracle)
    ensures Filter(LoopIteration(s, cfg, o).1, LED_LEVELS) == [LedLow, LedHigh]
  {
    var m := SyncMeasure.MeasureLoop(s, o, cfg.panel).1;
    WaitKinds(cfg);
    WaitsApart();
    SyncMeasure.MeasureLoopHeartbeat(s, o, cfg.panel);
    FilterAppend(m, Wait(cfg), LED_LEVELS);
    FilterNoneOf(Wait(cfg), WAITS, LED_LEVELS);
  }

  lemma IterationWaits(s: SyncMeasure.State, cfg: Config, o: SyncMeasure.CycleOracle)
    ensures Filter(LoopIteration(s, cfg, o).1, WAITS) == Wait(cfg)
  {
    var m := SyncMeasure.MeasureLoop(s, o, cfg.panel).1;
    WaitKinds(cfg);
    WaitsApart();
    SyncMeasure.MeasureLoopEventKinds(s, o, cfg.panel);
    FilterNoneOf(m, SyncMeasure.CYCLE_KINDS, WAITS);
    FilterAppend(m, Wait(cfg), WAITS);
    FilterAll(Wait(cfg), WAITS);
  }

  /**
   * Each iteration runs exactly one measurement cycle (one sensor read, one
   * LED pulse) and then exactly one wait, which is its last event.
   */
  lemma LoopIterationOnce(s: SyncMeasure.State, cfg: Config, o: SyncMeasure.CycleOracle)
    ensures var t := LoopIteration(s, cfg, o).1;
      && Filter(t, SENSOR_READS) == [ReadSensor]
      && Filter(t, LED_LEVELS) == [LedLow, LedHigh]
      && Filter(t, WAITS) == Wait(cfg)
      && t[|t| - 1] == Wait(cfg)[0]
  {
    IterationReads(s, cfg, o);
    IterationLeds(s, cfg, o);
    IterationWaits(s, cfg, o);
  }

  /**
   * Without sleep an iteration waits 30 s on top of the cycle's own
   * waiting (one second per status poll and the 100 ms LED pulse); with
   * sleep the 30 s pass in light sleep instead.
   */
  lemma LoopIterationDelay(s: SyncMeasure.State, cfg: Config, o: SyncMeasure.CycleOracle)
    ensures var t := LoopIteration(s, cfg, o).1;
      TotalDelay(t) == 1000 * Count(t, POLLS) + SyncMeasure.HEARTBEAT_PULSE_MS
                       + (if cfg.sleepEnabled then 0 else MEASURE_CYCLE_TIME_MS)
  {
    var m := SyncMeasure.MeasureLoop(s, o, cfg.panel).1;
    SyncMeasure.MeasureLoopDelay(s, o, cfg.panel);
    TotalDelayAppend(m, Wait(cfg));
    FilterAppend(m, Wait(cfg), POLLS);
    WaitKinds(cfg);
    WaitsApart();
    FilterNoneOf(Wait(cfg), WAITS, POLLS);
    assert TotalDelay(Wait(cfg)) == (if cfg.sleepEnabled then 0 else MEASURE_CYCLE_TIME_MS);
  }

  /** The first `n` iterations of loop(), fed one oracle per cycle, built from the back. */
  function Run(s: SyncMeasure.State, cfg: Config, os: seq<SyncMeasure.CycleOracle>): (SyncMeasure.State, seq<Event>)
  {
    if |os| == 0 then (s, [])
    else
      var (mid, t) := Run(s, cfg, os[..|os| - 1]);
      var (s', t') := LoopIteration(mid, cfg, os[|os| - 1]);
      (s', t + t')
  }

  /** loop() as written, stopped after as many iterations as there are oracles. */
  method RunLoop(s: SyncMeasure.State, cfg: Config, os: seq<SyncMeasure.CycleOracle>)
    returns (state: SyncMeasure.State, t: seq<Event>)
    ensures (state, t) == Run(s, cfg, os)
  {
    state, t := s, [];
    var i := 0;
    while i < |os|
      invariant 0 <= i <= |os|
      invariant (state, t) == Run(s, cfg, os[..i])
    {
      assert os[..i + 1][..i] == os[..i];
      var (s', t') := LoopIteration(state, cfg, os[i]);
      state, t := s', t + t';
      i := i + 1;
    }
    assert os[..|os|] == os;
  }

  /**
   * After `n` iterations the counter has advanced by `n` modulo 65536, and
   * the sensor has been read and a wait made once per iteration.
   */
  lemma {:induction false} RunCounts(s: SyncMeasure.State, cfg: Config, os: seq<SyncMeasure.CycleOracle>)
    ensures Run(s, cfg, os).0.cycleCounter == SyncMeasure.IncTimes(s.cycleCounter, |os|)
    ensures Count(Run(s, cfg, os).1, SENSOR_READS) == |os|
    ensures Count(Run(s, cfg, os).1, WAITS) == |os|
  {
    if |os| > 0 {
      var prefix := os[..|os| - 1];
      RunCounts(s, cfg, prefix);
      var (mid, t) := Run(s, cfg, prefix);
      var t' := LoopIteration(mid, cfg, os[|os| - 1]).1;
      LoopIterationOnce(mid, cfg, os[|os| - 1]);
      FilterAppend(t, t', SENSOR_READS);
      FilterAppend(t, t', WAITS);
    }
  }

  /** From the state set-up leaves, the n-th cycle sees counter n modulo 65536. */
  lemma RunFromReset(cfg: Config, os: seq<SyncMeasure.CycleOracle>)
    ensures Run(SyncMeasure.State(0), cfg, os).0.cycleCounter == |os| % SyncMeasure.U16_MODULUS
  {
    RunCounts(SyncMeasure.State(0), cfg, os);
    SyncMeasure.IncTimesWraps(0, |os|);
  }

  /**
   * From power-on (bootCount 0 in fresh RTC memory) with the sensor found,
   * setup counts one boot and the n-th cycle sees counter n modulo 65536.
   */
  lemma CounterAfterBoot(cfg: Config, wakeCode: int, o: SyncSetup.SetupOracle, os: seq<SyncMeasure.CycleOracle>)
    requires o.sensorFound
    ensures var started := Setup(0, cfg, wakeCode, o);
      && started.bootCount == 1
      && Run(started.boot.state, cfg, os).0.cycleCounter == |os| % SyncMeasure.U16_MODULUS
  {
    assert Setup(0, cfg, wakeCode, o).boot.state == SyncMeasure.State(0);
    RunFromReset(cfg, os);
  }
}
