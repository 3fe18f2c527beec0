/**
 * setupSyncMeasure: the ordered start-up sequence. SD and WiFi problems
 * are only reported; a missing sensor is the one condition that stops the
 * device, because bme680_setup then never returns.
 */
module SyncSetup {
  import opened Trace
  import Connectivity
  import Sensor
  import SyncMeasure
  import Display

  /** How sd_setup ended: both failures just return early. */
  datatype SdStatus = MountFailed | NoCard | CardReady

  /** Effects and outcome of sd_setup for the answers of SD.begin() and SD.cardType(). */
  function SdSetup(mounts: bool, cardAttached: bool): (r: (SdStatus, seq<Event>))
    ensures |r.1| >= 1 && r.1[0] == MountSd
    ensures QueryCardType in r.1 <==> mounts
    ensures r.0 == CardReady <==> mounts && cardAttached
    ensures r.0 == MountFailed <==> !mounts
  {
    if !mounts then (MountFailed, [MountSd])
    else if !cardAttached then (NoCard, [MountSd, QueryCardType])
    else (CardReady, [MountSd, QueryCardType])
  }

  const SD_KINDS: set<Kind> := {MountSdKind, QueryCardTypeKind}

  /** sd_setup only mounts the card and asks for its type. */
  lemma SdSetupEvents(mounts: bool, cardAttached: bool)
    ensures AllOf(SdSetup(mounts, cardAttached).1, SD_KINDS)
  {
  }

  /** The answers the hardware gives during setupSyncMeasure. */
  datatype SetupOracle = SetupOracle(
    sdMounts: bool,           // SD.begin()
    cardAttached: bool,       // SD.cardType() != CARD_NONE
    pollAnswer: nat -> int,   // successive WiFi.status() answers inside wifi_connect
    sensorFound: bool)        // bme.begin()

  /** Either set-up returned with the module state, or it is spinning forever in bme680_setup. */
  datatype Boot = Ready(state: SyncMeasure.State, trace: seq<Event>) | Halted(trace: seq<Event>)

  const SETUP_HEAD: seq<Event> := [InitDisplay, StartupScreen, StartupStatus("SD")]

  /** datalog_setup then display_showMainScreen. */
  const SETUP_TAIL: seq<Event> := [StartupStatus("Datalog"), LedOutputMode, FullRedraw]

  const SENSOR_SETUP_KINDS: set<Kind> := {BeginSensorKind, ConfigureSensorKind}

  /** The kinds of event set-up produces outside wifi_setup. */
  const NON_WIFI_KINDS: set<Kind> :=
    {InitDisplayKind, StartupScreenKind, StartupStatusKind, LedOutputModeKind, FullRedrawKind} + SD_KINDS + SENSOR_SETUP_KINDS

  /** The kinds of event set-up produces. */
  const SETUP_KINDS: set<Kind> := NON_WIFI_KINDS + Connectivity.WIFI_SETUP_KINDS

  /** bme680_setup only probes and configures the sensor. */
  lemma SensorSetupEvents(found: bool)
    ensures AllOf(Sensor.Bme680Setup(found).events, SENSOR_SETUP_KINDS)
  {
  }

  /** The "BME680" status line, then bme680_setup. */
  function SensorPart(sensor: Sensor.Step): seq<Event>
  {
    [StartupStatus("BME680")] + sensor.events
  }

  /** What follows bme680_setup: nothing when it hangs. */
  function TailPart(sensor: Sensor.Step): seq<Event>
  {
    if sensor.Hang? then [] else SETUP_TAIL
  }

  /**
   * setupSyncMeasure for the effects of sd_setup, wifi_setup and
   * bme680_setup: the counter is reset, then display, SD, WiFi, sensor and
   * data log are set up in that order, each announced on the start-up
   * screen, and the main screen is drawn.
   */
  function SetupOf(sd: seq<Event>, wifi: seq<Event>, sensor: Sensor.Step): Boot
  {
    var trace := SETUP_HEAD + sd + [StartupStatus("WiFi")] + wifi + SensorPart(sensor) + TailPart(sensor);
    if sensor.Hang? then Halted(trace) else Ready(SyncMeasure.State(0), trace)
  }

  /** setupSyncMeasure for the answers the hardware gives. */
  function SetupSyncMeasure(o: SetupOracle): (r: Boot)
    ensures r.Halted? <==> !o.sensorFound
    ensures r.Ready? ==> r.state.cycleCounter == 0
  {
    SetupOf(SdSetup(o.sdMounts, o.cardAttached).1, Connectivity.WifiSetup(o.pollAnswer), Sensor.Bme680Setup(o.sensorFound))
  }

  /** What each part of set-up may produce. */
  predicate PartShapes(sd: seq<Event>, wifi: seq<Event>, sensor: Sensor.Step)
  {
    AllOf(sd, SD_KINDS) && AllOf(wifi, Connectivity.WIFI_SETUP_KINDS) && AllOf(sensor.events, SENSOR_SETUP_KINDS)
  }

  lemma SetupShapes(o: SetupOracle)
    ensures PartShapes(SdSetup(o.sdMounts, o.cardAttached).1, Connectivity.WifiSetup(o.pollAnswer), Sensor.Bme680Setup(o.sensorFound))
  {
    SdSetupEvents(o.sdMounts, o.cardAttached);
    Connectivity.WifiSetupEvents(o.pollAnswer);
    SensorSetupEvents(o.sensorFound);
  }

  /** A short literal trace filtered event by event. */
  lemma FilterThree(x: Event, y: Event, z: Event, keep: set<Kind>)
    ensures Filter([x, y, z], keep)
         == (if KindOf(x) in keep then [x] else []) + (if KindOf(y) in keep then [y] else [])
          + (if KindOf(z) in keep then [z] else [])
  {
    assert [x, y, z] == [x] + [y] + [z];
    FilterAppend3([x], [y], [z], keep);
  }

  /** Everything set-up produces outside wifi_setup is of a non-WiFi kind. */
  lemma NonWifiParts(sd: seq<Event>, sensor: Sensor.Step)
    requires AllOf(sd, SD_KINDS) && AllOf(sensor.events, SENSOR_SETUP_KINDS)
    ensures AllOf(SETUP_HEAD, NON_WIFI_KINDS) && AllOf(sd, NON_WIFI_KINDS)
    ensures AllOf([StartupStatus("WiFi")], NON_WIFI_KINDS)
    ensures AllOf(SensorPart(sensor), NON_WIFI_KINDS) && AllOf(TailPart(sensor), NON_WIFI_KINDS)
  {
    AllOfWiden(sd, SD_KINDS, NON_WIFI_KINDS);
    AllOfWiden(sensor.events, SENSOR_SETUP_KINDS, NON_WIFI_KINDS);
    AllOfAppend([StartupStatus("BME680")], sensor.events, NON_WIFI_KINDS);
  }

  /** Only the status lines themselves are start-up statuses. */
  lemma StatusApart()
    ensures SD_KINDS !! STARTUP_STATUSES && Connectivity.WIFI_SETUP_KINDS !! STARTUP_STATUSES
    ensures SENSOR_SETUP_KINDS !! STARTUP_STATUSES
  {
  }

  lemma StatusInHead()
    ensures Filter(SETUP_HEAD, STARTUP_STATUSES) == [StartupStatus("SD")]
  {
    FilterThree(InitDisplay, StartupScreen, StartupStatus("SD"), STARTUP_STATUSES);
  }

  lemma StatusInTail(sensor: Sensor.Step)
    ensures Filter(TailPart(sensor), STARTUP_STATUSES) == if sensor.Continue? then [StartupStatus("Datalog")] else []
  {
    FilterThree(StartupStatus("Datalog"), LedOutputMode, FullRedraw, STARTUP_STATUSES);
  }

  lemma StatusInSensor(sensor: Sensor.Step)
    requires AllOf(sensor.events, SENSOR_SETUP_KINDS)
    ensures Filter(SensorPart(sensor), STARTUP_STATUSES) == [StartupStatus("BME680")]
  {
    StatusApart();
    FilterAppend([StartupStatus("BME680")], sensor.events, STARTUP_STATUSES);
    FilterSingle(StartupStatus("BME680"), STARTUP_STATUSES);
    FilterNoneOf(sensor.events, SENSOR_SETUP_KINDS, STARTUP_STATUSES);
  }

  /** Neither sd_setup nor wifi_setup shows a status line. */
  lemma StatusOutsideParts(sd: seq<Event>, wifi: seq<Event>)
    requires AllOf(sd, SD_KINDS) && AllOf(wifi, Connectivity.WIFI_SETUP_KINDS)
    ensures Filter(sd, STARTUP_STATUSES) == [] && Filter(wifi, STARTUP_STATUSES) == []
    ensures Filter([StartupStatus("WiFi")], STARTUP_STATUSES) == [StartupStatus("WiFi")]
  {
    StatusApart();
    FilterNoneOf(sd, SD_KINDS, STARTUP_STATUSES);
    FilterNoneOf(wifi, Connectivity.WIFI_SETUP_KINDS, STARTUP_STATUSES);
    FilterSingle(StartupStatus("WiFi"), STARTUP_STATUSES);
  }

  lemma BootStatusOrder(sd: seq<Event>, wifi: seq<Event>, sensor: Sensor.Step)
    requires PartShapes(sd, wifi, sensor)
    ensures Filter(SetupOf(sd, wifi, sensor).trace, STARTUP_STATUSES)
         == [StartupStatus("SD"), StartupStatus("WiFi"), StartupStatus("BME680")]
          + (if sensor.Continue? then [StartupStatus("Datalog")] else [])
  {
    var trace := SETUP_HEAD + sd + [StartupStatus("WiFi")] + wifi + SensorPart(sensor) + TailPart(sensor);
    var tail: seq<Event> := if sensor.Continue? then [StartupStatus("Datalog")] else [];
    var statuses: seq<Event> := [StartupStatus("SD")] + [] + [StartupStatus("WiFi")] + [] + [StartupStatus("BME680")] + tail;
    assert Filter(trace, STARTUP_STATUSES) == statuses by {
      FilterSix(SETUP_HEAD, sd, [StartupStatus("WiFi")], wifi, SensorPart(sensor), TailPart(sensor), STARTUP_STATUSES);
      StatusInHead();
      StatusOutsideParts(sd, wifi);
      StatusInSensor(sensor);
      StatusInTail(sensor);
    }
    assert statuses == [StartupStatus("SD"), StartupStatus("WiFi"), StartupStatus("BME680")] + tail;
    assert SetupOf(sd, wifi, sensor).trace == trace;
  }

  /**
   * The start-up screen announces SD, WiFi, BME680 and, once the sensor is
   * found, Datalog, in that order and once each.
   */
  lemma SetupStatusOrder(o: SetupOracle)
    ensures Filter(SetupSyncMeasure(o).trace, STARTUP_STATUSES)
         == [StartupStatus("SD"), StartupStatus("WiFi"), StartupStatus("BME680")]
          + (if o.sensorFound then [StartupStatus("Datalog")] else [])
  {
    SetupShapes(o);
    BootStatusOrder(SdSetup(o.sdMounts, o.cardAttached).1, Connectivity.WifiSetup(o.pollAnswer), Sensor.Bme680Setup(o.sensorFound));
  }

  /** Filtering set-up for a kind of event only wifi_setup produces keeps what wifi_setup produces. */
  lemma BootOnlyWifi(sd: seq<Event>, wifi: seq<Event>, sensor: Sensor.Step, keep: set<Kind>)
    requires PartShapes(sd, wifi, sensor)
    requires NON_WIFI_KINDS !! keep
    ensures Filter(SetupOf(sd, wifi, sensor).trace, keep) == Filter(wifi, keep)
  {
    NonWifiParts(sd, sensor);
    FilterNoneOf(SETUP_HEAD, NON_WIFI_KINDS, keep);
    FilterNoneOf(sd, NON_WIFI_KINDS, keep);
    FilterNoneOf([StartupStatus("WiFi")], NON_WIFI_KINDS, keep);
    FilterNoneOf(SensorPart(sensor), NON_WIFI_KINDS, keep);
    FilterNoneOf(TailPart(sensor), NON_WIFI_KINDS, keep);
    FilterOnlyFourth(SETUP_HEAD, sd, [StartupStatus("WiFi")], wifi, SensorPart(sensor), TailPart(sensor), keep);
  }

  /** Connecting and polling are WiFi events only. */
  lemma WifiOnlyKinds()
    ensures NON_WIFI_KINDS !! CONNECTS && NON_WIFI_KINDS !! POLLS
  {
  }

  /** Set-up connects to the network exactly once, polling as wifi_connect does, whatever else fails. */
  lemma SetupConnectsOnce(o: SetupOracle)
    ensures Filter(SetupSyncMeasure(o).trace, CONNECTS) == [Connect]
    ensures Count(SetupSyncMeasure(o).trace, POLLS) == Connectivity.PollsTaken(o.pollAnswer)
  {
    var sd, wifi, sensor := SdSetup(o.sdMounts, o.cardAttached).1, Connectivity.WifiSetup(o.pollAnswer), Sensor.Bme680Setup(o.sensorFound);
    SetupShapes(o);
    WifiOnlyKinds();
    BootOnlyWifi(sd, wifi, sensor, CONNECTS);
    BootOnlyWifi(sd, wifi, sensor, POLLS);
    Connectivity.WifiSetupConnects(o.pollAnswer);
  }

  lemma BootEnds(sd: seq<Event>, wifi: seq<Event>, sensor: Sensor.Step)
    requires PartShapes(sd, wifi, sensor)
    requires sensor.Hang? ==> sensor.events == [BeginSensor]
    requires ConfigureSensor in sensor.events <==> sensor.Continue?
    ensures var t := SetupOf(sd, wifi, sensor).trace;
      && (sensor.Hang? ==> t[|t| - 1] == BeginSensor && ConfigureSensor !in t && FullRedraw !in t)
      && (sensor.Continue? ==> t[|t| - 2..] == [LedOutputMode, FullRedraw] && ConfigureSensor in t)
  {
    var early := SETUP_HEAD + sd + [StartupStatus("WiFi")] + wifi;
    var upToSensor := early + SensorPart(sensor);
    assert ConfigureSensor !in sd && FullRedraw !in sd by {
      assert KindOf(ConfigureSensor) !in SD_KINDS && KindOf(FullRedraw) !in SD_KINDS;
    }
    assert ConfigureSensor !in wifi && FullRedraw !in wifi by {
      assert KindOf(ConfigureSensor) !in Connectivity.WIFI_SETUP_KINDS;
      assert KindOf(FullRedraw) !in Connectivity.WIFI_SETUP_KINDS;
    }
    assert ConfigureSensor !in early && FullRedraw !in early;
    if sensor.Hang? {
      assert SetupOf(sd, wifi, sensor).trace == early + [StartupStatus("BME680"), BeginSensor];
    } else {
      assert SetupOf(sd, wifi, sensor).trace == upToSensor + SETUP_TAIL;
    }
  }

  /**
   * A halted set-up stops right after probing the sensor: the sensor is
   * never configured and the main screen is never drawn. A completed one
   * ends with the LED pin set to output and the main screen drawn.
   */
  lemma SetupHaltsAtSensor(o: SetupOracle)
    ensures var r := SetupSyncMeasure(o);
      && (r.Halted? ==> r.trace[|r.trace| - 1] == BeginSensor && ConfigureSensor !in r.trace && FullRedraw !in r.trace)
      && (r.Ready? ==> r.trace[|r.trace| - 2..] == [LedOutputMode, FullRedraw] && ConfigureSensor in r.trace)
  {
    SetupShapes(o);
    BootEnds(SdSetup(o.sdMounts, o.cardAttached).1, Connectivity.WifiSetup(o.pollAnswer), Sensor.Bme680Setup(o.sensorFound));
  }

  /** The counter reset in set-up makes the first cycle see 1, which does not redraw. */
  lemma FirstCycleAfterSetup(o: SetupOracle, c: SyncMeasure.CycleOracle, panel: Display.Panel)
    requires o.sensorFound
    ensures var s := SetupSyncMeasure(o).state;
      && SyncMeasure.MeasureLoop(s, c, panel).0.cycleCounter == 1
      && Filter(SyncMeasure.MeasureLoop(s, c, panel).1, REDRAWS) == []
  {
    var s := SetupSyncMeasure(o).state;
    assert s.cycleCounter == 0;
    CycleFromZero(s, c, panel);
  }

  lemma CycleFromZero(s: SyncMeasure.State, c: SyncMeasure.CycleOracle, panel: Display.Panel)
    requires s.cycleCounter == 0
    ensures SyncMeasure.MeasureLoop(s, c, panel).0.cycleCounter == 1
    ensures Filter(SyncMeasure.MeasureLoop(s, c, panel).1, REDRAWS) == []
  {
    var n := SyncMeasure.MeasureLoop(s, c, panel).0.cycleCounter;
    assert n == 1;
    assert 1 % Display.REFRESH_PERIOD == 1;
    SyncMeasure.MeasureLoopRedraw(s, c, panel);
  }

  lemma BootKinds(sd: seq<Event>, wifi: seq<Event>, sensor: Sensor.Step)
    requires PartShapes(sd, wifi, sensor)
    ensures AllOf(SetupOf(sd, wifi, sensor).trace, SETUP_KINDS)
  {
    NonWifiParts(sd, sensor);
    AllOfWiden(SETUP_HEAD, NON_WIFI_KINDS, SETUP_KINDS);
    AllOfWiden(sd, NON_WIFI_KINDS, SETUP_KINDS);
    AllOfWiden([StartupStatus("WiFi")], NON_WIFI_KINDS, SETUP_KINDS);
    AllOfWiden(wifi, Connectivity.WIFI_SETUP_KINDS, SETUP_KINDS);
    AllOfWiden(SensorPart(sensor), NON_WIFI_KINDS, SETUP_KINDS);
    AllOfWiden(TailPart(sensor), NON_WIFI_KINDS, SETUP_KINDS);
    AllOfSix(SETUP_HEAD, sd, [StartupStatus("WiFi")], wifi, SensorPart(sensor), TailPart(sensor), SETUP_KINDS);
  }

  /** Set-up has no event kind that arms the sleep timer or sleeps. */
  lemma NoSleepKinds()
    ensures EnableTimerWakeupKind !in SETUP_KINDS && LightSleepKind !in SETUP_KINDS
  {
  }

  lemma BootHasNoTimer(sd: seq<Event>, wifi: seq<Event>, sensor: Sensor.Step)
    requires PartShapes(sd, wifi, sensor)
    ensures forall us :: EnableTimerWakeup(us) !in SetupOf(sd, wifi, sensor).trace
    ensures LightSleep !in SetupOf(sd, wifi, sensor).trace
  {
    var t := SetupOf(sd, wifi, sensor).trace;
    BootKinds(sd, wifi, sensor);
    NoSleepKinds();
    forall us
      ensures EnableTimerWakeup(us) !in t
    {
      AllOfExcludes(t, SETUP_KINDS, EnableTimerWakeup(us));
    }
    AllOfExcludes(t, SETUP_KINDS, LightSleep);
  }

  /** setupSyncMeasure only produces set-up events: it never arms the sleep timer and never sleeps. */
  lemma SetupHasNoTimer(o: SetupOracle)
    ensures AllOf(SetupSyncMeasure(o).trace, SETUP_KINDS)
    ensures forall us :: EnableTimerWakeup(us) !in SetupSyncMeasure(o).trace
    ensures LightSleep !in SetupSyncMeasure(o).trace
  {
    var sd, wifi, sensor := SdSetup(o.sdMounts, o.cardAttached).1, Connectivity.WifiSetup(o.pollAnswer), Sensor.Bme680Setup(o.sensorFound);
    SetupShapes(o);
    BootKinds(sd, wifi, sensor);
    BootHasNoTimer(sd, wifi, sensor);
  }
}
