# E-paper environment probe: the measurement cycle in Dafny

This project models the control logic of an ESP32 environment probe. The
probe reads a BME680 sensor and shows the values on an e-paper panel. It
appends each reading to `/datalog.csv` on an SD card and publishes it to
four Adafruit IO feeds. The modelled code is:

- `setupSyncMeasure` and `measureLoop` with their stages: the WiFi reconnect
  check and its bounded wait loop, the `io.run()` gate, the sensor read, the
  display step with its periodic full redraw and its data-log append, the
  feed saves and the LED heartbeat;
- the time service: `isTimeSet`, `systime_setup` and the bounded NTP wait loop
  of `systime_obtainTime`;
- the Arduino entry points `setup` and `loop`, and the wake-up cause mapping
  of `print_wakeup_reason`.

Each operation is a pure function from the current state and the answers of
the outside world to a new state and an event trace (`seq<Event>`, module
`Trace`). An answer may be a WiFi status, an `io.status()` code, a sensor
reading, whether the SD open succeeds, or the successive clock reads.
Properties are stated on the trace:

- `Filter(t, kinds)` keeps the events of some kinds;
- `Count` counts them;
- `TotalDelay` sums the waits;
- `AllOf(t, kinds)` says that a trace holds only events of those kinds.

The source's two wait loops (`wifi_connect`, `systime_obtainTime`) are also
written as methods with the source's loop, and each is proved equal to a
closed-form reference function. The endless `loop()` is written as a method
over the first n iterations and proved equal to the recursive fold
`EProbe.Run`; `EProbe.RunCounts` states what that fold amounts to.

Modules follow the source's structure:

- `Trace`: events, kinds, filters and their algebra;
- `Options`: the Option type;
- `Connectivity`: WiFi and Adafruit IO status handling;
- `Sensor`: the BME680;
- `Datalog`: the CSV line and appendFile;
- `Display`: the redraw policy, the window table and the display step;
- `Telemetry`: the feed saves;
- `SyncMeasure`: the counter and the cycle;
- `SyncSetup`: setupSyncMeasure and sd_setup;
- `CycleOrder`: the stage order of a cycle;
- `SystemTime`: the time service;
- `EProbe`: main.cpp.

Firmware behaviour worth knowing (the model follows the code):

- There is no connection-state variable. Every decision re-reads
  `WiFi.status()` or `io.status()`, and a failed reconnect leaves no trace
  beyond its polls.
- The sample's `acquiringTime` is never set: it stays 0 on every path.
- Display initialisation is not checked. The only start-up failure that stops
  the device is a missing BME680, because `bme680_setup` then spins forever.
- Time sync is not started by the cycle. `systime_setup` runs only from the
  WiFi event callback, which is outside this model. It is modelled on its own.
- The data-log line is not well defined. The `snprintf` that formats it
  gets a stray int `0` before the air quality, so the cycle's write is
  modelled as carrying no defined line (`Datalog.CycleLine`); see
  "## Findings" for the corrected line.
- Publishing never retries. It checks `io.status()` once and then saves all
  four feeds whatever each save returns.

## Model

| member | source | states |
|---|---|---|
| Connectivity.WifiConnectLoop | src/sync_measure.cpp:350-364 | the wait loop as written (status starting at 0, at most 10 rounds) yields exactly one connect request followed by PollsTaken poll-and-wait rounds, where PollsTaken is the unique stop count: 1 to 10 polls, stopping at the first WL_CONNECTED |
| Connectivity.WifiConnectPolls | src/sync_measure.cpp:350-364 | wifi_connect requests the connection once, polls between 1 and 10 times, and waits 1000 ms after every poll, the successful one included |
| Connectivity.ConnectIfDisconnectedEvents | src/sync_measure.cpp:340-348 | io.connect() is called iff the status read is one of the lost-link codes 4, 5, 6; otherwise nothing happens; the check only connects, polls and waits |
| Connectivity.CheckIoEvents | src/sync_measure.cpp:386-393 | io.run() is called iff io.status() is at least AIO_CONNECTED (21), and at most once |
| Connectivity.WifiSetup | src/sync_measure.cpp:123-129 | set-up registers the event handler first and then starts the connection |
| Connectivity.WifiSetupConnects | src/sync_measure.cpp:123-129 | set-up connects exactly once and polls as often as wifi_connect does |
| Sensor.ReadSensorData | src/sync_measure.cpp:176-190 | a failed reading yields the all-zero record; a successful one copies temperature, humidity, pressure and gas resistance (into airquality); the timestamp is 0 on both paths |
| Sensor.Bme680Setup | src/sync_measure.cpp:139-153 | set-up hangs iff no sensor is found; it always probes first and configures the sensor iff it was found |
| Datalog.AppendFileEvents | src/sync_measure.cpp:483-497 | appendFile always starts by opening the log; it writes the given line and closes the file iff the open succeeded, closing last; it writes no other line |
| Datalog.LineArgsAsWrittenMismatch | src/sync_measure.cpp:233-236 | the arguments passed do not match the format: there is one argument too many, `%.4f` receives the int 0, and the air quality falls after the last conversion |
| Datalog.FormatLineCorrected | src/sync_measure.cpp:233-236 | without the stray 0 the arguments match the format, and the line is temperature, humidity, pressure in hPa and air quality in kOhm; as written no line is defined |
| Display.FieldTableLayout | src/sync_measure.cpp:266-304 | value i sits in window (34, 50·i, 100, 24) with its cursor at (34, 22 + 50·i); on the selected panel the footer window is (0, 200, width, 34); every cursor lies in its window and no two windows overlap |
| Display.UpdateBufferForDataWindows | src/sync_measure.cpp:266-304 | value i (temperature, humidity, pressure, gas) is refreshed in window (34, 50·i, 100, 24); the selected panel then refreshes only the footer (0, 200, width, 34), five updates in all; the other panel refreshes the counter box (136, 0, width, 22) and the footer (0, 180, width, 20); no two refreshed windows overlap and nothing but windows is refreshed |
| Display.ShowSensorDataEvents | src/sync_measure.cpp:192-242 | the display step contains a full redraw iff the counter is a multiple of 40, and the redraw then comes first; otherwise it only touches the data log and the partial windows |
| Display.ShowSensorDataRedraw | src/sync_measure.cpp:226-228 | the redraws of the display step are exactly one FullRedraw when counter % 40 == 0, none otherwise |
| Display.ShowSensorDataLog | src/sync_measure.cpp:232-238 | the data-log events of the display step are exactly those of appendFile with the line the as-written `snprintf` produces |
| Display.ShowSensorDataWindows | src/sync_measure.cpp:240-241 | the partial updates of the display step are exactly those of display_updateBufferForData |
| Telemetry.SendSensorDataFeeds | src/sync_measure.cpp:366-384 | when io.status() counts as connected, the four feeds are saved once each in the order temperature, humidity, pressure, airquality, each with its raw sample field; otherwise nothing is sent |
| Telemetry.FeedNamesDistinct | src/sync_measure.cpp:74-78 | two feeds have the same key iff they are the same feed |
| SyncMeasure.Inc16 | src/sync_measure.cpp:164 | incrementing the uint16_t counter adds one below 65535 and wraps 65535 to 0 |
| SyncMeasure.IncTimesWraps | src/sync_measure.cpp:164 | n increments add n modulo 65536 |
| SyncMeasure.CounterBeforeWrap | src/sync_measure.cpp:164 | from the reset value 0, the n-th cycle sees counter n for n < 65536 |
| SyncMeasure.CounterAtWrap | src/sync_measure.cpp:164 | every 65536-th cycle sees the counter wrapped to 0 |
| SyncMeasure.RedrawScheduleStart | src/sync_measure.cpp:226-228 | after the reset the first cycle sees counter 1, and among cycles 1 to 40 only cycle 40 redraws |
| SyncMeasure.RedrawScheduleWrap | src/sync_measure.cpp:226-228 | around the wrap, the redraw at cycle 65520 is followed by one at cycle 65536 (counter 0), only 16 cycles later |
| SyncMeasure.RedrawPeriod | src/sync_measure.cpp:226-228 | away from the wrap, a redraw is followed by none in the next 39 cycles and by one 40 cycles later |
| SyncMeasure.MeasureLoop | src/sync_measure.cpp:163-174 | the cycle's counter is the previous one incremented with 16-bit wrap-around |
| SyncMeasure.MeasureLoopReadsOnce | src/sync_measure.cpp:163-174 | every cycle reads the sensor exactly once, whatever the other stages met |
| SyncMeasure.MeasureLoopHeartbeat | src/sync_measure.cpp:395-399 | every cycle drives the LED low and then high, once each, whatever the other stages met; the cycle ends with LED low, the 100 ms pulse and LED high |
| SyncMeasure.MeasureLoopLog | src/sync_measure.cpp:232-238 | every cycle opens the data log once; a line is written and the file closed iff the open succeeded; because of the stray `0` argument the written line is never a defined one |
| SyncMeasure.MeasureLoopRedraw | src/sync_measure.cpp:226-228 | a cycle redraws the main screen iff its already incremented counter is a multiple of 40 |
| SyncMeasure.MeasureLoopWindows | src/sync_measure.cpp:240-241 | every cycle refreshes the whole window table, in table order |
| SyncMeasure.MeasureLoopPublish | src/sync_measure.cpp:366-384 | a cycle saves the four feeds in order with the fields of the sample it read iff io.status() counts as connected, and saves nothing otherwise |
| SyncMeasure.MeasureLoopPump | src/sync_measure.cpp:386-393 | a cycle calls io.run() iff the io.status() read just before counts as connected |
| SyncMeasure.MeasureLoopReconnect | src/sync_measure.cpp:340-348 | a cycle connects iff its WiFi status is a lost-link code, and then polls as often as wifi_connect does; otherwise it never polls |
| SyncMeasure.MeasureLoopDelay | src/sync_measure.cpp:163-174 | a cycle waits one second per status poll plus the 100 ms LED pulse, and nothing else |
| SyncMeasure.MeasureLoopEventKinds | src/sync_measure.cpp:163-174 | a cycle produces only link, io.run, sensor, display, data-log, feed-save and LED events |
| CycleOrder.MeasureLoopStageOrder | src/sync_measure.cpp:163-174 | the events of a cycle come in stage order: reconnect, io.run, sensor read, redraw, open, write, close, window updates, saves, LED low, LED high |
| SyncSetup.SdSetup | src/sync_measure.cpp:558-584 | sd_setup always tries to mount; it asks for the card type iff the mount succeeded; it ends ready iff mounted with a card attached, and fails the mount iff SD.begin fails |
| SyncSetup.SetupSyncMeasure | src/sync_measure.cpp:86-106 | set-up halts iff the sensor is missing; when it returns, the counter is 0 |
| SyncSetup.SetupStatusOrder | src/sync_measure.cpp:86-106 | the start-up screen announces SD, WiFi and BME680, and then Datalog iff the sensor was found, in that order and once each |
| SyncSetup.SetupConnectsOnce | src/sync_measure.cpp:95-96 | set-up connects exactly once, polling as wifi_connect does, whatever the SD card did |
| SyncSetup.SetupHaltsAtSensor | src/sync_measure.cpp:86-106 | a halted set-up ends in the sensor probe, never configures it and never draws the main screen; a completed one ends with the LED pin mode and the main-screen redraw |
| SyncSetup.FirstCycleAfterSetup | src/sync_measure.cpp:87 | after set-up, the first cycle sees counter 1 and does not redraw |
| SyncSetup.SetupHasNoTimer | src/sync_measure.cpp:86-106 | set-up produces only set-up events: it never arms the sleep timer and never sleeps |
| SystemTime.IsTimeSetMeansYear | src/system_time.cpp:7 | the clock counts as set iff the calendar year is 2016 or later (tm_year >= 116); the unset 1970 and the zeroed struct do not count |
| SystemTime.ObtainTimeLoop | src/system_time.cpp:37-60 | the loop as written, with the year checked before `++retry < 10`, yields SNTP start, WaitRounds wait-and-read rounds and SNTP stop; the result reports whether the last read was plausible |
| SystemTime.ObtainTimeBounded | src/system_time.cpp:37-60 | SNTP is started first and stopped last, once each; the clock is re-read 1 to 9 times, 2 s before each read; no earlier read was plausible, and fewer than 9 reads only because the last one was |
| SystemTime.SystemTimeSetup | src/system_time.cpp:15-35 | systime_setup reads the clock first and sets the time zone last |
| SystemTime.SystemTimeSetupSyncs | src/system_time.cpp:22-27 | SNTP is started iff the first clock read was implausible, and is stopped again whenever it was started |
| SystemTime.SystemTimeSetupTimezone | src/system_time.cpp:31-32 | the time zone is set exactly once, whatever the clock said |
| EProbe.WakeupReasonMapping | src/main.cpp:55-80 | codes 1 to 5 each get their own reason and the reason maps back to its code; every other code gets the default; different reasons print different lines |
| EProbe.Setup | src/main.cpp:32-48 | setup counts one more boot, opens the serial port first, ends with setupSyncMeasure's effects, and arms the wake-up timer iff sleeping is enabled |
| EProbe.SleepTimerInterval | src/main.cpp:9-12 | the sleep timer interval is 30 s, the same as the delay used without sleep |
| EProbe.Wait | src/main.cpp:18-30 | an iteration ends with one wait: light sleep iff sleeping is enabled, a 30 s delay otherwise |
| EProbe.LoopIteration | src/main.cpp:18-30 | one loop iteration advances the counter as one measureLoop call does |
| EProbe.LoopIterationOnce | src/main.cpp:18-30 | each iteration reads the sensor once, pulses the LED once and waits once, the wait being its last event |
| EProbe.LoopIterationDelay | src/main.cpp:18-30 | an iteration waits one second per poll plus 100 ms, plus 30 s unless it sleeps instead |
| EProbe.RunLoop | src/main.cpp:18-30 | the endless loop as written, cut after n iterations, equals the reference Run |
| EProbe.RunCounts | src/main.cpp:18-30 | after n iterations the counter has advanced by n modulo 65536, with n sensor reads and n waits |
| EProbe.RunFromReset | src/main.cpp:18-30 | from the reset state the n-th iteration leaves counter n modulo 65536 |
| EProbe.CounterAfterBoot | src/main.cpp:32-48 | from power-on with the sensor found, setup counts boot 1 and the n-th cycle sees counter n modulo 65536 |

## Left out

- Floating-point formatting: the values shown and logged are reals, and the text `snprintf` produces is not modelled beyond the argument/format match.
- Drawing, fonts, bitmaps and the two draw buffers of the panel: only the full redraw and the partial-update windows are events.
- ESP_LOG and Serial diagnostics, including the card type and size report of sd_setup (src/sync_measure.cpp:570-583) and the "Append failed" message.
- The unused SD file helpers (src/sync_measure.cpp:402-515 apart from appendFile): the cycle does not call them.
- The time-stamp text (strftime/localtime) and `systime_createCurrentTimeOutput`: the clock is an input sequence of tm_year values.
- The WiFi event callback (src/sync_measure.cpp:108-121): it runs asynchronously from the WiFi driver; only the handler registration is an event.
- The `while (!Serial)` wait after `Serial.begin`: it is an event with no waiting.
- Real time: delays and light sleep are events carrying their duration; the NTP server and the network are oracles.
- RTC memory retention across sleep: boot counts are passed in and out explicitly.
- EProbe.Setup: adds one to bootCount as an unbounded int; the C `int` overflow after 2^31 boots is not modelled.
- EProbe.Run: the endless `while (1)` is modelled by its finite prefixes, one oracle per iteration.
- Connectivity.IsAioConnected: AIO_CONNECTED = 21 is the Adafruit IO library's code, which is not part of this model; it is fixed as a constant.
- Display.FieldTableLayout: gives exact coordinates only for the value fields and the selected GDE0213B1 footer. For the GDEP015OC1 layout, which is not compiled in by default, it states only that each cursor lies in its window and that no windows overlap; UpdateBufferForDataWindows gives that layout's window coordinates.
- SyncMeasure.MeasureLoop: whether each cycle's log open succeeds is an independent answer. After a failed `SD.begin()` in sd_setup the mount is never retried, so in the source every later open fails; the model does not carry that over from set-up to the cycles.

## Findings

| source | as written | input that shows it | evidently intended | confidence | as-written member | corrected member |
|---|---|---|---|---|---|---|
| src/sync_measure.cpp:233-236 | the data-log `snprintf` gets an extra int `0` between the pressure and the air quality, so `%.4f` reads an int as a double and the air quality is never printed | any sample | the five arguments time stamp, temperature, humidity, pressure/100, airquality/1000 matching `'%s',%.2f,%.2f,%.2f,%.4f` | not executed | Datalog.LineArgsAsWrittenMismatch | Datalog.FormatLineCorrected |

The cycle writes what the call as written produces (`Datalog.CycleLine`, no defined line; see `SyncMeasure.MeasureLoopLog`). `Datalog.FormatLineCorrected` proves that the intended argument list yields the line `Datalog.CsvLine`: temperature, humidity, pressure in hPa and air quality in kOhm.
