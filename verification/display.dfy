/**
 * Display side of the cycle: the periodic full redraw, the log append that
 * display_showSensorData makes, and the static table of partial-update
 * windows of display_updateBufferForData.
 */
module Display {
  import opened Trace
  import Datalog
  import Sensor

  /** A full main-screen redraw happens on every cycle whose counter is a multiple of this. */
  const REFRESH_PERIOD: nat := 40

  /** The two panels the source can be built for; GDE0213B1 is the one selected. */
  datatype Layout = GDE0213B1 | GDEP015OC1

  /** The selected panel layout and the width display.width() reports. */
  datatype Panel = Panel(layout: Layout, width: int)

  /** A text field: the cursor set before printing and the window refreshed after it. */
  datatype Field = Field(cursorX: int, cursorY: int, win: Window)

  /** Number of sensor values shown. */
  const VALUE_COUNT: nat := 4

  /** The fields display_updateBufferForData draws, in drawing order. */
  function FieldTable(panel: Panel): seq<Field>
  {
    [ Field(34, 22, Window(34, 0, 100, 24)),
      Field(34, 72, Window(34, 50, 100, 24)),
      Field(34, 122, Window(34, 100, 100, 24)),
      Field(34, 172, Window(34, 150, 100, 24)) ]
    + match panel.layout
      case GDE0213B1 => [Field(2, 220, Window(0, 200, panel.width, 34))]
      case GDEP015OC1 => [Field(136, 11, Window(136, 0, panel.width, 22)),
                          Field(2, 200 - 7, Window(0, 200 - 20, panel.width, 20))]
  }

  predicate Disjoint(a: Window, b: Window)
  {
    a.x + a.w <= b.x || b.x + b.w <= a.x || a.y + a.h <= b.y || b.y + b.h <= a.y
  }

  predicate Inside(x: int, y: int, w: Window)
  {
    w.x <= x < w.x + w.w && w.y <= y < w.y + w.h
  }

  /**
   * The layout: value i (temperature, humidity, pressure, gas) sits in the
   * window (34, 50·i, 100, 24) with its baseline at 22 + 50·i; on the
   * selected panel the footer is (0, 200, width, 34); every cursor lies in
   * its window, and no two windows overlap.
   */
  lemma FieldTableLayout(panel: Panel)
    requires panel.width > 2
    ensures var t := FieldTable(panel);
      && |t| == VALUE_COUNT + (if panel.layout == GDE0213B1 then 1 else 2)
      && (forall i :: 0 <= i < VALUE_COUNT ==> t[i] == Field(34, 22 + 50 * i, Window(34, 50 * i, 100, 24)))
      && (panel.layout == GDE0213B1 ==> t[VALUE_COUNT].win == Window(0, 200, panel.width, 34))
      && (forall i :: 0 <= i < |t| ==> Inside(t[i].cursorX, t[i].cursorY, t[i].win))
      && (forall i, j :: 0 <= i < j < |t| ==> Disjoint(t[i].win, t[j].win))
  {
  }

  /** Effects of display_updateBufferForData: one partial update per field, in table order. */
  function UpdateBufferForData(panel: Panel): seq<Event>
  {
    var fields := FieldTable(panel);
    seq(|fields|, i requires 0 <= i < |fields| => UpdateWindow(fields[i].win))
  }

  /**
   * The display step refreshes value i (temperature, humidity, pressure,
   * gas) in the window (34, 50·i, 100, 24), then on the selected panel the
   * footer (0, 200, width, 34), on the other the refresh-counter box
   * (136, 0, width, 22) and the footer (0, 180, width, 20). No two refreshed windows overlap, and nothing but windows is
   * refreshed.
   */
  lemma UpdateBufferForDataWindows(panel: Panel)
    ensures var t := UpdateBufferForData(panel);
      && (forall i :: 0 <= i < VALUE_COUNT ==> t[i] == UpdateWindow(Window(34, 50 * i, 100, 24)))
      && (panel.layout == GDE0213B1 ==>
            |t| == 5 && t[4] == UpdateWindow(Window(0, 200, panel.width, 34)))
      && (panel.layout == GDEP015OC1 ==>
            |t| == 6 && t[4] == UpdateWindow(Window(136, 0, panel.width, 22))
            && t[5] == UpdateWindow(Window(0, 180, panel.width, 20)))
      && (forall i, j :: 0 <= i < j < |t| ==> Disjoint(t[i].win, t[j].win))
      && AllOf(t, WINDOW_UPDATES)
  {
  }

  /** The kinds of event the display step produces. */
  const SHOW_KINDS: set<Kind> := REDRAWS + LOG_KINDS + WINDOW_UPDATES

  /** The full redraw display_showSensorData makes for the counter of the cycle. */
  function RedrawFor(counter: int): seq<Event>
  {
    if counter % REFRESH_PERIOD == 0 then [FullRedraw] else []
  }

  /**
   * Effects of display_showSensorData for the counter of the cycle and the
   * outcome of opening the log: the full redraw when the counter is a
   * multiple of 40, then the log append, then the partial updates.
   */
  function ShowSensorData(counter: int, sample: Sensor.Sample, logOpens: bool, panel: Panel): seq<Event>
  {
    RedrawFor(counter) + Datalog.AppendFile(logOpens, Datalog.CycleLine(sample)) + UpdateBufferForData(panel)
  }

  /** The three parts of the display step each produce one group of kinds. */
  lemma ShowParts(counter: int, sample: Sensor.Sample, logOpens: bool, panel: Panel)
    ensures AllOf(RedrawFor(counter), REDRAWS)
    ensures AllOf(Datalog.AppendFile(logOpens, Datalog.CycleLine(sample)), LOG_KINDS)
    ensures AllOf(UpdateBufferForData(panel), WINDOW_UPDATES)
    ensures REDRAWS !! LOG_KINDS && REDRAWS !! WINDOW_UPDATES && LOG_KINDS !! WINDOW_UPDATES
  {
    Datalog.AppendFileEvents(logOpens, Datalog.CycleLine(sample));
    UpdateBufferForDataWindows(panel);
  }

  /**
   * The display step redraws iff the counter is a multiple of 40, and then
   * first; otherwise it only touches the data log and the partial windows.
   */
  lemma ShowSensorDataEvents(counter: int, sample: Sensor.Sample, logOpens: bool, panel: Panel)
    ensures var t := ShowSensorData(counter, sample, logOpens, panel);
      && (FullRedraw in t <==> counter % REFRESH_PERIOD == 0)
      && (counter % REFRESH_PERIOD == 0 ==> t[0] == FullRedraw)
      && AllOf(t, SHOW_KINDS)
  {
    var redraw := RedrawFor(counter);
    var log := Datalog.AppendFile(logOpens, Datalog.CycleLine(sample));
    var updates := UpdateBufferForData(panel);
    ShowParts(counter, sample, logOpens, panel);
    assert FullRedraw !in log && FullRedraw !in updates by {
      AllOfExcludes(log, LOG_KINDS, FullRedraw);
      AllOfExcludes(updates, WINDOW_UPDATES, FullRedraw);
    }
    assert AllOf(redraw + log + updates, SHOW_KINDS) by {
      AllOfWiden(redraw, REDRAWS, SHOW_KINDS);
      AllOfWiden(log, LOG_KINDS, SHOW_KINDS);
      AllOfWiden(updates, WINDOW_UPDATES, SHOW_KINDS);
      AllOfAppend(redraw, log, SHOW_KINDS);
      AllOfAppend(redraw + log, updates, SHOW_KINDS);
    }
  }

  lemma ShowSensorDataRedraw(counter: int, sample: Sensor.Sample, logOpens: bool, panel: Panel)
    ensures Filter(ShowSensorData(counter, sample, logOpens, panel), REDRAWS)
         == (if counter % REFRESH_PERIOD == 0 then [FullRedraw] else [])
  {
    var redraw := RedrawFor(counter);
    var log := Datalog.AppendFile(logOpens, Datalog.CycleLine(sample));
    var updates := UpdateBufferForData(panel);
    ShowParts(counter, sample, logOpens, panel);
    FilterNoneOf(log, LOG_KINDS, REDRAWS);
    FilterNoneOf(updates, WINDOW_UPDATES, REDRAWS);
    FilterAll(redraw, REDRAWS);
    FilterOnlyFirstOfThree(redraw, log, updates, REDRAWS);
  }

  /** Every cycle appends to the data log exactly as appendFile does. */
  lemma ShowSensorDataLog(counter: int, sample: Sensor.Sample, logOpens: bool, panel: Panel)
    ensures Filter(ShowSensorData(counter, sample, logOpens, panel), LOG_KINDS) == Datalog.AppendFile(logOpens, Datalog.CycleLine(sample))
  {
    var redraw := RedrawFor(counter);
    var log := Datalog.AppendFile(logOpens, Datalog.CycleLine(sample));
    var updates := UpdateBufferForData(panel);
    ShowParts(counter, sample, logOpens, panel);
    FilterNoneOf(redraw, REDRAWS, LOG_KINDS);
    FilterNoneOf(updates, WINDOW_UPDATES, LOG_KINDS);
    FilterAll(log, LOG_KINDS);
    FilterOnlySecondOfThree(redraw, log, updates, LOG_KINDS);
  }

  /** Every cycle refreshes the whole window table, in table order. */
  lemma ShowSensorDataWindows(counter: int, sample: Sensor.Sample, logOpens: bool, panel: Panel)
    ensures Filter(ShowSensorData(counter, sample, logOpens, panel), WINDOW_UPDATES) == UpdateBufferForData(panel)
  {
    var redraw := RedrawFor(counter);
    var log := Datalog.AppendFile(logOpens, Datalog.CycleLine(sample));
    var updates := UpdateBufferForData(panel);
    ShowParts(counter, sample, logOpens, panel);
    FilterNoneOf(redraw, REDRAWS, WINDOW_UPDATES);
    FilterNoneOf(log, LOG_KINDS, WINDOW_UPDATES);
    FilterAll(updates, WINDOW_UPDATES);
    FilterOnlyThirdOfThree(redraw, log, updates, WINDOW_UPDATES);
  }
}
