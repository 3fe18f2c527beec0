/**
 * The stages of measureLoop run in call order: ranking each kind of event
 * by the stage that produces it, a cycle's ranked events never go back to
 * an earlier stage.
 */
module CycleOrder {
  import opened Trace
  import Options
  import Connectivity
  import Datalog
  import Display
  import Telemetry
  import SyncMeasure

  /** The position in measureLoop of the stage that produces a kind of event; -1 for waits, which every stage may make, and for kinds no stage makes. */
  function Rank(k: Kind): int
  {
    match k
    case ConnectKind => 0
    case PollKind => 0
    case RunEventsKind => 1
    case ReadSensorKind => 2
    case FullRedrawKind => 3
    case OpenLogKind => 4
    case WriteLogKind => 5
    case CloseLogKind => 6
    case UpdateWindowKind => 7
    case SaveKind => 8
    case LedLowKind => 9
    case LedHighKind => 10
    case _ => -1
  }

  function StageRank(e: Event): int
  {
    Rank(KindOf(e))
  }

  predicate Ranked(e: Event)
  {
    StageRank(e) >= 0
  }

  /** Every ranked event of `t` has a rank between `lo` and `hi`. */
  predicate RanksWithin(t: seq<Event>, lo: int, hi: int)
  {
    forall e :: e in t && Ranked(e) ==> lo <= StageRank(e) <= hi
  }

  /** Every ranked kind of `kinds` has rank `r`. */
  predicate RankedAs(kinds: set<Kind>, r: int)
  {
    forall k :: k in kinds && Rank(k) >= 0 ==> Rank(k) == r
  }

  /** No ranked event of `t` comes after one of a later stage. */
  predicate InStageOrder(t: seq<Event>)
  {
    forall i, j :: 0 <= i < j < |t| && Ranked(t[i]) && Ranked(t[j]) ==> StageRank(t[i]) <= StageRank(t[j])
  }

  lemma OrderedAppend(a: seq<Event>, b: seq<Event>, lo: int, mid: int, hi: int)
    requires lo <= mid <= hi
    requires InStageOrder(a) && RanksWithin(a, lo, mid)
    requires InStageOrder(b) && RanksWithin(b, mid, hi)
    ensures InStageOrder(a + b) && RanksWithin(a + b, lo, hi)
  {
    var t := a + b;
    forall e | e in t && Ranked(e)
      ensures lo <= StageRank(e) <= hi
    {
      var k :| 0 <= k < |t| && t[k] == e;
      if k < |a| {
        assert a[k] in a;
      } else {
        assert b[k - |a|] in b;
      }
    }
    forall i, j | 0 <= i < j < |t| && Ranked(t[i]) && Ranked(t[j])
      ensures StageRank(t[i]) <= StageRank(t[j])
    {
      if j < |a| {
        assert t[i] == a[i] && t[j] == a[j];
      } else if i >= |a| {
        assert t[i] == b[i - |a|] && t[j] == b[j - |a|];
      } else {
        assert t[i] == a[i] && a[i] in a;
        assert t[j] == b[j - |a|] && b[j - |a|] in b;
      }
    }
  }

  /** A stage whose ranked kinds all have the same rank is trivially in order. */
  lemma UniformOrdered(t: seq<Event>, kinds: set<Kind>, r: int)
    requires AllOf(t, kinds) && RankedAs(kinds, r)
    ensures InStageOrder(t) && RanksWithin(t, r, r)
  {
    forall i, j | 0 <= i < j < |t| && Ranked(t[i]) && Ranked(t[j])
      ensures StageRank(t[i]) <= StageRank(t[j])
    {
      assert t[i] in t && t[j] in t;
    }
  }

  /** The rank each stage's kinds of event carry. */
  lemma StageRanks()
    ensures RankedAs(Connectivity.LINK_KINDS, 0) && RankedAs(IO_RUNS, 1) && RankedAs(SENSOR_READS, 2)
    ensures RankedAs(REDRAWS, 3) && RankedAs(WINDOW_UPDATES, 7) && RankedAs(SAVES, 8)
  {
  }

  lemma AppendFileOrdered(opens: bool, line: Options.Option<LogLine>)
    ensures InStageOrder(Datalog.AppendFile(opens, line)) && RanksWithin(Datalog.AppendFile(opens, line), 4, 6)
  {
    var open := [OpenLog(Datalog.DATALOG_PATH)];
    UniformOrdered(open, {OpenLogKind}, 4);
    var rest: seq<Event> := if opens then [WriteLog(line), CloseLog] else [];
    if opens {
      UniformOrdered([WriteLog(line)], {WriteLogKind}, 5);
      UniformOrdered([CloseLog], {CloseLogKind}, 6);
      OrderedAppend([WriteLog(line)], [CloseLog], 5, 5, 6);
      assert [WriteLog(line)] + [CloseLog] == rest;
    } else {
      UniformOrdered(rest, {}, 5);
    }
    OrderedAppend(open, rest, 4, 4, 6);
  }

  /** The display step: the redraw, then the log append, then the window updates. */
  lemma ShowPartsOrdered(redraw: seq<Event>, log: seq<Event>, updates: seq<Event>)
    requires AllOf(redraw, REDRAWS) && AllOf(updates, WINDOW_UPDATES)
    requires InStageOrder(log) && RanksWithin(log, 4, 6)
    ensures InStageOrder(redraw + log + updates) && RanksWithin(redraw + log + updates, 3, 7)
  {
    StageRanks();
    UniformOrdered(redraw, REDRAWS, 3);
    UniformOrdered(updates, WINDOW_UPDATES, 7);
    OrderedAppend(redraw, log, 3, 3, 6);
    OrderedAppend(redraw + log, updates, 3, 6, 7);
  }

  lemma ShowOrdered(c: SyncMeasure.U16, o: SyncMeasure.CycleOracle, panel: Display.Panel)
    ensures InStageOrder(SyncMeasure.ShowStage(c, o, panel)) && RanksWithin(SyncMeasure.ShowStage(c, o, panel), 3, 7)
  {
    var line := Datalog.CycleLine(SyncMeasure.CycleSample(o));
    Display.ShowParts(c, SyncMeasure.CycleSample(o), o.logOpens, panel);
    AppendFileOrdered(o.logOpens, line);
    ShowPartsOrdered(Display.RedrawFor(c), Datalog.AppendFile(o.logOpens, line), Display.UpdateBufferForData(panel));
  }

  lemma HeartbeatOrdered()
    ensures InStageOrder(SyncMeasure.HEARTBEAT) && RanksWithin(SyncMeasure.HEARTBEAT, 9, 10)
  {
    var pulse := [Delay(SyncMeasure.HEARTBEAT_PULSE_MS), LedHigh];
    UniformOrdered([LedLow], {LedLowKind}, 9);
    UniformOrdered(pulse, {DelayKind(SyncMeasure.HEARTBEAT_PULSE_MS), LedHighKind}, 10);
    OrderedAppend([LedLow], pulse, 9, 9, 10);
    assert [LedLow] + pulse == SyncMeasure.HEARTBEAT;
  }

  /** A cycle is in stage order when its display step is. */
  lemma CycleOrdered(link: seq<Event>, pump: seq<Event>, show: seq<Event>, send: seq<Event>)
    requires SyncMeasure.StageShapes(link, pump, show, send)
    requires InStageOrder(show) && RanksWithin(show, 3, 7)
    ensures InStageOrder(SyncMeasure.Cycle(link, pump, show, send))
    ensures RanksWithin(SyncMeasure.Cycle(link, pump, show, send), 0, 10)
  {
    var read := SyncMeasure.READ_STAGE;
    StageRanks();
    UniformOrdered(link, Connectivity.LINK_KINDS, 0);
    UniformOrdered(pump, IO_RUNS, 1);
    UniformOrdered(read, SENSOR_READS, 2);
    UniformOrdered(send, SAVES, 8);
    HeartbeatOrdered();
    OrderedAppend(link, pump, 0, 0, 1);
    OrderedAppend(link + pump, read, 0, 1, 2);
    OrderedAppend(link + pump + read, show, 0, 2, 7);
    OrderedAppend(link + pump + read + show, send, 0, 7, 8);
    OrderedAppend(link + pump + read + show + send, SyncMeasure.HEARTBEAT, 0, 8, 10);
  }

  /**
   * The stages of one measureLoop call happen in call order: reconnect,
   * event pump, sensor read, display and data log, feed saves, LED pulse.
   * No event of a later stage precedes one of an earlier stage.
   */
  lemma MeasureLoopStageOrder(s: SyncMeasure.State, o: SyncMeasure.CycleOracle, panel: Display.Panel)
    ensures InStageOrder(SyncMeasure.MeasureLoop(s, o, panel).1)
    ensures RanksWithin(SyncMeasure.MeasureLoop(s, o, panel).1, 0, 10)
  {
    var c := SyncMeasure.Inc16(s.cycleCounter);
    SyncMeasure.CycleShapes(c, o, panel);
    ShowOrdered(c, o, panel);
    CycleOrdered(SyncMeasure.LinkStage(o), SyncMeasure.PumpStage(o), SyncMeasure.ShowStage(c, o, panel), SyncMeasure.SendStage(o));
  }
}
