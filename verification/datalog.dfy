/**
 * The data log of the cycle: the CSV line display_showSensorData formats
 * and appendFile as the cycle uses it on "/datalog.csv".
 */
module Datalog {
  import opened Trace
  import opened Options
  import Sensor

  const DATALOG_PATH: string := "/datalog.csv"

  /** A printf conversion of the line format: `%s`, or `%.<digits>f`. */
  datatype Conversion = Text | Fixed(digits: nat)

  /** An argument passed to snprintf after the format. */
  datatype Arg = TextArg | RealArg(value: real) | IntArg(number: int)

  /** The conversions of "'%s',%.2f,%.2f,%.2f,%.4f\n": time stamp, temperature, humidity, pressure, air quality. */
  const LINE_FORMAT: seq<Conversion> := [Text, Fixed(2), Fixed(2), Fixed(2), Fixed(4)]

  /** The arguments match the format one to one: a string for `%s`, a double for every `%f`. */
  predicate ArgsMatch(format: seq<Conversion>, args: seq<Arg>)
  {
    && |format| == |args|
    && forall i :: 0 <= i < |format| ==>
         (format[i].Text? <==> args[i].TextArg?) && (format[i].Fixed? <==> args[i].RealArg?)
  }

  /** The arguments the source passes: a stray int 0 sits between the pressure and the air quality. */
  function LineArgsAsWritten(s: Sensor.Sample): seq<Arg>
  {
    [TextArg, RealArg(s.temperature), RealArg(s.humidity), RealArg(s.pressure / 100.0),
     IntArg(0), RealArg(s.airquality / 1000.0)]
  }

  /**
   * As written, the arguments do not match the format: there is one too
   * many, and the `%.4f` meant for the air quality receives the int 0,
   * which printf reads as a double (undefined behaviour). The air quality
   * comes after the last conversion and is never printed.
   */
  lemma LineArgsAsWrittenMismatch(s: Sensor.Sample)
    ensures !ArgsMatch(LINE_FORMAT, LineArgsAsWritten(s))
    ensures |LineArgsAsWritten(s)| == |LINE_FORMAT| + 1
    ensures LINE_FORMAT[4] == Fixed(4) && LineArgsAsWritten(s)[4] == IntArg(0)
    ensures LineArgsAsWritten(s)[|LINE_FORMAT|] == RealArg(s.airquality / 1000.0)
  {
  }

  /** The arguments the format calls for: the stray 0 removed. */
  function LineArgs(s: Sensor.Sample): seq<Arg>
  {
    [TextArg, RealArg(s.temperature), RealArg(s.humidity), RealArg(s.pressure / 100.0), RealArg(s.airquality / 1000.0)]
  }

  /** The line snprintf produces, when the arguments match the format; none is defined otherwise. */
  function FormatLine(args: seq<Arg>): Option<LogLine>
  {
    if ArgsMatch(LINE_FORMAT, args)
    then Some(LogLine(args[1].value, args[2].value, args[3].value, args[4].value))
    else None
  }

  /** The line the cycle appends for sample `s`. */
  function CsvLine(s: Sensor.Sample): LogLine
  {
    LogLine(s.temperature, s.humidity, s.pressure / 100.0, s.airquality / 1000.0)
  }

  /**
   * As written, no line is defined for any sample; with the stray 0
   * removed, the line is exactly the one the cycle appends: temperature,
   * humidity, pressure in hPa and air quality in kOhm.
   */
  lemma FormatLineCorrected(s: Sensor.Sample)
    ensures FormatLine(LineArgsAsWritten(s)) == None
    ensures ArgsMatch(LINE_FORMAT, LineArgs(s))
    ensures FormatLine(LineArgs(s)) == Some(CsvLine(s))
  {
    LineArgsAsWrittenMismatch(s);
  }

  /**
   * The line the cycle hands to appendFile: what snprintf makes of the
   * arguments as written, which is no defined line.
   */
  function CycleLine(s: Sensor.Sample): Option<LogLine>
  {
    FormatLine(LineArgsAsWritten(s))
  }

  /**
   * Effects of appendFile with `line`: the open is always
   * attempted; a failed open returns at once, so the line is written and
   * the file closed only after a successful one. Whether print() succeeds
   * only picks a log message.
   */
  function AppendFile(opens: bool, line: Option<LogLine>): seq<Event>
  {
    [OpenLog(DATALOG_PATH)] + (if opens then [WriteLog(line), CloseLog] else [])
  }

  /**
   * appendFile always starts with the open; it writes `line` and closes
   * the file iff the open succeeded, closing last. It touches nothing but
   * the data log, and writes no line but `line`.
   */
  lemma AppendFileEvents(opens: bool, line: Option<LogLine>)
    ensures var t := AppendFile(opens, line);
      && |t| > 0 && t[0] == OpenLog(DATALOG_PATH)
      && (WriteLog(line) in t <==> opens)
      && (CloseLog in t <==> opens)
      && (opens ==> t[|t| - 1] == CloseLog)
      && AllOf(t, LOG_KINDS)
      && (forall e :: e in t && e.WriteLog? ==> e.line == line)
  {
  }
}
