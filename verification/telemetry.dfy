/** aio_sendSensorData: publishing one sample to the four feeds. */
module Telemetry {
  import opened Trace
  import opened Sensor
  import Connectivity

  /** The order in which the feeds are saved. */
  const FEED_ORDER: seq<Feed> := [Temperature, Humidity, Pressure, Airquality]

  /** The Adafruit IO feed key each feed object is created with. */
  function FeedName(f: Feed): string
  {
    match f
    case Temperature => "temperature"
    case Humidity => "humidity"
    case Pressure => "pressure"
    case Airquality => "airquality"
  }

  /** The sample field a feed carries. */
  function FieldFor(s: Sample, f: Feed): real
  {
    match f
    case Temperature => s.temperature
    case Humidity => s.humidity
    case Pressure => s.pressure
    case Airquality => s.airquality
  }

  /**
   * Effects of aio_sendSensorData for the io.status() it reads: when the
   * session counts as connected, every feed is saved once, in feed order,
   * with the raw field of the sample, whatever the earlier saves returned;
   * otherwise nothing is sent.
   */
  function SendSensorData(s: Sample, aioStatus: int): seq<Event>
  {
    if Connectivity.IsAioConnected(aioStatus) then
      [Save(Temperature, s.temperature), Save(Humidity, s.humidity),
       Save(Pressure, s.pressure), Save(Airquality, s.airquality)]
    else []
  }

  /** What aio_sendSensorData saves, by the feed table and the sample's fields. */
  lemma SendSensorDataFeeds(s: Sample, aioStatus: int)
    ensures var t := SendSensorData(s, aioStatus);
      && (Connectivity.IsAioConnected(aioStatus) ==>
            |t| == |FEED_ORDER| &&
            forall i :: 0 <= i < |t| ==> t[i] == Save(FEED_ORDER[i], FieldFor(s, FEED_ORDER[i])))
      && (!Connectivity.IsAioConnected(aioStatus) ==> t == [])
      && AllOf(t, SAVES)
  {
  }

  /** Each feed is published under its own key. */
  lemma FeedNamesDistinct(f: Feed, g: Feed)
    ensures FeedName(f) == FeedName(g) <==> f == g
  {
    if f != g {
      assert FeedName(f)[0] != FeedName(g)[0] || |FeedName(f)| != |FeedName(g)|;
    }
  }
}
