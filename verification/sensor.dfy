/**
 * The BME680 side of the cycle: the sample record, the copy out of a
 * reading, and the start-up check that halts when the sensor is missing.
 */
module Sensor {
  import opened Options
  import opened Trace

  /** What bme.performReading() leaves in the driver's fields on success. */
  datatype BmeReading = BmeReading(temperature: real, pressure: real, humidity: real, gasResistance: real)

  /** bme680_sensor_data_t. Floats are modelled as reals: they are only copied. */
  datatype Sample = Sample(acquiringTime: int, temperature: real, humidity: real, pressure: real, airquality: real)

  /** The value-initialised record `bme680_sensor_data_t sensorData{}`. */
  const ZERO_SAMPLE: Sample := Sample(0, 0.0, 0.0, 0.0, 0.0)

  /**
   * bme680_readSensorData: `None` is a failed performReading(). A failure
   * yields the zero record; a success copies the four physical fields,
   * the gas resistance going to `airquality`. No branch sets the timestamp.
   */
  function ReadSensorData(reading: Option<BmeReading>): (s: Sample)
    ensures s.acquiringTime == 0
    ensures reading.None? ==> s == ZERO_SAMPLE
    ensures reading.Some? ==>
      && s.temperature == reading.value.temperature
      && s.humidity == reading.value.humidity
      && s.pressure == reading.value.pressure
      && s.airquality == reading.value.gasResistance
  {
    match reading
    case None => ZERO_SAMPLE
    case Some(r) => ZERO_SAMPLE.(temperature := r.temperature, pressure := r.pressure,
                                 humidity := r.humidity, airquality := r.gasResistance)
  }

  /** Outcome of a start-up step: either set-up goes on, or the CPU spins forever. */
  datatype Step = Continue(events: seq<Event>) | Hang(events: seq<Event>)

  /**
   * bme680_setup: when bme.begin() finds no sensor the function never
   * returns; otherwise the sampling parameters are configured.
   */
  function Bme680Setup(found: bool): (r: Step)
    ensures r.Hang? <==> !found
    ensures |r.events| > 0 && r.events[0] == BeginSensor
    ensures ConfigureSensor in r.events <==> found
  {
    if found then Continue([BeginSensor, ConfigureSensor]) else Hang([BeginSensor])
  }
}
