/** Weather observations and the range generators that produce them.

    Units used throughout the model:
    - a timestamp is a number of minutes since 2022-01-01 00:00;
    - a temperature and a dewpoint are whole degrees Celsius;
    - a humidity is a whole percentage;
    - a barometric pressure is a whole number of TENTHS of a hectopascal
      (the generator always rounds to one decimal, so 999.0 hPa is exactly 9990).

    Each random draw is represented by the index of the value chosen from the
    generator's range, so a generator is a total function of its draw. */
module Observations {

  /** Minutes between two successive observations. */
  const STEP_MINUTES: int := 5
  /** The timestamp of the first observation, 2022-01-01 00:00. */
  const START: int := 0

  /** randint(-8, 3): both ends included. */
  const TEMP_MIN: int := -8
  const TEMP_MAX: int := 3
  /** randrange(40, 100, 10): 40, 50, ..., 90 (100 excluded). */
  const HUMIDITY_LOW: int := 40
  const HUMIDITY_HIGH: int := 100
  const HUMIDITY_STEP: int := 10
  /** round(uniform(995.6, 1009.1), 1), in tenths of a hectopascal. */
  const PRESSURE_MIN: int := 9956
  const PRESSURE_MAX: int := 10091

  datatype Observation = Observation(
    timestamp: int,
    temperature: int,
    dewpoint: int,
    humidity: int,
    pressure: int)

  /** The three random draws of one observation: the index of the chosen
      temperature, humidity and pressure within their ranges. */
  datatype Draw = Draw(temperature: nat, humidity: nat, pressure: nat)
  {
    predicate InRange()
    {
      temperature <= TEMP_MAX - TEMP_MIN
      && humidity < (HUMIDITY_HIGH - HUMIDITY_LOW) / HUMIDITY_STEP
      && pressure <= PRESSURE_MAX - PRESSURE_MIN
    }
  }

  predicate AllInRange(ds: seq<Draw>)
  {
    forall i :: 0 <= i < |ds| ==> ds[i].InRange()
  }

  /** A humidity that randrange(40, 100, 10) can return. */
  predicate GeneratedHumidity(h: int)
  {
    HUMIDITY_LOW <= h < HUMIDITY_HIGH && (h - HUMIDITY_LOW) % HUMIDITY_STEP == 0
  }

  /** What every generated observation satisfies: its fields lie in the
      generators' ranges, the dewpoint is two degrees under the temperature
      and the timestamp lies on the five-minute grid from the start. */
  predicate Generated(o: Observation)
  {
    START <= o.timestamp && (o.timestamp - START) % STEP_MINUTES == 0
    && TEMP_MIN <= o.temperature <= TEMP_MAX
    && o.dewpoint == o.temperature - 2
    && GeneratedHumidity(o.humidity)
    && PRESSURE_MIN <= o.pressure <= PRESSURE_MAX
  }

  /** timestamp_gen: the next timestamp, five minutes on. */
  function TimestampGen(timestamp: int): (r: int)
    ensures r - timestamp == STEP_MINUTES
  {
    timestamp + STEP_MINUTES
  }

  /** temperature_gen: the k-th value of randint(-8, 3). */
  function TemperatureGen(k: nat): (t: int)
    requires k <= TEMP_MAX - TEMP_MIN
    ensures TEMP_MIN <= t <= TEMP_MAX
  {
    TEMP_MIN + k
  }

  /** dewpoint_gen: round(temp - 2); the temperature is whole, so no rounding happens. */
  function DewpointGen(temp: int): (d: int)
    ensures temp - d == 2
  {
    temp - 2
  }

  /** humidity_gen: the k-th value of randrange(40, 100, 10). */
  function HumidityGen(k: nat): (h: int)
    requires k < (HUMIDITY_HIGH - HUMIDITY_LOW) / HUMIDITY_STEP
    ensures GeneratedHumidity(h) && h != 100
  {
    HUMIDITY_LOW + HUMIDITY_STEP * k
  }

  /** barometricp_gen: the k-th value of round(uniform(995.6, 1009.1), 1), in tenths. */
  function BarometricGen(k: nat): (p: int)
    requires k <= PRESSURE_MAX - PRESSURE_MIN
    ensures PRESSURE_MIN <= p <= PRESSURE_MAX
  {
    PRESSURE_MIN + k
  }

  /** Every value of randint(-8, 3) is the result of some draw. */
  lemma TemperatureGenOnto(t: int)
    requires TEMP_MIN <= t <= TEMP_MAX
    ensures exists k: nat :: k <= TEMP_MAX - TEMP_MIN && TemperatureGen(k) == t
  {
    assert TemperatureGen(t - TEMP_MIN) == t;
  }

  /** Every value of randrange(40, 100, 10) is the result of some draw. */
  lemma HumidityGenOnto(h: int)
    requires GeneratedHumidity(h)
    ensures exists k: nat :: k < (HUMIDITY_HIGH - HUMIDITY_LOW) / HUMIDITY_STEP && HumidityGen(k) == h
  {
    var k := (h - HUMIDITY_LOW) / HUMIDITY_STEP;
    assert HumidityGen(k) == h;
  }

  /** Every pressure in [995.6, 1009.1] with one decimal is the result of some draw. */
  lemma BarometricGenOnto(p: int)
    requires PRESSURE_MIN <= p <= PRESSURE_MAX
    ensures exists k: nat :: k <= PRESSURE_MAX - PRESSURE_MIN && BarometricGen(k) == p
  {
    assert BarometricGen(p - PRESSURE_MIN) == p;
  }

  /** The observation made at a timestamp from one set of draws: the temperature
      is drawn first and the dewpoint follows it (generators.py:68-70 and 96-98). */
  function Observe(timestamp: int, d: Draw): (o: Observation)
    requires d.InRange()
    ensures o.timestamp == timestamp
    ensures TEMP_MIN <= o.temperature <= TEMP_MAX && o.dewpoint == o.temperature - 2
    ensures GeneratedHumidity(o.humidity) && o.humidity != 100
    ensures PRESSURE_MIN <= o.pressure <= PRESSURE_MAX
  {
    var temp := TemperatureGen(d.temperature);
    Observation(timestamp, temp, DewpointGen(temp), HumidityGen(d.humidity), BarometricGen(d.pressure))
  }

  /** The first observation, at 2022-01-01 00:00. */
  function FirstObservation(d: Draw): (o: Observation)
    requires d.InRange()
    ensures Generated(o) && o.timestamp == START
  {
    Observe(START, d)
  }

  /** The observation that follows `o`, five minutes later. */
  function NextObservation(o: Observation, d: Draw): (r: Observation)
    requires d.InRange()
    ensures r.timestamp == o.timestamp + STEP_MINUTES
    ensures TEMP_MIN <= r.temperature <= TEMP_MAX && r.dewpoint == r.temperature - 2
    ensures GeneratedHumidity(r.humidity) && r.humidity != 100
    ensures PRESSURE_MIN <= r.pressure <= PRESSURE_MAX
    ensures Generated(o) ==> Generated(r)
  {
    Observe(TimestampGen(o.timestamp), d)
  }
}
