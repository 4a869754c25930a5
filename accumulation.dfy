/** The snow accumulation step of the weather generator and the loop that
    advances it to a target timestamp. Snow is measured in metres, as an exact
    real number. */
module Accumulation {
  import opened Observations
  import opened Precipitation

  function Max0(x: real): (r: real)
  {
    if x < 0.0 then 0.0 else x
  }

  /** add_snow: how much the total grows when `amount` falls as snow at `temp`.
      The two bands are tested by an `if` followed by a separate `if`/`else`,
      so between -1 and -3 degrees both the 0.05 multiplier and the `else`
      multiplier 0.5 apply. */
  function SnowIncrement(temp: int, amount: nat): (r: real)
    ensures r >= 0.0
    ensures -3 <= temp <= -1 ==> r == 0.55 * amount as real
    ensures -6 <= temp <= -4 ==> r == 0.2 * amount as real
    ensures temp < -6 || temp > -1 ==> r == 0.5 * amount as real
  {
    (if -1 >= temp >= -3 then amount as real * 0.05 else 0.0)
    + (if -4 >= temp >= -6 then amount as real * 0.2 else amount as real * 0.5)
  }

  /** The new total after one step classified by observation `o`: snow adds,
      rain subtracts, the melt is computed and dropped, and the result is
      clamped at 0. */
  function StepTotal(total: real, o: Observation): (r: real)
    ensures r >= 0.0
    ensures o.temperature < 0
      ==> r == Max0(total + SnowIncrement(o.temperature, PrecipitationAmount(o.humidity, o.pressure)))
    ensures o.temperature >= 0
      ==> r == Max0(total - PrecipitationAmount(o.humidity, o.pressure) as real)
    ensures total >= 0.0 && o.temperature < 0 ==> r >= total
    ensures total >= 0.0 && o.temperature >= 0 ==> r <= total
  {
    var kind := SnowOrRain(o.temperature);
    var amount := PrecipitationAmount(o.humidity, o.pressure);
    var afterSnow := if kind == Snow then total + SnowIncrement(o.temperature, amount) else total;
    var afterRain := if kind == Rain then afterSnow - amount as real else afterSnow;
    Max0(afterRain)
  }

  /** A warm step with no precipitation leaves a non-negative total as it was:
      the melt is never subtracted. */
  lemma WarmDryStepKeepsTotal(total: real, o: Observation)
    requires total >= 0.0 && o.temperature > 0
    requires PrecipitationAmount(o.humidity, o.pressure) == 0
    ensures StepTotal(total, o) == total
  {
  }

  /** At -2 degrees, 100% humidity and 1006.0 hPa the amount is 1 and the
      total grows by 0.55 metres (0.05 and then 0.5), not by 0.05 alone. */
  lemma ColdStepAddsBothMultipliers(o: Observation)
    requires o.temperature == -2 && o.humidity == 100 && o.pressure == 10060
    ensures StepTotal(0.0, o) == 0.55
  {
  }

  /** At 2 degrees, 70% humidity and 997.0 hPa it rains 1, and a total under
      1 metre is clamped to 0. */
  lemma WarmRainClampsToZero(total: real, o: Observation)
    requires 0.0 <= total <= 1.0
    requires o.temperature == 2 && o.humidity == 70 && o.pressure == 9970
    ensures StepTotal(total, o) == 0.0
  {
  }

  /** The state after running one step per draw: the observation and the total.
      After n steps the timestamp is 5n minutes on, and the total is
      non-negative once a step has run. */
  function Run(o: Observation, total: real, ds: seq<Draw>): (r: (Observation, real))
    requires AllInRange(ds)
    ensures r.0.timestamp == o.timestamp + STEP_MINUTES * |ds|
    ensures |ds| > 0 || total >= 0.0 ==> r.1 >= 0.0
    decreases |ds|
  {
    if ds == [] then (o, total)
    else Run(NextObservation(o, ds[0]), StepTotal(total, o), ds[1..])
  }

  /** Running one more step is one more step after the run. */
  lemma {:induction false} RunSnoc(o: Observation, total: real, ds: seq<Draw>, d: Draw)
    requires AllInRange(ds) && d.InRange()
    ensures AllInRange(ds + [d])
    ensures Run(o, total, ds + [d])
         == (NextObservation(Run(o, total, ds).0, d), StepTotal(Run(o, total, ds).1, Run(o, total, ds).0))
    decreases |ds|
  {
    if ds == [] {
      assert [] + [d] == [d];
    } else {
      assert (ds + [d])[1..] == ds[1..] + [d];
      RunSnoc(NextObservation(o, ds[0]), StepTotal(total, o), ds[1..], d);
    }
  }

  /** A run from a generated observation ends at a generated observation. */
  lemma {:induction false} RunFacts(o: Observation, total: real, ds: seq<Draw>)
    requires AllInRange(ds) && Generated(o)
    ensures Generated(Run(o, total, ds).0)
    decreases |ds|
  {
    if ds != [] {
      RunFacts(NextObservation(o, ds[0]), StepTotal(total, o), ds[1..]);
    }
  }

  /** The class-level `WeatherGen.total_snow`: one total shared by every
      generator, starting at 0. */
  class SnowTotal {
    var metres: real

    constructor ()
      ensures metres == 0.0
    {
      metres := 0.0;
    }
  }

  class WeatherGen {
    /** The shared total that this generator updates. */
    const total: SnowTotal
    /** The timestamp the constructor advances to. */
    const targetDate: int
    var temp: int
    var weather: Observation

    /** `temp` is the temperature of the current observation, which is a
        generated one. */
    ghost predicate Valid()
      reads this
    {
      temp == weather.temperature && Generated(weather)
    }

    /** __init__: draw the first observation at 2022-01-01 00:00, then step
        until the timestamp equals the target. The target, read from the
        console by the source, is a parameter here. */
    constructor (total: SnowTotal, targetDate: int, first: Draw, draws: seq<Draw>)
      requires first.InRange() && AllInRange(draws)
      requires START <= targetDate && (targetDate - START) % STEP_MINUTES == 0
      requires |draws| >= (targetDate - START) / STEP_MINUTES
      modifies total
      ensures Valid() && this.total == total && this.targetDate == targetDate
      ensures weather.timestamp == targetDate
      ensures (weather, total.metres)
           == Run(FirstObservation(first), old(total.metres), draws[..(targetDate - START) / STEP_MINUTES])
    {
      this.total := total;
      this.targetDate := targetDate;
      var t := TemperatureGen(first.temperature);
      temp := t;
      weather := Observation(START, t, DewpointGen(t), HumidityGen(first.humidity), BarometricGen(first.pressure));
      new;
      var steps := AdvanceTo(draws);
    }

    /** The `while` loop of __init__: one step per draw until the timestamp
        equals the target; it takes exactly (target - now) / 5 steps. */
    method AdvanceTo(draws: seq<Draw>) returns (steps: nat)
      requires Valid() && AllInRange(draws)
      requires weather.timestamp <= targetDate && (targetDate - weather.timestamp) % STEP_MINUTES == 0
      requires |draws| >= (targetDate - weather.timestamp) / STEP_MINUTES
      modifies this, total
      ensures Valid() && weather.timestamp == targetDate
      ensures steps == (targetDate - old(weather.timestamp)) / STEP_MINUTES
      ensures (weather, total.metres) == Run(old(weather), old(total.metres), draws[..steps])
    {
      steps := 0;
      while weather.timestamp != targetDate
        invariant Valid()
        invariant weather.timestamp == old(weather.timestamp) + STEP_MINUTES * steps
        invariant weather.timestamp <= targetDate && (targetDate - weather.timestamp) % STEP_MINUTES == 0
        invariant steps <= |draws|
        invariant (weather, total.metres) == Run(old(weather), old(total.metres), draws[..steps])
        decreases targetDate - weather.timestamp
      {
        RunSnoc(old(weather), old(total.metres), draws[..steps], draws[steps]);
        assert draws[..steps] + [draws[steps]] == draws[..steps + 1];
        Next(draws[steps]);
        steps := steps + 1;
      }
    }

    /** __next__: classify the current observation, add snow or subtract
        rain, compute the melt and discard it, clamp the total at 0, then
        draw the next observation five minutes later. */
    method Next(d: Draw)
      requires Valid() && d.InRange()
      modifies this, total
      ensures Valid()
      ensures total.metres == StepTotal(old(total.metres), old(weather))
      ensures weather == NextObservation(old(weather), d)
      ensures total.metres >= 0.0
    {
      var kind := SnowOrRain(weather.temperature);
      var amount := PrecipitationAmount(weather.humidity, weather.pressure);
      if kind == Snow {
        AddSnow(amount);
      }
      if kind == Rain {
        total.metres := total.metres - amount as real;
      }
      if temp > 0 {
        var melt := SnowMeltTemp();
      }
      if total.metres < 0.0 {
        total.metres := 0.0;
      }
      temp := TemperatureGen(d.temperature);
      weather := Observation(TimestampGen(weather.timestamp), temp, DewpointGen(temp),
                             HumidityGen(d.humidity), BarometricGen(d.pressure));
    }

    /** add_snow: grow the shared total by the snow that `amount` of
        precipitation makes at the current temperature. */
    method AddSnow(amount: nat)
      modifies total
      ensures total.metres == old(total.metres) + SnowIncrement(temp, amount)
      ensures total.metres >= old(total.metres)
    {
      if -1 >= temp >= -3 {
        total.metres := total.metres + amount as real * 0.05;
      }
      if -4 >= temp >= -6 {
        total.metres := total.metres + amount as real * 0.2;
      } else {
        total.metres := total.metres + amount as real * 0.5;
      }
    }

    /** snow_melt_temp: the melt for the current observation's temperature,
        0.05 metres per degree from 1 to 3 degrees and none otherwise. It only
        reads; the total is not touched. */
    function SnowMeltTemp(): (r: real)
      reads this
      ensures r >= 0.0
      ensures 1 <= weather.temperature <= 3 ==> r == 0.05 * weather.temperature as real
      ensures weather.temperature < 1 || weather.temperature > 3 ==> r == 0.0
    {
      if weather.temperature == 1 then 0.05
      else if weather.temperature == 2 then 0.1
      else if weather.temperature == 3 then 0.15
      else 0.0
    }
  }
}
