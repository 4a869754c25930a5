# Weather machine: snow accumulation model

This project is a Dafny model of `generators.py`, the core of a toy snow simulator.
`WeatherGen` starts at 2022-01-01 00:00 with a random weather observation.
Each step does the following, in order:

1. It asks `PrecipitationGen` whether the *current* observation gives snow or rain, and how much.
2. It adds the snow to a running total, or subtracts the rain from it.
3. It computes a melt amount and discards it.
4. It clamps the total at 0.
5. It draws the next observation, five minutes later.

The constructor repeats this step until the timestamp equals a target date.

The model uses these units:

- A timestamp is a number of minutes since 2022-01-01 00:00.
- Pressure is an integer number of tenths of a hectopascal. The generator rounds pressure to one decimal, so the bracket edges compare exactly.
- Snow is an exact `real` number of metres.

A random draw is the index of the value chosen from a generator's range (`Observations.Draw`). Preconditions keep each index inside its range.

Modules:

- `Observations` (observations.dfy): the observation value, the range generators `timestamp_gen`, `temperature_gen`, `dewpoint_gen`, `humidity_gen` and `barometricp_gen`, and the observation built from one set of draws.
- `Precipitation` (precipitation.dfy): `precipitation_amount` and `snow_or_rain`. It also gives an independent closed form of the table. The amount is `wetness + depth - 4`, floored at 0. Wetness is 1 to 4 for 70% to 100% humidity. Depth is 1 to 4 for the brackets from the highest pressure down.
- `Accumulation` (accumulation.dfy): `SnowTotal` is the class-level `WeatherGen.total_snow`. It is a separate object, so several generators can share it, as they share the class attribute. `WeatherGen` is a class holding `temp` and `weather`. Its methods are `Next` (`__next__`), `AddSnow` (`add_snow`), the function `SnowMeltTemp`, and `AdvanceTo` (the `while` loop of `__init__`). The pure functions `StepTotal` and `Run` specify one step and a run of steps.

The model follows the code as written, including where its docstrings suggest otherwise:

- **Snow threshold.** `snow_or_rain` gives Snow only for temperatures strictly below 0. At 0 degrees it gives Rain.
- **Snow bands overlap.** `add_snow` tests its two bands with an `if` followed by a separate `if`/`else`, not one `elif` chain. So at -1 to -3 degrees both the 0.05 multiplier and the `else` multiplier 0.5 apply, for a total of 0.55 × amount. `ColdStepAddsBothMultipliers` shows a -2 degree step adding 0.55, not 0.05.
- **Melt is discarded.** The class docstring (generators.py:58-59) says `snow_melt_temp` subtracts from `total_snow`. In fact it only returns a value, and `__next__` discards that value. The model keeps this.
- **Pre-step observation.** Precipitation is computed from the current observation, before the step advances.
- **Amount is the table value.** `precipitation_amount` takes no duration, so the amount is the table value itself.

## Model

| member | source | states |
|---|---|---|
| `Observations.TimestampGen` | generators.py:108-113 | the next timestamp is exactly five minutes later |
| `Observations.TemperatureGen` | generators.py:115-119 | every drawn temperature lies in [-8, 3] |
| `Observations.TemperatureGenOnto` | generators.py:115-119 | every temperature in [-8, 3] can be drawn |
| `Observations.DewpointGen` | generators.py:121-125 | the dewpoint is two degrees below the temperature |
| `Observations.HumidityGen` | generators.py:127-131 | a drawn humidity is one of 40, 50, ..., 90, and is never 100 |
| `Observations.HumidityGenOnto` | generators.py:127-131 | every humidity in 40, 50, ..., 90 can be drawn |
| `Observations.BarometricGen` | generators.py:133-137 | a drawn pressure lies in [995.6, 1009.1] hPa |
| `Observations.BarometricGenOnto` | generators.py:133-137 | every one-decimal pressure in [995.6, 1009.1] can be drawn |
| `Observations.Observe` | generators.py:96-98 | an observation made from draws has its timestamp, a temperature in range, dewpoint = temperature - 2, a humidity in 40..90 and a pressure in range |
| `Observations.FirstObservation` | generators.py:68-70 | the first observation is at 2022-01-01 00:00 and satisfies every generator range |
| `Observations.NextObservation` | generators.py:96-98 | the next observation is five minutes later, satisfies every generator range, and keeps the five-minute grid |
| `Precipitation.PrecipitationAmount` | generators.py:190-218 | the amount is in 0..4 and equals the closed-form table (wetness + depth - 4, floored at 0); any humidity other than 70/80/90/100, or any pressure on a bracket edge, gives 0; a positive amount needs a pressure strictly between 995.6 and 1009.1 |
| `Precipitation.SnowOrRain` | generators.py:220-227 | Snow if and only if the temperature is below 0; Rain if and only if it is 0 or above |
| `Precipitation.AmountMonotoneInHumidity` | generators.py:194-218 | at a fixed pressure, the amount never falls as the humidity rises to any multiple of 10 up to 100 (every generated humidity and the 100% row) |
| `Precipitation.AmountMonotoneInPressure` | generators.py:194-218 | at a fixed humidity, the amount never rises as the pressure rises from a pressure strictly inside a bracket; it can rise only from an edge or out-of-bracket pressure, where it is 0 |
| `Precipitation.EdgeDip` | generators.py:199-201 | strict comparisons make 999.0 hPa give 0 at 100% humidity, between 4 at 998.9 and 3 at 999.1 |
| `Precipitation.GeneratedAmountAtMostThree` | generators.py:194-202 | for any humidity below 100 (every generated one), the amount is at most 3, so the 100% row's 4 is never reached |
| `Accumulation.SnowIncrement` | generators.py:139-148 | snow adds 0.55 × amount at -3..-1 degrees (both multipliers), 0.2 × amount at -6..-4, 0.5 × amount otherwise, and never a negative amount |
| `Accumulation.StepTotal` | generators.py:86-95 | the new total is never negative; below 0 degrees it is the total plus the snow increment, clamped at 0; at 0 or above it is the total minus the amount, clamped at 0; for a non-negative total, snow never lowers it and rain never raises it |
| `Accumulation.WarmDryStepKeepsTotal` | generators.py:92-93 | above 0 degrees with no precipitation, a non-negative total is unchanged, because the melt is not subtracted |
| `Accumulation.ColdStepAddsBothMultipliers` | generators.py:143-148 | at -2 degrees, 100% humidity and 1006.0 hPa, a step from 0 gives 0.55 |
| `Accumulation.WarmRainClampsToZero` | generators.py:90-95 | at 2 degrees, 70% humidity and 997.0 hPa, a total of at most 1 becomes 0 |
| `Accumulation.Run` | generators.py:71-72 | the state after one `__next__` per draw; after n steps the timestamp is 5n minutes later, and the total is non-negative once a step has run (or if it started non-negative) |
| `Accumulation.RunSnoc` | generators.py:71-72 | a run over one more draw is one more step after the run |
| `Accumulation.RunFacts` | generators.py:81-98 | a run from a generated observation ends at an observation that satisfies every generator range |
| `Accumulation.SnowTotal.constructor` | generators.py:62 | the shared total starts at 0 |
| `Accumulation.WeatherGen.constructor` | generators.py:64-72 | the generator starts at 2022-01-01 00:00 and ends exactly at the target; its state is the run of (target / 5) steps from the first observation |
| `Accumulation.WeatherGen.AdvanceTo` | generators.py:71-72 | the loop ends with the timestamp equal to the target after exactly (target - now) / 5 steps; the final state is the specified run over those draws |
| `Accumulation.WeatherGen.Next` | generators.py:81-98 | the shared total becomes the step total of the current observation, so it is never negative; the new observation is the next one from the draws; `temp` stays the current temperature |
| `Accumulation.WeatherGen.AddSnow` | generators.py:139-148 | the shared total grows by exactly the snow increment at the current temperature |
| `Accumulation.WeatherGen.SnowMeltTemp` | generators.py:150-158 | the melt is 0.05 metres per degree from 1 to 3 degrees and 0 otherwise; it reads the state and changes nothing |

## Left out

- `get_target_date` (generators.py:100-106) reads the target from the console. The target is a constructor parameter instead.
- The final `print` of the state (generators.py:74-79) is console output. It is not modelled, and neither is its rounding to three decimals.
- The `random` module is not modelled. Each draw is passed in as an index into its generator's range, so the model says nothing about probabilities.
- Floating point is replaced by exact arithmetic. Snow uses exact reals, so 0.05 + 0.5 is exactly 0.55 here. Pressure uses integer tenths.
- `datetime` calendar arithmetic is replaced by minutes since 2022-01-01 00:00.
- The constructor and `AdvanceTo` exclude, by precondition, targets the loop never meets exactly: a target before the current time, or one off the five-minute grid. In the source, the loop then steps on until the timestamp passes the largest date `datetime` can hold, and `timestamp_gen` (generators.py:112) raises `OverflowError`, which propagates out of `__init__`. That error path is not modelled.
- `Accumulation.WeatherGen.constructor` and `Accumulation.WeatherGen.AdvanceTo` require at least as many draws as steps, since the draws are given up front.
