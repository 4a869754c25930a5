/** The precipitation classifier: whether an observation gives snow or rain,
    and how much, from a humidity and pressure lookup table.
    Pressures are in tenths of a hectopascal (see module Observations). */
module Precipitation {

  datatype Kind = Snow | Rain

  /** The edges of the pressure brackets, in tenths of a hectopascal:
      995.6, 999.0, 1002.4, 1005.8 and 1009.1 hPa. */
  const EDGE_0: int := 9956
  const EDGE_1: int := 9990
  const EDGE_2: int := 10024
  const EDGE_3: int := 10058
  const EDGE_4: int := 10091

  predicate OnEdge(p: int)
  {
    p == EDGE_0 || p == EDGE_1 || p == EDGE_2 || p == EDGE_3 || p == EDGE_4
  }

  /** The humidities that have rows in the table. */
  predicate Tabulated(h: int)
  {
    h == 70 || h == 80 || h == 90 || h == 100
  }

  /** precipitation_amount: the nested threshold table. Every bracket is a
      strict open interval, so a pressure on an edge falls through to 0. */
  function PrecipitationAmount(humidity: int, pressure: int): (r: nat)
    ensures r <= 4
    ensures r == TableAmount(humidity, pressure)
    ensures !Tabulated(humidity) || OnEdge(pressure) ==> r == 0
    ensures r > 0 ==> EDGE_0 < pressure < EDGE_4
  {
    if humidity == 100 then
      if EDGE_4 > pressure > EDGE_3 then 1
      else if EDGE_3 > pressure > EDGE_2 then 2
      else if EDGE_2 > pressure > EDGE_1 then 3
      else if EDGE_1 > pressure > EDGE_0 then 4
      else 0
    else if humidity == 90 then
      if EDGE_3 > pressure > EDGE_2 then 1
      else if EDGE_2 > pressure > EDGE_1 then 2
      else if EDGE_1 > pressure > EDGE_0 then 3
      else 0
    else if humidity == 80 then
      if EDGE_2 > pressure > EDGE_1 then 1
      else if EDGE_1 > pressure > EDGE_0 then 2
      else 0
    else if humidity == 70 then
      if EDGE_1 > pressure > EDGE_0 then 1
      else 0
    else 0
  }

  /** snow_or_rain: snow strictly below 0 degrees, rain from 0 degrees up. */
  function SnowOrRain(temperature: int): (k: Kind)
    ensures k == Snow <==> temperature < 0
    ensures k == Rain <==> temperature >= 0
  {
    if temperature < 0 then Snow else Rain
  }

  // ---------------------------------------------------------------------------
  // An independent description of the table: the amount grows by one for each
  // step of humidity above 60% and for each bracket further down in pressure.

  /** How deep the pressure lies in the brackets: 0 outside every open bracket
      (including on an edge), 1 for (1005.8, 1009.1), ..., 4 for (995.6, 999.0). */
  function Depth(p: int): (d: nat)
    ensures d <= 4
  {
    if EDGE_3 < p < EDGE_4 then 1
    else if EDGE_2 < p < EDGE_3 then 2
    else if EDGE_1 < p < EDGE_2 then 3
    else if EDGE_0 < p < EDGE_1 then 4
    else 0
  }

  /** How wet the air is: 1 for 70%, ..., 4 for 100%, 0 for any other humidity. */
  function Wetness(h: int): (w: nat)
    ensures w <= 4
    ensures w > 0 <==> Tabulated(h)
  {
    if Tabulated(h) then (h - 60) / 10 else 0
  }

  function TableAmount(h: int, p: int): (r: nat)
  {
    if Wetness(h) == 0 || Depth(p) == 0 || Wetness(h) + Depth(p) <= 4 then 0
    else Wetness(h) + Depth(p) - 4
  }

  // ---------------------------------------------------------------------------
  // Properties of the table.

  /** At a fixed pressure the amount never falls as the humidity rises to any
      whole step of 10% up to 100% (every humidity the generator produces, and
      the 100% row). */
  lemma AmountMonotoneInHumidity(h1: int, h2: int, p: int)
    requires h1 <= h2 <= 100 && h2 % 10 == 0
    ensures PrecipitationAmount(h1, p) <= PrecipitationAmount(h2, p)
  {
  }

  /** At a fixed humidity the amount never rises as the pressure rises from a
      pressure strictly inside a bracket. It can rise only from a lower pressure
      on an edge or outside every bracket, where the amount is 0 (see EdgeDip). */
  lemma AmountMonotoneInPressure(h: int, p1: int, p2: int)
    requires p1 <= p2 && Depth(p1) > 0
    ensures PrecipitationAmount(h, p1) >= PrecipitationAmount(h, p2)
  {
  }

  /** The strict comparisons make the amount dip to 0 on an edge: at 100%
      humidity, 999.0 hPa gives nothing while 998.9 and 999.1 hPa give 4 and 3. */
  lemma EdgeDip()
    ensures PrecipitationAmount(100, 9989) == 4
    ensures PrecipitationAmount(100, EDGE_1) == 0
    ensures PrecipitationAmount(100, 9991) == 3
  {
  }

  /** A humidity the generator can produce (at most 90%) never reaches the
      amount 4 of the 100% row. */
  lemma GeneratedAmountAtMostThree(h: int, p: int)
    requires h < 100
    ensures PrecipitationAmount(h, p) <= 3
  {
  }
}
