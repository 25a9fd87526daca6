/** The blue-light ratio aggregator (`calculate_pollution_from_nasa`). */
module Pollution {
  import opened Events

  /** Per-city constants of the aggregator's own table; `growth` is listed there but never read. */
  datatype Constants = Constants(base: real, growth: real)

  const BaseData: map<string, Constants> := map[
    "lima" := Constants(0.65, 0.04),
    "huanuco" := Constants(0.38, 0.01),
    "cusco" := Constants(0.45, 0.03),
    "arequipa" := Constants(0.55, 0.035)
  ]
  const DefaultConstants: Constants := Constants(0.5, 0.02)

  const EventWeight: real := 0.015
  const MaxNoise: real := 0.03
  const MinBlue: real := 0.2
  const MaxBlue: real := 0.8

  datatype Ratios = Ratios(blue: real, orange: real)

  /** `base_data.get(city_id, default)`: the default base 0.5 is used exactly for unlisted ids,
      since no listed city has that base. */
  function ConstantsFor(cityId: string): (c: Constants)
    ensures c.base == 0.5 <==> cityId !in BaseData
    ensures 0.38 <= c.base <= 0.65
    ensures 0.01 <= c.growth <= 0.04
  {
    if cityId in BaseData then BaseData[cityId] else DefaultConstants
  }

  /** `max(0.2, min(0.8, x))`: inside the band it is the identity, outside it the nearer bound. */
  function Clamp(x: real): (r: real)
    ensures MinBlue <= r <= MaxBlue
    ensures MinBlue <= x <= MaxBlue ==> r == x
    ensures x < MinBlue ==> r == MinBlue
    ensures MaxBlue < x ==> r == MaxBlue
  {
    if MaxBlue < x then MaxBlue else if x < MinBlue then MinBlue else x
  }

  /** The noiseless estimate: the city's base plus 0.015 per event. */
  function Estimate(cityId: string, eventCount: nat): real {
    ConstantsFor(cityId).base + (eventCount as real) * EventWeight
  }

  /** The aggregator with the uniform draw `noise` passed in. The result lies in [0.2, 0.8], the orange
      ratio is its exact complement, and the blue ratio is within the clamped noise band around the
      noiseless estimate. */
  function CalculatePollution(cityId: string, events: seq<Event>, noise: real): (r: Ratios)
    requires -MaxNoise <= noise <= MaxNoise
    ensures MinBlue <= r.blue <= MaxBlue
    ensures r.orange == 1.0 - r.blue
    ensures MinBlue <= r.orange <= MaxBlue
    ensures Clamp(Estimate(cityId, |events|) - MaxNoise) <= r.blue <= Clamp(Estimate(cityId, |events|) + MaxNoise)
  {
    var blue := Clamp(ConstantsFor(cityId).base + (|events| as real) * EventWeight + noise);
    Ratios(blue, 1.0 - blue)
  }

  /** The clamp is monotone, so more events never lower the blue ratio of a city under the same draw. */
  lemma MoreEventsNeverLowerBlue(cityId: string, fewer: seq<Event>, more: seq<Event>, noise: real)
    requires -MaxNoise <= noise <= MaxNoise
    requires |fewer| <= |more|
    ensures CalculatePollution(cityId, fewer, noise).blue <= CalculatePollution(cityId, more, noise).blue
  {
    assert (|fewer| as real) * EventWeight <= (|more| as real) * EventWeight;
  }

  /** With at most three events, which is all the event adapter ever returns, the raw sum stays inside
      [0.35, 0.725] for every city id, so the clamp never changes it. */
  lemma AdapterEventsAreNeverClamped(cityId: string, events: seq<Event>, noise: real)
    requires -MaxNoise <= noise <= MaxNoise
    requires |events| <= MaxEvents
    ensures CalculatePollution(cityId, events, noise).blue == Estimate(cityId, |events|) + noise
    ensures 0.35 <= CalculatePollution(cityId, events, noise).blue <= 0.725
  {
    var n := |events| as real;
    assert 0.0 <= n * EventWeight <= 0.045;
  }
}
